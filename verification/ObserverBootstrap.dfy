/** The queue's retained records, listed when an observer is activated, all reach that observer. */
module ObserverBootstrap {
  import opened Prelude
  import opened Observers
  import opened ObserverDelivery
  import opened ObserverRuns

  /** A retained record on its way to `r`: with the activation, queued, in the dispatcher's hand,
      delivered or dropped. */
  ghost function Retrieved(st: State, r: RegId, m: Snapshot): nat {
    Count(st.delivered, (r, m)) + BootCopies(st, r, m) + Count(st.dropped, Boot(m, r))
  }

  /** Every listed occurrence of `e` is accounted for; none travels as a publication. */
  ghost predicate Retained(st: State, r: RegId, e: Entry) {
    var m := Snapshot(e, 0);
    && LiveCopies(st, r, m) == 0
    && (r in st.regs ==> Count(st.regs[r].pending, m) == 0)
    && (r !in st.listed ==> Retrieved(st, r, m) == 0)
    && (r in st.listed ==>
          && r in st.regs && !st.regs[r].initialising
          && Retrieved(st, r, m) <= Count(st.listed[r], e)
          && (Due(st, r, m) ==> Retrieved(st, r, m) == Count(st.listed[r], e)))
  }

  lemma {:induction false} TagCounts(listed: seq<Entry>, pending: seq<Snapshot>, e: Entry)
    ensures Count(Tag(listed) + pending, Snapshot(e, 0)) == Count(listed, e) + Count(pending, Snapshot(e, 0))
  {
    if listed == [] {
      assert Tag(listed) + pending == pending;
    } else {
      TagCounts(listed[1..], pending, e);
      assert (Tag(listed) + pending)[1..] == Tag(listed[1..]) + pending;
    }
  }

  /** The bootstrap batch holds every listed record as often as it was listed, and nothing else that was
      not published. */
  lemma ActivateLists(st: State, r: RegId, listed: seq<Entry>, e: Entry)
    requires r in st.regs && Count(st.regs[r].pending, Snapshot(e, 0)) == 0
    ensures Count(DoActivate(st, r, listed).activating[r], Snapshot(e, 0)) == Count(listed, e)
  {
    var batch := Tag(listed) + st.regs[r].pending;
    OrderedIsSort(batch);
    assert Count(Ordered(batch), Snapshot(e, 0)) == Count(batch, Snapshot(e, 0));
    TagCounts(listed, st.regs[r].pending, e);
  }

  // ---- Each step keeps the account ----

  lemma RegisterRetains(st: State, x: RegId, entryId: Option<Id>, r: RegId, e: Entry)
    requires Shaped(st) && Retained(st, r, e) && x !in st.regs
    ensures Retained(DoRegister(st, x, entryId), r, e)
  {
    hide Count, Distinct;
    CountAbsent<Snapshot>([], Snapshot(e, 0));
  }

  lemma UnregisterRetains(st: State, x: RegId, r: RegId, e: Entry)
    requires Shaped(st) && Retained(st, r, e) && x in st.regs
    ensures Retained(DoUnregister(st, x), r, e)
  {
    hide Count, Distinct, Without;
  }

  lemma PublishRetains(st: State, entry: Entry, r: RegId, e: Entry)
    requires Shaped(st) && Retained(st, r, e)
    ensures Retained(DoPublish(st, entry), r, e)
  {
    hide Count, Distinct;
    if r in st.regs {
      CountAppend(st.regs[r].pending, Snapshot(entry, st.sequence + 1), Snapshot(e, 0));
    }
  }

  /** Publishers between lock and queue hold publications only. */
  lemma FlightRetains(st: State, flights: map<nat, Flight>, r: RegId, e: Entry)
    requires Retained(st, r, e) && 0 !in flights
    ensures Retained(st.(flights := flights), r, e)
  {
    hide Count, Distinct;
  }

  lemma QueuedRetains(st: State, snap: Snapshot, r: RegId, e: Entry)
    requires Retained(st, r, e) && snap.origin > 0
    ensures Retained(st.(events := st.events + [Live(snap)]), r, e)
    ensures Retained(st.(dropped := st.dropped + [Live(snap)]), r, e)
  {
    hide Count, Distinct;
    QueueCounts(st, Live(snap), Live(Snapshot(e, 0)));
    QueueCounts(st, Live(snap), Boot(Snapshot(e, 0), r));
  }

  lemma ActivateRetains(st: State, x: RegId, listed: seq<Entry>, r: RegId, e: Entry)
    requires Shaped(st) && Retained(st, r, e) && x in st.regs && st.regs[x].initialising
    ensures Retained(DoActivate(st, x, listed), r, e)
  {
    if x == r {
      ActivateLists(st, r, listed, e);
    }
    hide Count, Distinct, Tag, Ordered;
    CountAbsent<Snapshot>([], Snapshot(e, 0));
  }

  lemma BootQueuedRetains(st: State, x: RegId, r: RegId, e: Entry)
    requires Shaped(st) && Retained(st, r, e) && x in st.activating && st.activating[x] != []
    ensures Retained(st.(activating := st.activating[x := st.activating[x][1..]],
                         events := st.events + [Boot(st.activating[x][0], x)]), r, e)
  {
    hide Count, Distinct;
    CountHead(st.activating[x], Snapshot(e, 0));
    QueueCounts(st, Boot(st.activating[x][0], x), Live(Snapshot(e, 0)));
    QueueCounts(st, Boot(st.activating[x][0], x), Boot(Snapshot(e, 0), r));
  }

  lemma BootDroppedRetains(st: State, x: RegId, r: RegId, e: Entry)
    requires Shaped(st) && Retained(st, r, e) && x in st.activating && st.activating[x] != []
    ensures Retained(st.(activating := st.activating[x := st.activating[x][1..]],
                         dropped := st.dropped + [Boot(st.activating[x][0], x)]), r, e)
  {
    hide Count, Distinct;
    CountHead(st.activating[x], Snapshot(e, 0));
    QueueCounts(st, Boot(st.activating[x][0], x), Live(Snapshot(e, 0)));
    QueueCounts(st, Boot(st.activating[x][0], x), Boot(Snapshot(e, 0), r));
  }

  lemma GetRetains(st: State, r: RegId, e: Entry)
    requires Shaped(st) && Retained(st, r, e) && st.dispatcher.Idle? && st.events != []
    ensures Retained(DoGet(st), r, e)
  {
    hide Count, Distinct;
    CountHead(st.events, Live(Snapshot(e, 0)));
    CountHead(st.events, Boot(Snapshot(e, 0), r));
  }

  lemma TakeRetains(st: State, r: RegId, e: Entry)
    requires Shaped(st) && Retained(st, r, e) && st.dispatcher.Holding?
    ensures Retained(st.(dispatcher := Visiting(st.dispatcher.delivery, st.registrations)), r, e)
  {
    hide Count, Distinct;
  }

  lemma PassRetains(st: State, r: RegId, e: Entry)
    requires Shaped(st) && Retained(st, r, e) && st.dispatcher.Visiting? && st.dispatcher.todo != []
    requires var x := st.dispatcher.todo[0]; !(x in st.regs && Wants(st.regs[x], st.dispatcher.delivery))
    ensures Retained(st.(dispatcher := Visiting(st.dispatcher.delivery, st.dispatcher.todo[1..])), r, e)
  {
    hide Count, Distinct;
    CountHead(st.dispatcher.todo, r);
    assert st.dispatcher.todo[0] in st.dispatcher.todo;
  }

  lemma CallRetains(st: State, r: RegId, e: Entry)
    requires Shaped(st) && Retained(st, r, e) && st.dispatcher.Visiting? && st.dispatcher.todo != []
    requires var x := st.dispatcher.todo[0]; x in st.regs && Wants(st.regs[x], st.dispatcher.delivery)
    ensures
      var x := st.dispatcher.todo[0];
      Retained(st.(dispatcher := Visiting(st.dispatcher.delivery, st.dispatcher.todo[1..]),
                   delivered := st.delivered + [(x, st.dispatcher.delivery.snap)]), r, e)
  {
    hide Count, Distinct, Wants;
    var d, todo := st.dispatcher.delivery, st.dispatcher.todo;
    CountHead(todo, r);
    CountAppend(st.delivered, (todo[0], d.snap), (r, Snapshot(e, 0)));
    assert todo[0] in todo;
  }

  lemma VisitRetains(st: State, r: RegId, e: Entry)
    requires Shaped(st) && Retained(st, r, e) && st.dispatcher.Visiting?
    ensures Retained(DoVisit(st), r, e)
  {
    if st.dispatcher.todo != [] {
      hide Shaped, Retained, Wants;
      var x := st.dispatcher.todo[0];
      if x in st.regs && Wants(st.regs[x], st.dispatcher.delivery) {
        CallRetains(st, r, e);
      } else {
        PassRetains(st, r, e);
      }
    }
  }

  lemma NextRetains(st: State, step: Step, r: RegId, e: Entry)
    requires Shaped(st) && Retained(st, r, e)
    ensures Retained(Next(st, step), r, e)
  {
    assert 0 !in st.flights && forall s :: s in st.flights ==> st.flights[s].snap.origin > 0;
    hide Shaped, Retained;
    match step
    case Register(x, entryId) => if x !in st.regs { RegisterRetains(st, x, entryId, r, e); }
    case Unregister(x) => if x in st.regs { UnregisterRetains(st, x, r, e); }
    case Publish(entry) => PublishRetains(st, entry, r, e);
    case TestNext(s) =>
      if s in st.flights && !st.flights[s].ready {
        FlightRetains(st, DoTest(st, s).flights, r, e);
      }
    case QueueLive(s) =>
      if s in st.flights && st.flights[s].ready {
        FlightRetains(st, st.flights - {s}, r, e);
        QueuedRetains(st.(flights := st.flights - {s}), st.flights[s].snap, r, e);
      }
    case Activate(x, listed) =>
      if x in st.regs && st.regs[x].initialising {
        ActivateRetains(st, x, listed, r, e);
      }
    case QueueBoot(x) =>
      if x in st.activating && st.activating[x] != [] {
        BootQueuedRetains(st, x, r, e);
        BootDroppedRetains(st, x, r, e);
      }
    case Get => if st.dispatcher.Idle? && st.events != [] { GetRetains(st, r, e); }
    case TakeRegistrations => if st.dispatcher.Holding? { TakeRetains(st, r, e); }
    case Visit => if st.dispatcher.Visiting? { VisitRetains(st, r, e); }
  }

  lemma {:induction false} RunRetains(st: State, steps: seq<Step>, r: RegId, e: Entry)
    requires Shaped(st) && Retained(st, r, e)
    ensures Retained(Run(st, steps), r, e)
    decreases |steps|
  {
    if steps != [] {
      hide Shaped, Retained;
      NextShape(st, steps[0]);
      NextRetains(st, steps[0], r, e);
      RunRetains(Next(st, steps[0]), steps[1..], r, e);
    }
  }

  /** A record listed at an observer's activation is delivered to it at most as often as it was listed;
      while the observer stays subscribed and interested every listed occurrence is with the
      activation, queued, being dispatched, delivered or dropped; and once all is quiet and none was
      dropped, every one was delivered. */
  lemma RetainedReach(steps: seq<Step>, r: RegId, e: Entry)
    requires StandingOf(steps, r).Registered? && StandingOf(steps, r).listed.Some?
    ensures
      var st, m := Run(INIT, steps), Snapshot(e, 0);
      var n := Count(StandingOf(steps, r).listed.value, e);
      && r in st.regs
      && Retrieved(st, r, m) <= n
      && (Interested(StandingOf(steps, r), e) ==> Retrieved(st, r, m) == n)
      && (Interested(StandingOf(steps, r), e) && Settled(st, r, m) && Boot(m, r) !in st.dropped ==>
            Count(st.delivered, (r, m)) == n)
  {
    RunIs(steps, r);
    RunRetains(INIT, steps, r, e);
    var st := Run(INIT, steps);
    CountAbsent(st.dropped, Boot(Snapshot(e, 0), r));
  }

  // ---- Nobody else's deliveries ----

  /** Every delivery went to a registered observer that asked for that entry. */
  ghost predicate Filtered(st: State) {
    forall p :: p in st.delivered ==>
      p.0 in st.regs && (st.regs[p.0].entryId.None? || st.regs[p.0].entryId.value == p.1.entry.id)
  }

  lemma NextFilters(st: State, step: Step)
    requires Filtered(st)
    ensures Filtered(Next(st, step))
  {
    if !ChangesStanding(step) {
      OtherSteps(st, step);
    }
  }

  lemma {:induction false} RunFilters(st: State, steps: seq<Step>)
    requires Filtered(st)
    ensures Filtered(Run(st, steps))
    decreases |steps|
  {
    if steps != [] {
      NextFilters(st, steps[0]);
      RunFilters(Next(st, steps[0]), steps[1..]);
    }
  }

  /** An observer of one entry is only ever told about that entry. */
  lemma OnlyTheEntryAskedFor(steps: seq<Step>, r: RegId, i: Id, m: Snapshot)
    requires StandingOf(steps, r).Registered? && StandingOf(steps, r).entryId == Some(i)
    requires (r, m) in Run(INIT, steps).delivered
    ensures m.entry.id == i
  {
    RunIs(steps, r);
    RunFilters(INIT, steps);
  }

  lemma InactiveStep(st: State, step: Step, r: RegId, m: Snapshot)
    requires r in st.regs && !st.regs[r].active
    ensures
      var st' := Next(st, step);
      r in st'.regs && !st'.regs[r].active && Count(st'.delivered, (r, m)) == Count(st.delivered, (r, m))
  {
    if step.Visit? && st.dispatcher.Visiting? && st.dispatcher.todo != [] {
      CountAppend(st.delivered, (st.dispatcher.todo[0], st.dispatcher.delivery.snap), (r, m));
    } else if !ChangesStanding(step) {
      OtherSteps(st, step);
    }
  }

  lemma {:induction false} InactiveForever(st: State, steps: seq<Step>, r: RegId, m: Snapshot)
    requires r in st.regs && !st.regs[r].active
    ensures Count(Run(st, steps).delivered, (r, m)) == Count(st.delivered, (r, m))
    decreases |steps|
  {
    if steps != [] {
      InactiveStep(st, steps[0], r, m);
      InactiveForever(Next(st, steps[0]), steps[1..], r, m);
    }
  }

  /** From the moment it unsubscribes an observer is told nothing more. */
  lemma SilentOnceUnsubscribed(steps: seq<Step>, more: seq<Step>, r: RegId, m: Snapshot)
    requires StandingOf(steps, r).Registered? && !StandingOf(steps, r).active
    ensures Count(Run(Run(INIT, steps), more).delivered, (r, m)) == Count(Run(INIT, steps).delivered, (r, m))
  {
    RunIs(steps, r);
    InactiveForever(Run(INIT, steps), more, r, m);
  }

  // ---- The delivery queue ----

  /** What a step may do to the delivery queue: put one delivery at its back if there is room, drop
      it if there is none, or take the oldest and dispatch it. */
  ghost predicate QueueStep(st: State, st': State) {
    || (st'.events == st.events && st'.dropped == st.dropped)
    || (|st.events| < 128 && st'.dropped == st.dropped && exists d :: st'.events == st.events + [d])
    || (|st.events| >= 128 && st'.events == st.events && exists d :: st'.dropped == st.dropped + [d])
    || (st.events != [] && st'.events == st.events[1..] && st'.dropped == st.dropped
        && !st'.dispatcher.Idle? && st'.dispatcher.delivery == st.events[0])
  }

  /** Deliveries leave in the order they came, and one is dropped only when 128 are waiting. */
  lemma QueueIsFifo(st: State, step: Step)
    ensures QueueStep(st, Next(st, step))
  {
    match step
    case QueueLive(s) =>
      if s in st.flights && st.flights[s].ready {
        var d := Live(st.flights[s].snap);
        assert Next(st, step).events == st.events + [d] || Next(st, step).dropped == st.dropped + [d];
      }
    case QueueBoot(x) =>
      if x in st.activating && st.activating[x] != [] {
        var d := Boot(st.activating[x][0], x);
        assert Next(st, step).events == st.events + [d] || Next(st, step).dropped == st.dropped + [d];
      }
    case _ =>
  }
}
