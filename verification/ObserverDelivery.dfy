/** Every publication made after an observer registered reaches it exactly once, or is accounted for. */
module ObserverDelivery {
  import opened Prelude
  import opened Observers

  // ---- What every step keeps ----

  ghost predicate Shaped(st: State) {
    && Distinct(st.registrations)
    && (forall r :: r in st.registrations ==> r in st.regs)
    && (forall r :: r in st.regs ==>
          && (st.regs[r].active ==> r in st.registrations)
          && st.regs[r].startedAt <= st.sequence
          && st.regs[r].bootstrappedThrough <= st.sequence
          && (st.regs[r].initialising ==> r !in st.activating)
          && (!st.regs[r].initialising ==> st.regs[r].pending == []))
    && (forall r :: r in st.activating ==> r in st.regs)
    && (forall s :: s in st.flights ==> 1 <= s <= st.sequence && st.flights[s].snap.origin == s)
    && (forall s :: s in st.published ==> 1 <= s <= st.sequence)
    && (st.dispatcher.Holding? ==> st.dispatcher.delivery.Live?)
    && (st.dispatcher.Visiting? && st.dispatcher.delivery.Boot? ==>
          forall x :: x in st.dispatcher.todo ==> x == st.dispatcher.delivery.target)
    && (st.dispatcher.Visiting? ==> forall x :: x in st.dispatcher.todo ==> x in st.regs)
    && (forall d :: d in st.events && d.Boot? ==> d.target in st.regs)
  }

  /** Copies of `m` on their way to `r` alone: buffered, batched, queued, or in the dispatcher's hand. */
  ghost function BootCopies(st: State, r: RegId, m: Snapshot): nat {
    (if r in st.regs then Count(st.regs[r].pending, m) else 0)
    + (if r in st.activating then Count(st.activating[r], m) else 0)
    + Count(st.events, Boot(m, r))
    + (if st.dispatcher.Visiting? && st.dispatcher.delivery == Boot(m, r) then |st.dispatcher.todo| else 0)
  }

  /** Copies of `m` on their way to everyone, counting a dispatch under way only if `r` is still ahead. */
  ghost function LiveCopies(st: State, r: RegId, m: Snapshot): nat {
    (if m.origin in st.flights && st.flights[m.origin].snap == m then 1 else 0)
    + Count(st.events, Live(m))
    + (if st.dispatcher == Holding(Live(m)) then 1 else 0)
    + (if st.dispatcher.Visiting? && st.dispatcher.delivery == Live(m) then Count(st.dispatcher.todo, r) else 0)
  }

  predicate IsPublished(st: State, m: Snapshot) {
    m.origin in st.published && st.published[m.origin] == m.entry
  }

  /** Published while `r` was still bootstrapping. */
  predicate Buffered(st: State, r: RegId, m: Snapshot)
    requires r in st.regs
  {
    st.regs[r].initialising || m.origin <= st.regs[r].bootstrappedThrough
  }

  /** `m` can still reach `r`: it was published later, and `r` is active and interested. */
  predicate Due(st: State, r: RegId, m: Snapshot)
    requires r in st.regs
  {
    st.regs[r].active && Accepts(st.regs[r], m)
  }

  /** Nothing about `m` exists before it is published, nor anything for `r` before it registers, and
      until `r` is activated its copies wait in its own buffer. */
  ghost predicate NoneYet(st: State, r: RegId, m: Snapshot) {
    && (!IsPublished(st, m) ==> LiveCopies(st, r, m) == 0 && Count(st.dropped, Live(m)) == 0)
    && (!IsPublished(st, m) || r !in st.regs ==>
          BootCopies(st, r, m) == 0 && Count(st.dropped, Boot(m, r)) == 0 && Count(st.delivered, (r, m)) == 0)
    && (r in st.regs && st.regs[r].initialising ==> BootCopies(st, r, m) == Count(st.regs[r].pending, m))
  }

  /** A later publication reaches `r` through exactly one channel, and every copy is accounted for. */
  ghost predicate Conserved(st: State, r: RegId, m: Snapshot) {
    r in st.regs && IsPublished(st, m) && m.origin > st.regs[r].startedAt ==>
      var got := Count(st.delivered, (r, m));
      if Buffered(st, r, m) then
        && got + BootCopies(st, r, m) + Count(st.dropped, Boot(m, r)) <= 1
        && (Due(st, r, m) ==> got + BootCopies(st, r, m) + Count(st.dropped, Boot(m, r)) == 1)
      else
        && BootCopies(st, r, m) == 0
        && got + LiveCopies(st, r, m) + Count(st.dropped, Live(m)) <= 1
        && (Due(st, r, m) ==> got + LiveCopies(st, r, m) + Count(st.dropped, Live(m)) == 1)
        && (Due(st, r, m) && m.origin in st.flights && !st.flights[m.origin].ready ==>
              r in st.flights[m.origin].watched)
  }

  ghost predicate Accounted(st: State, r: RegId, m: Snapshot) {
    NoneYet(st, r, m) && Conserved(st, r, m)
  }

  // ---- Shape ----

  lemma RegisterShape(st: State, x: RegId, entryId: Option<Id>)
    requires Shaped(st) && x !in st.regs
    ensures Shaped(DoRegister(st, x, entryId))
  {
  }

  lemma UnregisterShape(st: State, x: RegId)
    requires Shaped(st) && x in st.regs
    ensures Shaped(DoUnregister(st, x))
  {
    WithoutKeeps(st.registrations, x);
  }

  lemma PublishShape(st: State, e: Entry)
    requires Shaped(st)
    ensures Shaped(DoPublish(st, e))
  {
    var st' := DoPublish(st, e);
    assert forall r :: r in st'.regs <==> r in st.regs;
    assert forall r :: r in st'.regs ==> st'.regs[r] == st.regs[r].(pending := st'.regs[r].pending);
  }

  /** Dropping a publisher or changing what it still has to test. */
  lemma FlightShape(st: State, flights: map<nat, Flight>)
    requires Shaped(st)
    requires forall s :: s in flights ==> s in st.flights && flights[s].snap == st.flights[s].snap
    ensures Shaped(st.(flights := flights))
  {
  }

  lemma QueueLiveShape(st: State, s: nat)
    requires Shaped(st) && s in st.flights
    ensures Shaped(DoQueueLive(st, s))
  {
  }

  lemma ActivateShape(st: State, x: RegId, listed: seq<Entry>)
    requires Shaped(st) && x in st.regs && st.regs[x].initialising
    ensures Shaped(DoActivate(st, x, listed))
  {
  }

  lemma QueueBootShape(st: State, x: RegId)
    requires Shaped(st) && x in st.activating && st.activating[x] != []
    ensures Shaped(DoQueueBoot(st, x))
  {
  }

  lemma DispatcherShape(st: State, dispatcher: Dispatcher, events: seq<Delivery>, delivered: seq<(RegId, Snapshot)>)
    requires Shaped(st)
    requires dispatcher.Holding? ==> dispatcher.delivery.Live?
    requires dispatcher.Visiting? && dispatcher.delivery.Boot? ==>
               forall x :: x in dispatcher.todo ==> x == dispatcher.delivery.target
    requires dispatcher.Visiting? ==> forall x :: x in dispatcher.todo ==> x in st.regs
    requires forall d :: d in events ==> d in st.events
    ensures Shaped(st.(dispatcher := dispatcher, events := events, delivered := delivered))
  {
  }

  lemma VisitShape(st: State)
    requires Shaped(st) && st.dispatcher.Visiting?
    ensures Shaped(DoVisit(st))
  {
    if st.dispatcher.todo != [] {
      assert forall x :: x in st.dispatcher.todo[1..] ==> x in st.dispatcher.todo;
    }
    var st' := DoVisit(st);
    DispatcherShape(st, st'.dispatcher, st.events, st'.delivered);
  }

  lemma GetShape(st: State)
    requires Shaped(st) && st.events != []
    ensures Shaped(DoGet(st))
  {
    assert st.events[0] in st.events;
    DispatcherShape(st, DoGet(st).dispatcher, st.events[1..], st.delivered);
  }

  lemma TakeShape(st: State)
    requires Shaped(st) && st.dispatcher.Holding?
    ensures Shaped(st.(dispatcher := Visiting(st.dispatcher.delivery, st.registrations)))
  {
    DispatcherShape(st, Visiting(st.dispatcher.delivery, st.registrations), st.events, st.delivered);
  }

  lemma NextShape(st: State, step: Step)
    requires Shaped(st)
    ensures Shaped(Next(st, step))
  {
    hide Shaped;
    match step
    case Register(x, entryId) => if x !in st.regs { RegisterShape(st, x, entryId); }
    case Unregister(x) => if x in st.regs { UnregisterShape(st, x); }
    case Publish(e) => PublishShape(st, e);
    case TestNext(s) =>
      if s in st.flights && !st.flights[s].ready {
        FlightShape(st, DoTest(st, s).flights);
      }
    case QueueLive(s) => if s in st.flights { QueueLiveShape(st, s); }
    case Activate(x, listed) =>
      if x in st.regs && st.regs[x].initialising {
        ActivateShape(st, x, listed);
      }
    case QueueBoot(x) =>
      if x in st.activating && st.activating[x] != [] {
        QueueBootShape(st, x);
      }
    case Get =>
      if st.dispatcher.Idle? && st.events != [] {
        GetShape(st);
      }
    case TakeRegistrations =>
      if st.dispatcher.Holding? {
        TakeShape(st);
      }
    case Visit => if st.dispatcher.Visiting? { VisitShape(st); }
  }

  // ---- Accounts ----

  lemma RegisterKeeps(st: State, x: RegId, entryId: Option<Id>, r: RegId, m: Snapshot)
    requires Shaped(st) && Accounted(st, r, m) && x !in st.regs
    ensures Accounted(DoRegister(st, x, entryId), r, m)
  {
    hide Count, Distinct, Without;
    CountAbsent<Snapshot>([], m);
  }

  lemma UnregisterKeeps(st: State, x: RegId, r: RegId, m: Snapshot)
    requires Shaped(st) && Accounted(st, r, m) && x in st.regs
    ensures Accounted(DoUnregister(st, x), r, m)
  {
    hide Count, Distinct, Without;
  }

  lemma PublishOtherKeeps(st: State, e: Entry, r: RegId, m: Snapshot)
    requires Shaped(st) && Accounted(st, r, m) && m != Snapshot(e, st.sequence + 1)
    ensures Accounted(DoPublish(st, e), r, m)
  {
    if r in st.regs {
      CountAppend(st.regs[r].pending, Snapshot(e, st.sequence + 1), m);
    }
  }

  /** A new publication starts with one copy: in `r`'s buffer, or with its publisher. */
  lemma PublishThisKeeps(st: State, e: Entry, r: RegId, m: Snapshot)
    requires Shaped(st) && Accounted(st, r, m) && m == Snapshot(e, st.sequence + 1)
    ensures Accounted(DoPublish(st, e), r, m)
  {
    assert !IsPublished(st, m);
    if r in st.regs {
      CountAppend(st.regs[r].pending, m, m);
    }
  }

  lemma PublishKeeps(st: State, e: Entry, r: RegId, m: Snapshot)
    requires Shaped(st) && Accounted(st, r, m)
    ensures Accounted(DoPublish(st, e), r, m)
  {
    if m == Snapshot(e, st.sequence + 1) {
      PublishThisKeeps(st, e, r, m);
    } else {
      PublishOtherKeeps(st, e, r, m);
    }
  }

  lemma TestDoneKeeps(st: State, s: nat, r: RegId, m: Snapshot)
    requires Shaped(st) && Accounted(st, r, m)
    requires s in st.flights && !st.flights[s].ready && st.flights[s].watched == []
    ensures Accounted(st.(flights := st.flights - {s}), r, m)
  {
    hide Count, Distinct;
  }

  lemma TestPassedKeeps(st: State, s: nat, r: RegId, m: Snapshot)
    requires Shaped(st) && Accounted(st, r, m) && s in st.flights
    ensures Accounted(st.(flights := st.flights[s := st.flights[s].(ready := true)]), r, m)
  {
    hide Count, Distinct;
  }

  lemma TestSkipsKeeps(st: State, s: nat, r: RegId, m: Snapshot)
    requires Shaped(st) && Accounted(st, r, m)
    requires s in st.flights && !st.flights[s].ready && st.flights[s].watched != []
    requires st.flights[s].watched[0] in st.regs ==> st.regs[st.flights[s].watched[0]].initialising
    ensures Accounted(st.(flights := st.flights[s := st.flights[s].(watched := st.flights[s].watched[1..])]), r, m)
  {
    hide Count, Distinct;
    assert st.flights[s].watched == [st.flights[s].watched[0]] + st.flights[s].watched[1..];
  }

  /** The race: the flags are tested after the lock is released, one registration at a time. */
  lemma TestKeeps(st: State, s: nat, r: RegId, m: Snapshot)
    requires Shaped(st) && Accounted(st, r, m) && s in st.flights && !st.flights[s].ready
    ensures Accounted(DoTest(st, s), r, m)
  {
    var f := st.flights[s];
    if f.watched == [] {
      TestDoneKeeps(st, s, r, m);
    } else if f.watched[0] in st.regs && !st.regs[f.watched[0]].initialising {
      TestPassedKeeps(st, s, r, m);
    } else {
      TestSkipsKeeps(st, s, r, m);
    }
  }

  /** A copy moves from its publisher to the queue, or is counted as dropped. */
  lemma LiveQueuedKeeps(st: State, s: nat, r: RegId, m: Snapshot)
    requires Shaped(st) && Accounted(st, r, m) && s in st.flights && st.flights[s].ready
    ensures Accounted(st.(flights := st.flights - {s}, events := st.events + [Live(st.flights[s].snap)]), r, m)
  {
    hide Count, Distinct;
    QueueCounts(st, Live(st.flights[s].snap), Live(m));
    QueueCounts(st, Live(st.flights[s].snap), Boot(m, r));
  }

  lemma LiveDroppedKeeps(st: State, s: nat, r: RegId, m: Snapshot)
    requires Shaped(st) && Accounted(st, r, m) && s in st.flights && st.flights[s].ready
    ensures Accounted(st.(flights := st.flights - {s}, dropped := st.dropped + [Live(st.flights[s].snap)]), r, m)
  {
    hide Count, Distinct;
    QueueCounts(st, Live(st.flights[s].snap), Live(m));
    QueueCounts(st, Live(st.flights[s].snap), Boot(m, r));
  }

  lemma QueueCounts(st: State, d: Delivery, x: Delivery)
    ensures Count(st.events + [d], x) == Count(st.events, x) + if d == x then 1 else 0
    ensures Count(st.dropped + [d], x) == Count(st.dropped, x) + if d == x then 1 else 0
  {
    CountAppend(st.events, d, x);
    CountAppend(st.dropped, d, x);
  }

  lemma ActivateKeeps(st: State, x: RegId, listed: seq<Entry>, r: RegId, m: Snapshot)
    requires Shaped(st) && Accounted(st, r, m) && x in st.regs && st.regs[x].initialising && m.origin > 0
    ensures Accounted(DoActivate(st, x, listed), r, m)
  {
    hide Count, Distinct, Tag, Ordered;
    assert Count<Snapshot>([], m) == 0 by {
      CountAbsent<Snapshot>([], m);
    }
    OrderedIsSort(Tag(listed) + st.regs[x].pending);
    TagCount(listed, st.regs[x].pending, m);
  }

  /** Snapshots read back from the queue's records are nobody's publication. */
  lemma {:induction false} TagCount(listed: seq<Entry>, pending: seq<Snapshot>, m: Snapshot)
    requires m.origin > 0
    ensures Count(Tag(listed) + pending, m) == Count(pending, m)
  {
    if listed == [] {
      assert Tag(listed) + pending == pending;
    } else {
      TagCount(listed[1..], pending, m);
      assert (Tag(listed) + pending)[1..] == Tag(listed[1..]) + pending;
    }
  }

  lemma BootQueuedKeeps(st: State, x: RegId, r: RegId, m: Snapshot)
    requires Shaped(st) && Accounted(st, r, m) && x in st.activating && st.activating[x] != []
    ensures Accounted(st.(activating := st.activating[x := st.activating[x][1..]],
                          events := st.events + [Boot(st.activating[x][0], x)]), r, m)
  {
    hide Count, Distinct;
    CountHead(st.activating[x], m);
    QueueCounts(st, Boot(st.activating[x][0], x), Live(m));
    QueueCounts(st, Boot(st.activating[x][0], x), Boot(m, r));
  }

  lemma BootDroppedKeeps(st: State, x: RegId, r: RegId, m: Snapshot)
    requires Shaped(st) && Accounted(st, r, m) && x in st.activating && st.activating[x] != []
    ensures Accounted(st.(activating := st.activating[x := st.activating[x][1..]],
                          dropped := st.dropped + [Boot(st.activating[x][0], x)]), r, m)
  {
    hide Count, Distinct;
    CountHead(st.activating[x], m);
    QueueCounts(st, Boot(st.activating[x][0], x), Live(m));
    QueueCounts(st, Boot(st.activating[x][0], x), Boot(m, r));
  }

  lemma GetKeeps(st: State, r: RegId, m: Snapshot)
    requires Shaped(st) && Accounted(st, r, m) && st.dispatcher.Idle? && st.events != []
    ensures Accounted(DoGet(st), r, m)
  {
  }

  lemma TakeKeeps(st: State, r: RegId, m: Snapshot)
    requires Shaped(st) && Accounted(st, r, m) && st.dispatcher.Holding?
    ensures Accounted(st.(dispatcher := Visiting(st.dispatcher.delivery, st.registrations)), r, m)
  {
    CountDistinct(st.registrations, r);
  }

  /** The dispatcher passes over a registration that does not want the delivery. */
  lemma PassKeeps(st: State, r: RegId, m: Snapshot)
    requires Shaped(st) && Accounted(st, r, m) && st.dispatcher.Visiting? && st.dispatcher.todo != []
    requires var x := st.dispatcher.todo[0]; !(x in st.regs && Wants(st.regs[x], st.dispatcher.delivery))
    ensures Accounted(st.(dispatcher := Visiting(st.dispatcher.delivery, st.dispatcher.todo[1..])), r, m)
  {
    assert st.dispatcher.todo[0] in st.dispatcher.todo;
  }

  lemma CallKeeps(st: State, r: RegId, m: Snapshot)
    requires Shaped(st) && Accounted(st, r, m) && st.dispatcher.Visiting? && st.dispatcher.todo != []
    requires var x := st.dispatcher.todo[0]; x in st.regs && Wants(st.regs[x], st.dispatcher.delivery)
    ensures
      var x := st.dispatcher.todo[0];
      Accounted(st.(dispatcher := Visiting(st.dispatcher.delivery, st.dispatcher.todo[1..]),
                    delivered := st.delivered + [(x, st.dispatcher.delivery.snap)]), r, m)
  {
    hide Count, Distinct;
    CountHead(st.dispatcher.todo, r);
    var d, todo := st.dispatcher.delivery, st.dispatcher.todo;
    CountAppend(st.delivered, (todo[0], d.snap), (r, m));
    assert todo[0] in todo;
    if todo[0] == r && d.snap == m {
      assert d == if d.Live? then Live(m) else Boot(m, r);
    }
  }

  lemma VisitKeeps(st: State, r: RegId, m: Snapshot)
    requires Shaped(st) && Accounted(st, r, m) && st.dispatcher.Visiting?
    ensures Accounted(DoVisit(st), r, m)
  {
    if st.dispatcher.todo != [] {
      var x := st.dispatcher.todo[0];
      if x in st.regs && Wants(st.regs[x], st.dispatcher.delivery) {
        CallKeeps(st, r, m);
      } else {
        PassKeeps(st, r, m);
      }
    }
  }

  lemma NextKeeps(st: State, step: Step, r: RegId, m: Snapshot)
    requires Shaped(st) && Accounted(st, r, m) && m.origin > 0
    ensures Accounted(Next(st, step), r, m)
  {
    hide Shaped, Accounted;
    match step
    case Register(x, entryId) => if x !in st.regs { RegisterKeeps(st, x, entryId, r, m); }
    case Unregister(x) => if x in st.regs { UnregisterKeeps(st, x, r, m); }
    case Publish(e) => PublishKeeps(st, e, r, m);
    case TestNext(s) =>
      if s in st.flights && !st.flights[s].ready {
        TestKeeps(st, s, r, m);
      }
    case QueueLive(s) =>
      if s in st.flights && st.flights[s].ready {
        LiveQueuedKeeps(st, s, r, m);
        LiveDroppedKeeps(st, s, r, m);
      }
    case Activate(x, listed) =>
      if x in st.regs && st.regs[x].initialising {
        ActivateKeeps(st, x, listed, r, m);
      }
    case QueueBoot(x) =>
      if x in st.activating && st.activating[x] != [] {
        BootQueuedKeeps(st, x, r, m);
        BootDroppedKeeps(st, x, r, m);
      }
    case Get => if st.dispatcher.Idle? && st.events != [] { GetKeeps(st, r, m); }
    case TakeRegistrations => if st.dispatcher.Holding? { TakeKeeps(st, r, m); }
    case Visit => if st.dispatcher.Visiting? { VisitKeeps(st, r, m); }
  }

  lemma {:induction false} RunKeeps(st: State, steps: seq<Step>, r: RegId, m: Snapshot)
    requires Shaped(st) && Accounted(st, r, m) && m.origin > 0
    ensures Shaped(Run(st, steps)) && Accounted(Run(st, steps), r, m)
    decreases |steps|
  {
    if steps != [] {
      NextShape(st, steps[0]);
      NextKeeps(st, steps[0], r, m);
      RunKeeps(Next(st, steps[0]), steps[1..], r, m);
    }
  }

  // ---- Whole runs ----

  /** In every interleaving, a publication sequenced after an observer registered reaches that
      observer at most once, bootstrap and live deliveries counted together, and what it receives
      under that sequence number is what was published. */
  lemma DeliveredAtMostOnce(steps: seq<Step>, r: RegId, m: Snapshot)
    requires m.origin > 0
    requires r in Run(INIT, steps).regs && m.origin > Run(INIT, steps).regs[r].startedAt
    ensures Count(Run(INIT, steps).delivered, (r, m)) <= 1
    ensures Count(Run(INIT, steps).delivered, (r, m)) > 0 ==> IsPublished(Run(INIT, steps), m)
  {
    RunKeeps(INIT, steps, r, m);
  }

  /** Everything that could still carry `m` to `r` has run its course. */
  ghost predicate Settled(st: State, r: RegId, m: Snapshot)
    requires r in st.regs
  {
    && !st.regs[r].initialising
    && (r in st.activating ==> st.activating[r] == [])
    && m.origin !in st.flights
    && st.events == []
    && (st.dispatcher.Idle? || (st.dispatcher.Visiting? && st.dispatcher.todo == []))
  }

  /** An observer still registered and interested has received it exactly once when all is quiet,
      unless that very delivery was dropped on a full queue. */
  lemma DeliveredExactlyOnce(steps: seq<Step>, r: RegId, m: Snapshot)
    requires m.origin > 0
    requires
      var st := Run(INIT, steps);
      && r in st.regs && m.origin > st.regs[r].startedAt && IsPublished(st, m)
      && st.regs[r].active && (st.regs[r].entryId.None? || st.regs[r].entryId.value == m.entry.id)
      && Settled(st, r, m)
      && Live(m) !in st.dropped && Boot(m, r) !in st.dropped
    ensures Count(Run(INIT, steps).delivered, (r, m)) == 1
  {
    RunKeeps(INIT, steps, r, m);
    var st := Run(INIT, steps);
    CountAbsent(st.dropped, Live(m));
    CountAbsent(st.dropped, Boot(m, r));
  }
}
