/** `_QueueObservers` itself: each method is one step of the observer protocol on its own fields. */
module ObserverQueue {
  import opened Prelude
  import opened Observers
  import opened ObserverDelivery

  /** The loop of `publish`: append the entry to every registration still initialising. */
  method BufferFor(was: map<RegId, Registration>, watched: seq<RegId>, snap: Snapshot)
    returns (regs: map<RegId, Registration>)
    requires Distinct(watched) && forall r :: r in watched ==> r in was
    ensures regs == Buffer(was, watched, snap)
  {
    regs := was;
    for k := 0 to |watched|
      invariant regs == Buffer(was, watched[..k], snap)
    {
      var r := watched[k];
      assert watched[..k + 1] == watched[..k] + [r] && r !in watched[..k];
      if regs[r].initialising {
        regs := regs[r := regs[r].(pending := regs[r].pending + [snap])];
      }
    }
    assert watched[..|watched|] == watched;
  }

  /** The loop of `unregister`: find the registration and pop it. */
  method PopFirst(registered: seq<RegId>, r: RegId) returns (rest: seq<RegId>)
    ensures rest == Without(registered, r)
  {
    for index := 0 to |registered|
      invariant r !in registered[..index]
    {
      if registered[index] == r {
        WithoutAt(registered, index, r);
        return registered[..index] + registered[index + 1..];
      }
    }
    WithoutAbsent(registered, r);
    rest := registered;
  }

  class QueueObservers {
    var sequence: nat
    var regs: map<RegId, Registration>
    var registrations: seq<RegId>
    var events: seq<Delivery>
    ghost var flights: map<nat, Flight>
    ghost var activating: map<RegId, seq<Snapshot>>
    ghost var dispatcher: Dispatcher
    ghost var listed: map<RegId, seq<Entry>>
    ghost var published: map<nat, Entry>
    ghost var delivered: seq<(RegId, Snapshot)>
    ghost var dropped: seq<Delivery>

    ghost function View(): State
      reads this
    {
      State(sequence, regs, registrations, events, flights, activating, dispatcher, listed, published, delivered,
            dropped)
    }

    /** Holds of every object: `INIT` has this shape and every step keeps it. */
    ghost predicate Valid()
      reads this
    {
      Shaped(View())
    }

    constructor ()
      ensures View() == INIT && Valid()
    {
      sequence, regs, registrations, events := 0, map[], [], [];
      flights, activating, dispatcher := map[], map[], Idle;
      listed, published, delivered, dropped := map[], map[], [], [];
    }

    /** `register`: the registration object is new. */
    method Register(r: RegId, entryId: Option<Id>)
      requires Valid() && r !in regs
      modifies this
      ensures Valid() && View() == Next(old(View()), Step.Register(r, entryId))
    {
      NextShape(View(), Step.Register(r, entryId));
      regs := regs[r := Registration(entryId, true, true, [], sequence, 0)];
      registrations := registrations + [r];
    }

    /** `unregister`: deactivate the registration and take it off the list. */
    method Unregister(r: RegId)
      requires Valid() && r in regs
      modifies this
      ensures Valid() && View() == Next(old(View()), Step.Unregister(r))
    {
      NextShape(View(), Step.Unregister(r));
      regs := regs[r := regs[r].(active := false)];
      registrations := PopFirst(registrations, r);
    }

    /** The lock-protected part of `publish`: number it, copy the registrations, buffer it. */
    method Publish(e: Entry) returns (seqno: nat, watched: seq<RegId>)
      requires Valid()
      modifies this
      ensures Valid() && View() == Next(old(View()), Step.Publish(e))
      ensures seqno in flights && flights[seqno] == Flight(Snapshot(e, seqno), watched, false)
    {
      NextShape(View(), Step.Publish(e));
      sequence := sequence + 1;
      seqno, watched := sequence, registrations;
      regs := BufferFor(regs, watched, Snapshot(e, seqno));
      flights := flights[seqno := Flight(Snapshot(e, seqno), watched, false)];
      published := published[seqno := e];
    }

    /** One test of `any(not registration.initialising ...)`, after the lock is released: `live` once a
        registration is past its bootstrap, otherwise what is left to test. */
    method TestNext(s: nat, watched: seq<RegId>) returns (live: bool, rest: seq<RegId>)
      requires Valid() && s in flights && !flights[s].ready && flights[s].watched == watched
      modifies this
      ensures Valid() && View() == Next(old(View()), Step.TestNext(s))
      ensures if live then s in flights && flights[s].ready
              else if watched == [] then s !in flights
              else s in flights && !flights[s].ready && flights[s].watched == rest
    {
      NextShape(View(), Step.TestNext(s));
      if watched == [] {
        flights := flights - {s};
        return false, [];
      }
      if watched[0] in regs && !regs[watched[0]].initialising {
        flights := flights[s := flights[s].(ready := true)];
        return true, [];
      }
      flights := flights[s := flights[s].(watched := watched[1..])];
      return false, watched[1..];
    }

    /** `_queue_event`. */
    method QueueEvent(d: Delivery)
      modifies this
      ensures View() == Queue(old(View()), d)
    {
      if |events| < EVENT_QUEUE_SIZE {
        events := events + [d];
      } else {
        dropped := dropped + [d];
      }
    }

    /** The end of a `publish` that found someone to deliver to. */
    method QueueLive(s: nat, snap: Snapshot)
      requires Valid() && s in flights && flights[s].ready && flights[s].snap == snap
      modifies this
      ensures Valid() && View() == Next(old(View()), Step.QueueLive(s))
    {
      NextShape(View(), Step.QueueLive(s));
      flights := flights - {s};
      QueueEvent(Live(snap));
    }

    /** The lock-protected part of `activate`; the returned batch is then queued piece by piece. */
    method Activate(r: RegId, entries: seq<Entry>) returns (batch: seq<Snapshot>)
      requires Valid() && r in regs && regs[r].initialising
      modifies this
      ensures Valid() && View() == Next(old(View()), Step.Activate(r, entries))
      ensures r in activating && batch == activating[r]
    {
      NextShape(View(), Step.Activate(r, entries));
      var snapshots := Tag(entries) + regs[r].pending;
      regs := regs[r := regs[r].(pending := [], bootstrappedThrough := sequence, initialising := false)];
      batch := Ordered(snapshots);
      activating := activating[r := batch];
      listed := listed[r := entries];
    }

    /** One turn of the loop of `activate` over its ordered batch. */
    method QueueBoot(r: RegId, batch: seq<Snapshot>) returns (rest: seq<Snapshot>)
      requires Valid() && r in activating && activating[r] == batch != []
      modifies this
      ensures Valid() && View() == Next(old(View()), Step.QueueBoot(r))
      ensures r in activating && rest == activating[r] == batch[1..]
    {
      NextShape(View(), Step.QueueBoot(r));
      activating := activating[r := batch[1..]];
      QueueEvent(Boot(batch[0], r));
      rest := batch[1..];
    }

    /** `events.get()`; a bootstrap delivery goes to its target alone. */
    method Get() returns (d: Delivery)
      requires Valid() && dispatcher.Idle? && events != []
      modifies this
      ensures Valid() && View() == Next(old(View()), Step.Get)
      ensures d == old(events)[0]
      ensures if d.Boot? then dispatcher == Visiting(d, [d.target]) else dispatcher == Holding(d)
    {
      NextShape(View(), Step.Get);
      d := events[0];
      events := events[1..];
      dispatcher := if d.Boot? then Visiting(d, [d.target]) else Holding(d);
    }

    /** The lock-protected copy of the registrations for a live delivery. */
    method TakeRegistrations(d: Delivery) returns (todo: seq<RegId>)
      requires Valid() && dispatcher == Holding(d)
      modifies this
      ensures Valid() && View() == Next(old(View()), Step.TakeRegistrations)
      ensures dispatcher == Visiting(d, todo)
    {
      NextShape(View(), Step.TakeRegistrations);
      todo := registrations;
      dispatcher := Visiting(d, todo);
    }

    /** One turn of the dispatcher's inner loop; `called` says whether the observer ran. */
    method Visit(d: Delivery, todo: seq<RegId>) returns (called: bool)
      requires Valid() && dispatcher == Visiting(d, todo) && todo != []
      modifies this
      ensures Valid() && View() == Next(old(View()), Step.Visit)
      ensures dispatcher == Visiting(d, todo[1..])
      ensures called <==> delivered == old(delivered) + [(todo[0], d.snap)]
    {
      NextShape(View(), Step.Visit);
      assert todo[0] in todo;
      dispatcher := Visiting(d, todo[1..]);
      var reg := regs[todo[0]];
      if !reg.active || reg.initialising {
        return false;
      }
      if d.Live? && reg.startedAt < d.snap.origin <= reg.bootstrappedThrough {
        return false;
      }
      if reg.entryId.Some? && reg.entryId.value != d.snap.entry.id {
        return false;
      }
      delivered := delivered + [(todo[0], d.snap)];
      called := true;
    }

    /** The inner loop is done: back to `events.get()`. */
    method EndVisits(d: Delivery)
      requires Valid() && dispatcher == Visiting(d, [])
      modifies this
      ensures Valid() && View() == Next(old(View()), Step.Visit) && dispatcher.Idle?
    {
      NextShape(View(), Step.Visit);
      dispatcher := Idle;
    }
  }
}
