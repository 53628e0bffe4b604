/**
 What can still happen to an event after its end: it never comes back, and a claim can meet its
 bare id only if the event ended between its store and its push.
 */
module EventEndings {
  import opened Prelude
  import opened EventStore
  import opened EventInvariant
  import opened EventRuns
  import opened EventFifo

  /** `id` waits in pending although its record is gone. */
  predicate Orphaned(st: Store, id: Id) { id in st.pending && id !in st.entries }

  /** From `st` to `st'` nothing is stored or pushed, history only grows, and `id` gains no record and is not orphaned anew. */
  predicate Narrower(st: Store, st': Store, id: Id) {
    && st'.born == st.born && st'.unpushed == st.unpushed && st.log <= st'.log
    && (id in st'.entries ==> id in st.entries && st'.entries[id] == st.entries[id])
    && (Orphaned(st', id) ==> Orphaned(st, id))
  }

  lemma {:induction false} RecoverAllNarrows(st: Store, ids: seq<Id>, now: Time, id: Id)
    ensures Narrower(st, RecoverAll(st, ids, now), id)
    ensures RecoverAll(st, ids, now).entries == st.entries
    ensures st.pending <= RecoverAll(st, ids, now).pending
    decreases |ids|
  {
    if ids != [] {
      RecoverAllNarrows(RecoverOne(st, ids[0], now), ids[1..], now, id);
    }
  }

  lemma RecoverNarrows(st: Store, now: Time, id: Id)
    ensures Narrower(st, Recover(st, now), id)
    ensures Recover(st, now).entries == st.entries && st.pending <= Recover(st, now).pending
  {
    RecoverAllNarrows(st, DueKeys(st.leases.order, st.leases.vals, now), now, id);
  }

  lemma ClaimHeadNarrows(st: Store, head: Id, w: Worker, lease: Option<Time>, expire: bool, now: Time, id: Id)
    requires head !in st.pending && head !in st.claims
    ensures Narrower(st, ClaimHead(st, head, w, lease, expire, now).0, id)
  {
  }

  /** Taking out the i-th id of a duplicate-free list and turning the rest. */
  lemma TurnedMembers(s: seq<Id>, i: nat)
    requires Distinct(s) && i < |s|
    ensures s[i] !in s[i + 1..] + s[..i]
    ensures forall x :: x in s[i + 1..] + s[..i] ==> x in s
  {
  }

  lemma ClaimNarrows(st: Store, w: Worker, lease: Option<Time>, expire: bool, now: Time, id: Id)
    requires Inv(st)
    ensures Narrower(st, Claim(st, w, lease, expire, now).0, id)
  {
    if lease.Some? ==> Budget(lease.value) {
      hide ClaimHead;
      RecoverNarrows(st, now, id);
      RecoverKeeps(st, now);
      ClaimTakesFirstAvailable(st, w, lease, expire, now);
      var swept := Recover(st, now);
      var i := Delayed(swept.availableAt, swept.pending, now);
      if i < |swept.pending| {
        var head := swept.pending[i];
        assert Sound(swept, head);
        TurnedMembers(swept.pending, i);
        ClaimHeadNarrows(swept.(pending := swept.pending[i + 1..] + swept.pending[..i]), head, w, lease, expire, now, id);
      }
    }
  }

  lemma DeleteEventNarrows(st: Store, x: Id, why: Event, id: Id)
    requires Distinct(st.pending)
    ensures Narrower(st, DeleteEvent(st, x, why), id) && Distinct(DeleteEvent(st, x, why).pending)
  {
    WithoutKeeps(st.pending, x);
  }

  lemma {:induction false} DeleteAllNarrows(st: Store, ids: seq<Id>, id: Id)
    requires Distinct(st.pending)
    ensures Narrower(st, DeleteAll(st, ids), id)
    decreases |ids|
  {
    if ids != [] {
      DeleteEventNarrows(st, ids[0], Expired(ids[0]), id);
      DeleteAllNarrows(DeleteEvent(st, ids[0], Expired(ids[0])), ids[1..], id);
    }
  }

  lemma PassOverNarrows(st: Store, now: Time, id: Id)
    requires Distinct(st.pending) && st.pending != []
    ensures Narrower(st, PassOver(st, now), id)
  {
    DistinctTail(st.pending);
    DeletePopped(st, Expired(st.pending[0]));
    DeleteEventNarrows(st, st.pending[0], Expired(st.pending[0]), id);
  }

  lemma {:induction false} DequeueScanNarrows(st: Store, now: Time, n: nat, id: Id)
    requires Inv(st)
    ensures Narrower(st, DequeueScan(st, now, n).0, id)
    decreases n
  {
    hide PassOver, DeleteEvent, Skips;
    if n != 0 && st.pending != [] {
      var head := st.pending[0];
      if Skips(st, head, now) {
        PassOverNarrows(st, now, id);
        PassOverKeeps(st, now);
        DequeueScanNarrows(PassOver(st, now), now, n - 1, id);
      } else {
        DeletePopped(st, Dequeued(head));
        DeleteEventNarrows(st, head, Dequeued(head), id);
      }
    }
  }

  lemma DequeueNarrows(st: Store, now: Time, id: Id)
    requires Inv(st)
    ensures Narrower(st, Dequeue(st, now).0, id)
  {
    RecoverNarrows(st, now, id);
    RecoverKeeps(st, now);
    var swept := Recover(st, now);
    DequeueScanNarrows(swept, now, |swept.pending|, id);
  }

  /** Every step but a store and a push narrows what can happen to every id. */
  lemma StepNarrows(st: Store, op: Op, id: Id)
    requires Inv(st) && !op.OpStore? && !op.OpPush?
    ensures Narrower(st, Apply(st, op), id)
  {
    match op
    case OpClaim(w, lease, expire, now) => ClaimNarrows(st, w, lease, expire, now, id);
    case OpDequeue(now) => DequeueNarrows(st, now, id);
    case OpRenew(x, w, d, now) => RecoverNarrows(st, now, id);
    case OpRelease(x, w, d, now) => assert Sound(st, x);
    case OpRemove(x, w) => WithoutKeeps(st.pending, x);
    case OpExpire(x) => DeleteEventNarrows(st, x, Expired(x), id);
    case OpExpireDue(now) => DeleteAllNarrows(st, ExpiredIds(st, now), id);
    case OpDelete(x) => WithoutKeeps(st.pending, x);
  }

  // ---- An ended event never comes back ----

  predicate Ended(st: Store, id: Id) { id in st.born && id !in st.entries }

  lemma {:induction false} EndedStays(st: Store, ops: seq<Op>, id: Id)
    requires Inv(st) && Ended(st, id)
    ensures Inv(Run(st, ops)) && Ended(Run(st, ops), id) && st.log <= Run(st, ops).log
    decreases |ops|
  {
    if ops != [] {
      hide Inv;
      ApplyKeeps(st, ops[0]);
      if !ops[0].OpStore? && !ops[0].OpPush? {
        StepNarrows(st, ops[0], id);
      }
      EndedStays(Apply(st, ops[0]), ops[1..], id);
    }
  }

  lemma {:induction false} TallyGrows(log: seq<Event>, longer: seq<Event>, id: Id, kind: Event -> bool)
    requires log <= longer
    ensures Tally(log, id, kind) <= Tally(longer, id, kind)
  {
    if |log| < |longer| {
      TallyGrows(log, longer[..|longer| - 1], id, kind);
    } else {
      assert log == longer;
    }
  }

  /** Without a record an event is not handed out. */
  lemma EndedIsNotDelivered(st: Store, op: Op, id: Id)
    requires Inv(st) && Ended(st, id)
    ensures !Delivers(st, op, id)
  {
    if op.OpClaim? && IsDelivery(op) {
      ClaimTakesFirstAvailable(st, op.worker, op.lease, op.expire, op.now);
      RecoverNarrows(st, op.now, id);
    } else if op.OpDequeue? {
      DequeueTakesFirstDeliverable(st, op.now);
      RecoverNarrows(st, op.now, id);
    }
  }

  lemma RemovedForGood(st: Store, id: Id, w: Worker, more: seq<Op>)
    requires Inv(st) && Owns(st, id, w)
    ensures
      var end := Run(Remove(st, id, w).0, more);
      && Owner(end.log, id) == None
      && Tally(end.log, id, IsConsumption) == 1
      && forall op :: !Delivers(end, op, id)
  {
    var removed := Remove(st, id, w).0;
    assert Sound(st, id);
    RemoveKeeps(st, id, w);
    EndedStays(removed, more, id);
    var end := Run(removed, more);
    assert Sound(end, id);
    EndsSplit(end.log, id);
    assert Tally(removed.log, id, IsConsumption) >= 1 by {
      assert removed.log[|removed.log| - 1] == Removed(id, w);
    }
    TallyGrows(removed.log, end.log, id, IsConsumption);
    forall op ensures !Delivers(end, op, id) {
      EndedIsNotDelivered(end, op, id);
    }
  }

  /** In every reachable state release and removal succeed exactly for the worker the event history
      names as owner and change nothing for anyone else; a released event has no owner, and a removed
      one has no owner, is consumed exactly once and is never handed out again, whatever follows. */
  lemma OnlyOwnerSettles(ops: seq<Op>, id: Id, w: Worker, delay: Time, now: Time, more: seq<Op>)
    ensures
      var st := Run(EMPTY, ops);
      var (released, didRelease) := Release(st, id, w, delay, now);
      var (removed, didRemove) := Remove(st, id, w);
      && (didRelease <==> Owner(st.log, id) == Some(w) && Budget(delay))
      && (didRemove <==> Owner(st.log, id) == Some(w))
      && (!didRelease ==> released == st) && (!didRemove ==> removed == st)
      && (didRelease ==> Owner(released.log, id) == None)
      && (didRemove ==>
            var end := Run(removed, more);
            && Owner(end.log, id) == None
            && Tally(end.log, id, IsConsumption) == 1
            && forall op :: !Delivers(end, op, id))
  {
    var st := Run(EMPTY, ops);
    Reachable(ops);
    assert Sound(st, id);
    LogStep(st.log, Released(id, w, now), id);
    if Remove(st, id, w).1 {
      RemovedForGood(st, id, w, more);
    }
  }

  // ---- When a claim meets an id without a record ----

  /** Exactly when a claim reports a missing record: the first available pending id, after recovery,
      has none. */
  lemma NotFoundIff(ops: seq<Op>, w: Worker, lease: Option<Time>, expire: bool, now: Time, id: Id)
    ensures
      var st := Run(EMPTY, ops);
      var swept := Recover(st, now);
      var i := Delayed(swept.availableAt, swept.pending, now);
      Claim(st, w, lease, expire, now).1 == NotFound(id) <==>
      && (lease.Some? ==> Budget(lease.value))
      && i < |swept.pending| && swept.pending[i] == id && id !in st.entries
  {
    Reachable(ops);
    NotFoundAt(Run(EMPTY, ops), w, lease, expire, now, id);
  }

  lemma NotFoundAt(st: Store, w: Worker, lease: Option<Time>, expire: bool, now: Time, id: Id)
    requires Inv(st)
    ensures
      var swept := Recover(st, now);
      var i := Delayed(swept.availableAt, swept.pending, now);
      Claim(st, w, lease, expire, now).1 == NotFound(id) <==>
      && (lease.Some? ==> Budget(lease.value))
      && i < |swept.pending| && swept.pending[i] == id && id !in st.entries
  {
    if lease.Some? ==> Budget(lease.value) {
      RecoverNarrows(st, now, id);
      RecoverKeeps(st, now);
      ClaimTakesFirstAvailable(st, w, lease, expire, now);
      var swept := Recover(st, now);
      var i := Delayed(swept.availableAt, swept.pending, now);
      if i < |swept.pending| {
        assert Sound(swept, swept.pending[i]);
      }
    }
  }

  /** Some continuation leads to a claim that reports `id` missing. */
  ghost predicate MayMeet(st: Store, id: Id) {
    exists ops: seq<Op>, w: Worker, lease: Option<Time>, expire: bool, now: Time ::
      Claim(Run(st, ops), w, lease, expire, now).1 == NotFound(id)
  }

  /** `id` can be orphaned still, or is so already. */
  predicate AtRisk(st: Store, id: Id) {
    id !in st.born || id in st.unpushed || Orphaned(st, id)
  }

  lemma StepKeepsSafe(st: Store, op: Op, id: Id)
    requires Inv(st) && !AtRisk(st, id)
    ensures !AtRisk(Apply(st, op), id)
  {
    if !op.OpStore? && !op.OpPush? {
      StepNarrows(st, op, id);
    }
  }

  lemma {:induction false} SafeForever(
    st: Store, ops: seq<Op>, w: Worker, lease: Option<Time>, expire: bool, now: Time, id: Id)
    requires Inv(st) && !AtRisk(st, id)
    ensures Claim(Run(st, ops), w, lease, expire, now).1 != NotFound(id)
    decreases |ops|
  {
    hide Claim;
    if ops == [] {
      RecoverNarrows(st, now, id);
      NotFoundAt(st, w, lease, expire, now, id);
    } else {
      StepKeepsSafe(st, ops[0], id);
      ApplyKeeps(st, ops[0]);
      SafeForever(Apply(st, ops[0]), ops[1..], w, lease, expire, now, id);
    }
  }

  lemma ClaimHeadPending(st: Store, head: Id, w: Worker, now: Time)
    ensures
      var st' := ClaimHead(st, head, w, None, false, now).0;
      (forall x :: x in st'.entries ==> x in st.entries) && (st'.pending == st.pending || st'.pending == st.pending + [head])
  {
  }

  /** Where recovery leaves an orphan: no delay of its own, no later in the queue. */
  lemma RecoverKeepsOrphan(st: Store, now: Time, id: Id)
    requires Inv(st) && Orphaned(st, id)
    ensures
      var swept := Recover(st, now);
      && Orphaned(swept, id) && IndexOf(swept.pending, id) == IndexOf(st.pending, id)
      && Delayed(swept.availableAt, swept.pending, now) <= IndexOf(swept.pending, id)
  {
    RecoverNarrows(st, now, id);
    RecoverKeeps(st, now);
    var swept := Recover(st, now);
    assert swept.pending == st.pending + swept.pending[|st.pending|..];
    IndexOfPrefix(st.pending, swept.pending[|st.pending|..], id);
    assert Sound(swept, id);
    DelayedIsFirst(swept.availableAt, swept.pending, now);
  }

  /** One claim meets the orphan or brings it nearer to the front. */
  lemma ClaimNearsOrphan(st: Store, w: Worker, now: Time, id: Id)
    requires Inv(st) && Orphaned(st, id)
    ensures
      var (st', r) := Claim(st, w, None, false, now);
      r == NotFound(id) || (Orphaned(st', id) && IndexOf(st'.pending, id) < IndexOf(st.pending, id))
  {
    hide Inv, Claim, ClaimHead, Recover, Delayed, IndexOf;
    RecoverKeepsOrphan(st, now, id);
    NotFoundAt(st, w, None, false, now, id);
    ClaimTakesFirstAvailable(st, w, None, false, now);
    var swept := Recover(st, now);
    var i := Delayed(swept.availableAt, swept.pending, now);
    if i < IndexOf(swept.pending, id) {
      TurnedNearer(swept.pending, i, id);
      var turned := swept.pending[i + 1..] + swept.pending[..i];
      ClaimHeadPending(swept.(pending := turned), swept.pending[i], w, now);
      IndexOfPrefix(turned, [swept.pending[i]], id);
    }
  }

  lemma {:induction false} IndexOfLater(s: seq<Id>, i: nat, x: Id)
    requires x in s && i <= IndexOf(s, x)
    ensures x in s[i..] && IndexOf(s[i..], x) == IndexOf(s, x) - i
  {
    if i > 0 {
      IndexOfLater(s[1..], i - 1, x);
      assert s[1..][i - 1..] == s[i..];
    } else {
      assert s[0..] == s;
    }
  }

  lemma TurnedNearer(s: seq<Id>, i: nat, x: Id)
    requires x in s && i < IndexOf(s, x)
    ensures x in s[i + 1..] + s[..i] && IndexOf(s[i + 1..] + s[..i], x) < IndexOf(s, x)
  {
    IndexOfLater(s, i + 1, x);
    IndexOfPrefix(s[i + 1..], s[..i], x);
  }

  lemma {:induction false} OrphanIsMet(st: Store, w: Worker, now: Time, id: Id) returns (ops: seq<Op>)
    requires Inv(st) && Orphaned(st, id)
    ensures Claim(Run(st, ops), w, None, false, now).1 == NotFound(id)
    decreases IndexOf(st.pending, id)
  {
    hide Inv, Claim;
    ClaimNearsOrphan(st, w, now, id);
    if Claim(st, w, None, false, now).1 == NotFound(id) {
      ops := [];
    } else {
      var op := OpClaim(w, None, false, now);
      ApplyKeeps(st, op);
      var rest := OrphanIsMet(Apply(st, op), w, now, id);
      ops := [op] + rest;
      assert ops[1..] == rest;
    }
  }

  lemma Prepend(st: Store, op: Op, id: Id)
    requires MayMeet(Apply(st, op), id)
    ensures MayMeet(st, id)
  {
    var ops: seq<Op>, w: Worker, lease: Option<Time>, expire: bool, now: Time :|
      Claim(Run(Apply(st, op), ops), w, lease, expire, now).1 == NotFound(id);
    var longer := [op] + ops;
    assert longer[1..] == ops;
    assert Claim(Run(st, longer), w, lease, expire, now).1 == NotFound(id);
  }

  /** From every state at risk: store if need be, expire before the push, push, and claim. */
  lemma AtRiskIsMet(st: Store, id: Id)
    requires Inv(st) && AtRisk(st, id)
    ensures MayMeet(st, id)
    decreases if id !in st.born then 2 else if id in st.entries then 1 else 0
  {
    assert Sound(st, id);
    if Orphaned(st, id) {
      var ops := OrphanIsMet(st, 0, 0, id);
    } else {
      var op := if id !in st.born then OpStore(id, Entry(0, 1)) else if id in st.entries then OpExpire(id) else OpPush(id);
      ApplyKeeps(st, op);
      if op.OpPush? {
        var ops := OrphanIsMet(Apply(st, op), 0, 0, id);
      } else {
        AtRiskIsMet(Apply(st, op), id);
      }
      Prepend(st, op, id);
    }
  }

  /** In every reachable state: a claim can ever report `id` missing if and only if the id is still
      unused, is stored and not yet pushed, or already waits without a record. */
  lemma OrphanMetIff(ops: seq<Op>, id: Id)
    ensures MayMeet(Run(EMPTY, ops), id) <==> AtRisk(Run(EMPTY, ops), id)
  {
    Reachable(ops);
    var st := Run(EMPTY, ops);
    if AtRisk(st, id) {
      AtRiskIsMet(st, id);
    } else {
      forall more: seq<Op>, w: Worker, lease: Option<Time>, expire: bool, now: Time
        ensures Claim(Run(st, more), w, lease, expire, now).1 != NotFound(id)
      {
        SafeForever(st, more, w, lease, expire, now, id);
      }
    }
  }

  /** Whatever step ends a live event, a claim can meet its bare id afterwards if and only if the
      event ended between its store and its push. */
  lemma EndedEventIsMetIff(ops: seq<Op>, op: Op, id: Id)
    requires
      var st := Run(EMPTY, ops);
      id in st.entries && id !in Apply(st, op).entries
    ensures MayMeet(Apply(Run(EMPTY, ops), op), id) <==> id in Run(EMPTY, ops).unpushed
  {
    var st := Run(EMPTY, ops);
    Reachable(ops);
    assert Sound(st, id);
    StepNarrows(st, op, id);
    RunSnoc(EMPTY, ops, op);
    OrphanMetIff(ops + [op], id);
  }

  lemma {:induction false} RunSnoc(st: Store, ops: seq<Op>, op: Op)
    ensures Run(st, ops + [op]) == Apply(Run(st, ops), op)
    decreases |ops|
  {
    if ops == [] {
      assert ([] + [op])[1..] == [];
    } else {
      assert (ops + [op])[1..] == ops[1..] + [op];
      RunSnoc(Apply(st, ops[0]), ops[1..], op);
    }
  }

  /** Such a run: the event expires between store and push. */
  lemma OrphanReachable()
    ensures
      var ops := [OpStore(7, Entry(0, 5)), OpExpireDue(5), OpPush(7)];
      Claim(Run(EMPTY, ops), 1, None, true, 6).1 == NotFound(7)
  {
    var s1 := Apply(EMPTY, OpStore(7, Entry(0, 5)));
    assert s1.deadlines == Dict([7], map[7 := 5]);
    assert DueKeys([7], map[7 := 5], 5) == [7];
    assert Unclaimed([7], map[]) == [7];
    var s2 := Apply(s1, OpExpireDue(5));
    assert s2 == DeleteEvent(s1, 7, Expired(7)) by {
      assert DeleteAll(s1, [7]) == DeleteAll(DeleteEvent(s1, 7, Expired(7)), []);
    }
    var s3 := Apply(s2, OpPush(7));
    assert s3.pending == [7] && 7 !in s3.entries;
    var ops := [OpStore(7, Entry(0, 5)), OpExpireDue(5), OpPush(7)];
    assert ops[1..] == [OpExpireDue(5), OpPush(7)] && ops[1..][1..] == [OpPush(7)];
    assert Run(EMPTY, ops) == Run(s1, ops[1..]) == Run(s2, [OpPush(7)]) == Run(s3, []) == s3;
    assert Recover(s3, 6) == s3;
  }
}
