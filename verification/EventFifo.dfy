/** Order of delivery: what the claim loop takes, and how soon a waiting event is reached. */
module EventFifo {
  import opened Prelude
  import opened EventStore
  import opened EventInvariant
  import opened EventRuns

  // ---- The claim loop in closed form ----

  /** How many leading ids are still delayed: where the first available one stands. */
  function Delayed(availableAt: map<Id, Time>, s: seq<Id>, now: Time): (n: nat)
    ensures n <= |s|
  {
    if s == [] || Available(availableAt, s[0], now) then 0
    else 1 + Delayed(availableAt, s[1..], now)
  }

  lemma {:induction false} DelayedIsFirst(availableAt: map<Id, Time>, s: seq<Id>, now: Time)
    ensures
      var n := Delayed(availableAt, s, now);
      && (forall k :: 0 <= k < n ==> !Available(availableAt, s[k], now))
      && (n < |s| ==> Available(availableAt, s[n], now))
  {
    if s != [] && !Available(availableAt, s[0], now) {
      DelayedIsFirst(availableAt, s[1..], now);
      var n := Delayed(availableAt, s, now);
      forall k | 0 <= k < n ensures !Available(availableAt, s[k], now) {
        if k > 0 {
          assert s[k] == s[1..][k - 1];
        }
      }
    }
  }

  /** Turning one id to the back changes what lies ahead and behind accordingly. */
  lemma TurnOne(front: seq<Id>, back: seq<Id>, i: nat)
    requires 0 < i <= |front|
    ensures
      var rest, back' := front[1..], back + [front[0]];
      && back' + rest == back + front
      && (i < |front| ==> rest[i - 1] == front[i] && rest[i..] + back' + rest[..i - 1] == front[i + 1..] + back + front[..i])
  {
    if i < |front| {
      assert front[..i] == [front[0]] + front[1..][..i - 1];
      assert front[1..][i..] == front[i + 1..];
    }
  }

  lemma {:induction false} ScanFrom(
    st: Store, front: seq<Id>, back: seq<Id>, w: Worker, lease: Option<Time>, expire: bool, now: Time)
    requires st.pending == front + back
    ensures
      var i := Delayed(st.availableAt, front, now);
      ClaimScan(st, w, lease, expire, now, |front|) ==
      if i == |front| then (st.(pending := back + front), Nothing)
      else ClaimHead(st.(pending := front[i + 1..] + back + front[..i]), front[i], w, lease, expire, now)
    decreases |front|
  {
    hide ClaimHead, Available;
    if front == [] {
      assert st.pending == back == back + front;
    } else {
      var id, rest := front[0], front[1..];
      assert st.pending[1..] == rest + back;
      if Available(st.availableAt, id, now) {
        assert rest + back == rest + back + front[..0];
      } else {
        var i := Delayed(st.availableAt, front, now);
        var turned := Requeue(st.(pending := st.pending[1..]), id);
        assert turned.pending == rest + (back + [id]);
        ScanFrom(turned, rest, back + [id], w, lease, expire, now);
        TurnOne(front, back, i);
        assert ClaimScan(st, w, lease, expire, now, |front|) == ClaimScan(turned, w, lease, expire, now, |rest|);
        hide ClaimScan;
        assert i == 1 + Delayed(turned.availableAt, rest, now);
        hide Delayed;
      }
    }
  }

  /** The claim loop takes the first available pending id and leaves the ids behind it followed by
      the ids it skipped; with nothing available it reports empty and pending is unchanged. */
  lemma ClaimTakesFirstAvailable(st: Store, w: Worker, lease: Option<Time>, expire: bool, now: Time)
    requires lease.Some? ==> Budget(lease.value)
    ensures
      var swept := Recover(st, now);
      var i := Delayed(swept.availableAt, swept.pending, now);
      Claim(st, w, lease, expire, now) ==
      if i == |swept.pending| then (swept, Nothing)
      else ClaimHead(swept.(pending := swept.pending[i + 1..] + swept.pending[..i]), swept.pending[i],
                     w, lease, expire, now)
    ensures
      var swept := Recover(st, now);
      var i := Delayed(swept.availableAt, swept.pending, now);
      && (forall k :: 0 <= k < i ==> !Available(swept.availableAt, swept.pending[k], now))
      && (i < |swept.pending| ==> Available(swept.availableAt, swept.pending[i], now))
  {
    hide Recover, ClaimScan, ClaimHead, Delayed, Available;
    var swept := Recover(st, now);
    assert swept.pending == swept.pending + [];
    ScanFrom(swept, swept.pending, [], w, lease, expire, now);
    DelayedIsFirst(swept.availableAt, swept.pending, now);
    var i := Delayed(swept.availableAt, swept.pending, now);
    assert [] + swept.pending == swept.pending;
    if i < |swept.pending| {
      assert swept.pending[i + 1..] + [] == swept.pending[i + 1..];
    }
  }

  // ---- The dequeue loop in closed form ----

  /** How many leading ids `adequeue` would not return. */
  function Passed(st: Store, s: seq<Id>, now: Time): (n: nat)
    ensures n <= |s|
    ensures forall k :: 0 <= k < n ==> Skips(st, s[k], now)
    ensures n < |s| ==> !Skips(st, s[n], now)
  {
    if s == [] || !Skips(st, s[0], now) then 0 else 1 + Passed(st, s[1..], now)
  }

  lemma {:induction false} PassedSame(st: Store, st': Store, s: seq<Id>, now: Time)
    requires forall y :: y in s ==> (Skips(st, y, now) <==> Skips(st', y, now))
    ensures Passed(st, s, now) == Passed(st', s, now)
  {
    if s != [] {
      assert s[0] in s && forall y :: y in s[1..] ==> y in s;
      PassedSame(st, st', s[1..], now);
    }
  }

  /** Passing over the head moves or drops it. */
  lemma PassOverShape(st: Store, front: seq<Id>, back: seq<Id>, now: Time) returns (back': seq<Id>)
    requires st.pending == front + back && Distinct(st.pending) && front != []
    ensures PassOver(st, now).pending == front[1..] + back' && Distinct(front[1..] + back')
  {
    var id := front[0];
    DistinctTail(st.pending);
    var tail := st.pending[1..];
    assert tail == front[1..] + back;
    WithoutAbsent(tail, id);
    hide Without;
    if !Available(st.availableAt, id, now) || id in st.claims {
      back' := back + [id];
      assert tail + [id] == front[1..] + back';
    } else {
      back' := back;
    }
  }

  /** It changes nothing about the ids behind it. */
  lemma PassOverSkips(st: Store, front: seq<Id>, back: seq<Id>, now: Time)
    requires st.pending == front + back && Distinct(st.pending) && front != []
    ensures forall y :: y in front[1..] ==> (Skips(st, y, now) <==> Skips(PassOver(st, now), y, now))
  {
    DistinctTail(st.pending);
    assert st.pending[1..] == front[1..] + back;
  }

  lemma {:induction false} DequeueScanFrom(st: Store, front: seq<Id>, back: seq<Id>, now: Time)
    requires st.pending == front + back && Distinct(st.pending)
    ensures
      var i := Passed(st, front, now);
      DequeueScan(st, now, |front|).1 == if i == |front| then None else Some(front[i])
    decreases |front|
  {
    hide PassOver, Skips, Distinct;
    if front != [] && Skips(st, front[0], now) {
      var back' := PassOverShape(st, front, back, now);
      PassOverSkips(st, front, back, now);
      DequeueScanFrom(PassOver(st, now), front[1..], back', now);
      PassedSame(st, PassOver(st, now), front[1..], now);
    }
  }

  /** `adequeue` returns the first pending id that is available, unclaimed, stored and unexpired,
      and reports empty exactly when there is none. */
  lemma DequeueTakesFirstDeliverable(st: Store, now: Time)
    requires Inv(st)
    ensures
      var swept := Recover(st, now);
      var i := Passed(swept, swept.pending, now);
      Dequeue(st, now).1 == if i == |swept.pending| then None else Some(swept.pending[i])
  {
    RecoverKeeps(st, now);
    var swept := Recover(st, now);
    assert swept.pending == swept.pending + [];
    DequeueScanFrom(swept, swept.pending, [], now);
  }

  // ---- How far one waiting event is from the front ----

  /** `x` keeps its record, its delay and its deadline. */
  predicate Untouched(st: Store, st': Store, x: Id) {
    && x in st.entries && x in st'.entries
    && (x in st.availableAt <==> x in st'.availableAt)
    && (x in st.availableAt ==> st.availableAt[x] == st'.availableAt[x])
    && x in st.deadlines.vals && x in st'.deadlines.vals
    && st.deadlines.vals[x] == st'.deadlines.vals[x]
  }

  /** `x` still waits, unchanged, at least `d` places nearer the front. */
  predicate Nearer(st: Store, st': Store, x: Id, d: nat) {
    && Untouched(st, st', x)
    && x in st.pending && x in st'.pending
    && IndexOf(st'.pending, x) + d <= IndexOf(st.pending, x)
  }

  /** A pending event no reader would skip or expire at `now`. */
  predicate Ready(st: Store, x: Id, now: Time) {
    Available(st.availableAt, x, now) && Deliverable(st, x, now)
  }

  lemma {:induction false} RecoverAllLeaves(st: Store, ids: seq<Id>, now: Time, x: Id)
    requires x !in ids && x in st.entries && x in st.deadlines.vals
    ensures
      var st' := RecoverAll(st, ids, now);
      Untouched(st, st', x) && st.pending <= st'.pending && (x in st'.claims <==> x in st.claims)
    decreases |ids|
  {
    if ids != [] {
      RecoverAllLeaves(RecoverOne(st, ids[0], now), ids[1..], now, x);
    }
  }

  lemma RecoverLeaves(st: Store, now: Time, x: Id)
    requires Inv(st) && x in st.pending && x in st.entries
    ensures Untouched(st, Recover(st, now), x) && st.pending <= Recover(st, now).pending
    ensures x in Recover(st, now).pending && IndexOf(Recover(st, now).pending, x) == IndexOf(st.pending, x)
    ensures x !in Recover(st, now).claims
  {
    assert Sound(st, x);
    DueKeysAre(st.leases.order, st.leases.vals, now);
    RecoverAllLeaves(st, DueKeys(st.leases.order, st.leases.vals, now), now, x);
    var swept := Recover(st, now);
    assert swept.pending == st.pending + swept.pending[|st.pending|..];
    IndexOfPrefix(st.pending, swept.pending[|st.pending|..], x);
  }

  lemma ReadyIsTaken(st: Store, x: Id, now: Time)
    requires Ready(st, x, now) && x !in st.claims
    ensures !Skips(st, x, now) && Available(st.availableAt, x, now)
    ensures x in st.entries && x in st.deadlines.vals
    ensures forall rest, w, lease, expire :: ClaimHead(st.(pending := rest), x, w, lease, expire, now).1 == Got(x)
  {
  }

  /** Steps that bring `x` nearer compose, and leave it ready. */
  lemma NearerOn(st: Store, mid: Store, end: Store, x: Id, now: Time)
    requires Nearer(st, mid, x, 1)
    ensures Ready(st, x, now) ==> Ready(mid, x, now)
    ensures IndexOf(mid.pending, x) < IndexOf(st.pending, x)
    ensures Nearer(mid, end, x, 1) ==> Nearer(st, end, x, 1)
  {
  }

  lemma ClaimHeadLeaves(st: Store, id: Id, w: Worker, lease: Option<Time>, expire: bool, now: Time, x: Id)
    requires x != id && x in st.entries && x in st.deadlines.vals
    ensures
      var st' := ClaimHead(st, id, w, lease, expire, now).0;
      Untouched(st, st', x) && (st'.pending == st.pending || st'.pending == st.pending + [id])
  {
  }

  /** Acting on another head leaves `x` alone, one place nearer. */
  lemma HeadLeaves(st: Store, w: Worker, lease: Option<Time>, expire: bool, now: Time, x: Id)
    requires x in st.pending && x != st.pending[0] && x in st.entries && x in st.deadlines.vals
    ensures
      var popped := st.(pending := st.pending[1..]);
      && Nearer(st, popped, x, 1)
      && Nearer(st, Requeue(popped, st.pending[0]), x, 1)
      && Nearer(st, ClaimHead(popped, st.pending[0], w, lease, expire, now).0, x, 1)
  {
    hide ClaimHead;
    ClaimHeadLeaves(st.(pending := st.pending[1..]), st.pending[0], w, lease, expire, now, x);
    IndexOfPrefix(st.pending[1..], [st.pending[0]], x);
    assert IndexOf(st.pending[1..], x) + 1 == IndexOf(st.pending, x);
  }

  lemma {:induction false} ClaimScanReaches(
    st: Store, w: Worker, lease: Option<Time>, expire: bool, now: Time, n: nat, x: Id)
    requires x in st.pending && x !in st.claims && IndexOf(st.pending, x) < n
    requires Ready(st, x, now)
    ensures
      var (st', r) := ClaimScan(st, w, lease, expire, now, n);
      r == Got(x) || Nearer(st, st', x, 1)
    decreases n
  {
    hide ClaimHead, Available, Nearer, Ready, IndexOf;
    ReadyIsTaken(st, x, now);
    var id := st.pending[0];
    if id != x {
      HeadLeaves(st, w, lease, expire, now, x);
      if !Available(st.availableAt, id, now) {
        var turned := Requeue(st.(pending := st.pending[1..]), id);
        NearerOn(st, turned, ClaimScan(st, w, lease, expire, now, n).0, x, now);
        ClaimScanReaches(turned, w, lease, expire, now, n - 1, x);
      }
    }
  }

  lemma DropLeaves(st: Store, why: Event, x: Id)
    requires x in st.pending && x != st.pending[0] && x in st.entries && x in st.deadlines.vals
    ensures Nearer(st, DeleteEvent(st.(pending := st.pending[1..]), st.pending[0], why), x, 1)
  {
    IndexOfWithout(st.pending[1..], st.pending[0], x);
  }

  lemma PassOverLeaves(st: Store, now: Time, x: Id)
    requires x in st.pending && x != st.pending[0] && x in st.entries && x in st.deadlines.vals
    ensures Nearer(st, PassOver(st, now), x, 1) && PassOver(st, now).claims == st.claims
  {
    HeadLeaves(st, 0, None, false, now, x);
    DropLeaves(st, Expired(st.pending[0]), x);
  }

  lemma {:induction false} DequeueScanReaches(st: Store, now: Time, n: nat, x: Id)
    requires x in st.pending && x !in st.claims && IndexOf(st.pending, x) < n
    requires Ready(st, x, now)
    ensures
      var (st', r) := DequeueScan(st, now, n);
      r == Some(x) || Nearer(st, st', x, 1)
    decreases n
  {
    hide PassOver, DeleteEvent, Skips, Nearer, Ready, IndexOf;
    ReadyIsTaken(st, x, now);
    var id := st.pending[0];
    if id != x {
      if Skips(st, id, now) {
        PassOverLeaves(st, now, x);
        NearerOn(st, PassOver(st, now), DequeueScan(st, now, n).0, x, now);
        DequeueScanReaches(PassOver(st, now), now, n - 1, x);
      } else {
        DropLeaves(st, Dequeued(id), x);
      }
    }
  }

  lemma {:induction false} DeleteAllLeaves(st: Store, ids: seq<Id>, x: Id)
    requires x !in ids && x in st.pending && x in st.entries && x in st.deadlines.vals
    ensures
      var st' := DeleteAll(st, ids);
      Untouched(st, st', x) && x in st'.pending && IndexOf(st'.pending, x) <= IndexOf(st.pending, x)
    decreases |ids|
  {
    if ids != [] {
      IndexOfWithout(st.pending, ids[0], x);
      DeleteAllLeaves(DeleteEvent(st, ids[0], Expired(ids[0])), ids[1..], x);
    }
  }

  // ---- Bounded waiting over a run ----

  /** A call that hands out one event: a claim with a valid lease, or a direct dequeue. */
  predicate IsDelivery(op: Op) {
    op.OpDequeue? || (op.OpClaim? && (op.lease.Some? ==> Budget(op.lease.value)))
  }

  predicate Delivers(st: Store, op: Op, x: Id) {
    || (op.OpClaim? && Claim(st, op.worker, op.lease, op.expire, op.now).1 == Got(x))
    || (op.OpDequeue? && Dequeue(st, op.now).1 == Some(x))
  }

  /** No reader finds `x` delayed or out of time, no sweep finds it out of time, and nobody deletes
      it; a claim whose lease is rejected may come at any time. */
  predicate Steady(st: Store, op: Op, x: Id) {
    match op
    case OpClaim(_, lease, _, now) => (lease.Some? ==> Budget(lease.value)) ==> Ready(st, x, now)
    case OpDequeue(now) => Ready(st, x, now)
    case OpExpireDue(now) => Deliverable(st, x, now)
    case OpExpire(id) => id != x
    case OpDelete(id) => id != x
    case _ => true
  }

  lemma ClaimNears(st: Store, w: Worker, lease: Option<Time>, expire: bool, now: Time, x: Id)
    requires Inv(st) && x in st.pending && x in st.entries && Ready(st, x, now)
    requires lease.Some? ==> Budget(lease.value)
    ensures
      var (st', r) := Claim(st, w, lease, expire, now);
      r == Got(x) || Nearer(st, st', x, 1)
  {
    RecoverLeaves(st, now, x);
    var swept := Recover(st, now);
    ClaimScanReaches(swept, w, lease, expire, now, |swept.pending|, x);
  }

  lemma DequeueNears(st: Store, now: Time, x: Id)
    requires Inv(st) && x in st.pending && x in st.entries && Ready(st, x, now)
    ensures
      var (st', r) := Dequeue(st, now);
      r == Some(x) || Nearer(st, st', x, 1)
  {
    RecoverLeaves(st, now, x);
    var swept := Recover(st, now);
    DequeueScanReaches(swept, now, |swept.pending|, x);
  }

  lemma ExpireDueNears(st: Store, now: Time, x: Id)
    requires Inv(st) && x in st.pending && x in st.entries && Deliverable(st, x, now)
    ensures Nearer(st, ExpireDue(st, now), x, 0)
  {
    DueKeysAre(st.deadlines.order, st.deadlines.vals, now);
    UnclaimedAre(DueKeys(st.deadlines.order, st.deadlines.vals, now), st.claims);
    DeleteAllLeaves(st, ExpiredIds(st, now), x);
  }

  lemma RenewNears(st: Store, id: Id, w: Worker, d: Time, now: Time, x: Id)
    requires Inv(st) && x in st.pending && x in st.entries
    ensures Nearer(st, Renew(st, id, w, d, now).0, x, 0)
  {
    assert Sound(st, x);
    RecoverLeaves(st, now, x);
  }

  lemma ReleaseNears(st: Store, id: Id, w: Worker, d: Time, now: Time, x: Id)
    requires Inv(st) && x in st.pending && x in st.entries
    ensures Nearer(st, Release(st, id, w, d, now).0, x, 0)
  {
    assert Sound(st, x);
    IndexOfPrefix(st.pending, [id], x);
  }

  lemma ForgetNears(st: Store, id: Id, log: seq<Event>, x: Id)
    requires Inv(st) && x in st.pending && x in st.entries && x != id
    ensures Nearer(st, Forget(st, id).(log := log), x, 0)
  {
    assert Sound(st, x);
    IndexOfWithout(st.pending, id, x);
  }

  /** Operations that hand nothing out never move `x` back. */
  lemma OtherNears(st: Store, op: Op, x: Id)
    requires Inv(st) && x in st.pending && x in st.entries && Steady(st, op, x)
    requires !op.OpClaim? && !op.OpDequeue? && !op.OpExpireDue?
    ensures Nearer(st, Apply(st, op), x, 0)
  {
    assert Sound(st, x);
    match op
    case OpPush(id) => IndexOfPrefix(st.pending, [id], x);
    case OpRenew(id, w, d, now) => RenewNears(st, id, w, d, now, x);
    case OpRelease(id, w, d, now) => ReleaseNears(st, id, w, d, now, x);
    case OpRemove(id, w) => if Owns(st, id, w) { ForgetNears(st, id, st.log + [Removed(id, w)], x); }
    case OpDelete(id) => ForgetNears(st, id, if id in st.entries then st.log + [Deleted(id)] else st.log, x);
    case OpExpire(id) => IndexOfWithout(st.pending, id, x);
    case OpStore(id, e) =>
  }

  /** One step either delivers `x` or keeps it waiting, one place nearer for each delivery call. */
  lemma StepNears(st: Store, op: Op, x: Id)
    requires Inv(st) && x in st.pending && x in st.entries && Steady(st, op, x)
    ensures Delivers(st, op, x) || Nearer(st, Apply(st, op), x, if IsDelivery(op) then 1 else 0)
  {
    assert Sound(st, x);
    if op.OpClaim? {
      if IsDelivery(op) {
        ClaimNears(st, op.worker, op.lease, op.expire, op.now, x);
      }
    } else if op.OpDequeue? {
      DequeueNears(st, op.now, x);
    } else if op.OpExpireDue? {
      ExpireDueNears(st, op.now, x);
    } else {
      OtherNears(st, op, x);
    }
  }

  function Deliveries(ops: seq<Op>): nat {
    if ops == [] then 0 else (if IsDelivery(ops[0]) then 1 else 0) + Deliveries(ops[1..])
  }

  /** Some step of the run hands out `x`. */
  predicate DeliveredDuring(st: Store, ops: seq<Op>, x: Id)
    decreases |ops|
  {
    ops != [] && (Delivers(st, ops[0], x) || DeliveredDuring(Apply(st, ops[0]), ops[1..], x))
  }

  /** An event at position j, never found delayed or expired, is handed out within j + 1 delivery
      calls, whatever pushes, releases, expiries, recoveries and other claims interleave. */
  lemma {:induction false} DeliveredWithinPosition(st: Store, ops: seq<Op>, x: Id)
    requires Inv(st) && x in st.pending && x in st.entries
    requires forall op :: op in ops ==> Steady(st, op, x)
    requires Deliveries(ops) > IndexOf(st.pending, x)
    ensures DeliveredDuring(st, ops, x)
    decreases |ops|
  {
    assert Steady(st, ops[0], x);
    StepNears(st, ops[0], x);
    if !Delivers(st, ops[0], x) {
      var st' := Apply(st, ops[0]);
      ApplyKeeps(st, ops[0]);
      forall op | op in ops[1..] ensures Steady(st', op, x) {
        assert Steady(st, op, x);
      }
      DeliveredWithinPosition(st', ops[1..], x);
    }
  }
}
