/**
 What every event call does to every id, told apart from how it searches: each call changes the one id
 it answers for, as its answer says, and leaves all others as they were.
 */
module EventAnswers {
  import opened Prelude
  import opened EventStore
  import opened EventInvariant
  import opened EventRuns
  import opened EventFifo
  import opened EventEndings
  import opened EventLease

  function At<V>(m: map<Id, V>, id: Id): Option<V> {
    if id in m then Some(m[id]) else None
  }

  /** Everything the stores hold about one id. */
  datatype Cell = Cell(
    record: Option<Entry>, owner: Option<Worker>, lease: Option<Time>, delayedUntil: Option<Time>,
    deadline: Option<Time>, left: Option<Time>, waiting: bool, unpushed: bool)

  function CellOf(st: Store, id: Id): Cell {
    Cell(At(st.entries, id), At(st.claims, id), At(st.leases.vals, id), At(st.availableAt, id),
         At(st.deadlines.vals, id), At(st.remaining, id), id in st.pending, id in st.unpushed)
  }

  /** Nothing is left of the event; an enqueue that has not pushed it yet still will. */
  function Emptied(c: Cell): Cell {
    Cell(None, None, None, None, None, None, false, c.unpushed)
  }

  /** The lifetime clock runs again from `now` with what was left on it. */
  function Resumed(c: Cell, now: Time): Cell {
    if c.left.Some? then c.(deadline := Some(now + c.left.value), left := None) else c
  }

  /** The event is unclaimed and its time is up. */
  predicate Overdue(c: Cell, now: Time) {
    c.record.Some? && c.owner.None? && c.deadline.Some? && c.deadline.value <= now
  }

  predicate LeaseEnded(c: Cell, now: Time) {
    c.lease.Some? && c.lease.value <= now
  }

  /** A released event still waiting out its delay. */
  predicate NotYet(c: Cell, now: Time) {
    c.delayedUntil.Some? && now < c.delayedUntil.value
  }

  // ---- Recovery ----

  lemma {:induction false} RecoverAllIs(st: Store, ids: seq<Id>, now: Time, x: Id)
    requires Inv(st) && Distinct(ids) && forall y :: y in ids ==> y in st.leases.vals
    ensures
      var c, c' := CellOf(st, x), CellOf(RecoverAll(st, ids, now), x);
      c' == if x in ids then Resumed(c, now).(owner := None, lease := None, waiting := true) else c
    decreases |ids|
  {
    if ids != [] {
      var mid := RecoverOne(st, ids[0], now);
      RecoverOneKeeps(st, ids[0], now);
      DistinctTail(ids);
      assert forall y :: y in ids[1..] ==> y in ids;
      RecoverAllIs(mid, ids[1..], now, x);
      RecoverOneIs(st, ids[0], now, x);
    }
  }

  lemma RecoverOneIs(st: Store, id: Id, now: Time, x: Id)
    requires Inv(st) && id in st.leases.vals
    ensures
      var c, c' := CellOf(st, x), CellOf(RecoverOne(st, id, now), x);
      c' == if x == id then Resumed(c, now).(owner := None, lease := None, waiting := true) else c
  {
    assert Sound(st, id);
  }

  /** Recovery frees exactly the claims whose lease has ended: they wait again at once, with their
      lifetime running from the recovery. */
  lemma RecoverIs(st: Store, now: Time, x: Id)
    requires Inv(st)
    ensures
      var c, c' := CellOf(st, x), CellOf(Recover(st, now), x);
      c' == if LeaseEnded(c, now) then Resumed(c, now).(owner := None, lease := None, waiting := true) else c
  {
    DueKeysAre(st.leases.order, st.leases.vals, now);
    RecoverAllIs(st, DueKeys(st.leases.order, st.leases.vals, now), now, x);
  }

  // ---- Claims ----

  /** `id` is the first pending id whose delay, if any, is over. */
  ghost predicate FirstAvailable(st: Store, id: Id, now: Time) {
    exists i :: 0 <= i < |st.pending| && st.pending[i] == id && !NotYet(CellOf(st, id), now)
      && forall k :: 0 <= k < i ==> NotYet(CellOf(st, st.pending[k]), now)
  }

  function LeaseEnd(lease: Option<Time>, now: Time): Option<Time> {
    if lease.Some? then Some(now + lease.value) else None
  }

  lemma FirstAvailableAt(st: Store, id: Id, now: Time)
    ensures
      var i := EventFifo.Delayed(st.availableAt, st.pending, now);
      FirstAvailable(st, id, now) <==> i < |st.pending| && st.pending[i] == id
  {
    var i := EventFifo.Delayed(st.availableAt, st.pending, now);
    DelayedIsFirst(st.availableAt, st.pending, now);
    forall k | 0 <= k < |st.pending|
      ensures NotYet(CellOf(st, st.pending[k]), now) <==> !Available(st.availableAt, st.pending[k], now)
    {
    }
    if FirstAvailable(st, id, now) {
      var j :| 0 <= j < |st.pending| && st.pending[j] == id && !NotYet(CellOf(st, id), now)
        && forall k :: 0 <= k < j ==> NotYet(CellOf(st, st.pending[k]), now);
      assert i == j;
    }
  }

  /** How a claim by `w` at `now` answers for an unclaimed id, and what it makes of it: missing, or out of
      time and gone, or granted to the caller, leased from now and, if lifetimes count, paused. */
  predicate Answers(c: Cell, c': Cell, r: ClaimResult, id: Id, w: Worker, lease: Option<Time>, expire: bool, now: Time) {
    && (c.record.None? ==> r == NotFound(id) && c' == Emptied(c))
    && (c.record.Some? ==>
          && c.deadline.Some?
          && (r == TooLate(id) <==> expire && c.deadline.value <= now)
          && (r == TooLate(id) ==> c' == Emptied(c))
          && (r == Got(id) <==> (expire ==> now < c.deadline.value))
          && (r == Got(id) ==>
                c' == Cell(c.record, Some(w), LeaseEnd(lease, now), None, if expire then None else c.deadline,
                           if expire then Some(c.deadline.value - now) else None, false, c.unpushed)))
  }

  /** A pending id is unclaimed, and its lifetime clock runs as long as it has a record. */
  lemma PendingCell(st: Store, id: Id)
    requires Inv(st) && id in st.pending
    ensures
      var c := CellOf(st, id);
      && c.owner.None? && c.lease.None? && c.left.None? && !c.unpushed
      && (c.record.Some? <==> c.deadline.Some?)
      && (c.record.None? ==> c == Emptied(c).(waiting := true))
  {
    assert Sound(st, id);
  }

  lemma ClaimHeadIs(st: Store, rest: seq<Id>, head: Id, w: Worker, lease: Option<Time>, expire: bool, now: Time)
    requires Inv(st) && head in st.pending && head !in rest
    ensures
      var (st', r) := ClaimHead(st.(pending := rest), head, w, lease, expire, now);
      Answers(CellOf(st, head), CellOf(st', head), r, head, w, lease, expire, now)
  {
    PendingCell(st, head);
    hide Inv;
  }

  lemma ClaimHeadSpares(
    st: Store, rest: seq<Id>, head: Id, w: Worker, lease: Option<Time>, expire: bool, now: Time, x: Id)
    requires head !in st.claims && x != head && (x in rest <==> x in st.pending)
    ensures CellOf(ClaimHead(st.(pending := rest), head, w, lease, expire, now).0, x) == CellOf(st, x)
  {
  }

  /** A claim answers for the first available id after recovery, and touches nobody else. */
  lemma ClaimIs(st: Store, w: Worker, lease: Option<Time>, expire: bool, now: Time, id: Id, x: Id)
    requires Inv(st) && (lease.Some? ==> Budget(lease.value)) && FirstAvailable(Recover(st, now), id, now)
    ensures
      var swept := Recover(st, now);
      var (st', r) := Claim(st, w, lease, expire, now);
      && (x != id ==> CellOf(st', x) == CellOf(swept, x))
      && Answers(CellOf(swept, id), CellOf(st', id), r, id, w, lease, expire, now)
  {
    var swept := Recover(st, now);
    RecoverKeeps(st, now);
    ClaimTakesFirstAvailable(st, w, lease, expire, now);
    FirstAvailableAt(swept, id, now);
    var i := EventFifo.Delayed(swept.availableAt, swept.pending, now);
    var rest := swept.pending[i + 1..] + swept.pending[..i];
    forall y ensures y in rest <==> y in swept.pending && y != id {
      TurnedAre(swept.pending, i, y);
    }
    PendingCell(swept, id);
    assert id !in swept.claims;
    hide *;
    ClaimHeadIs(swept, rest, id, w, lease, expire, now);
    if x != id {
      ClaimHeadSpares(swept, rest, id, w, lease, expire, now, x);
    }
  }

  lemma TurnedAre(s: seq<Id>, i: nat, x: Id)
    requires Distinct(s) && i < |s|
    ensures x in s[i + 1..] + s[..i] <==> x in s && x != s[i]
  {
    assert s == s[..i] + [s[i]] + s[i + 1..];
    TurnedMembers(s, i);
  }

  /** A rejected lease changes nothing; otherwise the claim comes back empty-handed if and only if every
      pending id is still delayed, and then only recovery has happened. */
  lemma ClaimIsEmptyIff(st: Store, w: Worker, lease: Option<Time>, expire: bool, now: Time)
    requires Inv(st)
    ensures
      var swept := Recover(st, now);
      var (st', r) := Claim(st, w, lease, expire, now);
      && (r == BadBudget <==> lease.Some? && lease.value <= 0)
      && (r == BadBudget ==> st' == st)
      && (r == Nothing ==> st' == swept)
      && (r == Nothing <==> r != BadBudget && forall y :: y in swept.pending ==> NotYet(CellOf(swept, y), now))
  {
    if lease.Some? ==> Budget(lease.value) {
      var swept := Recover(st, now);
      ClaimTakesFirstAvailable(st, w, lease, expire, now);
      var i := EventFifo.Delayed(swept.availableAt, swept.pending, now);
      if i < |swept.pending| {
        assert !NotYet(CellOf(swept, swept.pending[i]), now);
      }
    }
  }

  /** The answer `Got` is a grant: the caller owns the event, leased to the instant it asked for, or for
      good without a lease. */
  lemma GotIsOwned(st: Store, w: Worker, lease: Option<Time>, expire: bool, now: Time, id: Id)
    requires Inv(st) && Claim(st, w, lease, expire, now).1 == Got(id)
    ensures
      var st' := Claim(st, w, lease, expire, now).0;
      && Owns(st', id, w) && id in st'.entries && id !in st'.pending
      && (if lease.Some? then Leased(st', id, w, now + lease.value) else id !in st'.leases.vals)
  {
    var swept := Recover(st, now);
    ClaimTakesFirstAvailable(st, w, lease, expire, now);
    var i := EventFifo.Delayed(swept.availableAt, swept.pending, now);
    FirstAvailableAt(swept, swept.pending[i], now);
    ClaimIs(st, w, lease, expire, now, swept.pending[i], id);
  }

  /** A worker whose claim was granted with a lease and who renews on schedule owns the event in every
      state that follows, through any number of renewals and any foreign steps in between. */
  lemma OwnedFromClaim(ops: seq<Op>, w: Worker, lease: Time, expire: bool, now: Time, id: Id, rounds: seq<Round>)
    requires Claim(Run(EMPTY, ops), w, Some(lease), expire, now).1 == Got(id)
    requires AllOnSchedule(rounds, id, w, lease, now)
    ensures OwnedThroughout(Claim(Run(EMPTY, ops), w, Some(lease), expire, now).0, Steps(rounds, id, w, lease), id, w)
  {
    var st := Run(EMPTY, ops);
    Reachable(ops);
    GotIsOwned(st, w, Some(lease), expire, now, id);
    ClaimKeeps(st, w, Some(lease), expire, now);
    OwnedWhileRenewing(Claim(st, w, Some(lease), expire, now).0, rounds, id, w, lease, now);
  }

  // ---- Direct dequeue ----

  /** What `adequeue` may hand out. */
  predicate Servable(c: Cell, now: Time) {
    && c.record.Some? && c.owner.None? && !NotYet(c, now)
    && c.deadline.Some? && now < c.deadline.value
  }

  lemma SkipsIs(st: Store, id: Id, now: Time)
    requires Inv(st)
    ensures Skips(st, id, now) <==> !Servable(CellOf(st, id), now)
  {
  }

  lemma DeleteEventIs(st: Store, id: Id, why: Event, x: Id)
    requires Inv(st) && id !in st.claims
    ensures
      var c, c' := CellOf(st, x), CellOf(DeleteEvent(st, id, why), x);
      c' == if x == id then Emptied(c) else c
  {
    assert Sound(st, id);
    WithoutKeeps(st.pending, id);
  }

  lemma PassOverIs(st: Store, now: Time, x: Id)
    requires Inv(st) && st.pending != []
    ensures
      var c, c' := CellOf(st, x), CellOf(PassOver(st, now), x);
      c' == if x == st.pending[0] && !NotYet(c, now) then Emptied(c) else c
  {
    var id := st.pending[0];
    PendingCell(st, id);
    if NotYet(CellOf(st, id), now) {
      assert st.pending == [id] + st.pending[1..];
    } else {
      DeletePopped(st, Expired(id));
      DeleteEventIs(st, id, Expired(id), x);
    }
  }

  /** What becomes of an id when a scan of `front` hands out its i-th: that one goes, and so do those
      before it whose delay is over. */
  function Sifted(front: seq<Id>, i: nat, c: Cell, x: Id, now: Time): Cell
    requires i <= |front|
  {
    if (i < |front| && x == front[i]) || (x in front[..i] && !NotYet(c, now)) then Emptied(c) else c
  }

  lemma SiftStep(front: seq<Id>, i: nat, c: Cell, x: Id, now: Time)
    requires 0 < i <= |front| && Distinct(front)
    ensures
      var mid := if x == front[0] && !NotYet(c, now) then Emptied(c) else c;
      Sifted(front, i, c, x, now) == Sifted(front[1..], i - 1, mid, x, now)
  {
    DistinctTail(front);
    assert front[..i] == [front[0]] + front[1..][..i - 1];
  }

  lemma {:induction false} DequeueScanIs(st: Store, front: seq<Id>, back: seq<Id>, now: Time, x: Id)
    requires Inv(st) && st.pending == front + back
    ensures
      var i := Passed(st, front, now);
      var c, c' := CellOf(st, x), CellOf(DequeueScan(st, now, |front|).0, x);
      c' == Sifted(front, i, c, x, now)
    decreases |front|
  {
    if front != [] {
      var id := front[0];
      PendingCell(st, id);
      DistinctTail(st.pending);
      assert st.pending[1..] == front[1..] + back;
      if Skips(st, id, now) {
        DequeuePassesIs(st, front, back, now, x);
      } else {
        DeletePopped(st, Dequeued(id));
        DeleteEventIs(st, id, Dequeued(id), x);
      }
    }
  }

  lemma DequeuePassesIs(st: Store, front: seq<Id>, back: seq<Id>, now: Time, x: Id)
    requires Inv(st) && st.pending == front + back && front != [] && Skips(st, front[0], now)
    ensures
      var i := Passed(st, front, now);
      var c, c' := CellOf(st, x), CellOf(DequeueScan(st, now, |front|).0, x);
      c' == Sifted(front, i, c, x, now)
    decreases |front|, 0
  {
    hide *;
    var i, mid := Passed(st, front, now), PassOver(st, now);
    var back' := PassStep(st, front, back, now);
    PassOverKeeps(st, now);
    PassOverIs(st, now, x);
    SiftStep(front, i, CellOf(st, x), x, now);
    DequeueScanIs(mid, front[1..], back', now, x);
  }

  /** One turn of the dequeue loop over a head it does not hand out. */
  lemma PassStep(st: Store, front: seq<Id>, back: seq<Id>, now: Time) returns (back': seq<Id>)
    requires Inv(st) && st.pending == front + back && front != [] && Skips(st, front[0], now)
    ensures PassOver(st, now).pending == front[1..] + back' && Distinct(front)
    ensures Passed(st, front, now) == 1 + Passed(PassOver(st, now), front[1..], now)
    ensures DequeueScan(st, now, |front|) == DequeueScan(PassOver(st, now), now, |front| - 1)
  {
    back' := PassOverShape(st, front, back, now);
    PassOverSkips(st, front, back, now);
    PassedSame(st, PassOver(st, now), front[1..], now);
    DistinctPrefix(front, back);
    hide Inv, PassOver, Skips, Distinct;
  }

  lemma DistinctPrefix(s: seq<Id>, t: seq<Id>)
    requires Distinct(s + t)
    ensures Distinct(s)
  {
    forall i, j | 0 <= i < j < |s| ensures s[i] != s[j] {
      assert (s + t)[i] == s[i] && (s + t)[j] == s[j];
    }
  }

  /** `adequeue` returns the first pending event it may serve. Of the ids ahead of it, those past their
      delay are out of time and go; those still delayed, and everything else, stay as they were. */
  lemma DequeueIs(st: Store, now: Time, x: Id) returns (n: nat)
    requires Inv(st)
    ensures
      var swept := Recover(st, now);
      var (st', r) := Dequeue(st, now);
      var c, c' := CellOf(swept, x), CellOf(st', x);
      && n <= |swept.pending| && r == (if n < |swept.pending| then Some(swept.pending[n]) else None)
      && (r.Some? ==> Servable(CellOf(swept, r.value), now))
      && (forall k :: 0 <= k < n ==> !Servable(CellOf(swept, swept.pending[k]), now))
      && c' == if r == Some(x) || (x in swept.pending[..n] && !NotYet(c, now)) then Emptied(c) else c
  {
    var swept := Recover(st, now);
    RecoverKeeps(st, now);
    n := Passed(swept, swept.pending, now);
    DequeueTakesFirstDeliverable(st, now);
    assert swept.pending + [] == swept.pending;
    DequeueScanIs(swept, swept.pending, [], now, x);
    forall k | 0 <= k < |swept.pending| ensures Skips(swept, swept.pending[k], now) <==> !Servable(CellOf(swept, swept.pending[k]), now) {
      SkipsIs(swept, swept.pending[k], now);
    }
  }

  // ---- Expiry, settlement and deletion ----

  lemma {:induction false} DeleteAllIs(st: Store, ids: seq<Id>, x: Id)
    requires Inv(st) && forall y :: y in ids ==> y !in st.claims
    ensures
      var c, c' := CellOf(st, x), CellOf(DeleteAll(st, ids), x);
      c' == if x in ids then Emptied(c) else c
    decreases |ids|
  {
    if ids != [] {
      var mid := DeleteEvent(st, ids[0], Expired(ids[0]));
      assert forall y :: y in ids[1..] ==> y in ids;
      DeleteEventKeeps(st, ids[0], Expired(ids[0]));
      DeleteEventIs(st, ids[0], Expired(ids[0]), x);
      DeleteAllIs(mid, ids[1..], x);
    }
  }

  lemma {:induction false} UnclaimedDistinct(ids: seq<Id>, claims: map<Id, Worker>)
    requires Distinct(ids)
    ensures Distinct(Unclaimed(ids, claims))
  {
    if ids != [] {
      DistinctTail(ids);
      UnclaimedDistinct(ids[1..], claims);
      UnclaimedAre(ids[1..], claims);
    }
  }

  /** The sweep ends exactly the overdue events, returns each of them once, and touches nothing else. */
  lemma ExpireDueIs(st: Store, now: Time, x: Id)
    requires Inv(st)
    ensures
      var c, c' := CellOf(st, x), CellOf(ExpireDue(st, now), x);
      && (x in ExpiredIds(st, now) <==> Overdue(c, now))
      && Distinct(ExpiredIds(st, now))
      && c' == if Overdue(c, now) then Emptied(c) else c
  {
    var due := DueKeys(st.deadlines.order, st.deadlines.vals, now);
    DueKeysAre(st.deadlines.order, st.deadlines.vals, now);
    UnclaimedAre(due, st.claims);
    UnclaimedDistinct(due, st.claims);
    assert Sound(st, x);
    DeleteAllIs(st, ExpiredIds(st, now), x);
  }

  /** Renewal succeeds exactly for the worker the history names as owner once ended leases are
      recovered; the lease then runs from now, and nothing else changes. */
  lemma RenewIs(st: Store, id: Id, w: Worker, lease: Time, now: Time, x: Id)
    requires Inv(st)
    ensures
      var swept := Recover(st, now);
      var (st', renewed) := Renew(st, id, w, lease, now);
      var c, c' := CellOf(swept, x), CellOf(st', x);
      && (renewed <==> lease > 0 && Owner(swept.log, id) == Some(w))
      && (lease <= 0 ==> st' == st)
      && (lease > 0 ==> c' == if renewed && x == id then c.(lease := Some(now + lease)) else c)
  {
    RecoverKeeps(st, now);
    assert Sound(Recover(st, now), id);
  }

  /** The owner's release ends claim and lease, resumes the lifetime from now and sends the event back
      to wait out the delay; anyone else's changes nothing. */
  lemma ReleaseIs(st: Store, id: Id, w: Worker, delay: Time, now: Time, x: Id)
    requires Inv(st)
    ensures
      var (st', released) := Release(st, id, w, delay, now);
      var c, c' := CellOf(st, x), CellOf(st', x);
      && (released <==> delay > 0 && CellOf(st, id).owner == Some(w))
      && (!released ==> st' == st)
      && c' == if released && x == id
               then Resumed(c, now).(owner := None, lease := None, delayedUntil := Some(now + delay), waiting := true)
               else c
  {
    assert Sound(st, id);
  }

  lemma ForgetIs(st: Store, id: Id, log: seq<Event>, x: Id)
    requires Inv(st)
    ensures
      var c, c' := CellOf(st, x), CellOf(Forget(st, id).(log := log), x);
      c' == if x == id then Emptied(c) else c
  {
    WithoutKeeps(st.pending, id);
  }

  /** The three calls that end one event: the owner's removal, the expiry of one unclaimed event, and
      deletion by anyone. Each ends that event alone. */
  lemma EndingsAre(st: Store, id: Id, w: Worker, x: Id)
    requires Inv(st)
    ensures
      var c, gone := CellOf(st, x), if x == id then Emptied(CellOf(st, x)) else CellOf(st, x);
      var (removed, didRemove) := Remove(st, id, w);
      var (expired, didExpire) := Expire(st, id);
      && (didRemove <==> CellOf(st, id).owner == Some(w))
      && CellOf(removed, x) == (if didRemove then gone else c)
      && (didExpire <==> CellOf(st, id).record.Some? && CellOf(st, id).owner.None?)
      && CellOf(expired, x) == (if didExpire then gone else c)
      && CellOf(Delete(st, id), x) == gone
  {
    ForgetIs(st, id, Remove(st, id, w).0.log, x);
    ForgetIs(st, id, Delete(st, id).log, x);
    if id !in st.claims {
      DeleteEventIs(st, id, Expired(id), x);
    }
  }

  /** An enqueue first stores the record with its lifetime running from queued_at, then pushes the id. */
  lemma EnqueueIs(st: Store, id: Id, e: Entry, x: Id)
    requires Inv(st) && id !in st.born
    ensures
      var stored := StoreEvent(st, id, e);
      var pushed := Push(stored, id);
      && CellOf(stored, x) == (if x == id
           then Cell(Some(e), None, None, None, Some(e.queuedAt + e.lifetime), None, false, true) else CellOf(st, x))
      && CellOf(pushed, x) == (if x == id
           then Cell(Some(e), None, None, None, Some(e.queuedAt + e.lifetime), None, true, false) else CellOf(st, x))
      && pushed.pending == st.pending + [id]
  {
    assert Sound(st, id);
  }

  // ---- Over runs ----

  /** The entry an enqueue first stored under `id`. */
  function FirstStored(ops: seq<Op>, id: Id): Option<Entry> {
    if ops == [] then None
    else
      var before, last := FirstStored(ops[..|ops| - 1], id), ops[|ops| - 1];
      if before.None? && last.OpStore? && last.id == id then Some(last.entry) else before
  }

  lemma RecordStep(st: Store, op: Op, id: Id)
    requires Inv(st)
    ensures
      var st' := Apply(st, op);
      && (id in st'.born <==> id in st.born || (op.OpStore? && op.id == id))
      && (id in st'.entries ==>
            || (id in st.entries && st'.entries[id] == st.entries[id])
            || (id !in st.born && op == OpStore(id, st'.entries[id])))
  {
    if !op.OpStore? && !op.OpPush? {
      hide Inv, Apply;
      StepNarrows(st, op, id);
    }
  }

  /** A record is never altered: what is stored under an id is what its enqueue stored. */
  lemma {:induction false} RecordIsAsStored(ops: seq<Op>, id: Id)
    ensures
      var st := Run(EMPTY, ops);
      && (id in st.born <==> FirstStored(ops, id).Some?)
      && (id in st.entries ==> FirstStored(ops, id) == Some(st.entries[id]))
    decreases |ops|
  {
    if ops != [] {
      var before, last := ops[..|ops| - 1], ops[|ops| - 1];
      RecordIsAsStored(before, id);
      Reachable(before);
      assert Sound(Run(EMPTY, before), id);
      assert ops == before + [last];
      RunSnoc(EMPTY, before, last);
      hide Inv, Sound, Run, Apply;
      RecordStep(Run(EMPTY, before), last, id);
    }
  }

  predicate Gone(st: Store, st': Store, id: Id) {
    id in st.entries && id !in st'.entries
  }

  lemma ClaimEnds(st: Store, w: Worker, lease: Option<Time>, expire: bool, now: Time, id: Id)
    requires Inv(st) && Gone(st, Claim(st, w, lease, expire, now).0, id)
    ensures Overdue(CellOf(Recover(st, now), id), now) && Claim(st, w, lease, expire, now).1 == TooLate(id)
  {
    var swept := Recover(st, now);
    RecoverIs(st, now, id);
    ClaimIsEmptyIff(st, w, lease, expire, now);
    ClaimTakesFirstAvailable(st, w, lease, expire, now);
    var i := EventFifo.Delayed(swept.availableAt, swept.pending, now);
    if i < |swept.pending| {
      RecoverKeeps(st, now);
      FirstAvailableAt(swept, swept.pending[i], now);
      PendingCell(swept, swept.pending[i]);
      ClaimIs(st, w, lease, expire, now, swept.pending[i], id);
    }
  }

  lemma DequeueEnds(st: Store, now: Time, id: Id)
    requires Inv(st) && Gone(st, Dequeue(st, now).0, id)
    ensures Dequeue(st, now).1 == Some(id) || Overdue(CellOf(Recover(st, now), id), now)
  {
    var swept := Recover(st, now);
    RecoverIs(st, now, id);
    RecoverKeeps(st, now);
    var n := DequeueIs(st, now, id);
    if Dequeue(st, now).1 != Some(id) {
      assert id in swept.pending[..n];
      PendingCell(swept, id);
    }
  }

  /** The event's time is up by its own account: queued_at + lifetime + all time spent in pausing claims. */
  predicate OutOfTime(st: Store, swept: Store, id: Id, now: Time) {
    && id in st.entries && Owner(swept.log, id) == None
    && st.entries[id].queuedAt + st.entries[id].lifetime + PausedTotal(swept.log, id) <= now
  }

  lemma EndsByTime(st: Store, op: Op, id: Id)
    requires Inv(st) && Gone(st, Apply(st, op), id) && (op.OpClaim? || op.OpDequeue? || op.OpExpireDue?)
    ensures
      || (op.OpDequeue? && Dequeue(st, op.now).1 == Some(id))
      || OutOfTime(st, if op.OpExpireDue? then st else Recover(st, op.now), id, op.now)
  {
    if op.OpClaim? {
      ClaimEnds(st, op.worker, op.lease, op.expire, op.now, id);
      OverdueIs(st, op.now, id);
    } else if op.OpDequeue? {
      DequeueEnds(st, op.now, id);
      if Dequeue(st, op.now).1 != Some(id) {
        OverdueIs(st, op.now, id);
      }
    } else {
      assert Sound(st, id);
      ExpireDueIs(st, op.now, id);
    }
  }

  lemma EndsByName(st: Store, op: Op, id: Id)
    requires Inv(st) && Gone(st, Apply(st, op), id) && !op.OpClaim? && !op.OpDequeue? && !op.OpExpireDue?
    ensures
      || (op.OpRemove? && op.id == id && Owner(st.log, id) == Some(op.worker))
      || (op.OpDelete? && op.id == id)
      || (op.OpExpire? && op.id == id && Owner(st.log, id) == None)
  {
    assert Sound(st, id);
    if op.OpRenew? {
      RecoverIs(st, op.now, id);
    }
  }

  /** In every reachable state: whatever step ends an event, it was handed to a direct reader, removed
      by its owner, deleted or expired by name, or unclaimed and out of time at that step's own clock
      reading. */
  lemma EndsOnlyForCause(ops: seq<Op>, op: Op, id: Id)
    requires Gone(Run(EMPTY, ops), Apply(Run(EMPTY, ops), op), id)
    ensures
      var st := Run(EMPTY, ops);
      || (op.OpDequeue? && Dequeue(st, op.now).1 == Some(id))
      || (op.OpRemove? && op.id == id && Owner(st.log, id) == Some(op.worker))
      || (op.OpDelete? && op.id == id)
      || (op.OpExpire? && op.id == id && Owner(st.log, id) == None)
      || ((op.OpClaim? || op.OpDequeue?) && OutOfTime(st, Recover(st, op.now), id, op.now))
      || (op.OpExpireDue? && OutOfTime(st, st, id, op.now))
  {
    hide *;
    Reachable(ops);
    if op.OpClaim? || op.OpDequeue? || op.OpExpireDue? {
      EndsByTime(Run(EMPTY, ops), op, id);
    } else {
      EndsByName(Run(EMPTY, ops), op, id);
    }
  }

  lemma OverdueIs(st: Store, now: Time, id: Id)
    requires Inv(st) && Overdue(CellOf(Recover(st, now), id), now)
    ensures OutOfTime(st, Recover(st, now), id, now)
  {
    RecoverKeeps(st, now);
    RecoverIs(st, now, id);
    assert Sound(Recover(st, now), id);
  }

  // ---- A released event waits out its delay ----

  /** `id` has ended, or is unclaimed and delayed until `t`. */
  predicate WaitsUntil(st: Store, id: Id, t: Time) {
    Ended(st, id) || (id in st.entries && CellOf(st, id).owner.None? && CellOf(st, id).delayedUntil == Some(t))
  }

  lemma StepWaits(st: Store, op: Op, id: Id, t: Time)
    requires Inv(st) && WaitsUntil(st, id, t) && (HasReading(op) ==> op.now < t)
    ensures WaitsUntil(Apply(st, op), id, t) && !Delivers(st, op, id)
  {
    assert Sound(st, id);
    if Ended(st, id) {
      EndedIsNotDelivered(st, op, id);
      if !op.OpStore? && !op.OpPush? {
        StepNarrows(st, op, id);
      }
    } else {
      DelayedStepWaits(st, op, id, t);
    }
  }

  lemma ClaimWaits(st: Store, w: Worker, lease: Option<Time>, expire: bool, now: Time, id: Id, t: Time)
    requires Inv(st) && id in st.entries && now < t
    requires CellOf(st, id).owner.None? && CellOf(st, id).lease.None? && CellOf(st, id).delayedUntil == Some(t)
    ensures CellOf(Claim(st, w, lease, expire, now).0, id) == CellOf(st, id)
    ensures Claim(st, w, lease, expire, now).1 != Got(id)
  {
    var swept := Recover(st, now);
    RecoverIs(st, now, id);
    ClaimIsEmptyIff(st, w, lease, expire, now);
    if lease.Some? ==> Budget(lease.value) {
      ClaimTakesFirstAvailable(st, w, lease, expire, now);
      var i := EventFifo.Delayed(swept.availableAt, swept.pending, now);
      if i < |swept.pending| {
        var head := swept.pending[i];
        FirstAvailableAt(swept, head, now);
        assert head != id;
        ClaimIs(st, w, lease, expire, now, head, id);
      }
    }
  }

  lemma DelayedStepWaits(st: Store, op: Op, id: Id, t: Time)
    requires Inv(st) && id in st.entries && CellOf(st, id).owner.None? && CellOf(st, id).delayedUntil == Some(t)
    requires HasReading(op) ==> op.now < t
    ensures WaitsUntil(Apply(st, op), id, t) && !Delivers(st, op, id)
  {
    assert Sound(st, id);
    assert id in st.born && CellOf(st, id).lease.None?;
    if op.OpClaim? {
      ClaimWaits(st, op.worker, op.lease, op.expire, op.now, id, t);
    } else if op.OpDequeue? {
      RecoverIs(st, op.now, id);
      var n := DequeueIs(st, op.now, id);
    } else if op.OpRenew? {
      RenewKeepsOwner(st, op.id, op.worker, op.duration, op.now, id);
    } else {
      OtherStepWaits(st, op, id, t);
    }
  }

  lemma OtherStepWaits(st: Store, op: Op, id: Id, t: Time)
    requires Inv(st) && id in st.entries && id in st.born
    requires CellOf(st, id).owner.None? && CellOf(st, id).delayedUntil == Some(t)
    requires !op.OpClaim? && !op.OpDequeue? && !op.OpRenew?
    ensures WaitsUntil(Apply(st, op), id, t)
  {
    match op
    case OpExpireDue(now) =>
      ExpireDueIs(st, now, id);
      StepNarrows(st, op, id);
    case OpRelease(x, w, d, now) => ReleaseIs(st, x, w, d, now, id);
    case OpRemove(x, w) => EndingsAre(st, x, w, id);
    case OpExpire(x) => EndingsAre(st, x, 0, id);
    case OpDelete(x) => EndingsAre(st, x, 0, id);
    case OpStore(x, e) =>
    case OpPush(x) =>
  }

  lemma RenewKeepsOwner(st: Store, id: Id, w: Worker, lease: Time, now: Time, x: Id)
    requires Inv(st) && CellOf(st, x).owner.None? && CellOf(st, x).lease.None?
    ensures CellOf(Renew(st, id, w, lease, now).0, x) == CellOf(st, x)
  {
    RecoverKeeps(st, now);
    RecoverIs(st, now, x);
    RenewIs(st, id, w, lease, now, x);
    assert Sound(Recover(st, now), x);
  }

  lemma {:induction false} WaitsThroughout(st: Store, ops: seq<Op>, id: Id, t: Time)
    requires Inv(st) && WaitsUntil(st, id, t) && forall op :: op in ops && HasReading(op) ==> op.now < t
    ensures !DeliveredDuring(st, ops, id)
    decreases |ops|
  {
    if ops != [] {
      assert ops[0] in ops;
      StepWaits(st, ops[0], id, t);
      ApplyKeeps(st, ops[0]);
      WaitsThroughout(Apply(st, ops[0]), ops[1..], id, t);
    }
  }

  /** A released event is not handed out by any step of any continuation whose clock readings precede
      the end of its delay. */
  lemma ReleasedWaits(ops: seq<Op>, id: Id, w: Worker, delay: Time, now: Time, more: seq<Op>)
    requires Release(Run(EMPTY, ops), id, w, delay, now).1
    requires forall op :: op in more && HasReading(op) ==> op.now < now + delay
    ensures !DeliveredDuring(Release(Run(EMPTY, ops), id, w, delay, now).0, more, id)
  {
    var st := Run(EMPTY, ops);
    Reachable(ops);
    assert Sound(st, id);
    ReleaseKeeps(st, id, w, delay, now);
    ReleaseIs(st, id, w, delay, now, id);
    WaitsThroughout(Release(st, id, w, delay, now).0, more, id, now + delay);
  }
}
