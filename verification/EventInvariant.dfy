/** What every event operation keeps, stated one id at a time and tied to the history. */
module EventInvariant {
  import opened Prelude
  import opened EventStore

  // ---- What the log says about one id ----

  function Tally(log: seq<Event>, id: Id, kind: Event -> bool): nat {
    if log == [] then 0
    else
      var last := log[|log| - 1];
      Tally(log[..|log| - 1], id, kind) + if last.id == id && kind(last) then 1 else 0
  }

  predicate IsConsumption(e: Event) { e.Removed? || e.Dequeued? }
  predicate IsExpiry(e: Event) { e.Expired? }
  predicate IsDeletion(e: Event) { e.Deleted? }
  predicate IsEnd(e: Event) { IsConsumption(e) || IsExpiry(e) || IsDeletion(e) }

  /** Who holds `id` according to the log alone. */
  function Owner(log: seq<Event>, id: Id): Option<Worker> {
    if log == [] then None
    else
      var last := log[|log| - 1];
      if last.id != id then Owner(log[..|log| - 1], id)
      else if last.Claimed? then Some(last.worker)
      else None
  }

  /** When the running pause of `id` began, if its last event is a pausing claim. */
  function PausedSince(log: seq<Event>, id: Id): Option<Time> {
    if log == [] then None
    else
      var last := log[|log| - 1];
      if last.id != id then PausedSince(log[..|log| - 1], id)
      else if last.Claimed? && last.paused then Some(last.at)
      else None
  }

  /** Total time `id` has spent in finished pausing claims. */
  function PausedTotal(log: seq<Event>, id: Id): Time {
    if log == [] then 0
    else
      var last := log[|log| - 1];
      var before := log[..|log| - 1];
      PausedTotal(before, id) +
      if last.id == id && (last.Released? || last.Recovered?) && PausedSince(before, id).Some?
      then last.at - PausedSince(before, id).value
      else 0
  }

  /** An event the protocol allows after `before`: the id is not finished, only the owner
      settles, and nobody claims, consumes or expires what another worker holds. */
  predicate Allowed(before: seq<Event>, e: Event) {
    && Tally(before, e.id, IsEnd) == 0
    && match e
       case Claimed(id, _, _, _) => Owner(before, id) == None
       case Released(id, w, _) => Owner(before, id) == Some(w)
       case Recovered(id, _) => Owner(before, id).Some?
       case Removed(id, w) => Owner(before, id) == Some(w)
       case Dequeued(id) => Owner(before, id) == None
       case Expired(id) => Owner(before, id) == None
       case Deleted(id) => true
  }

  predicate Lawful(log: seq<Event>) {
    log == [] || (Lawful(log[..|log| - 1]) && Allowed(log[..|log| - 1], log[|log| - 1]))
  }

  // ---- The invariant ----

  /** Where one id sits: at most one of pending, claimed, unpushed; live ids in exactly one. */
  ghost predicate Placed(st: Store, id: Id) {
    && !(id in st.pending && id in st.claims)
    && !(id in st.unpushed && (id in st.pending || id in st.claims))
    && (id in st.entries ==> id in st.pending || id in st.claims || id in st.unpushed)
    && (id in st.claims ==> id in st.entries)
    && (id in st.leases.vals ==> id in st.claims)
    && (id in st.availableAt ==> id in st.pending && id in st.entries)
    && (id in st.entries || id in st.pending || id in st.unpushed ==> id in st.born)
  }

  /** One id's lifetime clock: running in `deadlines` or paused in `remaining`, never both. */
  ghost predicate Timed(st: Store, id: Id) {
    && (id in st.deadlines.vals ==> id in st.entries)
    && (id in st.remaining ==> id in st.claims)
    && (id in st.entries ==> ((id in st.deadlines.vals) <==> !(id in st.remaining)))
    && (PausedSince(st.log, id).Some? <==> id in st.remaining)
    && (id in st.deadlines.vals ==>
          st.deadlines.vals[id] ==
          st.entries[id].queuedAt + st.entries[id].lifetime + PausedTotal(st.log, id))
    && (id in st.remaining && id in st.entries ==>
          && st.remaining[id] > 0
          && st.remaining[id] ==
             st.entries[id].queuedAt + st.entries[id].lifetime + PausedTotal(st.log, id)
             - PausedSince(st.log, id).value)
    && (id !in st.born ==> PausedTotal(st.log, id) == 0)
  }

  /** One id's fate and owner agree with the log. */
  ghost predicate Recorded(st: Store, id: Id) {
    && Tally(st.log, id, IsEnd) == (if id in st.born && id !in st.entries then 1 else 0)
    && Owner(st.log, id) == (if id in st.claims then Some(st.claims[id]) else None)
  }

  ghost predicate Sound(st: Store, id: Id) {
    Placed(st, id) && Timed(st, id) && Recorded(st, id)
  }

  ghost predicate Inv(st: Store) {
    && st.leases.Valid()
    && st.deadlines.Valid()
    && Distinct(st.pending)
    && Lawful(st.log)
    && forall id :: Sound(st, id)
  }

  lemma LogStep(log: seq<Event>, e: Event, id: Id)
    ensures Tally(log + [e], id, IsEnd) == Tally(log, id, IsEnd) + if e.id == id && IsEnd(e) then 1 else 0
    ensures e.id != id ==> Owner(log + [e], id) == Owner(log, id)
    ensures e.id == id ==> Owner(log + [e], id) == if e.Claimed? then Some(e.worker) else None
    ensures e.id != id ==> PausedSince(log + [e], id) == PausedSince(log, id)
    ensures e.id == id ==> PausedSince(log + [e], id) == if e.Claimed? && e.paused then Some(e.at) else None
    ensures PausedTotal(log + [e], id) == PausedTotal(log, id) +
              if e.id == id && (e.Released? || e.Recovered?) && PausedSince(log, id).Some?
              then e.at - PausedSince(log, id).value else 0
    ensures Lawful(log) && Allowed(log, e) ==> Lawful(log + [e])
  {
    assert (log + [e])[..|log|] == log;
  }

  lemma EmptyHolds()
    ensures Inv(EMPTY)
  {
    forall id ensures Sound(EMPTY, id) {
    }
  }

  // ---- One lemma per effect ----

  lemma StoreEventKeeps(st: Store, id: Id, e: Entry)
    requires Inv(st) && id !in st.born
    ensures Inv(StoreEvent(st, id, e))
  {
    var st' := StoreEvent(st, id, e);
    assert Sound(st, id);
    PutKeeps(st.deadlines, id, e.queuedAt + e.lifetime);
    forall x ensures Sound(st', x) {
      assert Sound(st, x);
    }
  }

  lemma PushKeeps(st: Store, id: Id)
    requires Inv(st) && id in st.unpushed
    ensures Inv(Push(st, id))
  {
    var st' := Push(st, id);
    assert Sound(st, id);
    forall x ensures Sound(st', x) {
      assert Sound(st, x);
    }
  }

  /** Reordering pending touches nothing else. */
  lemma ReorderKeeps(st: Store, pending: seq<Id>)
    requires Inv(st)
    requires Distinct(pending) && forall x :: x in pending <==> x in st.pending
    ensures Inv(st.(pending := pending))
  {
    forall x ensures Sound(st.(pending := pending), x) {
      assert Sound(st, x);
    }
  }

  lemma RotateKeeps(st: Store)
    requires Inv(st) && st.pending != []
    ensures Inv(Requeue(st.(pending := st.pending[1..]), st.pending[0]))
  {
    assert st.pending == [st.pending[0]] + st.pending[1..];
    ReorderKeeps(st, st.pending[1..] + [st.pending[0]]);
  }

  lemma RecoverOneAt(st: Store, id: Id, now: Time, x: Id)
    requires Sound(st, id) && Sound(st, x) && id in st.leases.vals
    ensures Sound(RecoverOne(st, id, now), x)
  {
    LogStep(st.log, Recovered(id, now), x);
  }

  lemma RecoverOneKeeps(st: Store, id: Id, now: Time)
    requires Inv(st) && id in st.leases.vals
    ensures Inv(RecoverOne(st, id, now))
    ensures RecoverOne(st, id, now).leases.vals == st.leases.vals - {id}
  {
    assert Sound(st, id);
    PopKeeps(st.leases, id);
    if id in st.remaining {
      PutKeeps(st.deadlines, id, now + st.remaining[id]);
    }
    LogStep(st.log, Recovered(id, now), id);
    forall x ensures Sound(RecoverOne(st, id, now), x) {
      assert Sound(st, x);
      RecoverOneAt(st, id, now, x);
    }
  }

  lemma {:induction false} RecoverAllKeeps(st: Store, ids: seq<Id>, now: Time)
    requires Inv(st) && Distinct(ids) && forall x :: x in ids ==> x in st.leases.vals
    ensures Inv(RecoverAll(st, ids, now))
    decreases |ids|
  {
    if ids != [] {
      RecoverOneKeeps(st, ids[0], now);
      assert ids == [ids[0]] + ids[1..];
      RecoverAllKeeps(RecoverOne(st, ids[0], now), ids[1..], now);
    }
  }

  lemma RecoverKeeps(st: Store, now: Time)
    requires Inv(st)
    ensures Inv(Recover(st, now))
  {
    DueKeysAre(st.leases.order, st.leases.vals, now);
    RecoverAllKeeps(st, DueKeys(st.leases.order, st.leases.vals, now), now);
  }

  /** Deleting an unclaimed id, wherever it sits in pending. */
  lemma DeleteEventKeeps(st: Store, id: Id, why: Event)
    requires Inv(st) && id !in st.claims
    requires why == Expired(id) || why == Dequeued(id)
    ensures Inv(DeleteEvent(st, id, why))
  {
    var st' := DeleteEvent(st, id, why);
    assert Sound(st, id);
    PopKeeps(st.deadlines, id);
    WithoutKeeps(st.pending, id);
    LogStep(st.log, why, id);
    forall x ensures Sound(st', x) {
      assert Sound(st, x);
      LogStep(st.log, why, x);
    }
  }

  /** Popping the head and then deleting it is deleting it. */
  lemma DeletePopped(st: Store, why: Event)
    requires Distinct(st.pending) && st.pending != []
    ensures DeleteEvent(st.(pending := st.pending[1..]), st.pending[0], why) == DeleteEvent(st, st.pending[0], why)
  {
    WithoutAbsent(st.pending[1..], st.pending[0]);
  }

  /** An expired head leaves every store. */
  lemma TooLateKeeps(st: Store, now: Time)
    requires Inv(st) && st.pending != [] && st.pending[0] in st.entries
    ensures
      var id := st.pending[0];
      Inv(st.(pending := st.pending[1..], entries := st.entries - {id}, availableAt := st.availableAt - {id},
              deadlines := Pop(st.deadlines, id), log := st.log + [Expired(id)]))
  {
    var id := st.pending[0];
    assert Sound(st, id);
    WithoutKeeps(st.pending, id);
    DeleteEventKeeps(st, id, Expired(id));
    assert st.remaining - {id} == st.remaining;
  }

  /** A head that passes every check is paused (when asked), claimed and leased. */
  lemma TakeKeepsOne(st: Store, id: Id, rest: seq<Id>, w: Worker, lease: Option<Time>, expire: bool, now: Time, x: Id)
    requires Sound(st, id) && Sound(st, x)
    requires id in st.entries && id !in rest && id in st.pending
    requires x != id ==> (x in rest <==> x in st.pending)
    requires expire ==> Deliverable(st, id, now)
    ensures
      var popped := st.(pending := rest);
      Sound(Grant(if expire then Pause(popped, id, now) else popped, id, w, lease, now, expire), x)
  {
    LogStep(st.log, Claimed(id, w, now, expire), x);
  }

  lemma TakeKeeps(st: Store, w: Worker, lease: Option<Time>, expire: bool, now: Time)
    requires Inv(st) && st.pending != [] && st.pending[0] in st.entries
    requires expire ==> Deliverable(st, st.pending[0], now)
    ensures
      var id := st.pending[0];
      var popped := st.(pending := st.pending[1..]);
      Inv(Grant(if expire then Pause(popped, id, now) else popped, id, w, lease, now, expire))
  {
    var id, rest := st.pending[0], st.pending[1..];
    DistinctTail(st.pending);
    PopKeeps(st.deadlines, id);
    PutKeeps(st.leases, id, if lease.Some? then now + lease.value else now);
    assert Lawful(st.log + [Claimed(id, w, now, expire)]) by {
      assert Sound(st, id);
      LogStep(st.log, Claimed(id, w, now, expire), id);
    }
    hide Sound, Distinct, Lawful;
    var popped := st.(pending := rest);
    var st' := Grant(if expire then Pause(popped, id, now) else popped, id, w, lease, now, expire);
    forall x ensures Sound(st', x) {
      assert Sound(st, id) && Sound(st, x);
      TakeKeepsOne(st, id, rest, w, lease, expire, now, x);
    }
  }

  lemma ClaimHeadKeeps(st: Store, w: Worker, lease: Option<Time>, expire: bool, now: Time)
    requires Inv(st) && st.pending != []
    ensures
      var (st', r) := ClaimHead(st.(pending := st.pending[1..]), st.pending[0], w, lease, expire, now);
      && Inv(st')
      && (r.Got? || r.NotFound? || r.TooLate?)
  {
    var id := st.pending[0];
    assert Sound(st, id);
    if id !in st.entries {
      DeletePopped(st, Expired(id));
      DeleteEventKeeps(st, id, Expired(id));
      assert st.entries - {id} == st.entries && st.availableAt - {id} == st.availableAt;
      assert st.remaining - {id} == st.remaining && st.deadlines.vals - {id} == st.deadlines.vals;
      WithoutAbsent(st.deadlines.order, id);
    } else if expire && st.deadlines.vals[id] <= now {
      TooLateKeeps(st, now);
    } else {
      TakeKeeps(st, w, lease, expire, now);
    }
  }

  lemma {:induction false} ClaimScanKeeps(st: Store, w: Worker, lease: Option<Time>, expire: bool, now: Time, n: nat)
    requires Inv(st)
    ensures
      var (st', r) := ClaimScan(st, w, lease, expire, now, n);
      Inv(st') && !r.Conflict? && !r.NoDeadline?
    decreases n
  {
    if n != 0 && st.pending != [] {
      var id := st.pending[0];
      if Available(st.availableAt, id, now) {
        ClaimHeadKeeps(st, w, lease, expire, now);
      } else {
        RotateKeeps(st);
        ClaimScanKeeps(Requeue(st.(pending := st.pending[1..]), id), w, lease, expire, now, n - 1);
      }
    }
  }

  /** The conflict and missing-deadline branches of `_aclaim` are never taken. */
  lemma ClaimKeeps(st: Store, w: Worker, lease: Option<Time>, expire: bool, now: Time)
    requires Inv(st)
    ensures Inv(Claim(st, w, lease, expire, now).0)
    ensures !Claim(st, w, lease, expire, now).1.Conflict?
    ensures !Claim(st, w, lease, expire, now).1.NoDeadline?
  {
    RecoverKeeps(st, now);
    var swept := Recover(st, now);
    ClaimScanKeeps(swept, w, lease, expire, now, |swept.pending|);
  }

  lemma PassOverKeeps(st: Store, now: Time)
    requires Inv(st) && st.pending != []
    ensures Inv(PassOver(st, now))
  {
    var id := st.pending[0];
    if !Available(st.availableAt, id, now) || id in st.claims {
      RotateKeeps(st);
    } else {
      DeletePopped(st, Expired(id));
      DeleteEventKeeps(st, id, Expired(id));
    }
  }

  lemma {:induction false} DequeueScanKeeps(st: Store, now: Time, n: nat)
    requires Inv(st)
    ensures Inv(DequeueScan(st, now, n).0)
    decreases n
  {
    if n != 0 && st.pending != [] {
      var id := st.pending[0];
      if Skips(st, id, now) {
        PassOverKeeps(st, now);
        DequeueScanKeeps(PassOver(st, now), now, n - 1);
      } else {
        DeletePopped(st, Dequeued(id));
        DeleteEventKeeps(st, id, Dequeued(id));
      }
    }
  }

  lemma DequeueKeeps(st: Store, now: Time)
    requires Inv(st)
    ensures Inv(Dequeue(st, now).0)
  {
    RecoverKeeps(st, now);
    var swept := Recover(st, now);
    DequeueScanKeeps(swept, now, |swept.pending|);
  }

  lemma RenewKeeps(st: Store, id: Id, w: Worker, lease: Time, now: Time)
    requires Inv(st)
    ensures Inv(Renew(st, id, w, lease, now).0)
  {
    RecoverKeeps(st, now);
    var swept := Recover(st, now);
    if Budget(lease) && Owns(swept, id, w) {
      var st' := Renew(st, id, w, lease, now).0;
      PutKeeps(swept.leases, id, now + lease);
      forall x ensures Sound(st', x) {
        assert Sound(swept, x);
      }
    }
  }

  lemma ReleaseKeepsOne(st: Store, id: Id, w: Worker, delay: Time, now: Time, x: Id)
    requires Inv(st) && Owns(st, id, w)
    ensures Sound(Release(st, id, w, delay, now).0, x)
  {
    assert Sound(st, x) && Sound(st, id);
    LogStep(st.log, Released(id, w, now), x);
  }

  lemma ReleaseLawful(st: Store, id: Id, w: Worker, now: Time)
    requires Inv(st) && Owns(st, id, w)
    ensures Lawful(st.log + [Released(id, w, now)]) && Distinct(st.pending + [id])
  {
    assert Sound(st, id);
    LogStep(st.log, Released(id, w, now), id);
  }

  lemma ReleaseKeeps(st: Store, id: Id, w: Worker, delay: Time, now: Time)
    requires Inv(st)
    ensures Inv(Release(st, id, w, delay, now).0)
  {
    if Budget(delay) && Owns(st, id, w) {
      hide Sound, Distinct, Tally, Owner, PausedSince, PausedTotal;
      var st' := Release(st, id, w, delay, now).0;
      PopKeeps(st.leases, id);
      if id in st.remaining {
        PutKeeps(st.deadlines, id, now + st.remaining[id]);
      }
      ReleaseLawful(st, id, w, now);
      forall x ensures Sound(st', x) {
        ReleaseKeepsOne(st, id, w, delay, now, x);
      }
    }
  }

  lemma ForgetKeeps(st: Store, id: Id, why: Event)
    requires Inv(st) && id in st.entries
    requires why == Deleted(id) || (why.Removed? && why.id == id && Owns(st, id, why.worker))
    ensures Inv(Forget(st, id).(log := st.log + [why]))
  {
    var st' := Forget(st, id).(log := st.log + [why]);
    assert Sound(st, id);
    PopKeeps(st.leases, id);
    PopKeeps(st.deadlines, id);
    WithoutKeeps(st.pending, id);
    LogStep(st.log, why, id);
    forall x ensures Sound(st', x) {
      assert Sound(st, x);
      LogStep(st.log, why, x);
    }
  }

  lemma RemoveKeeps(st: Store, id: Id, w: Worker)
    requires Inv(st)
    ensures Inv(Remove(st, id, w).0)
  {
    assert Sound(st, id);
    if Owns(st, id, w) {
      ForgetKeeps(st, id, Removed(id, w));
    }
  }

  lemma DeleteKeeps(st: Store, id: Id)
    requires Inv(st)
    ensures Inv(Delete(st, id))
  {
    var st' := Delete(st, id);
    assert Sound(st, id);
    if id in st.entries {
      ForgetKeeps(st, id, Deleted(id));
    } else {
      PopKeeps(st.leases, id);
      PopKeeps(st.deadlines, id);
      WithoutKeeps(st.pending, id);
      forall x ensures Sound(st', x) {
        assert Sound(st, x);
      }
    }
  }

  lemma {:induction false} DeleteAllKeeps(st: Store, ids: seq<Id>)
    requires Inv(st) && forall x :: x in ids ==> x !in st.claims
    ensures Inv(DeleteAll(st, ids))
    decreases |ids|
  {
    if ids != [] {
      DeleteEventKeeps(st, ids[0], Expired(ids[0]));
      DeleteAllKeeps(DeleteEvent(st, ids[0], Expired(ids[0])), ids[1..]);
    }
  }

  lemma {:induction false} UnclaimedAre(ids: seq<Id>, claims: map<Id, Worker>)
    ensures forall x :: x in Unclaimed(ids, claims) <==> x in ids && x !in claims
  {
    if ids != [] {
      UnclaimedAre(ids[1..], claims);
      assert ids == [ids[0]] + ids[1..];
    }
  }

  lemma ExpireDueKeeps(st: Store, now: Time)
    requires Inv(st)
    ensures Inv(ExpireDue(st, now))
  {
    UnclaimedAre(DueKeys(st.deadlines.order, st.deadlines.vals, now), st.claims);
    DeleteAllKeeps(st, ExpiredIds(st, now));
  }
}
