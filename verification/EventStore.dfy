/**
 Event operations of the in-memory provider, one function per lock-protected block.

 Each function takes the clock reading its caller made and returns the new store.
 Three fields are history the running program does not keep: `born` (ids ever stored),
 `unpushed` (ids stored by an enqueue whose push has not happened yet) and `log`.
 */
module EventStore {
  import opened Prelude

  type Worker = nat

  datatype Entry = Entry(queuedAt: Time, lifetime: Time)

  datatype Event =
    | Claimed(id: Id, worker: Worker, at: Time, paused: bool)
    | Released(id: Id, worker: Worker, at: Time)
    | Recovered(id: Id, at: Time)
    | Removed(id: Id, worker: Worker)
    | Dequeued(id: Id)
    | Expired(id: Id)
    | Deleted(id: Id)

  datatype Store = Store(
    entries: map<Id, Entry>,
    pending: seq<Id>,
    claims: map<Id, Worker>,
    leases: Dict,               // _claim_deadlines
    availableAt: map<Id, Time>,
    deadlines: Dict,            // _unclaimed_deadlines
    remaining: map<Id, Time>,   // _unclaimed_remaining
    born: set<Id>,
    unpushed: set<Id>,
    log: seq<Event>)

  const EMPTY := Store(map[], [], map[], EMPTY_DICT, map[], EMPTY_DICT, map[], {}, {}, [])

  /** `validate_budget`: a lease or delay must be a positive duration. */
  predicate Budget(d: Time) { d > 0 }

  predicate Owns(st: Store, id: Id, w: Worker) {
    id in st.claims && st.claims[id] == w
  }

  predicate Available(availableAt: map<Id, Time>, id: Id, now: Time) {
    id in availableAt ==> availableAt[id] <= now
  }

  function StoreEvent(st: Store, id: Id, e: Entry): Store {
    st.(entries := st.entries[id := e],
        deadlines := Put(st.deadlines, id, e.queuedAt + e.lifetime),
        born := st.born + {id},
        unpushed := st.unpushed + {id})
  }

  function Push(st: Store, id: Id): Store {
    st.(pending := st.pending + [id], unpushed := st.unpushed - {id})
  }

  function Requeue(st: Store, id: Id): Store {
    st.(pending := st.pending + [id])
  }

  /** Give back the time left on a paused event's clock, starting at `now`. */
  function Resume(st: Store, id: Id, now: Time): Store {
    if id in st.remaining then
      st.(deadlines := Put(st.deadlines, id, now + st.remaining[id]),
          remaining := st.remaining - {id})
    else st
  }

  function RecoverOne(st: Store, id: Id, now: Time): Store {
    var freed := st.(claims := st.claims - {id}, leases := Pop(st.leases, id),
                     log := st.log + [Recovered(id, now)]);
    if id in st.entries then Requeue(Resume(freed, id, now), id) else freed
  }

  function RecoverAll(st: Store, ids: seq<Id>, now: Time): Store
    decreases |ids|
  {
    if ids == [] then st else RecoverAll(RecoverOne(st, ids[0], now), ids[1..], now)
  }

  /** `_recover_expired_claims`. */
  function Recover(st: Store, now: Time): Store {
    RecoverAll(st, DueKeys(st.leases.order, st.leases.vals, now), now)
  }

  datatype ClaimResult =
    | Got(id: Id)
    | Nothing
    | Conflict(id: Id)
    | NotFound(id: Id)
    | TooLate(id: Id)
    | NoDeadline(id: Id)
    | BadBudget

  /** Stop an event's lifetime clock, keeping what is left of it. */
  function Pause(st: Store, id: Id, now: Time): Store
    requires id in st.deadlines.vals
  {
    st.(deadlines := Pop(st.deadlines, id),
        remaining := st.remaining[id := st.deadlines.vals[id] - now])
  }

  function Grant(st: Store, id: Id, w: Worker, lease: Option<Time>, now: Time, paused: bool): Store {
    st.(availableAt := st.availableAt - {id},
        claims := st.claims[id := w],
        leases := if lease.Some? then Put(st.leases, id, now + lease.value) else st.leases,
        log := st.log + [Claimed(id, w, now, paused)])
  }

  /** What `_aclaim` does with an available id it has just popped from pending. */
  function ClaimHead(st: Store, id: Id, w: Worker, lease: Option<Time>, expire: bool, now: Time)
    : (Store, ClaimResult)
  {
    if id in st.claims then (Requeue(st, id), Conflict(id))
    else if id !in st.entries then (st, NotFound(id))
    else if expire && id in st.deadlines.vals && st.deadlines.vals[id] <= now then
      (st.(entries := st.entries - {id}, availableAt := st.availableAt - {id},
           deadlines := Pop(st.deadlines, id), log := st.log + [Expired(id)]),
       TooLate(id))
    else if expire && id !in st.deadlines.vals then (st, NoDeadline(id))
    else (Grant(if expire then Pause(st, id, now) else st, id, w, lease, now, expire), Got(id))
  }

  /** The claim loop: rotate past ids whose delay has not elapsed, then take one. */
  function ClaimScan(st: Store, w: Worker, lease: Option<Time>, expire: bool, now: Time, n: nat)
    : (Store, ClaimResult)
    decreases n
  {
    if n == 0 || st.pending == [] then (st, Nothing)
    else
      var id := st.pending[0];
      var popped := st.(pending := st.pending[1..]);
      if !Available(st.availableAt, id, now) then ClaimScan(Requeue(popped, id), w, lease, expire, now, n - 1)
      else ClaimHead(popped, id, w, lease, expire, now)
  }

  /** `aclaim` (expire false) and `aclaim_unexpired` (expire true). */
  function Claim(st: Store, w: Worker, lease: Option<Time>, expire: bool, now: Time)
    : (Store, ClaimResult)
  {
    if lease.Some? && !Budget(lease.value) then (st, BadBudget)
    else
      var swept := Recover(st, now);
      ClaimScan(swept, w, lease, expire, now, |swept.pending|)
  }

  /** `_delete_event`, logging why when a stored event really goes. */
  function DeleteEvent(st: Store, id: Id, why: Event): Store {
    st.(entries := st.entries - {id}, availableAt := st.availableAt - {id},
        deadlines := Pop(st.deadlines, id), remaining := st.remaining - {id},
        pending := Without(st.pending, id),
        log := if id in st.entries then st.log + [why] else st.log)
  }

  predicate Deliverable(st: Store, id: Id, now: Time) {
    id in st.entries && id in st.deadlines.vals && now < st.deadlines.vals[id]
  }

  /** Why `adequeue` does not return `id`: still delayed, claimed, missing or out of time. */
  predicate Skips(st: Store, id: Id, now: Time) {
    !Available(st.availableAt, id, now) || id in st.claims || !Deliverable(st, id, now)
  }

  /** The head goes to the back while delayed or claimed, and is deleted otherwise. */
  function PassOver(st: Store, now: Time): Store
    requires st.pending != []
  {
    var id := st.pending[0];
    var popped := st.(pending := st.pending[1..]);
    if !Available(st.availableAt, id, now) || id in st.claims then Requeue(popped, id)
    else DeleteEvent(popped, id, Expired(id))
  }

  function DequeueScan(st: Store, now: Time, n: nat): (Store, Option<Id>)
    decreases n
  {
    if n == 0 || st.pending == [] then (st, None)
    else
      var id := st.pending[0];
      if Skips(st, id, now) then DequeueScan(PassOver(st, now), now, n - 1)
      else (DeleteEvent(st.(pending := st.pending[1..]), id, Dequeued(id)), Some(id))
  }

  /** `adequeue`: consume the next unclaimed live event without a claim. */
  function Dequeue(st: Store, now: Time): (Store, Option<Id>) {
    var swept := Recover(st, now);
    DequeueScan(swept, now, |swept.pending|)
  }

  /** `arenew`: the flag is the code's return value; a bad lease raises first. */
  function Renew(st: Store, id: Id, w: Worker, lease: Time, now: Time): (Store, bool) {
    if !Budget(lease) then (st, false)
    else
      var swept := Recover(st, now);
      if !Owns(swept, id, w) then (swept, false)
      else (swept.(leases := Put(swept.leases, id, now + lease)), true)
  }

  /** `arelease`. */
  function Release(st: Store, id: Id, w: Worker, delay: Time, now: Time): (Store, bool) {
    if !Budget(delay) || !Owns(st, id, w) then (st, false)
    else
      var freed := st.(claims := st.claims - {id}, leases := Pop(st.leases, id),
                       log := st.log + [Released(id, w, now)]);
      var resumed := Resume(freed, id, now);
      (Requeue(resumed.(availableAt := resumed.availableAt[id := now + delay]), id), true)
  }

  /** Every store forgets `id`; shared by `aremove` and `adelete`. */
  function Forget(st: Store, id: Id): Store {
    st.(entries := st.entries - {id}, claims := st.claims - {id}, leases := Pop(st.leases, id),
        availableAt := st.availableAt - {id}, deadlines := Pop(st.deadlines, id),
        remaining := st.remaining - {id}, pending := Without(st.pending, id))
  }

  /** `aremove`: settle a claimed event as consumed. */
  function Remove(st: Store, id: Id, w: Worker): (Store, bool) {
    if !Owns(st, id, w) then (st, false)
    else (Forget(st, id).(log := st.log + [Removed(id, w)]), true)
  }

  /** `adelete`, as used by `EventQueue.aclear`. */
  function Delete(st: Store, id: Id): Store {
    Forget(st, id).(log := if id in st.entries then st.log + [Deleted(id)] else st.log)
  }

  /** `aexpire`: only an unclaimed event goes. */
  function Expire(st: Store, id: Id): (Store, bool) {
    if id in st.claims || id !in st.entries then (st, false) else (DeleteEvent(st, id, Expired(id)), true)
  }

  function DeleteAll(st: Store, ids: seq<Id>): Store
    decreases |ids|
  {
    if ids == [] then st else DeleteAll(DeleteEvent(st, ids[0], Expired(ids[0])), ids[1..])
  }

  function Unclaimed(ids: seq<Id>, claims: map<Id, Worker>): seq<Id> {
    if ids == [] then []
    else (if ids[0] in claims then [] else [ids[0]]) + Unclaimed(ids[1..], claims)
  }

  /** The ids `aexpire_due` returns, in order. */
  function ExpiredIds(st: Store, now: Time): seq<Id> {
    Unclaimed(DueKeys(st.deadlines.order, st.deadlines.vals, now), st.claims)
  }

  /** `aexpire_due`. */
  function ExpireDue(st: Store, now: Time): Store {
    DeleteAll(st, ExpiredIds(st, now))
  }
}
