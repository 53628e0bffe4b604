/**
 The tracked path of the in-memory async queues: enqueue, scheduled promotion, dequeue, lifecycle
 transitions and pruning, for the plain FIFO queue and its priority variant.

 One queue instance is used from one thread, and its clock may suspend the calling coroutine, as a
 Redis clock does. Every call reads the clock before it touches the stores and runs to its end after
 that, so it is one step with the reading as a parameter. The exception is an enqueue with
 `available_at`: it reads the clock again between storing and placing, and is two steps. The fields
 from `born` on are history.
 */
module AsyncStore {
  import opened Prelude
  import opened Scheduling
  import PriorityStore

  /** `QueueEntryStatus.next_state`. */
  function NextStates(s: Status): set<Status> {
    match s
    case Queued => {Running, Failed}
    case Running => {Queued, Succeeded, Failed, Cancelled, TimedOut}
    case Succeeded => {Terminated}
    case Failed => {Terminated}
    case Cancelled => {Terminated}
    case TimedOut => {Terminated}
    case Terminated => {}
  }

  predicate IsTerminal(s: Status) { Terminated in NextStates(s) }

  type Schedule = d: Dict | d.Valid() witness EMPTY_DICT

  /** An enqueue suspended between storing its entry and placing it. */
  datatype Awaiting = Awaiting(priority: int, availableAt: Time)

  datatype Store = Store(
    byPriority: bool,
    entries: map<Id, Entry>,
    pending: seq<Id>,
    scheduled: Schedule,
    heap: PriorityStore.Store,
    born: set<Id>,
    unplaced: map<Id, Awaiting>,     // stored, not yet pushed or scheduled
    taken: seq<Id>,                  // returned by dequeue, in order
    asked: map<Id, Time>,            // the available_at of every placed entry that has one
    latest: Time,                    // latest clock reading made by placing or promoting
    failedEarly: set<Id>,            // failed while still unplaced
    histories: map<Id, seq<Status>>) // statuses stored, in order

  function Empty(byPriority: bool): Store {
    Store(byPriority, map[], [], EMPTY_DICT, PriorityStore.Store([], 0), {}, map[], [], map[], 0, {}, map[])
  }

  function Max(a: Time, b: Time): Time { if a < b then b else a }

  /** The `astore` of a new entry. */
  function NewRecord(st: Store, id: Id, queuedAt: Time, priority: int): Store {
    st.(entries := st.entries[id := Entry(Queued, queuedAt, None, None, priority)],
        born := st.born + {id}, histories := st.histories[id := [Queued]])
  }

  /** `aenqueue` with `available_at`, up to its second clock reading. */
  function StoreEntry(st: Store, id: Id, queuedAt: Time, priority: int, availableAt: Time): Store {
    NewRecord(st, id, queuedAt, priority).(unplaced := st.unplaced[id := Awaiting(priority, availableAt)])
  }

  /** `_apush`: FIFO or priority pending store. */
  function PushReady(st: Store, id: Id, priority: int): Store {
    if st.byPriority then st.(heap := PriorityStore.Push(st.heap, id, priority))
    else st.(pending := st.pending + [id])
  }

  /** `aenqueue` without `available_at`: stored and pushed in one go. */
  function Enqueue(st: Store, id: Id, queuedAt: Time, priority: int): Store {
    PushReady(NewRecord(st, id, queuedAt, priority), id, priority)
  }

  /** The rest of an enqueue with `available_at`: schedule an entry whose time has not come, push any
      other. */
  function Place(st: Store, id: Id, now: Time): Store
    requires id in st.unplaced
  {
    var Awaiting(priority, availableAt) := st.unplaced[id];
    var placed := st.(unplaced := st.unplaced - {id}, latest := Max(st.latest, now),
                      asked := st.asked[id := availableAt]);
    if availableAt > now then
      PutKeeps(st.scheduled, id, availableAt);
      placed.(scheduled := Put(st.scheduled, id, availableAt))
    else PushReady(placed, id, priority)
  }

  /** `apromote_scheduled` / `apromote_scheduled_priority`: release at most one due entry. */
  function Promote(st: Store, now: Time): Store {
    var (d, r) := PopNextDue(st.entries, st.scheduled, now, st.byPriority);
    var rest := st.(scheduled := d, latest := Max(st.latest, now));
    if r.Some? && r.value in st.entries then PushReady(rest, r.value, st.entries[r.value].priority) else rest
  }

  /** `apop` / `apop_priority`; an id without a record raises after it was popped. */
  function PopReady(st: Store): (Store, Option<Id>) {
    if st.byPriority then
      if st.heap.items == [] then (st, None)
      else
        var id := PriorityStore.Least(st.heap.items).id;
        Took(st.(heap := PriorityStore.Pop(st.heap)), id)
    else if st.pending == [] then (st, None)
    else Took(st.(pending := st.pending[1..]), st.pending[0])
  }

  function Took(st: Store, id: Id): (Store, Option<Id>) {
    if id in st.entries then (st.(taken := st.taken + [id]), Some(id)) else (st, None)
  }

  /** `adequeue`. */
  function Dequeue(st: Store, now: Time): (Store, Option<Id>) {
    PopReady(Promote(st, now))
  }

  /** `_adiscard`: leave the ready store and the schedule. */
  function Discard(st: Store, id: Id): Store {
    PopKeeps(st.scheduled, id);
    if st.byPriority then
      st.(heap := PriorityStore.Discard(st.heap, id), scheduled := Pop(st.scheduled, id))
    else st.(pending := Without(st.pending, id), scheduled := Pop(st.scheduled, id))
  }

  /** The record the `_amark_*` methods write. */
  function Marked(e: Entry, status: Status, now: Time): Entry {
    if status == Running then e.(status := status, dispatchedAt := Some(now))
    else e.(status := status, finishedAt := Some(now))
  }

  function Rewrite(st: Store, id: Id, status: Status, now: Time): Store
    requires id in st.entries
  {
    st.(entries := st.entries[id := Marked(st.entries[id], status, now)],
        histories := st.histories[id := (if id in st.histories then st.histories[id] else []) + [status]])
  }

  /** `_areplace_entry`: false when the record is missing or the transition is refused. */
  function Mark(st: Store, id: Id, status: Status, now: Time): (Store, bool) {
    if id !in st.entries || status == Terminated || status !in NextStates(st.entries[id].status) then (st, false)
    else if st.entries[id].status == Queued && status == Failed then (FailQueued(st, id, now), true)
    else (Rewrite(st, id, status, now), true)
  }

  /** `_astore_and_discard`. */
  function FailQueued(st: Store, id: Id, now: Time): Store
    requires id in st.entries
  {
    var out := Discard(Rewrite(st, id, Failed, now), id);
    out.(failedEarly := if id in st.unplaced then st.failedEarly + {id} else st.failedEarly)
  }

  /** `aprune`: only a terminal record goes, from every store. */
  function Prune(st: Store, id: Id): (Store, bool) {
    if id !in st.entries || !IsTerminal(st.entries[id].status) then (st, false)
    else
      PopKeeps(st.scheduled, id);
      (st.(entries := st.entries - {id}, scheduled := Pop(st.scheduled, id),
           pending := Without(st.pending, id), heap := PriorityStore.Discard(st.heap, id)), true)
  }

  datatype Op =
    | OpEnqueue(id: Id, at: Time, priority: int)
    | OpStore(id: Id, at: Time, priority: int, availableAt: Time)
    | OpPlace(id: Id, at: Time)
    | OpDequeue(at: Time)
    | OpMark(id: Id, status: Status, at: Time)
    | OpPrune(id: Id)

  /** One step. Ids are fresh, each stored id is placed once, workers mark running only what they
      dequeued, and no caller asks for a return to queued; anything else does not occur. */
  function Apply(st: Store, op: Op): Store {
    match op
    case OpEnqueue(id, at, priority) => if id in st.born then st else Enqueue(st, id, at, priority)
    case OpStore(id, at, priority, availableAt) =>
      if id in st.born then st else StoreEntry(st, id, at, priority, availableAt)
    case OpPlace(id, at) => if id in st.unplaced then Place(st, id, at) else st
    case OpDequeue(at) => Dequeue(st, at).0
    case OpMark(id, status, at) =>
      if status == Queued || (status == Running && id !in st.taken) then st else Mark(st, id, status, at).0
    case OpPrune(id) => Prune(st, id).0
  }

  function Run(st: Store, ops: seq<Op>): Store
    decreases |ops|
  {
    if ops == [] then st else Run(Apply(st, ops[0]), ops[1..])
  }
}
