/**
 Lifecycle observers of one alias, at the granularity the code runs: each lock-protected block,
 each unlocked flag test, each queue put and get is its own step, so any number of publishing,
 registering and dispatching threads interleave freely.
 */
module Observers {
  import opened Prelude

  type RegId = nat

  const EVENT_QUEUE_SIZE := 128

  /** A lifecycle snapshot: entry id, rank of its status, and its state timestamp. */
  datatype Entry = Entry(id: Id, rank: nat, stamp: Time)

  /** A snapshot on its way to observers. `origin` is the publication's sequence number, or 0 for
      one read back from the queue's own records at bootstrap; the code does not carry it. */
  datatype Snapshot = Snapshot(entry: Entry, origin: nat)

  datatype Registration = Registration(
    entryId: Option<Id>, active: bool, initialising: bool, pending: seq<Snapshot>,
    startedAt: nat, bootstrappedThrough: nat)

  datatype Delivery = Live(snap: Snapshot) | Boot(snap: Snapshot, target: RegId)

  /** A `publish` call past its lock: registrations left to test, or a test already passed. */
  datatype Flight = Flight(snap: Snapshot, watched: seq<RegId>, ready: bool)

  datatype Dispatcher =
    | Idle
    | Holding(delivery: Delivery)
    | Visiting(delivery: Delivery, todo: seq<RegId>)

  datatype State = State(
    sequence: nat,
    regs: map<RegId, Registration>,
    registrations: seq<RegId>,
    events: seq<Delivery>,
    flights: map<nat, Flight>,               // publishers between lock and queue
    activating: map<RegId, seq<Snapshot>>,   // bootstrap batches still being queued
    dispatcher: Dispatcher,
    listed: map<RegId, seq<Entry>>,          // history: the records each activation was given
    published: map<nat, Entry>,              // history
    delivered: seq<(RegId, Snapshot)>,       // history
    dropped: seq<Delivery>)                  // history

  const INIT := State(0, map[], [], [], map[], map[], Idle, map[], map[], [], [])

  // ---- Ordering a bootstrap batch ----

  /** The sort key order of `_order_snapshots`. */
  predicate KeyLeq(a: Entry, b: Entry) {
    || a.id < b.id
    || (a.id == b.id && a.rank < b.rank)
    || (a.id == b.id && a.rank == b.rank && a.stamp <= b.stamp)
  }

  predicate SnapLeq(a: Snapshot, b: Snapshot) { KeyLeq(a.entry, b.entry) }

  /** `_order_snapshots`: a stable sort. */
  function Ordered(s: seq<Snapshot>): seq<Snapshot> {
    SortBy(SnapLeq, s)
  }

  /** A bootstrap batch keeps exactly its snapshots and lists each entry's states in lifecycle order. */
  lemma OrderedIsSort(s: seq<Snapshot>)
    ensures forall i, j :: 0 <= i < j < |Ordered(s)| ==>
              var a, b := Ordered(s)[i].entry, Ordered(s)[j].entry;
              a.id <= b.id && (a.id == b.id ==> a.rank <= b.rank && (a.rank == b.rank ==> a.stamp <= b.stamp))
    ensures forall y :: Count(Ordered(s), y) == Count(s, y)
  {
    SortByIs(SnapLeq, s);
    assert forall i, j :: 0 <= i < j < |Ordered(s)| ==> SnapLeq(Ordered(s)[i], Ordered(s)[j]);
    forall y ensures Count(Ordered(s), y) == Count(s, y) {
      SortByCount(SnapLeq, s, y);
    }
  }

  // ---- Steps ----

  datatype Step =
    | Register(reg: RegId, entryId: Option<Id>)
    | Unregister(reg: RegId)
    | Publish(entry: Entry)
    | TestNext(seqno: nat)
    | QueueLive(seqno: nat)
    | Activate(reg: RegId, listed: seq<Entry>)
    | QueueBoot(reg: RegId)
    | Get
    | TakeRegistrations
    | Visit

  /** `_queue_event`: best effort, a full queue drops the delivery. */
  function Queue(st: State, d: Delivery): State {
    if |st.events| < EVENT_QUEUE_SIZE then st.(events := st.events + [d])
    else st.(dropped := st.dropped + [d])
  }

  /** Buffer a publication for every registration still bootstrapping. */
  function Buffer(regs: map<RegId, Registration>, registrations: seq<RegId>, snap: Snapshot)
    : map<RegId, Registration>
  {
    map r | r in regs ::
      if r in registrations && regs[r].initialising then regs[r].(pending := regs[r].pending + [snap])
      else regs[r]
  }

  function Tag(listed: seq<Entry>): seq<Snapshot> {
    if listed == [] then [] else [Snapshot(listed[0], 0)] + Tag(listed[1..])
  }

  /** The dispatcher's tests before it calls an observer. */
  predicate Wants(reg: Registration, d: Delivery) {
    && reg.active
    && !reg.initialising
    && !(d.Live? && reg.startedAt < d.snap.origin <= reg.bootstrappedThrough)
    && Accepts(reg, d.snap)
  }

  predicate Accepts(reg: Registration, snap: Snapshot) {
    reg.entryId.Some? ==> reg.entryId.value == snap.entry.id
  }

  /** `register`, under the lock. */
  function DoRegister(st: State, r: RegId, entryId: Option<Id>): State {
    st.(regs := st.regs[r := Registration(entryId, true, true, [], st.sequence, 0)],
        registrations := st.registrations + [r])
  }

  /** `unregister`, under the lock. */
  function DoUnregister(st: State, r: RegId): State
    requires r in st.regs
  {
    st.(regs := st.regs[r := st.regs[r].(active := false)],
        registrations := Without(st.registrations, r))
  }

  /** The lock-protected part of `publish`. */
  function DoPublish(st: State, e: Entry): State {
    var s := st.sequence + 1;
    st.(sequence := s,
        regs := Buffer(st.regs, st.registrations, Snapshot(e, s)),
        flights := st.flights[s := Flight(Snapshot(e, s), st.registrations, false)],
        published := st.published[s := e])
  }

  /** One test of `any(not registration.initialising ...)`, made after the lock is released. */
  function DoTest(st: State, s: nat): State
    requires s in st.flights
  {
    var f := st.flights[s];
    if f.watched == [] then st.(flights := st.flights - {s})
    else if f.watched[0] in st.regs && !st.regs[f.watched[0]].initialising then
      st.(flights := st.flights[s := f.(ready := true)])
    else st.(flights := st.flights[s := f.(watched := f.watched[1..])])
  }

  function DoQueueLive(st: State, s: nat): State
    requires s in st.flights
  {
    Queue(st.(flights := st.flights - {s}), Live(st.flights[s].snap))
  }

  /** The lock-protected part of `activate`. */
  function DoActivate(st: State, r: RegId, listed: seq<Entry>): State
    requires r in st.regs
  {
    st.(regs := st.regs[r := st.regs[r].(pending := [], bootstrappedThrough := st.sequence,
                                         initialising := false)],
        activating := st.activating[r := Ordered(Tag(listed) + st.regs[r].pending)],
        listed := st.listed[r := listed])
  }

  function DoQueueBoot(st: State, r: RegId): State
    requires r in st.activating && st.activating[r] != []
  {
    Queue(st.(activating := st.activating[r := st.activating[r][1..]]), Boot(st.activating[r][0], r))
  }

  /** `events.get()`. */
  function DoGet(st: State): State
    requires st.events != []
  {
    var d := st.events[0];
    st.(events := st.events[1..], dispatcher := if d.Boot? then Visiting(d, [d.target]) else Holding(d))
  }

  /** One turn of the dispatcher's loop over registrations. */
  function DoVisit(st: State): State
    requires st.dispatcher.Visiting?
  {
    if st.dispatcher.todo == [] then st.(dispatcher := Idle)
    else
      var d, r := st.dispatcher.delivery, st.dispatcher.todo[0];
      var moved := st.(dispatcher := Visiting(d, st.dispatcher.todo[1..]));
      if r in st.regs && Wants(st.regs[r], d) then moved.(delivered := st.delivered + [(r, d.snap)])
      else moved
  }

  /** A step whose guard does not hold is not taken. Each registration registers and activates once. */
  function Next(st: State, step: Step): State {
    match step
    case Register(r, entryId) => if r in st.regs then st else DoRegister(st, r, entryId)
    case Unregister(r) => if r in st.regs then DoUnregister(st, r) else st
    case Publish(e) => DoPublish(st, e)
    case TestNext(s) => if s in st.flights && !st.flights[s].ready then DoTest(st, s) else st
    case QueueLive(s) => if s in st.flights && st.flights[s].ready then DoQueueLive(st, s) else st
    case Activate(r, listed) =>
      if r in st.regs && st.regs[r].initialising then DoActivate(st, r, listed) else st
    case QueueBoot(r) => if r in st.activating && st.activating[r] != [] then DoQueueBoot(st, r) else st
    case Get => if st.dispatcher.Idle? && st.events != [] then DoGet(st) else st
    case TakeRegistrations =>
      if st.dispatcher.Holding? then st.(dispatcher := Visiting(st.dispatcher.delivery, st.registrations))
      else st
    case Visit => if st.dispatcher.Visiting? then DoVisit(st) else st
  }

  function Run(st: State, steps: seq<Step>): State
    decreases |steps|
  {
    if steps == [] then st else Run(Next(st, steps[0]), steps[1..])
  }
}
