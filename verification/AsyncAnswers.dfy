/** What the async queues answer, told by the calls made: which entry a dequeue returns, and what a
    record says about the calls that shaped it. */
module AsyncAnswers {
  import opened Prelude
  import opened Scheduling
  import opened SchedulingOrder
  import opened AsyncStore
  import opened AsyncRuns
  import PriorityStore

  // ---- What an enqueue asked for ----

  datatype Request = Request(priority: int, queuedAt: Time, availableAt: Option<Time>)

  function AsRequest(op: Op, id: Id): Option<Request> {
    match op
    case OpEnqueue(x, at, priority) => if x == id then Some(Request(priority, at, None)) else None
    case OpStore(x, at, priority, availableAt) =>
      if x == id then Some(Request(priority, at, Some(availableAt))) else None
    case _ => None
  }

  /** The first enqueue made under `id`; later ones do not occur. */
  function Asked(ops: seq<Op>, id: Id): Option<Request> {
    if ops == [] then None
    else
      var before := Asked(ops[..|ops| - 1], id);
      if before.Some? then before else AsRequest(ops[|ops| - 1], id)
  }

  ghost predicate HasPriority(items: seq<PriorityStore.Item>, id: Id, priority: int) {
    forall x :: x in items && x.id == id ==> x.priority == priority
  }

  /** Everything stored about `id` is what its enqueue asked for, and the instants of its record are the
      readings of calls made. */
  ghost predicate AsAsked(st: Store, ops: seq<Op>, id: Id) {
    var asked := Asked(ops, id);
    && (id in st.born <==> asked.Some?)
    && (asked.Some? ==>
          && (id in st.entries ==>
                && st.entries[id].priority == asked.value.priority && st.entries[id].queuedAt == asked.value.queuedAt
                && (st.entries[id].dispatchedAt.Some? ==> OpMark(id, Running, st.entries[id].dispatchedAt.value) in ops)
                && (st.entries[id].finishedAt.Some? ==>
                      OpMark(id, st.entries[id].status, st.entries[id].finishedAt.value) in ops))
          && (id in st.unplaced ==>
                st.unplaced[id].priority == asked.value.priority && asked.value.availableAt == Some(st.unplaced[id].availableAt))
          && HasPriority(st.heap.items, id, asked.value.priority)
          && (id in st.asked ==> asked.value.availableAt == Some(st.asked[id]))
          && (asked.value.availableAt.Some? ==> id in st.unplaced || id in st.asked))
  }

  lemma AskedSnoc(ops: seq<Op>, op: Op, id: Id)
    ensures Asked(ops + [op], id) == if Asked(ops, id).Some? then Asked(ops, id) else AsRequest(op, id)
    ensures forall o :: o in ops ==> o in ops + [op]
  {
    assert (ops + [op])[..|ops|] == ops;
  }

  lemma {:induction false} HeapCountNone(items: seq<PriorityStore.Item>, id: Id)
    requires HeapCount(items, id) == 0
    ensures forall x :: x in items ==> x.id != id
  {
    if items != [] {
      HeapCountNone(items[1..], id);
      assert items == [items[0]] + items[1..];
    }
  }

  /** A new id asks for the first time, and nothing is stored about it yet. */
  lemma NewAsAsked(st: Store, ops: seq<Op>, op: Op, id: Id)
    requires Sound(st, id) && AsAsked(st, ops, id) && AsRequest(op, id).Some? && id !in st.born
    ensures AsAsked(Apply(st, op), ops + [op], id)
  {
    AskedSnoc(ops, op, id);
    HeapCountNone(st.heap.items, id);
    assert id !in st.asked && id !in st.unplaced;
    hide Sound, HeapCount, Asked, Count;
    if op.OpStore? {
      assert Apply(st, op).heap == st.heap;
    }
  }

  /** An enqueue under another id. */
  lemma OtherAsAsked(st: Store, ops: seq<Op>, op: Op, id: Id)
    requires AsAsked(st, ops, id) && (op.OpEnqueue? || op.OpStore?) && (op.id == id ==> id in st.born)
    ensures AsAsked(Apply(st, op), ops + [op], id)
  {
    AskedSnoc(ops, op, id);
  }

  lemma PlaceAsAsked(st: Store, ops: seq<Op>, x: Id, at: Time, id: Id)
    requires AsAsked(st, ops, id) && Sound(st, id) && x in st.unplaced
    ensures AsAsked(Place(st, x, at), ops + [OpPlace(x, at)], id)
  {
    AskedSnoc(ops, OpPlace(x, at), id);
  }

  lemma PromoteAsAsked(st: Store, ops: seq<Op>, now: Time, id: Id)
    requires AsAsked(st, ops, id)
    ensures AsAsked(Promote(st, now), ops, id)
  {
    hide PopNextDue;
    PromoteFrame(st, now);
  }

  lemma PopReadyAsAsked(st: Store, ops: seq<Op>, id: Id)
    requires AsAsked(st, ops, id)
    ensures AsAsked(PopReady(st).0, ops, id)
  {
    if st.byPriority && st.heap.items != [] {
      WithoutMembers(st.heap.items, PriorityStore.Least(st.heap.items));
    }
  }

  lemma {:induction false} WithoutMembers<T>(s: seq<T>, x: T)
    ensures forall y :: y in Without(s, x) ==> y in s
  {
    if s != [] {
      WithoutMembers(s[1..], x);
      assert s == [s[0]] + s[1..];
    }
  }

  lemma {:induction false} ExceptMembers(items: seq<PriorityStore.Item>, id: Id)
    ensures forall y :: y in PriorityStore.Except(items, id) <==> y in items && y.id != id
  {
    if items != [] {
      ExceptMembers(items[1..], id);
      assert items == [items[0]] + items[1..];
    }
  }

  lemma MoreOps(st: Store, ops: seq<Op>, op: Op, id: Id)
    requires AsAsked(st, ops, id) && AsRequest(op, id).None?
    ensures AsAsked(st, ops + [op], id)
  {
    AskedSnoc(ops, op, id);
  }

  lemma RewriteAsAsked(st: Store, ops: seq<Op>, x: Id, status: Status, now: Time, id: Id)
    requires AsAsked(st, ops, id) && (x == id ==> Sound(st, id)) && x in st.entries
    requires status in NextStates(st.entries[x].status) && status != Queued
    requires OpMark(x, status, now) in ops
    ensures AsAsked(Rewrite(st, x, status, now), ops, id)
  {
  }

  lemma DiscardAsAsked(st: Store, ops: seq<Op>, x: Id, id: Id)
    requires AsAsked(st, ops, id)
    ensures AsAsked(Discard(st, x), ops, id)
  {
    ExceptMembers(st.heap.items, x);
  }

  lemma MarkAsAsked(st: Store, ops: seq<Op>, x: Id, status: Status, now: Time, id: Id)
    requires AsAsked(st, ops, id) && Sound(st, id) && status != Queued && OpMark(x, status, now) in ops
    ensures AsAsked(Mark(st, x, status, now).0, ops, id)
  {
    if Mark(st, x, status, now).1 {
      RewriteAsAsked(st, ops, x, status, now, id);
      DiscardAsAsked(Rewrite(st, x, status, now), ops, x, id);
    }
  }

  lemma PruneAsAsked(st: Store, ops: seq<Op>, x: Id, id: Id)
    requires AsAsked(st, ops, id)
    ensures AsAsked(Prune(st, x).0, ops, id)
  {
    ExceptMembers(st.heap.items, x);
  }

  lemma StepAsAsked(st: Store, ops: seq<Op>, op: Op, id: Id)
    requires AsAsked(st, ops, id) && Sound(st, id)
    ensures AsAsked(Apply(st, op), ops + [op], id)
  {
    if AsRequest(op, id).Some? && id !in st.born {
      NewAsAsked(st, ops, op, id);
    } else if op.OpEnqueue? || op.OpStore? {
      OtherAsAsked(st, ops, op, id);
    } else if op.OpPlace? && op.id in st.unplaced {
      PlaceAsAsked(st, ops, op.id, op.at, id);
    } else {
      MoreOps(st, ops, op, id);
      hide AsAsked, Sound;
      match op
      case OpDequeue(at) =>
        PromoteAsAsked(st, ops + [op], at, id);
        PopReadyAsAsked(Promote(st, at), ops + [op], id);
      case OpMark(x, status, at) => if status != Queued { MarkAsAsked(st, ops + [op], x, status, at, id); }
      case OpPrune(x) => PruneAsAsked(st, ops + [op], x, id);
      case OpPlace(x, at) =>
    }
  }

  lemma {:induction false} RunSnoc(st: Store, ops: seq<Op>, op: Op)
    ensures Run(st, ops + [op]) == Apply(Run(st, ops), op)
    decreases |ops|
  {
    hide Apply;
    if ops == [] {
      assert ([] + [op])[1..] == [];
    } else {
      assert (ops + [op])[1..] == ops[1..] + [op];
      RunSnoc(Apply(st, ops[0]), ops[1..], op);
    }
  }

  /** In every reachable state. */
  lemma {:induction false} RecordsAreAsAsked(byPriority: bool, ops: seq<Op>, id: Id)
    ensures AsAsked(Run(Empty(byPriority), ops), ops, id)
    decreases |ops|
  {
    if ops != [] {
      var before, last := ops[..|ops| - 1], ops[|ops| - 1];
      assert ops == before + [last];
      RecordsAreAsAsked(byPriority, before, id);
      RunKeeps(Empty(byPriority), before, id);
      RunSnoc(Empty(byPriority), before, last);
      hide *;
      StepAsAsked(Run(Empty(byPriority), before), before, last, id);
    }
  }

  // ---- The priority store over runs ----

  lemma PromoteHeap(st: Store, now: Time) returns (hops: seq<PriorityStore.Op>)
    ensures Promote(st, now).heap == PriorityStore.Run(st.heap, hops)
  {
    hide PopNextDue;
    var r := PopNextDue(st.entries, st.scheduled, now, st.byPriority).1;
    if st.byPriority && r.Some? && r.value in st.entries {
      hops := HeapOp(st.heap, PriorityStore.OpPush(r.value, st.entries[r.value].priority));
    } else {
      hops := [];
    }
  }

  lemma HeapOp(heap: PriorityStore.Store, op: PriorityStore.Op) returns (hops: seq<PriorityStore.Op>)
    ensures PriorityStore.Run(heap, hops) == PriorityStore.Apply(heap, op)
  {
    hops := [op];
    assert hops[1..] == [];
  }

  lemma {:induction false} HeapConcat(heap: PriorityStore.Store, a: seq<PriorityStore.Op>, b: seq<PriorityStore.Op>)
    ensures PriorityStore.Run(heap, a + b) == PriorityStore.Run(PriorityStore.Run(heap, a), b)
    decreases |a|
  {
    if a == [] {
      assert [] + b == b;
    } else {
      assert (a + b)[1..] == a[1..] + b;
      HeapConcat(PriorityStore.Apply(heap, a[0]), a[1..], b);
    }
  }

  /** What a step does to the priority store is a history of pushes, pops and discards. */
  lemma StepHeap(st: Store, op: Op) returns (hops: seq<PriorityStore.Op>)
    ensures Apply(st, op).heap == PriorityStore.Run(st.heap, hops)
  {
    hide PriorityStore.Run, Promote;
    match op {
      case OpEnqueue(id, at, priority) => hops := HeapOp(st.heap, PriorityStore.OpPush(id, priority));
      case OpPlace(id, at) =>
        hops := HeapOp(st.heap, PriorityStore.OpPush(id, if id in st.unplaced then st.unplaced[id].priority else 0));
      case OpDequeue(at) =>
        var first := PromoteHeap(st, at);
        var pop := HeapOp(Promote(st, at).heap, PriorityStore.OpPop);
        HeapConcat(st.heap, first, pop);
        PromoteFrame(st, at);
        hops := if st.byPriority then first + pop else first;
      case OpMark(id, status, at) => hops := HeapOp(st.heap, PriorityStore.OpDiscard(id));
      case OpPrune(id) => hops := HeapOp(st.heap, PriorityStore.OpDiscard(id));
      case OpStore(id, at, priority, availableAt) => hops := [];
    }
    if Apply(st, op).heap == st.heap {
      hops := [];
      HeapNone(st.heap);
    }
  }

  lemma HeapNone(heap: PriorityStore.Store)
    ensures PriorityStore.Run(heap, []) == heap
  {
  }

  lemma {:induction false} RunHeap(st: Store, ops: seq<Op>) returns (hops: seq<PriorityStore.Op>)
    ensures Run(st, ops).heap == PriorityStore.Run(st.heap, hops)
    decreases |ops|
  {
    hide Apply, PriorityStore.Run;
    if ops == [] {
      hops := [];
      HeapNone(st.heap);
    } else {
      var first := StepHeap(st, ops[0]);
      var rest := RunHeap(Apply(st, ops[0]), ops[1..]);
      HeapConcat(st.heap, first, rest);
      hops := first + rest;
    }
  }

  /** The waiting entries of every reachable state are numbered in the order they became ready. */
  lemma RunNumbers(byPriority: bool, ops: seq<Op>)
    ensures PriorityStore.Inv(Run(Empty(byPriority), ops).heap)
  {
    var hops := RunHeap(Empty(byPriority), ops);
    PriorityStore.RunKeeps(PriorityStore.Store([], 0), hops);
  }

  // ---- Which entry a dequeue returns ----

  /** Higher priority first, then earlier arrival. */
  predicate Outranks(a: PriorityStore.Item, b: PriorityStore.Item) {
    a.priority > b.priority || (a.priority == b.priority && a.sequence < b.sequence)
  }

  /** A priority dequeue takes the entry that outranks all others waiting after the promotion, by the
      priorities their enqueues asked for and the order in which they became ready; it returns nothing
      exactly when none waits or that one has no record any more. */
  lemma DequeueTakesTop(ops: seq<Op>, now: Time) returns (top: Option<PriorityStore.Item>)
    ensures
      var st := Run(Empty(true), ops);
      var items := Promote(st, now).heap.items;
      && (top.None? <==> items == [])
      && (top.Some? ==>
            && top.value in items
            && (forall y :: y in items && y != top.value ==> Outranks(top.value, y))
            && (top.value.id in st.entries ==>
                  && Dequeue(st, now).1 == Some(top.value.id)
                  && Asked(ops, top.value.id).Some? && Asked(ops, top.value.id).value.priority == top.value.priority))
      && (Dequeue(st, now).1.None? <==> top.None? || top.value.id !in st.entries)
  {
    var st := Run(Empty(true), ops);
    RunNumbers(true, ops);
    var hops := PromoteHeap(st, now);
    PriorityStore.RunKeeps(st.heap, hops);
    PromoteFrame(st, now);
    KindOfRun(Empty(true), ops);
    var items := Promote(st, now).heap.items;
    if items == [] {
      top := None;
    } else {
      var least := PriorityStore.Least(items);
      top := Some(least);
      PriorityStore.LeastIsLeast(items);
      forall y | y in items && y != least ensures Outranks(least, y) {
        DistinctSequences(items, least, y);
      }
      RecordsAreAsAsked(true, ops, least.id);
      RunKeeps(Empty(true), ops, least.id);
      PromoteAsAsked(st, ops, now, least.id);
    }
  }

  lemma DistinctSequences(items: seq<PriorityStore.Item>, a: PriorityStore.Item, b: PriorityStore.Item)
    requires PriorityStore.ByArrival(items) && a in items && b in items && a != b
    ensures a.sequence != b.sequence
  {
    var i :| 0 <= i < |items| && items[i] == a;
    var j :| 0 <= j < |items| && items[j] == b;
    assert i < j || j < i;
  }

  lemma {:induction false} KindOfRun(st: Store, ops: seq<Op>)
    requires OneKind(st)
    ensures OneKind(Run(st, ops)) && Run(st, ops).byPriority == st.byPriority
    decreases |ops|
  {
    if ops != [] {
      hide Apply, OneKind;
      KindKeeps(st, ops[0]);
      KindOfRun(Apply(st, ops[0]), ops[1..]);
    }
  }

  /** The answers of `n` dequeues in a row at one clock reading. */
  function Replies(st: Store, now: Time, n: nat): seq<Option<Id>>
    decreases n
  {
    if n == 0 then []
    else
      var (st', r) := Dequeue(st, now);
      [r] + Replies(st', now, n - 1)
  }

  /** What dequeues answer when they take `ids` in this order: an id without a record is an error. */
  function Served(entries: map<Id, Entry>, ids: seq<Id>): seq<Option<Id>> {
    if ids == [] then [] else [if ids[0] in entries then Some(ids[0]) else None] + Served(entries, ids[1..])
  }

  function IdsOf(items: seq<PriorityStore.Item>): seq<Id> {
    if items == [] then [] else [items[0].id] + IdsOf(items[1..])
  }

  predicate NothingDue(st: Store, now: Time) {
    Ready(st.entries, st.scheduled, now) == {}
  }

  lemma NothingDuePromotes(st: Store, now: Time)
    requires NothingDue(st, now)
    ensures
      var st' := Promote(st, now);
      && st' == st.(scheduled := st'.scheduled, latest := Max(st.latest, now))
      && NothingDue(st', now)
  {
    PopNextDueTakesFirst(st.entries, st.scheduled, now, st.byPriority);
    hide PopNextDue, SameOrder, IsNext;
  }

  lemma PopTop(st: Store, now: Time)
    requires st.byPriority && NothingDue(st, now) && st.heap.items != []
    ensures
      var (st', r) := Dequeue(st, now);
      var x := PriorityStore.Least(st.heap.items);
      && st'.heap.items == Without(st.heap.items, x) && st'.entries == st.entries && st'.byPriority
      && NothingDue(st', now) && r == if x.id in st.entries then Some(x.id) else None
  {
    NothingDuePromotes(st, now);
    hide Promote, NothingDue;
    NothingDueFrame(Promote(st, now), Dequeue(st, now).0, now);
  }

  lemma {:induction false} RepliesDrain(st: Store, now: Time)
    requires st.byPriority && NothingDue(st, now)
    ensures Replies(st, now, |st.heap.items|) == Served(st.entries, IdsOf(PriorityStore.Drain(st.heap.items)))
    decreases |st.heap.items|
  {
    var items := st.heap.items;
    if items != [] {
      hide Dequeue, NothingDue, Without;
      PopTop(st, now);
      var x := PriorityStore.Least(items);
      PriorityStore.WithoutShrinks(items, x);
      var rest := PriorityStore.Drain(Without(items, x));
      assert PriorityStore.Drain(items) == [x] + rest;
      assert ([x] + rest)[1..] == rest;
      assert ([x.id] + IdsOf(rest))[1..] == IdsOf(rest);
      RepliesDrain(Dequeue(st, now).0, now);
    }
  }

  lemma NothingDueFrame(st: Store, st': Store, now: Time)
    requires NothingDue(st, now) && st'.entries == st.entries && st'.scheduled == st.scheduled
    ensures NothingDue(st', now)
  {
  }

  /** With nothing due, dequeues on a priority queue serve the waiting entries in the stable sort of their
      priorities: higher first, equal ones by arrival. */
  lemma DequeuesAreStableSort(ops: seq<Op>, now: Time)
    requires NothingDue(Run(Empty(true), ops), now)
    ensures
      var st := Run(Empty(true), ops);
      Replies(st, now, |st.heap.items|) == Served(st.entries, IdsOf(PriorityStore.StableSort(st.heap.items)))
  {
    var st := Run(Empty(true), ops);
    RunNumbers(true, ops);
    KindOfRun(Empty(true), ops);
    RepliesDrain(st, now);
    PriorityStore.DrainIsStableSort(st.heap.items);
  }

  /** With nothing due, dequeues on the plain queue serve the waiting entries in order. */
  lemma {:induction false} DequeuesAreInOrder(st: Store, now: Time)
    requires !st.byPriority && NothingDue(st, now)
    ensures Replies(st, now, |st.pending|) == Served(st.entries, st.pending)
    decreases |st.pending|
  {
    if st.pending != [] {
      NothingDuePromotes(st, now);
      hide Promote, NothingDue;
      var st' := Dequeue(st, now).0;
      assert st'.pending == st.pending[1..] && st'.entries == st.entries && !st'.byPriority;
      assert NothingDue(st', now) by {
        NothingDueFrame(Promote(st, now), st', now);
      }
      DequeuesAreInOrder(st', now);
    }
  }

  // ---- Scheduled entries ----

  /** The latest clock reading by which work was placed or dequeued, from the epoch on. */
  function LatestReading(ops: seq<Op>): Time {
    if ops == [] then 0
    else
      var before, last := LatestReading(ops[..|ops| - 1]), ops[|ops| - 1];
      if last.OpPlace? || last.OpDequeue? then Max(before, last.at) else before
  }

  lemma DequeueReads(st: Store, now: Time)
    ensures Dequeue(st, now).0.latest == Max(st.latest, now)
  {
    hide Promote;
    PromoteFrame(st, now);
  }

  lemma StepReads(st: Store, op: Op)
    ensures Apply(st, op).latest <= (if op.OpPlace? || op.OpDequeue? then Max(st.latest, op.at) else st.latest)
  {
    hide Dequeue;
    if op.OpDequeue? {
      DequeueReads(st, op.at);
    }
  }

  lemma {:induction false} RunReads(byPriority: bool, ops: seq<Op>)
    ensures Run(Empty(byPriority), ops).latest <= LatestReading(ops)
    decreases |ops|
  {
    if ops != [] {
      var before, last := ops[..|ops| - 1], ops[|ops| - 1];
      assert ops == before + [last];
      RunReads(byPriority, before);
      RunSnoc(Empty(byPriority), before, last);
      hide Apply, Run;
      StepReads(Run(Empty(byPriority), before), last);
    }
  }

  /** An entry enqueued for a later instant is not returned before some clock reading of the run, this
      dequeue's included, has reached that instant. */
  lemma NotBeforeItsTime(byPriority: bool, ops: seq<Op>, now: Time, id: Id)
    requires Dequeue(Run(Empty(byPriority), ops), now).1 == Some(id)
    requires Asked(ops, id).Some? && Asked(ops, id).value.availableAt.Some?
    ensures Asked(ops, id).value.availableAt.value <= Max(LatestReading(ops), now)
  {
    var st := Run(Empty(byPriority), ops);
    RecordsAreAsAsked(byPriority, ops, id);
    RunReads(byPriority, ops);
    ReturnedIsPlaced(byPriority, ops, now, id);
    NeverDispatchedEarly(byPriority, ops, now, id);
  }

  lemma ReturnedIsPlaced(byPriority: bool, ops: seq<Op>, now: Time, id: Id)
    requires Dequeue(Run(Empty(byPriority), ops), now).1 == Some(id)
    ensures id !in Run(Empty(byPriority), ops).unplaced
  {
    var st := Run(Empty(byPriority), ops);
    RunKeeps(Empty(byPriority), ops, id);
    PromoteFrame(st, now);
    PromoteKeeps(st, now, id);
    PopReadyAt(Promote(st, now), id);
    hide Promote, PopReady, Count, HeapCount;
  }

  // ---- Waiting in the plain queue ----

  /** `x` is not failed or pruned by this step. */
  predicate LeavesAlone(op: Op, x: Id) {
    !(op.OpMark? && op.id == x && op.status == Failed) && !(op.OpPrune? && op.id == x)
  }

  lemma PromotePending(st: Store, now: Time)
    ensures st.pending <= Promote(st, now).pending
    ensures Promote(st, now).entries == st.entries && Promote(st, now).byPriority == st.byPriority
  {
    hide PopNextDue;
  }

  lemma DequeueNears(st: Store, now: Time, x: Id)
    requires !st.byPriority && x in st.pending && x in st.entries
    ensures
      var (st', r) := Dequeue(st, now);
      if st.pending[0] == x then r == Some(x)
      else x in st'.pending && IndexOf(st'.pending, x) == IndexOf(st.pending, x) - 1
  {
    hide Promote;
    PromotePending(st, now);
    var ready := Promote(st, now).pending;
    assert ready == st.pending + ready[|st.pending|..];
    if st.pending[0] != x {
      assert ready[1..] == st.pending[1..] + ready[|st.pending|..];
      IndexOfPrefix(st.pending[1..], ready[|st.pending|..], x);
    }
  }

  /** `x` still waits with its record, at least `d` places nearer the front. */
  predicate Nearer(st: Store, st': Store, x: Id, d: nat) {
    && x in st.pending && x in st'.pending && x in st'.entries && !st'.byPriority
    && IndexOf(st'.pending, x) + d <= IndexOf(st.pending, x)
  }

  lemma ArrivalNears(st: Store, st': Store, id: Id, x: Id)
    requires !st.byPriority && x in st.pending && x in st'.entries && !st'.byPriority
    requires st'.pending == st.pending || st'.pending == st.pending + [id]
    ensures Nearer(st, st', x, 0)
  {
    IndexOfPrefix(st.pending, [id], x);
  }

  lemma DepartureNears(st: Store, st': Store, id: Id, x: Id)
    requires !st.byPriority && x in st.pending && x in st'.entries && !st'.byPriority && x != id
    requires st'.pending == st.pending || st'.pending == Without(st.pending, id)
    ensures Nearer(st, st', x, 0)
  {
    IndexOfWithout(st.pending, id, x);
  }

  lemma MarkPending(st: Store, id: Id, status: Status, at: Time)
    ensures
      var st' := Mark(st, id, status, at).0;
      && st'.byPriority == st.byPriority
      && (st'.pending == st.pending || (status == Failed && st'.pending == Without(st.pending, id)))
  {
  }

  /** A step dequeues a waiting entry or leaves it waiting, one place nearer for each dequeue; later
      arrivals join behind it. */
  lemma StepNears(st: Store, op: Op, x: Id)
    requires !st.byPriority && x in st.pending && x in st.entries && LeavesAlone(op, x)
    ensures
      || (op.OpDequeue? && Dequeue(st, op.at).1 == Some(x))
      || Nearer(st, Apply(st, op), x, if op.OpDequeue? then 1 else 0)
  {
    hide Nearer, IndexOf;
    match op
    case OpEnqueue(id, at, priority) => ArrivalNears(st, Apply(st, op), id, x);
    case OpStore(id, at, priority, availableAt) => ArrivalNears(st, Apply(st, op), id, x);
    case OpPlace(id, at) => ArrivalNears(st, Apply(st, op), id, x);
    case OpDequeue(at) =>
      if Dequeue(st, at).1 != Some(x) {
        DequeueIsNearer(st, at, x);
      }
    case OpMark(id, status, at) =>
      hide Mark;
      MarkIs(st, id, status, at, x);
      MarkPending(st, id, status, at);
      if status == Failed {
        DepartureNears(st, Apply(st, op), id, x);
      } else {
        ArrivalNears(st, Apply(st, op), id, x);
      }
    case OpPrune(id) => DepartureNears(st, Apply(st, op), id, x);
  }

  lemma DequeueIsNearer(st: Store, now: Time, x: Id)
    requires !st.byPriority && x in st.pending && x in st.entries && Dequeue(st, now).1 != Some(x)
    ensures Nearer(st, Dequeue(st, now).0, x, 1)
  {
    DequeueNears(st, now, x);
    PromotePending(st, now);
    hide Promote;
  }

  function DequeueCount(ops: seq<Op>): nat {
    if ops == [] then 0 else (if ops[0].OpDequeue? then 1 else 0) + DequeueCount(ops[1..])
  }

  predicate DequeuedDuring(st: Store, ops: seq<Op>, x: Id)
    decreases |ops|
  {
    ops != [] &&
    ((ops[0].OpDequeue? && Dequeue(st, ops[0].at).1 == Some(x)) || DequeuedDuring(Apply(st, ops[0]), ops[1..], x))
  }

  /** An entry at position j of the plain queue, not failed or pruned meanwhile, is dequeued within j + 1
      dequeues, whatever enqueues, promotions and marks interleave. */
  lemma {:induction false} DequeuedWithinPosition(st: Store, ops: seq<Op>, x: Id)
    requires !st.byPriority && x in st.pending && x in st.entries
    requires (forall op :: op in ops ==> LeavesAlone(op, x)) && DequeueCount(ops) > IndexOf(st.pending, x)
    ensures DequeuedDuring(st, ops, x)
    decreases |ops|
  {
    assert ops[0] in ops;
    StepNears(st, ops[0], x);
    if !(ops[0].OpDequeue? && Dequeue(st, ops[0].at).1 == Some(x)) {
      hide Apply, Dequeue;
      DequeuedWithinPosition(Apply(st, ops[0]), ops[1..], x);
    }
  }

  // ---- Placing, marking and pruning ----

  /** A placed entry waits in the schedule exactly if its time lies ahead of the reading, and is ready
      otherwise. */
  lemma PlaceIs(st: Store, id: Id, now: Time)
    requires Sound(st, id) && id in st.unplaced
    ensures
      var st' := Place(st, id, now);
      && (id in st'.scheduled.vals <==> now < st.unplaced[id].availableAt)
      && (id in st'.scheduled.vals ==> st'.scheduled.vals[id] == st.unplaced[id].availableAt)
      && ReadyCopies(st', id) == (if now < st.unplaced[id].availableAt then 0 else 1)
      && id !in st'.unplaced
  {
    PlaceAt(st, id, now, id);
  }

  /** The transition graph, call by call: a mark succeeds exactly from queued to running or failed, and
      from running to queued or an end; it writes the status and its own instant and nothing else. */
  lemma MarkIs(st: Store, id: Id, status: Status, now: Time, x: Id)
    ensures
      var (st', done) := Mark(st, id, status, now);
      && (done <==> id in st.entries &&
                    match st.entries[id].status
                    case Queued => status == Running || status == Failed
                    case Running => status != Running && status != Terminated
                    case _ => false)
      && (!done ==> st' == st)
      && (x in st'.entries <==> x in st.entries)
      && (x in st.entries ==>
            var e, e' := st.entries[x], st'.entries[x];
            if !done || x != id then e' == e
            else e'.status == status && e'.queuedAt == e.queuedAt && e'.priority == e.priority
                 && e'.dispatchedAt == (if status == Running then Some(now) else e.dispatchedAt)
                 && e'.finishedAt == (if status == Running then e.finishedAt else Some(now)))
  {
  }

  /** Only an ended record is pruned; it leaves every store, and nothing else does. */
  lemma PruneIs(st: Store, id: Id, x: Id)
    requires Sound(st, id)
    ensures
      var (st', done) := Prune(st, id);
      && (done <==> id in st.entries && st.entries[id].finishedAt.Some?)
      && (!done ==> st' == st)
      && (x != id ==> (x in st'.entries <==> x in st.entries) && (x in st.entries ==> st'.entries[x] == st.entries[x]))
      && (x != id ==> Waiting(st', x) == Waiting(st, x))
      && (done ==> id !in st'.entries && Waiting(st', id) == 0)
  {
    CountWithout(st.pending, id, x);
    CountWithout(st.pending, id, id);
    HeapCountExcept(st.heap.items, id, x);
    HeapCountExcept(st.heap.items, id, id);
  }

  /** The lives an entry can have had so far. */
  predicate IsLife(h: seq<Status>) {
    || h == [Queued] || h == [Queued, Failed] || h == [Queued, Running]
    || (|h| == 3 && h[0] == Queued && h[1] == Running && h[2] in {Succeeded, Failed, Cancelled, TimedOut})
  }

  ghost predicate Lived(st: Store, id: Id) {
    id in st.entries ==>
      && id in st.histories && IsLife(st.histories[id])
      && st.histories[id][|st.histories[id]| - 1] == st.entries[id].status
  }

  lemma MarkLives(st: Store, x: Id, status: Status, at: Time, id: Id)
    requires Lived(st, id) && Sound(st, id) && status != Queued
    ensures Lived(Mark(st, x, status, at).0, id)
  {
    hide Sound;
    MarkIs(st, x, status, at, id);
  }

  lemma DequeueLives(st: Store, at: Time, id: Id)
    requires Lived(st, id)
    ensures Lived(Dequeue(st, at).0, id)
  {
    hide Promote;
    PromoteFrame(st, at);
  }

  lemma StepLives(st: Store, op: Op, id: Id)
    requires Lived(st, id) && Sound(st, id)
    ensures Lived(Apply(st, op), id)
  {
    if op.OpDequeue? {
      DequeueLives(st, op.at, id);
    } else if op.OpMark? {
      hide Lived, Mark;
      if op.status != Queued {
        MarkLives(st, op.id, op.status, op.at, id);
      }
    } else {
      hide Dequeue, Mark, Sound;
    }
  }

  lemma {:induction false} RunLives(st: Store, ops: seq<Op>, id: Id)
    requires Lived(st, id) && Sound(st, id) && OneKind(st)
    ensures Lived(Run(st, ops), id)
    decreases |ops|
  {
    if ops != [] {
      hide Lived, Sound, OneKind, Apply;
      StepLives(st, ops[0], id);
      ApplyKeeps(st, ops[0], id);
      KindKeeps(st, ops[0]);
      RunLives(Apply(st, ops[0]), ops[1..], id);
    }
  }

  /** Over every run an entry is queued, then failed or running, then ended once and for good. */
  lemma LivesAre(byPriority: bool, ops: seq<Op>, id: Id)
    requires id in Run(Empty(byPriority), ops).entries
    ensures
      var st := Run(Empty(byPriority), ops);
      && id in st.histories && IsLife(st.histories[id])
      && st.histories[id][|st.histories[id]| - 1] == st.entries[id].status
  {
    RunLives(Empty(byPriority), ops, id);
  }
}
