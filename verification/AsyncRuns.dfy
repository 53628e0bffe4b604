/** Lifecycle and dispatch guarantees of the async queues over every run. */
module AsyncRuns {
  import opened Prelude
  import opened Scheduling
  import opened SchedulingOrder
  import opened AsyncStore
  import PriorityStore

  // ---- One id at a time ----

  function HeapCount(items: seq<PriorityStore.Item>, id: Id): nat {
    if items == [] then 0 else (if items[0].id == id then 1 else 0) + HeapCount(items[1..], id)
  }

  /** Copies of `id` a dequeue could return now or after promotion. */
  function Waiting(st: Store, id: Id): nat {
    Count(st.pending, id) + HeapCount(st.heap.items, id) + if id in st.scheduled.vals then 1 else 0
  }

  /** Everywhere `id` can be on its way through the queue, dequeues included. */
  function Places(st: Store, id: Id): nat {
    Waiting(st, id) + (if id in st.unplaced then 1 else 0) + Count(st.taken, id)
  }

  /** A stored history: starts queued, follows the transition graph, never reaches terminated. */
  predicate IsPath(h: seq<Status>) {
    && h != []
    && (if |h| == 1 then h[0] == Queued
        else IsPath(h[..|h| - 1]) && h[|h| - 1] in NextStates(h[|h| - 2]) && h[|h| - 1] != Terminated)
  }

  /** finished_at is set exactly when terminal; only queued or failed records lack dispatched_at. */
  predicate WellFormed(e: Entry) {
    && e.status != Terminated
    && (e.finishedAt.Some? <==> IsTerminal(e.status))
    && (e.dispatchedAt.None? ==> e.status == Queued || e.status == Failed)
    && (e.status == Queued ==> e.dispatchedAt.None?)
  }

  ghost predicate Sound(st: Store, id: Id) {
    && Places(st, id) <= 1
    && (id !in st.born ==> Places(st, id) == 0 && id !in st.entries && id !in st.failedEarly && id !in st.asked)
    && (Waiting(st, id) > 0 || id in st.unplaced ==> IsQueued(st.entries, id) || id in st.failedEarly)
    && (id in st.entries ==>
          && WellFormed(st.entries[id])
          && (st.entries[id].dispatchedAt.Some? ==> Count(st.taken, id) == 1)
          && id in st.histories && IsPath(st.histories[id])
          && st.histories[id][|st.histories[id]| - 1] == st.entries[id].status)
    && (id in st.scheduled.vals ==> id in st.asked && st.asked[id] == st.scheduled.vals[id])
    && (id in st.asked && id !in st.scheduled.vals && Places(st, id) > 0 ==> st.asked[id] <= st.latest)
  }

  // ---- Counting ----

  lemma {:induction false} CountWithout(s: seq<Id>, x: Id, y: Id)
    ensures Count(Without(s, x), y) == if x == y && Count(s, y) > 0 then Count(s, y) - 1 else Count(s, y)
  {
    if s != [] {
      CountWithout(s[1..], x, y);
      if s[0] != x {
        assert Without(s, x)[1..] == Without(s[1..], x);
      }
    }
  }

  lemma {:induction false} HeapCountAppend(items: seq<PriorityStore.Item>, x: PriorityStore.Item, id: Id)
    ensures HeapCount(items + [x], id) == HeapCount(items, id) + if x.id == id then 1 else 0
  {
    if items != [] {
      assert (items + [x])[1..] == items[1..] + [x];
      HeapCountAppend(items[1..], x, id);
    }
  }

  lemma {:induction false} HeapCountWithout(items: seq<PriorityStore.Item>, x: PriorityStore.Item, id: Id)
    requires x in items
    ensures HeapCount(Without(items, x), id) == HeapCount(items, id) - (if x.id == id then 1 else 0)
  {
    if items[0] != x {
      HeapCountWithout(items[1..], x, id);
      assert Without(items, x)[1..] == Without(items[1..], x);
    }
  }

  lemma {:induction false} HeapCountExcept(items: seq<PriorityStore.Item>, x: Id, id: Id)
    ensures HeapCount(PriorityStore.Except(items, x), id) == if x == id then 0 else HeapCount(items, id)
  {
    if items != [] {
      HeapCountExcept(items[1..], x, id);
      if items[0].id != x {
        assert PriorityStore.Except(items, x)[1..] == PriorityStore.Except(items[1..], x);
      }
    }
  }

  lemma {:induction false} PopNextDueShrinks(entries: map<Id, Entry>, d: Dict, now: Time, byPriority: bool, x: Id)
    requires d.Valid()
    ensures
      var (d', r) := PopNextDue(entries, d, now, byPriority);
      x in d'.vals ==> x in d.vals && d'.vals[x] == d.vals[x]
    decreases |d.order|
  {
    var candidates := Candidates(d, now);
    if candidates != [] {
      var stale := StaleIn(entries, candidates);
      PopAllPrunes(d, stale);
      var rest := PopAll(d, stale);
      if QueuedIn(entries, candidates) == [] {
        assert candidates[0] in stale && stale[0] in d.order;
        PopNextDueShrinks(entries, rest, now, byPriority, x);
      }
    }
  }

  // ---- Each call keeps every id sound ----

  lemma PushReadyCounts(st: Store, id: Id, priority: int, x: Id)
    ensures Waiting(PushReady(st, id, priority), x) == Waiting(st, x) + if x == id then 1 else 0
  {
    CountAppend(st.pending, id, x);
    HeapCountAppend(st.heap.items, PriorityStore.Item(priority, st.heap.counter + 1, id), x);
  }

  lemma StoreEntryKeeps(st: Store, id: Id, at: Time, priority: int, availableAt: Time, x: Id)
    requires Sound(st, x) && (x == id ==> id !in st.born)
    ensures Sound(StoreEntry(st, id, at, priority, availableAt), x)
  {
  }

  lemma EnqueueKeeps(st: Store, id: Id, at: Time, priority: int, x: Id)
    requires Sound(st, x) && (x == id ==> id !in st.born)
    ensures Sound(Enqueue(st, id, at, priority), x)
  {
    PushReadyCounts(NewRecord(st, id, at, priority), id, priority, x);
  }

  /** Placing an id moves it from the unplaced ones to one waiting copy. */
  lemma PlaceAt(st: Store, id: Id, now: Time, x: Id)
    requires Places(st, x) <= 1 && id in st.unplaced
    ensures
      var st' := Place(st, id, now);
      && st' == st.(pending := st'.pending, heap := st'.heap, scheduled := st'.scheduled,
                    unplaced := st.unplaced - {id}, latest := Max(st.latest, now),
                    asked := st.asked[id := st.unplaced[id].availableAt])
      && Waiting(st', x) == Waiting(st, x) + if x == id then 1 else 0
  {
    var placed := st.(unplaced := st.unplaced - {id}, latest := Max(st.latest, now),
                      asked := st.asked[id := st.unplaced[id].availableAt]);
    PushReadyCounts(placed, id, st.unplaced[id].priority, x);
  }

  lemma PlaceKeeps(st: Store, id: Id, now: Time, x: Id)
    requires Sound(st, x) && id in st.unplaced
    ensures Sound(Place(st, id, now), x)
  {
    hide Count, HeapCount, WellFormed, IsPath;
    PlaceAt(st, id, now, x);
  }

  /** What a promotion does to one id. */
  lemma PromoteAt(st: Store, now: Time, x: Id)
    ensures
      var st' := Promote(st, now);
      var r := PopNextDue(st.entries, st.scheduled, now, st.byPriority).1;
      && (r == Some(x) ==>
            && x in st.scheduled.vals && st.scheduled.vals[x] <= now && x !in st'.scheduled.vals
            && Waiting(st', x) == Waiting(st, x))
      && (r != Some(x) ==>
            && (x in st'.scheduled.vals ==> x in st.scheduled.vals && st'.scheduled.vals[x] == st.scheduled.vals[x])
            && Waiting(st', x) == Waiting(st, x)
               - (if x in st.scheduled.vals && x !in st'.scheduled.vals then 1 else 0))
  {
    var (d, r) := PopNextDue(st.entries, st.scheduled, now, st.byPriority);
    PopNextDueTakesFirst(st.entries, st.scheduled, now, st.byPriority);
    PopNextDueShrinks(st.entries, st.scheduled, now, st.byPriority, x);
    var rest := st.(scheduled := d, latest := Max(st.latest, now));
    if r.Some? {
      assert r.value in Ready(st.entries, st.scheduled, now) && r.value !in Ready(st.entries, d, now);
      PopNextDueShrinks(st.entries, st.scheduled, now, st.byPriority, r.value);
      PushReadyCounts(rest, r.value, st.entries[r.value].priority, x);
    }
  }

  lemma PromoteFrame(st: Store, now: Time)
    ensures
      var st' := Promote(st, now);
      && st' == st.(pending := st'.pending, heap := st'.heap, scheduled := st'.scheduled, latest := st'.latest)
      && st'.latest == Max(st.latest, now)
  {
  }

  lemma PromoteKeeps(st: Store, now: Time, x: Id)
    requires Sound(st, x)
    ensures Sound(Promote(st, now), x)
  {
    hide Promote, PopNextDue, Waiting, Count, WellFormed, IsPath;
    PromoteFrame(st, now);
    PromoteAt(st, now, x);
    assert Waiting(Promote(st, now), x) <= Waiting(st, x);
  }

  lemma PopReadyAt(st: Store, x: Id)
    ensures
      var (st', r) := PopReady(st);
      && st' == st.(pending := st'.pending, heap := st'.heap, taken := st'.taken)
      && Waiting(st', x) + Count(st'.taken, x) <= Waiting(st, x) + Count(st.taken, x)
      && Count(st'.taken, x) == Count(st.taken, x) + (if r == Some(x) then 1 else 0)
      && (r == Some(x) ==> Waiting(st', x) == Waiting(st, x) - 1 && x in st.entries)
      && (x in st.entries ==> Waiting(st', x) + Count(st'.taken, x) == Waiting(st, x) + Count(st.taken, x))
  {
    if st.byPriority && st.heap.items != [] {
      var least := PriorityStore.Least(st.heap.items);
      HeapCountWithout(st.heap.items, least, x);
      CountAppend(st.taken, least.id, x);
    } else if !st.byPriority && st.pending != [] {
      CountAppend(st.taken, st.pending[0], x);
    }
  }

  lemma DequeueKeeps(st: Store, now: Time, x: Id)
    requires Sound(st, x)
    ensures Sound(Dequeue(st, now).0, x)
  {
    PromoteKeeps(st, now, x);
    PopReadyAt(Promote(st, now), x);
  }

  lemma DiscardCounts(st: Store, id: Id, x: Id)
    requires Places(st, x) <= 1
    ensures Waiting(Discard(st, id), x) <= Waiting(st, x)
    ensures x != id ==> Waiting(Discard(st, id), x) == Waiting(st, x)
    ensures x == id && (st.byPriority ==> Count(st.pending, id) == 0) && (!st.byPriority ==> HeapCount(st.heap.items, id) == 0)
            ==> Waiting(Discard(st, id), x) == 0
  {
    CountWithout(st.pending, id, x);
    HeapCountExcept(st.heap.items, id, x);
  }

  lemma PathStep(h: seq<Status>, s: Status)
    requires IsPath(h) && s in NextStates(h[|h| - 1]) && s != Terminated
    ensures IsPath(h + [s])
  {
    assert (h + [s])[..|h|] == h;
  }

  /** Only the ready store of the queue's own kind is ever used. */
  ghost predicate OneKind(st: Store) {
    if st.byPriority then st.pending == [] else st.heap.items == []
  }

  lemma MarkedWellFormed(e: Entry, status: Status, now: Time)
    requires WellFormed(e) && status in NextStates(e.status) && status != Queued && status != Terminated
    ensures WellFormed(Marked(e, status, now))
    ensures status != Running ==> Marked(e, status, now).dispatchedAt == e.dispatchedAt
  {
  }

  lemma RewriteOtherKeeps(st: Store, id: Id, status: Status, now: Time, x: Id)
    requires Sound(st, x) && x != id && id in st.entries
    ensures Sound(Rewrite(st, id, status, now), x)
  {
  }

  lemma DiscardOtherKeeps(st: Store, id: Id, x: Id)
    requires Sound(st, x) && x != id
    ensures Sound(Discard(st, id), x)
  {
    DiscardCounts(st, id, x);
  }

  lemma FailOtherKeeps(st: Store, id: Id, now: Time, x: Id)
    requires Sound(st, x) && x != id && id in st.entries
    ensures Sound(FailQueued(st, id, now), x)
  {
    RewriteOtherKeeps(st, id, Failed, now, x);
    var mid := Rewrite(st, id, Failed, now);
    DiscardOtherKeeps(mid, id, x);
    var out := Discard(mid, id);
    assert Waiting(FailQueued(st, id, now), x) == Waiting(out, x);
  }

  /** Failing a queued entry takes it out of the ready store and the schedule. */
  lemma FailQueuedKeeps(st: Store, id: Id, now: Time)
    requires Sound(st, id) && OneKind(st) && IsQueued(st.entries, id)
    ensures Mark(st, id, Failed, now) == (FailQueued(st, id, now), true)
    ensures Sound(FailQueued(st, id, now), id) && Waiting(FailQueued(st, id, now), id) == 0
  {
    MarkedWellFormed(st.entries[id], Failed, now);
    PathStep(st.histories[id], Failed);
    DiscardCounts(st, id, id);
  }

  lemma MarkThisKeeps(st: Store, id: Id, status: Status, now: Time)
    requires Sound(st, id) && id in st.entries && status in NextStates(st.entries[id].status)
    requires status != Queued && status != Terminated && !(st.entries[id].status == Queued && status == Failed)
    requires status == Running ==> id in st.taken
    ensures Sound(Rewrite(st, id, status, now), id)
  {
    MarkedWellFormed(st.entries[id], status, now);
    PathStep(st.histories[id], status);
    CountAbsent(st.taken, id);
  }

  lemma MarkKeeps(st: Store, id: Id, status: Status, now: Time, x: Id)
    requires Sound(st, x) && OneKind(st)
    requires status != Queued && (status == Running ==> id in st.taken)
    ensures Sound(Mark(st, id, status, now).0, x)
  {
    if Mark(st, id, status, now).1 {
      if x != id {
        RewriteOtherKeeps(st, id, status, now, x);
        FailOtherKeeps(st, id, now, x);
      } else if st.entries[id].status == Queued && status == Failed {
        FailQueuedKeeps(st, id, now);
      } else {
        MarkThisKeeps(st, id, status, now);
      }
    }
  }

  lemma PruneKeeps(st: Store, id: Id, x: Id)
    requires Sound(st, x)
    ensures Sound(Prune(st, id).0, x)
  {
    CountWithout(st.pending, id, x);
    HeapCountExcept(st.heap.items, id, x);
  }

  lemma PromoteKind(st: Store, now: Time)
    requires OneKind(st)
    ensures OneKind(Promote(st, now)) && Promote(st, now).byPriority == st.byPriority
  {
  }

  lemma PopReadyKind(st: Store)
    requires OneKind(st)
    ensures OneKind(PopReady(st).0) && PopReady(st).0.byPriority == st.byPriority
  {
  }

  lemma DiscardKind(st: Store, id: Id)
    requires OneKind(st)
    ensures OneKind(Discard(st, id)) && Discard(st, id).byPriority == st.byPriority
  {
  }

  lemma PruneKind(st: Store, id: Id)
    requires OneKind(st)
    ensures OneKind(Prune(st, id).0) && Prune(st, id).0.byPriority == st.byPriority
  {
  }

  lemma KindKeeps(st: Store, op: Op)
    requires OneKind(st)
    ensures OneKind(Apply(st, op)) && Apply(st, op).byPriority == st.byPriority
  {
    match op
    case OpEnqueue(id, at, priority) =>
    case OpStore(id, at, priority, availableAt) =>
    case OpPlace(id, at) =>
    case OpDequeue(at) =>
      PromoteKind(st, at);
      PopReadyKind(Promote(st, at));
    case OpMark(id, status, at) =>
      if id in st.entries {
        DiscardKind(Rewrite(st, id, Failed, at), id);
      }
    case OpPrune(id) => PruneKind(st, id);
  }

  lemma ApplyKeeps(st: Store, op: Op, x: Id)
    requires Sound(st, x) && OneKind(st)
    ensures Sound(Apply(st, op), x)
  {
    match op
    case OpEnqueue(id, at, priority) => if id !in st.born { EnqueueKeeps(st, id, at, priority, x); }
    case OpStore(id, at, priority, availableAt) =>
      if id !in st.born {
        StoreEntryKeeps(st, id, at, priority, availableAt, x);
      }
    case OpPlace(id, at) => if id in st.unplaced { PlaceKeeps(st, id, at, x); }
    case OpDequeue(at) => DequeueKeeps(st, at, x);
    case OpMark(id, status, at) =>
      if status != Queued && (status == Running ==> id in st.taken) {
        MarkKeeps(st, id, status, at, x);
      }
    case OpPrune(id) => PruneKeeps(st, id, x);
  }

  lemma {:induction false} RunKeeps(st: Store, ops: seq<Op>, x: Id)
    requires Sound(st, x) && OneKind(st)
    ensures Sound(Run(st, ops), x) && OneKind(Run(st, ops))
    decreases |ops|
  {
    if ops != [] {
      ApplyKeeps(st, ops[0], x);
      KindKeeps(st, ops[0]);
      RunKeeps(Apply(st, ops[0]), ops[1..], x);
    }
  }

  // ---- Whole runs ----

  /** Stored histories follow the transition graph and never reach terminated; finished_at is set
      exactly on terminal records; only queued or failed records lack dispatched_at. */
  lemma LifecycleHolds(byPriority: bool, ops: seq<Op>, id: Id)
    requires id in Run(Empty(byPriority), ops).entries
    ensures
      var st := Run(Empty(byPriority), ops);
      && WellFormed(st.entries[id])
      && id in st.histories && IsPath(st.histories[id])
      && st.histories[id][|st.histories[id]| - 1] == st.entries[id].status
  {
    RunKeeps(Empty(byPriority), ops, id);
  }

  /** Each id is dequeued at most once, and an id still waiting has not been. */
  lemma DequeuedAtMostOnce(byPriority: bool, ops: seq<Op>, id: Id)
    ensures
      var st := Run(Empty(byPriority), ops);
      Count(st.taken, id) + Waiting(st, id) <= 1
  {
    RunKeeps(Empty(byPriority), ops, id);
  }

  /** A scheduled entry is never dequeued before its available_at: some clock reading up to and
      including the dequeue's own has reached it; with readings that never step back, its own has. */
  lemma NeverDispatchedEarly(byPriority: bool, ops: seq<Op>, now: Time, id: Id)
    requires
      var st := Run(Empty(byPriority), ops);
      Dequeue(st, now).1 == Some(id) && id in st.asked
    ensures
      var st := Run(Empty(byPriority), ops);
      st.asked[id] <= Max(st.latest, now) && (st.latest <= now ==> st.asked[id] <= now)
  {
    var st := Run(Empty(byPriority), ops);
    RunKeeps(Empty(byPriority), ops, id);
    PromoteKeeps(st, now, id);
    PopReadyAt(Promote(st, now), id);
  }

  lemma PromotedIsQueued(st: Store, now: Time)
    ensures
      var r := PopNextDue(st.entries, st.scheduled, now, st.byPriority).1;
      r.Some? ==> IsQueued(st.entries, r.value)
  {
    hide PopNextDue, SameOrder, Ahead;
    PopNextDueTakesFirst(st.entries, st.scheduled, now, st.byPriority);
  }

  /** Copies of `id` a dequeue could return without a promotion. */
  function ReadyCopies(st: Store, id: Id): nat {
    Count(st.pending, id) + HeapCount(st.heap.items, id)
  }

  /** An id no dequeue will return: known, not waiting to be placed, not ready, and if scheduled then
      not queued, so that no promotion picks it. */
  ghost predicate Gone(st: Store, id: Id) {
    && id in st.born && id !in st.unplaced && ReadyCopies(st, id) == 0
    && (id in st.scheduled.vals ==> !IsQueued(st.entries, id))
  }

  lemma GoneAfterEnqueue(st: Store, x: Id, at: Time, priority: int, id: Id)
    requires Gone(st, id) && x !in st.born
    ensures Gone(Enqueue(st, x, at, priority), id)
  {
    PushReadyCounts(NewRecord(st, x, at, priority), x, priority, id);
  }

  lemma GoneAfterPlace(st: Store, x: Id, at: Time, id: Id)
    requires Gone(st, id) && Places(st, id) <= 1 && x in st.unplaced
    ensures Gone(Place(st, x, at), id)
  {
    PlaceAt(st, x, at, id);
  }

  lemma GoneAfterDequeue(st: Store, at: Time, id: Id)
    requires Gone(st, id)
    ensures Gone(Dequeue(st, at).0, id) && Count(Dequeue(st, at).0.taken, id) == Count(st.taken, id)
  {
    hide Promote, PopReady, PopNextDue, Count, HeapCount;
    PromotedIsQueued(st, at);
    PromoteFrame(st, at);
    PromoteAt(st, at, id);
    PopReadyAt(Promote(st, at), id);
  }

  lemma GoneAfterRewrite(st: Store, x: Id, status: Status, at: Time, id: Id)
    requires Gone(st, id) && status != Queued && x in st.entries
    ensures Gone(Rewrite(st, x, status, at), id)
  {
  }

  lemma GoneAfterDiscard(st: Store, x: Id, id: Id)
    requires Gone(st, id)
    ensures Gone(Discard(st, x), id)
  {
    CountWithout(st.pending, x, id);
    HeapCountExcept(st.heap.items, x, id);
  }

  lemma GoneAfterMark(st: Store, x: Id, status: Status, at: Time, id: Id)
    requires Gone(st, id) && status != Queued
    ensures Gone(Mark(st, x, status, at).0, id) && Mark(st, x, status, at).0.taken == st.taken
  {
    if x in st.entries {
      hide Count, HeapCount, NextStates, Marked;
      GoneAfterRewrite(st, x, status, at, id);
      GoneAfterRewrite(st, x, Failed, at, id);
      GoneAfterDiscard(Rewrite(st, x, Failed, at), x, id);
    }
  }

  lemma GoneAfterPrune(st: Store, x: Id, id: Id)
    requires Gone(st, id)
    ensures Gone(Prune(st, x).0, id) && Prune(st, x).0.taken == st.taken
  {
    CountWithout(st.pending, x, id);
    HeapCountExcept(st.heap.items, x, id);
  }

  lemma GoneStays(st: Store, op: Op, id: Id)
    requires Gone(st, id) && Places(st, id) <= 1
    ensures Gone(Apply(st, op), id) && Count(Apply(st, op).taken, id) == Count(st.taken, id)
  {
    match op
    case OpEnqueue(x, at, priority) => if x !in st.born { GoneAfterEnqueue(st, x, at, priority, id); }
    case OpStore(x, at, priority, availableAt) =>
    case OpPlace(x, at) => if x in st.unplaced { GoneAfterPlace(st, x, at, id); }
    case OpDequeue(at) => GoneAfterDequeue(st, at, id);
    case OpMark(x, status, at) => if status != Queued { GoneAfterMark(st, x, status, at, id); }
    case OpPrune(x) => GoneAfterPrune(st, x, id);
  }

  lemma {:induction false} GoneForever(st: Store, ops: seq<Op>, id: Id)
    requires Gone(st, id) && Sound(st, id) && OneKind(st)
    ensures Count(Run(st, ops).taken, id) == Count(st.taken, id)
    decreases |ops|
  {
    if ops != [] {
      GoneStays(st, ops[0], id);
      ApplyKeeps(st, ops[0], id);
      KindKeeps(st, ops[0]);
      GoneForever(Apply(st, ops[0]), ops[1..], id);
    }
  }

  // ---- Failing an entry before it is dispatched ----

  /** Some continuation dequeues `id` again. */
  ghost predicate ComesBack(st: Store, id: Id) {
    exists ops: seq<Op> :: Count(Run(st, ops).taken, id) > Count(st.taken, id)
  }

  /** Everything a run of dequeues could still hand out. */
  function Backlog(st: Store): nat {
    |st.pending| + |st.heap.items| + |st.scheduled.order|
  }

  lemma PromoteBacklog(st: Store, now: Time)
    ensures Backlog(Promote(st, now)) <= Backlog(st)
    ensures |Promote(st, now).pending| >= |st.pending| && |Promote(st, now).heap.items| >= |st.heap.items|
  {
  }

  lemma PopReadyBacklog(st: Store)
    requires if st.byPriority then st.heap.items != [] else st.pending != []
    ensures Backlog(PopReady(st).0) < Backlog(st)
  {
    if st.byPriority {
      PriorityStore.WithoutShrinks(st.heap.items, PriorityStore.Least(st.heap.items));
    }
  }

  lemma DequeueShrinks(st: Store, now: Time, id: Id)
    requires Count(st.pending, id) + HeapCount(st.heap.items, id) > 0 && OneKind(st)
    ensures Backlog(Dequeue(st, now).0) < Backlog(st)
  {
    PromoteBacklog(st, now);
    PromoteKind(st, now);
    PopReadyBacklog(Promote(st, now));
  }

  /** A ready id with a record is handed out by enough dequeues. */
  lemma {:induction false} ReadyIsTaken(st: Store, now: Time, id: Id) returns (ops: seq<Op>)
    requires Sound(st, id) && OneKind(st) && id in st.entries && id !in st.scheduled.vals
    requires Waiting(st, id) > 0
    ensures Count(Run(st, ops).taken, id) > Count(st.taken, id)
    decreases Backlog(st)
  {
    hide Promote, PopReady, PopNextDue, IsPath, WellFormed, HeapCount;
    var st' := Dequeue(st, now).0;
    DequeueShrinks(st, now, id);
    PromoteFrame(st, now);
    PromoteAt(st, now, id);
    PopReadyAt(Promote(st, now), id);
    DequeueKeeps(st, now, id);
    KindKeeps(st, OpDequeue(now));
    if Count(st'.taken, id) > Count(st.taken, id) {
      ops := [OpDequeue(now)];
      assert Run(st, ops) == Run(Apply(st, ops[0]), ops[1..]) == st';
    } else {
      var rest := ReadyIsTaken(st', now, id);
      ops := [OpDequeue(now)] + rest;
      assert ops[1..] == rest;
    }
  }

  /** A failed entry whose enqueue is placed afterwards comes back exactly when the placing reading has
      reached its `available_at`: it is then pushed, whereas promotion drops what is not queued. */
  lemma PlacedAfterFailure(st: Store, id: Id, at: Time)
    requires Sound(st, id) && OneKind(st) && id in st.unplaced && id in st.entries && !IsQueued(st.entries, id)
    ensures ComesBack(Place(st, id, at), id) <==> st.unplaced[id].availableAt <= at
  {
    var placed := Place(st, id, at);
    PlaceAt(st, id, at, id);
    PlaceKeeps(st, id, at, id);
    KindKeeps(st, OpPlace(id, at));
    if st.unplaced[id].availableAt <= at {
      var more := ReadyIsTaken(placed, at, id);
      assert Count(Run(placed, more).taken, id) > Count(placed.taken, id);
    } else {
      forall more: seq<Op> ensures Count(Run(placed, more).taken, id) == Count(placed.taken, id) {
        GoneForever(placed, more, id);
      }
    }
  }

  lemma ComesBackLater(st: Store, op: Op, id: Id)
    requires ComesBack(Apply(st, op), id) && Apply(st, op).taken == st.taken
    ensures ComesBack(st, id)
  {
    var more: seq<Op> :| Count(Run(Apply(st, op), more).taken, id) > Count(Apply(st, op).taken, id);
    var longer := [op] + more;
    assert longer[1..] == more;
    assert Count(Run(st, longer).taken, id) > Count(st.taken, id);
  }

  /** An entry failed before dispatch is dequeued later if and only if its enqueue, made with
      `available_at`, was suspended between store and placement at that moment; and then exactly if
      the placement reads the clock at or after `available_at`. */
  lemma FailedBeforeDispatch(byPriority: bool, ops: seq<Op>, id: Id, now: Time)
    requires IsQueued(Run(Empty(byPriority), ops).entries, id)
    ensures
      var st := Run(Empty(byPriority), ops);
      var failed := Mark(st, id, Failed, now).0;
      && (ComesBack(failed, id) <==> id in st.unplaced)
      && (id in st.unplaced ==>
            && id in failed.unplaced
            && forall at :: ComesBack(Place(failed, id, at), id) <==> st.unplaced[id].availableAt <= at)
  {
    var st := Run(Empty(byPriority), ops);
    RunKeeps(Empty(byPriority), ops, id);
    var failed := Mark(st, id, Failed, now).0;
    FailQueuedKeeps(st, id, now);
    KindKeeps(st, OpMark(id, Failed, now));
    if id !in st.unplaced {
      forall more: seq<Op> ensures Count(Run(failed, more).taken, id) == Count(failed.taken, id) {
        GoneForever(failed, more, id);
      }
    } else {
      forall at ensures ComesBack(Place(failed, id, at), id) <==> st.unplaced[id].availableAt <= at {
        PlacedAfterFailure(failed, id, at);
      }
      var at := st.unplaced[id].availableAt;
      PlaceAt(failed, id, at, id);
      ComesBackLater(failed, OpPlace(id, at), id);
    }
  }

  lemma OnlyReadyIsTaken(st: Store, now: Time, id: Id)
    requires !st.byPriority && st.pending == [id] && st.scheduled.order == [] && id in st.entries
    ensures Dequeue(st, now).1 == Some(id)
  {
    assert Candidates(st.scheduled, now) == [];
  }

  lemma RunThree(st: Store, a: Op, b: Op, c: Op)
    ensures Run(st, [a, b, c]) == Apply(Apply(Apply(st, a), b), c)
  {
    hide Apply;
    assert [a, b, c][1..] == [b, c] && [b, c][1..] == [c] && [c][1..] == [];
    assert Run(st, [a, b, c]) == Run(Apply(st, a), [b, c]) == Run(Apply(Apply(st, a), b), [c]);
    assert Run(Apply(Apply(st, a), b), [c]) == Run(Apply(Apply(Apply(st, a), b), c), []);
  }

  /** Such a run: enqueued for instant 5, failed while suspended, placed at 5, and dequeued failed. */
  lemma FailedEntryIsDequeued()
    ensures
      var st := Run(Empty(false), [OpStore(7, 0, 0, 5), OpMark(7, Failed, 1), OpPlace(7, 5)]);
      Dequeue(st, 6).1 == Some(7) && 7 in st.entries && st.entries[7].status == Failed
  {
    hide Dequeue, Run;
    RunThree(Empty(false), OpStore(7, 0, 0, 5), OpMark(7, Failed, 1), OpPlace(7, 5));
    var s1 := StoreEntry(Empty(false), 7, 0, 0, 5);
    var s2 := Mark(s1, 7, Failed, 1).0;
    assert s2 == FailQueued(s1, 7, 1) && s2.unplaced == s1.unplaced;
    var s3 := Place(s2, 7, 5);
    assert s3.pending == [7] && s3.scheduled.order == [];
    OnlyReadyIsTaken(s3, 6, 7);
  }

  // ---- Draining due work ----

  function Dequeues(st: Store, now: Time, n: nat): (Store, seq<Id>)
    decreases n
  {
    if n == 0 then (st, [])
    else
      var (st', r) := Dequeue(st, now);
      if r.None? then (st', [])
      else
        var (end, rest) := Dequeues(st', now, n - 1);
        (end, [r.value] + rest)
  }

  /** With nothing ready, a dequeue promotes one due entry and returns it. */
  lemma DequeuePromoted(st: Store, now: Time)
    requires st.pending == [] && st.heap.items == []
    ensures
      var (d, r) := PopNextDue(st.entries, st.scheduled, now, st.byPriority);
      var (st', got) := Dequeue(st, now);
      && got == r && st'.scheduled == d && st'.entries == st.entries && st'.byPriority == st.byPriority
      && st'.pending == [] && st'.heap.items == []
  {
    hide PopNextDue;
    PromotedIsQueued(st, now);
  }

  /** One dequeue of the run and one promotion of the drain, side by side. */
  lemma DrainsAlike(st: Store, now: Time, n: nat) returns (st': Store, r: Option<Id>)
    requires st.pending == [] && st.heap.items == [] && n > 0
    ensures Dequeues(st, now, n).1 == if r.None? then [] else [r.value] + Dequeues(st', now, n - 1).1
    ensures DrainDue(st.entries, st.scheduled, now, st.byPriority) ==
            if r.None? then [] else [r.value] + DrainDue(st'.entries, st'.scheduled, now, st'.byPriority)
    ensures st'.pending == [] && st'.heap.items == []
    ensures r.Some? ==> |st'.scheduled.order| < |st.scheduled.order|
  {
    DequeuePromoted(st, now);
    var step := Dequeue(st, now);
    st', r := step.0, step.1;
  }

  lemma {:induction false} DequeuesDrain(st: Store, now: Time, n: nat)
    requires st.pending == [] && st.heap.items == [] && n > |st.scheduled.order|
    ensures Dequeues(st, now, n).1 == DrainDue(st.entries, st.scheduled, now, st.byPriority)
    decreases n
  {
    hide *;
    var st', r := DrainsAlike(st, now, n);
    if r.Some? {
      DequeuesDrain(st', now, n - 1);
    }
  }

  /** Repeated dequeues from empty ready stores at one clock reading return exactly the due queued
      entries, each once, by availability, then priority (priority queues), then arrival. */
  lemma DequeuesAreOrdered(st: Store, now: Time, n: nat)
    requires st.pending == [] && st.heap.items == [] && n > |st.scheduled.order|
    ensures
      var out := Dequeues(st, now, n).1;
      && (forall x :: x in out <==> x in Ready(st.entries, st.scheduled, now))
      && Distinct(out)
      && InOrder(st.entries, st.scheduled, st.byPriority, out)
  {
    DequeuesDrain(st, now, n);
    DrainDueIsOrdered(st.entries, st.scheduled, now, st.byPriority);
  }
}
