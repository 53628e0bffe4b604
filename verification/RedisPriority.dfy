/**
 The Redis priority store: one number per member, `priority * 2^32 - sequence`, and a sequence
 counter that goes back to zero whenever the store drains. It is compared with the in-memory
 heap, whose counter never resets.
 */
module RedisPriority {
  import opened Prelude
  import PriorityStore

  const SEQUENCE_SPACE: int := 0x1_0000_0000
  const EXACT_LIMIT: int := 0x20_0000_0000_0000   // 2^53
  const MAX_PRIORITY_MAGNITUDE: int := 100_000

  /** `validate_redis_priority_magnitude`. */
  predicate ValidPriority(priority: int) { -MAX_PRIORITY_MAGNITUDE <= priority <= MAX_PRIORITY_MAGNITUDE }

  function Score(priority: int, sequence: int): int {
    priority * SEQUENCE_SPACE - sequence
  }

  /** Scores are exact doubles, never collide, and sort like the heap's tuples. */
  lemma ScoreRefinesTuple(p: int, s: int, q: int, t: int)
    requires ValidPriority(p) && ValidPriority(q) && 1 <= s < SEQUENCE_SPACE && 1 <= t < SEQUENCE_SPACE
    ensures -EXACT_LIMIT < Score(p, s) < EXACT_LIMIT
    ensures Score(p, s) == Score(q, t) <==> p == q && s == t
    ensures Score(p, s) > Score(q, t) <==> p > q || (p == q && s < t)
  {
  }

  /** Exactly which pairs of sequence numbers are safe: the packed order agrees with the tuple order,
      both ways round and for all priorities, if and only if they lie less than 2^32 apart. */
  lemma ScoreOrderIff(s: int, t: int)
    ensures (forall p: int, q: int {:trigger Score(p, s), Score(q, t)} ::
               && (Score(p, s) > Score(q, t) <==> p > q || (p == q && s < t))
               && (Score(q, t) > Score(p, s) <==> q > p || (p == q && t < s)))
            <==> -SEQUENCE_SPACE < s - t < SEQUENCE_SPACE
  {
    if s - t >= SEQUENCE_SPACE {
      assert !(Score(1, s) > Score(0, t));
    } else if s - t <= -SEQUENCE_SPACE {
      assert !(Score(1, t) > Score(0, s));
    }
  }

  // ---- The store ----

  /** The ZSET and its counter. `members` is history: who is in the ZSET, by arrival, with the
      sequence number each was given. */
  datatype Store = Store(scores: map<Id, int>, counter: nat, members: seq<PriorityStore.Item>)

  const EMPTY := Store(map[], 0, [])

  function Push(st: Store, id: Id, priority: int): Store {
    var sequence := st.counter + 1;
    Store(st.scores[id := Score(priority, sequence)], sequence,
          st.members + [PriorityStore.Item(priority, sequence, id)])
  }

  /** Dropping a member resets the counter when nothing is left. */
  function Drop(st: Store, id: Id): Store {
    var scores := st.scores - {id};
    Store(scores, if scores == map[] then 0 else st.counter, PriorityStore.Except(st.members, id))
  }

  /** A member no other outscores. */
  predicate IsTop(scores: map<Id, int>, id: Id) {
    id in scores && forall x :: x in scores ==> scores[x] <= scores[id]
  }

  ghost function Top(scores: map<Id, int>): (id: Id)
    requires scores != map[]
    ensures IsTop(scores, id)
    decreases |scores|
  {
    assert scores.Keys != {};
    var k :| k in scores.Keys;
    var rest := scores - {k};
    assert scores.Keys == rest.Keys + {k};
    if rest == map[] then k
    else
      var t := Top(rest);
      if scores[k] <= scores[t] then t else k
  }

  ghost predicate DistinctIds(items: seq<PriorityStore.Item>) {
    forall i, j :: 0 <= i < j < |items| ==> items[i].id != items[j].id
  }

  function Ids(items: seq<PriorityStore.Item>): set<Id> {
    if items == [] then {} else {items[0].id} + Ids(items[1..])
  }

  lemma {:induction false} IdsAppend(items: seq<PriorityStore.Item>, x: PriorityStore.Item)
    ensures Ids(items + [x]) == Ids(items) + {x.id}
  {
    if items != [] {
      assert (items + [x])[1..] == items[1..] + [x];
      IdsAppend(items[1..], x);
    }
  }

  lemma {:induction false} IdsExcept(items: seq<PriorityStore.Item>, id: Id)
    ensures Ids(PriorityStore.Except(items, id)) == Ids(items) - {id}
  {
    if items != [] {
      IdsExcept(items[1..], id);
      if items[0].id != id {
        assert PriorityStore.Except(items, id)[1..] == PriorityStore.Except(items[1..], id);
      }
    }
  }

  lemma {:induction false} IdsMember(items: seq<PriorityStore.Item>, id: Id) returns (x: PriorityStore.Item)
    requires id in Ids(items)
    ensures x in items && x.id == id
  {
    if items[0].id == id {
      x := items[0];
    } else {
      x := IdsMember(items[1..], id);
    }
  }

  /** The counter bounds every stored sequence, all of them distinct, and is zero when empty. */
  ghost predicate Inv(st: Store) {
    && PriorityStore.ByArrival(st.members)
    && DistinctIds(st.members)
    && (forall x :: x in st.members ==> 1 <= x.sequence <= st.counter && ValidPriority(x.priority))
    && (forall x :: x in st.members ==> x.id in st.scores && st.scores[x.id] == Score(x.priority, x.sequence))
    && st.scores.Keys == Ids(st.members)
    && (st.members == [] ==> st.counter == 0)
  }

  lemma PushKeeps(st: Store, id: Id, priority: int)
    requires Inv(st) && ValidPriority(priority) && id !in st.scores
    ensures Inv(Push(st, id, priority))
  {
    var st' := Push(st, id, priority);
    var added := PriorityStore.Item(priority, st.counter + 1, id);
    assert DistinctIds(st'.members) by {
      assert forall i :: 0 <= i < |st.members| ==> st.members[i] in st.members;
    }
    IdsAppend(st.members, added);
  }

  lemma {:induction false} ExceptDistinct(items: seq<PriorityStore.Item>, id: Id)
    requires DistinctIds(items)
    ensures DistinctIds(PriorityStore.Except(items, id))
    ensures forall x :: x in PriorityStore.Except(items, id) <==> x in items && x.id != id
  {
    if items != [] {
      ExceptDistinct(items[1..], id);
      assert items == [items[0]] + items[1..];
      var rest := PriorityStore.Except(items[1..], id);
      forall x | x in rest ensures x.id != items[0].id {
        assert x in items[1..];
      }
    }
  }

  lemma DropKeeps(st: Store, id: Id)
    requires Inv(st)
    ensures Inv(Drop(st, id))
  {
    var st' := Drop(st, id);
    PriorityStore.ExceptKeepsOrder(st.members, id);
    ExceptDistinct(st.members, id);
    IdsExcept(st.members, id);
    if st'.members != [] {
      assert st'.members[0] in st'.members;
    }
  }

  /** A new push sorts after every member of equal priority, however often the store has drained. */
  lemma PushSortsLast(st: Store, id: Id, priority: int, x: PriorityStore.Item)
    requires Inv(st) && x in st.members && x.priority == priority
    ensures st.scores[x.id] > Score(priority, st.counter + 1)
  {
  }

  /** The best score belongs to the least tuple. */
  lemma TopIsLeast(st: Store, id: Id)
    requires Inv(st) && st.members != [] && st.counter < SEQUENCE_SPACE
    ensures IsTop(st.scores, id) <==> id == PriorityStore.Least(st.members).id
  {
    var least := PriorityStore.Least(st.members);
    PriorityStore.LeastIsLeast(st.members);
    forall k | k in st.scores ensures st.scores[k] <= st.scores[least.id] {
      var x := IdsMember(st.members, k);
      ScoreRefinesTuple(least.priority, least.sequence, x.priority, x.sequence);
    }
    if IsTop(st.scores, id) {
      var x := IdsMember(st.members, id);
      ScoreRefinesTuple(least.priority, least.sequence, x.priority, x.sequence);
    }
  }

  // ---- Side by side with the in-memory heap ----

  datatype Both = Both(redis: Store, memory: PriorityStore.Store)

  const BOTH_EMPTY := Both(EMPTY, PriorityStore.Store([], 0))

  /** The same call on both stores. Ids are pushed once; an out-of-range priority raises. */
  ghost function Apply(b: Both, op: PriorityStore.Op): Both {
    match op
    case OpPush(id, p) =>
      if !ValidPriority(p) || id in b.redis.scores then b
      else Both(Push(b.redis, id, p), PriorityStore.Push(b.memory, id, p))
    case OpPop =>
      Both(if b.redis.scores == map[] then b.redis else Drop(b.redis, Top(b.redis.scores)),
           PriorityStore.Apply(b.memory, op))
    case OpDiscard(id) => Both(Drop(b.redis, id), PriorityStore.Discard(b.memory, id))
  }

  ghost function Run(b: Both, ops: seq<PriorityStore.Op>): Both
    decreases |ops|
  {
    if ops == [] then b else Run(Apply(b, ops[0]), ops[1..])
  }

  /** Fewer than 2^32 pushes since the store was last empty, at every step. */
  ghost predicate HasRoom(b: Both, ops: seq<PriorityStore.Op>)
    decreases |ops|
  {
    b.redis.counter < SEQUENCE_SPACE && (ops != [] ==> HasRoom(Apply(b, ops[0]), ops[1..]))
  }

  /** Same members, same priorities, same arrival order; only the sequence numbers differ. */
  ghost predicate SameArrivals(a: seq<PriorityStore.Item>, b: seq<PriorityStore.Item>) {
    |a| == |b| && forall i :: 0 <= i < |a| ==> a[i].id == b[i].id && a[i].priority == b[i].priority
  }

  lemma {:induction false} SameLeast(a: seq<PriorityStore.Item>, b: seq<PriorityStore.Item>)
    requires SameArrivals(a, b) && a != [] && PriorityStore.ByArrival(a) && PriorityStore.ByArrival(b)
    ensures PriorityStore.Least(a).id == PriorityStore.Least(b).id
    ensures PriorityStore.Least(a).priority == PriorityStore.Least(b).priority
  {
    if |a| > 1 {
      SameLeast(a[1..], b[1..]);
      assert PriorityStore.Least(a[1..]) in a[1..] && PriorityStore.Least(b[1..]) in b[1..];
    }
  }

  lemma {:induction false} SameExcept(a: seq<PriorityStore.Item>, b: seq<PriorityStore.Item>, id: Id)
    requires SameArrivals(a, b)
    ensures SameArrivals(PriorityStore.Except(a, id), PriorityStore.Except(b, id))
  {
    if a != [] {
      SameExcept(a[1..], b[1..], id);
    }
  }

  lemma {:induction false} ExceptAbsent(items: seq<PriorityStore.Item>, id: Id)
    requires forall x :: x in items ==> x.id != id
    ensures PriorityStore.Except(items, id) == items
  {
    if items != [] {
      ExceptAbsent(items[1..], id);
    }
  }

  lemma {:induction false} PopIsExcept(items: seq<PriorityStore.Item>, x: PriorityStore.Item)
    requires x in items && DistinctIds(items)
    ensures Without(items, x) == PriorityStore.Except(items, x.id)
  {
    if items[0] == x {
      ExceptAbsent(items[1..], x.id);
    } else {
      PopIsExcept(items[1..], x);
    }
  }

  ghost predicate Agree(b: Both) {
    && Inv(b.redis)
    && PriorityStore.Inv(b.memory)
    && SameArrivals(b.memory.items, b.redis.members)
  }

  lemma PopAgrees(b: Both)
    requires Agree(b) && b.redis.counter < SEQUENCE_SPACE
    ensures b.memory.items == [] <==> b.redis.scores == map[]
    ensures b.memory.items != [] ==> Top(b.redis.scores) == PriorityStore.Least(b.memory.items).id
    ensures Agree(Apply(b, PriorityStore.OpPop))
  {
    if b.memory.items == [] {
      assert b.redis.scores.Keys == {};
    } else {
      assert b.redis.members[0] in b.redis.members;
      var id := Top(b.redis.scores);
      TopIsLeast(b.redis, id);
      SameLeast(b.memory.items, b.redis.members);
      var least := PriorityStore.Least(b.memory.items);
      PopIsExcept(b.memory.items, least);
      SameExcept(b.memory.items, b.redis.members, id);
      DropKeeps(b.redis, id);
      PriorityStore.ApplyKeeps(b.memory, PriorityStore.OpPop);
    }
  }

  lemma ApplyAgrees(b: Both, op: PriorityStore.Op)
    requires Agree(b) && b.redis.counter < SEQUENCE_SPACE
    ensures Agree(Apply(b, op))
  {
    PriorityStore.ApplyKeeps(b.memory, op);
    match op
    case OpPush(id, p) => if ValidPriority(p) && id !in b.redis.scores { PushKeeps(b.redis, id, p); }
    case OpPop => PopAgrees(b);
    case OpDiscard(id) =>
      DropKeeps(b.redis, id);
      SameExcept(b.memory.items, b.redis.members, id);
  }

  lemma {:induction false} RunAgrees(b: Both, ops: seq<PriorityStore.Op>)
    requires Agree(b) && HasRoom(b, ops)
    ensures Agree(Run(b, ops)) && Run(b, ops).redis.counter < SEQUENCE_SPACE
    decreases |ops|
  {
    if ops != [] {
      ApplyAgrees(b, ops[0]);
      RunAgrees(Apply(b, ops[0]), ops[1..]);
    }
  }

  /** After any shared history of pushes, pops and discards, across any number of drains and counter
      resets, the Redis store and the in-memory heap pop the same id next. */
  lemma StoresPopTheSame(ops: seq<PriorityStore.Op>)
    requires HasRoom(BOTH_EMPTY, ops)
    ensures
      var b := Run(BOTH_EMPTY, ops);
      && (b.memory.items == [] <==> b.redis.scores == map[])
      && (b.memory.items != [] ==>
            forall id :: IsTop(b.redis.scores, id) <==> id == PriorityStore.Least(b.memory.items).id)
  {
    RunAgrees(BOTH_EMPTY, ops);
    var b := Run(BOTH_EMPTY, ops);
    PopAgrees(b);
    if b.memory.items != [] {
      SameLeast(b.memory.items, b.redis.members);
      forall id ensures IsTop(b.redis.scores, id) <==> id == PriorityStore.Least(b.memory.items).id {
        TopIsLeast(b.redis, id);
      }
    }
  }

  /** The Redis store keeps its invariant by itself, however many pushes it has seen. */
  lemma {:induction false} RunKeeps(b: Both, ops: seq<PriorityStore.Op>)
    requires Inv(b.redis)
    ensures Inv(Run(b, ops).redis)
    decreases |ops|
  {
    if ops != [] {
      hide Inv;
      match ops[0] {
        case OpPush(id, p) => if ValidPriority(p) && id !in b.redis.scores { PushKeeps(b.redis, id, p); }
        case OpPop => if b.redis.scores != map[] { DropKeeps(b.redis, Top(b.redis.scores)); }
        case OpDiscard(id) => DropKeeps(b.redis, id);
      }
      RunKeeps(Apply(b, ops[0]), ops[1..]);
    }
  }

  /** In every reachable state the stored sequence numbers are distinct and at most the counter, the
      counter is zero once the store is empty, and a push sorts after all its equals. */
  lemma CounterContract(ops: seq<PriorityStore.Op>, id: Id, p: int)
    requires ValidPriority(p) && id !in Run(BOTH_EMPTY, ops).redis.scores
    ensures
      var st := Run(BOTH_EMPTY, ops).redis;
      && PriorityStore.ByArrival(st.members)
      && st.scores.Keys == Ids(st.members)
      && (forall x :: x in st.members ==> 1 <= x.sequence <= st.counter)
      && (st.scores == map[] ==> st.counter == 0)
      && (forall x :: x in st.members && x.priority == p ==>
            x.id in st.scores && Push(st, id, p).scores[id] < Push(st, id, p).scores[x.id])
  {
    RunKeeps(BOTH_EMPTY, ops);
    var st := Run(BOTH_EMPTY, ops).redis;
    assert st.members != [] ==> st.members[0].id in st.scores.Keys;
    forall x | x in st.members && x.priority == p
      ensures x.id in st.scores && Push(st, id, p).scores[id] < Push(st, id, p).scores[x.id]
    {
      PushSortsLast(st, id, p, x);
    }
  }
}
