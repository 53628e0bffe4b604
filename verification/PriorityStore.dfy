/** The tracked priority store of the in-memory provider: a heap of (-priority, sequence, id). */
module PriorityStore {
  import opened Prelude

  datatype Item = Item(priority: int, sequence: nat, id: Id)

  /** Tuple order of (-priority, sequence, id). */
  predicate Before(a: Item, b: Item) {
    || a.priority > b.priority
    || (a.priority == b.priority && a.sequence < b.sequence)
    || (a.priority == b.priority && a.sequence == b.sequence && a.id < b.id)
  }

  /** The store's members listed by arrival; `heapq` keeps them in a layout of its own. */
  datatype Store = Store(items: seq<Item>, counter: nat)

  /** `apush_priority`, and the push made by `apromote_scheduled_priority`. */
  function Push(st: Store, id: Id, priority: int): Store {
    Store(st.items + [Item(priority, st.counter + 1, id)], st.counter + 1)
  }

  /** The heap's least tuple. */
  function Least(items: seq<Item>): (x: Item)
    requires items != []
    ensures x in items
  {
    if |items| == 1 then items[0]
    else
      var rest := Least(items[1..]);
      if Before(rest, items[0]) then rest else items[0]
  }

  /** `apop_priority`. */
  function Pop(st: Store): Store
    requires st.items != []
  {
    st.(items := Without(st.items, Least(st.items)))
  }

  function Except(items: seq<Item>, id: Id): seq<Item> {
    if items == [] then []
    else if items[0].id == id then Except(items[1..], id)
    else [items[0]] + Except(items[1..], id)
  }

  /** `adiscard_priority`: rebuild the heap without `id`. */
  function Discard(st: Store, id: Id): Store {
    st.(items := Except(st.items, id))
  }

  lemma {:induction false} WithoutShrinks(items: seq<Item>, x: Item)
    requires x in items
    ensures |Without(items, x)| == |items| - 1
  {
    if items[0] != x {
      WithoutShrinks(items[1..], x);
    }
  }

  /** Pop until empty. */
  function Drain(items: seq<Item>): seq<Item>
    decreases |items|
  {
    if items == [] then []
    else
      var x := Least(items);
      WithoutShrinks(items, x);
      [x] + Drain(Without(items, x))
  }

  // ---- The reference: a stable sort that looks at priorities only ----

  predicate NotBelow(a: Item, b: Item) { a.priority >= b.priority }

  /** Higher priority first; equal priorities stay in list order. */
  function StableSort(items: seq<Item>): seq<Item> {
    SortBy(NotBelow, items)
  }

  ghost predicate ByArrival(items: seq<Item>) {
    forall i, j :: 0 <= i < j < |items| ==> items[i].sequence < items[j].sequence
  }

  /** What every history of pushes, pops and discards keeps. */
  ghost predicate Inv(st: Store) {
    ByArrival(st.items) && forall x :: x in st.items ==> 1 <= x.sequence <= st.counter
  }

  lemma {:induction false} LeastIsLeast(items: seq<Item>)
    requires items != []
    ensures forall y :: y in items && y != Least(items) ==> Before(Least(items), y)
  {
    if |items| > 1 {
      LeastIsLeast(items[1..]);
      assert items == [items[0]] + items[1..];
    }
  }

  lemma ConsKeepsOrder(x: Item, items: seq<Item>)
    requires ByArrival(items) && forall y :: y in items ==> x.sequence < y.sequence
    ensures ByArrival([x] + items)
  {
  }

  lemma {:induction false} WithoutKeepsOrder(items: seq<Item>, x: Item)
    requires ByArrival(items)
    ensures ByArrival(Without(items, x)) && forall y :: y in Without(items, x) ==> y in items
  {
    if items != [] {
      WithoutKeepsOrder(items[1..], x);
      assert forall y :: y in items[1..] ==> y in items && items[0].sequence < y.sequence;
      if items[0] != x {
        ConsKeepsOrder(items[0], Without(items[1..], x));
      }
    }
  }

  lemma {:induction false} ExceptKeepsOrder(items: seq<Item>, id: Id)
    requires ByArrival(items)
    ensures ByArrival(Except(items, id)) && forall y :: y in Except(items, id) <==> y in items && y.id != id
  {
    if items != [] {
      ExceptKeepsOrder(items[1..], id);
      assert items == [items[0]] + items[1..];
    }
  }

  /** The heap's minimum is the head of the stable sort, and popping it sorts the rest. */
  lemma {:induction false} SortHead(items: seq<Item>)
    requires items != [] && ByArrival(items)
    ensures StableSort(items) == [Least(items)] + StableSort(Without(items, Least(items)))
  {
    var x, rest := items[0], items[1..];
    if rest != [] {
      SortHead(rest);
      var h := Least(rest);
      assert h in rest && h.sequence > x.sequence;
      if Before(h, x) {
        assert Without(items, h) == [x] + Without(rest, h);
        assert StableSort(items) == [h] + InsertBy(NotBelow, x, StableSort(Without(rest, h)));
      }
    }
  }

  /** Draining the heap is exactly the stable sort of its members by arrival. */
  lemma {:induction false} DrainIsStableSort(items: seq<Item>)
    requires ByArrival(items)
    ensures Drain(items) == StableSort(items)
    decreases |items|
  {
    if items != [] {
      SortHead(items);
      WithoutKeepsOrder(items, Least(items));
      WithoutShrinks(items, Least(items));
      DrainIsStableSort(Without(items, Least(items)));
    }
  }

  ghost predicate Descending(s: seq<Item>) {
    SortedBy(NotBelow, s)
  }

  lemma {:induction false} ExceptInsert(x: Item, s: seq<Item>, id: Id)
    requires Descending(s)
    ensures Except(InsertBy(NotBelow, x, s), id) ==
            if x.id == id then Except(s, id) else InsertBy(NotBelow, x, Except(s, id))
  {
    if s == [] || x.priority >= s[0].priority {
      assert InsertBy(NotBelow, x, s)[1..] == s;
      ExceptHead(s, id);
    } else {
      ExceptInsert(x, s[1..], id);
      assert InsertBy(NotBelow, x, s)[1..] == InsertBy(NotBelow, x, s[1..]);
      if s[0].id != id {
        assert Except(s, id)[1..] == Except(s[1..], id);
      }
    }
  }

  /** Filtering keeps every member's priority at most the original head's. */
  lemma {:induction false} ExceptHead(s: seq<Item>, id: Id)
    requires Descending(s)
    ensures Except(s, id) != [] ==> s != [] && s[0].priority >= Except(s, id)[0].priority
  {
    if s != [] {
      ExceptHead(s[1..], id);
    }
  }

  lemma {:induction false} SortExcept(items: seq<Item>, id: Id)
    ensures StableSort(Except(items, id)) == Except(StableSort(items), id)
  {
    if items != [] {
      SortExcept(items[1..], id);
      SortByIs(NotBelow, items[1..]);
      ExceptInsert(items[0], StableSort(items[1..]), id);
      if items[0].id != id {
        assert Except(items, id)[1..] == Except(items[1..], id);
      }
    }
  }

  /** Discarding one id leaves the drain order of all others as it was. */
  lemma DiscardKeepsDrainOrder(items: seq<Item>, id: Id)
    requires ByArrival(items)
    ensures Drain(Except(items, id)) == Except(Drain(items), id)
  {
    ExceptKeepsOrder(items, id);
    DrainIsStableSort(items);
    DrainIsStableSort(Except(items, id));
    SortExcept(items, id);
  }

  // ---- Histories ----

  datatype Op = OpPush(id: Id, priority: int) | OpPop | OpDiscard(id: Id)

  function Apply(st: Store, op: Op): Store {
    match op
    case OpPush(id, priority) => Push(st, id, priority)
    case OpPop => if st.items == [] then st else Pop(st)
    case OpDiscard(id) => Discard(st, id)
  }

  function Run(st: Store, ops: seq<Op>): Store
    decreases |ops|
  {
    if ops == [] then st else Run(Apply(st, ops[0]), ops[1..])
  }

  lemma ApplyKeeps(st: Store, op: Op)
    requires Inv(st)
    ensures Inv(Apply(st, op))
  {
    if op.OpPop? && st.items != [] {
      WithoutKeepsOrder(st.items, Least(st.items));
    } else if op.OpDiscard? {
      ExceptKeepsOrder(st.items, op.id);
    }
  }

  lemma {:induction false} RunKeeps(st: Store, ops: seq<Op>)
    requires Inv(st)
    ensures Inv(Run(st, ops))
    decreases |ops|
  {
    if ops != [] {
      ApplyKeeps(st, ops[0]);
      RunKeeps(Apply(st, ops[0]), ops[1..]);
    }
  }

  /** After any history, draining is the stable sort by priority of the members in arrival order,
      and discarding an id only removes it from that order. */
  lemma DrainAfterAnyHistory(ops: seq<Op>, id: Id)
    ensures
      var items := Run(Store([], 0), ops).items;
      && Drain(items) == StableSort(items)
      && Descending(Drain(items))
      && Drain(Except(items, id)) == Except(Drain(items), id)
  {
    RunKeeps(Store([], 0), ops);
    var items := Run(Store([], 0), ops).items;
    DrainIsStableSort(items);
    SortByIs(NotBelow, items);
    DiscardKeepsDrainOrder(items, id);
  }
}
