/** Shared vocabulary: options, duplicate-free sequences and insertion-ordered dictionaries. */
module Prelude {
  /** Instants and durations are whole microseconds. */
  type Time = int

  /** Identifiers are opaque, fresh and ordered, as UUIDv7 values are. */
  type Id = nat

  datatype Option<+T> = None | Some(value: T)

  ghost predicate Distinct<T>(s: seq<T>) {
    forall i, j :: 0 <= i < j < |s| ==> s[i] != s[j]
  }

  /** `list.remove`: drop the first occurrence, or nothing. */
  function Without<T(==)>(s: seq<T>, x: T): seq<T> {
    if s == [] then [] else if s[0] == x then s[1..] else [s[0]] + Without(s[1..], x)
  }

  lemma DistinctTail<T>(s: seq<T>)
    requires Distinct(s) && s != []
    ensures s[0] !in s[1..] && Distinct(s[1..])
  {
    forall j | 0 <= j < |s[1..]| ensures s[1..][j] != s[0] {
      assert s[1..][j] == s[j + 1];
    }
  }

  lemma {:induction false} WithoutKeeps<T>(s: seq<T>, x: T)
    requires Distinct(s)
    ensures Distinct(Without(s, x))
    ensures forall y :: y in Without(s, x) <==> y in s && y != x
  {
    if s != [] {
      WithoutKeeps(s[1..], x);
      assert s == [s[0]] + s[1..] && s[0] !in s[1..];
      if s[0] != x {
        assert s[0] !in Without(s[1..], x);
      }
    }
  }

  lemma {:induction false} WithoutAbsent<T>(s: seq<T>, x: T)
    requires x !in s
    ensures Without(s, x) == s
  {
    if s != [] {
      WithoutAbsent(s[1..], x);
    }
  }

  lemma {:induction false} WithoutAt<T>(s: seq<T>, i: nat, x: T)
    requires i < |s| && s[i] == x && x !in s[..i]
    ensures Without(s, x) == s[..i] + s[i + 1..]
  {
    if i > 0 {
      assert s[..i][0] == s[0] && s[1..][..i - 1] == s[..i][1..];
      WithoutAt(s[1..], i - 1, x);
      assert [s[0]] + s[..i][1..] == s[..i];
    }
  }

  function Count<T(==)>(s: seq<T>, x: T): nat {
    if s == [] then 0 else (if s[0] == x then 1 else 0) + Count(s[1..], x)
  }

  lemma CountHead<T>(s: seq<T>, x: T)
    requires s != []
    ensures Count(s, x) == Count(s[1..], x) + if s[0] == x then 1 else 0
  {
  }

  lemma {:induction false} CountAppend<T>(s: seq<T>, y: T, x: T)
    ensures Count(s + [y], x) == Count(s, x) + if y == x then 1 else 0
  {
    if s != [] {
      assert (s + [y])[1..] == s[1..] + [y];
      CountAppend(s[1..], y, x);
    }
  }

  lemma {:induction false} CountAbsent<T>(s: seq<T>, x: T)
    ensures Count(s, x) == 0 <==> x !in s
  {
    if s != [] {
      CountAbsent(s[1..], x);
      assert s == [s[0]] + s[1..];
    }
  }

  lemma {:induction false} CountDistinct<T>(s: seq<T>, x: T)
    requires Distinct(s)
    ensures Count(s, x) == if x in s then 1 else 0
  {
    if s != [] {
      CountDistinct(s[1..], x);
      assert s == [s[0]] + s[1..] && s[0] !in s[1..];
    }
  }

  // ---- Positions ----

  function IndexOf(s: seq<Id>, x: Id): (i: nat)
    requires x in s
    ensures i < |s| && s[i] == x
  {
    if s[0] == x then 0 else 1 + IndexOf(s[1..], x)
  }

  lemma {:induction false} IndexOfPrefix(s: seq<Id>, t: seq<Id>, x: Id)
    requires x in s
    ensures IndexOf(s + t, x) == IndexOf(s, x)
  {
    if s[0] != x {
      assert (s + t)[1..] == s[1..] + t;
      IndexOfPrefix(s[1..], t, x);
    }
  }

  lemma {:induction false} IndexOfWithout(s: seq<Id>, y: Id, x: Id)
    requires x in s && x != y
    ensures x in Without(s, y) && IndexOf(Without(s, y), x) <= IndexOf(s, x)
  {
    if s[0] != x && s[0] != y {
      IndexOfWithout(s[1..], y, x);
      assert Without(s, y)[1..] == Without(s[1..], y);
    }
  }

  // ---- `sorted`, by a key order given as a predicate ----

  function InsertBy<T>(leq: (T, T) -> bool, x: T, s: seq<T>): seq<T> {
    if s == [] || leq(x, s[0]) then [x] + s else [s[0]] + InsertBy(leq, x, s[1..])
  }

  /** A stable sort: elements the order cannot tell apart keep their places. */
  function SortBy<T>(leq: (T, T) -> bool, s: seq<T>): seq<T> {
    if s == [] then [] else InsertBy(leq, s[0], SortBy(leq, s[1..]))
  }

  ghost predicate SortedBy<T>(leq: (T, T) -> bool, s: seq<T>) {
    forall i, j :: 0 <= i < j < |s| ==> leq(s[i], s[j])
  }

  ghost predicate TotalPreorder<T(!new)>(leq: (T, T) -> bool) {
    && (forall a, b :: leq(a, b) || leq(b, a))
    && (forall a, b, c :: leq(a, b) && leq(b, c) ==> leq(a, c))
  }

  lemma {:induction false} InsertByCount<T>(leq: (T, T) -> bool, x: T, s: seq<T>, y: T)
    ensures Count(InsertBy(leq, x, s), y) == Count(s, y) + if x == y then 1 else 0
  {
    if s != [] && !leq(x, s[0]) {
      InsertByCount(leq, x, s[1..], y);
      assert InsertBy(leq, x, s)[1..] == InsertBy(leq, x, s[1..]);
    } else {
      assert InsertBy(leq, x, s)[1..] == s;
    }
  }

  lemma {:induction false} InsertByMembers<T>(leq: (T, T) -> bool, x: T, s: seq<T>)
    ensures forall y :: y in InsertBy(leq, x, s) <==> y == x || y in s
  {
    if s != [] && !leq(x, s[0]) {
      InsertByMembers(leq, x, s[1..]);
      assert s == [s[0]] + s[1..];
    }
  }

  lemma SortedCons<T>(leq: (T, T) -> bool, x: T, s: seq<T>)
    requires SortedBy(leq, s) && forall y :: y in s ==> leq(x, y)
    ensures SortedBy(leq, [x] + s)
  {
  }

  lemma {:induction false} InsertBySorted<T(!new)>(leq: (T, T) -> bool, x: T, s: seq<T>)
    requires TotalPreorder(leq) && SortedBy(leq, s)
    ensures SortedBy(leq, InsertBy(leq, x, s))
  {
    if s == [] {
    } else if leq(x, s[0]) {
      forall y | y in s ensures leq(x, y) {
        var k :| 0 <= k < |s| && s[k] == y;
        assert k > 0 ==> leq(s[0], s[k]);
      }
      SortedCons(leq, x, s);
    } else {
      InsertBySorted(leq, x, s[1..]);
      InsertByMembers(leq, x, s[1..]);
      forall y | y in InsertBy(leq, x, s[1..]) ensures leq(s[0], y) {
        if y in s[1..] {
          var k :| 0 <= k < |s[1..]| && s[1..][k] == y;
          assert leq(s[0], s[k + 1]);
        }
      }
      SortedCons(leq, s[0], InsertBy(leq, x, s[1..]));
    }
  }

  /** The result is sorted and holds exactly the same elements, as often. */
  lemma {:induction false} SortByIs<T(!new)>(leq: (T, T) -> bool, s: seq<T>)
    requires TotalPreorder(leq)
    ensures SortedBy(leq, SortBy(leq, s))
    ensures forall y :: y in SortBy(leq, s) <==> y in s
  {
    if s != [] {
      SortByIs(leq, s[1..]);
      InsertBySorted(leq, s[0], SortBy(leq, s[1..]));
      InsertByMembers(leq, s[0], SortBy(leq, s[1..]));
      assert s == [s[0]] + s[1..];
    }
  }

  lemma {:induction false} SortByCount<T>(leq: (T, T) -> bool, s: seq<T>, y: T)
    ensures Count(SortBy(leq, s), y) == Count(s, y)
  {
    if s != [] {
      SortByCount(leq, s[1..], y);
      InsertByCount(leq, s[0], SortBy(leq, s[1..]), y);
    }
  }

  /** A Python dict from ids to instants: iteration follows first insertion; overwriting keeps the position. */
  datatype Dict = Dict(order: seq<Id>, vals: map<Id, Time>) {
    ghost predicate Valid() {
      Distinct(order) && forall k :: k in vals <==> k in order
    }
  }

  const EMPTY_DICT := Dict([], map[])

  function Put(d: Dict, k: Id, v: Time): Dict {
    Dict(if k in d.vals then d.order else d.order + [k], d.vals[k := v])
  }

  function Pop(d: Dict, k: Id): Dict {
    Dict(Without(d.order, k), d.vals - {k})
  }

  lemma PutKeeps(d: Dict, k: Id, v: Time)
    requires d.Valid()
    ensures Put(d, k, v).Valid()
  {
  }

  lemma PopKeeps(d: Dict, k: Id)
    requires d.Valid()
    ensures Pop(d, k).Valid()
  {
    WithoutKeeps(d.order, k);
  }

  /** The keys whose instant has come, in iteration order. */
  function DueKeys(order: seq<Id>, vals: map<Id, Time>, now: Time): seq<Id> {
    if order == [] then []
    else
      (if order[0] in vals && vals[order[0]] <= now then [order[0]] else [])
      + DueKeys(order[1..], vals, now)
  }

  lemma {:induction false} DueKeysAre(order: seq<Id>, vals: map<Id, Time>, now: Time)
    requires Distinct(order)
    ensures Distinct(DueKeys(order, vals, now))
    ensures forall k :: k in DueKeys(order, vals, now) <==> k in order && k in vals && vals[k] <= now
  {
    if order != [] {
      DueKeysAre(order[1..], vals, now);
      assert order == [order[0]] + order[1..];
    }
  }
}
