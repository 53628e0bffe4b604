/** Delayed availability: which scheduled entry a promotion releases, and in what order. */
module Scheduling {
  import opened Prelude

  datatype Status = Queued | Running | Succeeded | Failed | Cancelled | TimedOut | Terminated

  datatype Entry = Entry(
    status: Status, queuedAt: Time, dispatchedAt: Option<Time>, finishedAt: Option<Time>, priority: int)

  /** A list comprehension over the dict: the keys in `keep`, in dict order. */
  function Keep(s: seq<Id>, keep: set<Id>): seq<Id> {
    if s == [] then []
    else if s[0] in keep then [s[0]] + Keep(s[1..], keep)
    else Keep(s[1..], keep)
  }

  predicate IsQueued(entries: map<Id, Entry>, id: Id) {
    id in entries && entries[id].status == Queued
  }

  function DueAt(d: Dict, now: Time): set<Id> {
    set k | k in d.vals && d.vals[k] <= now
  }

  /** `min` over the due instants. */
  function Earliest(s: seq<Id>, vals: map<Id, Time>): (t: Time)
    requires s != [] && forall k :: k in s ==> k in vals
    ensures exists k :: k in s && vals[k] == t
    ensures forall k :: k in s ==> t <= vals[k]
  {
    assert s[0] in s;
    if |s| == 1 then vals[s[0]]
    else
      assert s == [s[0]] + s[1..];
      var t := Earliest(s[1..], vals);
      if vals[s[0]] <= t then vals[s[0]] else t
  }

  /** `max` by priority: the first of the highest. */
  function FirstMax(s: seq<Id>, entries: map<Id, Entry>): (m: Id)
    requires s != [] && forall k :: k in s ==> k in entries
    ensures m in s
  {
    assert s[0] in s;
    if |s| == 1 then s[0]
    else
      assert forall k :: k in s[1..] ==> k in s;
      var m := FirstMax(s[1..], entries);
      if entries[s[0]].priority >= entries[m].priority then s[0] else m
  }

  function PopAll(d: Dict, ids: seq<Id>): Dict
    decreases |ids|
  {
    if ids == [] then d else PopAll(Pop(d, ids[0]), ids[1..])
  }

  // ---- Facts about the pieces ----

  lemma {:induction false} KeepAre(s: seq<Id>, keep: set<Id>)
    ensures forall x :: x in Keep(s, keep) <==> x in s && x in keep
    ensures Distinct(s) ==> Distinct(Keep(s, keep))
  {
    if s != [] {
      KeepAre(s[1..], keep);
      assert s == [s[0]] + s[1..];
    }
  }

  /** `a` comes before `b` in the list. */
  predicate Precedes(s: seq<Id>, a: Id, b: Id) {
    s != [] && (if s[0] == a then b in s[1..] else s[0] != b && Precedes(s[1..], a, b))
  }

  lemma {:induction false} KeepPrecedes(s: seq<Id>, keep: set<Id>, a: Id, b: Id)
    requires a in keep && b in keep
    ensures Precedes(Keep(s, keep), a, b) <==> Precedes(s, a, b)
  {
    if s != [] {
      KeepPrecedes(s[1..], keep, a, b);
      KeepAre(s[1..], keep);
    }
  }

  lemma {:induction false} WithoutPrecedes(s: seq<Id>, x: Id, a: Id, b: Id)
    requires a != x && b != x && Distinct(s)
    ensures Precedes(Without(s, x), a, b) <==> Precedes(s, a, b)
  {
    if s != [] {
      WithoutPrecedes(s[1..], x, a, b);
      WithoutKeeps(s[1..], x);
      if s[0] == x {
        assert !(s[0] == a) && s[0] != b;
      } else {
        assert Without(s, x)[1..] == Without(s[1..], x);
      }
    }
  }

  lemma {:induction false} WithoutLength(s: seq<Id>, x: Id)
    ensures |Without(s, x)| == if x in s then |s| - 1 else |s|
  {
    if s != [] {
      WithoutLength(s[1..], x);
      assert s == [s[0]] + s[1..];
    }
  }

  /** What popping some ids leaves: everything else, in the same order. */
  ghost predicate Pruned(d: Dict, d': Dict, gone: set<Id>) {
    && d'.Valid()
    && |d'.order| <= |d.order|
    && d'.vals == d.vals - gone
    && forall a, b {:trigger Precedes(d'.order, a, b)} ::
         a !in gone && b !in gone ==> (Precedes(d'.order, a, b) <==> Precedes(d.order, a, b))
  }

  lemma PopPrunes(d: Dict, x: Id)
    requires d.Valid()
    ensures Pruned(d, Pop(d, x), {x})
    ensures x in d.order ==> |Pop(d, x).order| < |d.order|
  {
    PopKeeps(d, x);
    WithoutLength(d.order, x);
    forall a, b | a !in {x} && b !in {x}
      ensures Precedes(Pop(d, x).order, a, b) <==> Precedes(d.order, a, b)
    {
      WithoutPrecedes(d.order, x, a, b);
    }
  }

  lemma {:induction false} PopAllPrunes(d: Dict, ids: seq<Id>)
    requires d.Valid()
    ensures Pruned(d, PopAll(d, ids), set x | x in ids)
    ensures ids != [] && ids[0] in d.order ==> |PopAll(d, ids).order| < |d.order|
    decreases |ids|
  {
    if ids != [] {
      PopPrunes(d, ids[0]);
      PopAllPrunes(Pop(d, ids[0]), ids[1..]);
      var gone := set x | x in ids;
      var tail := set x | x in ids[1..];
      assert gone == {ids[0]} + tail by {
        assert ids == [ids[0]] + ids[1..];
      }
      assert d.vals - gone == d.vals - {ids[0]} - tail;
    }
  }

  // ---- Promotion ----

  /** The candidates of one pass: the earliest due availability group, in dict order. */
  function Candidates(d: Dict, now: Time): (c: seq<Id>)
    requires d.Valid()
    ensures forall x :: x in c ==> x in d.vals && d.vals[x] <= now
    ensures c == [] <==> DueAt(d, now) == {}
  {
    var due := Keep(d.order, DueAt(d, now));
    KeepAre(d.order, DueAt(d, now));
    if due == [] then
      assert DueAt(d, now) == {} by {
        assert forall k :: k in DueAt(d, now) ==> k in due;
      }
      []
    else
      var first := Earliest(due, d.vals);
      var group := set k | k in d.vals && d.vals[k] == first;
      KeepAre(due, group);
      assert due[0] in DueAt(d, now);
      Keep(due, group)
  }

  function QueuedIn(entries: map<Id, Entry>, s: seq<Id>): (q: seq<Id>)
    ensures forall x :: x in q <==> x in s && IsQueued(entries, x)
  {
    var ready := set x | x in s && IsQueued(entries, x);
    KeepAre(s, ready);
    Keep(s, ready)
  }

  function StaleIn(entries: map<Id, Entry>, s: seq<Id>): (q: seq<Id>)
    ensures forall x :: x in q <==> x in s && !IsQueued(entries, x)
  {
    var stale := set x | x in s && !IsQueued(entries, x);
    KeepAre(s, stale);
    Keep(s, stale)
  }

  /** `_pop_next_due_scheduled`. A pass that finds only stale candidates drops them and retries,
      so every retry works on a smaller schedule. */
  function PopNextDue(entries: map<Id, Entry>, d: Dict, now: Time, byPriority: bool): (r: (Dict, Option<Id>))
    requires d.Valid()
    ensures r.0.Valid() && |r.0.order| <= |d.order|
    ensures r.1.Some? ==> |r.0.order| < |d.order|
    decreases |d.order|
  {
    var candidates := Candidates(d, now);
    if candidates == [] then (d, None)
    else
      var queued := QueuedIn(entries, candidates);
      var stale := StaleIn(entries, candidates);
      PopAllPrunes(d, stale);
      var rest := PopAll(d, stale);
      if queued == [] then
        assert candidates[0] in stale;
        assert stale[0] in d.order;
        PopNextDue(entries, rest, now, byPriority)
      else
        var id := if byPriority then FirstMax(queued, entries) else queued[0];
        PopPrunes(rest, id);
        assert id in queued && id in rest.order;
        (Pop(rest, id), Some(id))
  }
}
