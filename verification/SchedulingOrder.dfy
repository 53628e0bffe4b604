/** Promotion releases due work by availability, then priority where asked, then arrival. */
module SchedulingOrder {
  import opened Prelude
  import opened Scheduling

  /** The entries a promotion at `now` may release. */
  function Ready(entries: map<Id, Entry>, d: Dict, now: Time): set<Id> {
    set k | k in d.vals && d.vals[k] <= now && IsQueued(entries, k)
  }

  /** `a` must be released before `b`: available earlier, or at the same instant with a higher
      priority (priority queues), or otherwise scheduled first. */
  predicate Ahead(entries: map<Id, Entry>, d: Dict, byPriority: bool, a: Id, b: Id) {
    && a in d.vals && b in d.vals && a in entries && b in entries
    && (|| d.vals[a] < d.vals[b]
        || (d.vals[a] == d.vals[b] &&
            (|| (byPriority && entries[a].priority > entries[b].priority)
             || ((byPriority ==> entries[a].priority == entries[b].priority) && Precedes(d.order, a, b)))))
  }

  lemma {:induction false} FirstMaxIs(s: seq<Id>, entries: map<Id, Entry>, y: Id)
    requires s != [] && Distinct(s) && forall k :: k in s ==> k in entries
    requires y in s && y != FirstMax(s, entries)
    ensures
      var m := FirstMax(s, entries);
      || entries[m].priority > entries[y].priority
      || (entries[m].priority == entries[y].priority && Precedes(s, m, y))
  {
    if |s| > 1 {
      assert s == [s[0]] + s[1..] && s[0] !in s[1..];
      var m := FirstMax(s[1..], entries);
      if y in s[1..] && y != m {
        FirstMaxIs(s[1..], entries, y);
      }
    }
  }

  /** The chosen candidate beats every other candidate of its group. */
  lemma ChosenIsFirst(entries: map<Id, Entry>, d: Dict, now: Time, byPriority: bool, y: Id)
    requires d.Valid() && QueuedIn(entries, Candidates(d, now)) != []
    requires
      var queued := QueuedIn(entries, Candidates(d, now));
      y in queued && y != if byPriority then FirstMax(queued, entries) else queued[0]
    ensures
      var queued := QueuedIn(entries, Candidates(d, now));
      Ahead(entries, d, byPriority, if byPriority then FirstMax(queued, entries) else queued[0], y)
  {
    var candidates := Candidates(d, now);
    var queued := QueuedIn(entries, candidates);
    var due := Keep(d.order, DueAt(d, now));
    KeepAre(d.order, DueAt(d, now));
    var first := Earliest(due, d.vals);
    var group := set k | k in d.vals && d.vals[k] == first;
    var ready := set x | x in candidates && IsQueued(entries, x);
    KeepAre(due, group);
    KeepAre(candidates, ready);
    var id := if byPriority then FirstMax(queued, entries) else queued[0];
    assert queued == [queued[0]] + queued[1..];
    if byPriority {
      FirstMaxIs(queued, entries, y);
    }
    if Precedes(queued, id, y) {
      KeepPrecedes(candidates, ready, id, y);
      KeepPrecedes(due, group, id, y);
      KeepPrecedes(d.order, DueAt(d, now), id, y);
    }
  }

  /** The candidates are the due keys of the earliest instant. */
  lemma CandidatesAre(d: Dict, now: Time, x: Id)
    requires d.Valid() && x in d.vals && d.vals[x] <= now
    ensures Candidates(d, now) != []
    ensures forall c :: c in Candidates(d, now) ==> d.vals[c] <= d.vals[x]
    ensures x in Candidates(d, now) <==> exists c :: c in Candidates(d, now) && d.vals[c] == d.vals[x]
  {
    assert x in DueAt(d, now);
    var due := Keep(d.order, DueAt(d, now));
    KeepAre(d.order, DueAt(d, now));
    var first := Earliest(due, d.vals);
    var group := set k | k in d.vals && d.vals[k] == first;
    KeepAre(due, group);
    var c :| c in due && d.vals[c] == first;
    assert c in Candidates(d, now);
  }

  /** Pruning ids that are not ready changes nothing about the order of those that are. */
  lemma PrunedSame(entries: map<Id, Entry>, d: Dict, d': Dict, gone: set<Id>, byPriority: bool, a: Id, b: Id)
    requires Pruned(d, d', gone) && a !in gone && b !in gone
    ensures Ahead(entries, d', byPriority, a, b) <==> Ahead(entries, d, byPriority, a, b)
  {
    assert Precedes(d'.order, a, b) <==> Precedes(d.order, a, b);
  }

  lemma ChosenBeatsAll(entries: map<Id, Entry>, d: Dict, now: Time, byPriority: bool)
    requires d.Valid() && QueuedIn(entries, Candidates(d, now)) != []
    ensures
      var queued := QueuedIn(entries, Candidates(d, now));
      var id := if byPriority then FirstMax(queued, entries) else queued[0];
      forall y :: y in Ready(entries, d, now) && y != id ==> Ahead(entries, d, byPriority, id, y)
  {
    var queued := QueuedIn(entries, Candidates(d, now));
    var id := if byPriority then FirstMax(queued, entries) else queued[0];
    assert id in queued;
    forall y | y in Ready(entries, d, now) && y != id ensures Ahead(entries, d, byPriority, id, y) {
      CandidatesAre(d, now, y);
      if d.vals[y] == d.vals[id] {
        ChosenIsFirst(entries, d, now, byPriority, y);
      }
    }
  }

  /** The entries ready in `d'` are ordered there as they were in `d`. */
  ghost predicate SameOrder(entries: map<Id, Entry>, d: Dict, d': Dict, now: Time, byPriority: bool) {
    forall a, b :: a in Ready(entries, d', now) && b in Ready(entries, d', now) ==>
      (Ahead(entries, d', byPriority, a, b) <==> Ahead(entries, d, byPriority, a, b))
  }

  /** `id` is the ready entry ahead of all others. */
  ghost predicate IsNext(entries: map<Id, Entry>, d: Dict, now: Time, byPriority: bool, id: Id) {
    && id in Ready(entries, d, now)
    && forall y :: y in Ready(entries, d, now) && y != id ==> Ahead(entries, d, byPriority, id, y)
  }

  lemma PruneKeepsOrder(entries: map<Id, Entry>, d: Dict, d': Dict, gone: set<Id>, now: Time, byPriority: bool)
    requires Pruned(d, d', gone)
    ensures Ready(entries, d', now) == Ready(entries, d, now) - gone
    ensures SameOrder(entries, d, d', now, byPriority)
  {
    forall a, b | a in Ready(entries, d', now) && b in Ready(entries, d', now)
      ensures Ahead(entries, d', byPriority, a, b) <==> Ahead(entries, d, byPriority, a, b)
    {
      PrunedSame(entries, d, d', gone, byPriority, a, b);
    }
  }

  /** A pass drops only entries that are not ready. */
  lemma StaleDropped(entries: map<Id, Entry>, d: Dict, now: Time, byPriority: bool)
    requires d.Valid()
    ensures
      var rest := PopAll(d, StaleIn(entries, Candidates(d, now)));
      rest.Valid() && Ready(entries, rest, now) == Ready(entries, d, now) && SameOrder(entries, d, rest, now, byPriority)
  {
    var stale := StaleIn(entries, Candidates(d, now));
    PopAllPrunes(d, stale);
    PruneKeepsOrder(entries, d, PopAll(d, stale), (set x | x in stale), now, byPriority);
  }

  /** One promotion: nothing exactly when nothing is ready; otherwise the ready entry ahead of all
      others, leaving the rest as they were. */
  ghost predicate Promotes(
    entries: map<Id, Entry>, d: Dict, now: Time, byPriority: bool, d': Dict, r: Option<Id>)
  {
    && (r.None? <==> Ready(entries, d, now) == {})
    && (r.Some? ==> IsNext(entries, d, now, byPriority, r.value))
    && Ready(entries, d', now) == Ready(entries, d, now) - (if r.Some? then {r.value} else {})
    && SameOrder(entries, d, d', now, byPriority)
  }

  /** Dropping stale entries first makes no difference to what a promotion may do. */
  lemma PromotesAfterDrop(
    entries: map<Id, Entry>, d: Dict, rest: Dict, now: Time, byPriority: bool, d': Dict, r: Option<Id>)
    requires Ready(entries, rest, now) == Ready(entries, d, now) && SameOrder(entries, d, rest, now, byPriority)
    requires Promotes(entries, rest, now, byPriority, d', r)
    ensures Promotes(entries, d, now, byPriority, d', r)
  {
    forall a, b | a in Ready(entries, d', now) && b in Ready(entries, d', now)
      ensures Ahead(entries, d', byPriority, a, b) <==> Ahead(entries, d, byPriority, a, b)
    {
      assert Ahead(entries, d', byPriority, a, b) <==> Ahead(entries, rest, byPriority, a, b);
    }
    if r.Some? {
      forall y | y in Ready(entries, d, now) && y != r.value ensures Ahead(entries, d, byPriority, r.value, y) {
        assert Ahead(entries, rest, byPriority, r.value, y);
      }
    }
  }

  lemma PromotesChosen(entries: map<Id, Entry>, d: Dict, rest: Dict, now: Time, byPriority: bool, id: Id)
    requires d.Valid() && rest.Valid()
    requires Ready(entries, rest, now) == Ready(entries, d, now) && SameOrder(entries, d, rest, now, byPriority)
    requires IsNext(entries, d, now, byPriority, id)
    ensures Promotes(entries, rest, now, byPriority, Pop(rest, id), Some(id))
  {
    PopPrunes(rest, id);
    PruneKeepsOrder(entries, rest, Pop(rest, id), {id}, now, byPriority);
    forall y | y in Ready(entries, rest, now) && y != id ensures Ahead(entries, rest, byPriority, id, y) {
      assert Ahead(entries, d, byPriority, id, y);
    }
  }

  lemma PromotesNothing(entries: map<Id, Entry>, d: Dict, now: Time, byPriority: bool)
    requires d.Valid() && Candidates(d, now) == []
    ensures Promotes(entries, d, now, byPriority, d, None)
  {
    forall x | x in Ready(entries, d, now) ensures false {
      CandidatesAre(d, now, x);
    }
  }

  lemma {:induction false} PopNextDueTakesFirst(entries: map<Id, Entry>, d: Dict, now: Time, byPriority: bool)
    requires d.Valid()
    ensures
      var (d', r) := PopNextDue(entries, d, now, byPriority);
      Promotes(entries, d, now, byPriority, d', r)
    decreases |d.order|
  {
    hide SameOrder, IsNext, Distinct;
    var (d', r) := PopNextDue(entries, d, now, byPriority);
    var candidates := Candidates(d, now);
    if candidates == [] {
      PromotesNothing(entries, d, now, byPriority);
    } else {
      var queued := QueuedIn(entries, candidates);
      var stale := StaleIn(entries, candidates);
      var rest := PopAll(d, stale);
      StaleDropped(entries, d, now, byPriority);
      if queued == [] {
        assert candidates[0] in stale && stale[0] in d.order;
        PopAllPrunes(d, stale);
        PopNextDueTakesFirst(entries, rest, now, byPriority);
      } else {
        ChosenBeatsAll(entries, d, now, byPriority);
        PromotesChosen(entries, d, rest, now, byPriority, r.value);
      }
      PromotesAfterDrop(entries, d, rest, now, byPriority, d', r);
    }
  }

  /** Promote until nothing is due, at one fixed clock reading. */
  function DrainDue(entries: map<Id, Entry>, d: Dict, now: Time, byPriority: bool): seq<Id>
    requires d.Valid()
    decreases |d.order|
  {
    var (d', r) := PopNextDue(entries, d, now, byPriority);
    if r.None? then [] else [r.value] + DrainDue(entries, d', now, byPriority)
  }

  ghost predicate InOrder(entries: map<Id, Entry>, d: Dict, byPriority: bool, out: seq<Id>) {
    forall i, j :: 0 <= i < j < |out| ==> Ahead(entries, d, byPriority, out[i], out[j])
  }

  lemma InOrderCons(entries: map<Id, Entry>, d: Dict, d': Dict, now: Time, byPriority: bool, id: Id, tail: seq<Id>)
    requires IsNext(entries, d, now, byPriority, id) && SameOrder(entries, d, d', now, byPriority)
    requires Ready(entries, d', now) == Ready(entries, d, now) - {id}
    requires InOrder(entries, d', byPriority, tail) && forall x :: x in tail ==> x in Ready(entries, d', now)
    ensures InOrder(entries, d, byPriority, [id] + tail)
  {
    var out := [id] + tail;
    forall i, j | 0 <= i < j < |out| ensures Ahead(entries, d, byPriority, out[i], out[j]) {
      assert out[j] == tail[j - 1] && tail[j - 1] in tail;
      if i > 0 {
        assert out[i] == tail[i - 1] && tail[i - 1] in tail;
        assert Ahead(entries, d', byPriority, tail[i - 1], tail[j - 1]);
      }
    }
  }

  /** Due work comes out complete, without repetition, and in the promised order. */
  lemma {:induction false} DrainDueIsOrdered(entries: map<Id, Entry>, d: Dict, now: Time, byPriority: bool)
    requires d.Valid()
    ensures
      var out := DrainDue(entries, d, now, byPriority);
      && (forall x :: x in out <==> x in Ready(entries, d, now))
      && Distinct(out)
      && InOrder(entries, d, byPriority, out)
    decreases |d.order|
  {
    hide PopNextDue, SameOrder, Ahead;
    PopNextDueTakesFirst(entries, d, now, byPriority);
    var (d', r) := PopNextDue(entries, d, now, byPriority);
    if r.Some? {
      DrainDueIsOrdered(entries, d', now, byPriority);
      var tail := DrainDue(entries, d', now, byPriority);
      assert r.value !in tail;
      InOrderCons(entries, d, d', now, byPriority, r.value, tail);
    }
  }
}
