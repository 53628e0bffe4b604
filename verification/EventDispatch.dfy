/** Listener rotation and settlement in the event worker. */
module EventDispatch {
  import opened Prelude

  /** What one listener did with the event, and whether its callback returned to a lost lease. */
  datatype Reaction =
    | Filtered
    | Raised
    | Answered(answer: Option<bool>, leaseLost: bool)

  datatype Verdict = Continue | Release | Remove | Abandon

  function Judge(r: Reaction): Verdict {
    match r
    case Filtered => Continue
    case Raised => Release
    case Answered(answer, lost) =>
      if lost then Abandon else if answer.Some? then Remove else Continue
  }

  /** `_rotated`: every listener with its own index, starting after the cursor. */
  function Rotated<L>(listeners: seq<L>, cursor: int): seq<(int, L)> {
    if listeners == [] then []
    else
      var start := (cursor + 1) % |listeners|;
      var turned := listeners[start..] + listeners[..start];
      seq(|listeners|, k requires 0 <= k < |listeners| => ((start + k) % |listeners|, turned[k]))
  }

  lemma Wrap(x: int, n: int)
    requires 0 < n && 0 <= x < 2 * n
    ensures x % n == if x < n then x else x - n
  {
    if x < n {
      assert x / n == 0;
    } else {
      assert x / n == 1;
    }
  }

  predicate Holds<L>(rotated: seq<(int, L)>, index: int) {
    exists k :: 0 <= k < |rotated| && rotated[k].0 == index
  }

  /** The k-th pair of the rotation. */
  lemma RotatedAt<L>(listeners: seq<L>, cursor: int, k: nat)
    requires k < |listeners|
    ensures
      var n, start := |listeners|, (cursor + 1) % |listeners|;
      var i := if start + k < n then start + k else start + k - n;
      && |Rotated(listeners, cursor)| == n
      && 0 <= start < n && 0 <= i < n
      && Rotated(listeners, cursor)[k] == (i, listeners[i])
  {
    Wrap((cursor + 1) % |listeners| + k, |listeners|);
  }

  /** The rotation lists each index exactly once, next to its own listener, in cyclic order from the
      one after the cursor. */
  lemma RotationIsComplete<L>(listeners: seq<L>, cursor: int)
    requires listeners != []
    ensures
      var n, r := |listeners|, Rotated(listeners, cursor);
      && |r| == n
      && r[0].0 == (cursor + 1) % n
      && (forall k :: 0 <= k < n ==> 0 <= r[k].0 < n && r[k].1 == listeners[r[k].0])
      && (forall i, j :: 0 <= i < j < n ==> r[i].0 != r[j].0)
      && (forall x {:trigger Holds(r, x)} :: 0 <= x < n ==> Holds(r, x))
  {
    hide Rotated;
    var n, r := |listeners|, Rotated(listeners, cursor);
    var start := (cursor + 1) % n;
    RotatedAt(listeners, cursor, 0);
    forall k | 0 <= k < n ensures 0 <= r[k].0 < n && r[k].1 == listeners[r[k].0] {
      RotatedAt(listeners, cursor, k);
    }
    forall i, j | 0 <= i < j < n ensures r[i].0 != r[j].0 {
      RotatedAt(listeners, cursor, i);
      RotatedAt(listeners, cursor, j);
    }
    forall x {:trigger Holds(r, x)} | 0 <= x < n ensures Holds(r, x) {
      var k := if x >= start then x - start else x + n - start;
      RotatedAt(listeners, cursor, k);
      assert r[k].0 == x;
    }
  }

  /** Position of the first listener, in rotation order, whose reaction ends the dispatch. */
  function StopsAt(rotated: seq<(int, Reaction)>): (k: nat)
    ensures k <= |rotated|
    ensures forall i :: 0 <= i < k ==> Judge(rotated[i].1) == Continue
    ensures k < |rotated| ==> Judge(rotated[k].1) != Continue
  {
    if rotated == [] || Judge(rotated[0].1) != Continue then 0 else 1 + StopsAt(rotated[1..])
  }

  /** The cursor after a dispatch: the last listener tried, or where it was with no listeners. */
  function CursorAfter(rotated: seq<(int, Reaction)>, cursor: int): int {
    var k := StopsAt(rotated);
    if rotated == [] then cursor else if k == |rotated| then rotated[k - 1].0 else rotated[k].0
  }

  /** Which listener ends each dispatch of a run, as `Dispatch` finds it: the rotation starts after the
      cursor the dispatch before left behind. A dispatch nobody ends contributes nothing. */
  function Takers(events: seq<seq<Reaction>>, cursor: int): seq<int>
    decreases |events|
  {
    if events == [] then []
    else
      var rotated := Rotated(events[0], cursor);
      var k := StopsAt(rotated);
      (if k < |rotated| && Judge(rotated[k].1) == Remove then [rotated[k].0] else [])
      + Takers(events[1..], CursorAfter(rotated, cursor))
  }

  lemma TakersNone(cursor: int)
    ensures Takers([], cursor) == []
  {
  }

  lemma TakersSplit(events: seq<seq<Reaction>>, cursor: int)
    requires events != []
    ensures Takers(events, cursor) ==
            Takers([events[0]], cursor) + Takers(events[1..], CursorAfter(Rotated(events[0], cursor), cursor))
  {
    hide Rotated, StopsAt, CursorAfter;
    assert [events[0]][1..] == [];
  }

  /** How a dispatch ends: with the verdict of the listener that stops it, or a release if none does. */
  function VerdictOf(rotated: seq<(int, Reaction)>): Verdict {
    var k := StopsAt(rotated);
    if k == |rotated| then Release else Judge(rotated[k].1)
  }

  /** The listener leaves the event to the next one. */
  predicate PassesOn(r: Reaction) {
    r.Filtered? || (r.Answered? && r.answer.None? && !r.leaseLost)
  }

  ghost predicate DecidedBy(rotated: seq<(int, Reaction)>, k: nat) {
    k < |rotated| && !PassesOn(rotated[k].1) && forall j :: 0 <= j < k ==> PassesOn(rotated[j].1)
  }

  /** The first listener in rotation order that does not pass the event on decides: an answer, True or
      False, removes it; an exception releases it; a lost lease leaves it alone. If all pass it on it
      is released. */
  lemma FirstToDecide(rotated: seq<(int, Reaction)>, k: nat)
    ensures DecidedBy(rotated, k) ==>
              VerdictOf(rotated) == match rotated[k].1
                                    case Raised => Release
                                    case Answered(_, lost) => if lost then Abandon else Remove
                                    case Filtered => Release
    ensures (forall r :: r in rotated ==> PassesOn(r.1)) ==> VerdictOf(rotated) == Release
  {
    var n := StopsAt(rotated);
    assert forall j :: 0 <= j < |rotated| ==> (PassesOn(rotated[j].1) <==> Judge(rotated[j].1) == Continue);
    assert DecidedBy(rotated, k) ==> n == k;
    if n < |rotated| {
      assert rotated[n] in rotated;
    }
  }

  class EventQueueWorker {
    var cursor: int
    ghost var settlements: seq<Verdict>   // every release or removal attempted
    ghost var takers: seq<int>            // the listener behind every removal

    constructor ()
      ensures cursor == -1 && settlements == [] && takers == []
    {
      cursor, settlements, takers := -1, [], [];
    }

    /** `_dispatch` of one event, uncancelled: stops at the first answer, exception or lost lease, and
        attempts exactly one settlement, or none when the lease was lost. */
    method Dispatch(listeners: seq<Reaction>)
      requires cursor >= -1
      modifies this
      ensures
        var rotated := Rotated(listeners, old(cursor));
        var verdict := VerdictOf(rotated);
        && settlements == old(settlements) + (if verdict == Abandon then [] else [verdict])
        && cursor == CursorAfter(rotated, old(cursor)) >= -1
        && takers == old(takers) + Takers([listeners], old(cursor))
    {
      var rotated := Rotated(listeners, cursor);
      ghost var stop := StopsAt(rotated);
      for k := 0 to |rotated|
        invariant k <= stop
        invariant settlements == old(settlements) && takers == old(takers)
        invariant cursor == if k == 0 then old(cursor) else rotated[k - 1].0
      {
        var (index, reaction) := rotated[k];
        cursor := index;
        match reaction {
          case Filtered => continue;
          case Raised =>
            settlements := settlements + [Release];
            return;
          case Answered(answer, leaseLost) =>
            if leaseLost {
              return;
            }
            if answer.Some? {
              settlements := settlements + [Remove];
              takers := takers + [index];
              return;
            }
        }
      }
      settlements := settlements + [Release];
    }

    /** The worker's loop over the events it claims, each with its listeners' reactions. */
    method Run(events: seq<seq<Reaction>>)
      requires cursor >= -1
      modifies this
      ensures takers == old(takers) + Takers(events, old(cursor))
    {
      hide Takers, CursorAfter, Rotated, StopsAt;
      for k := 0 to |events|
        invariant cursor >= -1
        invariant takers + Takers(events[k..], cursor) == old(takers) + Takers(events, old(cursor))
      {
        TakersSplit(events[k..], cursor);
        assert events[k..][1..] == events[k + 1..];
        Dispatch(events[k]);
      }
      TakersNone(cursor);
    }
  }

  // ---- Fair shares ----

  function Succ(n: nat, c: int): (i: nat)
    requires n > 0 && c >= -1
    ensures i < n
  {
    (c + 1) % n
  }

  /** `m` successive indices in turn, starting after `c`. */
  function Winners(n: nat, c: int, m: nat): (w: seq<int>)
    requires n > 0 && c >= -1
    ensures |w| == m && forall i :: i in w ==> 0 <= i < n
  {
    if m == 0 then []
    else
      var before := Winners(n, c, m - 1);
      before + [Succ(n, if m == 1 then c else before[m - 2])]
  }

  /** A dispatch among listeners that all consume ends with the first of the rotation. */
  lemma ConsumersStopFirst(listeners: seq<Reaction>, cursor: int)
    requires listeners != [] && cursor >= -1
    requires forall i :: 0 <= i < |listeners| ==> Judge(listeners[i]) == Remove
    ensures
      var rotated := Rotated(listeners, cursor);
      |rotated| == |listeners| && StopsAt(rotated) == 0 && rotated[0].0 == Succ(|listeners|, cursor) && Judge(rotated[0].1) == Remove
  {
    RotationIsComplete(listeners, cursor);
    assert Rotated(listeners, cursor)[0].1 == listeners[Rotated(listeners, cursor)[0].0];
  }

  /** Of the events so far, `i` has had one more than `base` iff it lies between the start and `next`. */
  predicate Ahead(start: nat, next: nat, i: int) {
    if start <= next then start <= i < next else i >= start || i < next
  }

  ghost predicate Shares(n: nat, start: nat, next: nat, w: seq<int>, base: nat) {
    forall i: int {:trigger Count(w, i)} :: 0 <= i < n ==> Count(w, i) == base + if Ahead(start, next, i) then 1 else 0
  }

  lemma ShareStep(n: nat, start: nat, winner: nat, next: nat, before: seq<int>, base: nat)
    requires start < n && winner < n && next == (if winner + 1 == n then 0 else winner + 1)
    requires Shares(n, start, winner, before, base)
    ensures Shares(n, start, next, before + [winner], if next == start then base + 1 else base)
  {
    forall i: int {:trigger Count(before + [winner], i)} | 0 <= i < n
      ensures Count(before + [winner], i) ==
              (if next == start then base + 1 else base) + if Ahead(start, next, i) then 1 else 0
    {
      CountAppend(before, winner, i);
      assert Count(before, i) == base + if Ahead(start, winner, i) then 1 else 0;
    }
  }

  lemma {:induction false} SharesAre(n: nat, c: int, m: nat) returns (next: nat, base: nat)
    requires n > 0 && c >= -1
    ensures next < n && Shares(n, Succ(n, c), next, Winners(n, c, m), base)
    ensures next == Succ(n, if m == 0 then c else Winners(n, c, m)[m - 1])
  {
    if m == 0 {
      next, base := Succ(n, c), 0;
    } else {
      var winner, b := SharesAre(n, c, m - 1);
      var before := Winners(n, c, m - 1);
      assert Winners(n, c, m) == before + [winner];
      next := Succ(n, winner);
      Wrap(winner + 1, n);
      ShareStep(n, Succ(n, c), winner, next, before, b);
      base := if next == Succ(n, c) then b + 1 else b;
    }
  }

  lemma SharesDiffer(n: nat, start: nat, next: nat, w: seq<int>, base: nat, i: nat, j: nat)
    requires Shares(n, start, next, w, base) && i < n && j < n
    ensures -1 <= Count(w, i) - Count(w, j) <= 1
  {
  }

  /** Every listener of every event consumes. */
  predicate AllConsume(events: seq<seq<Reaction>>, n: nat) {
    forall e :: e in events ==> |e| == n && forall r :: r in e ==> Judge(r) == Remove
  }

  /** Listeners that all consume take the events in turn. */
  lemma {:induction false} TakersTakeTurns(events: seq<seq<Reaction>>, n: nat, cursor: int)
    requires n > 0 && cursor >= -1 && AllConsume(events, n)
    ensures Takers(events, cursor) == Winners(n, cursor, |events|)
    decreases |events|
  {
    hide Rotated, StopsAt, Succ, Judge;
    if events != [] {
      assert events[0] in events;
      var rotated := Rotated(events[0], cursor);
      ConsumersStopFirst(events[0], cursor);
      TakersTakeTurns(events[1..], n, rotated[0].0);
      WinnersTail(n, cursor, |events|);
    }
  }

  lemma {:induction false} WinnersTail(n: nat, c: int, m: nat)
    requires n > 0 && c >= -1 && m > 0
    ensures Winners(n, c, m) == [Succ(n, c)] + Winners(n, Succ(n, c), m - 1)
  {
    if m > 1 {
      WinnersTail(n, c, m - 1);
    }
  }

  /** Over any run of dispatches, listeners that all consume take every event, and the numbers each has
      taken differ by at most one, wherever the cursor stood. */
  lemma FairShares(events: seq<seq<Reaction>>, n: nat, cursor: int, i: nat, j: nat)
    requires n > 0 && cursor >= -1 && AllConsume(events, n) && i < n && j < n
    ensures |Takers(events, cursor)| == |events|
    ensures -1 <= Count(Takers(events, cursor), i) - Count(Takers(events, cursor), j) <= 1
  {
    hide Takers, Winners, Shares;
    TakersTakeTurns(events, n, cursor);
    var next, base := SharesAre(n, cursor, |events|);
    SharesDiffer(n, Succ(n, cursor), next, Winners(n, cursor, |events|), base, i, j);
  }
}
