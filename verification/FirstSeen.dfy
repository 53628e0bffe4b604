/** The worker's first-seen scan: publish what lies beyond the cursor, then move it. */
module FirstSeen {
  import opened Prelude

  predicate Beyond(cursor: Option<Id>, id: Id) { cursor.None? || id > cursor.value }

  function NewIds(listing: seq<Id>, cursor: Option<Id>): seq<Id> {
    if listing == [] then []
    else if Beyond(cursor, listing[0]) then [listing[0]] + NewIds(listing[1..], cursor)
    else NewIds(listing[1..], cursor)
  }

  predicate AtMost(a: Id, b: Id) { a <= b }

  function Largest(s: seq<Id>): (m: Id)
    requires s != []
    ensures m in s && forall x :: x in s ==> x <= m
  {
    if |s| == 1 then s[0]
    else
      assert s == [s[0]] + s[1..];
      var m := Largest(s[1..]);
      if s[0] > m then s[0] else m
  }

  function Published(listing: seq<Id>, cursor: Option<Id>): seq<Id> {
    SortBy(AtMost, NewIds(listing, cursor))
  }

  function CursorAfter(listing: seq<Id>, cursor: Option<Id>): Option<Id> {
    if listing != [] && Beyond(cursor, Largest(listing)) then Some(Largest(listing)) else cursor
  }

  /** Everything published by a run of scans, in order. */
  function PublishedBy(listings: seq<seq<Id>>, cursor: Option<Id>): seq<Id>
    decreases |listings|
  {
    if listings == [] then []
    else Published(listings[0], cursor) + PublishedBy(listings[1..], CursorAfter(listings[0], cursor))
  }

  ghost predicate Increasing(s: seq<Id>) {
    forall i, j :: 0 <= i < j < |s| ==> s[i] < s[j]
  }

  lemma IncreasingConcat(a: seq<Id>, b: seq<Id>)
    requires Increasing(a) && Increasing(b) && forall x, y :: x in a && y in b ==> x < y
    ensures Increasing(a + b)
  {
    var s := a + b;
    forall i, j | 0 <= i < j < |s| ensures s[i] < s[j] {
      if i < |a| <= j {
        assert a[i] in a && b[j - |a|] in b;
      }
    }
  }

  lemma {:induction false} NewIdsAre(listing: seq<Id>, cursor: Option<Id>)
    ensures forall x :: x in NewIds(listing, cursor) <==> x in listing && Beyond(cursor, x)
    ensures Distinct(listing) ==> Distinct(NewIds(listing, cursor))
  {
    if listing != [] {
      NewIdsAre(listing[1..], cursor);
      assert listing == [listing[0]] + listing[1..];
    }
  }

  lemma {:induction false} CountsAreDistinct(s: seq<Id>)
    requires forall x :: Count(s, x) <= 1
    ensures Distinct(s)
  {
    if s != [] {
      forall x ensures Count(s[1..], x) <= 1 {
        assert Count(s, x) <= 1;
      }
      CountsAreDistinct(s[1..]);
      assert Count(s, s[0]) <= 1;
      CountAbsent(s[1..], s[0]);
      assert s == [s[0]] + s[1..];
    }
  }

  lemma SortIncreasing(s: seq<Id>)
    requires Distinct(s)
    ensures Increasing(SortBy(AtMost, s)) && forall y :: y in SortBy(AtMost, s) <==> y in s
  {
    SortByIs(AtMost, s);
    var t := SortBy(AtMost, s);
    forall x ensures Count(t, x) <= 1 {
      SortByCount(AtMost, s, x);
      CountDistinct(s, x);
    }
    CountsAreDistinct(t);
    forall i, j | 0 <= i < j < |t| ensures t[i] < t[j] {
      assert AtMost(t[i], t[j]) && t[i] != t[j];
    }
  }

  /** One scan publishes exactly the listed ids beyond the cursor, in order, and leaves nothing listed
      beyond the new cursor, which never moves back. */
  lemma ScanIs(listing: seq<Id>, cursor: Option<Id>)
    requires Distinct(listing)
    ensures
      var out, next := Published(listing, cursor), CursorAfter(listing, cursor);
      && Increasing(out)
      && (forall x :: x in out <==> x in listing && Beyond(cursor, x))
      && (forall x :: x in listing ==> !Beyond(next, x))
      && (cursor.Some? ==> next.Some? && next.value >= cursor.value)
  {
    NewIdsAre(listing, cursor);
    SortIncreasing(NewIds(listing, cursor));
  }

  lemma {:induction false} RunIncreasing(listings: seq<seq<Id>>, cursor: Option<Id>)
    requires forall k :: 0 <= k < |listings| ==> Distinct(listings[k])
    ensures Increasing(PublishedBy(listings, cursor))
    ensures forall x :: x in PublishedBy(listings, cursor) ==> Beyond(cursor, x)
    decreases |listings|
  {
    if listings != [] {
      ScanIs(listings[0], cursor);
      var next := CursorAfter(listings[0], cursor);
      RunIncreasing(listings[1..], next);
      var here, later := Published(listings[0], cursor), PublishedBy(listings[1..], next);
      forall x, y | x in here && y in later ensures x < y {
        assert !Beyond(next, x) && Beyond(next, y);
      }
      IncreasingConcat(here, later);
    }
  }

  /** Over any run of completed scans, whatever the listings, the ids scanned out are strictly
      increasing, so no id is scanned out twice. */
  lemma NeverScannedTwice(listings: seq<seq<Id>>)
    requires forall k :: 0 <= k < |listings| ==> Distinct(listings[k])
    ensures Increasing(PublishedBy(listings, None)) && Distinct(PublishedBy(listings, None))
  {
    RunIncreasing(listings, None);
  }

  class Scanner {
    var lastObserved: Option<Id>
    ghost var published: seq<Id>

    constructor ()
      ensures lastObserved == None && published == []
    {
      lastObserved, published := None, [];
    }

    /** `_publish_new`, past its rate limit. */
    method PublishNew(listing: seq<Id>)
      modifies this
      ensures published == old(published) + Published(listing, old(lastObserved))
      ensures lastObserved == CursorAfter(listing, old(lastObserved))
    {
      var ordered := SortBy(AtMost, NewIds(listing, lastObserved));
      for k := 0 to |ordered|
        invariant published == old(published) + ordered[..k]
        invariant lastObserved == old(lastObserved)
      {
        published := published + [ordered[k]];
        assert ordered[..k + 1] == ordered[..k] + [ordered[k]];
      }
      assert ordered[..|ordered|] == ordered;
      if listing != [] {
        var largest := Largest(listing);
        if lastObserved.None? || largest > lastObserved.value {
          lastObserved := Some(largest);
        }
      }
    }
  }
}
