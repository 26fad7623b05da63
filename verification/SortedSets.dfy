/** Finite sets of numbers in increasing order, as an ordered query returns them. */
module SortedSets {
  predicate IsLeast(least: nat, s: set<nat>) { least in s && forall x :: x in s ==> least <= x }

  lemma LeastExists(s: set<nat>)
    requires s != {}
    ensures exists least :: IsLeast(least, s)
  {
    var y :| y in s;
    if s == {y} {
      assert IsLeast(y, s);
    } else {
      LeastExists(s - {y});
      var z :| IsLeast(z, s - {y});
      assert IsLeast(if y < z then y else z, s) by {
        assert forall x :: x in s ==> x == y || x in s - {y};
      }
    }
  }

  /** The identifiers of a finite set in increasing order. */
  function Sorted(s: set<nat>): (r: seq<nat>)
    ensures forall i, j :: 0 <= i < j < |r| ==> r[i] < r[j]
    ensures forall x :: x in r <==> x in s
    ensures |r| == |s|
  {
    if s == {} then []
    else
      LeastExists(s);
      var least :| IsLeast(least, s);
      var rest := Sorted(s - {least});
      assert forall i :: 0 <= i < |rest| ==> rest[i] in s && rest[i] != least;
      [least] + rest
  }

  ghost predicate Ascends(s: seq<nat>) { forall i, j :: 0 <= i < j < |s| ==> s[i] < s[j] }

  /** An ascending sequence is determined by its elements. */
  lemma {:induction false} SortedUnique(a: seq<nat>, b: seq<nat>)
    requires Ascends(a) && Ascends(b) && forall x :: x in a <==> x in b
    ensures a == b
  {
    assert a != [] ==> a[0] in a;
    assert b != [] ==> b[0] in b;
    if a != [] && b != [] {
      assert a[0] in b && b[0] in a;
      assert a[0] == b[0];
      forall x ensures x in a[1..] <==> x in b[1..] {
        assert x in a[1..] <==> x in a && x != a[0];
        assert x in b[1..] <==> x in b && x != b[0];
      }
      SortedUnique(a[1..], b[1..]);
    }
  }

  /** The elements of a set, in increasing order. */
  ghost predicate Lists(ids: seq<nat>, s: set<nat>) { Ascends(ids) && forall x :: x in ids <==> x in s }

  lemma SortedLists(s: set<nat>)
    ensures Lists(Sorted(s), s)
  {}

  lemma OneListing(ids: seq<nat>, s: set<nat>)
    requires Lists(ids, s)
    ensures Sorted(s) == ids
  {
    SortedLists(s);
    SortedUnique(Sorted(s), ids);
  }

  /** A page of a listing, and the listing of what comes after its last element. */
  lemma PageAndRest(ids: seq<nat>, s: set<nat>, page: seq<nat>, rest: set<nat>) returns (others: seq<nat>)
    requires Lists(ids, s) && page != [] && page <= ids
    requires forall x :: x in rest <==> x in s && x > page[|page| - 1]
    ensures Lists(others, rest) && ids == page + others
  {
    others := ids[|page|..];
    forall x ensures x in others <==> x in rest {
      if x in rest {
        assert x in ids;
        var i :| 0 <= i < |ids| && ids[i] == x;
        assert others[i - |page|] == x;
      }
      if x in others {
        var i :| 0 <= i < |others| && others[i] == x;
        assert ids[|page| + i] == x && ids[|page| - 1] == page[|page| - 1];
      }
    }
  }

  lemma LastIn(ids: seq<nat>, s: set<nat>, page: seq<nat>)
    requires Lists(ids, s) && page != [] && page <= ids
    ensures page[|page| - 1] in s
  {
    assert ids[|page| - 1] in ids;
  }

  lemma Smaller(a: set<nat>, b: set<nat>, x: nat)
    requires a <= b && x in b && x !in a
    ensures |a| < |b|
  {
    assert a <= b - {x};
    Subset(a, b - {x});
  }

  lemma {:induction false} Subset(a: set<nat>, b: set<nat>)
    requires a <= b
    ensures |a| <= |b|
  {
    if a != {} {
      var x :| x in a;
      Subset(a - {x}, b - {x});
    }
  }
}
