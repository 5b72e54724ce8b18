/**
  The median that numpy's `median` computes for a window of odd length: the
  middle element of the window in sorted order. Sorting is insertion sort on
  sequences, used only as a specification.
*/
module Sorting {

  predicate Sorted(s: seq<real>)
  {
    forall i, j :: 0 <= i < j < |s| ==> s[i] <= s[j]
  }

  /** Inserts v into a sorted sequence, keeping it sorted. */
  function Insert(v: real, s: seq<real>): (r: seq<real>)
    requires Sorted(s)
    ensures Sorted(r)
    ensures multiset(r) == multiset(s) + multiset{v}
    ensures |r| == |s| + 1
    ensures r[0] == v || (s != [] && r[0] == s[0])
  {
    if s == [] then [v]
    else if v <= s[0] then [v] + s
    else
      assert s == [s[0]] + s[1..];
      [s[0]] + Insert(v, s[1..])
  }

  /** The elements of s in ascending order. */
  function SortSeq(s: seq<real>): (r: seq<real>)
    ensures Sorted(r)
    ensures multiset(r) == multiset(s)
  {
    if s == [] then []
    else
      assert s == [s[0]] + s[1..];
      Insert(s[0], SortSeq(s[1..]))
  }

  /** `np.median` of a sequence of odd length: the middle of its sorted copy, always one of its elements. */
  function Median(w: seq<real>): (m: real)
    requires |w| % 2 == 1
    ensures m in w
  {
    var t := SortSeq(w);
    assert |t| == |multiset(t)| == |multiset(w)| == |w|;
    assert t[|t| / 2] in multiset(t);
    t[|t| / 2]
  }

  /** How many elements of s are strictly below v. */
  function CountBelow(s: seq<real>, v: real): nat
  {
    if s == [] then 0 else (if s[0] < v then 1 else 0) + CountBelow(s[1..], v)
  }

  /** How many elements of s are strictly above v. */
  function CountAbove(s: seq<real>, v: real): nat
  {
    if s == [] then 0 else (if s[0] > v then 1 else 0) + CountAbove(s[1..], v)
  }

  /** At most half of a window lies strictly below its median, and at most half strictly above. */
  lemma MedianSplits(w: seq<real>)
    requires |w| % 2 == 1
    ensures CountBelow(w, Median(w)) <= |w| / 2
    ensures CountAbove(w, Median(w)) <= |w| / 2
  {
    var t := SortSeq(w);
    assert |t| == |multiset(t)| == |multiset(w)| == |w|;
    var h := |t| / 2;
    SortCounts(w, t[h]);
    SortedCountBelow(t, h);
    SortedCountAbove(t, h);
  }

  /** Sorting does not change how many elements lie below or above a value. */
  lemma {:induction false} SortCounts(s: seq<real>, v: real)
    ensures CountBelow(SortSeq(s), v) == CountBelow(s, v)
    ensures CountAbove(SortSeq(s), v) == CountAbove(s, v)
  {
    if s != [] {
      SortCounts(s[1..], v);
      InsertCounts(s[0], SortSeq(s[1..]), v);
    }
  }

  lemma {:induction false} InsertCounts(x: real, s: seq<real>, v: real)
    requires Sorted(s)
    ensures CountBelow(Insert(x, s), v) == CountBelow(s, v) + (if x < v then 1 else 0)
    ensures CountAbove(Insert(x, s), v) == CountAbove(s, v) + (if x > v then 1 else 0)
  {
    if s != [] && x > s[0] {
      InsertCounts(x, s[1..], v);
      var r := Insert(x, s);
      assert r[1..] == Insert(x, s[1..]);
    } else if s != [] {
      var r := Insert(x, s);
      assert r[1..] == s;
    }
  }

  lemma {:induction false} CountsAppend(a: seq<real>, b: seq<real>, v: real)
    ensures CountBelow(a + b, v) == CountBelow(a, v) + CountBelow(b, v)
    ensures CountAbove(a + b, v) == CountAbove(a, v) + CountAbove(b, v)
  {
    if a != [] {
      CountsAppend(a[1..], b, v);
      assert (a + b)[1..] == a[1..] + b;
    } else {
      assert a + b == b;
    }
  }

  lemma {:induction false} CountsAtMostLength(s: seq<real>, v: real)
    ensures CountBelow(s, v) <= |s| && CountAbove(s, v) <= |s|
  {
    if s != [] {
      CountsAtMostLength(s[1..], v);
    }
  }

  lemma {:induction false} NoneBelow(s: seq<real>, v: real)
    requires forall i :: 0 <= i < |s| ==> s[i] >= v
    ensures CountBelow(s, v) == 0
  {
    if s != [] {
      NoneBelow(s[1..], v);
    }
  }

  lemma {:induction false} NoneAbove(s: seq<real>, v: real)
    requires forall i :: 0 <= i < |s| ==> s[i] <= v
    ensures CountAbove(s, v) == 0
  {
    if s != [] {
      NoneAbove(s[1..], v);
    }
  }

  /** In a sorted sequence only the elements before index i can be below s[i]. */
  lemma SortedCountBelow(s: seq<real>, i: nat)
    requires Sorted(s) && i < |s|
    ensures CountBelow(s, s[i]) <= i
  {
    assert s == s[..i] + s[i..];
    CountsAppend(s[..i], s[i..], s[i]);
    CountsAtMostLength(s[..i], s[i]);
    NoneBelow(s[i..], s[i]);
  }

  /** In a sorted sequence only the elements after index i can be above s[i]. */
  lemma SortedCountAbove(s: seq<real>, i: nat)
    requires Sorted(s) && i < |s|
    ensures CountAbove(s, s[i]) <= |s| - 1 - i
  {
    assert s == s[..i + 1] + s[i + 1..];
    CountsAppend(s[..i + 1], s[i + 1..], s[i]);
    CountsAtMostLength(s[i + 1..], s[i]);
    NoneAbove(s[..i + 1], s[i]);
  }
}
