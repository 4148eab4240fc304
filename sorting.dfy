// The in-place quicksort shared by BasicAnalysis (moving-median bandshape
// smoothing) and RFIFiltering (median and MAD statistics), together with an
// independent reference sort and the median of a sorted sequence.
module Sorting {

  /** s is in non-decreasing order. */
  ghost predicate Sorted(s: seq<real>)
  {
    forall i, j :: 0 <= i < j < |s| ==> s[i] <= s[j]
  }

  /** Reference insertion of x into a sorted sequence. */
  function Insert(x: real, s: seq<real>): (r: seq<real>)
    requires Sorted(s)
    ensures Sorted(r)
    ensures multiset(r) == multiset(s) + multiset{x}
    ensures |r| > 0 && r[0] == (if |s| == 0 || x <= s[0] then x else s[0])
  {
    if |s| == 0 then [x]
    else if x <= s[0] then ConsSorted(x, s); [x] + s
    else
      assert s == [s[0]] + s[1..];
      var r := Insert(x, s[1..]);
      ConsSorted(s[0], r);
      [s[0]] + r
  }

  lemma ConsSorted(y: real, r: seq<real>)
    requires Sorted(r) && (|r| > 0 ==> y <= r[0])
    ensures Sorted([y] + r)
  {
  }

  /** Reference sort (insertion sort): the partner definition the in-place
      quicksort is proved against. */
  function SortSpec(s: seq<real>): (r: seq<real>)
    ensures Sorted(r)
    ensures multiset(r) == multiset(s)
    ensures |r| == |s|
  {
    if |s| == 0 then []
    else
      assert s == [s[0]] + s[1..];
      Insert(s[0], SortSpec(s[1..]))
  }

  /** The first element of a sorted sequence is at most any element. */
  lemma HeadIsLeast(a: seq<real>, x: real)
    requires Sorted(a) && x in multiset(a)
    ensures |a| > 0 && a[0] <= x
  {
    assert x in a;
    var k :| 0 <= k < |a| && a[k] == x;
  }

  /** Two sorted sequences with the same elements start alike. */
  lemma HeadsEqual(a: seq<real>, b: seq<real>)
    requires Sorted(a) && Sorted(b) && |a| > 0
    requires multiset(a) == multiset(b)
    ensures |b| > 0 && a[0] == b[0]
  {
    assert a[0] in multiset(a);
    HeadIsLeast(b, a[0]);
    assert b[0] in multiset(b);
    HeadIsLeast(a, b[0]);
  }

  /** The tail of a non-empty sorted sequence is sorted and holds the other
      elements. */
  lemma Tail(a: seq<real>)
    requires Sorted(a) && |a| > 0
    ensures Sorted(a[1..])
    ensures a == [a[0]] + a[1..]
    ensures multiset(a[1..]) == multiset(a) - multiset{a[0]}
  {
    assert a == [a[0]] + a[1..];
  }

  /** A sorted arrangement of a multiset is unique: any sorted permutation of
      s is SortSpec(s). */
  lemma {:induction false} SortedUnique(a: seq<real>, b: seq<real>)
    requires Sorted(a) && Sorted(b)
    requires multiset(a) == multiset(b)
    ensures a == b
  {
    if |a| == 0 {
      assert |multiset(b)| == 0;
    } else {
      HeadsEqual(a, b);
      Tail(a);
      Tail(b);
      SortedUnique(a[1..], b[1..]);
    }
  }

  /** Sorting with any correct sort gives the reference sort. */
  lemma SortedPermutationIsSortSpec(s: seq<real>, t: seq<real>)
    requires Sorted(t) && multiset(t) == multiset(s)
    ensures t == SortSpec(s)
  {
    SortedUnique(t, SortSpec(s));
  }

  /** Median of a sorted sequence: the middle element for an odd length, the
      mean of the two middle elements for an even length. */
  function Median(t: seq<real>): (m: real)
    requires |t| > 0
    ensures Sorted(t) ==> t[0] <= m <= t[|t| - 1]
    ensures Sorted(t) ==> t[(|t| - 1) / 2] <= m <= t[|t| / 2]
  {
    if |t| % 2 == 0 then (t[|t| / 2 - 1] + t[|t| / 2]) / 2.0
    else t[|t| / 2]
  }

  /** The median of a sorted sequence splits it: at least half of the
      elements are at most the median and at least half are at least it. */
  lemma {:induction false} MedianSplits(t: seq<real>)
    requires |t| > 0 && Sorted(t)
    ensures forall k :: 0 <= k <= (|t| - 1) / 2 ==> t[k] <= Median(t)
    ensures forall k :: |t| / 2 <= k < |t| ==> Median(t) <= t[k]
    ensures 2 * ((|t| - 1) / 2 + 1) >= |t| && 2 * (|t| - |t| / 2) >= |t|
  {
    var m := Median(t);
    forall k | 0 <= k <= (|t| - 1) / 2
      ensures t[k] <= m
    {
      assert t[k] <= t[(|t| - 1) / 2];
    }
    forall k | |t| / 2 <= k < |t|
      ensures m <= t[k]
    {
      assert t[|t| / 2] <= t[k];
    }
  }

  /** Bounds survive a permutation of a range. */
  lemma AtMostTransfers(s: seq<real>, t: seq<real>, lo: int, hi: int, p: real)
    requires 0 <= lo <= hi <= |s| && hi <= |t|
    requires multiset(s[lo..hi]) == multiset(t[lo..hi])
    requires forall k :: lo <= k < hi ==> s[k] <= p
    ensures forall k :: lo <= k < hi ==> t[k] <= p
  {
    forall k | lo <= k < hi
      ensures t[k] <= p
    {
      assert t[k] == t[lo..hi][k - lo];
      assert t[k] in multiset(s[lo..hi]);
      var q :| 0 <= q < hi - lo && s[lo..hi][q] == t[k];
      assert s[lo + q] == t[k];
    }
  }

  lemma AboveTransfers(s: seq<real>, t: seq<real>, lo: int, hi: int, p: real)
    requires 0 <= lo <= hi <= |s| && hi <= |t|
    requires multiset(s[lo..hi]) == multiset(t[lo..hi])
    requires forall k :: lo <= k < hi ==> s[k] > p
    ensures forall k :: lo <= k < hi ==> t[k] > p
  {
    forall k | lo <= k < hi
      ensures t[k] > p
    {
      assert t[k] == t[lo..hi][k - lo];
      assert t[k] in multiset(s[lo..hi]);
      var q :| 0 <= q < hi - lo && s[lo..hi][q] == t[k];
      assert s[lo + q] == t[k];
    }
  }

  /** Two sequences that agree outside [lo, hi) and are permutations of each
      other are permutations of each other on [lo, hi). */
  lemma SliceMultiset(s: seq<real>, t: seq<real>, lo: int, hi: int)
    requires |s| == |t| && 0 <= lo <= hi <= |s|
    requires multiset(s) == multiset(t)
    requires forall k :: 0 <= k < |s| && !(lo <= k < hi) ==> s[k] == t[k]
    ensures multiset(s[lo..hi]) == multiset(t[lo..hi])
  {
    var front, back := s[..lo], s[hi..];
    assert front == t[..lo];
    assert back == t[hi..];
    assert s == front + s[lo..hi] + back;
    assert t == front + t[lo..hi] + back;
    var rest := multiset(front) + multiset(back);
    assert multiset(s) == multiset(s[lo..hi]) + rest;
    assert multiset(t) == multiset(t[lo..hi]) + rest;
    assert multiset(s[lo..hi]) == multiset(s) - rest;
  }

  /** Exchanges two elements of an array. */
  method Swap(a: array<real>, i: int, j: int)
    requires 0 <= i < a.Length && 0 <= j < a.Length
    modifies a
    ensures a[i] == old(a[j]) && a[j] == old(a[i])
    ensures forall k :: 0 <= k < a.Length && k != i && k != j ==> a[k] == old(a[k])
    ensures multiset(a[..]) == multiset(old(a[..]))
  {
    a[i], a[j] := a[j], a[i];
  }

  /** The partitioning loop of quicksort with the first element as pivot:
      i scans right over elements not above the pivot, j scans left over
      elements above it, out-of-place pairs are swapped, and finally the
      pivot is swapped into position j. */
  method Partition(a: array<real>, lo: int, hi: int) returns (j: int)
    requires 0 <= lo < hi < a.Length
    modifies a
    ensures lo <= j <= hi
    ensures a[j] == old(a[lo])
    ensures forall k :: lo <= k < j ==> a[k] <= a[j]
    ensures forall k :: j < k <= hi ==> a[k] > a[j]
    ensures forall k :: 0 <= k < a.Length && !(lo <= k <= hi) ==> a[k] == old(a[k])
    ensures multiset(a[..]) == multiset(old(a[..]))
  {
    var p := a[lo];
    var i := lo;
    j := hi;
    while i < j
      invariant lo <= i <= hi && lo <= j <= hi
      invariant a[lo] == p
      invariant forall k :: lo <= k < i ==> a[k] <= p
      invariant forall k :: j < k <= hi ==> a[k] > p
      invariant i < j ==> a[i] <= p && i < hi
      invariant i >= j ==> a[j] <= p
      invariant forall k :: 0 <= k < a.Length && !(lo <= k <= hi) ==> a[k] == old(a[k])
      invariant multiset(a[..]) == multiset(old(a[..]))
      decreases j - i
    {
      while a[i] <= p && i < hi
        invariant lo <= i <= hi
        invariant forall k :: lo <= k < i ==> a[k] <= p
        decreases hi - i
      {
        i := i + 1;
      }
      while a[j] > p
        invariant lo <= j <= hi
        invariant forall k :: j < k <= hi ==> a[k] > p
        decreases j
      {
        j := j - 1;
      }
      if i < j {
        Swap(a, i, j);
      }
    }
    Swap(a, lo, j);
  }

  /** Joining two sorted ranges around a pivot gives a sorted range. */
  lemma JoinSorted(s: seq<real>, lo: int, j: int, hi: int)
    requires 0 <= lo <= j <= hi < |s|
    requires forall k, l :: lo <= k < l <= j - 1 ==> s[k] <= s[l]
    requires forall k, l :: j + 1 <= k < l <= hi ==> s[k] <= s[l]
    requires forall k :: lo <= k < j ==> s[k] <= s[j]
    requires forall k :: j < k <= hi ==> s[k] > s[j]
    ensures forall k, l :: lo <= k < l <= hi ==> s[k] <= s[l]
  {
  }

  /** After partitioning around position j (s0), sorting the left part (s1)
      and then the right part (s2), the whole range is sorted. */
  lemma QuicksortJoin(s0: seq<real>, s1: seq<real>, s2: seq<real>, lo: int, j: int, hi: int)
    requires 0 <= lo <= j <= hi < |s0| && |s1| == |s0| && |s2| == |s0|
    requires forall k :: lo <= k < j ==> s0[k] <= s0[j]
    requires forall k :: j < k <= hi ==> s0[k] > s0[j]
    requires forall k, l :: lo <= k < l <= j - 1 ==> s1[k] <= s1[l]
    requires forall k :: 0 <= k < |s0| && !(lo <= k <= j - 1) ==> s1[k] == s0[k]
    requires multiset(s1) == multiset(s0)
    requires forall k, l :: j + 1 <= k < l <= hi ==> s2[k] <= s2[l]
    requires forall k :: 0 <= k < |s0| && !(j + 1 <= k <= hi) ==> s2[k] == s1[k]
    requires multiset(s2) == multiset(s1)
    ensures forall k, l :: lo <= k < l <= hi ==> s2[k] <= s2[l]
  {
    var p := s0[j];
    SliceMultiset(s0, s1, lo, j);
    AtMostTransfers(s0, s1, lo, j, p);
    SliceMultiset(s1, s2, j + 1, hi + 1);
    AboveTransfers(s1, s2, j + 1, hi + 1, p);
    JoinSorted(s2, lo, j, hi);
  }

  /** In-place quicksort of a[lo..hi] (both ends inclusive); a range with
      lo >= hi is left as it is. */
  method Quicksort(a: array<real>, lo: int, hi: int)
    requires 0 <= lo <= hi + 1 <= a.Length
    modifies a
    ensures forall k, l :: lo <= k < l <= hi ==> a[k] <= a[l]
    ensures forall k :: 0 <= k < a.Length && !(lo <= k <= hi) ==> a[k] == old(a[k])
    ensures multiset(a[..]) == multiset(old(a[..]))
    decreases hi - lo
  {
    if lo < hi {
      var j := Partition(a, lo, hi);
      ghost var s0 := a[..];
      Quicksort(a, lo, j - 1);
      ghost var s1 := a[..];
      Quicksort(a, j + 1, hi);
      QuicksortJoin(s0, s1, a[..], lo, j, hi);
    }
  }

  /** Sorting a whole array yields the reference sort of its contents. */
  method SortAll(a: array<real>)
    modifies a
    ensures a[..] == SortSpec(old(a[..]))
  {
    Quicksort(a, 0, a.Length - 1);
    SortedPermutationIsSortSpec(old(a[..]), a[..]);
  }
}
