// RFIFiltering: robust statistics (median and median absolute deviation) of
// a one-dimensional series (the zero-DM time series or the bandshape across
// channels) and the flag arrays derived from them.
module Rfi {
  import opened Sorting
  import opened Numeric

  /** Absolute deviations of every element from c. */
  function AbsDev(t: seq<real>, c: real): seq<real>
  {
    seq(|t|, k requires 0 <= k < |t| => Abs(t[k] - c))
  }

  /** Median of a series, order ignored. */
  ghost function MedianOf(s: seq<real>): real
    requires |s| > 0
  {
    Median(SortSpec(s))
  }

  /** Median absolute deviation of a series from its median. */
  ghost function Mad(s: seq<real>): real
    requires |s| > 0
  {
    MedianOf(AbsDev(s, MedianOf(s)))
  }

  /** The cutoff above which a deviation is an outlier: the rms times the
      cutoff-to-rms ratio. */
  function Threshold(rms: real, ratio: real): real
  {
    rms * ratio
  }

  /** The lower of the two positions of a sorted copy of n values that the
      median reads: n/2 - 1 for an even n, n/2 for an odd one (the upper
      position is n/2 either way). */
  function MedianLow(n: int): int
  {
    if n % 2 == 0 then n / 2 - 1 else n / 2
  }

  /** Both positions the median reads lie inside a copy of n values exactly
      when n > 0. For an empty series, the zero-DM series of a block of no
      samples, the median as written reads position -1 of an empty copy. */
  lemma MedianReadsInside(n: nat)
    ensures (0 <= MedianLow(n) <= n / 2 < n) <==> n > 0
    ensures n == 0 ==> MedianLow(n) == -1
  {
  }

  /** The scale factor 1.4826 turns a median absolute deviation into the rms
      of the underlying Gaussian. */
  const MadToRms: real := 1.4826

  /** Rearranging a series rearranges its absolute deviations alike. */
  lemma {:induction false} AbsDevPermutation(a: seq<real>, b: seq<real>, c: real)
    requires multiset(a) == multiset(b)
    ensures multiset(AbsDev(a, c)) == multiset(AbsDev(b, c))
    decreases |a|
  {
    if |a| == 0 {
      assert |b| == |multiset(b)| == 0;
    } else {
      assert a[0] in multiset(b);
      var k :| 0 <= k < |b| && b[k] == a[0];
      RemoveOne(a, b, k);
      AbsDevPermutation(a[1..], b[..k] + b[k + 1..], c);
      PermutationStep(a, b, k, c);
    }
  }

  /** Putting the deviation of a[0] == b[k] back on both sides. */
  lemma PermutationStep(a: seq<real>, b: seq<real>, k: int, c: real)
    requires |a| > 0 && 0 <= k < |b| && b[k] == a[0]
    requires multiset(AbsDev(a[1..], c)) == multiset(AbsDev(b[..k] + b[k + 1..], c))
    ensures multiset(AbsDev(a, c)) == multiset(AbsDev(b, c))
  {
    var x := Abs(a[0] - c);
    var y, p, q := AbsDev(a[1..], c), AbsDev(b[..k], c), AbsDev(b[k + 1..], c);
    AbsDevSplit(b, k, c);
    AbsDevCons(a, c);
    assert multiset(y) == multiset(p + q);
    InsertOne(y, p, q, x);
    assert AbsDev(a, c) == [x] + y;
    assert AbsDev(b, c) == p + [x] + q;
  }

  lemma AbsDevCons(a: seq<real>, c: real)
    requires |a| > 0
    ensures AbsDev(a, c) == [Abs(a[0] - c)] + AbsDev(a[1..], c)
  {
    var l, r := AbsDev(a, c), [Abs(a[0] - c)] + AbsDev(a[1..], c);
    assert |l| == |r|;
    forall k | 0 <= k < |l|
      ensures l[k] == r[k]
    {
      if k > 0 {
        assert a[1..][k - 1] == a[k];
      }
    }
  }

  lemma AbsDevSplit(b: seq<real>, k: int, c: real)
    requires 0 <= k < |b|
    ensures AbsDev(b, c) == AbsDev(b[..k], c) + [Abs(b[k] - c)] + AbsDev(b[k + 1..], c)
    ensures AbsDev(b[..k] + b[k + 1..], c) == AbsDev(b[..k], c) + AbsDev(b[k + 1..], c)
  {
    assert b == b[..k] + ([b[k]] + b[k + 1..]);
    AbsDevConcat(b[..k], [b[k]] + b[k + 1..], c);
    AbsDevConcat([b[k]], b[k + 1..], c);
    AbsDevConcat(b[..k], b[k + 1..], c);
  }

  lemma InsertOne(y: seq<real>, p: seq<real>, q: seq<real>, x: real)
    requires multiset(y) == multiset(p + q)
    ensures multiset([x] + y) == multiset(p + [x] + q)
  {
    assert multiset(p + [x] + q) == multiset(p) + multiset{x} + multiset(q);
  }

  /** Removing an element from both sides of a permutation. */
  lemma RemoveOne(a: seq<real>, b: seq<real>, k: int)
    requires multiset(a) == multiset(b) && |a| > 0
    requires 0 <= k < |b| && b[k] == a[0]
    ensures multiset(a[1..]) == multiset(b[..k] + b[k + 1..])
  {
    assert a == [a[0]] + a[1..];
    assert b == b[..k] + [b[k]] + b[k + 1..];
    assert multiset(a[1..]) == multiset(a) - multiset{a[0]};
    assert multiset(b[..k] + b[k + 1..]) == multiset(b) - multiset{b[k]};
  }

  lemma {:induction false} AbsDevConcat(u: seq<real>, v: seq<real>, c: real)
    ensures AbsDev(u + v, c) == AbsDev(u, c) + AbsDev(v, c)
  {
    var l, r := AbsDev(u + v, c), AbsDev(u, c) + AbsDev(v, c);
    assert |l| == |r|;
    forall k | 0 <= k < |l|
      ensures l[k] == r[k]
    {
      if k < |u| {
        assert (u + v)[k] == u[k];
      } else {
        assert (u + v)[k] == v[k - |u|];
      }
    }
  }

  /** The source takes deviations of the already sorted copy; since the
      median of the deviations ignores their order, that is the median
      absolute deviation of the input itself. */
  lemma MadOfSortedCopy(s: seq<real>)
    requires |s| > 0
    ensures |SortSpec(s)| > 0
    ensures MedianOf(AbsDev(SortSpec(s), MedianOf(s))) == Mad(s)
  {
    AbsDevPermutation(SortSpec(s), s, MedianOf(s));
    SortedPermutationIsSortSpec(AbsDev(s, MedianOf(s)), SortSpec(AbsDev(SortSpec(s), MedianOf(s))));
  }

  /** The median absolute deviation is never negative, so neither is the rms
      nor, for a non-negative cutoff-to-rms ratio, the cutoff. */
  lemma {:induction false} MadNonNegative(s: seq<real>)
    requires |s| > 0
    ensures Mad(s) >= 0.0
  {
    var d := AbsDev(s, MedianOf(s));
    var t := SortSpec(d);
    assert t[0] in multiset(d);
    var k :| 0 <= k < |d| && d[k] == t[0];
    assert t[0] >= 0.0;
  }

  /** Number of set flags in f[lo..hi). */
  function CountSet(f: seq<bool>, lo: int, hi: int): (c: nat)
    requires 0 <= lo <= hi <= |f|
    ensures c <= hi - lo
    decreases hi - lo
  {
    if lo == hi then 0 else CountSet(f, lo, hi - 1) + (if f[hi - 1] then 1 else 0)
  }

  /** Window of half-width s around i, clipped to [0, n): [WinLo, WinHi). */
  function WinLo(i: int, s: int): int { Max(0, i - s) }
  function WinHi(i: int, s: int, n: int): int { Min(n, i + s + 1) }

  /** Smoothed flag: the fraction of unflagged samples in the window. */
  function SmoothFlag(f: seq<bool>, i: int, s: nat): (r: real)
    requires 0 <= i < |f|
    ensures 0.0 <= r <= 1.0
  {
    var lo, hi := WinLo(i, s), WinHi(i, s, |f|);
    FractionBound(CountSet(f, lo, hi) as real, (hi - lo) as real);
    1.0 - (CountSet(f, lo, hi) as real) / ((hi - lo) as real)
  }

  /** Sample k lies in the window of some i < upto whose smoothed flag is
      below the threshold. */
  ghost predicate CoveredBy(sf: seq<real>, threshold: real, s: int, upto: int, k: int)
    requires 0 <= upto <= |sf|
    decreases upto
  {
    upto > 0 &&
    (CoveredBy(sf, threshold, s, upto - 1, k) ||
     (sf[upto - 1] < threshold && upto - 1 - s <= k <= upto - 1 + s))
  }

  lemma {:induction false} CoveredByIff(sf: seq<real>, threshold: real, s: int, upto: int, k: int)
    requires 0 <= upto <= |sf|
    ensures CoveredBy(sf, threshold, s, upto, k) <==>
            exists i :: 0 <= i < upto && sf[i] < threshold && i - s <= k <= i + s
    decreases upto
  {
    if upto > 0 {
      CoveredByIff(sf, threshold, s, upto - 1, k);
      if sf[upto - 1] < threshold && upto - 1 - s <= k <= upto - 1 + s {
        assert 0 <= upto - 1 < upto;
      }
    }
  }

  /** Samples i and i + 1 both deviate from ct by more than c. */
  ghost predicate PairOutlier(x: seq<real>, ct: real, c: real, i: int)
    requires 0 <= i
  {
    i + 1 < |x| && Abs(x[i] - ct) > c && Abs(x[i + 1] - ct) > c
  }

  /** Sample k belongs to an outlier pair starting before `upto`. */
  ghost predicate PairFlagged(x: seq<real>, ct: real, c: real, upto: int, k: int)
    requires 0 <= k
  {
    (k < upto && PairOutlier(x, ct, c, k)) || (0 < k <= upto && PairOutlier(x, ct, c, k - 1))
  }

  /** A user-specified block of bad channels [first, last). */
  datatype ChanBlock = ChanBlock(first: int, last: int)

  /** Channel ch lies in one of the first `upto` blocks. */
  ghost predicate InBlocks(blocks: seq<ChanBlock>, upto: int, ch: int)
    requires 0 <= upto <= |blocks|
    decreases upto
  {
    upto > 0 &&
    (InBlocks(blocks, upto - 1, ch) || blocks[upto - 1].first <= ch < blocks[upto - 1].last)
  }

  lemma {:induction false} InBlocksIff(blocks: seq<ChanBlock>, upto: int, ch: int)
    requires 0 <= upto <= |blocks|
    ensures InBlocks(blocks, upto, ch) <==>
            exists b :: 0 <= b < upto && blocks[b].first <= ch < blocks[b].last
    decreases upto
  {
    if upto > 0 {
      InBlocksIff(blocks, upto - 1, ch);
      if blocks[upto - 1].first <= ch < blocks[upto - 1].last {
        assert 0 <= upto - 1 < upto;
      }
    }
  }

  class RFIFiltering {
    /** The series examined (a view of the zero-DM series or of a
        bandshape from startChannel on); never written here. */
    const input: seq<real>
    const inputSize: int
    var centralTendency: real
    var rms: real
    var cutoff: real
    var cutoffToRms: real
    /** One flag per input sample; set means outlier. */
    const flags: array<bool>
    const sFlags: array<real>

    ghost predicate Valid()
      reads this
    {
      inputSize == |input| && flags.Length == inputSize && sFlags.Length == inputSize
    }

    /** The flags start blank. */
    constructor(input_: seq<real>)
      ensures Valid()
      ensures input == input_ && fresh(flags) && fresh(sFlags)
      ensures forall k :: 0 <= k < inputSize ==> !flags[k]
    {
      input := input_;
      inputSize := |input_|;
      flags := new bool[|input_|];
      sFlags := new real[|input_|];
      new;
      GenerateBlankFlags();
    }

    /** Clears every flag. */
    method GenerateBlankFlags()
      requires Valid()
      modifies flags
      ensures forall k :: 0 <= k < inputSize ==> !flags[k]
    {
      var i := 0;
      while i < inputSize
        invariant 0 <= i <= inputSize
        invariant forall k :: 0 <= k < i ==> !flags[k]
      {
        flags[i] := false;
        i := i + 1;
      }
    }

    /** Median for the central tendency and 1.4826 times the median absolute
        deviation for the rms. An empty series has neither; its statistics
        are 0, and there is no sample to flag. */
    method MADBased()
      requires Valid()
      modifies this
      ensures Valid() && unchanged(flags) && unchanged(sFlags)
      ensures cutoffToRms == old(cutoffToRms)
      ensures inputSize > 0 ==> centralTendency == MedianOf(input) && rms == Mad(input) * MadToRms
      ensures inputSize == 0 ==> centralTendency == 0.0 && rms == 0.0
      ensures rms >= 0.0
      ensures cutoff == Threshold(rms, cutoffToRms)
    {
      if inputSize == 0 {
        centralTendency, rms := 0.0, 0.0;
      } else {
        var ct, mad := MedianAndMad(input);
        MadNonNegative(input);
        centralTendency := ct;
        rms := mad * MadToRms;
      }
      cutoff := Threshold(rms, cutoffToRms);
    }

    /** The median of a sorted copy of the input, then the median of the
        absolute deviations of that sorted copy from it. */
    static method MedianAndMad(input: seq<real>) returns (ct: real, mad: real)
      requires |input| > 0
      ensures ct == MedianOf(input)
      ensures mad == Mad(input)
    {
      var temp := CopyOf(input);
      SortAll(temp);
      ct := MedianAt(temp);
      ReplaceByDeviation(temp, ct);
      SortAll(temp);
      mad := MedianAt(temp);
      MadOfSortedCopy(input);
    }

    static method CopyOf(input: seq<real>) returns (temp: array<real>)
      ensures fresh(temp) && temp[..] == input
    {
      temp := new real[|input|];
      var i := 0;
      while i < |input|
        invariant 0 <= i <= |input|
        invariant forall k :: 0 <= k < i ==> temp[k] == input[k]
      {
        temp[i] := input[i];
        i := i + 1;
      }
    }

    static method ReplaceByDeviation(temp: array<real>, ct: real)
      modifies temp
      ensures temp[..] == AbsDev(old(temp[..]), ct)
    {
      var i := 0;
      while i < temp.Length
        invariant 0 <= i <= temp.Length
        invariant forall k :: 0 <= k < i ==> temp[k] == Abs(old(temp[k]) - ct)
        invariant forall k :: i <= k < temp.Length ==> temp[k] == old(temp[k])
      {
        temp[i] := Abs(temp[i] - ct);
        i := i + 1;
      }
    }

    /** Median of a sorted array's contents. */
    static method MedianAt(t: array<real>) returns (m: real)
      requires t.Length > 0
      ensures m == Median(t[..])
    {
      if t.Length % 2 == 0 {
        m := (t[t.Length / 2 - 1] + t[t.Length / 2]) / 2.0;
      } else {
        m := t[t.Length / 2];
      }
    }

    /** Flags every sample deviating from the central tendency by more than
        the cutoff; flags already set stay set. */
    method FlagData()
      requires Valid()
      modifies flags
      ensures forall k :: 0 <= k < inputSize ==>
        flags[k] == (old(flags[k]) || Abs(input[k] - centralTendency) > cutoff)
    {
      var i := 0;
      while i < inputSize
        invariant 0 <= i <= inputSize
        invariant forall k :: 0 <= k < i ==>
          flags[k] == (old(flags[k]) || Abs(input[k] - centralTendency) > cutoff)
        invariant forall k :: i <= k < inputSize ==> flags[k] == old(flags[k])
      {
        if Abs(input[i] - centralTendency) > cutoff {
          flags[i] := true;
        }
        i := i + 1;
      }
    }

    /** Clears the flags, then flags both samples of every adjacent pair that
        both deviate by more than multiCutoff[1] times the rms. */
    method MultiPointFlagData(multiCutoff: seq<real>)
      requires Valid() && |multiCutoff| > 1
      modifies flags
      ensures forall k :: 0 <= k < inputSize ==>
        flags[k] == (PairOutlier(input, centralTendency, Threshold(rms, multiCutoff[1]), k) ||
                     (k > 0 && PairOutlier(input, centralTendency, Threshold(rms, multiCutoff[1]), k - 1)))
    {
      GenerateBlankFlags();
      assert inputSize == |input|;
      var c := Threshold(rms, multiCutoff[1]);
      var i := 0;
      while i < inputSize - 1
        invariant 0 <= i <= Max(0, inputSize - 1)
        invariant forall k :: 0 <= k < inputSize ==>
          flags[k] == PairFlagged(input, centralTendency, c, i, k)
      {
        if Abs(input[i] - centralTendency) > c && Abs(input[i + 1] - centralTendency) > c {
          flags[i] := true;
          flags[i + 1] := true;
        }
        i := i + 1;
      }
    }

    /** Smooths the flags over a window of windowLength/2 samples on either
        side and then flags the whole window of every sample whose smoothed
        flag (fraction of clean samples) is below the threshold. The
        decisions use the smoothed values of the flags as they were before
        this call. */
    method SmoothFlags(windowLength: int, threshold: real)
      requires Valid() && windowLength >= 0
      modifies flags, sFlags
      ensures forall i :: 0 <= i < inputSize ==>
        sFlags[i] == SmoothFlag(old(flags[..]), i, windowLength / 2)
      ensures forall k :: 0 <= k < inputSize ==>
        flags[k] == (old(flags[k]) || CoveredBy(sFlags[..], threshold, windowLength / 2, inputSize, k))
    {
      var s := windowLength / 2;
      ghost var f0 := flags[..];
      var i := 0;
      while i < inputSize
        invariant 0 <= i <= inputSize
        invariant flags[..] == f0
        invariant forall q :: 0 <= q < i ==> sFlags[q] == SmoothFlag(f0, q, s)
      {
        var v := SmoothedAt(i, s);
        sFlags[i] := v;
        i := i + 1;
      }
      ghost var sf := sFlags[..];
      i := 0;
      while i < inputSize
        invariant 0 <= i <= inputSize
        invariant sFlags[..] == sf
        invariant forall k :: 0 <= k < inputSize ==>
          flags[k] == (f0[k] || CoveredBy(sf, threshold, s, i, k))
      {
        if sFlags[i] < threshold {
          FlagWindow(i, s);
        }
        i := i + 1;
      }
    }

    /** Fraction of unflagged samples among the flags within s of sample i. */
    method SmoothedAt(i: int, s: int) returns (v: real)
      requires Valid() && 0 <= i < inputSize && s >= 0
      ensures v == SmoothFlag(flags[..], i, s)
    {
      var sum := 0.0;
      var count := 0;
      var j := -s;
      while j <= s && i + j < inputSize
        invariant -s <= j <= s + 1 && i + j <= inputSize
        invariant sum == CountSet(flags[..], WinLo(i, s), Max(WinLo(i, s), i + j)) as real
        invariant count == Max(WinLo(i, s), i + j) - WinLo(i, s)
      {
        if i + j < 0 {
          j := j + 1;
          continue;
        }
        sum := sum + (if flags[i + j] then 1.0 else 0.0);
        count := count + 1;
        j := j + 1;
      }
      v := 1.0 - sum / (count as real);
    }

    /** Flags every sample within s of sample i. */
    method FlagWindow(i: int, s: int)
      requires Valid() && 0 <= i < inputSize && s >= 0
      modifies flags
      ensures forall k :: 0 <= k < inputSize ==>
        flags[k] == (old(flags[k]) || i - s <= k <= i + s)
    {
      var j := -s;
      while j <= s && i + j < inputSize
        invariant -s <= j <= s + 1 && i + j <= inputSize
        invariant forall k :: 0 <= k < inputSize ==>
          flags[k] == (old(flags[k]) || i - s <= k < i + j)
      {
        if i + j < 0 {
          j := j + 1;
          continue;
        }
        flags[i + j] := true;
        j := j + 1;
      }
    }

    /** Flags the channels of every user-specified bad block; channel ch of
        the band is sample ch - offset of the input, and channels outside the
        input are ignored. */
    method GenerateManualFlags(blocks: seq<ChanBlock>, offset: int)
      requires Valid()
      modifies flags
      ensures forall k :: 0 <= k < inputSize ==>
        flags[k] == (old(flags[k]) || InBlocks(blocks, |blocks|, k + offset))
    {
      var i := 0;
      while i < |blocks|
        invariant 0 <= i <= |blocks|
        invariant forall k :: 0 <= k < inputSize ==>
          flags[k] == (old(flags[k]) || InBlocks(blocks, i, k + offset))
      {
        var j := blocks[i].first;
        while j < blocks[i].last
          invariant blocks[i].first <= j && (j <= blocks[i].last || j == blocks[i].first)
          invariant forall k :: 0 <= k < inputSize ==>
            flags[k] == (old(flags[k]) || InBlocks(blocks, i, k + offset) ||
                         blocks[i].first <= k + offset < j)
          decreases blocks[i].last - j
        {
          if 0 <= j - offset < inputSize {
            flags[j - offset] := true;
          }
          j := j + 1;
        }
        i := i + 1;
      }
    }
  }
}
