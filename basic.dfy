// BasicAnalysis: per-block statistics of one polarisation of the
// time-major block (blockLength rows of noOfChannels words): the zero-DM
// time series, the bandshape, the run-wide cumulative bandshapes, the
// moving-median smoothed bandshape, normalisation and the filtered 16-bit
// copy written out.
module Basic {
  import opened Numeric
  import opened Sorting

  /** Scale applied to the cumulative sums to keep them small. */
  const CumBandshapeScale: real := 1000.0

  /** Word p of a block of n channels is time sample p / n, channel p % n.
      It keeps its sample when its channel is in use and neither its time
      sample nor its channel is flagged; every other word is replaced. */
  predicate Kept(p: int, n: int, start: int, stop: int, timeFlags: seq<bool>, freqFlags: seq<bool>)
    requires n > 0 && 0 <= p && p / n < |timeFlags| && 0 <= start <= stop <= n && |freqFlags| >= stop - start
  {
    start <= p % n < stop && !timeFlags[p / n] && !freqFlags[p % n - start]
  }

  /** Sample t of channel c is kept exactly when c is in use and neither
      time sample t nor channel c is flagged. */
  lemma KeptAt(t: int, c: int, n: int, start: int, stop: int, timeFlags: seq<bool>, freqFlags: seq<bool>)
    requires 0 <= t < |timeFlags| && 0 <= c < n && 0 <= start <= stop <= n && |freqFlags| >= stop - start
    ensures 0 <= t * n + c && (t * n + c) / n == t
    ensures Kept(t * n + c, n, start, stop, timeFlags, freqFlags) <==>
      start <= c < stop && !timeFlags[t] && !freqFlags[c - start]
  {
    MulLe(0, t, n);
    RowPosition(t * n + c, t, n);
  }

  /** The 16-bit cast truncates toward zero rather than flooring: it is
      symmetric about zero and never moves a value away from zero. */
  lemma TruncTowardZero(x: real)
    ensures Trunc(-x) == -Trunc(x)
    ensures Abs(Trunc(x) as real) <= Abs(x)
  {
    TruncBounds(x);
  }

  /** Sum of a series. */
  function Sum(s: seq<real>): real
  {
    if |s| == 0 then 0.0 else Sum(s[..|s| - 1]) + s[|s| - 1]
  }

  function Square(x: real): real { x * x }

  /** Sum of the squares of a series. */
  function SumSquares(s: seq<real>): real
  {
    if |s| == 0 then 0.0 else SumSquares(s[..|s| - 1]) + Square(s[|s| - 1])
  }

  /** Sum of the samples s[j] whose flag f[j] is clear. */
  function MaskedSum(s: seq<real>, f: seq<bool>): real
    requires |s| <= |f|
  {
    if |s| == 0 then 0.0
    else MaskedSum(s[..|s| - 1], f) + (if f[|s| - 1] then 0.0 else s[|s| - 1])
  }

  /** Number of clear flags among f[..n]. */
  function CountClear(f: seq<bool>, n: int): (c: nat)
    requires 0 <= n <= |f|
    ensures c <= n
  {
    if n == 0 then 0 else CountClear(f, n - 1) + (if f[n - 1] then 0 else 1)
  }

  /** Mean of `count` samples summing to `sum`. The source divides by zero
      when there is no sample; the model gives 0 there. */
  function Mean(sum: real, count: int): real
  {
    if count == 0 then 0.0 else sum / count as real
  }

  lemma SumAppend(s: seq<real>, x: real)
    ensures Sum(s + [x]) == Sum(s) + x
    ensures SumSquares(s + [x]) == SumSquares(s) + Square(x)
  {
    assert (s + [x])[..|s|] == s;
  }

  lemma MaskedSumAppend(s: seq<real>, x: real, f: seq<bool>)
    requires |s| < |f|
    ensures MaskedSum(s + [x], f) == MaskedSum(s, f) + (if f[|s|] then 0.0 else x)
  {
    assert (s + [x])[..|s|] == s;
  }

  /** With no channel flagged, the filtered sum is the plain sum and every
      channel counts, so the zero-DM series equals its unfiltered twin. */
  lemma {:induction false} NoFlagsNoFiltering(s: seq<real>, f: seq<bool>)
    requires |s| <= |f|
    requires forall j :: 0 <= j < |s| ==> !f[j]
    ensures MaskedSum(s, f) == Sum(s)
    ensures CountClear(f, |s|) == |s|
  {
    if |s| > 0 {
      NoFlagsNoFiltering(s[..|s| - 1], f);
    }
  }

  /** Flagged channels have no influence: two rows that agree on every
      unflagged channel have the same filtered sum. */
  lemma {:induction false} FlaggedIgnored(s: seq<real>, t: seq<real>, f: seq<bool>)
    requires |s| == |t| <= |f|
    requires forall j :: 0 <= j < |s| && !f[j] ==> s[j] == t[j]
    ensures MaskedSum(s, f) == MaskedSum(t, f)
  {
    if |s| > 0 {
      FlaggedIgnored(s[..|s| - 1], t[..|t| - 1], f);
    }
  }

  /** The sum of squares is never negative. */
  lemma {:induction false} SumSquaresNonNegative(s: seq<real>)
    ensures SumSquares(s) >= 0.0
  {
    if |s| > 0 {
      SumSquaresNonNegative(s[..|s| - 1]);
    }
  }

  lemma PositiveFactor(n: real, y: real)
    requires n > 0.0 && n * y >= 0.0
    ensures y >= 0.0
  {
  }

  /** One step of the bound below: adding a sample x to n > 0 samples with
      sum a and sum of squares q. */
  lemma SquareOfSumStep(n: real, a: real, q: real, x: real)
    requires n > 0.0 && q >= 0.0 && a * a <= n * q
    ensures (a + x) * (a + x) <= (n + 1.0) * (q + x * x)
  {
    var y := q + n * x * x - 2.0 * a * x;
    var d := a - n * x;
    assert d * d >= 0.0;
    assert d * d == a * a - 2.0 * n * a * x + n * n * x * x;
    assert n * y == n * q + n * n * x * x - 2.0 * n * a * x;
    assert n * y >= d * d;
    PositiveFactor(n, y);
    assert (n + 1.0) * (q + x * x) == n * q + q + n * x * x + x * x;
    assert (a + x) * (a + x) == a * a + 2.0 * a * x + x * x;
  }

  /** The square of the sum of n samples is at most n times their sum of
      squares; so the mean square is at least the square of the mean and the
      variance under the square root of the mean-to-rms bandshape is never
      negative. */
  lemma {:induction false} SquareOfSumBound(s: seq<real>)
    ensures Sum(s) * Sum(s) <= |s| as real * SumSquares(s)
  {
    if |s| > 0 {
      var t, x := s[..|s| - 1], s[|s| - 1];
      var n, a, q := |t| as real, Sum(t), SumSquares(t);
      SquareOfSumBound(t);
      SumSquaresNonNegative(t);
      assert Sum(s) == a + x && SumSquares(s) == q + Square(x);
      if |t| == 0 {
        assert a == 0.0;
      } else {
        SquareOfSumStep(n, a, q, x);
      }
    }
  }

  /** Moving-median window of half-width w around position j of a band:
      positions [j - w, j + w) clipped to the band. */
  function Window(s: seq<real>, j: int, w: int): (r: seq<real>)
    requires 0 <= j < |s| && w >= 1
    ensures 0 < |r| <= 2 * w
    ensures r == s[Max(0, j - w) .. Min(|s|, j + w)]
  {
    s[Max(0, j - w) .. Min(|s|, j + w)]
  }

  /** The window always holds the centre sample, at most w samples before it
      and at most w - 1 after it. */
  lemma WindowCentred(s: seq<real>, j: int, w: int)
    requires 0 <= j < |s| && w >= 1
    ensures Max(0, j - w) <= j < Min(|s|, j + w)
    ensures j - Max(0, j - w) <= w && Min(|s|, j + w) - 1 - j <= w - 1
    ensures Window(s, j, w)[j - Max(0, j - w)] == s[j]
  {
  }

  /** Upper median: the element at position |s| / 2 of the sorted series. */
  function UpperMedian(s: seq<real>): real
    requires |s| > 0
  {
    SortSpec(s)[|s| / 2]
  }

  /** The upper median is one of the series' own values. */
  lemma UpperMedianIsMember(s: seq<real>)
    requires |s| > 0
    ensures exists k :: 0 <= k < |s| && s[k] == UpperMedian(s)
  {
    var t := SortSpec(s);
    var m := t[|s| / 2];
    assert m in multiset(t);
    assert m in s;
    var k :| 0 <= k < |s| && s[k] == m;
  }

  /** Cumulative smoothed value of a channel after one block: the running
      scaled sum of the block medians weighted by the block lengths, the
      smoothed bandshape (that sum over the samples accumulated, 1 where it
      is 0) and the normalised bandshape (bandshape over smoothed bandshape,
      0 where the smoothed value was 0). */
  datatype Smoothed = Smoothed(smoothSum: real, smooth: real, normalized: real)

  function SmoothStep(prevSum: real, median: real, blockLength: int, total: int, b: real): (r: Smoothed)
    ensures r.smooth != 0.0
    ensures r.normalized * r.smooth == b || (r.smooth == 1.0 && r.normalized == 0.0)
  {
    var ss := prevSum + median * blockLength as real / CumBandshapeScale;
    var sm := Mean(ss * CumBandshapeScale, total);
    if sm == 0.0 then Smoothed(ss, 1.0, 0.0) else Smoothed(ss, sm, b / sm)
  }

  /** The smoothed bandshape is the sample-weighted mean of the block
      medians: if every earlier block had median m, so that the running sum
      holds m for each of the total - blockLength earlier samples, and this
      block's median is m too, the smoothed value is m (or 1 for m = 0). */
  lemma SteadyMedian(m: real, blockLength: nat, total: int, b: real)
    requires total >= blockLength && total > 0
    ensures SmoothStep(m * (total - blockLength) as real / CumBandshapeScale, m, blockLength, total, b).smooth
            == (if m == 0.0 then 1.0 else m)
  {
    var prev := m * (total - blockLength) as real / CumBandshapeScale;
    var ss := prev + m * blockLength as real / CumBandshapeScale;
    assert ss == m * total as real / CumBandshapeScale;
    var t := total as real;
    assert ss * CumBandshapeScale == m * t;
    CancelFactor(m, t);
  }

  lemma CancelFactor(x: real, t: real)
    requires t != 0.0
    ensures x * t / t == x
  {
  }

  /** The run-wide cumulative bandshapes of one polarisation (static in the
      source, shared by every block): the scaled sum and sum of squares of
      each channel, the scaled sum of its smoothed values, and the number of
      samples accumulated. */
  class BandshapeTotals {
    const sum: array<real>
    const square: array<real>
    const smoothSum: array<real>
    const count: array<nat>

    ghost predicate Valid(n: int)
    {
      sum.Length == n && square.Length == n && smoothSum.Length == n && count.Length == n &&
      sum != square && sum != smoothSum && square != smoothSum
    }

    /** Every total starts at zero. */
    constructor(n: nat)
      ensures Valid(n) && fresh(sum) && fresh(square) && fresh(smoothSum) && fresh(count)
      ensures forall c :: 0 <= c < n ==>
        sum[c] == 0.0 && square[c] == 0.0 && smoothSum[c] == 0.0 && count[c] == 0
    {
      sum := new real[n](_ => 0.0);
      square := new real[n](_ => 0.0);
      smoothSum := new real[n](_ => 0.0);
      count := new nat[n](_ => 0);
    }
  }

  /** Analysis of one polarisation of one block. Channels
      [startChannel, stopChannel) of noOfChannels are in use. */
  class BasicAnalysis {
    const noOfChannels: int
    const startChannel: int
    const stopChannel: int
    const smoothingWindowLength: int
    const blockLength: int
    /** Word t * noOfChannels + c is channel c of time sample t. */
    const rawData: array<real>
    const zeroDM: array<real>
    const zeroDMUnfiltered: array<real>
    const bandshape: array<real>
    const meanToRmsBandshape: array<real>
    const smoothBandshape: array<real>
    const normalizedBandshape: array<real>
    const totals: BandshapeTotals
    var count: nat
    var filteredRawData: array<int>

    ghost predicate Valid()
    {
      0 <= startChannel <= stopChannel <= noOfChannels && blockLength >= 0 &&
      rawData.Length == blockLength * noOfChannels &&
      zeroDM.Length == blockLength && zeroDMUnfiltered.Length == blockLength &&
      bandshape.Length == noOfChannels && meanToRmsBandshape.Length == noOfChannels &&
      smoothBandshape.Length == noOfChannels && normalizedBandshape.Length == noOfChannels &&
      totals.Valid(noOfChannels) &&
      zeroDM != zeroDMUnfiltered && rawData != zeroDM && rawData != zeroDMUnfiltered &&
      rawData != smoothBandshape && rawData != bandshape && rawData != meanToRmsBandshape &&
      rawData != normalizedBandshape &&
      bandshape != meanToRmsBandshape && smoothBandshape != normalizedBandshape &&
      bandshape != smoothBandshape && bandshape != normalizedBandshape &&
      totals.sum != bandshape && totals.sum != meanToRmsBandshape &&
      totals.square != bandshape && totals.square != meanToRmsBandshape &&
      totals.smoothSum != smoothBandshape && totals.smoothSum != normalizedBandshape &&
      totals.smoothSum != bandshape && totals.smoothSum != meanToRmsBandshape &&
      smoothBandshape != totals.sum && smoothBandshape != totals.square &&
      smoothBandshape != meanToRmsBandshape && normalizedBandshape != totals.sum &&
      normalizedBandshape != totals.square && normalizedBandshape != meanToRmsBandshape
    }

    /** Analysis of a block: the raw data is taken over, the per-block
        arrays are allocated and the run-wide totals are shared. */
    constructor(rawData: array<real>, blockLength: nat, noOfChannels: nat, startChannel: int,
                stopChannel: int, smoothingWindowLength: int, totals: BandshapeTotals)
      requires 0 <= startChannel <= stopChannel <= noOfChannels
      requires rawData.Length == blockLength * noOfChannels && totals.Valid(noOfChannels)
      requires rawData != totals.sum && rawData != totals.square && rawData != totals.smoothSum
      ensures Valid()
      ensures this.rawData == rawData && this.blockLength == blockLength && this.totals == totals
      ensures this.noOfChannels == noOfChannels && this.startChannel == startChannel
      ensures this.stopChannel == stopChannel && this.smoothingWindowLength == smoothingWindowLength
      ensures fresh(zeroDM) && fresh(zeroDMUnfiltered) && fresh(bandshape) && fresh(meanToRmsBandshape)
      ensures fresh(smoothBandshape) && fresh(normalizedBandshape)
    {
      this.rawData := rawData;
      this.blockLength := blockLength;
      this.noOfChannels := noOfChannels;
      this.startChannel := startChannel;
      this.stopChannel := stopChannel;
      this.smoothingWindowLength := smoothingWindowLength;
      this.totals := totals;
      zeroDM := new real[blockLength];
      zeroDMUnfiltered := new real[blockLength];
      bandshape := new real[noOfChannels];
      meanToRmsBandshape := new real[noOfChannels];
      smoothBandshape := new real[noOfChannels];
      normalizedBandshape := new real[noOfChannels];
      count := 0;
      filteredRawData := new int[0];
    }

    /** The in-use channels of time sample t. */
    function Channels(t: int): (r: seq<real>)
      requires Valid() && 0 <= t < blockLength
      reads rawData
      ensures |r| == stopChannel - startChannel
    {
      RowInside(t, noOfChannels, blockLength);
      rawData[t * noOfChannels + startChannel .. t * noOfChannels + stopChannel]
    }

    /** Channel c at time samples 0 .. rows-1. */
    function Column(c: int, rows: int): (r: seq<real>)
      requires Valid() && 0 <= c < noOfChannels && 0 <= rows <= blockLength
      reads rawData
      ensures |r| == rows
    {
      if rows == 0 then []
      else
        FrameIndex(rows - 1, c, noOfChannels, blockLength);
        Column(c, rows - 1) + [rawData[(rows - 1) * noOfChannels + c]]
    }

    /** Zero-DM series: for each time sample the mean of the in-use channels
        whose frequency flag is clear, and the mean of all in-use channels
        for the unfiltered twin. */
    method ComputeZeroDM(freqFlags: seq<bool>)
      requires Valid() && |freqFlags| >= stopChannel - startChannel
      modifies zeroDM, zeroDMUnfiltered
      ensures forall t :: 0 <= t < blockLength ==>
        zeroDM[t] == Mean(MaskedSum(Channels(t), freqFlags), CountClear(freqFlags, stopChannel - startChannel)) &&
        zeroDMUnfiltered[t] == Mean(Sum(Channels(t)), stopChannel - startChannel)
    {
      var nChan := stopChannel - startChannel;
      var count := 0;
      var j := 0;
      while j < nChan
        invariant 0 <= j <= nChan && count == CountClear(freqFlags, j)
      {
        if !freqFlags[j] {
          count := count + 1;
        }
        j := j + 1;
      }
      var base := 0;
      var i := 0;
      while i < blockLength
        invariant 0 <= i <= blockLength && base == i * noOfChannels
        invariant forall t :: 0 <= t < i ==>
          zeroDM[t] == Mean(MaskedSum(Channels(t), freqFlags), count) &&
          zeroDMUnfiltered[t] == Mean(Sum(Channels(t)), nChan)
      {
        RowInside(i, noOfChannels, blockLength);
        var filtered, all := SumChannels(base + startChannel, freqFlags);
        assert Channels(i) == rawData[base + startChannel .. base + stopChannel];
        zeroDM[i] := Mean(filtered, count);
        zeroDMUnfiltered[i] := Mean(all, nChan);
        base := base + noOfChannels;
        i := i + 1;
      }
    }

    /** Filtered and plain sums of the in-use channels of the row whose
        first in-use word is p. */
    method SumChannels(p: int, freqFlags: seq<bool>) returns (filtered: real, all: real)
      requires Valid() && |freqFlags| >= stopChannel - startChannel
      requires 0 <= p && p + (stopChannel - startChannel) <= rawData.Length
      ensures filtered == MaskedSum(rawData[p .. p + (stopChannel - startChannel)], freqFlags)
      ensures all == Sum(rawData[p .. p + (stopChannel - startChannel)])
    {
      filtered, all := 0.0, 0.0;
      var j := 0;
      while j < stopChannel - startChannel
        invariant 0 <= j <= stopChannel - startChannel
        invariant filtered == MaskedSum(rawData[p .. p + j], freqFlags)
        invariant all == Sum(rawData[p .. p + j])
      {
        assert rawData[p .. p + j + 1] == rawData[p .. p + j] + [rawData[p + j]];
        SumAppend(rawData[p .. p + j], rawData[p + j]);
        MaskedSumAppend(rawData[p .. p + j], rawData[p + j], freqFlags);
        all := all + rawData[p + j];
        if !freqFlags[j] {
          filtered := filtered + rawData[p + j];
        }
        j := j + 1;
      }
    }

    /** Bandshape of the block: for each in-use channel the sum of its
        samples and the sum of their squares (zero elsewhere); the block's
        sample count is its length. */
    method ComputeBandshape()
      requires Valid()
      modifies bandshape, meanToRmsBandshape, this`count
      ensures count == blockLength
      ensures forall c :: startChannel <= c < stopChannel ==>
        bandshape[c] == Sum(Column(c, blockLength)) &&
        meanToRmsBandshape[c] == SumSquares(Column(c, blockLength))
      ensures forall c :: 0 <= c < noOfChannels && !(startChannel <= c < stopChannel) ==>
        bandshape[c] == 0.0 && meanToRmsBandshape[c] == 0.0
    {
      var j := 0;
      while j < noOfChannels
        invariant 0 <= j <= noOfChannels
        invariant forall c :: 0 <= c < j ==> bandshape[c] == 0.0 && meanToRmsBandshape[c] == 0.0
      {
        bandshape[j], meanToRmsBandshape[j] := 0.0, 0.0;
        j := j + 1;
      }
      AddRows();
      count := blockLength;
    }

    /** Adds every row of the block to bandshapes that start at zero. */
    method AddRows()
      requires Valid()
      requires forall c :: 0 <= c < noOfChannels ==> bandshape[c] == 0.0 && meanToRmsBandshape[c] == 0.0
      modifies bandshape, meanToRmsBandshape
      ensures forall c :: startChannel <= c < stopChannel ==>
        bandshape[c] == Sum(Column(c, blockLength)) &&
        meanToRmsBandshape[c] == SumSquares(Column(c, blockLength))
      ensures forall c :: 0 <= c < noOfChannels && !(startChannel <= c < stopChannel) ==>
        bandshape[c] == 0.0 && meanToRmsBandshape[c] == 0.0
    {
      var base := 0;
      var i := 0;
      while i < blockLength
        invariant 0 <= i <= blockLength && base == i * noOfChannels
        invariant forall c :: startChannel <= c < stopChannel ==>
          bandshape[c] == Sum(Column(c, i)) && meanToRmsBandshape[c] == SumSquares(Column(c, i))
        invariant forall c :: 0 <= c < noOfChannels && !(startChannel <= c < stopChannel) ==>
          bandshape[c] == 0.0 && meanToRmsBandshape[c] == 0.0
      {
        RowInside(i, noOfChannels, blockLength);
        AddRow(base);
        forall c | startChannel <= c < stopChannel
          ensures Sum(Column(c, i + 1)) == Sum(Column(c, i)) + rawData[base + c]
          ensures SumSquares(Column(c, i + 1)) == SumSquares(Column(c, i)) + Square(rawData[base + c])
        {
          ColumnStepAt(c, i);
        }
        base := base + noOfChannels;
        i := i + 1;
      }
    }

    /** Extending column c by time sample i adds that sample to its sums. */
    lemma ColumnStepAt(c: int, i: int)
      requires Valid() && 0 <= c < noOfChannels && 0 <= i < blockLength
      ensures 0 <= i * noOfChannels + c < rawData.Length
      ensures Sum(Column(c, i + 1)) == Sum(Column(c, i)) + rawData[i * noOfChannels + c]
      ensures SumSquares(Column(c, i + 1)) == SumSquares(Column(c, i)) + Square(rawData[i * noOfChannels + c])
    {
      FrameIndex(i, c, noOfChannels, blockLength);
      SumAppend(Column(c, i), rawData[i * noOfChannels + c]);
    }

    /** Adds the in-use channels of the row starting at word base to the
        bandshape and their squares to the mean-to-rms bandshape. */
    method AddRow(base: int)
      requires Valid() && 0 <= base && base + noOfChannels <= rawData.Length
      modifies bandshape, meanToRmsBandshape
      ensures forall c :: startChannel <= c < stopChannel ==>
        bandshape[c] == old(bandshape[c]) + rawData[base + c] &&
        meanToRmsBandshape[c] == old(meanToRmsBandshape[c]) + Square(rawData[base + c])
      ensures forall c :: 0 <= c < noOfChannels && !(startChannel <= c < stopChannel) ==>
        bandshape[c] == old(bandshape[c]) && meanToRmsBandshape[c] == old(meanToRmsBandshape[c])
    {
      var p := base + startChannel;
      var c := startChannel;
      while c < stopChannel
        invariant startChannel <= c <= stopChannel && p == base + c
        invariant forall k :: startChannel <= k < c ==>
          bandshape[k] == old(bandshape[k]) + rawData[base + k] &&
          meanToRmsBandshape[k] == old(meanToRmsBandshape[k]) + Square(rawData[base + k])
        invariant forall k :: 0 <= k < noOfChannels && !(startChannel <= k < c) ==>
          bandshape[k] == old(bandshape[k]) && meanToRmsBandshape[k] == old(meanToRmsBandshape[k])
      {
        bandshape[c] := bandshape[c] + rawData[p];
        meanToRmsBandshape[c] := meanToRmsBandshape[c] + Square(rawData[p]);
        p := p + 1;
        c := c + 1;
      }
    }

    /** Run-wide accumulation of the block's bandshape: each in-use
        channel's sum and sum of squares are added, scaled down, to the
        cumulative totals and the block's sample count to the channel's
        count; the bandshape becomes the block mean and, where that mean is
        0, the mean-to-rms value is 0. Then, when requested, the bandshape is
        smoothed and normalised. */
    method CalculateCumulativeBandshapes(smoothAndNormalize: bool)
      requires Valid()
      requires smoothAndNormalize ==> smoothingWindowLength >= 2
      modifies totals.sum, totals.square, totals.count, bandshape, meanToRmsBandshape
      modifies totals.smoothSum, smoothBandshape, normalizedBandshape
      ensures forall c :: startChannel <= c < stopChannel ==>
        Accumulated(c, old(totals.sum[c]), old(totals.square[c]), old(totals.count[c]),
                    old(bandshape[c]), old(meanToRmsBandshape[c]))
      ensures forall c :: 0 <= c < noOfChannels && !(startChannel <= c < stopChannel) ==>
        totals.sum[c] == old(totals.sum[c]) && totals.square[c] == old(totals.square[c]) &&
        totals.count[c] == old(totals.count[c]) && bandshape[c] == old(bandshape[c]) &&
        meanToRmsBandshape[c] == old(meanToRmsBandshape[c])
      ensures smoothAndNormalize ==> forall c :: 0 <= c < noOfChannels ==> SmoothedAt(c, old(totals.smoothSum[c]))
      ensures !smoothAndNormalize ==>
        unchanged(totals.smoothSum) && unchanged(smoothBandshape) && unchanged(normalizedBandshape)
    {
      AccumulateBandshape();
      if smoothAndNormalize {
        SmoothAndNormalizeBandshape();
      }
    }

    /** Channel c after accumulation, given its totals, bandshape and
        mean-to-rms values before. */
    ghost predicate Accumulated(c: int, sum0: real, square0: real, count0: nat, b0: real, ms0: real)
      requires Valid() && 0 <= c < noOfChannels
      reads this, totals.sum, totals.square, totals.count, bandshape, meanToRmsBandshape
    {
      totals.sum[c] == sum0 + b0 / CumBandshapeScale &&
      totals.square[c] == square0 + ms0 / (CumBandshapeScale * CumBandshapeScale) &&
      totals.count[c] == count0 + count &&
      bandshape[c] == Mean(b0, count) &&
      meanToRmsBandshape[c] == (if bandshape[c] == 0.0 then 0.0 else ms0)
    }

    method AccumulateBandshape()
      requires Valid()
      modifies totals.sum, totals.square, totals.count, bandshape, meanToRmsBandshape
      ensures forall c :: startChannel <= c < stopChannel ==>
        Accumulated(c, old(totals.sum[c]), old(totals.square[c]), old(totals.count[c]),
                    old(bandshape[c]), old(meanToRmsBandshape[c]))
      ensures forall c :: 0 <= c < noOfChannels && !(startChannel <= c < stopChannel) ==>
        totals.sum[c] == old(totals.sum[c]) && totals.square[c] == old(totals.square[c]) &&
        totals.count[c] == old(totals.count[c]) && bandshape[c] == old(bandshape[c]) &&
        meanToRmsBandshape[c] == old(meanToRmsBandshape[c])
    {
      var c := startChannel;
      while c < stopChannel
        invariant startChannel <= c <= stopChannel
        invariant forall k :: startChannel <= k < c ==>
          Accumulated(k, old(totals.sum[k]), old(totals.square[k]), old(totals.count[k]),
                      old(bandshape[k]), old(meanToRmsBandshape[k]))
        invariant forall k :: 0 <= k < noOfChannels && !(startChannel <= k < c) ==>
          totals.sum[k] == old(totals.sum[k]) && totals.square[k] == old(totals.square[k]) &&
          totals.count[k] == old(totals.count[k]) && bandshape[k] == old(bandshape[k]) &&
          meanToRmsBandshape[k] == old(meanToRmsBandshape[k])
      {
        AccumulateChannel(c);
        c := c + 1;
      }
    }

    /** Accumulates channel c, leaving every other channel as it was. */
    method AccumulateChannel(c: int)
      requires Valid() && startChannel <= c < stopChannel
      modifies totals.sum, totals.square, totals.count, bandshape, meanToRmsBandshape
      ensures Accumulated(c, old(totals.sum[c]), old(totals.square[c]), old(totals.count[c]),
                          old(bandshape[c]), old(meanToRmsBandshape[c]))
      ensures forall k :: 0 <= k < noOfChannels && k != c ==>
        totals.sum[k] == old(totals.sum[k]) && totals.square[k] == old(totals.square[k]) &&
        totals.count[k] == old(totals.count[k]) && bandshape[k] == old(bandshape[k]) &&
        meanToRmsBandshape[k] == old(meanToRmsBandshape[k])
    {
      totals.sum[c] := totals.sum[c] + bandshape[c] / CumBandshapeScale;
      totals.square[c] := totals.square[c] + meanToRmsBandshape[c] / (CumBandshapeScale * CumBandshapeScale);
      totals.count[c] := totals.count[c] + count;
      bandshape[c] := Mean(bandshape[c], count);
      if bandshape[c] == 0.0 {
        meanToRmsBandshape[c] := 0.0;
      }
    }

    /** The in-use part of the bandshape. */
    function Band(): (r: seq<real>)
      requires Valid()
      reads bandshape
      ensures |r| == stopChannel - startChannel
    {
      bandshape[startChannel .. stopChannel]
    }

    /** What in-use channel c becomes after smoothing, given its cumulative
        smoothed sum before: SmoothStep with the upper median of the
        channel's window of the band. */
    function SmoothTarget(c: int, smoothSum0: real): (r: Smoothed)
      requires Valid() && startChannel <= c < stopChannel && smoothingWindowLength >= 2
      reads bandshape, totals.count
      ensures r.smooth != 0.0
      ensures r.normalized * r.smooth == bandshape[c] || (r.smooth == 1.0 && r.normalized == 0.0)
    {
      SmoothStep(smoothSum0, UpperMedian(Window(Band(), c - startChannel, smoothingWindowLength / 2)),
                 blockLength, totals.count[c], bandshape[c])
    }

    /** Channel c after smoothing, given its cumulative smoothed sum before:
        in-use channels hold their SmoothTarget; the others have smoothed
        value 0 and keep their sum. */
    ghost predicate SmoothedAt(c: int, smoothSum0: real)
      requires Valid() && 0 <= c < noOfChannels && smoothingWindowLength >= 2
      reads bandshape, totals.smoothSum, totals.count, smoothBandshape, normalizedBandshape
    {
      if startChannel <= c < stopChannel then
        var r := SmoothTarget(c, smoothSum0);
        totals.smoothSum[c] == r.smoothSum && smoothBandshape[c] == r.smooth && normalizedBandshape[c] == r.normalized
      else
        totals.smoothSum[c] == smoothSum0 && smoothBandshape[c] == 0.0
    }

    /** Band positions [0, j) are smoothed from the sums s0 and the others
        still hold the sums s0, smoothed value 0 and normalised values n0. */
    ghost predicate SmoothedUpTo(j: int, s0: seq<real>, n0: seq<real>)
      requires Valid() && smoothingWindowLength >= 2
      reads bandshape, totals.smoothSum, totals.count, smoothBandshape, normalizedBandshape
    {
      |s0| == |n0| == noOfChannels && 0 <= j <= stopChannel - startChannel &&
      (forall c :: startChannel <= c < startChannel + j ==>
        var r := SmoothTarget(c, s0[c]);
        totals.smoothSum[c] == r.smoothSum && smoothBandshape[c] == r.smooth && normalizedBandshape[c] == r.normalized) &&
      (forall c :: 0 <= c < noOfChannels && !(startChannel <= c < startChannel + j) ==>
        totals.smoothSum[c] == s0[c] && smoothBandshape[c] == 0.0 && normalizedBandshape[c] == n0[c])
    }

    /** Moving-median smoothing of the band, accumulated over the run, and
        the bandshape normalised by it. Every in-use channel ends with a
        non-zero smoothed value. */
    method SmoothAndNormalizeBandshape()
      requires Valid() && smoothingWindowLength >= 2
      modifies totals.smoothSum, smoothBandshape, normalizedBandshape
      ensures forall c :: 0 <= c < noOfChannels ==> SmoothedAt(c, old(totals.smoothSum[c]))
      ensures forall c :: 0 <= c < noOfChannels && !(startChannel <= c < stopChannel) ==>
        normalizedBandshape[c] == old(normalizedBandshape[c])
      ensures forall c :: startChannel <= c < stopChannel ==> smoothBandshape[c] != 0.0
    {
      ClearSmoothBandshape();
      ghost var s0, n0 := old(totals.smoothSum[..]), old(normalizedBandshape[..]);
      var j := 0;
      while j < stopChannel - startChannel
        invariant SmoothedUpTo(j, s0, n0)
      {
        SmoothChannel(j, s0, n0);
        j := j + 1;
      }
      forall c | 0 <= c < noOfChannels
        ensures SmoothedAt(c, old(totals.smoothSum[c]))
        ensures startChannel <= c < stopChannel ==> smoothBandshape[c] != 0.0
      {
      }
    }

    /** Sets every channel's smoothed value to 0. */
    method ClearSmoothBandshape()
      requires Valid()
      modifies smoothBandshape
      ensures forall c :: 0 <= c < noOfChannels ==> smoothBandshape[c] == 0.0
    {
      var k := 0;
      while k < noOfChannels
        invariant 0 <= k <= noOfChannels
        invariant forall c :: 0 <= c < k ==> smoothBandshape[c] == 0.0
      {
        smoothBandshape[k] := 0.0;
        k := k + 1;
      }
    }

    /** Smooths and normalises band position j, leaving every other channel
        as it was. */
    method SmoothChannel(j: int, ghost s0: seq<real>, ghost n0: seq<real>)
      requires Valid() && smoothingWindowLength >= 2 && 0 <= j < stopChannel - startChannel
      requires SmoothedUpTo(j, s0, n0)
      modifies totals.smoothSum, smoothBandshape, normalizedBandshape
      ensures SmoothedUpTo(j + 1, s0, n0)
    {
      var m := WindowMedianAt(j);
      var c := startChannel + j;
      ghost var target := SmoothTarget(c, s0[c]);
      assert target == SmoothStep(s0[c], m, blockLength, totals.count[c], bandshape[c]);
      StoreSmoothed(c, m);
      forall k | startChannel <= k < c
        ensures var r := SmoothTarget(k, s0[k]);
          totals.smoothSum[k] == r.smoothSum && smoothBandshape[k] == r.smooth && normalizedBandshape[k] == r.normalized
      {
        assert old(SmoothTarget(k, s0[k])) == SmoothTarget(k, s0[k]);
      }
      assert SmoothTarget(c, s0[c]) == target;
    }

    /** Adds the block's median m of channel c, weighted by the block
        length, to the channel's cumulative smoothed sum, and sets the
        channel's smoothed and normalised values from it. */
    method StoreSmoothed(c: int, m: real)
      requires Valid() && startChannel <= c < stopChannel
      modifies totals.smoothSum, smoothBandshape, normalizedBandshape
      ensures var r := SmoothStep(old(totals.smoothSum[c]), m, blockLength, totals.count[c], bandshape[c]);
        totals.smoothSum[c] == r.smoothSum && smoothBandshape[c] == r.smooth && normalizedBandshape[c] == r.normalized
      ensures forall k :: 0 <= k < noOfChannels && k != c ==>
        totals.smoothSum[k] == old(totals.smoothSum[k]) && smoothBandshape[k] == old(smoothBandshape[k]) &&
        normalizedBandshape[k] == old(normalizedBandshape[k])
    {
      totals.smoothSum[c] := totals.smoothSum[c] + m * blockLength as real / CumBandshapeScale;
      var sm := Mean(totals.smoothSum[c] * CumBandshapeScale, totals.count[c]);
      if sm == 0.0 {
        smoothBandshape[c] := 1.0;
        normalizedBandshape[c] := 0.0;
      } else {
        smoothBandshape[c] := sm;
        normalizedBandshape[c] := bandshape[c] / sm;
      }
    }

    /** Upper median of the window of band position j, found by copying the
        window into a scratch array of smoothingWindowLength cells and
        sorting it with the shared quicksort. */
    method WindowMedianAt(j: int) returns (m: real)
      requires Valid() && 0 <= j < stopChannel - startChannel && smoothingWindowLength >= 2
      ensures m == UpperMedian(Window(Band(), j, smoothingWindowLength / 2))
    {
      var temp := new real[smoothingWindowLength];
      var cnt := CopyWindow(j, temp);
      ghost var window := Window(Band(), j, smoothingWindowLength / 2);
      ghost var before := temp[..];
      Quicksort(temp, 0, cnt - 1);
      SliceMultiset(before, temp[..], 0, cnt);
      assert before[0..cnt] == window;
      SortedPermutationIsSortSpec(window, temp[0..cnt]);
      m := temp[cnt / 2];
    }

    /** Copies the window of band position j, the channels from
        smoothingWindowLength / 2 before it up to but excluding as many
        after it, clipped to the band, to the front of temp. */
    method CopyWindow(j: int, temp: array<real>) returns (cnt: int)
      requires Valid() && 0 <= j < stopChannel - startChannel && smoothingWindowLength >= 2
      requires temp.Length == smoothingWindowLength && temp != bandshape
      modifies temp
      ensures 0 < cnt <= temp.Length && temp[..cnt] == Window(Band(), j, smoothingWindowLength / 2)
    {
      var nChan := stopChannel - startChannel;
      var w := smoothingWindowLength / 2;
      ghost var lo := Max(0, j - w);
      cnt := 0;
      var i := -w;
      while i < w
        invariant -w <= i <= w && j + i <= nChan
        invariant cnt == Max(0, j + i) - lo
        invariant temp[..cnt] == Band()[lo .. lo + cnt]
      {
        if i + j >= nChan {
          break;
        }
        if i + j >= 0 {
          temp[cnt] := bandshape[startChannel + j + i];
          cnt := cnt + 1;
        }
        i := i + 1;
      }
    }

    /** Channel c of a word x after normalisation by the smoothed bandshape:
        divided by it for in-use channels, untouched otherwise. Multiplying
        back by the smoothed value restores x. */
    function NormalizedWord(x: real, c: int): (r: real)
      requires Valid() && 0 <= c < noOfChannels
      requires startChannel <= c < stopChannel ==> smoothBandshape[c] != 0.0
      reads smoothBandshape
      ensures startChannel <= c < stopChannel ==> r * smoothBandshape[c] == x
      ensures !(startChannel <= c < stopChannel) ==> r == x
    {
      if startChannel <= c < stopChannel then x / smoothBandshape[c] else x
    }

    /** Words [0, upto) of a are those of o normalised. */
    ghost predicate NormalizedUpTo(a: seq<real>, o: seq<real>, upto: int)
      requires Valid() && noOfChannels > 0
      requires forall c :: startChannel <= c < stopChannel ==> smoothBandshape[c] != 0.0
      reads smoothBandshape
    {
      |a| == |o| && 0 <= upto <= |a| &&
      (forall p :: 0 <= p < upto ==> a[p] == NormalizedWord(o[p], p % noOfChannels)) &&
      a[upto..] == o[upto..]
    }

    /** Divides every in-use channel of every time sample by the smoothed
        bandshape; word p is channel p % noOfChannels. */
    method NormalizeData()
      requires Valid() && noOfChannels > 0
      requires forall c :: startChannel <= c < stopChannel ==> smoothBandshape[c] != 0.0
      modifies rawData
      ensures forall p :: 0 <= p < rawData.Length ==>
        rawData[p] == NormalizedWord(old(rawData[p]), p % noOfChannels)
    {
      var base := 0;
      var i := 0;
      while i < blockLength
        invariant 0 <= i <= blockLength && base == i * noOfChannels
        invariant NormalizedUpTo(rawData[..], old(rawData[..]), base)
      {
        RowInside(i, noOfChannels, blockLength);
        NormalizeRow(i, base, old(rawData[..]));
        base := base + noOfChannels;
        i := i + 1;
      }
    }

    /** Normalises time sample i, whose words start at base. */
    method NormalizeRow(i: int, base: int, ghost orig: seq<real>)
      requires Valid() && noOfChannels > 0 && 0 <= i && base == i * noOfChannels
      requires base + noOfChannels <= rawData.Length
      requires forall c :: startChannel <= c < stopChannel ==> smoothBandshape[c] != 0.0
      requires NormalizedUpTo(rawData[..], orig, base)
      modifies rawData
      ensures NormalizedUpTo(rawData[..], orig, base + noOfChannels)
    {
      var p := base + startChannel;
      var c := startChannel;
      while c < stopChannel
        invariant startChannel <= c <= stopChannel && p == base + c
        invariant forall q :: 0 <= q < base ==> rawData[q] == NormalizedWord(orig[q], q % noOfChannels)
        invariant forall q :: base <= q < p ==> rawData[q] == NormalizedWord(orig[q], q - base)
        invariant forall q :: 0 <= q < rawData.Length && !(base + startChannel <= q < p) && q >= base ==>
          rawData[q] == orig[q]
      {
        rawData[p] := rawData[p] / smoothBandshape[c];
        p := p + 1;
        c := c + 1;
      }
      forall q | base <= q < base + noOfChannels
        ensures q % noOfChannels == q - base
      {
        RowPosition(q, i, noOfChannels);
      }
      assert rawData[base + noOfChannels..] == orig[base + noOfChannels..];
    }

    /** Sample t of channel c in the filtered copy: the sample scaled, when
        c is in use and neither t nor c is flagged, and otherwise channel c's
        replacement value scaled; then truncated toward zero. */
    function FilteredSample(t: int, c: int, timeFlags: seq<bool>, freqFlags: seq<bool>, replacement: seq<real>,
                            scale: real): int
      requires Valid() && 0 <= t < blockLength && 0 <= c < noOfChannels
      requires |timeFlags| >= blockLength && |freqFlags| >= stopChannel - startChannel && |replacement| == noOfChannels
      reads rawData
    {
      FrameIndex(t, c, noOfChannels, blockLength);
      Trunc((if startChannel <= c < stopChannel && !timeFlags[t] && !freqFlags[c - startChannel]
             then rawData[t * noOfChannels + c] else replacement[c]) * scale)
    }

    /** Word p of the filtered copy, time sample p / noOfChannels, channel
        p % noOfChannels. */
    function FilteredAt(p: int, timeFlags: seq<bool>, freqFlags: seq<bool>, replacement: seq<real>, scale: real): int
      requires Valid() && 0 <= p < rawData.Length
      requires |timeFlags| >= blockLength && |freqFlags| >= stopChannel - startChannel && |replacement| == noOfChannels
      reads rawData
    {
      RowOf(p, noOfChannels, blockLength);
      FilteredSample(p / noOfChannels, p % noOfChannels, timeFlags, freqFlags, replacement, scale)
    }

    /** Words [0, upto) of a hold the filtered copy. */
    ghost predicate FilteredUpTo(a: seq<int>, upto: int, timeFlags: seq<bool>, freqFlags: seq<bool>,
                                 replacement: seq<real>, scale: real)
      requires Valid()
      requires |timeFlags| >= blockLength && |freqFlags| >= stopChannel - startChannel && |replacement| == noOfChannels
      reads rawData
    {
      |a| == rawData.Length && 0 <= upto <= |a| &&
      forall p :: 0 <= p < upto ==> a[p] == FilteredAt(p, timeFlags, freqFlags, replacement, scale)
    }

    /** 16-bit copy of the block for writing out, at scale meanval: a
        sample is kept only in an in-use channel whose time sample and
        channel are both unflagged, and replacementValue stands in for every
        other word. */
    method GetFilteredRawData(timeFlags: seq<bool>, freqFlags: seq<bool>, replacementValue: real, meanval: real)
      requires Valid()
      requires |timeFlags| >= blockLength && |freqFlags| >= stopChannel - startChannel
      modifies this`filteredRawData
      ensures fresh(filteredRawData) && filteredRawData.Length == rawData.Length
      ensures forall p :: 0 <= p < rawData.Length ==>
        filteredRawData[p] == FilteredAt(p, timeFlags, freqFlags, seq(noOfChannels, _ => replacementValue), meanval)
    {
      filteredRawData := new int[blockLength * noOfChannels];
      FilterInto(filteredRawData, timeFlags, freqFlags, seq(noOfChannels, _ => replacementValue), meanval);
    }

    /** 16-bit copy of the block, unscaled, with each channel's smoothed
        bandshape value standing in for the words that are not kept. */
    method GetFilteredRawDataSmoothBshape(timeFlags: seq<bool>, freqFlags: seq<bool>)
      requires Valid()
      requires |timeFlags| >= blockLength && |freqFlags| >= stopChannel - startChannel
      modifies this`filteredRawData
      ensures fresh(filteredRawData) && filteredRawData.Length == rawData.Length
      ensures forall p :: 0 <= p < rawData.Length ==>
        filteredRawData[p] == FilteredAt(p, timeFlags, freqFlags, smoothBandshape[..], 1.0)
    {
      filteredRawData := new int[blockLength * noOfChannels];
      FilterInto(filteredRawData, timeFlags, freqFlags, smoothBandshape[..], 1.0);
    }

    /** Fills out with the filtered copy, one time sample at a time. */
    method FilterInto(out: array<int>, timeFlags: seq<bool>, freqFlags: seq<bool>, replacement: seq<real>, scale: real)
      requires Valid() && out.Length == rawData.Length
      requires |timeFlags| >= blockLength && |freqFlags| >= stopChannel - startChannel && |replacement| == noOfChannels
      modifies out
      ensures FilteredUpTo(out[..], out.Length, timeFlags, freqFlags, replacement, scale)
    {
      var base := 0;
      var i := 0;
      while i < blockLength
        invariant 0 <= i <= blockLength && base == i * noOfChannels
        invariant FilteredUpTo(out[..], base, timeFlags, freqFlags, replacement, scale)
      {
        RowInside(i, noOfChannels, blockLength);
        FilterRow(out, i, base, timeFlags, freqFlags, replacement, scale);
        base := base + noOfChannels;
        i := i + 1;
      }
    }

    /** Fills the words of time sample i, which start at base: the
        channels before the band, the band, and the channels after it. */
    method FilterRow(out: array<int>, i: int, base: int, timeFlags: seq<bool>, freqFlags: seq<bool>,
                     replacement: seq<real>, scale: real)
      requires Valid() && out.Length == rawData.Length
      requires |timeFlags| >= blockLength && |freqFlags| >= stopChannel - startChannel && |replacement| == noOfChannels
      requires 0 <= i < blockLength && base == i * noOfChannels && base + noOfChannels <= out.Length
      requires FilteredUpTo(out[..], base, timeFlags, freqFlags, replacement, scale)
      modifies out
      ensures FilteredUpTo(out[..], base + noOfChannels, timeFlags, freqFlags, replacement, scale)
    {
      var j := 0;
      while j < noOfChannels
        invariant 0 <= j <= noOfChannels
        invariant forall q :: 0 <= q < base + j ==> out[q] == FilteredAt(q, timeFlags, freqFlags, replacement, scale)
      {
        RowPosition(base + j, i, noOfChannels);
        FilterWord(out, i, j, timeFlags, freqFlags, replacement, scale);
        j := j + 1;
      }
    }

    /** Fills word j of time sample i. */
    method FilterWord(out: array<int>, i: int, j: int, timeFlags: seq<bool>, freqFlags: seq<bool>,
                      replacement: seq<real>, scale: real)
      requires Valid() && out.Length == rawData.Length
      requires |timeFlags| >= blockLength && |freqFlags| >= stopChannel - startChannel && |replacement| == noOfChannels
      requires 0 <= i < blockLength && 0 <= j < noOfChannels
      modifies out
      ensures 0 <= i * noOfChannels + j < out.Length
      ensures out[i * noOfChannels + j] == FilteredSample(i, j, timeFlags, freqFlags, replacement, scale)
      ensures forall q :: 0 <= q < out.Length && q != i * noOfChannels + j ==> out[q] == old(out[q])
    {
      FrameIndex(i, j, noOfChannels, blockLength);
      var p := i * noOfChannels + j;
      var x := if startChannel <= j < stopChannel && !timeFlags[i] && !freqFlags[j - startChannel]
               then rawData[p] else replacement[j];
      out[p] := Trunc(x * scale);
    }

    /** Word p of the filtered copy keeps its sample, scaled and truncated,
        exactly when Kept holds of it, and holds its channel's replacement
        value otherwise. */
    lemma FilteredAtKept(p: int, timeFlags: seq<bool>, freqFlags: seq<bool>, replacement: seq<real>, scale: real)
      requires Valid() && 0 <= p < rawData.Length
      requires |timeFlags| >= blockLength && |freqFlags| >= stopChannel - startChannel && |replacement| == noOfChannels
      ensures noOfChannels > 0 && p / noOfChannels < |timeFlags|
      ensures FilteredAt(p, timeFlags, freqFlags, replacement, scale) ==
        Trunc((if Kept(p, noOfChannels, startChannel, stopChannel, timeFlags, freqFlags)
               then rawData[p] else replacement[p % noOfChannels]) * scale)
    {
      RowOf(p, noOfChannels, blockLength);
      var t, c := p / noOfChannels, p % noOfChannels;
      assert p == t * noOfChannels + c;
    }
  }
}
