// AdvancedAnalysis: incoherent dedispersion of one polarisation of a block
// and folding of the dedispersed series at the pulsar period. Channel c of
// time sample i is shifted forward by the channel's delay into bin
// i + delay; bins past the end of the block are carried into the next
// block; bins are averaged, poorly filled ones marked, and the rest folded
// into a run-wide profile.
module Dedisperse {
  import opened Numeric

  /** The dispersion constant, 4.148808 * 10^3 (MHz^2 cm^3 s / pc): the
      delay it gives is in seconds, and dividing it by the sampling interval
      in seconds gives samples. */
  const DispersionConstant: real := 4148.808

  function InvSquare(x: real): real
    requires x != 0.0
  {
    1.0 / (x * x)
  }

  /** Scaling by a non-negative factor keeps order. */
  lemma ScaleMonotone(x: real, y: real, k: real)
    requires x <= y && k >= 0.0
    ensures x * k <= y * k
  {
    assert y * k - x * k == (y - x) * k;
  }

  /** A larger positive frequency is delayed less. */
  lemma InvSquareAntitone(a: real, b: real)
    requires 0.0 < a <= b
    ensures 0.0 < InvSquare(b) <= InvSquare(a)
  {
  }

  /** Truncation of non-negative values is monotone. */
  lemma TruncMonotone(x: real, y: real)
    requires 0.0 <= x <= y
    ensures 0 <= Trunc(x) <= Trunc(y)
  {
    TruncBounds(x);
    TruncBounds(y);
  }

  /** Conversion of a difference of inverse squared frequencies into
      samples: times kdm (the dispersion constant times the dispersion
      measure), over the sampling interval ts. */
  function Scale(x: real, kdm: real, ts: real): real
    requires ts > 0.0
  {
    x * kdm / ts
  }

  lemma ScaleNonDecreasing(x1: real, x2: real, kdm: real, ts: real)
    requires 0.0 <= x1 <= x2 && kdm >= 0.0 && ts > 0.0
    ensures 0.0 <= Scale(x1, kdm, ts) <= Scale(x2, kdm, ts)
  {
    assert x1 * kdm <= x2 * kdm by { assert x2 * kdm - x1 * kdm == (x2 - x1) * kdm; }
  }

  /** Dispersion delay, in samples and before rounding, of frequency f
      relative to reference frequency f0. */
  function DispersionDelay(f: real, f0: real, kdm: real, ts: real): real
    requires f > 0.0 && f0 > 0.0 && ts > 0.0
  {
    Scale(InvSquare(f0) - InvSquare(f), kdm, ts)
  }

  lemma DispersionDelayMonotone(f1: real, f2: real, f0: real, kdm: real, ts: real)
    requires 0.0 < f0 <= f1 <= f2 && kdm >= 0.0 && ts > 0.0
    ensures 0.0 <= DispersionDelay(f1, f0, kdm, ts) <= DispersionDelay(f2, f0, kdm, ts)
  {
    InvSquareAntitone(f0, f1);
    InvSquareAntitone(f1, f2);
    ScaleNonDecreasing(InvSquare(f0) - InvSquare(f1), InvSquare(f0) - InvSquare(f2), kdm, ts);
  }

  /** Delay, in samples, of the channel of frequency rank j (rank 0 is the
      lowest frequency), relative to the lowest channel: the difference of
      inverse squared frequencies times the dispersion constant and the
      dispersion measure, over the sampling interval, rounded half up by
      truncating x + 0.5. The lowest channel's centre frequency is f0 and
      channels are df apart. */
  function ChannelDelay(j: int, f0: real, df: real, kdm: real, ts: real): int
    requires j >= 0 && f0 > 0.0 && df >= 0.0 && ts > 0.0
  {
    ScaleMonotone(0.0, j as real, df);
    Trunc(DispersionDelay(f0 + j as real * df, f0, kdm, ts) + 0.5)
  }

  /** The lowest-frequency channel is the reference: its delay is 0. */
  lemma LowestChannelUndelayed(f0: real, df: real, kdm: real, ts: real)
    requires f0 > 0.0 && df >= 0.0 && ts > 0.0
    ensures ChannelDelay(0, f0, df, kdm, ts) == 0
  {
    assert f0 + 0 as real * df == f0;
    assert DispersionDelay(f0, f0, kdm, ts) == 0.0;
    TruncBounds(0.5);
  }

  /** Delay grows with frequency rank and is never negative, for a
      non-negative dispersion measure. */
  lemma DelayMonotone(j1: int, j2: int, f0: real, df: real, kdm: real, ts: real)
    requires 0 <= j1 <= j2 && f0 > 0.0 && df >= 0.0 && kdm >= 0.0 && ts > 0.0
    ensures 0 <= ChannelDelay(j1, f0, df, kdm, ts) <= ChannelDelay(j2, f0, df, kdm, ts)
  {
    ScaleMonotone(0.0, j1 as real, df);
    ScaleMonotone(j1 as real, j2 as real, df);
    var f1, f2 := f0 + j1 as real * df, f0 + j2 as real * df;
    DispersionDelayMonotone(f1, f2, f0, kdm, ts);
    TruncMonotone(DispersionDelay(f1, f0, kdm, ts) + 0.5, DispersionDelay(f2, f0, kdm, ts) + 0.5);
  }

  /** Frequency rank of channel i: channels run upward in frequency when
      sidebandFlag is 1 and downward otherwise. */
  function Rank(i: int, n: int, sidebandFlag: int): (j: int)
    requires 0 <= i < n
    ensures 0 <= j < n
  {
    if sidebandFlag == 1 then i else n - i - 1
  }

  /** Channel of frequency rank j: the inverse of Rank. */
  lemma RankInverse(i: int, n: int, sidebandFlag: int)
    requires 0 <= i < n
    ensures Rank(Rank(i, n, sidebandFlag), n, sidebandFlag) == i
  {
  }

  /** Parameters of the delay table: the lower band edge, the bandwidth,
      the dispersion measure, the sampling interval in seconds and the
      sideband orientation. Only the low-frequency reference is modelled. */
  datatype DelayParams = DelayParams(lowestFrequency: real, bandwidth: real, dispersionMeasure: real,
                                     samplingInterval: real, sidebandFlag: int)
  {
    ghost predicate Valid()
    {
      lowestFrequency > 0.0 && bandwidth > 0.0 && dispersionMeasure >= 0.0 && samplingInterval > 0.0
    }

    function Interval(n: int): (df: real)
      requires Valid() && n > 0
      ensures df > 0.0
    {
      bandwidth / n as real
    }

    /** Centre frequency of the lowest channel. */
    function Centre(n: int): (f0: real)
      requires Valid() && n > 0
      ensures f0 > 0.0
    {
      lowestFrequency + Interval(n) / 2.0
    }

    function Kdm(): (k: real)
      requires Valid()
      ensures k >= 0.0
    {
      DispersionConstant * dispersionMeasure
    }

    /** Delay of channel i of n. */
    function Delay(i: int, n: int): int
      requires Valid() && 0 <= i < n
    {
      ChannelDelay(Rank(i, n, sidebandFlag), Centre(n), Interval(n), Kdm(), samplingInterval)
    }
  }

  /** The run-wide delay table (static in the source): one delay per
      channel, and the largest delay. */
  class DelayTable {
    const delays: array<int>
    var maxDelay: int

    constructor(n: nat)
      ensures fresh(delays) && delays.Length == n && maxDelay == 0
    {
      delays := new int[n];
      maxDelay := 0;
    }

    /** Fills the table for params: each channel's delay, and the largest
        delay, which is that of the highest-frequency channel. Every delay
        lies in [0, maxDelay] and the lowest-frequency channel's is 0. */
    method CalculateDelayTable(params: DelayParams)
      requires params.Valid() && delays.Length > 0
      modifies delays, this`maxDelay
      ensures forall i :: 0 <= i < delays.Length ==> delays[i] == params.Delay(i, delays.Length)
      ensures maxDelay == ChannelDelay(delays.Length - 1, params.Centre(delays.Length), params.Interval(delays.Length),
                                       params.Kdm(), params.samplingInterval)
      ensures forall i :: 0 <= i < delays.Length ==> 0 <= delays[i] <= maxDelay
      ensures delays[Rank(0, delays.Length, params.sidebandFlag)] == 0
    {
      var n := delays.Length;
      var f0, df, kdm, ts := params.Centre(n), params.Interval(n), params.Kdm(), params.samplingInterval;
      var i := 0;
      while i < n
        invariant 0 <= i <= n
        invariant forall k :: 0 <= k < i ==> delays[k] == params.Delay(k, n)
      {
        var j := if params.sidebandFlag == 1 then i else n - i - 1;
        delays[i] := ChannelDelay(j, f0, df, kdm, ts);
        i := i + 1;
      }
      if params.sidebandFlag == 1 {
        maxDelay := delays[n - 1];
      } else {
        maxDelay := delays[0];
      }
      forall k | 0 <= k < n
        ensures 0 <= delays[k] <= maxDelay
      {
        DelayMonotone(Rank(k, n, params.sidebandFlag), n - 1, f0, df, kdm, ts);
      }
      RankInverse(0, n, params.sidebandFlag);
      LowestChannelUndelayed(f0, df, kdm, ts);
    }
  }

  /** What the folding-start gate decides for a block: folding has not
      started yet, starts in this block at local sample start, or goes on
      from the block's first sample. */
  datatype Gate = NotYet | FirstBlock(start: int) | Folding

  /** The gate as written: block b of length samples, with maxDelay the
      largest channel delay. Not started while the block is shorter than
      maxDelay and ends before sample maxDelay; first block when b is 0, or
      when (b+1)*length lies in [maxDelay, 2*maxDelay) and exceeds
      maxDelay by less than length. */
  function FoldingGateAsWritten(length: int, maxDelay: int, b: int): Gate
    requires length >= 0 && maxDelay >= 0 && b >= 0 && (length > 0 || maxDelay > 0)
  {
    if length < maxDelay && (b + 1) * length < maxDelay then NotYet
    else if b == 0 || (length < maxDelay && (b + 1) * length / maxDelay == 1 && (b + 1) * length % maxDelay < length)
    then FirstBlock(maxDelay % length)
    else Folding
  }

  /** The gate corrected: a block that ends at or before global sample
      maxDelay is not folded; the block containing sample maxDelay starts
      folding at it. */
  function FoldingGate(length: int, maxDelay: int, b: int): (g: Gate)
    requires length >= 0 && maxDelay >= 0 && b >= 0
    ensures g.FirstBlock? ==> 0 <= g.start < length && g.start == maxDelay % length
  {
    assert (b + 1) * length == b * length + length;
    if (b + 1) * length <= maxDelay then NotYet
    else if b * length <= maxDelay then
      DivUnique(maxDelay, length, b, maxDelay - b * length);
      FirstBlock(maxDelay - b * length)
    else Folding
  }

  /** Whether local sample i of a block is folded under gate g (a block
      past the first starts at sample 0). */
  predicate Folds(g: Gate, i: int)
  {
    match g
    case NotYet => false
    case FirstBlock(start) => i >= start
    case Folding => i >= 0
  }

  /** Samples whose global index b*length + i is below maxDelay have not
      yet received every channel. The corrected gate folds sample i of
      block b exactly when its global index is at least maxDelay. */
  lemma FoldingGateExact(length: int, maxDelay: int, b: int, i: int)
    requires length > 0 && maxDelay >= 0 && b >= 0 && 0 <= i < length
    ensures Folds(FoldingGate(length, maxDelay, b), i) <==> b * length + i >= maxDelay
  {
    assert (b + 1) * length == b * length + length;
  }

  lemma DivUnique(x: int, m: int, d: int, s: int)
    requires m > 0 && 0 <= s < m && x == d * m + s
    ensures x / m == d && x % m == s
  {
    var q, r := x / m, x % m;
    assert x == q * m + r && 0 <= r < m;
    assert (d - q) * m == r - s;
    if d - q > 0 {
      MulLe(1, d - q, m);
    } else if d - q < 0 {
      MulLe(d - q, -1, m);
    }
  }

  /** The gate as written agrees with the corrected gate whenever length
      does not divide maxDelay (or maxDelay is 0). */
  lemma FoldingGateAgrees(length: int, maxDelay: int, b: int)
    requires length > 0 && maxDelay >= 0 && b >= 0
    requires maxDelay % length != 0 || maxDelay == 0
    ensures FoldingGateAsWritten(length, maxDelay, b) == FoldingGate(length, maxDelay, b)
  {
    var L, M := length, maxDelay;
    var q, r := M / L, M % L;
    assert M == q * L + r && 0 <= r < L && q >= 0;
    assert (b + 1) * L == b * L + L;
    assert (q + 1) * L == q * L + L;
    MulLe(0, b, L);
    if M == 0 {
      if b > 0 {
        MulLe(1, b, L);
      }
    } else if b < q {
      MulLe(b + 1, q, L);
      MulLe(1, q, L);
    } else if b == q {
      if b > 0 {
        MulLe(1, q, L);
        DivUnique((b + 1) * L, M, 1, L - r);
      }
    } else {
      MulLe(q + 1, b, L);
    }
  }

  /** With blocks of 4 samples and a largest delay of 8, block 1 (global
      samples 4 to 7) is folded from its first sample as written, although
      no sample before global sample 8 has received every channel. */
  lemma FoldingGateStartsEarly()
    ensures FoldingGateAsWritten(4, 8, 1) == FirstBlock(0)
    ensures Folds(FoldingGateAsWritten(4, 8, 1), 0) && 1 * 4 + 0 < 8
    ensures FoldingGate(4, 8, 1) == NotYet
  {
    assert (1 + 1) * 4 / 8 == 1 && (1 + 1) * 4 % 8 == 0;
  }

  /** The clock that lags the start of folding (static in the source). */
  class FoldingClock {
    var initLagMs: real

    constructor()
      ensures initLagMs == 0.0
    {
      initLagMs := 0.0;
    }
  }

  /** Samples the gate adds to the folding lag: the whole block when
      folding has not started, the skipped samples of the first block. */
  function LagSamples(g: Gate, length: int): int
  {
    match g
    case NotYet => length
    case FirstBlock(start) => start
    case Folding => 0
  }

  /** Mean of n values summing to sum; 0 when there are none. */
  function MeanOf(sum: real, n: int): (m: real)
    ensures n != 0 ==> m * n as real == sum
    ensures n == 0 ==> m == 0.0
  {
    if n == 0 then 0.0 else sum / n as real
  }

  lemma DivMul(x: real, p: real)
    requires p > 0.0
    ensures (x / p) * p == x
  {
  }

  lemma DivBy(z: real, x: real, p: real)
    requires p > 0.0 && z * p == x
    ensures z == x / p
  {
  }

  lemma AddOneTimes(y: real, p: real)
    ensures (y + 1.0) * p == y * p + p
  {
  }

  /** Folding phase, in [0, 1), of a sample curPosMs milliseconds into the
      run for a fixed period: the fractional part of the number of periods
      elapsed. */
  function FixedPeriodPhase(curPosMs: real, periodInMs: real): (phase: real)
    requires periodInMs > 0.0
    ensures 0.0 <= phase < 1.0
  {
    curPosMs / periodInMs - (curPosMs / periodInMs).Floor as real
  }

  /** Samples one period apart have the same phase. */
  lemma PhasePeriodic(curPosMs: real, periodInMs: real)
    requires periodInMs > 0.0
    ensures FixedPeriodPhase(curPosMs + periodInMs, periodInMs) == FixedPeriodPhase(curPosMs, periodInMs)
  {
    DivMul(curPosMs, periodInMs);
    AddOneTimes(curPosMs / periodInMs, periodInMs);
    DivBy(curPosMs / periodInMs + 1.0, curPosMs + periodInMs, periodInMs);
    assert (curPosMs / periodInMs + 1.0).Floor == (curPosMs / periodInMs).Floor + 1;
  }

  /** A phase shifted by an offset in [0, 1], brought back into [0, 1). */
  function Wrapped(phase: real): (r: real)
    requires 0.0 <= phase < 2.0
    ensures 0.0 <= r < 1.0 && (r == phase || r == phase - 1.0)
  {
    if phase >= 1.0 then phase - 1.0 else phase
  }

  /** Profile bin of a phase in [0, 2): the wrapped phase times the number
      of bins, rounded half up by truncation, with bin periodInSamples
      wrapped to bin 0. */
  function ProfileBin(phase: real, periodInSamples: int): (k: int)
    requires 0.0 <= phase < 2.0 && periodInSamples > 0
    ensures 0 <= k < periodInSamples
  {
    var ph := Wrapped(phase);
    ScaleMonotone(0.0, ph, periodInSamples as real);
    ScaleMonotone(ph, 1.0, periodInSamples as real);
    TruncBounds(ph * periodInSamples as real + 0.5);
    var index := Trunc(ph * periodInSamples as real + 0.5);
    if index == periodInSamples then 0 else index
  }

  /** The bin is the one whose centre is nearest to the wrapped phase:
      within half a bin of it, or bin 0 for a phase within half a bin
      below a whole period. */
  lemma ProfileBinNearest(phase: real, periodInSamples: int)
    requires 0.0 <= phase < 2.0 && periodInSamples > 0
    ensures var k, y := ProfileBin(phase, periodInSamples), Wrapped(phase) * periodInSamples as real;
      (k as real - 0.5 <= y < k as real + 0.5) || (k == 0 && y >= periodInSamples as real - 0.5)
  {
    TruncBounds(Wrapped(phase) * periodInSamples as real + 0.5);
  }

  /** Parameters of fixed-period folding: the sampling interval and the
      period in milliseconds, the phase offset of the profile and the
      number of profile bins. */
  datatype FoldParams = FoldParams(samplingIntervalMs: real, periodInMs: real, profileOffset: real, periodInSamples: int)
  {
    predicate Valid()
    {
      periodInMs > 0.0 && 0.0 <= profileOffset <= 1.0 && periodInSamples > 0
    }

    /** Profile bin of the sample n sampling intervals after position pos0. */
    function SampleBin(pos0: real, n: int): (k: int)
      requires Valid()
      ensures 0 <= k < periodInSamples
    {
      ProfileBin(FixedPeriodPhase(pos0 + n as real * samplingIntervalMs, periodInMs) + profileOffset, periodInSamples)
    }

    /** The bin of the sample at position pos. */
    lemma SampleBinAt(pos0: real, n: int, pos: real)
      requires Valid() && pos == pos0 + n as real * samplingIntervalMs
      ensures SampleBin(pos0, n) == ProfileBin(FixedPeriodPhase(pos, periodInMs) + profileOffset, periodInSamples)
    {
      assert SampleBin(pos0, n) ==
        ProfileBin(FixedPeriodPhase(pos0 + n as real * samplingIntervalMs, periodInMs) + profileOffset, periodInSamples);
      assert FixedPeriodPhase(pos, periodInMs) == FixedPeriodPhase(pos0 + n as real * samplingIntervalMs, periodInMs);
    }
  }

  /** 1 when sample i is unmarked and falls into bin k. */
  function SampleHit(k: int, flags: seq<bool>, from: int, i: int, pos0: real, fp: FoldParams): nat
    requires fp.Valid() && 0 <= from <= i < |flags|
  {
    if !flags[i] && fp.SampleBin(pos0, i - from) == k then 1 else 0
  }

  /** Value that sample i adds to bin k. */
  function SampleMass(k: int, flags: seq<bool>, values: seq<real>, from: int, i: int, pos0: real, fp: FoldParams): real
    requires fp.Valid() && 0 <= from <= i < |flags| && i < |values|
  {
    if !flags[i] && fp.SampleBin(pos0, i - from) == k then values[i] else 0.0
  }

  /** Number of unmarked samples i in [from, upto) that fall into bin k, when
      sample from lies at position pos0. */
  function ProfileHits(k: int, flags: seq<bool>, from: int, upto: int, pos0: real, fp: FoldParams): nat
    requires fp.Valid() && 0 <= from <= upto <= |flags|
    decreases upto
  {
    if upto == from then 0
    else ProfileHits(k, flags, from, upto - 1, pos0, fp) + SampleHit(k, flags, from, upto - 1, pos0, fp)
  }

  /** Sum of the values of those samples. */
  function ProfileMass(k: int, flags: seq<bool>, values: seq<real>, from: int, upto: int, pos0: real, fp: FoldParams): real
    requires fp.Valid() && 0 <= from <= upto <= |flags| && upto <= |values|
    decreases upto
  {
    if upto == from then 0.0
    else ProfileMass(k, flags, values, from, upto - 1, pos0, fp) + SampleMass(k, flags, values, from, upto - 1, pos0, fp)
  }

  /** Number of unmarked samples in [from, upto). */
  function Unmarked(flags: seq<bool>, from: int, upto: int): nat
    requires 0 <= from <= upto <= |flags|
    decreases upto
  {
    if upto == from then 0 else Unmarked(flags, from, upto - 1) + (if flags[upto - 1] then 0 else 1)
  }

  /** Hits of bins [0, bins). */
  function ProfileTotal(bins: int, flags: seq<bool>, from: int, upto: int, pos0: real, fp: FoldParams): nat
    requires fp.Valid() && 0 <= bins && 0 <= from <= upto <= |flags|
    decreases bins
  {
    if bins == 0 then 0 else ProfileTotal(bins - 1, flags, from, upto, pos0, fp) + ProfileHits(bins - 1, flags, from, upto, pos0, fp)
  }

  lemma {:induction false} ProfileTotalStep(bins: int, flags: seq<bool>, from: int, upto: int, pos0: real, fp: FoldParams)
    requires fp.Valid() && 0 <= bins && 0 <= from < upto <= |flags|
    ensures ProfileTotal(bins, flags, from, upto, pos0, fp) == ProfileTotal(bins, flags, from, upto - 1, pos0, fp) +
      (if !flags[upto - 1] && fp.SampleBin(pos0, upto - 1 - from) < bins then 1 else 0)
    decreases bins
  {
    if bins > 0 {
      ProfileTotalStep(bins - 1, flags, from, upto, pos0, fp);
    }
  }

  lemma {:induction false} ProfileTotalEmpty(bins: int, flags: seq<bool>, from: int, pos0: real, fp: FoldParams)
    requires fp.Valid() && 0 <= bins && 0 <= from <= |flags|
    ensures ProfileTotal(bins, flags, from, from, pos0, fp) == 0
    decreases bins
  {
    if bins > 0 {
      ProfileTotalEmpty(bins - 1, flags, from, pos0, fp);
    }
  }

  /** Conservation: every unmarked sample of [from, upto) increments exactly
      one profile bin, and no marked sample increments any. */
  lemma {:induction false} ProfileConserved(flags: seq<bool>, from: int, upto: int, pos0: real, fp: FoldParams)
    requires fp.Valid() && 0 <= from <= upto <= |flags|
    ensures ProfileTotal(fp.periodInSamples, flags, from, upto, pos0, fp) == Unmarked(flags, from, upto)
    decreases upto
  {
    if upto == from {
      ProfileTotalEmpty(fp.periodInSamples, flags, from, pos0, fp);
    } else {
      ProfileConserved(flags, from, upto - 1, pos0, fp);
      ProfileTotalStep(fp.periodInSamples, flags, from, upto, pos0, fp);
    }
  }

  /** The run-wide folded profile of one polarisation (static in the
      source): the sum and count of the samples folded into each bin, their
      unfiltered twins, and the position in milliseconds of the next sample
      to fold. */
  class FoldedProfile {
    const periodInSamples: int
    const folded: array<real>
    const count: array<int>
    const foldedUnfiltered: array<real>
    const countUnfiltered: array<int>
    var curPosMs: real

    ghost predicate Valid()
    {
      periodInSamples > 0 && folded.Length == periodInSamples && count.Length == periodInSamples &&
      foldedUnfiltered.Length == periodInSamples && countUnfiltered.Length == periodInSamples &&
      folded != foldedUnfiltered && count != countUnfiltered
    }

    constructor(periodInSamples: int)
      requires periodInSamples > 0
      ensures Valid() && this.periodInSamples == periodInSamples && curPosMs == 0.0
      ensures fresh(folded) && fresh(count) && fresh(foldedUnfiltered) && fresh(countUnfiltered)
      ensures forall k :: 0 <= k < periodInSamples ==>
        folded[k] == 0.0 && count[k] == 0 && foldedUnfiltered[k] == 0.0 && countUnfiltered[k] == 0
    {
      this.periodInSamples := periodInSamples;
      folded := new real[periodInSamples](_ => 0.0);
      count := new int[periodInSamples](_ => 0);
      foldedUnfiltered := new real[periodInSamples](_ => 0.0);
      countUnfiltered := new int[periodInSamples](_ => 0);
      curPosMs := 0.0;
    }

    function ProfileOf(): (s: Series)
      requires Valid()
      reads folded, count, foldedUnfiltered, countUnfiltered
      ensures s.Sized(periodInSamples)
    {
      Series(folded[..], count[..], foldedUnfiltered[..], countUnfiltered[..])
    }

    /** Writes the profile folded so far, for display, into cur and
        curUnfiltered: each bin's mean, 0 for an empty bin. */
    method AverageInto(cur: array<real>, curUnfiltered: array<real>)
      requires Valid() && cur.Length == periodInSamples && curUnfiltered.Length == periodInSamples
      requires cur != curUnfiltered && cur != folded && cur != foldedUnfiltered
      requires curUnfiltered != folded && curUnfiltered != foldedUnfiltered
      modifies cur, curUnfiltered
      ensures forall k :: 0 <= k < periodInSamples ==>
        cur[k] == MeanOf(folded[k], count[k]) && curUnfiltered[k] == MeanOf(foldedUnfiltered[k], countUnfiltered[k])
    {
      var k := 0;
      while k < periodInSamples
        invariant 0 <= k <= periodInSamples
        invariant forall q :: 0 <= q < k ==>
          cur[q] == MeanOf(folded[q], count[q]) && curUnfiltered[q] == MeanOf(foldedUnfiltered[q], countUnfiltered[q])
      {
        if count[k] != 0 {
          cur[k] := folded[k] / count[k] as real;
        } else {
          cur[k] := 0.0;
        }
        if countUnfiltered[k] != 0 {
          curUnfiltered[k] := foldedUnfiltered[k] / countUnfiltered[k] as real;
        } else {
          curUnfiltered[k] := 0.0;
        }
        k := k + 1;
      }
    }
  }

  datatype Option<T> = None | Some(value: T)

  /** The four accumulators of a dedispersed series, or of its carry-over:
      the sum and count of kept cells per bin, and the sum and count of all
      cells per bin. */
  datatype Series = Series(sum: seq<real>, count: seq<int>, sumUnfiltered: seq<real>, countUnfiltered: seq<int>)
  {
    predicate Sized(n: int)
    {
      |sum| == n && |count| == n && |sumUnfiltered| == n && |countUnfiltered| == n
    }

    /** Bins from k on. */
    function Drop(k: int): (r: Series)
      requires 0 <= k <= |sum| && Sized(|sum|)
      ensures r.Sized(|sum| - k)
    {
      Series(sum[k..], count[k..], sumUnfiltered[k..], countUnfiltered[k..])
    }
  }

  /** Dedispersion of one polarisation of one block of length time samples.
      Bin p of the accumulators holds dedispersed sample p; bins [length,
      length + maxDelay) are the carry-over into the next block. */
  class AdvancedAnalysis {
    const length: int
    const noOfChannels: int
    const startChannel: int
    const stopChannel: int
    const blockIndex: int
    /** The run-wide delay table and its largest entry. */
    const delays: seq<int>
    const maxDelay: int
    /** Word t * noOfChannels + c is channel c of time sample t. */
    const rawData: array<real>
    const fullDM: array<real>
    const count: array<int>
    const fullDMUnfiltered: array<real>
    const countUnfiltered: array<int>
    const excess: array<real>
    const countExcess: array<int>
    const excessUnfiltered: array<real>
    const countExcessUnfiltered: array<int>
    const dedispFlags: array<bool>
    /** The profile folded so far, for display. */
    const curFoldedProfile: array<real>
    const curFoldedProfileUnfiltered: array<real>
    var hasEnoughDedispersedData: bool
    var foldingStartIndex: int

    ghost predicate Valid()
    {
      length >= 0 && maxDelay >= 0 && 0 <= startChannel <= stopChannel <= noOfChannels &&
      |delays| == noOfChannels && (forall c :: 0 <= c < noOfChannels ==> 0 <= delays[c] <= maxDelay) &&
      rawData.Length == length * noOfChannels &&
      fullDM.Length == Bins() && count.Length == Bins() &&
      fullDMUnfiltered.Length == Bins() && countUnfiltered.Length == Bins() &&
      excess.Length == maxDelay && countExcess.Length == maxDelay &&
      excessUnfiltered.Length == maxDelay && countExcessUnfiltered.Length == maxDelay &&
      dedispFlags.Length == length &&
      rawData != fullDM && rawData != fullDMUnfiltered && rawData != excess && rawData != excessUnfiltered &&
      fullDM != fullDMUnfiltered && fullDM != excess && fullDM != excessUnfiltered &&
      fullDMUnfiltered != excess && fullDMUnfiltered != excessUnfiltered && excess != excessUnfiltered &&
      count != countUnfiltered && count != countExcess && count != countExcessUnfiltered &&
      countUnfiltered != countExcess && countUnfiltered != countExcessUnfiltered &&
      countExcess != countExcessUnfiltered
    }

    /** Number of bins of the accumulators. */
    function Bins(): int
    {
      length + maxDelay
    }

    /** Every accumulator starts at zero, no bin is marked, and folding is
        allowed from the first sample until the gate says otherwise. */
    constructor(blockIndex: int, rawData: array<real>, length: nat, noOfChannels: nat, startChannel: int,
                stopChannel: int, delays: seq<int>, maxDelay: nat, periodInSamples: nat)
      requires 0 <= startChannel <= stopChannel <= noOfChannels && rawData.Length == length * noOfChannels
      requires |delays| == noOfChannels && forall c :: 0 <= c < noOfChannels ==> 0 <= delays[c] <= maxDelay
      ensures Valid() && DisplaySeparate()
      ensures this.blockIndex == blockIndex && this.rawData == rawData && this.length == length
      ensures this.noOfChannels == noOfChannels && this.startChannel == startChannel
      ensures this.stopChannel == stopChannel && this.delays == delays && this.maxDelay == maxDelay
      ensures fresh(fullDM) && fresh(count) && fresh(fullDMUnfiltered) && fresh(countUnfiltered)
      ensures fresh(excess) && fresh(countExcess) && fresh(excessUnfiltered) && fresh(countExcessUnfiltered)
      ensures fresh(dedispFlags) && fresh(curFoldedProfile) && fresh(curFoldedProfileUnfiltered)
      ensures curFoldedProfile.Length == periodInSamples && curFoldedProfileUnfiltered.Length == periodInSamples
      ensures forall p :: 0 <= p < length + maxDelay ==>
        fullDM[p] == 0.0 && count[p] == 0 && fullDMUnfiltered[p] == 0.0 && countUnfiltered[p] == 0
      ensures forall i :: 0 <= i < length ==> !dedispFlags[i]
      ensures hasEnoughDedispersedData && foldingStartIndex == 0
    {
      this.blockIndex := blockIndex;
      this.rawData := rawData;
      this.length := length;
      this.noOfChannels := noOfChannels;
      this.startChannel := startChannel;
      this.stopChannel := stopChannel;
      this.delays := delays;
      this.maxDelay := maxDelay;
      fullDM := new real[length + maxDelay](_ => 0.0);
      count := new int[length + maxDelay](_ => 0);
      fullDMUnfiltered := new real[length + maxDelay](_ => 0.0);
      countUnfiltered := new int[length + maxDelay](_ => 0);
      excess := new real[maxDelay];
      countExcess := new int[maxDelay];
      excessUnfiltered := new real[maxDelay];
      countExcessUnfiltered := new int[maxDelay];
      dedispFlags := new bool[length](_ => false);
      curFoldedProfile := new real[periodInSamples];
      curFoldedProfileUnfiltered := new real[periodInSamples];
      hasEnoughDedispersedData := true;
      foldingStartIndex := 0;
    }

    /** The accumulators as values. */
    function BinsOf(): (s: Series)
      requires Valid()
      reads fullDM, count, fullDMUnfiltered, countUnfiltered
      ensures s.Sized(Bins())
    {
      Series(fullDM[..], count[..], fullDMUnfiltered[..], countUnfiltered[..])
    }

    /** The carry-over as values. */
    function ExcessOf(): (s: Series)
      requires Valid()
      reads excess, countExcess, excessUnfiltered, countExcessUnfiltered
      ensures s.Sized(maxDelay)
    {
      Series(excess[..], countExcess[..], excessUnfiltered[..], countExcessUnfiltered[..])
    }

    predicate FlagsFit(timeFlags: seq<bool>, freqFlags: seq<bool>)
    {
      |timeFlags| == length && |freqFlags| >= stopChannel - startChannel
    }

    /** Cell (i, c) is kept when neither its time sample nor its channel
        is flagged; freqFlags covers the band from startChannel on. */
    predicate Kept(i: int, c: int, timeFlags: seq<bool>, freqFlags: seq<bool>)
      requires FlagsFit(timeFlags, freqFlags) && 0 <= i < length && startChannel <= c < stopChannel
    {
      !freqFlags[c - startChannel] && !timeFlags[i]
    }

    /** Bin that cell (i, c) is shifted into. */
    lemma BinInRange(i: int, c: int)
      requires Valid() && 0 <= i < length && startChannel <= c < stopChannel
      ensures i <= i + delays[c] < Bins()
    {
    }

    /** Number of in-band cells (i, c) of row i with c < j that land in
        bin p, whatever their flags. */
    function RowCells(p: int, i: int, j: int): nat
      requires Valid() && startChannel <= j <= stopChannel
      decreases j
    {
      if j == startChannel then 0
      else RowCells(p, i, j - 1) + (if i + delays[j - 1] == p then 1 else 0)
    }

    /** Number of in-band cells of rows [0, rows) that land in bin p. */
    function Cells(p: int, rows: int): nat
      requires Valid() && 0 <= rows
      decreases rows
    {
      if rows == 0 then 0 else Cells(p, rows - 1) + RowCells(p, rows - 1, stopChannel)
    }

    /** Number of in-band cells (i, c) of row i with c < j that land in
        bin p and whose kept status is kept. */
    function RowHits(p: int, i: int, j: int, kept: bool, timeFlags: seq<bool>, freqFlags: seq<bool>): nat
      requires Valid() && FlagsFit(timeFlags, freqFlags) && 0 <= i < length && startChannel <= j <= stopChannel
      decreases j
    {
      if j == startChannel then 0
      else RowHits(p, i, j - 1, kept, timeFlags, freqFlags) + CellHit(p, i, j - 1, kept, timeFlags, freqFlags)
    }

    /** 1 when cell (i, c) lands in bin p and has kept status kept. */
    function CellHit(p: int, i: int, c: int, kept: bool, timeFlags: seq<bool>, freqFlags: seq<bool>): nat
      requires Valid() && FlagsFit(timeFlags, freqFlags) && 0 <= i < length && startChannel <= c < stopChannel
    {
      if i + delays[c] == p && Kept(i, c, timeFlags, freqFlags) == kept then 1 else 0
    }

    /** Value that cell (i, c) contributes to bin p among the cells of
        kept status kept. */
    function CellMass(p: int, i: int, c: int, kept: bool, timeFlags: seq<bool>, freqFlags: seq<bool>): real
      requires Valid() && FlagsFit(timeFlags, freqFlags) && 0 <= i < length && startChannel <= c < stopChannel
      reads rawData
    {
      FrameIndex(i, c, noOfChannels, length);
      if i + delays[c] == p && Kept(i, c, timeFlags, freqFlags) == kept then rawData[i * noOfChannels + c] else 0.0
    }

    /** Sum of the values of those cells. */
    function RowMass(p: int, i: int, j: int, kept: bool, timeFlags: seq<bool>, freqFlags: seq<bool>): real
      requires Valid() && FlagsFit(timeFlags, freqFlags) && 0 <= i < length && startChannel <= j <= stopChannel
      reads rawData
      decreases j
    {
      if j == startChannel then 0.0
      else RowMass(p, i, j - 1, kept, timeFlags, freqFlags) + CellMass(p, i, j - 1, kept, timeFlags, freqFlags)
    }

    /** Number of in-band cells of rows [0, rows) that land in bin p and
        whose kept status is kept. */
    function Hits(p: int, rows: int, kept: bool, timeFlags: seq<bool>, freqFlags: seq<bool>): nat
      requires Valid() && FlagsFit(timeFlags, freqFlags) && 0 <= rows <= length
      decreases rows
    {
      if rows == 0 then 0
      else Hits(p, rows - 1, kept, timeFlags, freqFlags) + RowHits(p, rows - 1, stopChannel, kept, timeFlags, freqFlags)
    }

    /** Sum of the values of those cells. */
    function Mass(p: int, rows: int, kept: bool, timeFlags: seq<bool>, freqFlags: seq<bool>): real
      requires Valid() && FlagsFit(timeFlags, freqFlags) && 0 <= rows <= length
      reads rawData
      decreases rows
    {
      if rows == 0 then 0.0
      else Mass(p, rows - 1, kept, timeFlags, freqFlags) + RowMass(p, rows - 1, stopChannel, kept, timeFlags, freqFlags)
    }

    /** Every cell is either kept or not: the two kinds of hits of a row
        together are the row's cells landing in bin p. */
    lemma {:induction false} RowHitsPartition(p: int, i: int, j: int, timeFlags: seq<bool>, freqFlags: seq<bool>)
      requires Valid() && FlagsFit(timeFlags, freqFlags) && 0 <= i < length && startChannel <= j <= stopChannel
      ensures RowHits(p, i, j, true, timeFlags, freqFlags) + RowHits(p, i, j, false, timeFlags, freqFlags) == RowCells(p, i, j)
      decreases j
    {
      if j > startChannel {
        RowHitsPartition(p, i, j - 1, timeFlags, freqFlags);
      }
    }

    /** The kept and the flagged hits of bin p together are all the cells
        landing in bin p, whatever the flags. */
    lemma {:induction false} HitsPartition(p: int, rows: int, timeFlags: seq<bool>, freqFlags: seq<bool>)
      requires Valid() && FlagsFit(timeFlags, freqFlags) && 0 <= rows <= length
      ensures Hits(p, rows, true, timeFlags, freqFlags) + Hits(p, rows, false, timeFlags, freqFlags) == Cells(p, rows)
      decreases rows
    {
      if rows > 0 {
        HitsPartition(p, rows - 1, timeFlags, freqFlags);
        RowHitsPartition(p, rows - 1, stopChannel, timeFlags, freqFlags);
      }
    }

    /** Cells of row i with channel below j, summed over bins [0, bins). */
    function RowTotal(bins: int, i: int, j: int): nat
      requires Valid() && 0 <= bins && startChannel <= j <= stopChannel
      decreases bins
    {
      if bins == 0 then 0 else RowTotal(bins - 1, i, j) + RowCells(bins - 1, i, j)
    }

    /** Cells of rows [0, rows), summed over bins [0, bins). */
    function CellTotal(bins: int, rows: int): nat
      requires Valid() && 0 <= bins && 0 <= rows
      decreases bins
    {
      if bins == 0 then 0 else CellTotal(bins - 1, rows) + Cells(bins - 1, rows)
    }

    lemma {:induction false} RowTotalStep(bins: int, i: int, j: int)
      requires Valid() && 0 <= bins && startChannel < j <= stopChannel
      ensures RowTotal(bins, i, j) == RowTotal(bins, i, j - 1) + (if 0 <= i + delays[j - 1] < bins then 1 else 0)
      decreases bins
    {
      if bins > 0 {
        RowTotalStep(bins - 1, i, j);
      }
    }

    /** Each cell of a row lands in exactly one bin. */
    lemma {:induction false} RowTotalAll(i: int, j: int)
      requires Valid() && 0 <= i < length && startChannel <= j <= stopChannel
      ensures RowTotal(Bins(), i, j) == j - startChannel
      decreases j
    {
      if j == startChannel {
        RowTotalZero(Bins(), i);
      } else {
        RowTotalAll(i, j - 1);
        RowTotalStep(Bins(), i, j);
        BinInRange(i, j - 1);
      }
    }

    lemma {:induction false} RowTotalZero(bins: int, i: int)
      requires Valid() && 0 <= bins
      ensures RowTotal(bins, i, startChannel) == 0
      decreases bins
    {
      if bins > 0 {
        RowTotalZero(bins - 1, i);
      }
    }

    lemma {:induction false} CellTotalStep(bins: int, rows: int)
      requires Valid() && 0 <= bins && 0 < rows
      ensures CellTotal(bins, rows) == CellTotal(bins, rows - 1) + RowTotal(bins, rows - 1, stopChannel)
      decreases bins
    {
      if bins > 0 {
        CellTotalStep(bins - 1, rows);
      }
    }

    lemma {:induction false} CellTotalZero(bins: int)
      requires Valid() && 0 <= bins
      ensures CellTotal(bins, 0) == 0
      decreases bins
    {
      if bins > 0 {
        CellTotalZero(bins - 1);
      }
    }

    /** Conservation: over all bins, the scatter places every in-band cell
        of rows [0, rows) exactly once. */
    lemma {:induction false} CellsConserved(rows: int)
      requires Valid() && 0 <= rows <= length
      ensures CellTotal(Bins(), rows) == rows * (stopChannel - startChannel)
      decreases rows
    {
      if rows == 0 {
        CellTotalZero(Bins());
      } else {
        CellsConserved(rows - 1);
        CellTotalStep(Bins(), rows);
        RowTotalAll(rows - 1, stopChannel);
        assert rows * (stopChannel - startChannel) == (rows - 1) * (stopChannel - startChannel) + (stopChannel - startChannel);
      }
    }

    /** Rows [0, i) have been scattered into the accumulators, which held s0. */
    ghost predicate RowsScattered(i: int, timeFlags: seq<bool>, freqFlags: seq<bool>, s0: Series)
      requires Valid() && FlagsFit(timeFlags, freqFlags) && 0 <= i <= length && s0.Sized(Bins())
      reads fullDM, count, fullDMUnfiltered, countUnfiltered, rawData
    {
      forall p :: 0 <= p < Bins() ==>
        count[p] == s0.count[p] + Hits(p, i, true, timeFlags, freqFlags) &&
        fullDM[p] == s0.sum[p] + Mass(p, i, true, timeFlags, freqFlags) &&
        countUnfiltered[p] == s0.countUnfiltered[p] + Hits(p, i, false, timeFlags, freqFlags) &&
        fullDMUnfiltered[p] == s0.sumUnfiltered[p] + Mass(p, i, false, timeFlags, freqFlags)
    }

    /** Rows [0, i) and channels [startChannel, j) of row i have been
        scattered. */
    ghost predicate CellsScattered(i: int, j: int, timeFlags: seq<bool>, freqFlags: seq<bool>, s0: Series)
      requires Valid() && FlagsFit(timeFlags, freqFlags) && 0 <= i < length && startChannel <= j <= stopChannel
      requires s0.Sized(Bins())
      reads fullDM, count, fullDMUnfiltered, countUnfiltered, rawData
    {
      forall p :: 0 <= p < Bins() ==>
        count[p] == s0.count[p] + Hits(p, i, true, timeFlags, freqFlags) + RowHits(p, i, j, true, timeFlags, freqFlags) &&
        fullDM[p] == s0.sum[p] + Mass(p, i, true, timeFlags, freqFlags) + RowMass(p, i, j, true, timeFlags, freqFlags) &&
        countUnfiltered[p] == s0.countUnfiltered[p] + Hits(p, i, false, timeFlags, freqFlags) +
          RowHits(p, i, j, false, timeFlags, freqFlags) &&
        fullDMUnfiltered[p] == s0.sumUnfiltered[p] + Mass(p, i, false, timeFlags, freqFlags) +
          RowMass(p, i, j, false, timeFlags, freqFlags)
    }

    /** Scatters the block: in-band cell (i, c) is added to bin
        i + delays[c], into fullDM and count when it is kept and into the
        unfiltered twins otherwise; then the kept accumulators are added
        into the unfiltered ones, which so end up covering every cell. */
    method CalculateFullDM(timeFlags: seq<bool>, freqFlags: seq<bool>)
      requires Valid() && FlagsFit(timeFlags, freqFlags)
      modifies fullDM, count, fullDMUnfiltered, countUnfiltered
      ensures forall p :: 0 <= p < Bins() ==>
        count[p] == old(count[p]) + Hits(p, length, true, timeFlags, freqFlags) &&
        fullDM[p] == old(fullDM[p]) + Mass(p, length, true, timeFlags, freqFlags)
      ensures forall p :: 0 <= p < Bins() ==>
        countUnfiltered[p] == old(countUnfiltered[p]) + Hits(p, length, false, timeFlags, freqFlags) + count[p] &&
        fullDMUnfiltered[p] == old(fullDMUnfiltered[p]) + Mass(p, length, false, timeFlags, freqFlags) + fullDM[p]
    {
      ghost var s0 := BinsOf();
      ScatterBlock(timeFlags, freqFlags, s0);
      MergeKept(timeFlags, freqFlags, s0);
      forall q | 0 <= q < Bins()
        ensures count[q] == old(count[q]) + Hits(q, length, true, timeFlags, freqFlags)
        ensures fullDM[q] == old(fullDM[q]) + Mass(q, length, true, timeFlags, freqFlags)
        ensures countUnfiltered[q] == old(countUnfiltered[q]) + Hits(q, length, false, timeFlags, freqFlags) + count[q]
        ensures fullDMUnfiltered[q] == old(fullDMUnfiltered[q]) + Mass(q, length, false, timeFlags, freqFlags) + fullDM[q]
      {
        assert KeptMergedAt(q, Bins(), timeFlags, freqFlags, s0);
      }
    }

    /** The scattering loop of CalculateFullDM. */
    method ScatterBlock(timeFlags: seq<bool>, freqFlags: seq<bool>, ghost s0: Series)
      requires Valid() && FlagsFit(timeFlags, freqFlags) && s0 == BinsOf()
      modifies fullDM, count, fullDMUnfiltered, countUnfiltered
      ensures KeptMerged(0, timeFlags, freqFlags, s0)
    {
      var i := 0;
      while i < length
        invariant 0 <= i <= length
        invariant RowsScattered(i, timeFlags, freqFlags, s0)
      {
        ScatterRow(i, timeFlags, freqFlags, s0);
        i := i + 1;
      }
      forall q | 0 <= q < Bins()
        ensures KeptMergedAt(q, 0, timeFlags, freqFlags, s0)
      {
      }
    }

    /** The merging loop of CalculateFullDM. */
    method MergeKept(timeFlags: seq<bool>, freqFlags: seq<bool>, ghost s0: Series)
      requires Valid() && FlagsFit(timeFlags, freqFlags) && s0.Sized(Bins())
      requires KeptMerged(0, timeFlags, freqFlags, s0)
      modifies fullDMUnfiltered, countUnfiltered
      ensures KeptMerged(Bins(), timeFlags, freqFlags, s0)
    {
      var p := 0;
      while p < Bins()
        invariant 0 <= p <= Bins()
        invariant KeptMerged(p, timeFlags, freqFlags, s0)
      {
        MergeKeptBin(p, timeFlags, freqFlags, s0);
        p := p + 1;
      }
    }

    /** After scattering, bins [0, p) of the unfiltered accumulators also
        hold the kept accumulators. */
    ghost predicate KeptMergedAt(q: int, p: int, timeFlags: seq<bool>, freqFlags: seq<bool>, s0: Series)
      requires Valid() && FlagsFit(timeFlags, freqFlags) && 0 <= q < Bins() && s0.Sized(Bins())
      reads fullDM, count, fullDMUnfiltered, countUnfiltered, rawData
    {
      count[q] == s0.count[q] + Hits(q, length, true, timeFlags, freqFlags) &&
      fullDM[q] == s0.sum[q] + Mass(q, length, true, timeFlags, freqFlags) &&
      countUnfiltered[q] == s0.countUnfiltered[q] + Hits(q, length, false, timeFlags, freqFlags) +
        (if q < p then count[q] else 0) &&
      fullDMUnfiltered[q] == s0.sumUnfiltered[q] + Mass(q, length, false, timeFlags, freqFlags) +
        (if q < p then fullDM[q] else 0.0)
    }

    ghost predicate KeptMerged(p: int, timeFlags: seq<bool>, freqFlags: seq<bool>, s0: Series)
      requires Valid() && FlagsFit(timeFlags, freqFlags) && s0.Sized(Bins())
      reads fullDM, count, fullDMUnfiltered, countUnfiltered, rawData
    {
      forall q :: 0 <= q < Bins() ==> KeptMergedAt(q, p, timeFlags, freqFlags, s0)
    }

    /** Adds bin p of the kept accumulators into the unfiltered ones. */
    method MergeKeptBin(p: int, timeFlags: seq<bool>, freqFlags: seq<bool>, ghost s0: Series)
      requires Valid() && FlagsFit(timeFlags, freqFlags) && 0 <= p < Bins() && s0.Sized(Bins())
      requires KeptMerged(p, timeFlags, freqFlags, s0)
      modifies fullDMUnfiltered, countUnfiltered
      ensures KeptMerged(p + 1, timeFlags, freqFlags, s0)
    {
      fullDMUnfiltered[p] := fullDMUnfiltered[p] + fullDM[p];
      countUnfiltered[p] := countUnfiltered[p] + count[p];
      ghost var next := p + 1;
      forall q | 0 <= q < Bins()
        ensures KeptMergedAt(q, next, timeFlags, freqFlags, s0)
      {
        assert old(KeptMergedAt(q, p, timeFlags, freqFlags, s0));
      }
    }

    /** Bin q holds s0 plus, for bins below upto, the previous block's
        carry-over. */
    ghost predicate CarriedAt(q: int, upto: int, carry: Series, s0: Series)
      requires Valid() && 0 <= q < Bins() && 0 <= upto <= maxDelay && carry.Sized(maxDelay) && s0.Sized(Bins())
      reads fullDM, count, fullDMUnfiltered, countUnfiltered
    {
      fullDM[q] == s0.sum[q] + (if q < upto then carry.sum[q] else 0.0) &&
      count[q] == s0.count[q] + (if q < upto then carry.count[q] else 0) &&
      fullDMUnfiltered[q] == s0.sumUnfiltered[q] + (if q < upto then carry.sumUnfiltered[q] else 0.0) &&
      countUnfiltered[q] == s0.countUnfiltered[q] + (if q < upto then carry.countUnfiltered[q] else 0)
    }

    ghost predicate Carried(upto: int, carry: Series, s0: Series)
      requires Valid() && 0 <= upto <= maxDelay && carry.Sized(maxDelay) && s0.Sized(Bins())
      reads fullDM, count, fullDMUnfiltered, countUnfiltered
    {
      forall q :: 0 <= q < Bins() ==> CarriedAt(q, upto, carry, s0)
    }

    /** Hand-off between blocks: the previous block's carry-over, when
        there is one (None for the first block), is added into bins
        [0, maxDelay); then this block's own tail, bins [length,
        length + maxDelay), becomes its carry-over for the next block. */
    method MergeExcess(prev: Option<Series>)
      requires Valid() && (prev.Some? ==> prev.value.Sized(maxDelay))
      modifies fullDM, count, fullDMUnfiltered, countUnfiltered
      modifies excess, countExcess, excessUnfiltered, countExcessUnfiltered
      ensures forall q :: 0 <= q < Bins() ==>
        fullDM[q] == old(fullDM[q]) + (if prev.Some? && q < maxDelay then prev.value.sum[q] else 0.0) &&
        count[q] == old(count[q]) + (if prev.Some? && q < maxDelay then prev.value.count[q] else 0) &&
        fullDMUnfiltered[q] == old(fullDMUnfiltered[q]) +
          (if prev.Some? && q < maxDelay then prev.value.sumUnfiltered[q] else 0.0) &&
        countUnfiltered[q] == old(countUnfiltered[q]) +
          (if prev.Some? && q < maxDelay then prev.value.countUnfiltered[q] else 0)
      ensures ExcessOf() == BinsOf().Drop(length)
    {
      if prev.Some? {
        ghost var s0 := BinsOf();
        var i := 0;
        while i < maxDelay
          invariant 0 <= i <= maxDelay
          invariant Carried(i, prev.value, s0)
        {
          CarryBin(i, prev.value, s0);
          i := i + 1;
        }
        forall q | 0 <= q < Bins()
          ensures fullDM[q] == old(fullDM[q]) + (if q < maxDelay then prev.value.sum[q] else 0.0)
          ensures count[q] == old(count[q]) + (if q < maxDelay then prev.value.count[q] else 0)
          ensures fullDMUnfiltered[q] == old(fullDMUnfiltered[q]) + (if q < maxDelay then prev.value.sumUnfiltered[q] else 0.0)
          ensures countUnfiltered[q] == old(countUnfiltered[q]) + (if q < maxDelay then prev.value.countUnfiltered[q] else 0)
        {
          assert CarriedAt(q, maxDelay, prev.value, s0);
        }
      }
      SaveExcess();
    }

    /** Adds bin i of the carry-over. */
    method CarryBin(i: int, carry: Series, ghost s0: Series)
      requires Valid() && 0 <= i < maxDelay && carry.Sized(maxDelay) && s0.Sized(Bins())
      requires Carried(i, carry, s0)
      modifies fullDM, count, fullDMUnfiltered, countUnfiltered
      ensures Carried(i + 1, carry, s0)
    {
      fullDM[i] := fullDM[i] + carry.sum[i];
      fullDMUnfiltered[i] := fullDMUnfiltered[i] + carry.sumUnfiltered[i];
      count[i] := count[i] + carry.count[i];
      countUnfiltered[i] := countUnfiltered[i] + carry.countUnfiltered[i];
      ghost var next := i + 1;
      forall q | 0 <= q < Bins()
        ensures CarriedAt(q, next, carry, s0)
      {
        assert old(CarriedAt(q, i, carry, s0));
      }
    }

    /** Copies bins [length, length + maxDelay) into the carry-over. */
    method SaveExcess()
      requires Valid()
      modifies excess, countExcess, excessUnfiltered, countExcessUnfiltered
      ensures ExcessOf() == BinsOf().Drop(length)
    {
      var i := 0;
      while i < maxDelay
        invariant 0 <= i <= maxDelay
        invariant excess[..i] == fullDM[length..length + i]
        invariant countExcess[..i] == count[length..length + i]
        invariant excessUnfiltered[..i] == fullDMUnfiltered[length..length + i]
        invariant countExcessUnfiltered[..i] == countUnfiltered[length..length + i]
      {
        excess[i] := fullDM[length + i];
        countExcess[i] := count[length + i];
        excessUnfiltered[i] := fullDMUnfiltered[length + i];
        countExcessUnfiltered[i] := countUnfiltered[length + i];
        i := i + 1;
      }
      assert excess[..] == excess[..maxDelay];
      assert countExcess[..] == countExcess[..maxDelay];
      assert excessUnfiltered[..] == excessUnfiltered[..maxDelay];
      assert countExcessUnfiltered[..] == countExcessUnfiltered[..maxDelay];
    }

    /** Bins [0, i) of the block hold their means and marks, computed
        from the sums d0, u0 and the marks f0; the other bins still hold
        d0, u0 and f0. */
    ghost predicate AveragedAt(q: int, i: int, d0: seq<real>, u0: seq<real>, f0: seq<bool>)
      requires Valid() && 0 <= q < Bins() && 0 <= i <= length && |d0| == Bins() && |u0| == Bins() && |f0| == length
      reads fullDM, count, fullDMUnfiltered, countUnfiltered, dedispFlags
    {
      if q < i then
        dedispFlags[q] == (f0[q] || count[q] as real <= 0.4 * (stopChannel - startChannel) as real) &&
        fullDM[q] == MeanOf(d0[q], count[q]) &&
        fullDMUnfiltered[q] == (if count[q] == 0 then u0[q] else MeanOf(u0[q], countUnfiltered[q]))
      else
        fullDM[q] == d0[q] && fullDMUnfiltered[q] == u0[q] && (q < length ==> dedispFlags[q] == f0[q])
    }

    ghost predicate Averaged(i: int, d0: seq<real>, u0: seq<real>, f0: seq<bool>)
      requires Valid() && 0 <= i <= length && |d0| == Bins() && |u0| == Bins() && |f0| == length
      reads fullDM, count, fullDMUnfiltered, countUnfiltered, dedispFlags
    {
      forall q :: 0 <= q < Bins() ==> AveragedAt(q, i, d0, u0, f0)
    }

    /** Opens folding when the corrected gate allows it, lagging the clock
        by the samples it skips; then replaces each bin of the block by the
        mean of its cells and marks as invalid every bin with at most
        0.4 * nChan kept cells (in particular every empty bin). A bin with
        no kept cell keeps its unfiltered sum undivided. The carry-over
        bins are left alone. */
    method NormalizeFullDM(clock: FoldingClock, samplingIntervalMs: real)
      requires Valid() && blockIndex >= 0
      modifies this`hasEnoughDedispersedData, this`foldingStartIndex, clock
      modifies fullDM, fullDMUnfiltered, dedispFlags
      ensures var g := FoldingGate(length, maxDelay, blockIndex);
        hasEnoughDedispersedData == (old(hasEnoughDedispersedData) && !g.NotYet?) &&
        foldingStartIndex == (if g.FirstBlock? then g.start else old(foldingStartIndex)) &&
        clock.initLagMs == old(clock.initLagMs) + LagSamples(g, length) as real * samplingIntervalMs
      ensures forall i :: 0 <= i < length ==>
        dedispFlags[i] == (old(dedispFlags[i]) || count[i] as real <= 0.4 * (stopChannel - startChannel) as real) &&
        fullDM[i] == MeanOf(old(fullDM[i]), count[i]) &&
        fullDMUnfiltered[i] == (if count[i] == 0 then old(fullDMUnfiltered[i]) else MeanOf(old(fullDMUnfiltered[i]), countUnfiltered[i]))
      ensures forall p :: length <= p < Bins() ==> fullDM[p] == old(fullDM[p]) && fullDMUnfiltered[p] == old(fullDMUnfiltered[p])
    {
      OpenFolding(clock, samplingIntervalMs);
      AverageBins();
    }

    /** Means and marks of bins [0, length). */
    method AverageBins()
      requires Valid()
      modifies fullDM, fullDMUnfiltered, dedispFlags
      ensures forall i :: 0 <= i < length ==>
        dedispFlags[i] == (old(dedispFlags[i]) || count[i] as real <= 0.4 * (stopChannel - startChannel) as real) &&
        fullDM[i] == MeanOf(old(fullDM[i]), count[i]) &&
        fullDMUnfiltered[i] == (if count[i] == 0 then old(fullDMUnfiltered[i]) else MeanOf(old(fullDMUnfiltered[i]), countUnfiltered[i]))
      ensures forall p :: length <= p < Bins() ==> fullDM[p] == old(fullDM[p]) && fullDMUnfiltered[p] == old(fullDMUnfiltered[p])
    {
      var L := length;
      ghost var d0, u0, f0 := fullDM[..], fullDMUnfiltered[..], dedispFlags[..];
      var i := 0;
      while i < L
        invariant 0 <= i <= L
        invariant Averaged(i, d0, u0, f0)
      {
        AverageBin(i, d0, u0, f0);
        i := i + 1;
      }
      forall q | 0 <= q < Bins()
        ensures q < L ==> dedispFlags[q] == (old(dedispFlags[q]) || count[q] as real <= 0.4 * (stopChannel - startChannel) as real)
        ensures q < L ==> fullDM[q] == MeanOf(old(fullDM[q]), count[q])
        ensures q < L ==> fullDMUnfiltered[q] == (if count[q] == 0 then old(fullDMUnfiltered[q]) else MeanOf(old(fullDMUnfiltered[q]), countUnfiltered[q]))
        ensures q >= L ==> fullDM[q] == old(fullDM[q]) && fullDMUnfiltered[q] == old(fullDMUnfiltered[q])
      {
        assert AveragedAt(q, L, d0, u0, f0);
      }
    }

    /** The folding-start gate of this block (corrected, see
        FoldingGateAsWritten for the gate as written). */
    method OpenFolding(clock: FoldingClock, samplingIntervalMs: real)
      requires Valid() && blockIndex >= 0
      modifies this`hasEnoughDedispersedData, this`foldingStartIndex, clock
      ensures var g := FoldingGate(length, maxDelay, blockIndex);
        hasEnoughDedispersedData == (old(hasEnoughDedispersedData) && !g.NotYet?) &&
        foldingStartIndex == (if g.FirstBlock? then g.start else old(foldingStartIndex)) &&
        clock.initLagMs == old(clock.initLagMs) + LagSamples(g, length) as real * samplingIntervalMs
    {
      match FoldingGate(length, maxDelay, blockIndex)
      case NotYet =>
        hasEnoughDedispersedData := false;
        clock.initLagMs := clock.initLagMs + length as real * samplingIntervalMs;
      case FirstBlock(start) =>
        foldingStartIndex := start;
        clock.initLagMs := clock.initLagMs + samplingIntervalMs * foldingStartIndex as real;
      case Folding =>
    }

    /** Averages and marks bin i. */
    method AverageBin(i: int, ghost d0: seq<real>, ghost u0: seq<real>, ghost f0: seq<bool>)
      requires Valid() && 0 <= i < length && |d0| == Bins() && |u0| == Bins() && |f0| == length
      requires Averaged(i, d0, u0, f0)
      modifies fullDM, fullDMUnfiltered, dedispFlags
      ensures Averaged(i + 1, d0, u0, f0)
    {
      var nChan := stopChannel - startChannel;
      if count[i] == 0 {
        dedispFlags[i] := true;
        fullDM[i] := 0.0;
      } else {
        fullDM[i] := fullDM[i] / count[i] as real;
        if count[i] as real <= 0.4 * nChan as real {
          dedispFlags[i] := true;
        }
        if countUnfiltered[i] == 0 {
          fullDMUnfiltered[i] := 0.0;
        } else {
          fullDMUnfiltered[i] := fullDMUnfiltered[i] / countUnfiltered[i] as real;
        }
      }
      ghost var next := i + 1;
      forall q | 0 <= q < Bins()
        ensures AveragedAt(q, next, d0, u0, f0)
      {
        assert old(AveragedAt(q, i, d0, u0, f0));
      }
    }

    /** The display copy of the profile is separate from the bins. */
    predicate DisplaySeparate()
    {
      curFoldedProfile != curFoldedProfileUnfiltered &&
      curFoldedProfile != fullDM && curFoldedProfile != fullDMUnfiltered &&
      curFoldedProfileUnfiltered != fullDM && curFoldedProfileUnfiltered != fullDMUnfiltered
    }

    /** The profile may be updated while this block is read. */
    predicate Disjoint(profile: FoldedProfile)
    {
      profile.folded != fullDM && profile.folded != fullDMUnfiltered &&
      profile.foldedUnfiltered != fullDM && profile.foldedUnfiltered != fullDMUnfiltered &&
      profile.folded != curFoldedProfile && profile.folded != curFoldedProfileUnfiltered &&
      profile.foldedUnfiltered != curFoldedProfile && profile.foldedUnfiltered != curFoldedProfileUnfiltered
    }

    /** Bin k of the profile holds s0 plus the samples [from, i) of this
        block, sample from lying at position pos0. */
    ghost predicate FoldedAt(profile: FoldedProfile, fp: FoldParams, k: int, from: int, i: int, pos0: real, s0: Series)
      requires Valid() && profile.Valid() && fp.Valid() && fp.periodInSamples == profile.periodInSamples
      requires 0 <= k < profile.periodInSamples && 0 <= from <= i <= length && s0.Sized(profile.periodInSamples)
      reads profile.folded, profile.count, profile.foldedUnfiltered, profile.countUnfiltered
      reads dedispFlags, fullDM, fullDMUnfiltered
    {
      profile.count[k] == s0.count[k] + ProfileHits(k, dedispFlags[..], from, i, pos0, fp) &&
      profile.countUnfiltered[k] == s0.countUnfiltered[k] + ProfileHits(k, dedispFlags[..], from, i, pos0, fp) &&
      profile.folded[k] == s0.sum[k] + ProfileMass(k, dedispFlags[..], fullDM[..], from, i, pos0, fp) &&
      profile.foldedUnfiltered[k] == s0.sumUnfiltered[k] + ProfileMass(k, dedispFlags[..], fullDMUnfiltered[..], from, i, pos0, fp)
    }

    ghost predicate FoldedUpTo(profile: FoldedProfile, fp: FoldParams, from: int, i: int, pos0: real, s0: Series)
      requires Valid() && profile.Valid() && fp.Valid() && fp.periodInSamples == profile.periodInSamples
      requires 0 <= from <= i <= length && s0.Sized(profile.periodInSamples)
      reads profile.folded, profile.count, profile.foldedUnfiltered, profile.countUnfiltered
      reads dedispFlags, fullDM, fullDMUnfiltered
    {
      forall k :: 0 <= k < profile.periodInSamples ==> FoldedAt(profile, fp, k, from, i, pos0, s0)
    }

    /** Folds the block into the run-wide profile, when the gate has
        opened folding: every unmarked sample from foldingStartIndex on is
        added, with its unfiltered twin, into the bin of its phase; every
        sample, marked or not, advances the position by one sampling
        interval. Then the display copy of the profile is refreshed. */
    method CalculateProfile(profile: FoldedProfile, fp: FoldParams)
      requires Valid() && profile.Valid() && fp.Valid() && fp.periodInSamples == profile.periodInSamples
      requires 0 <= foldingStartIndex <= length && Disjoint(profile) && DisplaySeparate()
      requires curFoldedProfile.Length == profile.periodInSamples
      requires curFoldedProfileUnfiltered.Length == profile.periodInSamples
      modifies profile.folded, profile.count, profile.foldedUnfiltered, profile.countUnfiltered, profile`curPosMs
      modifies curFoldedProfile, curFoldedProfileUnfiltered
      ensures !hasEnoughDedispersedData ==>
        profile.ProfileOf() == old(profile.ProfileOf()) && profile.curPosMs == old(profile.curPosMs)
      ensures hasEnoughDedispersedData ==> forall k :: 0 <= k < profile.periodInSamples ==>
        var hits := ProfileHits(k, dedispFlags[..], foldingStartIndex, length, old(profile.curPosMs), fp);
        profile.count[k] == old(profile.count[k]) + hits &&
        profile.countUnfiltered[k] == old(profile.countUnfiltered[k]) + hits &&
        profile.folded[k] == old(profile.folded[k]) +
          ProfileMass(k, dedispFlags[..], fullDM[..], foldingStartIndex, length, old(profile.curPosMs), fp) &&
        profile.foldedUnfiltered[k] == old(profile.foldedUnfiltered[k]) +
          ProfileMass(k, dedispFlags[..], fullDMUnfiltered[..], foldingStartIndex, length, old(profile.curPosMs), fp)
      ensures hasEnoughDedispersedData ==>
        profile.curPosMs == old(profile.curPosMs) + (length - foldingStartIndex) as real * fp.samplingIntervalMs
      ensures hasEnoughDedispersedData ==> forall k :: 0 <= k < profile.periodInSamples ==>
        curFoldedProfile[k] == MeanOf(profile.folded[k], profile.count[k]) &&
        curFoldedProfileUnfiltered[k] == MeanOf(profile.foldedUnfiltered[k], profile.countUnfiltered[k])
    {
      if !hasEnoughDedispersedData {
        return;
      }
      FoldBlock(profile, fp);
      profile.AverageInto(curFoldedProfile, curFoldedProfileUnfiltered);
    }

    /** The folding loop of CalculateProfile. */
    method FoldBlock(profile: FoldedProfile, fp: FoldParams)
      requires Valid() && profile.Valid() && fp.Valid() && fp.periodInSamples == profile.periodInSamples
      requires 0 <= foldingStartIndex <= length && Disjoint(profile)
      modifies profile.folded, profile.count, profile.foldedUnfiltered, profile.countUnfiltered, profile`curPosMs
      ensures forall k :: 0 <= k < profile.periodInSamples ==>
        var hits := ProfileHits(k, dedispFlags[..], foldingStartIndex, length, old(profile.curPosMs), fp);
        profile.count[k] == old(profile.count[k]) + hits &&
        profile.countUnfiltered[k] == old(profile.countUnfiltered[k]) + hits &&
        profile.folded[k] == old(profile.folded[k]) +
          ProfileMass(k, dedispFlags[..], fullDM[..], foldingStartIndex, length, old(profile.curPosMs), fp) &&
        profile.foldedUnfiltered[k] == old(profile.foldedUnfiltered[k]) +
          ProfileMass(k, dedispFlags[..], fullDMUnfiltered[..], foldingStartIndex, length, old(profile.curPosMs), fp)
      ensures profile.curPosMs == old(profile.curPosMs) + (length - foldingStartIndex) as real * fp.samplingIntervalMs
    {
      var P, from := profile.periodInSamples, foldingStartIndex;
      ghost var pos0, s0 := profile.curPosMs, profile.ProfileOf();
      var curPosMs := FoldSamples(profile, fp, s0);
      profile.curPosMs := curPosMs;
      forall k | 0 <= k < P
        ensures profile.count[k] == old(profile.count[k]) + ProfileHits(k, dedispFlags[..], from, length, pos0, fp)
        ensures profile.countUnfiltered[k] == old(profile.countUnfiltered[k]) + ProfileHits(k, dedispFlags[..], from, length, pos0, fp)
        ensures profile.folded[k] == old(profile.folded[k]) + ProfileMass(k, dedispFlags[..], fullDM[..], from, length, pos0, fp)
        ensures profile.foldedUnfiltered[k] == old(profile.foldedUnfiltered[k]) +
          ProfileMass(k, dedispFlags[..], fullDMUnfiltered[..], from, length, pos0, fp)
      {
        assert FoldedAt(profile, fp, k, from, length, pos0, s0);
      }
    }

    /** The loop of FoldBlock: returns the position after the block. */
    method FoldSamples(profile: FoldedProfile, fp: FoldParams, ghost s0: Series) returns (curPosMs: real)
      requires Valid() && profile.Valid() && fp.Valid() && fp.periodInSamples == profile.periodInSamples
      requires 0 <= foldingStartIndex <= length && Disjoint(profile) && s0 == profile.ProfileOf()
      modifies profile.folded, profile.count, profile.foldedUnfiltered, profile.countUnfiltered
      ensures FoldedUpTo(profile, fp, foldingStartIndex, length, profile.curPosMs, s0)
      ensures curPosMs == profile.curPosMs + (length - foldingStartIndex) as real * fp.samplingIntervalMs
    {
      var ts, from := fp.samplingIntervalMs, foldingStartIndex;
      curPosMs := profile.curPosMs;
      ghost var pos0 := curPosMs;
      var i := from;
      while i < length
        invariant from <= i <= length
        invariant curPosMs == pos0 + (i - from) as real * ts
        invariant FoldedUpTo(profile, fp, from, i, pos0, s0)
      {
        FoldStep(profile, fp, from, i, pos0, s0, curPosMs);
        AddOneTimes((i - from) as real, ts);
        curPosMs := curPosMs + ts;
        i := i + 1;
      }
    }

    /** Folds sample i, lying at position curPosMs, into the profile. */
    method FoldStep(profile: FoldedProfile, fp: FoldParams, from: int, i: int, ghost pos0: real, ghost s0: Series,
                    curPosMs: real)
      requires Valid() && profile.Valid() && fp.Valid() && fp.periodInSamples == profile.periodInSamples
      requires 0 <= from <= i < length && s0.Sized(profile.periodInSamples) && Disjoint(profile)
      requires curPosMs == pos0 + (i - from) as real * fp.samplingIntervalMs
      requires FoldedUpTo(profile, fp, from, i, pos0, s0)
      modifies profile.folded, profile.count, profile.foldedUnfiltered, profile.countUnfiltered
      ensures FoldedUpTo(profile, fp, from, i + 1, pos0, s0)
    {
      var phase := FixedPeriodPhase(curPosMs, fp.periodInMs) + fp.profileOffset;
      if !dedispFlags[i] {
        var index := ProfileBin(phase, profile.periodInSamples);
        fp.SampleBinAt(pos0, i - from, curPosMs);
        FoldSample(profile, fp, from, i, pos0, s0, index);
      } else {
        SkipMarked(profile, fp, from, i, pos0, s0);
      }
    }

    /** Adds unmarked sample i to bin index of the profile. */
    method FoldSample(profile: FoldedProfile, fp: FoldParams, from: int, i: int, ghost pos0: real, ghost s0: Series, index: int)
      requires Valid() && profile.Valid() && fp.Valid() && fp.periodInSamples == profile.periodInSamples
      requires 0 <= from <= i < length && s0.Sized(profile.periodInSamples) && Disjoint(profile)
      requires !dedispFlags[i] && index == fp.SampleBin(pos0, i - from)
      requires FoldedUpTo(profile, fp, from, i, pos0, s0)
      modifies profile.folded, profile.count, profile.foldedUnfiltered, profile.countUnfiltered
      ensures FoldedUpTo(profile, fp, from, i + 1, pos0, s0)
    {
      profile.folded[index] := profile.folded[index] + fullDM[i];
      profile.foldedUnfiltered[index] := profile.foldedUnfiltered[index] + fullDMUnfiltered[i];
      profile.countUnfiltered[index] := profile.countUnfiltered[index] + 1;
      profile.count[index] := profile.count[index] + 1;
      ghost var next := i + 1;
      forall k | 0 <= k < profile.periodInSamples
        ensures FoldedAt(profile, fp, k, from, next, pos0, s0)
      {
        assert old(FoldedAt(profile, fp, k, from, i, pos0, s0));
      }
    }

    /** A marked sample adds nothing to the profile. */
    lemma SkipMarked(profile: FoldedProfile, fp: FoldParams, from: int, i: int, pos0: real, s0: Series)
      requires Valid() && profile.Valid() && fp.Valid() && fp.periodInSamples == profile.periodInSamples
      requires 0 <= from <= i < length && s0.Sized(profile.periodInSamples)
      requires dedispFlags[i] && FoldedUpTo(profile, fp, from, i, pos0, s0)
      ensures FoldedUpTo(profile, fp, from, i + 1, pos0, s0)
    {
      ghost var next := i + 1;
      forall k | 0 <= k < profile.periodInSamples
        ensures FoldedAt(profile, fp, k, from, next, pos0, s0)
      {
        assert FoldedAt(profile, fp, k, from, i, pos0, s0);
      }
    }

    /** Scatters row i. */
    method ScatterRow(i: int, timeFlags: seq<bool>, freqFlags: seq<bool>, ghost s0: Series)
      requires Valid() && FlagsFit(timeFlags, freqFlags) && 0 <= i < length && s0.Sized(Bins())
      requires RowsScattered(i, timeFlags, freqFlags, s0)
      modifies fullDM, count, fullDMUnfiltered, countUnfiltered
      ensures RowsScattered(i + 1, timeFlags, freqFlags, s0)
    {
      var j := startChannel;
      while j < stopChannel
        invariant startChannel <= j <= stopChannel
        invariant CellsScattered(i, j, timeFlags, freqFlags, s0)
      {
        ScatterCell(i, j, timeFlags, freqFlags, s0);
        j := j + 1;
      }
    }

    /** Adds cell (i, j) into its bin. */
    method ScatterCell(i: int, j: int, timeFlags: seq<bool>, freqFlags: seq<bool>, ghost s0: Series)
      requires Valid() && FlagsFit(timeFlags, freqFlags) && 0 <= i < length && startChannel <= j < stopChannel
      requires s0.Sized(Bins()) && CellsScattered(i, j, timeFlags, freqFlags, s0)
      modifies fullDM, count, fullDMUnfiltered, countUnfiltered
      ensures CellsScattered(i, j + 1, timeFlags, freqFlags, s0)
    {
      FrameIndex(i, j, noOfChannels, length);
      var pos := i + delays[j];
      var x := rawData[i * noOfChannels + j];
      if !freqFlags[j - startChannel] && !timeFlags[i] {
        fullDM[pos] := fullDM[pos] + x;
        count[pos] := count[pos] + 1;
      } else {
        fullDMUnfiltered[pos] := fullDMUnfiltered[pos] + x;
        countUnfiltered[pos] := countUnfiltered[pos] + 1;
      }
    }
  }
}
