# gptool per-block processing, modelled in Dafny

gptool cleans a stream of multi-channel radio-telescope samples and folds it
into a pulsar profile. The stream is read in fixed-length blocks from a file
or from a shared-memory ring fed by the correlator. For each block and
polarisation, the program does four things:

- it computes a bandshape (the per-channel sums) and a zero-DM series (the
  per-sample mean over the unflagged channels);
- it flags outliers in both series with a median / median-absolute-deviation
  estimator, and can smooth those flags;
- it shifts every channel by its dispersion delay and adds it into a
  dedispersed series one maximum delay longer than the block; the tail of
  that series is carried into the next block;
- it folds the dedispersed samples into a run-wide profile by pulse phase.

A `Runtime` keeps five pipeline stages of `ThreadPacket`s in flight. After
every round it shifts the packets one stage along, and it hands the newest
dedispersion over to the packet that will dedisperse next.

The model follows the single source file
`uGMRT_beamutils/gptool_ver4.2.1/gptool.cpp` class by class:

| file | module | source classes |
|---|---|---|
| `numeric.dfy` | `Numeric` | C arithmetic: `fabs`, truncating casts, the fractional part |
| `sorting.dfy` | `Sorting` | the in-place `quicksort` shared by `BasicAnalysis` and `RFIFiltering`, a reference sort and the median |
| `acquire.dfy` | `Acquire` | `AquireData`: drift correction, file cursor, ring cursor, polarisation split |
| `basic.dfy` | `Basic` | `BasicAnalysis`: zero-DM series, bandshapes, run-wide totals, smoothing, normalisation, the 16-bit filtered copy |
| `rfi.dfy` | `Rfi` | `RFIFiltering`: the MAD estimator and the flag producers |
| `dedisperse.dfy` | `Dedisperse` | `AdvancedAnalysis`: delay table, scatter, carry-over, normalisation, the folding gate, folding |
| `pipeline.dfy` | `Pipeline` | `ThreadPacket` and the sequential part of `Runtime`: packet shift, hand-off, stage dispatch |

The routines work in place on buffers, so they are methods of classes whose
fields are `array`s. Each method is specified against a pure function of
the old state (`Sum`, `MaskedSum`, `Hits`/`Mass`, `ProfileHits`/`ProfileMass`,
`Shifted`, `SortSpec`, ...). Lemmas then prove what the source promises about
those functions: conservation of cells and samples, bounds, inverses and
partitions.

Samples are `real`. Run-wide state that the source keeps in static members
is an object that the block objects share:

- `BandshapeTotals` holds the cumulative bandshapes;
- `DelayTable` holds the delays and the largest delay;
- `FoldedProfile` holds the folded profile and its position;
- `FoldingClock` holds the initial lag;
- `AcquireCursor` holds the file and ring cursors.

Three details of the code that the model keeps:

- After a lag, the ring reader re-synchronises to record
  `(cur_rec-1-2+MaxDataBuf)%MaxDataBuf`.
- Flagged cells of the dedispersed series go into the unfiltered
  accumulators only. Those accumulators receive the kept cells afterwards.
- The zero-DM mean divides by the number of unflagged channels, or, for
  the unfiltered twin, by the number of channels in use.

## Model

| member | source | states |
|---|---|---|
| Numeric.Abs | uGMRT_beamutils/gptool_ver4.2.1/gptool.cpp:3132 | `fabs`: the result is non-negative and is x or -x |
| Numeric.TruncBounds | uGMRT_beamutils/gptool_ver4.2.1/gptool.cpp:2848 | a C cast to an integer type moves its operand toward zero by less than 1 |
| Numeric.Frac | uGMRT_beamutils/gptool_ver4.2.1/gptool.cpp:1889-1890 | `er-(long)er` of a non-negative value lies in [0, 1) and is the value minus its floor |
| Sorting.Insert | uGMRT_beamutils/gptool_ver4.2.1/gptool.cpp:3075-3103 | inserting into a sorted sequence keeps it sorted and adds exactly one element |
| Sorting.SortSpec | uGMRT_beamutils/gptool_ver4.2.1/gptool.cpp:3075-3103 | the reference sort is sorted, a permutation of its input, and the same length |
| Sorting.SortedUnique | uGMRT_beamutils/gptool_ver4.2.1/gptool.cpp:3075-3103 | two sorted permutations of each other are equal, so a sorted arrangement is unique |
| Sorting.SortedPermutationIsSortSpec | uGMRT_beamutils/gptool_ver4.2.1/gptool.cpp:3075-3103 | any sorted permutation of s is the reference sort of s |
| Sorting.Median | uGMRT_beamutils/gptool_ver4.2.1/gptool.cpp:3125-3128 | on a sorted sequence, the median (the middle element, or the mean of the two middle ones for an even size) lies between the two middle elements and within the range |
| Sorting.MedianSplits | uGMRT_beamutils/gptool_ver4.2.1/gptool.cpp:3125-3128 | at least half of the elements are at most the median, and at least half are at least it |
| Sorting.Swap | uGMRT_beamutils/gptool_ver4.2.1/gptool.cpp:3090-3094 | exchanges two elements and changes nothing else, which keeps the multiset |
| Sorting.Partition | uGMRT_beamutils/gptool_ver4.2.1/gptool.cpp:3080-3099 | puts the pivot a[lo] at j, with elements <= pivot on its left and > pivot on its right; leaves the outside of [lo, hi] alone and keeps the multiset |
| Sorting.Quicksort | uGMRT_beamutils/gptool_ver4.2.1/gptool.cpp:3075-3103 | sorts a[first..last] in place as a permutation; nothing outside the range changes; a range with first >= last is left as it is |
| Sorting.SortAll | uGMRT_beamutils/gptool_ver4.2.1/gptool.cpp:3123 | sorting the whole array yields exactly the reference sort of its old contents |
| Rfi.AbsDevPermutation | uGMRT_beamutils/gptool_ver4.2.1/gptool.cpp:3131-3133 | the deviations of a sorted copy are a permutation of the deviations of the input, so sorting first does not change their median |
| Rfi.MadOfSortedCopy | uGMRT_beamutils/gptool_ver4.2.1/gptool.cpp:3116-3139 | the median of the deviations of the sorted copy from its median is the median absolute deviation of the input |
| Rfi.MadNonNegative | uGMRT_beamutils/gptool_ver4.2.1/gptool.cpp:3132-3139 | the median absolute deviation, and so the rms, is never negative |
| Rfi.CountSet | uGMRT_beamutils/gptool_ver4.2.1/gptool.cpp:3217-3223 | the number of set flags in a window is at most its width |
| Rfi.SmoothFlag | uGMRT_beamutils/gptool_ver4.2.1/gptool.cpp:3213-3225 | the smoothed flag (one minus the flagged fraction of the clipped window) lies in [0, 1] |
| Rfi.CoveredByIff | uGMRT_beamutils/gptool_ver4.2.1/gptool.cpp:3228-3241 | index k is set by the second smoothing loop exactly when some i has a smoothed flag below the threshold and \|k - i\| <= s |
| Rfi.InBlocksIff | uGMRT_beamutils/gptool_ver4.2.1/gptool.cpp:3250-3258 | channel ch is flagged by the manual blocks exactly when it lies in some [first, last) |
| Rfi.RFIFiltering.constructor | uGMRT_beamutils/gptool_ver4.2.1/gptool.cpp:3028-3037 | takes the series over and starts with every flag clear |
| Rfi.RFIFiltering.GenerateBlankFlags | uGMRT_beamutils/gptool_ver4.2.1/gptool.cpp:3265-3272 | clears every flag |
| Rfi.MedianReadsInside | uGMRT_beamutils/gptool_ver4.2.1/gptool.cpp:3124-3128 | the two positions the median reads lie inside a sorted copy of n values exactly when n > 0; for n = 0 the lower one is -1 |
| Rfi.RFIFiltering.MADBased | uGMRT_beamutils/gptool_ver4.2.1/gptool.cpp:3112-3142 | for a non-empty series, centralTendency is the median of the input and rms is 1.4826 times its median absolute deviation; an empty series (the corrected case of the 3124 finding) gets 0 for both; rms is never negative, cutoff is rms times cutoffToRms, and the input and the flags are untouched |
| Rfi.RFIFiltering.FlagData | uGMRT_beamutils/gptool_ver4.2.1/gptool.cpp:3278-3289 | after the call flags[k] is old flags[k] or \|input[k] - centralTendency\| > cutoff: outliers are set and no flag is cleared |
| Rfi.RFIFiltering.MultiPointFlagData | uGMRT_beamutils/gptool_ver4.2.1/gptool.cpp:3328-3343 | flags exactly the samples that belong to an adjacent pair both deviating by more than multiCutoff[1]·rms; every other flag is cleared |
| Rfi.RFIFiltering.SmoothFlags | uGMRT_beamutils/gptool_ver4.2.1/gptool.cpp:3203-3243 | sFlags[i] is the smoothed flag of the original flags; then flags[k] is old flags[k] or k is within s = windowLength/2 of an i whose sFlags is below the threshold, a superset of the input flags |
| Rfi.RFIFiltering.SmoothedAt | uGMRT_beamutils/gptool_ver4.2.1/gptool.cpp:3215-3224 | the first loop's body returns the smoothed flag of sample i |
| Rfi.RFIFiltering.FlagWindow | uGMRT_beamutils/gptool_ver4.2.1/gptool.cpp:3232-3237 | sets every in-bounds index within s of i and changes nothing else |
| Rfi.RFIFiltering.GenerateManualFlags | uGMRT_beamutils/gptool_ver4.2.1/gptool.cpp:3248-3259 | flags[k] is old flags[k] or k + offset lies in a bad-channel block; indices outside the input are ignored |
| Acquire.AcquireInfo.ReadExtent | uGMRT_beamutils/gptool_ver4.2.1/gptool.cpp:2091-2103 | reads min(block bytes, eof - curPos) bytes; truncated exactly when the block does not fit; on truncation the block length is recomputed from the bytes left; the bytes stay on a sample boundary |
| Acquire.DriftStep | uGMRT_beamutils/gptool_ver4.2.1/gptool.cpp:1889-1897 | adds one sample exactly when, outside inline mode, the accumulated error reaches 1; the samples added plus the new error equal the old error plus the fraction; the error stays in [0, 1) |
| Acquire.Exact | uGMRT_beamutils/gptool_ver4.2.1/gptool.cpp:1889-1897 | the exact sample count of n blocks grows by the nominal length plus the fraction per block |
| Acquire.DriftBounded | uGMRT_beamutils/gptool_ver4.2.1/gptool.cpp:1889-1897 | over n blocks, the scheduled samples plus the carried error are exact, and the schedule trails the exact count by less than one sample |
| Acquire.ShmRing.Next | uGMRT_beamutils/gptool_ver4.2.1/gptool.cpp:2070 | `(recNum+1)%MaxDataBuf` stays inside the ring |
| Acquire.ShmRing.ResyncRec | uGMRT_beamutils/gptool_ver4.2.1/gptool.cpp:2056 | the re-synchronised record `(cur_rec-1-2+MaxDataBuf)%MaxDataBuf` lies inside the ring |
| Acquire.ShmRing.Follow | uGMRT_beamutils/gptool_ver4.2.1/gptool.cpp:2030-2058 | a read copies from its record or, when lagging, from the re-synchronised record |
| Acquire.ContiguousAppend | uGMRT_beamutils/gptool_ver4.2.1/gptool.cpp:2061-2078 | appending a copy that starts where the previous one ended (the next record from offset 0, or the first record at the carried offset) keeps the copies contiguous and adds its length to the total |
| Acquire.AcquireCursor.FetchRecord | uGMRT_beamutils/gptool_ver4.2.1/gptool.cpp:2026-2078 | one pass of the copy loop copies from the followed record at the carried offset; either it takes the rest of the record and moves to the next record at offset 0, or it takes what is still needed and stays, carrying the offset past the copy |
| Acquire.AcquireCursor.FetchFromRing | uGMRT_beamutils/gptool_ver4.2.1/gptool.cpp:1983-2083 | the copies are contiguous in the ring, total exactly the bytes asked for unless the producer stopped (status -1), and the file position advances by the block's bytes |
| Acquire.AcquireInfo.StartPosFrame | uGMRT_beamutils/gptool_ver4.2.1/gptool.cpp:4954 | for a non-negative start time, the start byte `long(startTime/samplingInterval)`·nChan·nPol·size is a whole number q of time samples, with q sampling intervals at or before the start time and q + 1 after it |
| Acquire.AcquireCursor.constructor | uGMRT_beamutils/gptool_ver4.2.1/gptool.cpp:4954 | the file cursor starts at StartPos(startTime), the byte `long(startTime/samplingInterval)`·nChan·nPol·size; no drift; the ring cursor is at record 0, offset 0 |
| Acquire.CarryAsWrittenRereads | uGMRT_beamutils/gptool_ver4.2.1/gptool.cpp:2070-2076 | as written, a pass that copies `need` bytes from offset off > 0 and stays inside the record leaves the cursor at byte `need`, before the end off + need of the copy; the cursor lies just behind the copy exactly when off is 0 |
| Acquire.AquireData.constructor | uGMRT_beamutils/gptool_ver4.2.1/gptool.cpp:1840-1851 | a new block object with its index, not yet read and not at the end of the file |
| Acquire.AquireData.ReadDataFromFile | uGMRT_beamutils/gptool_ver4.2.1/gptool.cpp:2088-2143 | curPos advances by exactly the bytes ReadExtent gives and stays inside the file; blockLength and hasReachedEof are as ReadExtent says; rawData is the file's samples between the old and the new cursor |
| Acquire.AquireData.ReadFromShm | uGMRT_beamutils/gptool_ver4.2.1/gptool.cpp:1983-2083 | fetches the block's bytes from the ring as FetchFromRing states |
| Acquire.AquireData.ReadData | uGMRT_beamutils/gptool_ver4.2.1/gptool.cpp:1887-1903 | the block length is the nominal length plus the drift step's extra sample, the new error is the drift step's, and the block is read from the file or from the ring accordingly |
| Acquire.AquireData.SplitRawData | uGMRT_beamutils/gptool_ver4.2.1/gptool.cpp:2159-2249 | noOfPol arrays of blockLength·noOfChannels words each, with word q of polarisation k being raw word q·noOfPol + k (a plain copy for one polarisation) |
| Acquire.AquireData.SplitIndexing | uGMRT_beamutils/gptool_ver4.2.1/gptool.cpp:2153-2157 | polarisation k of channel c at time t is raw word (t·nChan + c)·noOfPol + k, inside both arrays |
| Basic.KeptAt | uGMRT_beamutils/gptool_ver4.2.1/gptool.cpp:2838-2855 | word t·n + c is kept exactly when c is in use and neither time t nor channel c is flagged |
| Basic.TruncTowardZero | uGMRT_beamutils/gptool_ver4.2.1/gptool.cpp:2848 | the `(short int)` cast truncates toward zero: it is symmetric about zero and never makes a value larger in magnitude |
| Basic.CountClear | uGMRT_beamutils/gptool_ver4.2.1/gptool.cpp:2442-2444 | the number of unflagged channels is at most the number in use |
| Basic.NoFlagsNoFiltering | uGMRT_beamutils/gptool_ver4.2.1/gptool.cpp:2450-2463 | with no channel flagged, the filtered sum is the plain sum and every channel counts |
| Basic.FlaggedIgnored | uGMRT_beamutils/gptool_ver4.2.1/gptool.cpp:2455-2460 | two rows agreeing on every unflagged channel have the same filtered sum |
| Basic.SumSquaresNonNegative | uGMRT_beamutils/gptool_ver4.2.1/gptool.cpp:2499 | the mean-to-rms accumulator (a sum of squares) is never negative |
| Basic.SquareOfSumBound | uGMRT_beamutils/gptool_ver4.2.1/gptool.cpp:2498-2499 | the square of a channel's sum is at most the count times its sum of squares, so its variance is never negative |
| Basic.Window | uGMRT_beamutils/gptool_ver4.2.1/gptool.cpp:2678-2688 | the moving-median window is the band slice [j - w, j + w) clipped to the band: non-empty and at most 2w long |
| Basic.WindowCentred | uGMRT_beamutils/gptool_ver4.2.1/gptool.cpp:2679-2688 | the window holds the centre sample, at most w samples before it and w - 1 after |
| Basic.UpperMedianIsMember | uGMRT_beamutils/gptool_ver4.2.1/gptool.cpp:2689-2690 | `tempArray[tempCnt/2]` after sorting is one of the window's own values |
| Basic.SmoothStep | uGMRT_beamutils/gptool_ver4.2.1/gptool.cpp:2692-2703 | the smoothed value is never 0, and the normalised value times it gives back the bandshape, except where it was reset to 1 with the normalised value set to 0 (also when no sample has been counted yet) |
| Basic.SteadyMedian | uGMRT_beamutils/gptool_ver4.2.1/gptool.cpp:2692-2693 | the smoothed bandshape is the sample-weighted mean of the block medians: a steady median m gives m (1 for m = 0) |
| Basic.BandshapeTotals.constructor | uGMRT_beamutils/gptool_ver4.2.1/gptool.cpp:2335-2349 | every run-wide total starts at zero |
| Basic.BasicAnalysis.constructor | uGMRT_beamutils/gptool_ver4.2.1/gptool.cpp:2380-2399 | takes the block's raw data, allocates fresh per-block arrays, and shares the run-wide totals |
| Basic.BasicAnalysis.ComputeZeroDM | uGMRT_beamutils/gptool_ver4.2.1/gptool.cpp:2432-2470 | zeroDM[t] is the mean over the unflagged in-use channels of time t; zeroDMUnfiltered[t] is the mean over all in-use channels |
| Basic.BasicAnalysis.SumChannels | uGMRT_beamutils/gptool_ver4.2.1/gptool.cpp:2455-2460 | the inner loop yields the filtered and the plain sum of the row's in-use words |
| Basic.BasicAnalysis.ComputeBandshape | uGMRT_beamutils/gptool_ver4.2.1/gptool.cpp:2477-2506 | each in-use channel's bandshape is the sum of its column, and its mean-to-rms value the sum of squares; other channels are 0; count is the block length |
| Basic.BasicAnalysis.ColumnStepAt | uGMRT_beamutils/gptool_ver4.2.1/gptool.cpp:2496-2500 | extending a column by one time sample adds that sample to its sum and its square to its sum of squares |
| Basic.BasicAnalysis.AddRow | uGMRT_beamutils/gptool_ver4.2.1/gptool.cpp:2493-2503 | one row adds each in-use word to its channel's bandshape and its square to the mean-to-rms value; nothing else changes |
| Basic.BasicAnalysis.CalculateCumulativeBandshapes | uGMRT_beamutils/gptool_ver4.2.1/gptool.cpp:2562-2619 | for each in-use channel, the scaled sums are added to the run-wide totals, count is added to countBandshape, and the bandshape becomes the mean (0 for a block of no samples); channels out of use are untouched; the bandshape is smoothed and normalised when asked |
| Basic.BasicAnalysis.AccumulateChannel | uGMRT_beamutils/gptool_ver4.2.1/gptool.cpp:2583-2609 | one channel is accumulated, for any count including 0, and every other channel is left as it was |
| Basic.BasicAnalysis.SmoothTarget | uGMRT_beamutils/gptool_ver4.2.1/gptool.cpp:2689-2703 | the channel's smoothed value is never 0 and normalising by it restores the bandshape, except where it was reset |
| Basic.BasicAnalysis.SmoothAndNormalizeBandshape | uGMRT_beamutils/gptool_ver4.2.1/gptool.cpp:2661-2706 | every in-use channel gets the smoothed value of its window's upper median and the normalised bandshape; the smoothed value is never 0; channels out of use are smoothed to 0 and their normalised values kept |
| Basic.BasicAnalysis.ClearSmoothBandshape | uGMRT_beamutils/gptool_ver4.2.1/gptool.cpp:2670-2671 | sets every channel's smoothed value to 0 |
| Basic.BasicAnalysis.WindowMedianAt | uGMRT_beamutils/gptool_ver4.2.1/gptool.cpp:2678-2690 | returns the upper median of the clipped window around band position j |
| Basic.BasicAnalysis.CopyWindow | uGMRT_beamutils/gptool_ver4.2.1/gptool.cpp:2678-2688 | copies exactly the clipped window to the front of the temporary array and returns its size |
| Basic.BasicAnalysis.StoreSmoothed | uGMRT_beamutils/gptool_ver4.2.1/gptool.cpp:2692-2703 | stores the smoothing step's sum, smoothed and normalised values for one channel and leaves the other channels alone |
| Basic.BasicAnalysis.NormalizedWord | uGMRT_beamutils/gptool_ver4.2.1/gptool.cpp:2751 | an in-use word divided by its channel's smoothed value gives back the word when multiplied by it; other words are unchanged |
| Basic.BasicAnalysis.NormalizeData | uGMRT_beamutils/gptool_ver4.2.1/gptool.cpp:2739-2755 | every word is its old value normalised by its channel p % noOfChannels |
| Basic.BasicAnalysis.NormalizeRow | uGMRT_beamutils/gptool_ver4.2.1/gptool.cpp:2748-2752 | one time sample is normalised, extending the normalised prefix by one row |
| Basic.BasicAnalysis.GetFilteredRawData | uGMRT_beamutils/gptool_ver4.2.1/gptool.cpp:2824-2856 | a fresh 16-bit copy of the block: each word is the kept sample or the replacement value, scaled by meanval and truncated toward zero |
| Basic.BasicAnalysis.GetFilteredRawDataSmoothBshape | uGMRT_beamutils/gptool_ver4.2.1/gptool.cpp:2861-2895 | a fresh 16-bit copy: each word is the kept sample or, otherwise, its channel's smoothed bandshape value, truncated toward zero |
| Basic.BasicAnalysis.FilterInto | uGMRT_beamutils/gptool_ver4.2.1/gptool.cpp:2838-2855 | fills every word of the output with the filtered copy |
| Basic.BasicAnalysis.FilterRow | uGMRT_beamutils/gptool_ver4.2.1/gptool.cpp:2840-2854 | fills one time sample: channels before the band, the band, channels after it |
| Basic.BasicAnalysis.FilterWord | uGMRT_beamutils/gptool_ver4.2.1/gptool.cpp:2841-2854 | writes one word of the filtered copy and no other |
| Basic.BasicAnalysis.FilteredAtKept | uGMRT_beamutils/gptool_ver4.2.1/gptool.cpp:2838-2855 | word p is the truncated scaled raw word when it is kept, and the truncated scaled replacement for its channel otherwise |
| Dedisperse.InvSquareAntitone | uGMRT_beamutils/gptool_ver4.2.1/gptool.cpp:3642 | a higher frequency has a smaller inverse square |
| Dedisperse.DispersionDelayMonotone | uGMRT_beamutils/gptool_ver4.2.1/gptool.cpp:3642 | the delay relative to the lowest frequency is non-negative and grows with frequency, for a non-negative dispersion measure |
| Dedisperse.LowestChannelUndelayed | uGMRT_beamutils/gptool_ver4.2.1/gptool.cpp:3633-3642 | the lowest-frequency channel has delay 0 |
| Dedisperse.DelayMonotone | uGMRT_beamutils/gptool_ver4.2.1/gptool.cpp:3642 | the rounded delay is non-negative and non-decreasing in the frequency rank j |
| Dedisperse.Rank | uGMRT_beamutils/gptool_ver4.2.1/gptool.cpp:3637-3640 | the frequency rank (i, or nChan-1-i when the sideband is inverted) lies in [0, nChan) |
| Dedisperse.RankInverse | uGMRT_beamutils/gptool_ver4.2.1/gptool.cpp:3637-3640 | the rank map is its own inverse, so each rank belongs to exactly one channel |
| Dedisperse.DelayParams.Interval | uGMRT_beamutils/gptool_ver4.2.1/gptool.cpp:3632 | the channel spacing bandwidth/nChan is positive |
| Dedisperse.DelayParams.Centre | uGMRT_beamutils/gptool_ver4.2.1/gptool.cpp:3633 | the centre of the lowest channel is positive |
| Dedisperse.DelayParams.Kdm | uGMRT_beamutils/gptool_ver4.2.1/gptool.cpp:3631 | 4.148808·10³ times the dispersion measure is non-negative |
| Dedisperse.DelayTable.constructor | uGMRT_beamutils/gptool_ver4.2.1/gptool.cpp:3484 | one delay per channel |
| Dedisperse.DelayTable.CalculateDelayTable | uGMRT_beamutils/gptool_ver4.2.1/gptool.cpp:3627-3663 | each entry is its channel's delay; maxDelay is the delay of the highest-frequency channel; every entry lies in [0, maxDelay]; the lowest-frequency channel's entry is 0 |
| Dedisperse.FoldingGate | uGMRT_beamutils/gptool_ver4.2.1/gptool.cpp:3800-3821 | the corrected gate, for every block length including 0; a first block starts at maxDelay % length, inside the block |
| Dedisperse.FoldingGateExact | uGMRT_beamutils/gptool_ver4.2.1/gptool.cpp:3793-3821 | under the corrected gate, sample i of block b is folded exactly when its global index b·length + i is at least maxDelay |
| Dedisperse.FoldingGateAgrees | uGMRT_beamutils/gptool_ver4.2.1/gptool.cpp:3800-3821 | the gate as written equals the corrected gate whenever length does not divide maxDelay (or maxDelay is 0) |
| Dedisperse.FoldingGateStartsEarly | uGMRT_beamutils/gptool_ver4.2.1/gptool.cpp:3812 | with length 4 and maxDelay 8, the gate as written starts folding at global sample 4, before every channel has arrived |
| Dedisperse.FoldingClock.constructor | uGMRT_beamutils/gptool_ver4.2.1/gptool.cpp:3473 | the initial lag starts at 0 |
| Dedisperse.MeanOf | uGMRT_beamutils/gptool_ver4.2.1/gptool.cpp:3840-3848 | the mean times n gives back the sum; an empty bin gives 0 |
| Dedisperse.FixedPeriodPhase | uGMRT_beamutils/gptool_ver4.2.1/gptool.cpp:3920-3925 | the phase lies in [0, 1) |
| Dedisperse.PhasePeriodic | uGMRT_beamutils/gptool_ver4.2.1/gptool.cpp:3920-3925 | positions one period apart have the same phase |
| Dedisperse.Wrapped | uGMRT_beamutils/gptool_ver4.2.1/gptool.cpp:3970-3971 | an offset phase in [0, 2) is brought into [0, 1) by subtracting 1 at most once |
| Dedisperse.ProfileBin | uGMRT_beamutils/gptool_ver4.2.1/gptool.cpp:3970-3975 | the bin index lies in [0, periodInSamples), with periodInSamples wrapped to 0 |
| Dedisperse.ProfileBinNearest | uGMRT_beamutils/gptool_ver4.2.1/gptool.cpp:3973-3975 | the bin is the nearest integer to phase·periodInSamples, or 0 when that rounds to a whole period |
| Dedisperse.FoldParams.SampleBin | uGMRT_beamutils/gptool_ver4.2.1/gptool.cpp:3961-3975 | the bin of the n-th sample lies in [0, periodInSamples) |
| Dedisperse.FoldParams.SampleBinAt | uGMRT_beamutils/gptool_ver4.2.1/gptool.cpp:3961-3975 | that bin is the bin of the phase at the sample's position plus the offset |
| Dedisperse.ProfileConserved | uGMRT_beamutils/gptool_ver4.2.1/gptool.cpp:3961-3983 | summed over all bins, folding adds exactly one count per unmarked sample and none for a marked one |
| Dedisperse.FoldedProfile.constructor | uGMRT_beamutils/gptool_ver4.2.1/gptool.cpp:3486-3508 | the run-wide profile and counts start at zero, at position 0 |
| Dedisperse.FoldedProfile.ProfileOf | uGMRT_beamutils/gptool_ver4.2.1/gptool.cpp:3949-3955 | the profile's four accumulators, each periodInSamples long |
| Dedisperse.FoldedProfile.AverageInto | uGMRT_beamutils/gptool_ver4.2.1/gptool.cpp:3987-4015 | the display copy of each bin is its mean, 0 for an empty bin |
| Dedisperse.Series.Drop | uGMRT_beamutils/gptool_ver4.2.1/gptool.cpp:3780-3783 | the bins from k on, of the remaining size |
| Dedisperse.AdvancedAnalysis.constructor | uGMRT_beamutils/gptool_ver4.2.1/gptool.cpp:3547-3598 | fresh accumulators of length + maxDelay bins, all zero; no bin marked; folding allowed from sample 0 |
| Dedisperse.AdvancedAnalysis.BinInRange | uGMRT_beamutils/gptool_ver4.2.1/gptool.cpp:3692 | the shifted position i + delayTable[j] lies in [i, length + maxDelay) |
| Dedisperse.AdvancedAnalysis.RowHitsPartition | uGMRT_beamutils/gptool_ver4.2.1/gptool.cpp:3693-3702 | in a row, the kept and the flagged cells landing in bin p together are all of the row's cells landing there |
| Dedisperse.AdvancedAnalysis.HitsPartition | uGMRT_beamutils/gptool_ver4.2.1/gptool.cpp:3685-3718 | across the block, the kept and the flagged hits of a bin together are all of the cells landing in it, whatever the flags |
| Dedisperse.AdvancedAnalysis.RowTotalAll | uGMRT_beamutils/gptool_ver4.2.1/gptool.cpp:3689-3703 | every in-band cell of a row lands in exactly one bin |
| Dedisperse.AdvancedAnalysis.CellsConserved | uGMRT_beamutils/gptool_ver4.2.1/gptool.cpp:3685-3706 | summed over all bins, the scatter places rows·nChan cells, each exactly once |
| Dedisperse.AdvancedAnalysis.CalculateFullDM | uGMRT_beamutils/gptool_ver4.2.1/gptool.cpp:3672-3720 | each bin gains the count and the sum of its kept cells in fullDM/count; the unfiltered twins gain the flagged cells and then the kept ones, so countUnfiltered grows by every cell landing in the bin |
| Dedisperse.AdvancedAnalysis.MergeExcess | uGMRT_beamutils/gptool_ver4.2.1/gptool.cpp:3760-3784 | with a previous excess, bins [0, maxDelay) of all four accumulators grow by exactly that excess and the other bins are unchanged; without one, nothing is added; either way the new excess is bins [length, length + maxDelay) |
| Dedisperse.AdvancedAnalysis.SaveExcess | uGMRT_beamutils/gptool_ver4.2.1/gptool.cpp:3780-3783 | the excess becomes bins [length, length + maxDelay) |
| Dedisperse.AdvancedAnalysis.NormalizeFullDM | uGMRT_beamutils/gptool_ver4.2.1/gptool.cpp:3785-3876 | applies the corrected gate to hasEnoughDedispersedData, foldingStartIndex and the lag; each bin below length is averaged (0 when empty) and marked when its count is at most 0.4·nChan; the unfiltered mean is left alone where count is 0; bins from length on are untouched; a block of no samples only meets the gate, which says not yet |
| Dedisperse.AdvancedAnalysis.AverageBins | uGMRT_beamutils/gptool_ver4.2.1/gptool.cpp:3836-3876 | the averaging and marking loop alone, with the same per-bin result |
| Dedisperse.AdvancedAnalysis.OpenFolding | uGMRT_beamutils/gptool_ver4.2.1/gptool.cpp:3800-3821 | the gate part alone: folding stays on unless the gate says not yet; a first block sets foldingStartIndex and adds the skipped samples to the lag |
| Dedisperse.AdvancedAnalysis.CalculateProfile | uGMRT_beamutils/gptool_ver4.2.1/gptool.cpp:3930-4016 | without enough data nothing changes; otherwise every unmarked sample from foldingStartIndex on adds one count and its value to its bin (profile counts never decrease); the position advances by every sample, marked or not; the display copy is each bin's mean |
| Dedisperse.AdvancedAnalysis.FoldBlock | uGMRT_beamutils/gptool_ver4.2.1/gptool.cpp:3961-3985 | the folding loop: the per-bin hits and masses as above, and the position stored back advanced by length - foldingStartIndex samples |
| Pipeline.ThreadPacket.constructor | uGMRT_beamutils/gptool_ver4.2.1/gptool.cpp:4809-4828 | every pointer of a new packet is null, in fresh dedispersion arrays |
| Pipeline.ThreadPacket.Copy | uGMRT_beamutils/gptool_ver4.2.1/gptool.cpp:4840-4850 | takes over the acquisition, the basic analyses, both filterings and the dedispersion contents of the other packet; the write-side pointers and the predecessor array stay |
| Pipeline.ThreadPacket.CopySelect | uGMRT_beamutils/gptool_ver4.2.1/gptool.cpp:4851-4861 | takes the other packet's basic analyses as the ones to write, both filterings, its dedispersion and its predecessor; when the predecessor array is this packet's own dedispersion array, the predecessor read is the dedispersion just written |
| Pipeline.ThreadPacket.FreeMem | uGMRT_beamutils/gptool_ver4.2.1/gptool.cpp:4862-4884 | the write-side analyses, the predecessors and both filterings become null; everything else stays |
| Pipeline.ChanFirst | uGMRT_beamutils/gptool_ver4.2.1/gptool.cpp:5009-5011 | channel flagging runs first exactly when channel flagging or normalised data is asked for |
| Pipeline.Action | uGMRT_beamutils/gptool_ver4.2.1/gptool.cpp:5749-5780 | stages 2 and 3 run channel and time flagging in the order chanFirst gives; stage 4 dedisperses unless only filtering is asked for; other indices do nothing |
| Pipeline.ActionRunsEachTaskOnce | uGMRT_beamutils/gptool_ver4.2.1/gptool.cpp:5749-5780 | whatever the order, stages 2 and 3 between them run both flaggings, and no task is run by two stages |
| Pipeline.ShiftAdvancesStages | uGMRT_beamutils/gptool_ver4.2.1/gptool.cpp:5549-5553 | after the shift, each later-stage packet holds the block of the packet one stage earlier; its write-side pointers and predecessor stay, apart from the hand-off packet |
| Pipeline.ShiftFillsWritePackets | uGMRT_beamutils/gptool_ver4.2.1/gptool.cpp:5549-5553 | after the shift, the write packets hold the analyses the last stage finished, and the second stage receives those dedispersions too |
| Pipeline.HandOffChainsRounds | uGMRT_beamutils/gptool_ver4.2.1/gptool.cpp:5544-5555 | after freeing, shifting and handing off, the first last-stage packet's predecessor is the dedispersion the last packet finished; the explicit hand-off then changes nothing more |
| Pipeline.Runtime.constructor | uGMRT_beamutils/gptool_ver4.2.1/gptool.cpp:4930-5011 | nActions = 5 stages of nThreadMultiplicity blank packets; the first last-stage packet gets the run-wide dedispersion as predecessor unless only filtering is asked for; packet nActions-1 gets the first basic analyses; chanFirst as ChanFirst says; block 0 |
| Pipeline.Runtime.FreeWritePackets | uGMRT_beamutils/gptool_ver4.2.1/gptool.cpp:5546-5547 | the write packets drop their write-side pointers, which Freed states; every other packet and every predecessor array stays |
| Pipeline.Runtime.SelectFinished | uGMRT_beamutils/gptool_ver4.2.1/gptool.cpp:5549-5550 | each write packet takes over the block the matching last-stage packet finished, including the aliased predecessor, which Selected states |
| Pipeline.Runtime.CopyDown | uGMRT_beamutils/gptool_ver4.2.1/gptool.cpp:5552-5553 | the descending copy: packet i + m takes over packet i's block, each read before it is overwritten, which CopiedFrom states |
| Pipeline.Runtime.ShiftPackets | uGMRT_beamutils/gptool_ver4.2.1/gptool.cpp:5421-5425 | the whole shift: select, then copy down, which Shifted states |
| Pipeline.Runtime.HandOff | uGMRT_beamutils/gptool_ver4.2.1/gptool.cpp:5555 | the first last-stage packet's predecessor array becomes write packet m-1's dedispersion array, so the hand-off is in place |
| Pipeline.Runtime.NextBlock | uGMRT_beamutils/gptool_ver4.2.1/gptool.cpp:5570 | the block counter moves on by nThreadMultiplicity |
| Pipeline.Runtime.LoopStep | uGMRT_beamutils/gptool_ver4.2.1/gptool.cpp:5544-5555 | one round of loopThrough's bookkeeping: free, shift, hand off; the pipeline stays valid and chained, and the next dedispersion's predecessor is the one the last packet finished |
| Pipeline.NewPackets | uGMRT_beamutils/gptool_ver4.2.1/gptool.cpp:4957-4961 | n fresh, distinct, blank packets |

## Left out

- The `Information` configuration and its file reading, the `Plot` class, the output writers, the benchmark timing and `main` are not part of this model. Nor is the shared-memory set-up (`initializeSHM`).
- Concurrency: the OpenMP sections, the `readDoneFlag`/`readCompleteFlag` spin-waits and the SIGINT handler are left out. The pipeline is modelled as the sequential shift and dispatch only. The stage bodies that `Action` names (`ioTasks`, `channelTasks`, `timeTasks`, `fullDMTask`, ...) are not modelled beyond the dispatch.
- Deallocation is not modelled. `FreeMem` sets pointers to null without deleting the objects, so a double free or a leak between packets is not visible in the model.
- Floating-point rounding: samples are real numbers. `float`/`double` rounding, overflow and NaN are not modelled.
- Sample words are values. Reading 8-, 16- or 32-bit words from bytes, and the float conversion of `floatConversionTasks`, are left out. The file is a sequence of samples and the ring copies are byte ranges.
- The busy-wait, logging and header copies of `readFromSHM` are left out. The ring is an abstract value that does not change during a read.
- `histogramBased`, `calculateCutoff`, `subtractZeroDM`, `calculatePolycoPhase` and the polyco tables are left out (floating-point estimators and external tables). Only fixed-period folding is modelled.
- `computeBandshape(char* timeFlags)` is left out. It is dead code: the flag order is forced before it can be reached.
- `normalizeBandshape` (normalisation by an external bandshape file) is left out. It is file input, so `CalculateCumulativeBandshapes` takes a flag saying whether to smooth.
- The `refFrequency` branch of the delay table is left out, because the configuration forces `refFrequency` to 0.
- The minimum and maximum values kept for plotting (zero-DM, bandshapes, dedispersed series, profile) are left out.
- The normalisation of `profileOffset` into [0, 1) in the `Runtime` constructor is left out. `FoldParams` requires an offset in [0, 1].
- Basic.BasicAnalysis.CalculateCumulativeBandshapes: the mean-to-rms value is left as the block's sum of squares (0 where the mean is 0). The square root `mean/sqrt(sumsq/count - mean²)` is not computed.
- Basic.Mean: where the source divides by zero the model gives 0 instead of NaN or infinity. This covers every channel flagged, no channel in use, and a block of no samples. The last one is the final block of a file that ends on a block boundary: `CalculateCumulativeBandshapes` then adds nothing to the totals and divides by a count of 0, and `SmoothStep` divides by a run-wide count that is still 0 when no sample has been counted.
- Dedisperse.FoldingGateAsWritten: defined only where the source's expression is defined. With both length and maxDelay 0, the source computes `0 % 0`.
- The source also rounds its stored copy of `startTime` down to a whole number of blocks (gptool.cpp:4955). No modelled operation reads that copy, so it is left out.
- Dedisperse.MeanOf: an empty dedispersed bin is 0, as in the source. The display profile also shows 0 for an empty bin, as in the source.
- Basic.BasicAnalysis.SmoothAndNormalizeBandshape: a smoothing window shorter than 2 is excluded. The source then sorts an empty temporary array and reads outside it.
- Basic.BasicAnalysis.GetFilteredRawData: the 16-bit copy holds unbounded integers. Wrap-around of values outside the `short int` range is not modelled.
- The run-wide state is shared, not static. `initLagMs`, the folded profile, the cumulative bandshapes, the delay table and the file and ring cursors are static members in the source and are objects shared by reference in the model.
- `fullDMTask` dereferences `advancedAnalysisOld` without a null check. The model only gives the carry-over to `MergeExcess` as an `Option`, so the missing check is not reproduced.
- Runtime packets: the packet array is a fixed sequence of objects. The five pointer arrays other than the two dedispersion arrays are held as sequences in each packet, since they are never shared.
- `fillPipe`: the model covers its shift (`ShiftPackets`), its block counter (`NextBlock`) and its closing hand-off (`HandOff`), but not the loop around them, which only interleaves these with the concurrent stage calls. `quickclosePipe` and `closePipe` are left out for the same reason.

## Findings

| source | as written | input that shows it | evidently intended | confidence | as-written member | corrected member |
|---|---|---|---|---|---|---|
| uGMRT_beamutils/gptool_ver4.2.1/gptool.cpp:2076 | after the final partial copy of a block, `remainingData=(samplesToTake-fetched)` keeps only the length of that copy | a block that starts 30 bytes into a record and needs 30 more: the carry becomes 30, so the next block re-reads bytes 30..59 of the same record | the carry is the offset past the copy, `remainingData + (samplesToTake-fetched)` | not executed | Acquire.FetchRecordAsWritten, Acquire.CarryAsWrittenRereads | Acquire.AcquireCursor.FetchRecord |
| uGMRT_beamutils/gptool_ver4.2.1/gptool.cpp:3124-3125 | `MADBased` reads `tempInput[inputSize/2-1]` and `tempInput[inputSize/2]` with no check on inputSize | the time series of a block of no samples (inputSize 0), which the final read produces when the file ends on a block boundary: it reads position -1 of an empty array | an empty series has no statistics and nothing to flag, so it is guarded; the model sets them to 0 | not executed | Rfi.MedianLow, Rfi.MedianReadsInside | Rfi.RFIFiltering.MADBased |
| uGMRT_beamutils/gptool_ver4.2.1/gptool.cpp:3812 | the first folding block is chosen by `int((blockIndex+1)*length/maxDelay)==1 && (blockIndex+1)*length%maxDelay<length` | length 4, maxDelay 8, blockIndex 1: the gate opens with foldingStartIndex 0, folding global sample 4 although the lowest channel's sample has not arrived until sample 8 | the first block is the one that contains global sample maxDelay, starting at maxDelay % length | not executed | Dedisperse.FoldingGateAsWritten, Dedisperse.FoldingGateStartsEarly | Dedisperse.FoldingGate, Dedisperse.FoldingGateExact |
