// The sequential bookkeeping of the processing pipeline: the thread packets
// that carry one block's analyses from stage to stage, the shift that moves
// every packet one stage on, the hand-off of the previous block's
// dedispersion to the dedispersion stage, and the dispatch of a stage index
// to its task.

module Pipeline {
  import Acquire
  import Basic
  import Rfi
  import Dedisperse

  /** The analyses one packet holds, read off the heap. */
  datatype PacketView = PacketView(
    aquireData: Acquire.AquireData?,
    basicAnalysis: seq<Basic.BasicAnalysis?>,
    basicAnalysisWrite: seq<Basic.BasicAnalysis?>,
    rFIFilteringTime: seq<Rfi.RFIFiltering?>,
    rFIFilteringChan: seq<Rfi.RFIFiltering?>,
    advancedAnalysis: seq<Dedisperse.AdvancedAnalysis?>,
    advancedAnalysisOld: seq<Dedisperse.AdvancedAnalysis?>)

  /** One packet: a pointer per polarisation to each analysis of the block
      it carries. The advancedAnalysis arrays are heap arrays because the
      hand-off makes one packet's advancedAnalysisOld the very array of
      another packet's advancedAnalysis; the other pointer arrays are never
      shared and are held as sequences. */
  class ThreadPacket {
    const noOfPol: nat
    var aquireData: Acquire.AquireData?
    var basicAnalysis: seq<Basic.BasicAnalysis?>
    var basicAnalysisWrite: seq<Basic.BasicAnalysis?>
    var rFIFilteringTime: seq<Rfi.RFIFiltering?>
    var rFIFilteringChan: seq<Rfi.RFIFiltering?>
    const advancedAnalysis: array<Dedisperse.AdvancedAnalysis?>
    var advancedAnalysisOld: array<Dedisperse.AdvancedAnalysis?>

    ghost predicate Valid()
      reads this
    {
      |basicAnalysis| == noOfPol && |basicAnalysisWrite| == noOfPol &&
      |rFIFilteringTime| == noOfPol && |rFIFilteringChan| == noOfPol &&
      advancedAnalysis.Length == noOfPol && advancedAnalysisOld.Length == noOfPol &&
      advancedAnalysis != advancedAnalysisOld
    }

    ghost function ViewOf(): PacketView
      reads this, advancedAnalysis, advancedAnalysisOld
    {
      PacketView(aquireData, basicAnalysis, basicAnalysisWrite, rFIFilteringTime, rFIFilteringChan,
                 advancedAnalysis[..], advancedAnalysisOld[..])
    }

    /** Every pointer starts out null. */
    constructor(noOfPol: nat)
      ensures Valid() && this.noOfPol == noOfPol
      ensures fresh(advancedAnalysis) && fresh(advancedAnalysisOld)
      ensures aquireData == null && basicAnalysis == seq(noOfPol, _ => null)
      ensures basicAnalysisWrite == seq(noOfPol, _ => null)
      ensures rFIFilteringTime == seq(noOfPol, _ => null) && rFIFilteringChan == seq(noOfPol, _ => null)
      ensures advancedAnalysis[..] == seq(noOfPol, _ => null) && advancedAnalysisOld[..] == seq(noOfPol, _ => null)
    {
      this.noOfPol := noOfPol;
      aquireData := null;
      basicAnalysis := seq(noOfPol, _ => null);
      basicAnalysisWrite := seq(noOfPol, _ => null);
      rFIFilteringTime := seq(noOfPol, _ => null);
      rFIFilteringChan := seq(noOfPol, _ => null);
      advancedAnalysis := new Dedisperse.AdvancedAnalysis?[noOfPol](_ => null);
      advancedAnalysisOld := new Dedisperse.AdvancedAnalysis?[noOfPol](_ => null);
    }

    /** Takes over the block of the previous stage: its acquisition, basic
        analyses, flag generators and dedispersion. The write-side pointers
        are left alone. */
    method Copy(other: ThreadPacket)
      requires Valid() && other.Valid() && other.noOfPol == noOfPol
      modifies this, advancedAnalysis
      ensures Valid()
      ensures ViewOf() == old(ViewOf()).(aquireData := old(other.aquireData),
        basicAnalysis := old(other.basicAnalysis), rFIFilteringTime := old(other.rFIFilteringTime),
        rFIFilteringChan := old(other.rFIFilteringChan), advancedAnalysis := old(other.advancedAnalysis[..]))
      ensures advancedAnalysisOld == old(advancedAnalysisOld)
    {
      aquireData := other.aquireData;
      var k := 0;
      while k < noOfPol
        invariant 0 <= k <= noOfPol && Valid()
        invariant advancedAnalysisOld == old(advancedAnalysisOld) && aquireData == old(other.aquireData)
        invariant basicAnalysisWrite == old(basicAnalysisWrite)
        invariant forall j :: 0 <= j < k ==>
          basicAnalysis[j] == old(other.basicAnalysis[j]) && rFIFilteringTime[j] == old(other.rFIFilteringTime[j]) &&
          rFIFilteringChan[j] == old(other.rFIFilteringChan[j]) && advancedAnalysis[j] == old(other.advancedAnalysis[j])
        invariant forall j :: k <= j < noOfPol ==>
          basicAnalysis[j] == old(basicAnalysis[j]) && rFIFilteringTime[j] == old(rFIFilteringTime[j]) &&
          rFIFilteringChan[j] == old(rFIFilteringChan[j]) && advancedAnalysis[j] == old(advancedAnalysis[j]) &&
          other.basicAnalysis[j] == old(other.basicAnalysis[j]) &&
          other.rFIFilteringTime[j] == old(other.rFIFilteringTime[j]) &&
          other.rFIFilteringChan[j] == old(other.rFIFilteringChan[j]) &&
          other.advancedAnalysis[j] == old(other.advancedAnalysis[j])
        invariant forall j :: 0 <= j < noOfPol ==> advancedAnalysisOld[j] == old(advancedAnalysisOld[j])
      {
        basicAnalysis := basicAnalysis[k := other.basicAnalysis[k]];
        rFIFilteringTime := rFIFilteringTime[k := other.rFIFilteringTime[k]];
        rFIFilteringChan := rFIFilteringChan[k := other.rFIFilteringChan[k]];
        advancedAnalysis[k] := other.advancedAnalysis[k];
        k := k + 1;
      }
    }

    /** Readies this packet to write out the block other has finished: its
        basic analyses as the ones to write, its flag generators, its
        dedispersion and its predecessor. Each polarisation's predecessor is
        read after its dedispersion has been written, so when other's
        predecessor array is this packet's dedispersion array, the
        predecessor taken is other's dedispersion. */
    method CopySelect(other: ThreadPacket)
      requires Valid() && other.Valid() && other.noOfPol == noOfPol
      modifies this, advancedAnalysis, advancedAnalysisOld
      ensures Valid()
      ensures ViewOf() == old(ViewOf()).(basicAnalysisWrite := old(other.basicAnalysis),
        rFIFilteringTime := old(other.rFIFilteringTime), rFIFilteringChan := old(other.rFIFilteringChan),
        advancedAnalysis := old(other.advancedAnalysis[..]),
        advancedAnalysisOld := if old(other.advancedAnalysisOld) == advancedAnalysis
                               then old(other.advancedAnalysis[..]) else old(other.advancedAnalysisOld[..]))
      ensures advancedAnalysisOld == old(advancedAnalysisOld)
    {
      var k := 0;
      while k < noOfPol
        invariant 0 <= k <= noOfPol && Valid()
        invariant advancedAnalysisOld == old(advancedAnalysisOld) && other.advancedAnalysisOld == old(other.advancedAnalysisOld)
        invariant aquireData == old(aquireData) && basicAnalysis == old(basicAnalysis)
        invariant forall j :: 0 <= j < k ==>
          basicAnalysisWrite[j] == old(other.basicAnalysis[j]) &&
          rFIFilteringTime[j] == old(other.rFIFilteringTime[j]) &&
          rFIFilteringChan[j] == old(other.rFIFilteringChan[j]) &&
          advancedAnalysis[j] == old(other.advancedAnalysis[j]) &&
          advancedAnalysisOld[j] == (if other.advancedAnalysisOld == advancedAnalysis
                                     then old(other.advancedAnalysis[j]) else old(other.advancedAnalysisOld[j]))
        invariant forall j :: k <= j < noOfPol ==>
          basicAnalysisWrite[j] == old(basicAnalysisWrite[j]) &&
          rFIFilteringTime[j] == old(rFIFilteringTime[j]) && rFIFilteringChan[j] == old(rFIFilteringChan[j]) &&
          advancedAnalysis[j] == old(advancedAnalysis[j]) && advancedAnalysisOld[j] == old(advancedAnalysisOld[j]) &&
          other.basicAnalysis[j] == old(other.basicAnalysis[j]) &&
          other.rFIFilteringTime[j] == old(other.rFIFilteringTime[j]) &&
          other.rFIFilteringChan[j] == old(other.rFIFilteringChan[j]) &&
          other.advancedAnalysis[j] == old(other.advancedAnalysis[j]) &&
          other.advancedAnalysisOld[j] == old(other.advancedAnalysisOld[j])
      {
        basicAnalysisWrite := basicAnalysisWrite[k := other.basicAnalysis[k]];
        rFIFilteringTime := rFIFilteringTime[k := other.rFIFilteringTime[k]];
        rFIFilteringChan := rFIFilteringChan[k := other.rFIFilteringChan[k]];
        advancedAnalysis[k] := other.advancedAnalysis[k];
        advancedAnalysisOld[k] := other.advancedAnalysisOld[k];
        k := k + 1;
      }
    }

    /** Drops the write-side pointers once the block has been written: the
        basic analyses written, the predecessor and the flag generators
        become null. */
    method FreeMem()
      requires Valid()
      modifies this, advancedAnalysisOld
      ensures Valid()
      ensures ViewOf() == old(ViewOf()).(basicAnalysisWrite := seq(noOfPol, _ => null), advancedAnalysisOld := seq(noOfPol, _ => null),
        rFIFilteringTime := seq(noOfPol, _ => null), rFIFilteringChan := seq(noOfPol, _ => null))
      ensures advancedAnalysisOld == old(advancedAnalysisOld)
    {
      var i := 0;
      while i < noOfPol
        invariant 0 <= i <= noOfPol && Valid()
        invariant advancedAnalysisOld == old(advancedAnalysisOld)
        invariant aquireData == old(aquireData) && basicAnalysis == old(basicAnalysis)
        invariant advancedAnalysis[..] == old(advancedAnalysis[..])
        invariant forall j :: 0 <= j < i ==>
          basicAnalysisWrite[j] == null && advancedAnalysisOld[j] == null &&
          rFIFilteringChan[j] == null && rFIFilteringTime[j] == null
        invariant forall j :: i <= j < noOfPol ==>
          basicAnalysisWrite[j] == old(basicAnalysisWrite[j]) && advancedAnalysisOld[j] == old(advancedAnalysisOld[j]) &&
          rFIFilteringChan[j] == old(rFIFilteringChan[j]) && rFIFilteringTime[j] == old(rFIFilteringTime[j])
      {
        basicAnalysisWrite := basicAnalysisWrite[i := null];
        advancedAnalysisOld[i] := null;
        rFIFilteringChan := rFIFilteringChan[i := null];
        rFIFilteringTime := rFIFilteringTime[i := null];
        i := i + 1;
      }
    }
  }

  /** The task a stage runs. */
  datatype Task = PlotTasks | IoTasks | FloatConversionTasks | ChannelTasks | TimeTasks | FullDMTask | Idle

  /** Whether the channel-flagging stage runs before the time-flagging
      stage; the flag-order clause adds nothing beyond channel flagging. */
  function ChanFirst(doTimeFlag: bool, doChanFlag: bool, flagOrder: int, doUseNormalizedData: bool): (r: bool)
    ensures r <==> doChanFlag || doUseNormalizedData
  {
    (doTimeFlag && doChanFlag && flagOrder == 1) || doUseNormalizedData || doChanFlag
  }

  /** The task stage actionIndex runs: -1 plots, 0 reads and writes, 1
      converts to floating point, 2 and 3 flag in channel and time in the
      order chanFirst says, and 4 dedisperses and folds unless only
      filtering is asked for. */
  function Action(actionIndex: int, chanFirst: bool, doFilteringOnly: bool): (t: Task)
    ensures (t == ChannelTasks) <==> (actionIndex == 2 && chanFirst) || (actionIndex == 3 && !chanFirst)
    ensures (t == TimeTasks) <==> (actionIndex == 3 && chanFirst) || (actionIndex == 2 && !chanFirst)
    ensures (t == FullDMTask) <==> actionIndex == 4 && !doFilteringOnly
    ensures (t == Idle) <==> actionIndex < -1 || actionIndex > 4 || (actionIndex == 4 && doFilteringOnly)
  {
    match actionIndex
    case -1 => PlotTasks
    case 0 => IoTasks
    case 1 => FloatConversionTasks
    case 2 => if chanFirst then ChannelTasks else TimeTasks
    case 3 => if chanFirst then TimeTasks else ChannelTasks
    case 4 => if !doFilteringOnly then FullDMTask else Idle
    case _ => Idle
  }

  /** Whatever the order, stages 2 and 3 between them run both flaggings,
      and no task is run by two stages. */
  lemma ActionRunsEachTaskOnce(chanFirst: bool, doFilteringOnly: bool)
    ensures {Action(2, chanFirst, doFilteringOnly), Action(3, chanFirst, doFilteringOnly)} == {ChannelTasks, TimeTasks}
    ensures forall i, j :: -1 <= i <= 4 && -1 <= j <= 4 && i != j && Action(i, chanFirst, doFilteringOnly) != Idle ==>
      Action(i, chanFirst, doFilteringOnly) != Action(j, chanFirst, doFilteringOnly)
  {
  }

  /** Packet w, a write packet, takes over the block packet f of the last
      stage has finished. selfAliased: f's predecessor array is w's own
      dedispersion array, which is written first. */
  function TakeFinished(w: PacketView, f: PacketView, selfAliased: bool): PacketView
  {
    w.(basicAnalysisWrite := f.basicAnalysis, rFIFilteringTime := f.rFIFilteringTime,
       rFIFilteringChan := f.rFIFilteringChan, advancedAnalysis := f.advancedAnalysis,
       advancedAnalysisOld := if selfAliased then f.advancedAnalysis else f.advancedAnalysisOld)
  }

  /** Packet p takes over the block of packet q, one stage earlier. */
  function TakeOver(p: PacketView, q: PacketView): PacketView
  {
    p.(aquireData := q.aquireData, basicAnalysis := q.basicAnalysis, rFIFilteringTime := q.rFIFilteringTime,
       rFIFilteringChan := q.rFIFilteringChan, advancedAnalysis := q.advancedAnalysis)
  }

  /** The packets after write packets [0, n) have taken over the blocks of
      the last stage, packets [|v| - m, |v| - m + n). chained: the first
      last-stage packet's predecessor array is write packet m-1's
      dedispersion array, so it changes with it once n reaches m. */
  function SelectedFirst(v: seq<PacketView>, m: nat, n: nat, chained: bool): (r: seq<PacketView>)
    requires m >= 1 && |v| >= 2 * m && n <= m
    ensures |r| == |v|
  {
    var last := |v| - m;
    seq(|v|, j requires 0 <= j < |v| =>
      if j < n then TakeFinished(v[j], v[last + j], chained && m == 1)
      else if chained && n == m && j == last then v[j].(advancedAnalysisOld := v[|v| - 1].advancedAnalysis)
      else v[j])
  }

  /** The packets after all write packets have taken over the finished
      blocks. */
  function Selected(v: seq<PacketView>, m: nat, chained: bool): (r: seq<PacketView>)
    requires m >= 1 && |v| >= 2 * m
    ensures |r| == |v|
  {
    SelectedFirst(v, m, m, chained)
  }

  /** One copySelect: write packet i takes over the block of last-stage
      packet |w| - m + i; when that makes write packet m-1's dedispersion
      new, the first last-stage packet's predecessor, the same array, sees
      it too. */
  function SelectStep(w: seq<PacketView>, m: nat, i: nat, chained: bool): (r: seq<PacketView>)
    requires m >= 1 && |w| >= 2 * m && i < m
    ensures |r| == |w|
  {
    var p := TakeFinished(w[i], w[|w| - m + i], chained && m == 1);
    if chained && i == m - 1 then w[i := p][|w| - m := w[|w| - m].(advancedAnalysisOld := p.advancedAnalysis)]
    else w[i := p]
  }

  /** The packets of s from i + m on have taken over the block of the
      packet m places earlier. */
  function CopiedFrom(s: seq<PacketView>, m: nat, i: nat): (r: seq<PacketView>)
    ensures |r| == |s|
  {
    seq(|s|, j requires 0 <= j < |s| => if j >= i + m then TakeOver(s[j], s[j - m]) else s[j])
  }

  /** The packets after the shift: the write packets take over the
      finished blocks, then every other packet takes over the block of the
      packet one stage (m packets) earlier. */
  function Shifted(v: seq<PacketView>, m: nat, chained: bool): (r: seq<PacketView>)
    requires m >= 1 && |v| >= 2 * m
    ensures |r| == |v|
  {
    CopiedFrom(Selected(v, m, chained), m, 0)
  }

  /** A packet that has dropped its write-side pointers. */
  function FreeView(p: PacketView, noOfPol: nat): PacketView
  {
    p.(basicAnalysisWrite := seq(noOfPol, _ => null), advancedAnalysisOld := seq(noOfPol, _ => null),
       rFIFilteringTime := seq(noOfPol, _ => null), rFIFilteringChan := seq(noOfPol, _ => null))
  }

  /** The packets after packets [0, m) have dropped their write-side
      pointers. */
  function Freed(v: seq<PacketView>, m: nat, noOfPol: nat): (r: seq<PacketView>)
    ensures |r| == |v|
  {
    seq(|v|, j requires 0 <= j < |v| => if j < m then FreeView(v[j], noOfPol) else v[j])
  }

  /** Selecting write packet i after write packets [0, i) extends the
      selection by one. */
  lemma SelectStepExtends(v: seq<PacketView>, m: nat, i: nat, chained: bool)
    requires m >= 1 && |v| >= 2 * m && i < m
    ensures SelectStep(SelectedFirst(v, m, i, chained), m, i, chained) == SelectedFirst(v, m, i + 1, chained)
  {
  }

  /** Copying packet i into packet i + m after the packets above have been
      copied extends the copy by one. */
  lemma CopyStepExtends(s: seq<PacketView>, m: nat, i: nat)
    requires i + m < |s|
    ensures CopiedFrom(s, m, i + 1)[i + m := TakeOver(CopiedFrom(s, m, i + 1)[i + m], CopiedFrom(s, m, i + 1)[i])]
            == CopiedFrom(s, m, i)
  {
  }

  /** Freeing packet i after packets [0, i) extends the freeing by one. */
  lemma FreeStepExtends(v: seq<PacketView>, i: nat, noOfPol: nat)
    requires i < |v|
    ensures Freed(v, i, noOfPol)[i := FreeView(Freed(v, i, noOfPol)[i], noOfPol)] == Freed(v, i + 1, noOfPol)
  {
  }

  /** The packets after the first last-stage packet's predecessor array
      has become write packet m-1's dedispersion array. */
  function HandedOff(v: seq<PacketView>, m: nat): (r: seq<PacketView>)
    requires m >= 1 && |v| >= 2 * m
    ensures |r| == |v|
  {
    v[|v| - m := v[|v| - m].(advancedAnalysisOld := v[m - 1].advancedAnalysis)]
  }

  /** The shift moves every block one stage on: each packet past the write
      packets holds the acquisition and basic analyses of the packet one
      stage earlier, and, past the first stage, its flag generators and
      dedispersion too. The write-side pointers of those packets stay. */
  lemma ShiftAdvancesStages(v: seq<PacketView>, m: nat, chained: bool, j: int)
    requires m >= 1 && |v| >= 2 * m && m <= j < |v|
    ensures Shifted(v, m, chained)[j].aquireData == v[j - m].aquireData
    ensures Shifted(v, m, chained)[j].basicAnalysis == v[j - m].basicAnalysis
    ensures Shifted(v, m, chained)[j].basicAnalysisWrite == v[j].basicAnalysisWrite
    ensures j >= 2 * m ==>
      (Shifted(v, m, chained)[j].advancedAnalysis == v[j - m].advancedAnalysis &&
       Shifted(v, m, chained)[j].rFIFilteringTime == v[j - m].rFIFilteringTime &&
       Shifted(v, m, chained)[j].rFIFilteringChan == v[j - m].rFIFilteringChan)
    ensures !(chained && j == |v| - m) ==> Shifted(v, m, chained)[j].advancedAnalysisOld == v[j].advancedAnalysisOld
  {

  }

  /** The write packets receive the blocks the last stage finished, and so
      does the first stage, which the next round overwrites. */
  lemma ShiftFillsWritePackets(v: seq<PacketView>, m: nat, chained: bool, i: int)
    requires m >= 1 && |v| >= 2 * m && 0 <= i < m
    ensures Shifted(v, m, chained)[i].basicAnalysisWrite == v[|v| - m + i].basicAnalysis
    ensures Shifted(v, m, chained)[i].advancedAnalysis == v[|v| - m + i].advancedAnalysis
    ensures Shifted(v, m, chained)[i].rFIFilteringTime == v[|v| - m + i].rFIFilteringTime
    ensures Shifted(v, m, chained)[i].rFIFilteringChan == v[|v| - m + i].rFIFilteringChan
    ensures Shifted(v, m, chained)[i].aquireData == v[i].aquireData
    ensures Shifted(v, m, chained)[i].basicAnalysis == v[i].basicAnalysis
    ensures Shifted(v, m, chained)[m + i].advancedAnalysis == v[|v| - m + i].advancedAnalysis
  {

  }

  /** Once handed off, the first last-stage packet's predecessor stays the
      newest dedispersion of the write packets through the next round: after
      the write packets are freed, the shift and the hand-off, it is the
      dedispersion the last last-stage packet held, the block just before
      the next one the first last-stage packet dedisperses. */
  lemma HandOffChainsRounds(v: seq<PacketView>, m: nat, noOfPol: nat)
    requires m >= 1 && |v| >= 2 * m
    requires v[|v| - m].advancedAnalysisOld == v[m - 1].advancedAnalysis
    ensures Shifted(Freed(v, m, noOfPol), m, true)[|v| - m].advancedAnalysisOld == v[|v| - 1].advancedAnalysis
    ensures HandedOff(Shifted(Freed(v, m, noOfPol), m, true), m) == Shifted(Freed(v, m, noOfPol), m, true)
  {

  }

  /** The pipeline: nActions stages of nThreadMultiplicity packets each,
      stage s in packets [s * m, (s + 1) * m). Packets [0, m) are the write
      packets, which also feed the plotting stage; the last stage
      dedisperses. */
  class Runtime {
    const nActions: nat
    const nThreadMultiplicity: nat
    const noOfPol: nat
    const chanFirst: bool
    const doFilteringOnly: bool
    const threadPacket: seq<ThreadPacket>
    var blockIndex: int
    /** The packets and their analysis pointer arrays. */
    ghost const Repr: set<object>

    /** The first packet of the last stage. */
    function Last(): int
    {
      (nActions - 1) * nThreadMultiplicity
    }

    /** Every packet and its dedispersion array belong to the pipeline. */
    ghost predicate Owned()
    {
      forall i :: 0 <= i < |threadPacket| ==> threadPacket[i] in Repr && threadPacket[i].advancedAnalysis in Repr
    }

    /** Distinct packets, each with its own arrays; the one array two
        packets may share is the hand-off's. */
    ghost predicate Valid()
      reads Repr
    {
      Owned() &&
      nActions >= 2 && nThreadMultiplicity >= 1 && |threadPacket| == nActions * nThreadMultiplicity &&
      Last() + nThreadMultiplicity == |threadPacket| && Last() >= nThreadMultiplicity &&
      (forall i :: 0 <= i < |threadPacket| ==> threadPacket[i].Valid() && threadPacket[i].noOfPol == noOfPol) &&
      (forall i :: 0 <= i < |threadPacket| ==> OldArrays()[i] in Repr) &&
      Apart(threadPacket, OldArrays(), nThreadMultiplicity - 1, Last())
    }

    /** The hand-off is in place: the first last-stage packet's predecessor
        array is write packet m-1's dedispersion array. */
    ghost predicate Chained()
      reads Repr
      requires Valid()
    {
      threadPacket[Last()].advancedAnalysisOld == threadPacket[nThreadMultiplicity - 1].advancedAnalysis
    }

    ghost function View(): (v: seq<PacketView>)
      requires Valid()
      reads Repr
      ensures |v| == |threadPacket|
    {
      seq(|threadPacket|, i requires 0 <= i < |threadPacket| && threadPacket[i] in Repr &&
                                      threadPacket[i].advancedAnalysis in Repr &&
                                      threadPacket[i].advancedAnalysisOld in Repr
        reads Repr =>
        threadPacket[i].ViewOf())
    }

    /** Each packet's predecessor array. */
    ghost function OldArrays(): (s: seq<array<Dedisperse.AdvancedAnalysis?>>)
      requires Owned()
      reads Repr
      ensures |s| == |threadPacket|
    {
      Olds(threadPacket)
    }

    /** Sets up the pipeline: nActions = 5 stages of empty packets; the
        last stage's first packet gets the analyses that stand in for the
        block before the first (unless only filtering is asked for), and
        packet nActions - 1 gets the first basic analyses. */
    constructor(noOfPol: nat, nThreadMultiplicity: nat, doFilteringOnly: bool, doTimeFlag: bool, doChanFlag: bool,
                flagOrder: int, doUseNormalizedData: bool, firstOld: seq<Dedisperse.AdvancedAnalysis?>,
                firstBasic: seq<Basic.BasicAnalysis?>)
      requires nThreadMultiplicity >= 1 && |firstOld| == noOfPol && |firstBasic| == noOfPol
      ensures Valid() && nActions == 5 && this.nThreadMultiplicity == nThreadMultiplicity && this.noOfPol == noOfPol
      ensures chanFirst == ChanFirst(doTimeFlag, doChanFlag, flagOrder, doUseNormalizedData)
      ensures this.doFilteringOnly == doFilteringOnly && blockIndex == 0
      ensures forall i :: 0 <= i < |threadPacket| ==>
        View()[i] == PacketView(null, if i == nActions - 1 then firstBasic else seq(noOfPol, _ => null),
                                seq(noOfPol, _ => null), seq(noOfPol, _ => null), seq(noOfPol, _ => null),
                                seq(noOfPol, _ => null),
                                if i == Last() && !doFilteringOnly then firstOld else seq(noOfPol, _ => null))
    {
      nActions := 5;
      this.nThreadMultiplicity := nThreadMultiplicity;
      this.noOfPol := noOfPol;
      this.doFilteringOnly := doFilteringOnly;
      chanFirst := ChanFirst(doTimeFlag, doChanFlag, flagOrder, doUseNormalizedData);
      blockIndex := 0;
      var packets, repr := NewPipe(5 * nThreadMultiplicity, 4, 4 * nThreadMultiplicity, noOfPol, doFilteringOnly,
                                   firstOld, firstBasic);
      threadPacket := packets;
      Repr := repr;
    }

    /** A step that keeps every predecessor pointer and every packet's own
        shape keeps the pipeline valid. */
    twostate lemma StaysValid()
      requires old(Valid()) && OldArrays() == old(OldArrays())
      requires forall j :: 0 <= j < |threadPacket| ==> threadPacket[j].Valid()
      ensures Valid()
    {
    }

    /** The packets show the views w. */
    lemma ViewIs(w: seq<PacketView>)
      requires Valid() && |w| == |threadPacket|
      requires forall j :: 0 <= j < |threadPacket| ==> threadPacket[j].ViewOf() == w[j]
      ensures View() == w
    {
    }

    /** The write packets drop their write-side pointers (the objects
        behind them are released). */
    method FreeWritePackets()
      requires Valid()
      modifies Repr
      ensures Valid() && OldArrays() == old(OldArrays())
      ensures View() == Freed(old(View()), nThreadMultiplicity, noOfPol)
    {
      ghost var v0, a0 := View(), OldArrays();
      var i := 0;
      while i < nThreadMultiplicity
        invariant 0 <= i <= nThreadMultiplicity && Valid() && OldArrays() == a0
        invariant forall j :: 0 <= j < |threadPacket| ==> threadPacket[j].ViewOf() == Freed(v0, i, noOfPol)[j]
      {
        label before:
        FreeOne(threadPacket, i, nThreadMultiplicity - 1, Last(), Freed(v0, i, noOfPol));
        StaysValid@before();
        FreeStepExtends(v0, i, noOfPol);
        i := i + 1;
      }
      ViewIs(Freed(v0, nThreadMultiplicity, noOfPol));
    }

    /** Moves every block one stage on: the write packets take over the
        blocks the last stage finished, then each later packet takes over
        the block of the packet m places earlier. */
    method ShiftPackets()
      requires Valid()
      modifies Repr
      ensures Valid() && OldArrays() == old(OldArrays())
      ensures View() == Shifted(old(View()), nThreadMultiplicity, old(Chained()))
    {
      SelectFinished();
      CopyDown();
    }

    /** The copySelect loop: each write packet takes over the block the
        matching last-stage packet has finished. */
    method SelectFinished()
      requires Valid()
      modifies Repr
      ensures Valid() && OldArrays() == old(OldArrays())
      ensures View() == Selected(old(View()), nThreadMultiplicity, old(Chained()))
    {
      ghost var v0, a0, chained := View(), OldArrays(), Chained();
      var i := 0;
      while i < nThreadMultiplicity
        invariant 0 <= i <= nThreadMultiplicity && Valid() && OldArrays() == a0
        invariant SelectedUpTo(i, v0, chained)
      {
        SelectSlot(i, v0, chained);
        i := i + 1;
      }
      ViewIs(Selected(v0, nThreadMultiplicity, chained));
    }

    /** Write packets [0, i) have taken over their finished blocks, and
        chained still says whether the hand-off is in place. */
    ghost predicate SelectedUpTo(i: int, v0: seq<PacketView>, chained: bool)
      requires Valid()
      reads Repr
    {
      |v0| == |threadPacket| && 0 <= i <= nThreadMultiplicity &&
      chained == (OldArrays()[Last()] == threadPacket[nThreadMultiplicity - 1].advancedAnalysis) &&
      forall j :: 0 <= j < |threadPacket| ==>
        threadPacket[j].ViewOf() == SelectedFirst(v0, nThreadMultiplicity, i, chained)[j]
    }

    method SelectSlot(i: int, ghost v0: seq<PacketView>, ghost chained: bool)
      requires Valid() && i < nThreadMultiplicity && SelectedUpTo(i, v0, chained)
      modifies Repr
      ensures Valid() && OldArrays() == old(OldArrays()) && SelectedUpTo(i + 1, v0, chained)
    {
      label before:
      SelectOne(threadPacket, i, nThreadMultiplicity, SelectedFirst(v0, nThreadMultiplicity, i, chained), chained);
      StaysValid@before();
      SelectStepExtends(v0, nThreadMultiplicity, i, chained);
    }

    /** The descending copy loop: each packet past the write packets takes
        over the block of the packet m places earlier, highest first so
        that nothing is read after it has been overwritten. */
    method CopyDown()
      requires Valid()
      modifies Repr
      ensures Valid() && OldArrays() == old(OldArrays())
      ensures View() == CopiedFrom(old(View()), nThreadMultiplicity, 0)
    {
      ghost var s1, a0 := View(), OldArrays();
      var i := Last();
      while i > 0
        invariant 0 <= i <= Last() && Valid() && OldArrays() == a0
        invariant forall j :: 0 <= j < |threadPacket| ==>
          threadPacket[j].ViewOf() == CopiedFrom(s1, nThreadMultiplicity, i)[j]
      {
        i := i - 1;
        label before:
        CopyOne(threadPacket, i, nThreadMultiplicity, Last(), CopiedFrom(s1, nThreadMultiplicity, i + 1));
        StaysValid@before();
        CopyStepExtends(s1, nThreadMultiplicity, i);
      }
      ViewIs(CopiedFrom(s1, nThreadMultiplicity, 0));
    }

    /** The first last-stage packet's predecessor array becomes write
        packet m-1's dedispersion array, so its next block is merged with
        the newest finished one. */
    method HandOff()
      requires Valid()
      modifies threadPacket[Last()]
      ensures Valid() && Chained()
      ensures View() == HandedOff(old(View()), nThreadMultiplicity)
    {
      threadPacket[Last()].advancedAnalysisOld := threadPacket[nThreadMultiplicity - 1].advancedAnalysis;
    }

    /** The block counter moves on by the blocks one round handles. */
    method NextBlock()
      modifies this`blockIndex
      ensures blockIndex == old(blockIndex) + nThreadMultiplicity
    {
      blockIndex := blockIndex + nThreadMultiplicity;
    }

    /** One round of the steady pipeline, after its stages have run: the
        write packets are freed, every block moves one stage on, and the
        hand-off is renewed. */
    method LoopStep()
      requires Valid() && Chained()
      modifies Repr
      ensures Valid() && Chained()
      ensures View() == HandedOff(Shifted(Freed(old(View()), nThreadMultiplicity, noOfPol), nThreadMultiplicity, true),
                                  nThreadMultiplicity)
      ensures View()[Last()].advancedAnalysisOld == old(View())[|threadPacket| - 1].advancedAnalysis
    {
      ghost var v0 := View();
      assert v0[Last()].advancedAnalysisOld == v0[nThreadMultiplicity - 1].advancedAnalysis;
      HandOffChainsRounds(v0, nThreadMultiplicity, noOfPol);
      ghost var a0 := OldArrays();
      FreeWritePackets();
      assert Chained() by {
        assert threadPacket[Last()].advancedAnalysisOld == OldArrays()[Last()] == a0[Last()];
      }
      ShiftPackets();
      HandOff();
    }
  }

  /** Packet i drops its write-side pointers; no other packet sees a
      change, since no dedispersion array is packet i's predecessor array
      (i is not j0). */
  method FreeOne(ps: seq<ThreadPacket>, i: int, i0: int, j0: int, ghost w: seq<PacketView>)
    requires 0 <= i < |ps| && i != j0 && |w| == |ps|
    requires forall j :: 0 <= j < |ps| ==> ps[j].Valid()
    requires Apart(ps, Olds(ps), i0, j0)
    requires forall j :: 0 <= j < |ps| ==> ps[j].ViewOf() == w[j]
    modifies ps[i], ps[i].advancedAnalysisOld
    ensures Olds(ps) == old(Olds(ps)) && forall j :: 0 <= j < |ps| ==> ps[j].Valid()
    ensures forall j :: 0 <= j < |ps| ==> ps[j].ViewOf() == w[i := FreeView(w[i], ps[i].noOfPol)][j]
  {
    ps[i].FreeMem();
    forall j | 0 <= j < |ps| && j != i
      ensures ps[j].Valid() && ps[j].ViewOf() == w[j] && ps[j].advancedAnalysisOld == old(ps[j].advancedAnalysisOld)
    {
      assert ps[j] != ps[i] && ps[j].advancedAnalysis != old(Olds(ps))[i];
      assert old(Olds(ps))[j] != old(Olds(ps))[i];
    }
    assert Olds(ps) == old(Olds(ps));
  }

  /** Write packet i readies itself to write out the block last-stage
      packet |ps| - m + i has finished (copySelect). */
  method SelectOne(ps: seq<ThreadPacket>, i: int, m: nat, ghost w: seq<PacketView>, ghost chained: bool)
    requires m >= 1 && |ps| >= 2 * m && 0 <= i < m && |w| == |ps|
    requires forall j :: 0 <= j < |ps| ==> ps[j].Valid() && ps[j].noOfPol == ps[0].noOfPol
    requires Apart(ps, Olds(ps), m - 1, |ps| - m)
    requires chained == (Olds(ps)[|ps| - m] == ps[m - 1].advancedAnalysis)
    requires forall j :: 0 <= j < |ps| ==> ps[j].ViewOf() == w[j]
    modifies ps[i], ps[i].advancedAnalysis, ps[i].advancedAnalysisOld
    ensures Olds(ps) == old(Olds(ps)) && forall j :: 0 <= j < |ps| ==> ps[j].Valid()
    ensures forall j :: 0 <= j < |ps| ==> ps[j].ViewOf() == SelectStep(w, m, i, chained)[j]
  {
    var p, q := ps[i], ps[|ps| - m + i];
    ghost var olds := Olds(ps);
    assert (olds[|ps| - m + i] == p.advancedAnalysis) == (chained && m == 1);
    p.CopySelect(q);
    ghost var r := SelectStep(w, m, i, chained);
    forall j | 0 <= j < |ps|
      ensures ps[j].Valid() && ps[j].ViewOf() == r[j] && ps[j].advancedAnalysisOld == olds[j]
    {
      if j != i {
        assert ps[j] != p && ps[j].advancedAnalysis != p.advancedAnalysis;
        assert ps[j].advancedAnalysis != olds[i] && olds[j] != olds[i];
        if olds[j] == p.advancedAnalysis {
          assert j == |ps| - m && i == m - 1 && chained;
        }
      }
    }
    assert Olds(ps) == olds;
  }

  /** Packet i + m takes over the block of packet i (copy); no predecessor
      array is packet i + m's dedispersion array, since i + m is not i0. */
  method CopyOne(ps: seq<ThreadPacket>, i: int, m: nat, j0: int, ghost w: seq<PacketView>)
    requires m >= 1 && 0 <= i && i + m < |ps| && |w| == |ps|
    requires forall j :: 0 <= j < |ps| ==> ps[j].Valid() && ps[j].noOfPol == ps[0].noOfPol
    requires Apart(ps, Olds(ps), m - 1, j0)
    requires forall j :: 0 <= j < |ps| ==> ps[j].ViewOf() == w[j]
    modifies ps[i + m], ps[i + m].advancedAnalysis
    ensures Olds(ps) == old(Olds(ps)) && forall j :: 0 <= j < |ps| ==> ps[j].Valid()
    ensures forall j :: 0 <= j < |ps| ==> ps[j].ViewOf() == w[i + m := TakeOver(w[i + m], w[i])][j]
  {
    ghost var olds := Olds(ps);
    ps[i + m].Copy(ps[i]);
    forall j | 0 <= j < |ps|
      ensures ps[j].Valid() && ps[j].advancedAnalysisOld == olds[j]
      ensures ps[j].ViewOf() == w[i + m := TakeOver(w[i + m], w[i])][j]
    {
      if j != i + m {
        assert ps[j] != ps[i + m] && ps[j].advancedAnalysis != ps[i + m].advancedAnalysis;
        assert olds[j] != ps[i + m].advancedAnalysis;
      }
    }
    assert Olds(ps) == olds;
  }

  /** n fresh packets, every pointer null. */
  method NewPackets(n: nat, noOfPol: nat) returns (a: seq<ThreadPacket>)
    ensures |a| == n && Apart(a, Olds(a), -1, -1)
    ensures forall j :: 0 <= j < n ==> a[j].Valid() && a[j].noOfPol == noOfPol && Blank(a[j].ViewOf(), noOfPol)
    ensures forall j :: 0 <= j < n ==>
      fresh(a[j]) && fresh(a[j].advancedAnalysis) && fresh(a[j].advancedAnalysisOld)
  {
    a := [];
    var i := 0;
    while i < n
      invariant 0 <= i <= n && |a| == i
      invariant forall j :: 0 <= j < i ==> a[j].Valid() && a[j].noOfPol == noOfPol
      invariant forall j :: 0 <= j < i ==> Blank(a[j].ViewOf(), noOfPol)
      invariant forall j :: 0 <= j < i ==>
        fresh(a[j]) && fresh(a[j].advancedAnalysis) && fresh(a[j].advancedAnalysisOld)
      invariant Apart(a, Olds(a), -1, -1)
    {
      var p := new ThreadPacket(noOfPol);
      a := a + [p];
      i := i + 1;
    }
  }

  /** n fresh packets, every pointer null, save that packet lastIndex gets
      the analyses that stand in for the block before the first, unless
      only filtering is asked for, and packet firstIndex the first basic
      analyses. */
  method NewPipe(n: nat, firstIndex: nat, lastIndex: nat, noOfPol: nat, doFilteringOnly: bool,
                 firstOld: seq<Dedisperse.AdvancedAnalysis?>, firstBasic: seq<Basic.BasicAnalysis?>)
    returns (a: seq<ThreadPacket>, ghost repr: set<object>)
    requires firstIndex < n && lastIndex < n && |firstOld| == noOfPol && |firstBasic| == noOfPol
    ensures |a| == n && Apart(a, Olds(a), -1, -1)
    ensures forall i :: 0 <= i < n ==>
      a[i] in repr && a[i].advancedAnalysis in repr && a[i].advancedAnalysisOld in repr
    ensures forall i :: 0 <= i < n ==> a[i].Valid() && a[i].noOfPol == noOfPol
    ensures forall i :: 0 <= i < n ==>
      a[i].ViewOf() == PacketView(null, if i == firstIndex then firstBasic else seq(noOfPol, _ => null),
                                  seq(noOfPol, _ => null), seq(noOfPol, _ => null), seq(noOfPol, _ => null),
                                  seq(noOfPol, _ => null),
                                  if i == lastIndex && !doFilteringOnly then firstOld else seq(noOfPol, _ => null))
  {
    a := NewPackets(n, noOfPol);
    var last, first := a[lastIndex], a[firstIndex];
    label blank:
    Seed(last, first, doFilteringOnly, firstOld, firstBasic);
    assert forall i :: 0 <= i < n ==> a[i].advancedAnalysisOld == old@blank(a[i].advancedAnalysisOld);
    forall i | 0 <= i < n
      ensures a[i].Valid() && a[i].noOfPol == noOfPol
      ensures a[i].ViewOf() == PacketView(null, if i == firstIndex then firstBasic else seq(noOfPol, _ => null),
                                  seq(noOfPol, _ => null), seq(noOfPol, _ => null), seq(noOfPol, _ => null),
                                  seq(noOfPol, _ => null),
                                  if i == lastIndex && !doFilteringOnly then firstOld else seq(noOfPol, _ => null))
    {
      if i != lastIndex && i != firstIndex {
        assert old@blank(Blank(a[i].ViewOf(), noOfPol));
      }
    }
    repr := (set i | 0 <= i < n :: a[i]) + (set i | 0 <= i < n :: a[i].advancedAnalysis) +
      (set i | 0 <= i < n :: a[i].advancedAnalysisOld);
  }

  /** The first packet of the last stage, last, gets the analyses that
      stand in for the block before the first, unless only filtering is
      asked for; packet first gets the first basic analyses. */
  method Seed(last: ThreadPacket, first: ThreadPacket, doFilteringOnly: bool,
              firstOld: seq<Dedisperse.AdvancedAnalysis?>, firstBasic: seq<Basic.BasicAnalysis?>)
    requires last.Valid() && first.Valid() && last.noOfPol == first.noOfPol
    requires |firstOld| == last.noOfPol && |firstBasic| == last.noOfPol
    requires Blank(last.ViewOf(), last.noOfPol) && Blank(first.ViewOf(), last.noOfPol)
    requires first.advancedAnalysis != last.advancedAnalysisOld
    requires first != last ==> first.advancedAnalysisOld != last.advancedAnalysisOld
    modifies last.advancedAnalysisOld, first
    ensures last.Valid() && first.Valid() && first.advancedAnalysisOld == old(first.advancedAnalysisOld)
    ensures first.ViewOf() == old(first.ViewOf()).(basicAnalysis := firstBasic,
      advancedAnalysisOld := if first == last && !doFilteringOnly then firstOld else seq(last.noOfPol, _ => null))
    ensures last.ViewOf() == old(last.ViewOf()).(basicAnalysis := if first == last then firstBasic else seq(last.noOfPol, _ => null),
      advancedAnalysisOld := if !doFilteringOnly then firstOld else seq(last.noOfPol, _ => null))
  {
    var k := 0;
    while k < last.noOfPol
      invariant 0 <= k <= last.noOfPol && last.Valid() && first.Valid()
      invariant first.advancedAnalysisOld == old(first.advancedAnalysisOld)
      invariant first.basicAnalysis == firstBasic[..k] + seq(last.noOfPol - k, _ => null)
      invariant first.aquireData == null && first.basicAnalysisWrite == old(first.basicAnalysisWrite)
      invariant first.rFIFilteringTime == old(first.rFIFilteringTime) && first.rFIFilteringChan == old(first.rFIFilteringChan)
      invariant first.advancedAnalysis[..] == old(first.advancedAnalysis[..])
      invariant first != last ==> first.advancedAnalysisOld[..] == old(first.advancedAnalysisOld[..])
      invariant forall j :: 0 <= j < last.noOfPol ==>
        last.advancedAnalysisOld[j] == (if j < k && !doFilteringOnly then firstOld[j] else null)
    {
      if !doFilteringOnly {
        last.advancedAnalysisOld[k] := firstOld[k];
      }
      first.basicAnalysis := first.basicAnalysis[k := firstBasic[k]];
      k := k + 1;
    }
  }

  /** Every pointer of the packet is null. */
  ghost predicate Blank(p: PacketView, noOfPol: nat)
  {
    p == PacketView(null, seq(noOfPol, _ => null), seq(noOfPol, _ => null), seq(noOfPol, _ => null),
                    seq(noOfPol, _ => null), seq(noOfPol, _ => null), seq(noOfPol, _ => null))
  }

  /** Each packet's predecessor array. */
  ghost function Olds(a: seq<ThreadPacket>): (s: seq<array<Dedisperse.AdvancedAnalysis?>>)
    reads set k | 0 <= k < |a| :: a[k]
    ensures |s| == |a| && forall i :: 0 <= i < |a| ==> s[i] == a[i].advancedAnalysisOld
  {
    seq(|a|, i requires 0 <= i < |a| reads set k | 0 <= k < |a| :: a[k] => a[i].advancedAnalysisOld)
  }

  /** Distinct packets with distinct arrays, save that packet j0's
      predecessor array (olds[j0]) may be packet i0's dedispersion array. */
  ghost predicate Apart(a: seq<ThreadPacket>, olds: seq<array<Dedisperse.AdvancedAnalysis?>>, i0: int, j0: int)
  {
    |olds| == |a| &&
    (forall i, j :: 0 <= i < |a| && 0 <= j < |a| && i != j ==>
      a[i] != a[j] && a[i].advancedAnalysis != a[j].advancedAnalysis && olds[i] != olds[j]) &&
    forall i, j :: 0 <= i < |a| && 0 <= j < |a| && (i != i0 || j != j0) ==>
      a[i].advancedAnalysis != olds[j]
  }
}
