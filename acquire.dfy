// AquireData: reading one block of raw samples, either from a recorded file
// through a byte cursor or from the ring of records the correlator fills in
// shared memory, and de-interleaving the polarisations of the block.
//
// Samples are modelled by their values (`real`): the file is the sequence of
// its samples, so byte offsets are sample indices times the sample size.
module Acquire {
  import opened Numeric

  /** The run parameters AquireData reads. */
  datatype AcquireInfo = AcquireInfo(
    noOfChannels: int,
    noOfPol: int,
    sampleSizeBytes: int,
    blockSizeSamples: int,
    blockSizeSec: real,
    samplingInterval: real,
    isInline: bool,
    doReadFromFile: bool,
    doPolarMode: bool)
  {
    /** What parameter parsing guarantees: four polarisations in polar mode
        and one otherwise, a 1-, 2- or 4-byte sample and a positive sampling
        interval. */
    predicate Valid()
    {
      noOfChannels > 0 && noOfPol == (if doPolarMode then 4 else 1) &&
      (sampleSizeBytes == 1 || sampleSizeBytes == 2 || sampleSizeBytes == 4) &&
      blockSizeSamples >= 0 && blockSizeSec >= 0.0 && samplingInterval > 0.0
    }

    /** Bytes in one time sample of all channels and polarisations. */
    function FrameBytes(): int
    {
      sampleSizeBytes * noOfChannels * noOfPol
    }

    /** The byte of the file at which the requested start time begins: the
        whole time samples before it, truncated as by a C cast, times the
        bytes of one time sample, in the source's order of factors. */
    function StartPos(startTime: real): int
      requires Valid()
    {
      Trunc(startTime / samplingInterval) * noOfChannels * noOfPol * sampleSizeBytes
    }

    /** For a non-negative start time the start byte is the first byte of the
        time sample in which that time falls: a whole number q of time
        samples, with q sampling intervals at or before the start time and
        q + 1 after it. */
    lemma StartPosFrame(startTime: real)
      requires Valid() && startTime >= 0.0
      ensures StartPos(startTime) >= 0 && StartPos(startTime) % FrameBytes() == 0
      ensures var q := StartPos(startTime) / FrameBytes();
        q as real * samplingInterval <= startTime < (q + 1) as real * samplingInterval
    {
      var q := Trunc(startTime / samplingInterval);
      TruncBounds(startTime / samplingInterval);
      WholeSamples(q, noOfChannels, noOfPol, sampleSizeBytes);
      assert StartPos(startTime) / FrameBytes() == q;
      Bracket(startTime, samplingInterval, q);
    }

    /** Bytes in a block of `len` time samples, in the source's order of
        factors. */
    function BlockBytes(len: int): int
    {
      noOfChannels * noOfPol * len * sampleSizeBytes
    }

    /** How a file read of a block of `len` samples at byte `pos` of a file of
        `eof` bytes turns out: the whole block, or only the bytes left before
        the end of the file, in which case the block is cut to the whole
        samples those bytes hold. Either way the bytes read are whole sample
        words and hold the block's noOfChannels * noOfPol * blockLength
        words. */
    function ReadExtent(pos: int, eof: int, len: int): (r: Extent)
      requires Valid() && 0 <= pos <= eof && len >= 0
      requires pos % sampleSizeBytes == 0 && eof % sampleSizeBytes == 0
      ensures r.truncated <==> BlockBytes(len) > eof - pos
      ensures r.bytes == Min(BlockBytes(len), eof - pos)
      ensures r.blockLength == (if r.truncated then (eof - pos) / FrameBytes() else len)
      ensures 0 <= r.bytes && r.bytes % sampleSizeBytes == 0
      ensures 0 <= r.blockLength && noOfChannels * noOfPol * r.blockLength <= r.bytes / sampleSizeBytes
      ensures !r.truncated ==> noOfChannels * noOfPol * r.blockLength == r.bytes / sampleSizeBytes
    {
      MulLe(1, noOfChannels, noOfPol);
      MulLe(0, len, noOfChannels * noOfPol);
      MulDiv(noOfChannels * noOfPol * len, sampleSizeBytes);
      if pos + BlockBytes(len) > eof then
        DiffDiv(eof, pos, sampleSizeBytes);
        QuotientFits(eof - pos, noOfChannels, noOfPol, sampleSizeBytes);
        Extent(eof - pos, (eof - pos) / (sampleSizeBytes * noOfChannels * noOfPol), true)
      else
        Extent(BlockBytes(len), len, false)
    }
  }

  /** Bytes read for a block, its resulting length in samples, and whether
      it was cut short by the end of the file. */
  datatype Extent = Extent(bytes: int, blockLength: int, truncated: bool)

  /** Outcome of the drift correction for one block: `extra` samples added to
      the nominal block length and the uncorrected fraction carried on. */
  datatype Drift = Drift(extra: int, error: real)

  /** One block's drift correction: the fractional part `er` of the exact
      block length accumulates in `totalError`; outside inline mode a whole
      sample is added to the block once the error reaches one. */
  function DriftStep(totalError: real, er: real, isInline: bool): (d: Drift)
    ensures d.extra == 0 || d.extra == 1
    ensures d.extra as real + d.error == totalError + er
    ensures d.extra == 1 <==> !isInline && totalError + er >= 1.0
    ensures !isInline && 0.0 <= totalError < 1.0 && 0.0 <= er < 1.0 ==> 0.0 <= d.error < 1.0
  {
    if !isInline && totalError + er >= 1.0 then Drift(1, totalError + er - 1.0)
    else Drift(0, totalError + er)
  }

  /** Samples scheduled over the first n blocks (before any end-of-file
      truncation) and the error left over, starting from no error. */
  function Scheduled(n: nat, nominal: int, er: real, isInline: bool): (r: (int, real))
  {
    if n == 0 then (0, 0.0)
    else
      var prev := Scheduled(n - 1, nominal, er, isInline);
      var d := DriftStep(prev.1, er, isInline);
      (prev.0 + nominal + d.extra, d.error)
  }

  /** Exact number of samples in n blocks of nominal + er samples each. */
  function Exact(n: nat, nominal: int, er: real): (x: real)
    ensures n > 0 ==> x == Exact(n - 1, nominal, er) + nominal as real + er
  {
    (n as real) * (nominal as real + er)
  }

  /** Outside inline mode the drift correction keeps the total number of
      samples read within one sample of the exact total: after n blocks it is
      the exact total rounded down, and the carried error is its fractional
      part. */
  lemma {:induction false} DriftBounded(n: nat, nominal: int, er: real)
    requires 0.0 <= er < 1.0
    ensures Scheduled(n, nominal, er, false).0 as real + Scheduled(n, nominal, er, false).1
            == Exact(n, nominal, er)
    ensures 0.0 <= Scheduled(n, nominal, er, false).1 < 1.0
    ensures Exact(n, nominal, er) - 1.0 < Scheduled(n, nominal, er, false).0 as real <= Exact(n, nominal, er)
  {
    if n > 0 {
      DriftBounded(n - 1, nominal, er);
    }
  }

  /** Offset of a record's data behind its header in a shared-memory buffer. */
  const DataOff: int := 4096

  /** A snapshot of the shared-memory ring as the reader sees it once any
      wait for the current record has ended: whether the data acquisition is
      running, each record's ready flag and sequence number, the producer's
      current block and record, the number of blocks the ring holds and the
      size of one record including its header. */
  datatype ShmRing = ShmRing(
    dasStarted: bool,
    ready: seq<bool>,
    seqnum: seq<int>,
    curBlock: int,
    curRec: int,
    maxBlocks: int,
    blocksize: int)
  {
    ghost predicate Valid()
    {
      |ready| >= 3 && |seqnum| == |ready| && 0 <= curRec < |ready| && blocksize > DataOff
    }

    /** Data bytes in one record. */
    function Payload(): int
    {
      blocksize - DataOff
    }

    /** Record after `rec`, wrapping at the end of the ring. */
    function Next(rec: int): (r: int)
      requires Valid() && 0 <= rec < |ready|
      ensures 0 <= r < |ready|
    {
      if rec + 1 == |ready| then 0 else rec + 1
    }

    /** The reader has fallen so far behind that the record may be
        overwritten. */
    predicate Lagging(rec: int)
      requires 0 <= rec < |seqnum|
    {
      curBlock - seqnum[rec] >= maxBlocks - 1
    }

    /** Record the reader re-synchronises to after lagging: three records
        behind the producer's current record. */
    function ResyncRec(): (r: int)
      requires Valid()
      ensures 0 <= r < |ready|
    {
      if curRec >= 3 then curRec - 3 else curRec - 3 + |ready|
    }

    /** Record a read positioned at `rec` actually copies from. */
    function Follow(rec: int): (r: int)
      requires Valid() && 0 <= rec < |ready|
      ensures 0 <= r < |ready|
      ensures r == rec || r == ResyncRec()
    {
      if Lagging(rec) then ResyncRec() else rec
    }
  }

  /** One memcpy out of the ring: `len` bytes at `offset` into the data of
      record `rec`. */
  datatype Copy = Copy(rec: int, offset: int, len: int)

  function Last(copies: seq<Copy>): Copy
    requires copies != []
  {
    copies[|copies| - 1]
  }

  /** Bytes copied by a sequence of copies. */
  function Total(copies: seq<Copy>): int
  {
    if |copies| == 0 then 0 else Total(copies[..|copies| - 1]) + copies[|copies| - 1].len
  }

  /** q whole time samples of nCh * nPol words of size bytes each. */
  lemma WholeSamples(q: int, nCh: int, nPol: int, size: int)
    requires q >= 0 && nCh > 0 && nPol > 0 && size > 0
    ensures size * nCh * nPol > 0
    ensures q * nCh * nPol * size >= 0
    ensures (q * nCh * nPol * size) % (size * nCh * nPol) == 0
    ensures (q * nCh * nPol * size) / (size * nCh * nPol) == q
  {
    var f := size * nCh * nPol;
    MulLe(1, nCh, nPol);
    MulLe(1, size, nCh * nPol);
    assert f == size * (nCh * nPol);
    assert q * nCh * nPol * size == q * f;
    MulDiv(q, f);
    MulLe(0, q, f);
  }

  /** A time t lying between q and q + 1 sampling intervals of length si. */
  lemma Bracket(t: real, si: real, q: int)
    requires si > 0.0 && q as real <= t / si < q as real + 1.0
    ensures q as real * si <= t < (q + 1) as real * si
  {
    var x, r := t / si, (q + 1) as real;
    assert x * si == t && r == q as real + 1.0;
    RealMulLe(q as real, x, si);
    RealMulLt(x, r, si);
    assert t < (q + 1) as real * si;
  }

  /** One pass of the copy loop as the source writes it, from record rec at
      offset off with need bytes wanted: as FetchRecord, except that a copy
      that ends inside its record leaves the offset at the copy's length
      instead of just behind the copy. Gives the copy and the cursor (record,
      offset) it leaves. */
  function FetchRecordAsWritten(ring: ShmRing, rec: int, off: int, need: int): (Copy, int, int)
    requires ring.Valid() && 0 <= rec < |ring.ready| && 0 <= off <= ring.Payload()
  {
    var r := ring.Follow(rec);
    if need > ring.Payload() - off then (Copy(r, off, ring.Payload() - off), ring.Next(r), 0)
    else (Copy(r, off, need), r, need)
  }

  /** As written, a pass that copies need bytes from offset off > 0 and stays
      inside the record leaves the cursor at byte need of that record, before
      the end off + need of the bytes just copied: the next block starts on
      bytes the reader has already consumed. The cursor lies just behind the
      copy, as FetchRecord leaves it, exactly when off is 0. */
  lemma CarryAsWrittenRereads(ring: ShmRing, rec: int, off: int, need: int)
    requires ring.Valid() && 0 <= rec < |ring.ready| && 0 <= off <= ring.Payload()
    requires 0 < need <= ring.Payload() - off
    ensures var (c, rec1, off1) := FetchRecordAsWritten(ring, rec, off, need);
      c.offset == off && c.len == need && rec1 == c.rec &&
      (off1 == c.offset + c.len <==> off == 0) &&
      (off > 0 ==> off1 < c.offset + c.len)
  {
  }

  /** The copies follow the ring: each lies inside its record's data; the
      first starts at the reader's offset in the record it was positioned at
      (or the re-sync record); each later one starts at the beginning of the
      record after the previous one (or the re-sync record), and the previous
      one ran to the end of its record. */
  ghost predicate Contiguous(ring: ShmRing, rec0: int, off0: int, copies: seq<Copy>)
    requires ring.Valid() && 0 <= rec0 < |ring.ready|
  {
    if |copies| == 0 then true
    else
      var init, c := copies[..|copies| - 1], Last(copies);
      Contiguous(ring, rec0, off0, init) &&
      0 <= c.rec < |ring.ready| && 0 <= c.offset && 0 <= c.len && c.offset + c.len <= ring.Payload() &&
      (init == [] ==> c.rec == ring.Follow(rec0) && c.offset == off0) &&
      (init != [] ==>
         0 <= Last(init).rec < |ring.ready| &&
         c.offset == 0 && Last(init).offset + Last(init).len == ring.Payload() &&
         c.rec == ring.Follow(ring.Next(Last(init).rec)))
  }

  lemma ContiguousAppend(ring: ShmRing, rec0: int, off0: int, copies: seq<Copy>, c: Copy)
    requires ring.Valid() && 0 <= rec0 < |ring.ready|
    requires Contiguous(ring, rec0, off0, copies)
    requires 0 <= c.rec < |ring.ready| && 0 <= c.offset && 0 <= c.len && c.offset + c.len <= ring.Payload()
    requires copies == [] ==> c.rec == ring.Follow(rec0) && c.offset == off0
    requires copies != [] ==>
               c.offset == 0 && Last(copies).offset + Last(copies).len == ring.Payload() &&
               c.rec == ring.Follow(ring.Next(Last(copies).rec))
    ensures Contiguous(ring, rec0, off0, copies + [c])
    ensures Total(copies + [c]) == Total(copies) + c.len
  {
    assert (copies + [c])[..|copies|] == copies;
    assert Last(copies + [c]) == c;
  }

  /** The run-wide (static) members of AquireData: the byte cursor into the
      file and its length, the drift error, and the shared-memory cursor (the
      record being read and the bytes of it already consumed). */
  class AcquireCursor {
    const eof: int
    var curPos: int
    var totalError: real
    var recNum: int
    var remainingData: int
    var currentReadBlock: int

    /** The file cursor lies inside the file, on a sample boundary. */
    ghost predicate FileValid(sampleSize: int)
      reads this
    {
      sampleSize > 0 && 0 <= curPos <= eof && curPos % sampleSize == 0 && eof % sampleSize == 0
    }

    /** The ring cursor names a record and an offset inside its data. */
    ghost predicate RingValid(ring: ShmRing)
      reads this
    {
      ring.Valid() && 0 <= recNum < |ring.ready| && 0 <= remainingData <= ring.Payload()
    }

    /** What a fetch of samplesToTake bytes from the ring leaves behind. On
        success the file-position counter advances by the bytes fetched, all
        of them were copied, and the cursor sits just behind the last byte
        copied (unchanged for an empty fetch). On failure acquisition has
        stopped and the record under the cursor is not ready; nothing is
        counted, fewer bytes were copied, and the cursor is at the start of
        the record after the last full copy (unchanged if none). The last
        sequence number read is that of the last record copied from. */
    ghost predicate Fetched(ring: ShmRing, pos0: int, rec0: int, off0: int, block0: int,
                            samplesToTake: int, status: int, copies: seq<Copy>)
      requires ring.Valid() && 0 <= rec0 < |ring.ready| && Contiguous(ring, rec0, off0, copies)
      requires 0 <= recNum < |ring.ready|
      reads this
    {
      (status == 1 || status == -1) &&
      (status == 1 ==>
        curPos == pos0 + samplesToTake && Total(copies) == samplesToTake) &&
      (status == 1 && copies == [] ==>
        samplesToTake == 0 && recNum == rec0 && remainingData == off0) &&
      (status == 1 && copies != [] ==>
        recNum == Last(copies).rec && remainingData == Last(copies).offset + Last(copies).len) &&
      (status == -1 ==>
        curPos == pos0 && Total(copies) < samplesToTake && !ring.dasStarted && !ring.ready[recNum]) &&
      (status == -1 && copies == [] ==>
        recNum == rec0 && remainingData == off0) &&
      (status == -1 && copies != [] ==>
        recNum == ring.Next(Last(copies).rec) && remainingData == 0) &&
      (copies == [] ==> currentReadBlock == block0) &&
      (copies != [] ==> currentReadBlock == ring.seqnum[Last(copies).rec])
    }

    /** One pass of the copy loop of a shared-memory read, with `need`
        bytes still wanted: a lagging reader is first re-synchronised; then,
        if the record's remaining data does not cover the need, it is copied
        to its end and the cursor moves to the next record, and otherwise the
        bytes needed are copied and the cursor stays inside the record, just
        behind them. */
    method FetchRecord(ring: ShmRing, need: int) returns (copy: Copy)
      requires RingValid(ring) && need > 0
      modifies this`recNum, this`remainingData, this`currentReadBlock
      ensures RingValid(ring)
      ensures copy.rec == ring.Follow(old(recNum)) && copy.offset == old(remainingData)
      ensures currentReadBlock == ring.seqnum[copy.rec]
      ensures 0 <= copy.len <= need && copy.offset + copy.len <= ring.Payload()
      ensures copy.len < need ==>
                copy.offset + copy.len == ring.Payload() && recNum == ring.Next(copy.rec) && remainingData == 0
      ensures copy.len == need ==> recNum == copy.rec && remainingData == copy.offset + copy.len
    {
      var payload := ring.blocksize - DataOff;
      currentReadBlock := ring.seqnum[recNum];
      if ring.curBlock - currentReadBlock >= ring.maxBlocks - 1 {
        ModWrap(ring.curRec - 1 - 2 + |ring.ready|, |ring.ready|);
        recNum := (ring.curRec - 1 - 2 + |ring.ready|) % |ring.ready|;
        currentReadBlock := ring.seqnum[recNum];
      }
      if need > payload - remainingData {
        copy := Copy(recNum, remainingData, payload - remainingData);
        ModWrap(recNum + 1, |ring.ready|);
        recNum := (recNum + 1) % |ring.ready|;
        remainingData := 0;
      } else {
        copy := Copy(recNum, remainingData, need);
        remainingData := remainingData + need;
      }
    }

    /** The copy loop of a shared-memory read: records are copied one after
        the other until samplesToTake bytes have been fetched. The read fails
        (status -1) when acquisition has stopped and the record under the
        cursor is not ready. */
    method FetchFromRing(ring: ShmRing, samplesToTake: int) returns (status: int, copies: seq<Copy>)
      requires RingValid(ring) && samplesToTake >= 0
      modifies this`curPos, this`recNum, this`remainingData, this`currentReadBlock
      ensures RingValid(ring)
      ensures Contiguous(ring, old(recNum), old(remainingData), copies)
      ensures Fetched(ring, old(curPos), old(recNum), old(remainingData), old(currentReadBlock),
                      samplesToTake, status, copies)
    {
      var fetched := 0;
      copies := [];
      while fetched < samplesToTake
        invariant RingValid(ring)
        invariant 0 <= fetched <= samplesToTake && fetched == Total(copies)
        invariant curPos == old(curPos)
        invariant Contiguous(ring, old(recNum), old(remainingData), copies)
        invariant copies == [] ==>
                    recNum == old(recNum) && remainingData == old(remainingData) &&
                    currentReadBlock == old(currentReadBlock)
        invariant copies != [] ==>
                    fetched < samplesToTake &&
                    recNum == ring.Next(Last(copies).rec) && remainingData == 0 &&
                    Last(copies).offset + Last(copies).len == ring.Payload() &&
                    currentReadBlock == ring.seqnum[Last(copies).rec]
        decreases samplesToTake - fetched, remainingData
      {
        if !ring.dasStarted && !ring.ready[recNum] {
          return -1, copies;
        }
        var copy := FetchRecord(ring, samplesToTake - fetched);
        fetched := fetched + copy.len;
        ContiguousAppend(ring, old(recNum), old(remainingData), copies, copy);
        copies := copies + [copy];
        if fetched == samplesToTake {
          break;
        }
      }
      curPos := curPos + samplesToTake;
      return 1, copies;
    }

    /** First initialisation: no drift, the ring cursor at record 0, and the
        file cursor at the byte where the requested start time begins. */
    constructor(eof: int, info: AcquireInfo, startTime: real)
      requires info.Valid()
      ensures this.eof == eof && curPos == info.StartPos(startTime)
      ensures totalError == 0.0 && recNum == 0 && remainingData == 0 && currentReadBlock == 0
    {
      this.eof := eof;
      curPos := info.StartPos(startTime);
      totalError := 0.0;
      recNum := 0;
      remainingData := 0;
      currentReadBlock := 0;
    }
  }

  /** One block of AquireData: its index, its length in time samples, the
      samples read, the ring copies that filled it in shared-memory mode, and
      the samples split by polarisation. */
  class AquireData {
    const info: AcquireInfo
    const cursor: AcquireCursor
    const blockIndex: int
    var blockLength: int
    var hasReachedEof: bool
    var rawData: seq<real>
    var shmCopies: seq<Copy>
    var splittedRawData: array2<real>

    constructor(info: AcquireInfo, cursor: AcquireCursor, blockIndex: int)
      ensures this.info == info && this.cursor == cursor && this.blockIndex == blockIndex
      ensures blockLength == 0 && !hasReachedEof && rawData == [] && shmCopies == []
    {
      this.info := info;
      this.cursor := cursor;
      this.blockIndex := blockIndex;
      blockLength := 0;
      hasReachedEof := false;
      rawData := [];
      shmCopies := [];
      splittedRawData := new real[0, 0];
    }

    /** Reads the block from the file: the requested bytes, or only those up
        to the end of the file, in which case the block length is recomputed
        from the bytes left and the end of the file is recorded. */
    method ReadDataFromFile(file: seq<real>)
      requires info.Valid() && blockLength >= 0
      requires cursor.FileValid(info.sampleSizeBytes) && cursor.eof == |file| * info.sampleSizeBytes
      modifies this`blockLength, this`hasReachedEof, this`rawData, cursor`curPos
      ensures cursor.FileValid(info.sampleSizeBytes)
      ensures var r := info.ReadExtent(old(cursor.curPos), cursor.eof, old(blockLength));
              cursor.curPos == old(cursor.curPos) + r.bytes && blockLength == r.blockLength &&
              hasReachedEof == (old(hasReachedEof) || r.truncated)
      ensures 0 <= old(cursor.curPos) / info.sampleSizeBytes <= cursor.curPos / info.sampleSizeBytes <= |file|
      ensures rawData == file[old(cursor.curPos) / info.sampleSizeBytes .. cursor.curPos / info.sampleSizeBytes]
    {
      var size := info.sampleSizeBytes;
      var r := info.ReadExtent(cursor.curPos, cursor.eof, blockLength);
      if r.truncated {
        blockLength := r.blockLength;
        hasReachedEof := true;
      }
      SliceBounds(cursor.curPos, r.bytes, |file|, size);
      rawData := file[cursor.curPos / size .. (cursor.curPos + r.bytes) / size];
      cursor.curPos := cursor.curPos + r.bytes;
    }

    /** Reads the block from the shared-memory ring: the bytes of
        noOfChannels * noOfPol * blockLength samples, as the cursor fetches
        them. */
    method ReadFromShm(ring: ShmRing) returns (status: int)
      requires info.Valid() && blockLength >= 0 && cursor.RingValid(ring)
      modifies this`shmCopies, cursor`curPos, cursor`recNum, cursor`remainingData, cursor`currentReadBlock
      ensures cursor.RingValid(ring)
      ensures Contiguous(ring, old(cursor.recNum), old(cursor.remainingData), shmCopies)
      ensures cursor.Fetched(ring, old(cursor.curPos), old(cursor.recNum), old(cursor.remainingData),
                             old(cursor.currentReadBlock), info.BlockBytes(blockLength), status, shmCopies)
    {
      var samplesToTake := info.noOfChannels * info.noOfPol * blockLength * info.sampleSizeBytes;
      MulLe(0, info.noOfChannels, info.noOfPol);
      MulLe(0, blockLength, info.noOfChannels * info.noOfPol);
      MulLe(0, info.sampleSizeBytes, info.noOfChannels * info.noOfPol * blockLength);
      status, shmCopies := cursor.FetchFromRing(ring, samplesToTake);
    }

    /** State after reading a block of `len` samples from the cursor state
        given by the old values: in file mode the file read (see
        ReadExtent) with the ring cursor untouched, in shared-memory mode the
        fetch of the block's bytes from the ring with the file fields
        untouched. */
    ghost predicate ReadOutcome(file: seq<real>, ring: ShmRing, len: int, pos0: int, rec0: int, off0: int,
                                block0: int, eof0: bool, raw0: seq<real>, copies0: seq<Copy>)
      requires info.Valid() && len >= 0
      requires info.doReadFromFile ==> 0 <= pos0 <= cursor.eof && pos0 % info.sampleSizeBytes == 0 &&
                                       cursor.eof % info.sampleSizeBytes == 0
      requires !info.doReadFromFile ==> ring.Valid() && 0 <= rec0 < |ring.ready|
      reads this, cursor
    {
      if info.doReadFromFile then
        var r := info.ReadExtent(pos0, cursor.eof, len);
        cursor.FileValid(info.sampleSizeBytes) &&
        cursor.curPos == pos0 + r.bytes && blockLength == r.blockLength &&
        hasReachedEof == (eof0 || r.truncated) &&
        0 <= pos0 / info.sampleSizeBytes <= cursor.curPos / info.sampleSizeBytes <= |file| &&
        rawData == file[pos0 / info.sampleSizeBytes .. cursor.curPos / info.sampleSizeBytes] &&
        shmCopies == copies0 && cursor.recNum == rec0 && cursor.remainingData == off0 &&
        cursor.currentReadBlock == block0
      else
        blockLength == len && hasReachedEof == eof0 && rawData == raw0 &&
        cursor.RingValid(ring) && Contiguous(ring, rec0, off0, shmCopies) &&
        (exists status :: cursor.Fetched(ring, pos0, rec0, off0, block0, info.BlockBytes(len), status, shmCopies))
    }

    /** Reads one block: applies the drift correction to the block length,
        then reads from the file or from the shared-memory ring. The
        shared-memory status is not inspected. */
    method ReadData(file: seq<real>, ring: ShmRing)
      requires info.Valid()
      requires info.doReadFromFile ==>
                 cursor.FileValid(info.sampleSizeBytes) && cursor.eof == |file| * info.sampleSizeBytes
      requires !info.doReadFromFile ==> cursor.RingValid(ring)
      modifies this`blockLength, this`hasReachedEof, this`rawData, this`shmCopies, cursor
      ensures var d := DriftStep(old(cursor.totalError), Frac(info.blockSizeSec / info.samplingInterval), info.isInline);
              cursor.totalError == d.error &&
              ReadOutcome(file, ring, info.blockSizeSamples + d.extra, old(cursor.curPos), old(cursor.recNum),
                          old(cursor.remainingData), old(cursor.currentReadBlock), old(hasReachedEof),
                          old(rawData), old(shmCopies))
    {
      var er := info.blockSizeSec / info.samplingInterval;
      er := Frac(er);
      cursor.totalError := cursor.totalError + er;
      blockLength := info.blockSizeSamples;
      if !info.isInline && cursor.totalError >= 1.0 {
        blockLength := blockLength + 1;
        cursor.totalError := cursor.totalError - 1.0;
      }
      if info.doReadFromFile {
        ReadDataFromFile(file);
      } else {
        var _ := ReadFromShm(ring);
      }
    }

    /** De-interleaves the block: word q*noOfPol+k of the raw data (time
        sample, then channel, then polarisation) goes to position q of
        polarisation k. In non-polar mode this is a copy of the raw data. */
    method SplitRawData()
      requires info.Valid() && blockLength >= 0
      requires info.noOfChannels * info.noOfPol * blockLength <= |rawData|
      modifies this`splittedRawData
      ensures fresh(splittedRawData)
      ensures splittedRawData.Length0 == info.noOfPol
      ensures splittedRawData.Length1 == blockLength * info.noOfChannels
      ensures forall k, q :: 0 <= k < info.noOfPol && 0 <= q < blockLength * info.noOfChannels ==>
                q * info.noOfPol + k < |rawData| && splittedRawData[k, q] == rawData[q * info.noOfPol + k]
    {
      var nPol := info.noOfPol;
      var length := blockLength * info.noOfChannels;
      MulLe(0, blockLength, info.noOfChannels);
      assert length * nPol == info.noOfChannels * info.noOfPol * blockLength;
      var split := new real[nPol, length];
      var q := 0;
      while q < length
        invariant 0 <= q <= length
        invariant forall k', q' :: 0 <= k' < nPol && 0 <= q' < q ==>
                    q' * nPol + k' < |rawData| && split[k', q'] == rawData[q' * nPol + k']
      {
        var k := 0;
        while k < nPol
          invariant 0 <= k <= nPol
          invariant forall k', q' :: 0 <= k' < nPol && 0 <= q' < q ==>
                      q' * nPol + k' < |rawData| && split[k', q'] == rawData[q' * nPol + k']
          invariant forall k' :: 0 <= k' < k ==>
                      q * nPol + k' < |rawData| && split[k', q] == rawData[q * nPol + k']
        {
          FrameIndex(q, k, nPol, length);
          split[k, q] := rawData[q * nPol + k];
          k := k + 1;
        }
        q := q + 1;
      }
      splittedRawData := split;
    }

    /** Polarisation k of channel c at time sample t is raw word
        (t*noOfChannels+c)*noOfPol+k, for every sample of the block. */
    lemma SplitIndexing(t: int, c: int, k: int)
      requires info.Valid() && 0 <= blockLength
      requires splittedRawData.Length0 == info.noOfPol
      requires splittedRawData.Length1 == blockLength * info.noOfChannels
      requires forall k', q :: 0 <= k' < info.noOfPol && 0 <= q < blockLength * info.noOfChannels ==>
                 q * info.noOfPol + k' < |rawData| && splittedRawData[k', q] == rawData[q * info.noOfPol + k']
      requires 0 <= t < blockLength && 0 <= c < info.noOfChannels && 0 <= k < info.noOfPol
      ensures 0 <= t * info.noOfChannels + c < blockLength * info.noOfChannels
      ensures (t * info.noOfChannels + c) * info.noOfPol + k < |rawData|
      ensures splittedRawData[k, t * info.noOfChannels + c]
              == rawData[(t * info.noOfChannels + c) * info.noOfPol + k]
    {
      FrameIndex(t, c, info.noOfChannels, blockLength);
      var q := t * info.noOfChannels + c;
      assert q * info.noOfPol + k < |rawData| && splittedRawData[k, q] == rawData[q * info.noOfPol + k];
    }
  }
}
