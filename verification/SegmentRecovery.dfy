/**
 * Opening a directory: loading closed segments through their indexes and recovering the file that was being written.
 */
module SegmentRecovery {
  import opened Bytes
  import opened Wrappers
  import opened EventLogPort
  import opened SegmentRecords
  import opened SegmentFiles
  import opened SegmentDisk
  import opened SegmentIo
  import opened SegmentState
  import opened SegmentReading

  // ---- a closed segment ----

  /** A segment with an index, checked against its header and its last record. None: an empty index is passed over. */
  function LoadClosed(fmt: Format, d: Directory, base: nat): (r: Result<Option<ClosedSegment>, StorageError>)
    requires base in d.segs && base in d.idxs
    ensures r.Ok? && r.value.Some? ==> r.value.value.lastOffset + 1 < U64_LIMIT
  {
    var positions, data := d.idxs[base], d.segs[base].data;
    if !IndexFits(positions) then Err(Corrupted)
    else if positions == [] then Ok(None)
    else if base + |positions| >= U64_LIMIT then Err(Corrupted)
    else if ReadHeader(data).Err? then Err(ReadHeader(data).error)
    else if ReadHeader(data).value.baseOffset != base then Err(Corrupted)
    else
      var lastOffset := base + |positions| - 1;
      var last := ParseRecord(fmt, After(data, positions[|positions| - 1]));
      if !last.Entry? then Err(ReadFailure(last))
      else if last.entry.offset != lastOffset then Err(Corrupted)
      else Ok(Some(ClosedSegment(base, lastOffset, last.entry.appendedAtNs, |data|, positions)))
  }

  lemma {:induction false} ClosedLoads(fmt: Format, d: Directory, h: seq<LogEntry>, b: nat, e: nat)
    requires fmt.Lawful() && History(fmt, h) && ClosedOk(fmt, d, h, b, e)
    ensures b in d.segs && b in d.idxs
    ensures IndexFits(d.idxs[b]) ==> LoadClosed(fmt, d, b).Ok? && LoadClosed(fmt, d, b).value.Some?
                                     && ClosedMatches(fmt, d, h, LoadClosed(fmt, d, b).value.value, b, e)
    ensures !IndexFits(d.idxs[b]) ==> LoadClosed(fmt, d, b) == Err(Corrupted)
  {
    hide *;
    ClosedParts(fmt, d, h, b, e);
    ClosedReadable(fmt, d, h, b, e);
    StoredAtLength(fmt, h, b, e);
    ReadStored(fmt, d.segs[b].data, h, b, e, e - b - 1);
    LoadsFrom(fmt, d, h, b, e);
  }

  lemma {:induction false} ClosedParts(fmt: Format, d: Directory, h: seq<LogEntry>, b: nat, e: nat)
    requires History(fmt, h) && ClosedOk(fmt, d, h, b, e)
    ensures b < e <= |h| < U64_LIMIT && b in d.segs && b in d.idxs && HasHeader(d.segs[b].data, b)
    ensures d.idxs[b] == StoredAt(fmt, h, b, e) && h[e - 1].offset == e - 1
  {
    hide StoredAt, Stored, HasHeader;
  }

  lemma {:induction false} LoadsFrom(fmt: Format, d: Directory, h: seq<LogEntry>, b: nat, e: nat)
    requires History(fmt, h) && b < e <= |h| < U64_LIMIT && b in d.segs && b in d.idxs && HasHeader(d.segs[b].data, b)
    requires d.idxs[b] == StoredAt(fmt, h, b, e) && |d.idxs[b]| == e - b && h[e - 1].offset == e - 1
    requires var last := ParseRecord(fmt, After(d.segs[b].data, d.idxs[b][e - b - 1]));
             last.Entry? && last.entry == h[e - 1]
    ensures IndexFits(d.idxs[b]) ==> LoadClosed(fmt, d, b).Ok? && LoadClosed(fmt, d, b).value.Some?
                                     && ClosedMatches(fmt, d, h, LoadClosed(fmt, d, b).value.value, b, e)
    ensures !IndexFits(d.idxs[b]) ==> LoadClosed(fmt, d, b) == Err(Corrupted)
  {
    hide History, StoredAt, ParseRecord, After, ReadHeader;
  }

  // ---- the file that was being written ----

  /** How loading the file at the end went, and the calls it made. */
  datatype TailLoad = TailLoad(r: Result<ActiveSegment, StorageError>, calls: seq<IoCall>)

  /** Recovery behind a complete header: the records that read back stay, the file is cut where they stop. */
  function RecoverTail(fmt: Format, data: seq<byte>, base: u64, createdAtNs: u64): TailLoad
    requires |data| >= HEADER_LEN
  {
    var scan := ScanFrom(fmt, data, HEADER_LEN, base);
    if scan.overflow then TailLoad(Err(Corrupted), [])
    else
      TailLoad(Recovered(fmt, data[..scan.end], base, createdAtNs, scan.starts),
               if scan.end < |data| then [SetLen(base, scan.end)] else [])
  }

  /** The active segment of a recovered file; its last record is read once more for its time. */
  function Recovered(fmt: Format, data: seq<byte>, base: u64, createdAtNs: u64,
                     starts: seq<nat>): Result<ActiveSegment, StorageError> {
    var last := if starts == [] then EndOfSegment else ParseRecord(fmt, After(data, starts[|starts| - 1]));
    if starts != [] && !last.Entry? then Err(ReadFailure(last))
    else if base + |starts| >= U64_LIMIT then Err(Corrupted)
    else Ok(ActiveSegment(base, starts, SaturatingSub(|data|, HEADER_LEN), createdAtNs, |data|,
                          if starts == [] then 0 else last.entry.appendedAtNs, |data|))
  }

  /**
   * A file shorter than its header is emptied and gets a new one; a complete header must name the file's own offset.
   */
  function LoadTail(fmt: Format, data: seq<byte>, base: u64, now: u64): TailLoad {
    if |data| >= HEADER_LEN then
      var header := ReadHeader(data);
      if header.Err? then TailLoad(Err(header.error), [])
      else if header.value.baseOffset != base then TailLoad(Err(Corrupted), [])
      else RecoverTail(fmt, data, base, header.value.createdAtNs)
    else
      var bytes := HeaderBytes(SegmentHeader(base, now));
      var t := RecoverTail(fmt, bytes, base, now);
      TailLoad(t.r, [SetLen(base, 0), WriteFile(base, 0, bytes)] + t.calls)
  }

  lemma {:induction false} HeaderWritten(d: Directory, base: nat, bytes: seq<byte>)
    ensures ApplyAll(d, [SetLen(base, 0), WriteFile(base, 0, bytes)]) == Put(d, base, SegFile(bytes, 0))
    ensures Apply(d, SetLen(base, 0)) == Put(d, base, SegFile([], 0))
  {
    ApplyTwo(d, SetLen(base, 0), WriteFile(base, 0, bytes));
    var d1 := Apply(d, SetLen(base, 0));
    PutAgain(d, base, SegFile([], 0), SegFile(bytes, 0));
    assert [] + bytes + [] == bytes;
  }

  method LoadActive(fmt: Format, d: Directory, base: u64, now: u64)
    returns (r: Result<ActiveSegment, StorageError>, after: Directory, ghost calls: seq<IoCall>)
    ensures TailLoad(r, calls) == LoadTail(fmt, FileOf(d, base).data, base, now)
    ensures after == ApplyAll(d, calls)
  {
    hide ScanFrom, HeaderBytes, ParseRecord, ReadHeader, Apply, ApplyAll, FileOf, Put, After;
    after, calls := d, [];
    ApplyNothing(d);
    var file := FileOf(d, base);
    var createdAtNs: u64;
    if |file.data| >= HEADER_LEN {
      var header := ReadHeader(file.data);
      if header.Err? {
        return Err(header.error), after, calls;
      }
      if header.value.baseOffset != base {
        return Err(Corrupted), after, calls;
      }
      createdAtNs := header.value.createdAtNs;
    } else {
      createdAtNs := now;
      var bytes := HeaderBytes(SegmentHeader(base, createdAtNs));
      after := Apply(d, SetLen(base, 0));
      after := Apply(after, WriteFile(base, 0, bytes));
      calls := [SetLen(base, 0), WriteFile(base, 0, bytes)];
      ApplyTwo(d, SetLen(base, 0), WriteFile(base, 0, bytes));
      HeaderWritten(d, base, bytes);
      PutGives(d, base, SegFile(bytes, 0));
      file := SegFile(bytes, 0);
    }
    FileOfLong(after, base);
    var recovered, kept := RecoverActive(fmt, file, base);
    if recovered.Err? {
      assert calls + [] == calls;
      return Err(recovered.error), after, calls;
    }
    var positions, nextFilePos := recovered.value.0, recovered.value.1;
    if nextFilePos < |file.data| {
      SetLenIs(after, base, nextFilePos);
      ApplyMore(d, calls, SetLen(base, nextFilePos));
      calls := calls + [SetLen(base, nextFilePos)];
    } else {
      assert file.data[..nextFilePos] == file.data && calls + [] == calls;
    }
    after := Put(after, base, kept);
    var lastAppendedAtNs: u64 := 0;
    if positions != [] {
      var last, _ := ReadRecord(fmt, kept.data, positions[|positions| - 1]);
      if !last.Entry? {
        return Err(ReadFailure(last)), after, calls;
      }
      lastAppendedAtNs := last.entry.appendedAtNs;
    }
    if base + |positions| >= U64_LIMIT {
      return Err(Corrupted), after, calls;
    }
    var byteSize := SaturatingSub(nextFilePos, HEADER_LEN);
    return Ok(ActiveSegment(base, positions, byteSize, createdAtNs, nextFilePos, lastAppendedAtNs,
                            nextFilePos)), after, calls;
  }

  lemma {:induction false} FileOfLong(d: Directory, base: nat)
    requires |FileOf(d, base).data| >= HEADER_LEN
    ensures base in d.segs && Put(d, base, FileOf(d, base)) == d
  {
    assert d.segs[base := d.segs[base]] == d.segs;
  }

  lemma {:induction false} SetLenIs(d: Directory, base: nat, len: nat)
    requires base in d.segs && len <= |FileOf(d, base).data|
    ensures Apply(d, SetLen(base, len)) == Put(d, base, Truncated(FileOf(d, base), len))
  {
  }

  // ---- the log's own tail file ----

  /** Up to which offset the file at `base` still holds the history. */
  ghost function TailEnd(fmt: Format, f: SegFile, h: seq<LogEntry>, base: nat): (m: nat)
    requires History(fmt, h) && base <= |h|
    ensures base <= m <= |h|
  {
    SliceWritable(fmt, h, base, |h|);
    if |f.data| < HEADER_LEN then base else base + Whole(fmt, Slice(h, base, |h|), |f.data| - HEADER_LEN)
  }

  /** A file with a complete header is that header and a torn list of records. */
  lemma {:induction false} TailShape(fmt: Format, f: SegFile, h: seq<LogEntry>, base: nat, n: nat)
    requires History(fmt, h) && n <= |h| && base <= |h| && OpenFileOk(fmt, f, h, base, n) && |f.data| >= HEADER_LEN
    ensures AllWritable(fmt, Slice(h, base, |h|)) && Consecutive(Slice(h, base, |h|), base)
    ensures |f.data| - HEADER_LEN <= |EncodeAll(fmt, Slice(h, base, |h|))| + 4
    ensures f.data == f.data[..HEADER_LEN] + Torn(fmt, Slice(h, base, |h|), |f.data| - HEADER_LEN)
    ensures n > base ==> |f.data| - HEADER_LEN >= LengthOf(fmt, Slice(h, base, |h|), n - base)
  {
    SliceWritable(fmt, h, base, |h|);
    hide Writable, EncodeAll, HasHeader, History;
    if n > base {
      SliceWritable(fmt, h, base, n);
      assert Slice(h, base, n) == Slice(h, base, |h|)[..n - base];
    }
  }

  lemma {:induction false} PrefixStored(fmt: Format, h: seq<LogEntry>, base: nat, m: nat)
    requires History(fmt, h) && base <= m <= |h|
    ensures History(fmt, h[..m]) && AllWritable(fmt, Slice(h, base, |h|))
    ensures AllWritable(fmt, Slice(h, base, |h|)[..m - base])
    ensures Stored(fmt, h[..m], base, m) == EncodeAll(fmt, Slice(h, base, |h|)[..m - base])
    ensures StoredAt(fmt, h[..m], base, m) == Positions(fmt, Slice(h, base, |h|)[..m - base])
  {
    PrefixHistory(fmt, h, m);
    SliceWritable(fmt, h, base, |h|);
    SliceWritable(fmt, h[..m], base, m);
    hide History, Writable, EncodeAll;
    SliceOfPrefix(h, base, m);
  }

  lemma {:induction false} SliceOfPrefix(h: seq<LogEntry>, base: nat, m: nat)
    requires base <= m <= |h|
    ensures Slice(h[..m], base, m) == Slice(h, base, |h|)[..m - base]
  {
    assert h[..m][base..m] == h[base..|h|][..m - base];
  }

  /**
   * Recovery of a file the log was writing finds the history up to where the file reaches, at the positions the log
   * gave it.
   */
  lemma {:induction false} TailScans(fmt: Format, f: SegFile, h: seq<LogEntry>, base: nat, n: nat)
    requires fmt.Lawful() && History(fmt, h) && n <= |h| && base <= |h| && OpenFileOk(fmt, f, h, base, n)
    requires |f.data| >= HEADER_LEN
    ensures var m := TailEnd(fmt, f, h, base);
            && n <= m && History(fmt, h[..m])
            && var scan := ScanFrom(fmt, f.data, HEADER_LEN, base);
               && !scan.overflow && scan.starts == StoredAt(fmt, h[..m], base, m)
               && scan.end == HEADER_LEN + |Stored(fmt, h[..m], base, m)|
               && f.data[HEADER_LEN..scan.end] == Stored(fmt, h[..m], base, m)
  {
    hide *;
    var es, len := Slice(h, base, |h|), |f.data| - HEADER_LEN;
    TailShape(fmt, f, h, base, n);
    TailEndIs(fmt, f, h, base, n);
    var m := TailEnd(fmt, f, h, base);
    PrefixStored(fmt, h, base, m);
    TornScans(fmt, f.data, es, len, base, es[..m - base]);
  }

  lemma {:induction false} TailEndIs(fmt: Format, f: SegFile, h: seq<LogEntry>, base: nat, n: nat)
    requires History(fmt, h) && base <= |h| && n <= |h| && |f.data| >= HEADER_LEN
    requires AllWritable(fmt, Slice(h, base, |h|))
    requires n > base ==> |f.data| - HEADER_LEN >= LengthOf(fmt, Slice(h, base, |h|), n - base)
    ensures TailEnd(fmt, f, h, base) - base == Whole(fmt, Slice(h, base, |h|), |f.data| - HEADER_LEN)
    ensures n <= TailEnd(fmt, f, h, base)
  {
    hide Writable, EncodeAll, Whole;
    if n > base {
      WholeCovers(fmt, Slice(h, base, |h|), |f.data| - HEADER_LEN, n - base);
    }
  }

  /** A header and a torn list of records scan to the complete ones. */
  lemma {:induction false} TornScans(fmt: Format, data: seq<byte>, es: seq<LogEntry>, len: nat, base: nat,
                                     kept: seq<LogEntry>)
    requires fmt.Lawful() && AllWritable(fmt, es) && Consecutive(es, base) && len <= |EncodeAll(fmt, es)| + 4
    requires |data| == HEADER_LEN + len && data == data[..HEADER_LEN] + Torn(fmt, es, len)
    requires kept == es[..Whole(fmt, es, len)] && AllWritable(fmt, kept)
    ensures ScanFrom(fmt, data, HEADER_LEN, base) ==
            Scan(kept, Positions(fmt, kept), HEADER_LEN + |EncodeAll(fmt, kept)|, false)
    ensures HEADER_LEN + |EncodeAll(fmt, kept)| <= |data|
    ensures data[HEADER_LEN..HEADER_LEN + |EncodeAll(fmt, kept)|] == EncodeAll(fmt, kept)
  {
    hide Writable, EncodeAll, Torn, Whole, Leftover, ScanFrom, Positions;
    TornIs(fmt, es, len);
    ScanOfTorn(fmt, data[..HEADER_LEN], es, len, base);
    TornBehindHeader(data, data[..HEADER_LEN], EncodeAll(fmt, kept), Leftover(fmt, es, len));
  }

  lemma {:induction false} TornBehindHeader(data: seq<byte>, header: seq<byte>, kept: seq<byte>, left: seq<byte>)
    requires |header| == HEADER_LEN && data == header + (kept + left)
    ensures data[HEADER_LEN..HEADER_LEN + |kept|] == kept
  {
  }

  /**
   * What loading the tail file must produce, for history `h` of which `n` entries are certain and the file holds those
   * below `m`.
   */
  ghost predicate TailLoaded(fmt: Format, after: SegFile, h: seq<LogEntry>, base: nat, n: nat, m: nat, a: ActiveSegment)
    requires History(fmt, h) && base <= m <= |h|
  {
    && n <= m && History(fmt, h[..m])
    && Full(fmt, after, h[..m], base)
    && (n > base ==> after.synced >= HEADER_LEN + |Stored(fmt, h, base, n)|)
    && a.baseOffset == base && a.positions == StoredAt(fmt, h[..m], base, m)
    && a.nextFilePos == |after.data| && a.byteSize == a.nextFilePos - HEADER_LEN
    && a.lastAppendedAtNs == (if m == base then 0 else h[m - 1].appendedAtNs)
  }

  /** The file is one this log was writing. */
  ghost predicate OwnTail(fmt: Format, f: SegFile, h: seq<LogEntry>, base: nat, n: nat) {
    && fmt.Lawful() && History(fmt, h) && n <= |h| && base <= |h| && OpenFileOk(fmt, f, h, base, n)
  }

  lemma {:induction false} HeaderIsOpenFile(fmt: Format, f: SegFile, h: seq<LogEntry>, base: u64, n: nat,
                                            createdAtNs: u64)
    requires OwnTail(fmt, f, h, base, n) && |f.data| < HEADER_LEN
    ensures History(fmt, h) && n <= |h| && base <= |h|
    ensures OpenFileOk(fmt, SegFile([], 0), h, base, n)
    ensures OpenFileOk(fmt, SegFile(HeaderBytes(SegmentHeader(base, createdAtNs)), 0), h, base, n)
  {
    hide History, Stored, HeaderBytes, ReadHeader;
    var data := HeaderBytes(SegmentHeader(base, createdAtNs));
    HeaderReadsBack(SegmentHeader(base, createdAtNs), []);
    assert data + [] == data && data[HEADER_LEN..] == [];
    assert (Stored(fmt, h, base, |h|) + SENTINEL)[..0] == [];
  }

  lemma {:induction false} LoadedIsOpenFile(fmt: Format, after: SegFile, h: seq<LogEntry>, base: nat, n: nat, m: nat,
                                            a: ActiveSegment)
    requires History(fmt, h) && base <= m <= |h| && TailLoaded(fmt, after, h, base, n, m, a)
    ensures OpenFileOk(fmt, after, h, base, n)
  {
    hide History, Stored, HasHeader, StoredAt;
    assert h[..m] == h[..m][..m];
    StoredIgnoresTail(fmt, h, h[..m], base, m);
    StoredMonotone(fmt, h, base, m);
    PrefixOfSealed(Stored(fmt, h, base, m), Stored(fmt, h, base, |h|));
  }

  lemma {:induction false} PrefixOfSealed(s: seq<byte>, all: seq<byte>)
    requires s <= all
    ensures s == (all + SENTINEL)[..|s|]
  {
  }

  lemma {:induction false} OwnHeader(fmt: Format, f: SegFile, h: seq<LogEntry>, base: nat, n: nat)
    requires OwnTail(fmt, f, h, base, n) && |f.data| >= HEADER_LEN
    ensures ReadHeader(f.data).Ok? && ReadHeader(f.data).value.baseOffset == base
  {
    hide History, Stored, ReadHeader;
  }

  /** `whole` is the file with a complete header. */
  ghost predicate Completed(f: SegFile, whole: SegFile, base: u64, createdAtNs: u64) {
    if |f.data| >= HEADER_LEN then whole == f else whole == SegFile(HeaderBytes(SegmentHeader(base, createdAtNs)), 0)
  }

  /** The scan of the completed file, in terms of the history. */
  ghost predicate ScannedAs(fmt: Format, whole: SegFile, h: seq<LogEntry>, base: nat, m: nat)
    requires |whole.data| >= HEADER_LEN && base <= m <= |h|
  {
    var scan := ScanFrom(fmt, whole.data, HEADER_LEN, base);
    && History(fmt, h[..m]) && HasHeader(whole.data, base)
    && !scan.overflow && scan.starts == StoredAt(fmt, h[..m], base, m)
    && scan.end == HEADER_LEN + |Stored(fmt, h[..m], base, m)|
    && whole.data[HEADER_LEN..scan.end] == Stored(fmt, h[..m], base, m)
  }

  lemma {:induction false} OwnScans(fmt: Format, f: SegFile, whole: SegFile, h: seq<LogEntry>, base: u64, n: nat,
                                    createdAtNs: u64)
    requires OwnTail(fmt, f, h, base, n) && Completed(f, whole, base, createdAtNs)
    ensures |whole.data| >= HEADER_LEN && History(fmt, h) && base <= |h| && n <= TailEnd(fmt, f, h, base)
    ensures ScannedAs(fmt, whole, h, base, TailEnd(fmt, f, h, base))
    ensures base + |ScanFrom(fmt, whole.data, HEADER_LEN, base).starts| == TailEnd(fmt, f, h, base) < U64_LIMIT
    ensures fmt.Lawful()
  {
    assert |h| < U64_LIMIT;
    hide StoredAt, Stored, ScanFrom, ReadHeader;
    if |f.data| >= HEADER_LEN {
      TailScans(fmt, f, h, base, n);
      StoredAtLength(fmt, h[..TailEnd(fmt, f, h, base)], base, TailEnd(fmt, f, h, base));
      hide History, Stored, StoredAt, ScanFrom;
    } else {
      HeaderScans(fmt, whole, h, base, createdAtNs);
      StoredAtLength(fmt, h[..base], base, base);
    }
  }

  /** A fresh header holds no records. */
  lemma {:induction false} HeaderScans(fmt: Format, whole: SegFile, h: seq<LogEntry>, base: u64, createdAtNs: u64)
    requires History(fmt, h) && base <= |h| && whole == SegFile(HeaderBytes(SegmentHeader(base, createdAtNs)), 0)
    ensures ScannedAs(fmt, whole, h, base, base)
  {
    HeaderReadsBack(SegmentHeader(base, createdAtNs), []);
    assert whole.data + [] == whole.data && whole.data[HEADER_LEN..] == [];
    NothingReads(fmt);
    PrefixHistory(fmt, h, base);
    assert Slice(h[..base], base, base) == [];
  }

  lemma {:induction false} OwnLast(fmt: Format, whole: SegFile, after: SegFile, h: seq<LogEntry>, base: nat, m: nat,
                                   pos: nat)
    requires fmt.Lawful() && |whole.data| >= HEADER_LEN && whole.synced <= |whole.data| && base < m <= |h|
    requires ScannedAs(fmt, whole, h, base, m)
    requires after == Truncated(whole, ScanFrom(fmt, whole.data, HEADER_LEN, base).end)
    requires var starts := ScanFrom(fmt, whole.data, HEADER_LEN, base).starts;
             |starts| == m - base && pos == starts[m - base - 1]
    ensures ParseRecord(fmt, After(after.data, pos)).Entry?
    ensures ParseRecord(fmt, After(after.data, pos)).entry == h[m - 1]
  {
    hide Stored, StoredAt, ScanFrom, History, HasHeader, ParseRecord, After, Full, Readable;
    TruncatedFull(fmt, whole, after, h, base, m);
    FullReadable(fmt, after, h[..m], base);
    ReadStored(fmt, after.data, h[..m], base, m, m - base - 1);
    assert h[..m][m - 1] == h[m - 1];
  }

  lemma {:induction false} TruncatedFull(fmt: Format, whole: SegFile, after: SegFile, h: seq<LogEntry>, base: nat,
                                         m: nat)
    requires |whole.data| >= HEADER_LEN && base <= m <= |h| && ScannedAs(fmt, whole, h, base, m)
    requires whole.synced <= |whole.data|
    requires after == Truncated(whole, ScanFrom(fmt, whole.data, HEADER_LEN, base).end)
    ensures Full(fmt, after, h[..m], base) && after.synced == Min(whole.synced, |after.data|)
    ensures |after.data| == ScanFrom(fmt, whole.data, HEADER_LEN, base).end
  {
    hide Stored, StoredAt, ScanFrom, History, HasHeader;
    var end := ScanFrom(fmt, whole.data, HEADER_LEN, base).end;
    HasHeaderPrefix(whole.data, end, base);
    assert whole.data[..end][HEADER_LEN..] == whole.data[HEADER_LEN..end];
  }

  lemma {:induction false} OwnLoaded(fmt: Format, f: SegFile, whole: SegFile, after: SegFile, h: seq<LogEntry>,
                                     base: nat, n: nat,
                                    a: ActiveSegment)
    requires OwnTail(fmt, f, h, base, n) && |whole.data| >= HEADER_LEN && whole.synced <= |whole.data|
    requires n <= TailEnd(fmt, f, h, base) && (n > base ==> whole == f)
    requires ScannedAs(fmt, whole, h, base, TailEnd(fmt, f, h, base))
    requires after == Truncated(whole, ScanFrom(fmt, whole.data, HEADER_LEN, base).end)
    requires a.baseOffset == base && a.positions == ScanFrom(fmt, whole.data, HEADER_LEN, base).starts
    requires a.nextFilePos == |after.data| && a.byteSize == a.nextFilePos - HEADER_LEN
    requires var m := TailEnd(fmt, f, h, base); a.lastAppendedAtNs == (if m == base then 0 else h[m - 1].appendedAtNs)
    ensures TailLoaded(fmt, after, h, base, n, TailEnd(fmt, f, h, base), a)
  {
    hide Stored, StoredAt, ScanFrom, History, HasHeader, TailEnd, Full;
    var m := TailEnd(fmt, f, h, base);
    TruncatedFull(fmt, whole, after, h, base, m);
    if n > base {
      StoredMonotoneTo(fmt, h, base, n, m);
      assert h[..m][..m] == h[..m];
      StoredIgnoresTail(fmt, h, h[..m], base, m);
    }
  }

  /** The directory is recoverable after each of the calls. */
  ghost predicate Recoverable(fmt: Format, d: Directory, calls: seq<IoCall>, h: seq<LogEntry>, cuts: seq<nat>, n: nat) {
    forall i :: 0 <= i <= |calls| ==> DiskOk(fmt, ApplyAll(d, calls[..i]), h, cuts, n)
  }

  /** The file with a complete header. */
  function WholeFile(f: SegFile, base: u64, now: u64): SegFile {
    if |f.data| >= HEADER_LEN then f else SegFile(HeaderBytes(SegmentHeader(base, now)), 0)
  }

  /** Loading the log's own tail file, on values. */
  lemma {:induction false} TailRecovers(fmt: Format, f: SegFile, h: seq<LogEntry>, base: u64, n: nat, now: u64,
                                        createdAtNs: u64)
    requires OwnTail(fmt, f, h, base, n) && History(fmt, h) && base <= |h|
    ensures var whole := WholeFile(f, base, now);
            && |whole.data| >= HEADER_LEN
            && var t := RecoverTail(fmt, whole.data, base, createdAtNs);
               var scan := ScanFrom(fmt, whole.data, HEADER_LEN, base);
               && t.r.Ok? && t.calls == (if scan.end < |whole.data| then [SetLen(base, scan.end)] else [])
               && TailLoaded(fmt, Truncated(whole, scan.end), h, base, n, TailEnd(fmt, f, h, base), t.r.value)
               && (|f.data| < HEADER_LEN ==> scan.end == |whole.data|)
  {
    hide OwnTail, ScanFrom, HeaderBytes, ParseRecord, After, History, TailEnd, TailLoaded, ScannedAs;
    var whole := WholeFile(f, base, now);
    OwnParts(fmt, f, h, base, n);
    OwnScans(fmt, f, whole, h, base, n, now);
    var m := TailEnd(fmt, f, h, base);
    var scan := ScanFrom(fmt, whole.data, HEADER_LEN, base);
    var after := Truncated(whole, scan.end);
    if scan.starts != [] {
      OwnLast(fmt, whole, after, h, base, m, scan.starts[|scan.starts| - 1]);
    }
    ScannedEnd(fmt, whole, h, base, m);
    if |f.data| < HEADER_LEN {
      HeaderOnly(fmt, f, whole, h, base, now);
    }
    OwnLoaded(fmt, f, whole, after, h, base, n, RecoverTail(fmt, whole.data, base, createdAtNs).r.value);
  }

  lemma {:induction false} OwnParts(fmt: Format, f: SegFile, h: seq<LogEntry>, base: nat, n: nat)
    requires OwnTail(fmt, f, h, base, n)
    ensures fmt.Lawful() && f.synced <= |f.data| && (n > base ==> |f.data| >= HEADER_LEN)
  {
    hide History, HasHeader;
  }

  lemma {:induction false} ScannedEnd(fmt: Format, whole: SegFile, h: seq<LogEntry>, base: nat, m: nat)
    requires |whole.data| >= HEADER_LEN && base <= m <= |h| && ScannedAs(fmt, whole, h, base, m)
    ensures !ScanFrom(fmt, whole.data, HEADER_LEN, base).overflow
  {
    hide History, HasHeader, Stored, StoredAt, ScanFrom;
  }

  lemma {:induction false} HeaderOnly(fmt: Format, f: SegFile, whole: SegFile, h: seq<LogEntry>, base: u64, now: u64)
    requires History(fmt, h) && base <= |h| && |f.data| < HEADER_LEN
    requires whole == SegFile(HeaderBytes(SegmentHeader(base, now)), 0)
    ensures |whole.data| == HEADER_LEN == ScanFrom(fmt, whole.data, HEADER_LEN, base).end
    ensures TailEnd(fmt, f, h, base) == base
  {
    hide History;
    assert whole.data[HEADER_LEN..] == [];
    NothingReads(fmt);
  }

  /**
   * Loading the tail of the log's own directory recovers the history up to where the file holds it, through recoverable
   * states.
   */
  lemma {:induction false} TailLoads(fmt: Format, d: Directory, h: seq<LogEntry>, cuts: seq<nat>, n: nat,
                                     now: u64) returns (after: SegFile)
    requires fmt.Lawful() && DiskOk(fmt, d, h, cuts, n) && History(fmt, h) && Last(cuts) in d.segs && Last(cuts) <= |h|
    ensures Last(cuts) < U64_LIMIT
    ensures var l := LoadTail(fmt, d.segs[Last(cuts)].data, Last(cuts), now);
            && l.r.Ok? && ApplyAll(d, l.calls) == Put(d, Last(cuts), after)
            && TailLoaded(fmt, after, h, Last(cuts), n, TailEnd(fmt, d.segs[Last(cuts)], h, Last(cuts)), l.r.value)
            && Recoverable(fmt, d, l.calls, h, cuts, n)
  {
    var t := Last(cuts);
    var f := d.segs[t];
    TailIsOwn(fmt, d, h, cuts, n);
    hide DiskOk, OwnTail, RecoverTail, ScanFrom, HeaderBytes, History, TailEnd, TailLoaded, Apply, ApplyAll, Put,
      Recoverable, ReadHeader;
    OwnParts(fmt, f, h, t, n);
    var whole := WholeFile(f, t, now);
    var end := ScanFrom(fmt, whole.data, HEADER_LEN, t).end;
    var createdAtNs :=
      if |f.data| >= HEADER_LEN && ReadHeader(f.data).Ok? then ReadHeader(f.data).value.createdAtNs else now;
    TailRecovers(fmt, f, h, t, n, now, createdAtNs);
    after := Truncated(whole, end);
    LoadedIsOpenFile(fmt, after, h, t, n, TailEnd(fmt, f, h, t), RecoverTail(fmt, whole.data, t, createdAtNs).r.value);
    if |f.data| >= HEADER_LEN {
      OwnHeader(fmt, f, h, t, n);
      CutSafe(fmt, d, h, cuts, n, end);
    } else {
      HeaderIsOpenFile(fmt, f, h, t, n, now);
      var bytes := HeaderBytes(SegmentHeader(t, now));
      assert [SetLen(t, 0), WriteFile(t, 0, bytes)] + [] == [SetLen(t, 0), WriteFile(t, 0, bytes)];
      NothingToTruncate(whole, end);
      HeaderSafe(fmt, d, h, cuts, n, bytes);
    }
  }

  lemma {:induction false} TailIsOwn(fmt: Format, d: Directory, h: seq<LogEntry>, cuts: seq<nat>, n: nat)
    requires fmt.Lawful() && DiskOk(fmt, d, h, cuts, n) && Last(cuts) in d.segs
    ensures OwnTail(fmt, d.segs[Last(cuts)], h, Last(cuts), n) && Last(cuts) !in d.idxs && Last(cuts) <= |h| < U64_LIMIT
  {
    hide AllClosedOk, NoOthers, OpenFileOk;
  }

  /** Cutting the tail file to what was recovered, if there is anything to cut. */
  lemma {:induction false} CutSafe(fmt: Format, d: Directory, h: seq<LogEntry>, cuts: seq<nat>, n: nat, end: nat)
    requires DiskOk(fmt, d, h, cuts, n) && History(fmt, h) && cuts != [] && Last(cuts) in d.segs
    requires end <= |d.segs[Last(cuts)].data|
    requires d.segs[Last(cuts)].synced <= |d.segs[Last(cuts)].data| && n <= |h| && Last(cuts) <= |h|
    requires OpenFileOk(fmt, Truncated(d.segs[Last(cuts)], end), h, Last(cuts), n)
    ensures var f := d.segs[Last(cuts)];
            var calls := if end < |f.data| then [SetLen(Last(cuts), end)] else [];
            ApplyAll(d, calls) == Put(d, Last(cuts), Truncated(f, end)) && Recoverable(fmt, d, calls, h, cuts, n)
  {
    hide DiskOk, OpenFileOk, History, ApplyAll, Put, Truncated;
    var t := Last(cuts);
    var f := d.segs[t];
    PutKeeps(fmt, d, h, cuts, n, Truncated(f, end), h, n);
    ApplyNothing(d);
    if end < |f.data| {
      SetLenIs(d, t, end);
      ApplyOne(d, SetLen(t, end));
      OneRecoverable(fmt, d, SetLen(t, end), h, cuts, n);
    } else {
      NothingToTruncate(f, end);
      PutAgain(d, t, f, f);
    }
  }

  lemma {:induction false} OneRecoverable(fmt: Format, d: Directory, call: IoCall, h: seq<LogEntry>, cuts: seq<nat>,
                                          n: nat)
    requires DiskOk(fmt, d, h, cuts, n) && DiskOk(fmt, Apply(d, call), h, cuts, n)
    ensures Recoverable(fmt, d, [call], h, cuts, n)
  {
    hide DiskOk, Apply, ApplyAll;
    var calls := [call];
    ApplyNothing(d);
    ApplyOne(d, call);
    assert calls[..0] == [] && calls[..1] == [call];
  }

  /** Emptying a file that has no complete header, and writing one. */
  lemma {:induction false} HeaderSafe(fmt: Format, d: Directory, h: seq<LogEntry>, cuts: seq<nat>, n: nat,
                                      bytes: seq<byte>)
    requires DiskOk(fmt, d, h, cuts, n) && History(fmt, h) && cuts != [] && n <= |h| && Last(cuts) <= |h|
    requires OpenFileOk(fmt, SegFile([], 0), h, Last(cuts), n) && OpenFileOk(fmt, SegFile(bytes, 0), h, Last(cuts), n)
    ensures var calls := [SetLen(Last(cuts), 0), WriteFile(Last(cuts), 0, bytes)];
            ApplyAll(d, calls) == Put(d, Last(cuts), SegFile(bytes, 0)) && Recoverable(fmt, d, calls, h, cuts, n)
  {
    hide DiskOk, OpenFileOk, History, ApplyAll, Put, Apply;
    var t := Last(cuts);
    PutKeeps(fmt, d, h, cuts, n, SegFile([], 0), h, n);
    PutKeeps(fmt, d, h, cuts, n, SegFile(bytes, 0), h, n);
    HeaderWritten(d, t, bytes);
    ApplyNothing(d);
    ApplyOne(d, SetLen(t, 0));
    var calls := [SetLen(t, 0), WriteFile(t, 0, bytes)];
    assert calls[..0] == [] && calls[..1] == [SetLen(t, 0)] && calls[..2] == calls;
  }

  // ---- the whole directory ----

  /** How opening went: the error that ended it, what was loaded, and the calls it made. */
  datatype Opening = Opening(failure: Option<StorageError>, log: LogState, calls: seq<IoCall>)

  /** File names hold u64 numbers. */
  ghost predicate Named(d: Directory) {
    forall b :: b in d.segs ==> b < U64_LIMIT
  }

  /**
   * One directory entry: an indexed segment is loaded, an unindexed one recovered; an earlier unindexed one must be
   * empty, and goes.
   */
  function LoadOne(fmt: Format, s: LogState, base: u64, now: u64): Opening {
    if base in s.disk.idxs then
      if base !in s.disk.segs then Opening(None, s, [])
      else
        match LoadClosed(fmt, s.disk, base)
        case Err(e) => Opening(Some(e), s, [])
        case Ok(None) => Opening(None, s, [])
        case Ok(Some(c)) => Opening(None, s.(closed := s.closed + [c], nextOffset := c.lastOffset + 1), [])
    else if s.active.Some? && s.active.value.positions != [] then Opening(Some(Corrupted), s, [])
    else
      var orphan := if s.active.Some? then [Unlink(s.active.value.baseOffset)] else [];
      var t := LoadTail(fmt, FileOf(ApplyAll(s.disk, orphan), base).data, base, now);
      var disk := ApplyAll(s.disk, orphan + t.calls);
      match t.r
      case Err(e) => Opening(Some(e), s.(disk := disk, active := None), orphan + t.calls)
      case Ok(a) =>
        RecoveredBelow(fmt, FileOf(ApplyAll(s.disk, orphan), base).data, base, now);
        Opening(None, LogState(disk, s.closed, Some(a), base + |a.positions|), orphan + t.calls)
  }

  lemma {:induction false} RecoveredBelow(fmt: Format, data: seq<byte>, base: u64, now: u64)
    ensures var t := LoadTail(fmt, data, base, now); t.r.Ok? ==> base + |t.r.value.positions| < U64_LIMIT
  {
    hide ScanFrom, HeaderBytes, ParseRecord, ReadHeader, After;
  }

  function LoadAll(fmt: Format, s: LogState, bases: seq<nat>, now: u64): Opening
    requires forall i :: 0 <= i < |bases| ==> bases[i] < U64_LIMIT
    decreases |bases|
  {
    if bases == [] then Opening(None, s, [])
    else
      var one := LoadOne(fmt, s, bases[0], now);
      if one.failure.Some? then one
      else
        var rest := LoadAll(fmt, one.log, bases[1..], now);
        rest.(calls := one.calls + rest.calls)
  }

  /** With no segment left, the watermark tells a log whose segments were all evicted from a new one. */
  function FromWatermark(o: Opening, watermark: Option<u64>): Opening {
    if o.failure.None? && o.log.nextOffset == 0 && o.log.closed == [] && o.log.active.None? && watermark.Some?
    then o.(log := o.log.(nextOffset := watermark.value))
    else o
  }

  function Unopened(d: Directory): LogState {
    LogState(d, [], None, 0)
  }

  /** Opening a directory: its segments in the order of their names. */
  ghost function OpenOf(fmt: Format, d: Directory, now: u64): Opening
    requires Named(d)
  {
    var bases := SortedKeys(d.segs.Keys);
    NamedBelow(d);
    FromWatermark(LoadAll(fmt, Unopened(d), bases, now), d.watermark)
  }

  // ---- sorting ----

  ghost predicate Ascending(bases: seq<nat>) {
    forall i, j :: 0 <= i < j < |bases| ==> bases[i] < bases[j]
  }

  predicate Least(b: nat, keys: set<nat>) {
    b in keys && forall x :: x in keys ==> b <= x
  }

  ghost function SortedKeys(keys: set<nat>): seq<nat>
    decreases |keys|
  {
    if keys == {} then []
    else
      HasLeast(keys);
      var b :| Least(b, keys);
      [b] + SortedKeys(keys - {b})
  }

  lemma {:induction false} SortedKeysAre(keys: set<nat>)
    ensures Ascending(SortedKeys(keys)) && forall b :: b in SortedKeys(keys) <==> b in keys
    decreases |keys|
  {
    if keys != {} {
      HasLeast(keys);
      var b :| Least(b, keys);
      SortedKeysStep(keys, b);
      SortedKeysAre(keys - {b});
      hide SortedKeys;
      LeastFirst(b, SortedKeys(keys - {b}), keys);
    }
  }

  lemma {:induction false} LeastFirst(b: nat, rest: seq<nat>, keys: set<nat>)
    requires Least(b, keys) && Ascending(rest) && forall x :: x in rest <==> x in keys - {b}
    ensures Ascending([b] + rest) && forall x :: x in [b] + rest <==> x in keys
  {
    var all := [b] + rest;
    forall i, j | 0 <= i < j < |all|
      ensures all[i] < all[j]
    {
      assert all[j] == rest[j - 1] && rest[j - 1] in keys - {b};
      if i > 0 {
        assert all[i] == rest[i - 1];
      }
    }
    forall x
      ensures x in all <==> x in keys
    {
      assert x in all <==> x == b || x in rest;
      assert x in keys <==> x == b || x in keys - {b};
    }
  }

  lemma {:induction false} HasLeast(keys: set<nat>)
    requires keys != {}
    ensures exists b :: Least(b, keys)
    decreases |keys|
  {
    var b :| b in keys;
    var others := keys - {b};
    if others == {} {
      LeastOfOne(b, keys);
    } else {
      HasLeast(others);
      var c :| Least(c, others);
      LeastWithOne(b, c, keys);
    }
  }

  lemma {:induction false} LeastOfOne(b: nat, keys: set<nat>)
    requires b in keys && keys - {b} == {}
    ensures Least(b, keys)
  {
    forall x | x in keys
      ensures b <= x
    {
      assert x !in keys - {b};
    }
  }

  lemma {:induction false} LeastWithOne(b: nat, c: nat, keys: set<nat>)
    requires b in keys && Least(c, keys - {b})
    ensures Least(if b < c then b else c, keys)
  {
    forall x | x in keys
      ensures b <= x || c <= x
    {
      assert x == b || x in keys - {b};
    }
  }

  lemma {:induction false} SortedKeysStep(keys: set<nat>, b: nat)
    requires Least(b, keys)
    ensures SortedKeys(keys) == [b] + SortedKeys(keys - {b})
  {
    assert forall c :: Least(c, keys) ==> c == b;
  }

  lemma {:induction false} NamedBelow(d: Directory)
    requires Named(d)
    ensures forall i :: 0 <= i < |SortedKeys(d.segs.Keys)| ==> SortedKeys(d.segs.Keys)[i] < U64_LIMIT
  {
    hide Ascending;
    SortedKeysAre(d.segs.Keys);
    var bases := SortedKeys(d.segs.Keys);
    assert forall i :: 0 <= i < |bases| ==> bases[i] in bases;
  }

  method SortedBases(keys: set<nat>) returns (bases: seq<nat>)
    ensures bases == SortedKeys(keys)
  {
    bases := [];
    var rest := keys;
    while rest != {}
      invariant bases + SortedKeys(rest) == SortedKeys(keys)
      decreases |rest|
    {
      hide SortedKeys;
      HasLeast(rest);
      var b :| Least(b, rest);
      SortedKeysStep(rest, b);
      assert bases + ([b] + SortedKeys(rest - {b})) == (bases + [b]) + SortedKeys(rest - {b});
      bases := bases + [b];
      rest := rest - {b};
    }
  }

  lemma {:induction false} SortedOnce(a: seq<nat>, b: seq<nat>)
    requires Ascending(a) && Ascending(b) && forall x :: x in a <==> x in b
    ensures a == b
    decreases |a|
  {
    assert b == [] || b[0] in a;
    if a != [] {
      assert a[0] in a && a[0] in b;
      assert b[0] in b && b[0] in a;
      assert a[0] == b[0];
      forall x
        ensures x in a[1..] <==> x in b[1..]
      {
        if x in a[1..] {
          assert x in a && x != a[0];
          assert x in b && x != b[0];
        }
        if x in b[1..] {
          assert x in b && x != b[0];
          assert x in a && x != a[0];
        }
      }
      SortedOnce(a[1..], b[1..]);
    }
  }

  // ---- opening, step by step ----

  method LoadEntry(fmt: Format, s: LogState, base: u64, now: u64)
    returns (failure: Option<StorageError>, log: LogState, ghost calls: seq<IoCall>)
    ensures Opening(failure, log, calls) == LoadOne(fmt, s, base, now)
  {
    hide LoadClosed, LoadTail, Apply, ApplyAll, FileOf;
    calls := [];
    if base in s.disk.idxs {
      if base !in s.disk.segs {
        return None, s, [];
      }
      var loaded := LoadClosed(fmt, s.disk, base);
      if loaded.Err? {
        return Some(loaded.error), s, [];
      }
      if loaded.value.None? {
        return None, s, [];
      }
      var c := loaded.value.value;
      return None, s.(closed := s.closed + [c], nextOffset := c.lastOffset + 1), [];
    }
    var disk := s.disk;
    ApplyNothing(disk);
    if s.active.Some? {
      if s.active.value.positions != [] {
        return Some(Corrupted), s, [];
      }
      disk := Apply(disk, Unlink(s.active.value.baseOffset));
      calls := [Unlink(s.active.value.baseOffset)];
      ApplyOne(s.disk, Unlink(s.active.value.baseOffset));
    }
    var active, after;
    ghost var more;
    RecoveredBelow(fmt, FileOf(disk, base).data, base, now);
    active, after, more := LoadActive(fmt, disk, base, now);
    ApplyConcat(s.disk, calls, more);
    calls := calls + more;
    if active.Err? {
      return Some(active.error), s.(disk := after, active := None), calls;
    }
    var a := active.value;
    return None, LogState(after, s.closed, Some(a), base + |a.positions|), calls;
  }

  /** Opening a directory does what its specification says, and the calls it lists are those it made. */
  method LoadDirectory(fmt: Format, d: Directory, now: u64)
    returns (failure: Option<StorageError>, log: LogState, ghost calls: seq<IoCall>)
    requires Named(d)
    ensures Opening(failure, log, calls) == OpenOf(fmt, d, now)
    ensures log.disk == ApplyAll(d, calls)
  {
    hide LoadOne, Apply, ApplyAll, LoadAll, SortedKeys, Named;
    var bases := SortedBases(d.segs.Keys);
    NamedBelow(d);
    var s := Unopened(d);
    calls := [];
    ApplyNothing(d);
    ghost var all := LoadAll(fmt, s, bases, now);
    assert all == all.(calls := [] + all.calls) && bases[0..] == bases;
    for i := 0 to |bases|
      invariant s.disk == ApplyAll(d, calls)
      invariant var rest := LoadAll(fmt, s, bases[i..], now); all == rest.(calls := calls + rest.calls)
    {
      var error, loaded;
      ghost var more;
      LoadAllStep(fmt, s, bases, i, now);
      error, loaded, more := LoadEntry(fmt, s, bases[i], now);
      LoadOneApplies(fmt, s, bases[i], now);
      ApplyConcat(d, calls, more);
      ghost var rest := LoadAll(fmt, loaded, bases[i + 1..], now);
      assert calls + (more + rest.calls) == (calls + more) + rest.calls;
      calls := calls + more;
      s := loaded;
      if error.Some? {
        return error, s, calls;
      }
    }
    LoadNothing(fmt, s, bases, now);
    assert calls + [] == calls;
    if s.nextOffset == 0 && s.closed == [] && s.active.None? {
      if d.watermark.Some? {
        s := s.(nextOffset := d.watermark.value);
      }
    }
    return None, s, calls;
  }

  lemma {:induction false} LoadAllStep(fmt: Format, s: LogState, bases: seq<nat>, i: nat, now: u64)
    requires i < |bases| && forall j :: 0 <= j < |bases| ==> bases[j] < U64_LIMIT
    ensures var one, all := LoadOne(fmt, s, bases[i], now), LoadAll(fmt, s, bases[i..], now);
            && (one.failure.Some? ==> all == one)
            && (one.failure.None? ==>
                  var rest := LoadAll(fmt, one.log, bases[i + 1..], now); all == rest.(calls := one.calls + rest.calls))
  {
    hide LoadOne;
    assert bases[i..][0] == bases[i] && bases[i..][1..] == bases[i + 1..];
  }

  lemma {:induction false} LoadNothing(fmt: Format, s: LogState, bases: seq<nat>, now: u64)
    requires forall i :: 0 <= i < |bases| ==> bases[i] < U64_LIMIT
    ensures LoadAll(fmt, s, bases[|bases|..], now) == Opening(None, s, [])
  {
  }

  lemma {:induction false} LoadOneApplies(fmt: Format, s: LogState, base: u64, now: u64)
    ensures var one := LoadOne(fmt, s, base, now); one.log.disk == ApplyAll(s.disk, one.calls)
  {
    hide LoadClosed, LoadTail, Apply;
  }

  // ---- opening the log's own directory ----

  ghost predicate IndexesFit(d: Directory) {
    forall b :: b in d.segs && b in d.idxs ==> IndexFits(d.idxs[b])
  }

  /** Up to which offset the directory still holds the history. */
  ghost function DiskEnd(fmt: Format, d: Directory, h: seq<LogEntry>, cuts: seq<nat>): (m: nat)
    requires History(fmt, h) && cuts != [] && Last(cuts) <= |h|
    ensures Last(cuts) <= m <= |h|
  {
    if Last(cuts) in d.segs then TailEnd(fmt, d.segs[Last(cuts)], h, Last(cuts)) else Last(cuts)
  }

  ghost function BasesOf(d: Directory, cuts: seq<nat>): seq<nat>
    requires cuts != []
  {
    if Last(cuts) in d.segs then cuts else cuts[..|cuts| - 1]
  }

  lemma {:induction false} BasesAre(fmt: Format, d: Directory, h: seq<LogEntry>, cuts: seq<nat>, n: nat,
                                    bases: seq<nat>)
    requires DiskOk(fmt, d, h, cuts, n) && Ascending(bases) && forall b :: b in bases <==> b in d.segs
    ensures bases == BasesOf(d, cuts)
  {
    hide History, TailOk, HasHeader, Stored, StoredAt;
    var own := BasesOf(d, cuts);
    forall i, j | 0 <= i < j < |own|
      ensures own[i] < own[j]
    {
      CutsIncrease(fmt, d, h, cuts, i, j);
    }
    forall b
      ensures b in own <==> b in d.segs
    {
      if b in own {
        var i :| 0 <= i < |own| && own[i] == b;
        if i < |cuts| - 1 {
          assert ClosedOk(fmt, d, h, cuts[i], cuts[i + 1]);
        }
      }
      if b in d.segs {
        var i :| 0 <= i < |cuts| && cuts[i] == b;
        if i < |own| {
          assert own[i] == b;
        }
      }
    }
    SortedOnce(bases, own);
  }

  /** The first `i` closed segments have been loaded. */
  ghost predicate LoadedSome(fmt: Format, d: Directory, h: seq<LogEntry>, cuts: seq<nat>, s: LogState, i: nat)
    requires History(fmt, h) && i < |cuts|
  {
    && s.disk == d && s.active == None && |s.closed| == i
    && (forall j :: 0 <= j < i ==> ClosedMatches(fmt, d, h, s.closed[j], cuts[j], cuts[j + 1]))
    && s.nextOffset == (if i == 0 then 0 else cuts[i])
  }

  /** Everything has been loaded: the log holds the history up to where the directory does. */
  ghost predicate LoadedAll(fmt: Format, d: Directory, h: seq<LogEntry>, cuts: seq<nat>, n: nat, s: LogState)
    requires History(fmt, h) && cuts != [] && Last(cuts) <= |h|
  {
    var m := DiskEnd(fmt, d, h, cuts);
    n <= m && CutsOf(s) == cuts && LogOk(fmt, s, h[..m], n)
  }

  /** The indexes of the closed segments from the `i`-th on are within the limit. */
  ghost predicate FitFrom(d: Directory, cuts: seq<nat>, i: nat) {
    forall j :: i <= j < |cuts| - 1 ==> cuts[j] in d.idxs && IndexFits(d.idxs[cuts[j]])
  }

  /** How loading the entries from the `i`-th on must go. */
  ghost predicate RestLoaded(fmt: Format, d: Directory, h: seq<LogEntry>, cuts: seq<nat>, n: nat, i: nat, o: Opening)
    requires History(fmt, h) && cuts != [] && Last(cuts) <= |h|
  {
    && (o.failure.None? <==> FitFrom(d, cuts, i))
    && (o.failure.Some? ==> o.failure == Some(Corrupted))
    && Recoverable(fmt, d, o.calls, h, cuts, n)
    && (o.failure.None? ==>
          if Last(cuts) in d.segs then LoadedAll(fmt, d, h, cuts, n, o.log) && o.log.active.Some?
          else LoadedSome(fmt, d, h, cuts, o.log, |cuts| - 1))
  }

  lemma {:induction false} NoCalls(fmt: Format, d: Directory, h: seq<LogEntry>, cuts: seq<nat>, n: nat)
    requires DiskOk(fmt, d, h, cuts, n)
    ensures Recoverable(fmt, d, [], h, cuts, n)
  {
    hide DiskOk;
    ApplyNothing(d);
  }

  /** A closed segment of the log's own. */
  lemma {:induction false} ClosedEntry(fmt: Format, d: Directory, h: seq<LogEntry>, cuts: seq<nat>, n: nat, i: nat,
                                       s: LogState, now: u64)
    requires fmt.Lawful() && DiskOk(fmt, d, h, cuts, n) && History(fmt, h) && i + 1 < |cuts|
    requires LoadedSome(fmt, d, h, cuts, s, i)
    ensures cuts[i] < U64_LIMIT && cuts[i] in d.idxs
    ensures var one := LoadOne(fmt, s, cuts[i], now);
            && one.calls == []
            && (if IndexFits(d.idxs[cuts[i]]) then one.failure.None? && LoadedSome(fmt, d, h, cuts, one.log, i + 1)
                else one.failure == Some(Corrupted))
  {
    hide DiskOk, ClosedOk, ClosedMatches, LoadClosed, LoadTail, History;
    ClosedAt(fmt, d, h, cuts, n, i);
    ClosedParts(fmt, d, h, cuts[i], cuts[i + 1]);
    ClosedLoads(fmt, d, h, cuts[i], cuts[i + 1]);
    if IndexFits(d.idxs[cuts[i]]) {
      MatchedEnd(fmt, d, h, LoadClosed(fmt, d, cuts[i]).value.value, cuts[i], cuts[i + 1]);
    }
  }

  lemma {:induction false} MatchedEnd(fmt: Format, d: Directory, h: seq<LogEntry>, c: ClosedSegment, b: nat, e: nat)
    requires History(fmt, h) && ClosedMatches(fmt, d, h, c, b, e)
    ensures c.baseOffset == b && c.lastOffset + 1 == e
  {
    hide History, StoredAt;
  }

  /** The directory with the recovered tail file. */
  lemma {:induction false} TailDisk(fmt: Format, d: Directory, h: seq<LogEntry>, cuts: seq<nat>, n: nat, after: SegFile,
                                    a: ActiveSegment, m: nat)
    requires DiskOk(fmt, d, h, cuts, n) && History(fmt, h) && Last(cuts) <= m <= |h|
    requires TailLoaded(fmt, after, h, Last(cuts), n, m, a)
    ensures DiskOk(fmt, Put(d, Last(cuts), after), h[..m], cuts, n)
  {
    hide HasHeader, Stored, StoredAt, AllClosedOk, NoOthers, History;
    var t := Last(cuts);
    assert h[..m][..t] == h[..t] && h[..m][..n] == h[..n];
    if n > t {
      StoredIgnoresTail(fmt, h, h[..m], t, n);
    }
    FullIsOpenFile(fmt, after, h[..m], t, n);
    PutKeeps(fmt, d, h, cuts, n, after, h[..m], n);
  }

  /** The file the log was writing. */
  lemma {:induction false} TailEntry(fmt: Format, d: Directory, h: seq<LogEntry>, cuts: seq<nat>, n: nat, s: LogState,
                                     now: u64)
    requires fmt.Lawful() && DiskOk(fmt, d, h, cuts, n) && History(fmt, h) && cuts != [] && Last(cuts) <= |h|
    requires Last(cuts) in d.segs && LoadedSome(fmt, d, h, cuts, s, |cuts| - 1)
    ensures Last(cuts) < U64_LIMIT
    ensures var one := LoadOne(fmt, s, Last(cuts), now);
            && one.failure.None? && one.log.active.Some? && LoadedAll(fmt, d, h, cuts, n, one.log)
            && Recoverable(fmt, d, one.calls, h, cuts, n)
  {
    hide DiskOk, ClosedMatches, LoadTail, History, TailLoaded, TailEnd, LogOk, Recoverable, ApplyAll, Put;
    var t := Last(cuts);
    TailIsOwn(fmt, d, h, cuts, n);
    var after := TailLoads(fmt, d, h, cuts, n, now);
    var l := LoadTail(fmt, d.segs[t].data, t, now);
    ApplyNothing(d);
    assert [] + l.calls == l.calls;
    var m := DiskEnd(fmt, d, h, cuts);
    TailDisk(fmt, d, h, cuts, n, after, l.r.value, m);
    TailLogOk(fmt, d, h, cuts, n, s, after, l.r.value, m);
  }

  lemma {:induction false} TailLogOk(fmt: Format, d: Directory, h: seq<LogEntry>, cuts: seq<nat>, n: nat, s: LogState,
                                    after: SegFile, a: ActiveSegment, m: nat)
    requires DiskOk(fmt, d, h, cuts, n) && History(fmt, h) && cuts != [] && Last(cuts) <= m <= |h|
    requires LoadedSome(fmt, d, h, cuts, s, |cuts| - 1) && TailLoaded(fmt, after, h, Last(cuts), n, m, a)
    requires DiskOk(fmt, Put(d, Last(cuts), after), h[..m], cuts, n)
    ensures n <= m && Last(cuts) + |a.positions| == m < U64_LIMIT
    ensures var log := LogState(Put(d, Last(cuts), after), s.closed, Some(a), m);
            CutsOf(log) == cuts && LogOk(fmt, log, h[..m], n)
  {
    var t, g, c := Last(cuts), h[..m], Put(d, Last(cuts), after);
    assert |g| < U64_LIMIT;
    hide HasHeader, Stored, StoredAt, NoOthers, History, Full, TailOk, ClosedMatches, ClosedOk, CutsOf, LogOk;
    assert AllClosedMatch(fmt, d, h, s.closed, cuts);
    assert SameBelow(d, c, t) && g[..t] == h[..t];
    MatchUntouched(fmt, d, c, h, g, s.closed, cuts);
    StoredAtLength(fmt, g, t, m);
    assert ActiveMatches(fmt, c, g, a, t);
    hide DiskOk, AllClosedMatch, ActiveMatches, SameBelow;
    LogFrom(fmt, LogState(c, s.closed, Some(a), m), g, n, cuts);
  }

  /** Loading the entries of the log's own directory from the `i`-th on. */
  lemma {:induction false} LoadsRest(fmt: Format, d: Directory, h: seq<LogEntry>, cuts: seq<nat>, n: nat, i: nat,
                                     s: LogState, now: u64)
    requires fmt.Lawful() && DiskOk(fmt, d, h, cuts, n) && History(fmt, h) && cuts != [] && Last(cuts) <= |h|
    requires i < |cuts| && LoadedSome(fmt, d, h, cuts, s, i)
    requires forall j :: 0 <= j < |BasesOf(d, cuts)| ==> BasesOf(d, cuts)[j] < U64_LIMIT
    ensures i <= |BasesOf(d, cuts)| && RestLoaded(fmt, d, h, cuts, n, i, LoadAll(fmt, s, BasesOf(d, cuts)[i..], now))
    decreases |cuts| - i
  {
    hide DiskOk, History, LoadOne, LoadedSome, LoadedAll, Recoverable, ApplyAll, IndexFits;
    var bases := BasesOf(d, cuts);
    NoCalls(fmt, d, h, cuts, n);
    if i == |bases| {
      LoadNothing(fmt, s, bases, now);
    } else {
      LoadAllStep(fmt, s, bases, i, now);
      if i == |cuts| - 1 {
        TailEntry(fmt, d, h, cuts, n, s, now);
        var one := LoadOne(fmt, s, cuts[i], now);
        LoadNothing(fmt, one.log, bases, now);
        assert one.calls + [] == one.calls;
      } else {
        ClosedEntry(fmt, d, h, cuts, n, i, s, now);
        if IndexFits(d.idxs[cuts[i]]) {
          var one := LoadOne(fmt, s, cuts[i], now);
          LoadsRest(fmt, d, h, cuts, n, i + 1, one.log, now);
          var rest := LoadAll(fmt, one.log, bases[i + 1..], now);
          assert [] + rest.calls == rest.calls;
          assert FitFrom(d, cuts, i) <==> FitFrom(d, cuts, i + 1);
        }
      }
    }
  }

  /** No file was being written: the log ends where its last segment does, or where the watermark says. */
  lemma {:induction false} NextIsTail(fmt: Format, d: Directory, h: seq<LogEntry>, cuts: seq<nat>, n: nat, s: LogState)
    requires DiskOk(fmt, d, h, cuts, n) && Last(cuts) !in d.segs && LoadedSome(fmt, d, h, cuts, s, |cuts| - 1)
    ensures FromWatermark(Opening(None, s, []), d.watermark).log.nextOffset == Last(cuts)
  {
    hide HasHeader, Stored, StoredAt, History, ClosedMatches, OpenFileOk;
    if |cuts| == 1 {
      assert forall b :: b in cuts ==> b == cuts[0];
      assert d.segs.Keys == {};
      assert d.segs == map[];
    } else {
      assert ClosedOk(fmt, d, h, cuts[|cuts| - 2], cuts[|cuts| - 1]);
    }
  }

  lemma {:induction false} EndsAtTail(fmt: Format, d: Directory, h: seq<LogEntry>, cuts: seq<nat>, n: nat, s: LogState)
    requires DiskOk(fmt, d, h, cuts, n) && History(fmt, h) && cuts != [] && Last(cuts) <= |h|
    requires Last(cuts) !in d.segs && LoadedSome(fmt, d, h, cuts, s, |cuts| - 1)
    ensures LoadedAll(fmt, d, h, cuts, n, FromWatermark(Opening(None, s, []), d.watermark).log)
  {
    hide HasHeader, Stored, StoredAt, AllClosedOk, History, ClosedMatches, OpenFileOk, LogOk, CutsOf;
    var t := Last(cuts);
    assert n <= t;
    NextIsTail(fmt, d, h, cuts, n, s);
    var log := s.(nextOffset := FromWatermark(Opening(None, s, []), d.watermark).log.nextOffset);
    PrefixHistory(fmt, h, t);
    var g := h[..t];
    assert g[..t] == h[..t];
    assert SameBelow(d, d, t);
    ClosedUntouched(fmt, d, d, h, g, cuts);
    assert AllClosedMatch(fmt, d, h, s.closed, cuts);
    MatchUntouched(fmt, d, d, h, g, s.closed, cuts);
    hide AllClosedMatch;
    LogFrom(fmt, log, g, n, cuts);
  }

  lemma {:induction false} FitIsAll(fmt: Format, d: Directory, h: seq<LogEntry>, cuts: seq<nat>, n: nat)
    requires DiskOk(fmt, d, h, cuts, n)
    ensures FitFrom(d, cuts, 0) <==> IndexesFit(d)
  {
    hide HasHeader, Stored, StoredAt, History, OpenFileOk, IndexFits;
    if FitFrom(d, cuts, 0) {
      forall b | b in d.segs && b in d.idxs
        ensures IndexFits(d.idxs[b])
      {
        var j :| 0 <= j < |cuts| && cuts[j] == b;
      }
    }
    if IndexesFit(d) {
      forall j | 0 <= j < |cuts| - 1
        ensures cuts[j] in d.idxs && IndexFits(d.idxs[cuts[j]])
      {
        assert ClosedOk(fmt, d, h, cuts[j], cuts[j + 1]);
      }
    }
  }

  lemma {:induction false} OwnIsNamed(fmt: Format, d: Directory, h: seq<LogEntry>, cuts: seq<nat>, n: nat)
    requires DiskOk(fmt, d, h, cuts, n)
    ensures Named(d)
  {
    hide ClosedOk, OpenFileOk;
    forall b | b in d.segs
      ensures b < U64_LIMIT
    {
      var i :| 0 <= i < |cuts| && cuts[i] == b;
      if i < |cuts| - 1 {
        CutsIncrease(fmt, d, h, cuts, i, |cuts| - 1);
      }
    }
  }

  lemma {:induction false} OwnBases(fmt: Format, d: Directory, h: seq<LogEntry>, cuts: seq<nat>, n: nat)
    requires DiskOk(fmt, d, h, cuts, n)
    ensures cuts != [] && SortedKeys(d.segs.Keys) == BasesOf(d, cuts)
  {
    hide DiskOk, Ascending, BasesOf, SortedKeys;
    DiskHistory(fmt, d, h, cuts, n);
    SortedKeysAre(d.segs.Keys);
    BasesAre(fmt, d, h, cuts, n, SortedKeys(d.segs.Keys));
  }

  /**
   * Opening a directory of the log's own, in any state a crash can leave it in: it succeeds exactly when every index is
   * within the limit. The log then holds the history from the same window start up to where the files still have it,
   * everything that was certain included. The directory can be opened again after each of the calls made on the way.
   */
  lemma {:induction false} OpensOwn(fmt: Format, d: Directory, h: seq<LogEntry>, cuts: seq<nat>, n: nat, now: u64)
    requires fmt.Lawful() && DiskOk(fmt, d, h, cuts, n)
    ensures Named(d) && History(fmt, h) && cuts != [] && Last(cuts) <= |h|
    ensures var o := OpenOf(fmt, d, now);
            && (o.failure.None? <==> IndexesFit(d)) && (o.failure.Some? ==> o.failure == Some(Corrupted))
            && (o.failure.None? ==> LoadedAll(fmt, d, h, cuts, n, o.log))
            && Recoverable(fmt, d, o.calls, h, cuts, n)
  {
    hide DiskOk, History, LoadedAll, LoadAll, LoadedSome, Recoverable, SortedKeys, Named, IndexesFit, FitFrom;
    DiskHistory(fmt, d, h, cuts, n);
    OwnIsNamed(fmt, d, h, cuts, n);
    NamedBelow(d);
    OwnBases(fmt, d, h, cuts, n);
    NothingLoaded(fmt, d, h, cuts);
    var all := LoadAll(fmt, Unopened(d), SortedKeys(d.segs.Keys), now);
    LoadsRest(fmt, d, h, cuts, n, 0, Unopened(d), now);
    assert BasesOf(d, cuts)[0..] == BasesOf(d, cuts);
    FitIsAll(fmt, d, h, cuts, n);
    if all.failure.None? && Last(cuts) !in d.segs {
      EndsAtTail(fmt, d, h, cuts, n, all.log);
    }
  }

  lemma {:induction false} NothingLoaded(fmt: Format, d: Directory, h: seq<LogEntry>, cuts: seq<nat>)
    requires History(fmt, h) && cuts != []
    ensures LoadedSome(fmt, d, h, cuts, Unopened(d), 0)
  {
    hide History, ClosedMatches;
  }

  /** A tail file that holds the records up to offset `k` is recovered at least that far. */
  lemma {:induction false} EndReaches(fmt: Format, d: Directory, h: seq<LogEntry>, cuts: seq<nat>, k: nat)
    requires History(fmt, h) && cuts != [] && Last(cuts) <= k <= |h| && Last(cuts) in d.segs
    requires |d.segs[Last(cuts)].data| >= HEADER_LEN + |Stored(fmt, h, Last(cuts), k)|
    ensures DiskEnd(fmt, d, h, cuts) >= k
  {
    var t := Last(cuts);
    SliceWritable(fmt, h, t, |h|);
    SliceWritable(fmt, h, t, k);
    assert Slice(h, t, k) == Slice(h, t, |h|)[..k - t];
    hide Writable, EncodeAll, Whole, History;
    WholeCovers(fmt, Slice(h, t, |h|), |d.segs[t].data| - HEADER_LEN, k - t);
  }
}
