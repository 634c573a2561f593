/** Range reads: closed segments through their indexes, then the active one. */
module SegmentReading {
  import opened Bytes
  import opened Wrappers
  import opened EventLogPort
  import opened SegmentRecords
  import opened SegmentFiles
  import opened SegmentDisk
  import opened SegmentState
  import opened SegmentIo

  /** The records of offsets `b` up to `e` lie behind the header. */
  ghost predicate Readable(fmt: Format, data: seq<byte>, h: seq<LogEntry>, b: nat, e: nat) {
    && History(fmt, h) && b <= e <= |h|
    && |data| >= HEADER_LEN + |Stored(fmt, h, b, e)|
    && data[HEADER_LEN..HEADER_LEN + |Stored(fmt, h, b, e)|] == Stored(fmt, h, b, e)
  }

  lemma {:induction false} ReadStored(fmt: Format, data: seq<byte>, h: seq<LogEntry>, b: nat, e: nat, i: nat)
    requires fmt.Lawful() && Readable(fmt, data, h, b, e) && i < e - b
    ensures ParseRecord(fmt, After(data, StoredAt(fmt, h, b, e)[i])).Entry?
    ensures ParseRecord(fmt, After(data, StoredAt(fmt, h, b, e)[i])).entry == h[b + i]
  {
    hide *;
    var es, tail := ReadableParts(fmt, data, h, b, e);
    RecordAt(fmt, es, i, tail);
    AfterIs(data, EncodeAll(fmt, es) + tail, LengthOf(fmt, es, i));
  }

  /** Behind the header of a readable file lie its records and something else. */
  lemma {:induction false} ReadableParts(fmt: Format, data: seq<byte>, h: seq<LogEntry>, b: nat, e: nat)
    returns (es: seq<LogEntry>, tail: seq<byte>)
    requires Readable(fmt, data, h, b, e)
    ensures History(fmt, h) && b <= e <= |h| && AllWritable(fmt, es) && |es| == e - b
    ensures |StoredAt(fmt, h, b, e)| == |es|
    ensures |data| >= HEADER_LEN && data[HEADER_LEN..] == EncodeAll(fmt, es) + tail
    ensures forall i :: 0 <= i < |es| ==> StoredAt(fmt, h, b, e)[i] == HEADER_LEN + LengthOf(fmt, es, i)
    ensures forall i :: 0 <= i < |es| ==> es[i] == h[b + i]
  {
    hide Writable, EncodeAll;
    SliceWritable(fmt, h, b, e);
    es := Slice(h, b, e);
    tail := data[HEADER_LEN + |EncodeAll(fmt, es)|..];
  }

  lemma {:induction false} AfterIs(data: seq<byte>, rest: seq<byte>, k: nat)
    requires |data| >= HEADER_LEN && data[HEADER_LEN..] == rest && k <= |rest|
    ensures After(data, HEADER_LEN + k) == rest[k..]
  {
  }

  lemma {:induction false} ClosedReadable(fmt: Format, d: Directory, h: seq<LogEntry>, b: nat, e: nat)
    requires History(fmt, h) && ClosedOk(fmt, d, h, b, e)
    ensures b in d.segs && Readable(fmt, d.segs[b].data, h, b, e)
  {
    hide History, Stored, StoredAt;
    var data, s := d.segs[b].data, Stored(fmt, h, b, e);
    assert data[HEADER_LEN..HEADER_LEN + |s|] == data[HEADER_LEN..][..|s|];
  }

  lemma {:induction false} FullReadable(fmt: Format, f: SegFile, h: seq<LogEntry>, t: nat)
    requires History(fmt, h) && t <= |h| && Full(fmt, f, h, t)
    ensures Readable(fmt, f.data, h, t, |h|)
  {
    hide History, Stored, HasHeader;
    var s := Stored(fmt, h, t, |h|);
    assert f.data[HEADER_LEN..HEADER_LEN + |s|] == f.data[HEADER_LEN..][..|s|];
  }

  /** Why reading at an indexed position failed. */
  function ReadFailure(r: RecordRead): StorageError {
    if r.UnexpectedEof? then Io else Corrupted
  }

  // ---- what reading does, whatever the files hold ----

  /** Entries read so far, followed by what reading on gives. */
  function Continued(before: seq<LogEntry>, r: Result<seq<LogEntry>, StorageError>): Result<seq<LogEntry>, StorageError>
  {
    match r
    case Ok(es) => Ok(before + es)
    case Err(e) => Err(e)
  }

  /** Reading the records of the offsets from `start` up to `end` at their positions, until one is not as it should. */
  function ReadOn(fmt: Format, data: seq<byte>, base: nat, positions: seq<nat>, start: nat,
                  end: nat): Result<seq<LogEntry>, StorageError>
    requires base <= start
    decreases end - start
  {
    if start >= end || start - base >= |positions| then Ok([])
    else
      var read := ParseRecord(fmt, After(data, positions[start - base]));
      if !read.Entry? then Err(ReadFailure(read))
      else if read.entry.offset != start then Err(Corrupted)
      else Continued([read.entry], ReadOn(fmt, data, base, positions, start + 1, end))
  }

  /**
   * The closed segments one after the other, from the first that reaches `from` to the last that starts below `to`. A
   * file that is gone cannot be opened.
   */
  function ReadSegments(fmt: Format, d: Directory, closed: seq<ClosedSegment>, from: nat,
                        to: nat): Result<seq<LogEntry>, StorageError>
    decreases |closed|
  {
    if closed == [] then Ok([])
    else if closed[0].lastOffset < from then ReadSegments(fmt, d, closed[1..], from, to)
    else if closed[0].baseOffset >= to then Ok([])
    else if closed[0].baseOffset !in d.segs then Err(Io)
    else
      var seg := closed[0];
      match ReadOn(fmt, FileOf(d, seg.baseOffset).data, seg.baseOffset, seg.positions, Max(from, seg.baseOffset),
                   Min(to, seg.lastOffset + 1))
      case Err(e) => Err(e)
      case Ok(es) => Continued(es, ReadSegments(fmt, d, closed[1..], from, to))
  }

  /** The active segment, as far as the range reaches into it. */
  function ReadActive(fmt: Format, s: LogState, from: nat, to: nat): Result<seq<LogEntry>, StorageError> {
    if s.active.None? then Ok([])
    else
      var a := s.active.value;
      if a.baseOffset < to && a.positions != [] && a.baseOffset + |a.positions| > from then
        ReadOn(fmt, FileOf(s.disk, a.baseOffset).data, a.baseOffset, a.positions, Max(from, a.baseOffset),
               Min(to, a.baseOffset + |a.positions|))
      else Ok([])
  }

  /** A range read of a log in any state. */
  function ReadOf(fmt: Format, s: LogState, from: u64, to: Option<u64>): Result<seq<LogEntry>, StorageError> {
    if to.Some? && to.value <= from then Ok([])
    else if from >= s.nextOffset then Ok([])
    else if FullyEvicted(s.closed, s.active, s.nextOffset) then Err(RetentionExpired(from, None))
    else
      var earliest := EarliestRaw(s.closed, s.active);
      if earliest.Some? && from < earliest.value then Err(RetentionExpired(from, Some(earliest.value)))
      else
        var end := if to.Some? then to.value else U64_LIMIT - 1;
        match ReadSegments(fmt, s.disk, s.closed, from, end)
        case Err(e) => Err(e)
        case Ok(es) => Continued(es, ReadActive(fmt, s, from, end))
  }

  lemma ContinuedTwice(a: seq<LogEntry>, b: seq<LogEntry>, r: Result<seq<LogEntry>, StorageError>)
    ensures Continued(a, Continued(b, r)) == Continued(a + b, r)
    ensures Continued([], r) == r
  {
    if r.Ok? {
      assert a + (b + r.value) == (a + b) + r.value && [] + r.value == r.value;
    }
  }

  /** Where the record at position `i` of a file ends. */
  function EndAt(fmt: Format, data: seq<byte>, positions: seq<nat>, i: nat): nat
    requires i < |positions|
  {
    var read := ParseRecord(fmt, After(data, positions[i]));
    if read.Entry? then positions[i] + read.consumed else positions[i]
  }

  /** The inner loop of a range read over one segment; the file's cursor is left behind the last record. */
  method ReadEntries(fmt: Format, data: seq<byte>, base: nat, positions: seq<nat>, start: nat, end: nat,
                     before: seq<LogEntry>)
    returns (r: Result<seq<LogEntry>, StorageError>, cursor: nat)
    requires base <= start
    ensures r == Continued(before, ReadOn(fmt, data, base, positions, start, end))
    ensures r.Ok? && start < end <= base + |positions| ==> cursor == EndAt(fmt, data, positions, end - 1 - base)
  {
    hide ParseRecord, After;
    var entries := before;
    cursor := 0;
    var offset := start;
    while offset < end
      invariant base <= start <= offset && (start <= end ==> offset <= end)
      invariant start < offset <= base + |positions| ==> cursor == EndAt(fmt, data, positions, offset - 1 - base)
      invariant Continued(entries, ReadOn(fmt, data, base, positions, offset, end)) ==
                Continued(before, ReadOn(fmt, data, base, positions, start, end))
      decreases end - offset
    {
      var i := offset - base;
      if i >= |positions| {
        break;
      }
      var read;
      read, cursor := ReadRecord(fmt, data, positions[i]);
      if !read.Entry? {
        return Err(ReadFailure(read)), cursor;
      }
      if read.entry.offset != offset {
        return Err(Corrupted), cursor;
      }
      ContinuedTwice(entries, [read.entry], ReadOn(fmt, data, base, positions, offset + 1, end));
      entries := entries + [read.entry];
      offset := offset + 1;
    }
    assert entries + [] == entries;
    return Ok(entries), cursor;
  }

  lemma {:induction false} StoredAtLength(fmt: Format, h: seq<LogEntry>, b: nat, e: nat)
    requires History(fmt, h) && b <= e <= |h|
    ensures |StoredAt(fmt, h, b, e)| == e - b
  {
  }

  // ---- what a range read must answer ----

  /** The slice of the history, with the answers for empty ranges, the tail and evicted offsets in the code's order. */
  function RangeOf(h: seq<LogEntry>, first: nat, from: u64, to: Option<u64>): Result<seq<LogEntry>, StorageError> {
    if to.Some? && to.value <= from then Ok([])
    else if from >= |h| then Ok([])
    else if first >= |h| then Err(RetentionExpired(from, None))
    else if from < first then Err(RetentionExpired(from, Some(first)))
    else Ok(h[from..if to.Some? then Min(to.value, |h|) else |h|])
  }

  predicate FullyEvicted(closed: seq<ClosedSegment>, active: Option<ActiveSegment>, nextOffset: nat) {
    closed == [] && (active.None? || active.value.positions == []) && nextOffset > 0
  }

  function EarliestRaw(closed: seq<ClosedSegment>, active: Option<ActiveSegment>): Option<nat> {
    if closed != [] then Some(closed[0].baseOffset)
    else if active.Some? && active.value.positions != [] then Some(active.value.baseOffset)
    else None
  }

  function LatestRaw(closed: seq<ClosedSegment>, active: Option<ActiveSegment>, nextOffset: nat): Option<int> {
    if active.Some? && active.value.positions != [] then Some(active.value.baseOffset + |active.value.positions| - 1)
    else if closed != [] then Some(closed[|closed| - 1].lastOffset)
    else if nextOffset > 0 then Some(nextOffset - 1)
    else None
  }

  /** What the memory says of the window: it starts at the first cut, and the newest offset survives full eviction. */
  lemma {:induction false} WindowFacts(fmt: Format, s: LogState, h: seq<LogEntry>, n: nat)
    requires LogOk(fmt, s, h, n)
    ensures First(s) <= Last(CutsOf(s)) <= |h|
    ensures FullyEvicted(s.closed, s.active, s.nextOffset) <==> First(s) == |h| && |h| > 0
    ensures EarliestRaw(s.closed, s.active) == if First(s) == |h| then None else Some(First(s))
    ensures LatestRaw(s.closed, s.active, s.nextOffset) == if |h| > 0 then Some(|h| - 1) else None
    ensures s.active.Some? ==>
        s.active.value.baseOffset == Last(CutsOf(s)) && |s.active.value.positions| == |h| - Last(CutsOf(s))
    ensures s.active.None? ==> Last(CutsOf(s)) == |h|
  {
    hide LogOk, DiskOk, TailMatches, ClosedMatches, History, StoredAt, AllClosedMatch, AllClosedOk;
    LogParts(fmt, s, h, n);
    TailFacts(fmt, s, h);
    FirstAtMostLast(fmt, s.disk, h, CutsOf(s), n);
    if s.closed != [] {
      MatchAt(fmt, s.disk, h, s.closed, CutsOf(s), 0);
      MatchAt(fmt, s.disk, h, s.closed, CutsOf(s), |s.closed| - 1);
    }
  }

  lemma {:induction false} ClosedFacts(fmt: Format, s: LogState, h: seq<LogEntry>, n: nat, i: nat)
    requires LogOk(fmt, s, h, n) && i < |s.closed|
    ensures History(fmt, h)
    ensures var b, e := CutsOf(s)[i], CutsOf(s)[i + 1];
            && s.closed[i].baseOffset == b < e == s.closed[i].lastOffset + 1 <= Last(CutsOf(s)) <= |h|
            && s.closed[i].positions == StoredAt(fmt, h, b, e)
            && b in s.disk.segs && Readable(fmt, s.disk.segs[b].data, h, b, e)
  {
    hide LogOk, DiskOk, TailMatches, History, StoredAt, AllClosedMatch, ClosedOk, Readable, CutsOf, AllClosedOk;
    var cuts := CutsOf(s);
    LogParts(fmt, s, h, n);
    MatchAt(fmt, s.disk, h, s.closed, cuts, i);
    ClosedAt(fmt, s.disk, h, cuts, n, i);
    ClosedReadable(fmt, s.disk, h, cuts[i], cuts[i + 1]);
  }

  lemma {:induction false} ActiveReadable(fmt: Format, s: LogState, h: seq<LogEntry>, n: nat)
    requires LogOk(fmt, s, h, n) && s.active.Some?
    ensures History(fmt, h)
    ensures var t := Last(CutsOf(s));
            && t <= |h| && s.active.value.baseOffset == t && t in s.disk.segs
            && Readable(fmt, s.disk.segs[t].data, h, t, |h|) && s.active.value.positions == StoredAt(fmt, h, t, |h|)
  {
    hide LogOk, DiskOk, History, StoredAt, AllClosedMatch, Readable, TailMatches, Full, AllClosedOk;
    LogParts(fmt, s, h, n);
    TailFacts(fmt, s, h);
    FullReadable(fmt, s.disk.segs[Last(CutsOf(s))], h, Last(CutsOf(s)));
  }

  lemma {:induction false} HistoryIsConsecutive(fmt: Format, h: seq<LogEntry>)
    requires History(fmt, h)
    ensures Consecutive(h, 0)
  {
  }

  /** Stitching the closed segments. */
  method ReadClosed(fmt: Format, s: LogState, from: nat, effectiveTo: nat)
    returns (r: Result<seq<LogEntry>, StorageError>)
    ensures r == ReadSegments(fmt, s.disk, s.closed, from, effectiveTo)
  {
    hide ReadOn;
    var entries: seq<LogEntry> := [];
    assert s.closed[0..] == s.closed;
    ContinuedTwice([], [], ReadSegments(fmt, s.disk, s.closed, from, effectiveTo));
    for i := 0 to |s.closed|
      invariant Continued(entries, ReadSegments(fmt, s.disk, s.closed[i..], from, effectiveTo)) ==
                ReadSegments(fmt, s.disk, s.closed, from, effectiveTo)
    {
      assert s.closed[i..][0] == s.closed[i] && s.closed[i..][1..] == s.closed[i + 1..];
      var seg := s.closed[i];
      if seg.lastOffset < from {
        continue;
      }
      if seg.baseOffset >= effectiveTo {
        assert entries + [] == entries;
        return Ok(entries);
      }
      if seg.baseOffset !in s.disk.segs {
        return Err(Io);
      }
      var start := Max(from, seg.baseOffset);
      var end := Min(effectiveTo, seg.lastOffset + 1);
      var read, _ := ReadEntries(fmt, FileOf(s.disk, seg.baseOffset).data, seg.baseOffset, seg.positions, start, end,
                                 entries);
      ghost var on := ReadOn(fmt, FileOf(s.disk, seg.baseOffset).data, seg.baseOffset, seg.positions, start, end);
      if read.Err? {
        return read;
      }
      ContinuedTwice(entries, on.value, ReadSegments(fmt, s.disk, s.closed[i + 1..], from, effectiveTo));
      entries := read.value;
    }
    assert entries + [] == entries;
    return Ok(entries);
  }

  /** The offset a range ends at, if it reaches into the active segment. */
  function ActiveEnd(s: LogState, from: u64, to: Option<u64>): Option<nat> {
    var end := if to.Some? then to.value else U64_LIMIT - 1;
    if s.active.Some? && from < end && s.active.value.positions != [] && s.active.value.baseOffset < end
       && from < s.active.value.baseOffset + |s.active.value.positions|
    then Some(Min(end, s.active.value.baseOffset + |s.active.value.positions|))
    else None
  }

  /**
   * `cursor` is where a range read leaves the active file's handle, if it read there: behind the last record, if all
   * went well.
   */
  method ReadRange(fmt: Format, s: LogState, from: u64, to: Option<u64>)
    returns (r: Result<seq<LogEntry>, StorageError>, cursor: Option<nat>)
    ensures r == ReadOf(fmt, s, from, to)
    ensures cursor.Some? ==> s.active.Some?
    ensures r.Ok? && from < s.nextOffset ==>
              match ActiveEnd(s, from, to)
              case None => cursor.None?
              case Some(end) =>
                var a := s.active.value;
                cursor == Some(EndAt(fmt, FileOf(s.disk, a.baseOffset).data, a.positions, end - 1 - a.baseOffset))
  {
    hide ReadOn, ReadSegments, EndAt;
    cursor := None;
    if to.Some? && to.value <= from {
      return Ok([]), None;
    }
    if from >= s.nextOffset {
      return Ok([]), None;
    }
    if FullyEvicted(s.closed, s.active, s.nextOffset) {
      return Err(RetentionExpired(from, None)), None;
    }
    var earliest := EarliestRaw(s.closed, s.active);
    if earliest.Some? && from < earliest.value {
      return Err(RetentionExpired(from, Some(earliest.value))), None;
    }
    var effectiveTo: nat := if to.Some? then to.value else U64_LIMIT - 1;
    var read := ReadClosed(fmt, s, from, effectiveTo);
    if read.Err? {
      return read, None;
    }
    var entries := read.value;
    if s.active.Some? {
      var a := s.active.value;
      if a.baseOffset < effectiveTo && a.positions != [] && a.baseOffset + |a.positions| > from {
        var start := Max(from, a.baseOffset);
        var end := Min(effectiveTo, a.baseOffset + |a.positions|);
        var more, at := ReadEntries(fmt, FileOf(s.disk, a.baseOffset).data, a.baseOffset, a.positions, start, end,
                                    entries);
        return more, Some(at);
      }
    }
    assert entries + [] == entries;
    return Ok(entries), None;
  }

  // ---- one entry ----

  /** Which of the closed segments holds the offset. */
  function FindClosed(closed: seq<ClosedSegment>, o: nat): Option<ClosedSegment> {
    if closed == [] then None
    else if closed[0].baseOffset <= o <= closed[0].lastOffset then Some(closed[0])
    else FindClosed(closed[1..], o)
  }

  function RecordIn(fmt: Format, d: Directory, base: nat, positions: seq<nat>, o: nat): RecordRead {
    if o < base || o - base >= |positions| then UnexpectedEof
    else ParseRecord(fmt, After(FileOf(d, base).data, positions[o - base]))
  }

  /** What the file has at the position the log's memory names for an offset. */
  function ReadAt(fmt: Format, s: LogState, o: nat): RecordRead {
    var c := FindClosed(s.closed, o);
    if c.Some? then RecordIn(fmt, s.disk, c.value.baseOffset, c.value.positions, o)
    else if s.active.Some? then RecordIn(fmt, s.disk, s.active.value.baseOffset, s.active.value.positions, o)
    else UnexpectedEof
  }

  /** The entry at an offset, as the log's memory and its files have it. */
  function EntryAt(fmt: Format, s: LogState, o: nat): Option<LogEntry> {
    var r := ReadAt(fmt, s, o);
    if r.Entry? then Some(r.entry) else None
  }

  lemma {:induction false} FindsClosed(closed: seq<ClosedSegment>, o: nat, i: nat)
    requires i < |closed| && closed[i].baseOffset <= o <= closed[i].lastOffset
    requires forall j :: 0 <= j < i ==> closed[j].lastOffset < o
    ensures FindClosed(closed, o) == Some(closed[i])
    decreases i
  {
    if i > 0 {
      FindsClosed(closed[1..], o, i - 1);
    }
  }

  lemma {:induction false} FindsNone(closed: seq<ClosedSegment>, o: nat)
    requires forall j :: 0 <= j < |closed| ==> closed[j].lastOffset < o
    ensures FindClosed(closed, o) == None
    decreases |closed|
  {
    if closed != [] {
      FindsNone(closed[1..], o);
    }
  }

  lemma {:induction false} RecordInIs(fmt: Format, d: Directory, h: seq<LogEntry>, b: nat, e: nat, o: nat)
    requires fmt.Lawful() && b in d.segs && Readable(fmt, d.segs[b].data, h, b, e) && History(fmt, h)
    requires b <= o < e <= |h|
    ensures RecordIn(fmt, d, b, StoredAt(fmt, h, b, e), o).Entry?
    ensures RecordIn(fmt, d, b, StoredAt(fmt, h, b, e), o).entry == h[o]
  {
    hide History, StoredAt, Readable, ParseRecord, After;
    StoredAtLength(fmt, h, b, e);
    ReadStored(fmt, d.segs[b].data, h, b, e, o - b);
  }

  /** Every entry of the retained window reads back. */
  lemma {:induction false} EntryAtIs(fmt: Format, s: LogState, h: seq<LogEntry>, n: nat, o: nat)
    requires fmt.Lawful() && LogOk(fmt, s, h, n) && First(s) <= o < |h|
    ensures EntryAt(fmt, s, o) == Some(h[o])
  {
    hide LogOk, Readable, StoredAt, History, CutsOf, RecordIn, FindClosed;
    WindowFacts(fmt, s, h, n);
    var cuts := CutsOf(s);
    CutsBefore(fmt, s, h, n);
    if o < Last(cuts) {
      var i := SegmentOf(s.closed, cuts, o);
      ClosedFacts(fmt, s, h, n, i);
      FindsClosed(s.closed, o, i);
      RecordInIs(fmt, s.disk, h, cuts[i], cuts[i + 1], o);
    } else {
      FindsNone(s.closed, o);
      ActiveReadable(fmt, s, h, n);
      RecordInIs(fmt, s.disk, h, Last(cuts), |h|, o);
    }
  }

  /** The closed segments end where the next one starts. */
  lemma {:induction false} CutsBefore(fmt: Format, s: LogState, h: seq<LogEntry>, n: nat)
    requires LogOk(fmt, s, h, n)
    ensures forall i :: 0 <= i < |s.closed| ==> s.closed[i].lastOffset + 1 == CutsOf(s)[i + 1] <= Last(CutsOf(s))
    ensures forall i :: 0 <= i < |s.closed| ==> s.closed[i].baseOffset == CutsOf(s)[i]
    ensures forall i, j :: 0 <= i < j < |CutsOf(s)| ==> CutsOf(s)[i] < CutsOf(s)[j]
  {
    hide LogOk, Readable, StoredAt, History, CutsOf, AllClosedOk, DiskOk, AllClosedMatch, TailMatches;
    LogParts(fmt, s, h, n);
    var closed, cuts := s.closed, CutsOf(s);
    forall i | 0 <= i < |closed|
      ensures closed[i].lastOffset + 1 == cuts[i + 1] && closed[i].lastOffset < Last(cuts)
      ensures closed[i].baseOffset == cuts[i]
    {
      ClosedFacts(fmt, s, h, n, i);
    }
    forall i, j | 0 <= i < j < |CutsOf(s)|
      ensures CutsOf(s)[i] < CutsOf(s)[j]
    {
      CutsIncrease(fmt, s.disk, h, CutsOf(s), i, j);
    }
  }

  lemma {:induction false} SegmentOf(closed: seq<ClosedSegment>, cuts: seq<nat>, o: nat) returns (i: nat)
    requires |cuts| == |closed| + 1 && cuts[0] <= o < Last(cuts)
    requires forall i :: 0 <= i < |closed| ==>
        closed[i].lastOffset + 1 == cuts[i + 1] && closed[i].baseOffset == cuts[i]
    requires forall i, j :: 0 <= i < j < |cuts| ==> cuts[i] < cuts[j]
    ensures i < |closed| && closed[i].baseOffset <= o <= closed[i].lastOffset
    ensures forall j :: 0 <= j < i ==> closed[j].lastOffset < o
  {
    i := 0;
    while o >= cuts[i + 1]
      invariant i < |closed| && cuts[i] <= o
      decreases |closed| - i
    {
      i := i + 1;
    }
    forall j | 0 <= j < i
      ensures closed[j].lastOffset < o
    {
      assert cuts[j + 1] <= cuts[i];
    }
  }

  // ---- a range read is reading each offset in turn ----

  /** The memory's segments follow one another and name a position for each of their offsets. */
  ghost predicate Stitched(s: LogState) {
    var cuts := CutsOf(s);
    && (forall i :: 0 <= i < |s.closed| ==>
          && s.closed[i].lastOffset + 1 == cuts[i + 1] && cuts[i] < cuts[i + 1]
          && |s.closed[i].positions| == cuts[i + 1] - cuts[i])
    && (s.active.Some? ==> s.nextOffset == s.active.value.baseOffset + |s.active.value.positions|)
  }

  /** The entries at the offsets from `from` up to `to`, each read on its own; or the first failure. */
  function Collected(fmt: Format, s: LogState, from: nat, to: nat): Result<seq<LogEntry>, StorageError>
    decreases to - from
  {
    if from >= to then Ok([])
    else
      var r := ReadAt(fmt, s, from);
      if !r.Entry? then Err(ReadFailure(r))
      else if r.entry.offset != from then Err(Corrupted)
      else Continued([r.entry], Collected(fmt, s, from + 1, to))
  }

  lemma {:induction false} CollectedSplit(fmt: Format, s: LogState, from: nat, mid: nat, to: nat)
    requires from <= mid <= to
    ensures Collected(fmt, s, from, to) ==
            match Collected(fmt, s, from, mid)
            case Err(e) => Err(e)
            case Ok(es) => Continued(es, Collected(fmt, s, mid, to))
    decreases mid - from
  {
    hide ReadAt;
    if from == mid {
      ContinuedTwice([], [], Collected(fmt, s, mid, to));
    } else {
      CollectedSplit(fmt, s, from + 1, mid, to);
      var r := ReadAt(fmt, s, from);
      var first := Collected(fmt, s, from + 1, mid);
      if r.Entry? && first.Ok? {
        ContinuedTwice([r.entry], first.value, Collected(fmt, s, mid, to));
      }
    }
  }

  /** Reading on in a segment is reading its offsets each on its own. */
  lemma {:induction false} ReadOnIsCollected(fmt: Format, s: LogState, base: nat, positions: seq<nat>, start: nat,
                                             end: nat)
    requires base <= start && end <= base + |positions|
    requires forall o :: start <= o < end ==> ReadAt(fmt, s, o) == RecordIn(fmt, s.disk, base, positions, o)
    ensures ReadOn(fmt, FileOf(s.disk, base).data, base, positions, start, end) == Collected(fmt, s, start, end)
    decreases end - start
  {
    hide ReadAt, ParseRecord, After;
    if start < end {
      assert ReadAt(fmt, s, start) == RecordIn(fmt, s.disk, base, positions, start);
      ReadOnIsCollected(fmt, s, base, positions, start + 1, end);
    }
  }

  lemma {:induction false} StitchedCuts(s: LogState, i: nat, j: nat)
    requires Stitched(s) && i < j < |CutsOf(s)|
    ensures CutsOf(s)[i] < CutsOf(s)[j]
    decreases j
  {
    if i < j - 1 {
      StitchedCuts(s, i, j - 1);
    }
  }

  lemma {:induction false} ReadsInSegment(fmt: Format, s: LogState, i: nat, o: nat)
    requires Stitched(s) && i < |s.closed| && CutsOf(s)[i] <= o < CutsOf(s)[i + 1]
    ensures ReadAt(fmt, s, o) == RecordIn(fmt, s.disk, s.closed[i].baseOffset, s.closed[i].positions, o)
  {
    hide RecordIn, FindClosed;
    forall j | 0 <= j < i
      ensures s.closed[j].lastOffset < o
    {
      if j + 1 < i {
        StitchedCuts(s, j + 1, i);
      }
    }
    FindsClosed(s.closed, o, i);
  }

  lemma {:induction false} ReadsInActive(fmt: Format, s: LogState, o: nat)
    requires Stitched(s) && s.active.Some? && Last(CutsOf(s)) <= o
    ensures ReadAt(fmt, s, o) == RecordIn(fmt, s.disk, s.active.value.baseOffset, s.active.value.positions, o)
  {
    hide RecordIn, FindClosed;
    forall j | 0 <= j < |s.closed|
      ensures s.closed[j].lastOffset < o
    {
      if j + 1 < |s.closed| {
        StitchedCuts(s, j + 1, |s.closed|);
      }
    }
    FindsNone(s.closed, o);
  }

  /** From a file that is gone nothing is collected. */
  lemma {:induction false} GoneIsAnError(fmt: Format, s: LogState, base: nat, positions: seq<nat>, start: nat, end: nat)
    requires base !in s.disk.segs && start < end
    requires ReadAt(fmt, s, start) == RecordIn(fmt, s.disk, base, positions, start)
    ensures Collected(fmt, s, start, end) == Err(Io)
  {
    hide ReadAt;
    NothingReads(fmt);
    hide ParseRecord;
    if base <= start < base + |positions| {
      assert After([], positions[start - base]) == [];
    }
  }

  /** One closed segment of a range. */
  lemma {:induction false} SegmentInTurn(fmt: Format, s: LogState, from: nat, to: nat, i: nat)
    requires Stitched(s) && i < |s.closed| && from < to && s.closed[i].lastOffset >= from && s.closed[i].baseOffset < to
    ensures var seg := s.closed[i];
            var start, end := Max(from, CutsOf(s)[i]), Min(to, CutsOf(s)[i + 1]);
            && start < end && seg.baseOffset == CutsOf(s)[i]
            && Collected(fmt, s, start, end) ==
               if seg.baseOffset !in s.disk.segs then Err(Io)
               else ReadOn(fmt, FileOf(s.disk, seg.baseOffset).data, seg.baseOffset, seg.positions, start, end)
  {
    hide ReadAt, ReadOn, Collected, RecordIn;
    var seg := s.closed[i];
    var start, end := Max(from, CutsOf(s)[i]), Min(to, CutsOf(s)[i + 1]);
    forall o | start <= o < end
      ensures ReadAt(fmt, s, o) == RecordIn(fmt, s.disk, seg.baseOffset, seg.positions, o)
    {
      ReadsInSegment(fmt, s, i, o);
    }
    if seg.baseOffset !in s.disk.segs {
      GoneIsAnError(fmt, s, seg.baseOffset, seg.positions, start, end);
    } else {
      ReadOnIsCollected(fmt, s, seg.baseOffset, seg.positions, start, end);
    }
  }

  /** Stitching the closed segments is reading each of their offsets in the range in turn. */
  lemma {:induction false} SegmentsInTurn(fmt: Format, s: LogState, from: nat, to: nat, i: nat)
    requires Stitched(s) && i <= |s.closed| && from < to
    ensures ReadSegments(fmt, s.disk, s.closed[i..], from, to) ==
            Collected(fmt, s, Max(from, CutsOf(s)[i]), Min(to, Last(CutsOf(s))))
    decreases |s.closed| - i
  {
    hide ReadAt, ReadOn, CutsOf;
    var cuts := CutsOf(s);
    if i < |s.closed| {
      var seg := s.closed[i];
      StitchedParts(s, i);
      assert s.closed[i..][0] == seg && s.closed[i..][1..] == s.closed[i + 1..];
      SegmentsInTurn(fmt, s, from, to, i + 1);
      if seg.lastOffset >= from && seg.baseOffset < to {
        SegmentInTurn(fmt, s, from, to, i);
        var lo, mid, hi := Max(from, cuts[i]), Min(to, cuts[i + 1]), Min(to, Last(cuts));
        CollectedSplit(fmt, s, lo, mid, hi);
        CollectedNone(fmt, s, to, hi);
      }
    }
  }

  lemma {:induction false} StitchedParts(s: LogState, i: nat)
    requires Stitched(s) && i < |s.closed|
    ensures s.closed[i].baseOffset == CutsOf(s)[i] < CutsOf(s)[i + 1] == s.closed[i].lastOffset + 1 <= Last(CutsOf(s))
  {
    if i + 1 < |s.closed| {
      StitchedCuts(s, i + 1, |s.closed|);
    }
  }

  lemma CollectedNone(fmt: Format, s: LogState, from: nat, to: nat)
    ensures from >= to ==> Collected(fmt, s, from, to) == Ok([])
  {
  }

  /** The active segment's part of a range. */
  lemma {:induction false} ActiveInTurn(fmt: Format, s: LogState, from: nat, to: nat)
    requires Stitched(s) && from < to
    ensures s.active.None? ==> Last(CutsOf(s)) == s.nextOffset
    ensures Last(CutsOf(s)) <= s.nextOffset
    ensures ReadActive(fmt, s, from, to) == Collected(fmt, s, Max(from, Last(CutsOf(s))), Min(to, s.nextOffset))
  {
    hide ReadAt, ReadOn, RecordIn;
    if s.active.Some? {
      var a := s.active.value;
      var lo, hi := Max(from, a.baseOffset), Min(to, s.nextOffset);
      if lo < hi {
        forall o | lo <= o < hi
          ensures ReadAt(fmt, s, o) == RecordIn(fmt, s.disk, a.baseOffset, a.positions, o)
        {
          ReadsInActive(fmt, s, o);
        }
        ReadOnIsCollected(fmt, s, a.baseOffset, a.positions, lo, hi);
      }
    }
  }

  /**
   * A range read of a log whose memory is in order, whatever its files hold: nothing for an empty range and at the
   * tail, an error for what is evicted, and otherwise the offsets of the range read each on its own, up to the first
   * failure.
   */
  lemma {:induction false} ReadsInTurn(fmt: Format, s: LogState, from: u64, to: Option<u64>)
    requires Stitched(s)
    ensures First(s) <= s.nextOffset
    ensures ReadOf(fmt, s, from, to) ==
            if to.Some? && to.value <= from then Ok([])
            else if from >= s.nextOffset then Ok([])
            else if First(s) == s.nextOffset then Err(RetentionExpired(from, None))
            else if from < First(s) then Err(RetentionExpired(from, Some(First(s))))
            else Collected(fmt, s, from, if to.Some? then Min(to.value, s.nextOffset) else s.nextOffset)
  {
    hide ReadSegments, ReadActive, Collected;
    var cuts := CutsOf(s);
    var end := if to.Some? then to.value else U64_LIMIT - 1;
    if s.closed != [] {
      StitchedCuts(s, 0, |s.closed|);
    }
    if from < end {
      assert s.closed[0..] == s.closed;
      SegmentsInTurn(fmt, s, from, end, 0);
      ActiveInTurn(fmt, s, from, end);
      if First(s) <= from < s.nextOffset {
        Stitch(fmt, s, from, Last(cuts), end);
      }
    }
  }

  /** The two parts of a range make the whole. */
  lemma {:induction false} Stitch(fmt: Format, s: LogState, from: nat, mid: nat, end: nat)
    requires from < end && from < s.nextOffset && mid <= s.nextOffset
    ensures Collected(fmt, s, from, Min(end, s.nextOffset)) ==
            match Collected(fmt, s, from, Min(end, mid))
            case Err(e) => Err(e)
            case Ok(es) => Continued(es, Collected(fmt, s, Max(from, mid), Min(end, s.nextOffset)))
  {
    hide ReadAt;
    var hi := Min(end, s.nextOffset);
    if mid <= from {
      CollectedNone(fmt, s, from, Min(end, mid));
      ContinuedTwice([], [], Collected(fmt, s, from, hi));
    } else if end <= mid {
      CollectedNone(fmt, s, mid, hi);
      CollectedSplit(fmt, s, from, hi, hi);
    } else {
      CollectedSplit(fmt, s, from, mid, hi);
    }
  }

  /** A damaged record, or one with another offset, in the range fails the read as corruption, a short file as I/O. */
  lemma {:induction false} FailureIsReported(fmt: Format, s: LogState, from: nat, o: nat, to: nat)
    requires from <= o < to
    requires forall x :: from <= x < o ==> ReadAt(fmt, s, x).Entry? && ReadAt(fmt, s, x).entry.offset == x
    ensures var r := ReadAt(fmt, s, o);
            && (r.Unreadable? || r.EndOfSegment? || (r.Entry? && r.entry.offset != o) ==>
                  Collected(fmt, s, from, to) == Err(Corrupted))
            && (r.UnexpectedEof? ==> Collected(fmt, s, from, to) == Err(Io))
    decreases o - from
  {
    hide ReadAt;
    if from < o {
      FailureIsReported(fmt, s, from + 1, o, to);
    }
  }

  /** What a range read returns are intact records, each with the offset it stands for. */
  lemma {:induction false} CollectedAreRead(fmt: Format, s: LogState, from: nat, end: nat)
    requires Collected(fmt, s, from, end).Ok?
    ensures var es := Collected(fmt, s, from, end).value;
            && |es| == (if from < end then end - from else 0)
            && forall i :: 0 <= i < |es| ==> EntryAt(fmt, s, from + i) == Some(es[i]) && es[i].offset == from + i
    decreases end - from
  {
    hide ReadAt;
    if from < end {
      var rest := Collected(fmt, s, from + 1, end);
      CollectedAreRead(fmt, s, from + 1, end);
      var es := Collected(fmt, s, from, end).value;
      forall i | 0 <= i < |es|
        ensures EntryAt(fmt, s, from + i) == Some(es[i]) && es[i].offset == from + i
      {
        if i > 0 {
          assert es[i] == rest.value[i - 1];
        }
      }
    }
  }

  // ---- of a log in order ----

  lemma {:induction false} LogIsStitched(fmt: Format, s: LogState, h: seq<LogEntry>, n: nat)
    requires LogOk(fmt, s, h, n)
    ensures Stitched(s) && s.nextOffset == |h|
  {
    hide LogOk, Readable, StoredAt, History, CutsOf, TailMatches, DiskOk, AllClosedMatch, AllClosedOk, FullyEvicted,
      EarliestRaw, LatestRaw, Stitched;
    WindowFacts(fmt, s, h, n);
    LogParts(fmt, s, h, n);
    CutsBefore(fmt, s, h, n);
    forall i | 0 <= i < |s.closed|
      ensures |s.closed[i].positions| == CutsOf(s)[i + 1] - CutsOf(s)[i]
    {
      ClosedFacts(fmt, s, h, n, i);
      StoredAtLength(fmt, h, CutsOf(s)[i], CutsOf(s)[i + 1]);
    }
    StitchedFrom(s);
  }

  lemma StitchedFrom(s: LogState)
    requires forall i :: 0 <= i < |s.closed| ==> s.closed[i].lastOffset + 1 == CutsOf(s)[i + 1]
    requires forall i :: 0 <= i < |s.closed| ==> CutsOf(s)[i] < CutsOf(s)[i + 1]
    requires forall i :: 0 <= i < |s.closed| ==> |s.closed[i].positions| == CutsOf(s)[i + 1] - CutsOf(s)[i]
    requires s.active.Some? ==> s.nextOffset == s.active.value.baseOffset + |s.active.value.positions|
    ensures Stitched(s)
  {
    hide CutsOf;
  }

  lemma {:induction false} CollectedIs(fmt: Format, s: LogState, h: seq<LogEntry>, n: nat, from: nat, end: nat)
    requires fmt.Lawful() && LogOk(fmt, s, h, n) && First(s) <= from <= end <= |h|
    ensures Collected(fmt, s, from, end) == Ok(h[from..end])
    decreases end - from
  {
    hide LogOk, ReadAt, CutsOf;
    if from < end {
      EntryAtIs(fmt, s, h, n, from);
      OffsetAt(fmt, s, h, n, from);
      CollectedIs(fmt, s, h, n, from + 1, end);
      assert h[from..end] == [h[from]] + h[from + 1..end];
    } else {
      assert h[from..end] == [];
    }
  }

  lemma {:induction false} OffsetAt(fmt: Format, s: LogState, h: seq<LogEntry>, n: nat, o: nat)
    requires LogOk(fmt, s, h, n) && o < |h|
    ensures h[o].offset == o
  {
    hide LogOk;
    LogParts(fmt, s, h, n);
    HistoryIsConsecutive(fmt, h);
  }

  /** A range read of a log that holds `h` is the slice of the history. */
  lemma {:induction false} ReadOfIs(fmt: Format, s: LogState, h: seq<LogEntry>, n: nat, from: u64, to: Option<u64>)
    requires fmt.Lawful() && LogOk(fmt, s, h, n)
    ensures ReadOf(fmt, s, from, to) == RangeOf(h, First(s), from, to)
  {
    hide LogOk, ReadOf, Collected, CutsOf, Stitched;
    LogIsStitched(fmt, s, h, n);
    ReadsInTurn(fmt, s, from, to);
    var end := if to.Some? then Min(to.value, |h|) else |h|;
    if First(s) <= from < end {
      CollectedIs(fmt, s, h, n, from, end);
    }
  }
}
