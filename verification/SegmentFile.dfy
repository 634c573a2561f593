/** Reading, recovering and indexing one segment file. */
module SegmentFiles {
  import opened Bytes
  import opened Wrappers
  import opened EventLogPort
  import opened SegmentRecords

  /** A file's bytes and how many of them have been synced. */
  datatype SegFile = SegFile(data: seq<byte>, synced: nat)

  function Truncated(f: SegFile, len: nat): SegFile
    requires len <= |f.data|
  {
    SegFile(f.data[..len], Min(f.synced, len))
  }

  /** The bytes from `pos` on; nothing past the end. */
  function After(data: seq<byte>, pos: nat): seq<byte> {
    data[Min(pos, |data|)..]
  }

  // ---- read_record ----

  /** Read exactly `k` bytes at the cursor, or run into the end of the file. */
  method ReadExact(data: seq<byte>, cursor: nat, k: nat) returns (bytes: Option<seq<byte>>)
    ensures bytes.Some? <==> cursor + k <= |data| || (k == 0 && |data| < cursor)
    ensures bytes.Some? && cursor + k <= |data| ==> bytes.value == data[cursor..cursor + k]
    ensures bytes.Some? ==> |bytes.value| == k
  {
    if cursor + k <= |data| {
      return Some(data[cursor..cursor + k]);
    }
    return if k == 0 then Some([]) else None;
  }

  /** Field by field, with a cursor that moves over the file. */
  method ReadRecord(fmt: Format, data: seq<byte>, pos: nat) returns (r: RecordRead, cursor: nat)
    ensures r == ParseRecord(fmt, After(data, pos))
    ensures r.Entry? ==> cursor == pos + r.consumed <= |data|
  {
    hide ParseEvent, FromLittleEndian;
    ghost var s := After(data, pos);
    cursor := pos;
    var lenBuf := ReadExact(data, cursor, 4);
    if lenBuf.None? {
      return UnexpectedEof, cursor;
    }
    assert s[..4] == lenBuf.value;
    cursor := cursor + 4;
    var payloadLen := FromLittleEndian(lenBuf.value);
    if payloadLen == 0 {
      return EndOfSegment, cursor;
    }
    if payloadLen < 22 {
      return Unreadable, cursor;
    }
    var offsetBuf := ReadExact(data, cursor, 8);
    if offsetBuf.None? {
      return UnexpectedEof, cursor;
    }
    assert s[4..12] == offsetBuf.value;
    cursor := cursor + 8;
    var appendedBuf := ReadExact(data, cursor, 8);
    if appendedBuf.None? {
      return UnexpectedEof, cursor;
    }
    assert s[12..20] == appendedBuf.value;
    cursor := cursor + 8;
    var idLenBuf := ReadExact(data, cursor, 2);
    if idLenBuf.None? {
      return UnexpectedEof, cursor;
    }
    assert s[20..22] == idLenBuf.value;
    cursor := cursor + 2;
    var idLen := FromLittleEndian(idLenBuf.value);
    if idLen == 0 || idLen > MAX_PRODUCER_ID_BYTES {
      return Unreadable, cursor;
    }
    var idBuf := ReadExact(data, cursor, idLen);
    if idBuf.None? {
      return UnexpectedEof, cursor;
    }
    assert s[22..22 + idLen] == idBuf.value;
    cursor := cursor + idLen;
    var producerId := fmt.parseId(idBuf.value);
    if producerId.None? {
      return Unreadable, cursor;
    }
    var expected := (payloadLen - 22 - idLen) % U32_LIMIT;
    if expected > MAX_EVENT_CBOR {
      return Unreadable, cursor;
    }
    var eventLenBuf := ReadExact(data, cursor, 4);
    if eventLenBuf.None? {
      return UnexpectedEof, cursor;
    }
    assert s[22 + idLen..26 + idLen] == eventLenBuf.value;
    cursor := cursor + 4;
    if FromLittleEndian(eventLenBuf.value) != expected {
      return Unreadable, cursor;
    }
    assert ParseRecord(fmt, s) == ParseEvent(fmt, s, idLen, expected);
    r, cursor := ReadEvent(fmt, data, pos, cursor, offsetBuf.value, appendedBuf.value, idLen, producerId.value,
                           expected);
  }

  method ReadEvent(fmt: Format, data: seq<byte>, ghost pos: nat, start: nat,
                   offsetBuf: seq<byte>, appendedBuf: seq<byte>, idLen: nat, producerId: string, eventLen: nat)
    returns (r: RecordRead, cursor: nat)
    requires idLen < U16_LIMIT && eventLen < U32_LIMIT && start == pos + 26 + idLen <= |data|
    requires offsetBuf == data[pos + 4..pos + 12] && appendedBuf == data[pos + 12..pos + 20]
    requires fmt.parseId(data[pos..][22..22 + idLen]) == Some(producerId)
    ensures r == ParseEvent(fmt, data[pos..], idLen, eventLen)
    ensures r.Entry? ==> cursor == pos + r.consumed <= |data|
  {
    hide FromLittleEndian, LittleEndian;
    ghost var s := data[pos..];
    cursor := start;
    var cbor := ReadExact(data, cursor, eventLen);
    if cbor.None? {
      return UnexpectedEof, cursor;
    }
    assert s[26 + idLen..26 + idLen + eventLen] == cbor.value;
    cursor := cursor + eventLen;
    var crcBuf := ReadExact(data, cursor, 4);
    if crcBuf.None? {
      return UnexpectedEof, cursor;
    }
    assert s[26 + idLen + eventLen..30 + idLen + eventLen] == crcBuf.value;
    cursor := cursor + 4;
    assert s[4..20] == offsetBuf + appendedBuf && s[4..12] == offsetBuf && s[12..20] == appendedBuf;
    var hashed := offsetBuf + appendedBuf + LittleEndian(idLen, 2) + fmt.idBytes(producerId) + LittleEndian(eventLen, 4)
        + cbor.value;
    if fmt.crc32(hashed) != FromLittleEndian(crcBuf.value) {
      return Unreadable, cursor;
    }
    var event := fmt.decodeEvent(cbor.value);
    if event.None? {
      return Unreadable, cursor;
    }
    return Entry(LogEntry(LittleEndianU64(offsetBuf), LittleEndianU64(appendedBuf), producerId, event.value),
                 30 + idLen + eventLen), cursor;
  }

  /** A record's length is what its first field says. */
  lemma {:induction false} ConsumedIsPayload(fmt: Format, s: seq<byte>)
    requires ParseRecord(fmt, s).Entry?
    ensures |s| >= 4 && FromLittleEndian(s[..4]) + 8 == ParseRecord(fmt, s).consumed
  {
    if |s| >= 4 {
      FromLittleEndianBound(s[..4]);
      Pow256Values();
    }
    hide FromLittleEndian;
  }

  /** A record is determined by its own bytes. */
  lemma {:induction false} ParseOwnBytes(fmt: Format, s: seq<byte>, k: nat)
    requires ParseRecord(fmt, s).Entry? && ParseRecord(fmt, s).consumed <= k <= |s|
    ensures ParseRecord(fmt, s[..k]) == ParseRecord(fmt, s)
  {
    hide ParseRecord;
    if ParseRecord(fmt, s[..k]).UnexpectedEof? {
      EofIsShort(fmt, s, k);
    } else {
      ParseLonger(fmt, s[..k], s[k..]);
      assert s[..k] + s[k..] == s;
    }
  }

  lemma {:induction false} EofIsShort(fmt: Format, s: seq<byte>, k: nat)
    requires k <= |s| && ParseRecord(fmt, s[..k]).UnexpectedEof? && ParseRecord(fmt, s).Entry?
    ensures k < ParseRecord(fmt, s).consumed
  {
    hide FromLittleEndian, ParseEvent;
    var t := s[..k];
    if k >= 22 {
      assert t[..4] == s[..4] && t[20..22] == s[20..22];
      var idLen := FromLittleEndian(s[20..22]);
      if k >= 22 + idLen {
        assert t[22..22 + idLen] == s[22..22 + idLen];
        if k >= 26 + idLen {
          assert t[22 + idLen..26 + idLen] == s[22 + idLen..26 + idLen];
          var eventLen := FromLittleEndian(s[22 + idLen..26 + idLen]);
          assert ParseRecord(fmt, t) == ParseEvent(fmt, t, idLen, eventLen);
          EventEofIsShort(fmt, t, idLen, eventLen);
        }
      }
    }
  }

  lemma {:induction false} EventEofIsShort(fmt: Format, s: seq<byte>, idLen: nat, eventLen: nat)
    requires |s| >= 26 + idLen && fmt.parseId(s[22..22 + idLen]).Some? && idLen < U16_LIMIT && eventLen < U32_LIMIT
    requires ParseEvent(fmt, s, idLen, eventLen).UnexpectedEof?
    ensures |s| < 30 + idLen + eventLen
  {
  }

  // ---- recover_active ----

  /** What a scan of a file from `pos` finds. `overflow`: a further record exists whose offset would not fit u64. */
  datatype Scan = Scan(entries: seq<LogEntry>, starts: seq<nat>, end: nat, overflow: bool)

  function ScanFrom(fmt: Format, data: seq<byte>, pos: nat, next: nat): (r: Scan)
    requires pos <= |data|
    ensures |r.starts| == |r.entries| && pos <= r.end <= |data|
    decreases |data| - pos
  {
    match ParseRecord(fmt, data[pos..])
    case Entry(e, k) =>
      if next >= U64_LIMIT then Scan([], [], pos, true)
      else if e.offset != next then Scan([], [], pos, false)
      else
        var r := ScanFrom(fmt, data, pos + k, next + 1);
        Scan([e] + r.entries, [pos] + r.starts, r.end, r.overflow)
    case _ => Scan([], [], pos, false)
  }

  /** Prefix a scan with what was found before it. */
  function Found(entries: seq<LogEntry>, starts: seq<nat>, r: Scan): Scan {
    Scan(entries + r.entries, starts + r.starts, r.end, r.overflow)
  }

  lemma {:induction false} ScanStep(fmt: Format, data: seq<byte>, pos: nat, next: nat, entries: seq<LogEntry>,
                                    starts: seq<nat>)
    requires pos <= |data| && next < U64_LIMIT
    requires ParseRecord(fmt, data[pos..]).Entry? && ParseRecord(fmt, data[pos..]).entry.offset == next
    ensures var p := ParseRecord(fmt, data[pos..]);
            Found(entries, starts, ScanFrom(fmt, data, pos, next)) ==
            Found(entries + [p.entry], starts + [pos], ScanFrom(fmt, data, pos + p.consumed, next + 1))
  {
    hide ParseRecord;
    var p := ParseRecord(fmt, data[pos..]);
    var r := ScanFrom(fmt, data, pos + p.consumed, next + 1);
    assert entries + ([p.entry] + r.entries) == (entries + [p.entry]) + r.entries;
    assert starts + ([pos] + r.starts) == (starts + [pos]) + r.starts;
  }

  lemma {:induction false} ScanStops(fmt: Format, data: seq<byte>, pos: nat, next: nat, entries: seq<LogEntry>,
                                     starts: seq<nat>)
    requires pos <= |data|
    requires var p := ParseRecord(fmt, data[pos..]); p.Entry? ==> next < U64_LIMIT && p.entry.offset != next
    ensures Found(entries, starts, ScanFrom(fmt, data, pos, next)) == Scan(entries, starts, pos, false)
  {
    hide ParseRecord;
    assert entries + [] == entries && starts + [] == starts;
  }

  /** Recovery's loop: keep records while they read back with the offsets expected, and cut the file where they stop. */
  method RecoverActive(fmt: Format, file: SegFile, base: nat)
    returns (r: Result<(seq<nat>, nat), StorageError>, recovered: SegFile)
    requires |file.data| >= HEADER_LEN
    ensures var scan := ScanFrom(fmt, file.data, HEADER_LEN, base);
            && r == (if scan.overflow then Err(Corrupted) else Ok((scan.starts, scan.end)))
            && recovered == (if scan.overflow || scan.end == |file.data| then file else Truncated(file, scan.end))
  {
    hide ParseRecord, ScanFrom, FromLittleEndian;
    var fileLen := |file.data|;
    recovered := file;
    var positions: seq<nat> := [];
    var pos := HEADER_LEN;
    ghost var entries: seq<LogEntry> := [];
    ghost var scan := ScanFrom(fmt, file.data, HEADER_LEN, base);
    assert Found([], [], scan) == scan by {
      assert [] + scan.entries == scan.entries && [] + scan.starts == scan.starts;
    }
    while pos < fileLen
      invariant pos <= fileLen && recovered == file && |entries| == |positions|
      invariant scan == Found(entries, positions, ScanFrom(fmt, file.data, pos, base + |positions|))
      decreases fileLen - pos
    {
      var read, _ := ReadRecord(fmt, file.data, pos);
      match read {
        case Entry(entry, _) =>
          ConsumedIsPayload(fmt, file.data[pos..]);
          assert file.data[pos..pos + 4] == file.data[pos..][..4];
          var payloadLen := FromLittleEndian(file.data[pos..pos + 4]);
          if base + |positions| >= U64_LIMIT {
            assert ScanFrom(fmt, file.data, pos, base + |positions|).overflow by {
              ScanOverflows(fmt, file.data, pos, base + |positions|);
            }
            return Err(Corrupted), file;
          }
          if entry.offset != base + |positions| {
            ScanStops(fmt, file.data, pos, base + |positions|, entries, positions);
            return Ok((positions, pos)), Truncated(file, pos);
          }
          ScanStep(fmt, file.data, pos, base + |positions|, entries, positions);
          entries := entries + [entry];
          positions := positions + [pos];
          pos := pos + payloadLen + 8;
        case _ =>
          ScanStops(fmt, file.data, pos, base + |positions|, entries, positions);
          return Ok((positions, pos)), Truncated(file, pos);
      }
    }
    NothingReads(fmt);
    ScanStops(fmt, file.data, pos, base + |positions|, entries, positions);
    return Ok((positions, pos)), file;
  }

  lemma {:induction false} NothingToTruncate(file: SegFile, pos: nat)
    requires pos == |file.data| && file.synced <= pos
    ensures Truncated(file, pos) == file
  {
    assert file.data[..pos] == file.data;
  }

  lemma {:induction false} NothingReads(fmt: Format)
    ensures ParseRecord(fmt, []).UnexpectedEof?
  {
  }

  lemma {:induction false} ScanOverflows(fmt: Format, data: seq<byte>, pos: nat, next: nat)
    requires pos <= |data| && ParseRecord(fmt, data[pos..]).Entry? && next >= U64_LIMIT
    ensures ScanFrom(fmt, data, pos, next).overflow
  {
    hide ParseRecord;
  }

  /** Consecutive readable records from `pos`, with offsets from `next`. */
  ghost predicate Chain(fmt: Format, data: seq<byte>, pos: nat, next: nat, es: seq<LogEntry>)
    decreases |es|
  {
    es == [] ||
    (&& pos <= |data| && next < U64_LIMIT
     && ParseRecord(fmt, data[pos..]).Entry? && ParseRecord(fmt, data[pos..]).entry == es[0] && es[0].offset == next
     && Chain(fmt, data, pos + ParseRecord(fmt, data[pos..]).consumed, next + 1, es[1..]))
  }

  /** What a scan keeps is a chain, and every chain is a prefix of it. */
  lemma {:induction false} ScanIsLongestChain(fmt: Format, data: seq<byte>, pos: nat, next: nat, es: seq<LogEntry>)
    requires pos <= |data|
    ensures Chain(fmt, data, pos, next, ScanFrom(fmt, data, pos, next).entries)
    ensures Chain(fmt, data, pos, next, es) ==> es <= ScanFrom(fmt, data, pos, next).entries
    decreases |data| - pos
  {
    hide ParseRecord;
    var p := ParseRecord(fmt, data[pos..]);
    if p.Entry? && next < U64_LIMIT && p.entry.offset == next {
      var r := ScanFrom(fmt, data, pos + p.consumed, next + 1);
      assert ([p.entry] + r.entries)[1..] == r.entries;
      ScanIsLongestChain(fmt, data, pos + p.consumed, next + 1, if es == [] then [] else es[1..]);
      if es != [] && Chain(fmt, data, pos, next, es) {
        assert es == [es[0]] + es[1..];
      }
    }
  }

  /** Scanning what a scan kept finds the same again, and nothing to complain about. */
  lemma {:induction false} ScanIdempotent(fmt: Format, data: seq<byte>, pos: nat, next: nat)
    requires pos <= |data|
    ensures var r := ScanFrom(fmt, data, pos, next);
            ScanFrom(fmt, data[..r.end], pos, next) == r.(overflow := false)
    decreases |data| - pos
  {
    hide ParseRecord;
    var p := ParseRecord(fmt, data[pos..]);
    var r := ScanFrom(fmt, data, pos, next);
    if p.Entry? && next < U64_LIMIT && p.entry.offset == next {
      ScanIdempotent(fmt, data, pos + p.consumed, next + 1);
      ParseOwnBytes(fmt, data[pos..], r.end - pos);
      assert data[..r.end][pos..] == data[pos..][..r.end - pos];
    } else {
      assert data[..r.end][pos..] == [];
      NothingReads(fmt);
    }
  }

  /** Offsets run from `base`. */
  ghost predicate Consecutive(es: seq<LogEntry>, base: nat) {
    forall i :: 0 <= i < |es| ==> es[i].offset == base + i
  }

  /** Nothing after the records reads as the record that would come next. */
  ghost predicate Ends(fmt: Format, tail: seq<byte>, next: nat) {
    ParseRecord(fmt, tail).Entry? ==> next < U64_LIMIT && ParseRecord(fmt, tail).entry.offset != next
  }

  /** A scan of complete records followed by anything that does not continue them finds exactly those records. */
  lemma {:induction false} ScanOfRecords(fmt: Format, front: seq<byte>, es: seq<LogEntry>, tail: seq<byte>, base: nat)
    requires fmt.Lawful() && AllWritable(fmt, es) && Consecutive(es, base)
    requires Ends(fmt, tail, base + |es|)
    ensures var data := front + EncodeAll(fmt, es) + tail;
            var r := ScanFrom(fmt, data, |front|, base);
            && r.entries == es && r.end == |front| + |EncodeAll(fmt, es)| && !r.overflow
            && |r.starts| == |es|
            && (forall i :: 0 <= i < |es| ==> r.starts[i] == |front| + LengthOf(fmt, es, i))
    decreases |es|
  {
    hide ParseRecord, RecordBytes, Writable;
    var data := front + EncodeAll(fmt, es) + tail;
    if es == [] {
      assert data[|front|..] == tail;
    } else {
      var first := RecordBytes(fmt, es[0]);
      var rest := EncodeAll(fmt, es[1..]) + tail;
      assert data[|front|..] == first + rest;
      ParseWritten(fmt, es[0], rest);
      assert data == (front + first) + EncodeAll(fmt, es[1..]) + tail;
      ScanOfRecords(fmt, front + first, es[1..], tail, base + 1);
      assert [es[0]] + es[1..] == es;
      LengthsShift(fmt, es);
    }
  }

  lemma {:induction false} LengthsShift(fmt: Format, es: seq<LogEntry>)
    requires AllWritable(fmt, es) && es != []
    ensures LengthOf(fmt, es, 0) == 0
    ensures AllWritable(fmt, es[1..])
    ensures forall i :: 0 < i < |es| ==>
        LengthOf(fmt, es, i) == |RecordBytes(fmt, es[0])| + LengthOf(fmt, es[1..], i - 1)
  {
    hide RecordBytes, Writable;
    forall i | 0 < i < |es|
      ensures LengthOf(fmt, es, i) == |RecordBytes(fmt, es[0])| + LengthOf(fmt, es[1..], i - 1)
    {
      assert es[..i][1..] == es[1..][..i - 1];
    }
  }

  // ---- a file whose last write was interrupted ----

  /** How many complete records lie in the first `len` bytes. */
  function Whole(fmt: Format, es: seq<LogEntry>, len: nat): (m: nat)
    requires AllWritable(fmt, es)
    ensures m <= |es|
    decreases |es|
  {
    if es == [] || len < |RecordBytes(fmt, es[0])| then 0
    else 1 + Whole(fmt, es[1..], len - |RecordBytes(fmt, es[0])|)
  }

  /** The first `len` bytes of some records and their sentinel. */
  function Torn(fmt: Format, es: seq<LogEntry>, len: nat): seq<byte>
    requires AllWritable(fmt, es) && len <= |EncodeAll(fmt, es)| + 4
  {
    (EncodeAll(fmt, es) + SENTINEL)[..len]
  }

  /** What is left behind the complete records. */
  function Leftover(fmt: Format, es: seq<LogEntry>, len: nat): seq<byte>
    requires AllWritable(fmt, es) && len <= |EncodeAll(fmt, es)| + 4
    decreases |es|
  {
    if es == [] then SENTINEL[..len]
    else if len < |RecordBytes(fmt, es[0])| then RecordBytes(fmt, es[0])[..len]
    else Leftover(fmt, es[1..], len - |RecordBytes(fmt, es[0])|)
  }

  lemma {:induction false} LeftoverReads(fmt: Format, es: seq<LogEntry>, len: nat)
    requires fmt.Lawful() && AllWritable(fmt, es) && len <= |EncodeAll(fmt, es)| + 4
    ensures ParseRecord(fmt, Leftover(fmt, es, len)) ==
            if len == |EncodeAll(fmt, es)| + 4 then EndOfSegment else UnexpectedEof
    decreases |es|
  {
    hide RecordBytes, Writable;
    if es == [] {
      SentinelReads(fmt, []);
      assert SENTINEL + [] == SENTINEL && SENTINEL[..4] == SENTINEL;
    } else {
      hide ParseRecord;
      if len < |RecordBytes(fmt, es[0])| {
        TornRecord(fmt, es[0], len);
      } else {
        LeftoverReads(fmt, es[1..], len - |RecordBytes(fmt, es[0])|);
      }
    }
  }

  /** An interrupted file is its complete records and a leftover that is no record. */
  lemma {:induction false} TornIs(fmt: Format, es: seq<LogEntry>, len: nat)
    requires AllWritable(fmt, es) && len <= |EncodeAll(fmt, es)| + 4
    ensures AllWritable(fmt, es[..Whole(fmt, es, len)])
    ensures Torn(fmt, es, len) == EncodeAll(fmt, es[..Whole(fmt, es, len)]) + Leftover(fmt, es, len)
    decreases |es|
  {
    hide RecordBytes, Writable;
    var m := Whole(fmt, es, len);
    if es == [] {
      assert EncodeAll(fmt, es) + SENTINEL == SENTINEL;
    } else {
      var first := RecordBytes(fmt, es[0]);
      var rest := EncodeAll(fmt, es[1..]) + SENTINEL;
      assert EncodeAll(fmt, es) + SENTINEL == first + rest;
      if len < |first| {
        assert (first + rest)[..len] == first[..len];
      } else {
        TornIs(fmt, es[1..], len - |first|);
        assert (first + rest)[..len] == first + rest[..len - |first|];
        assert es[..m][1..] == es[1..][..m - 1] && es[..m][0] == es[0];
      }
    }
  }

  /** Records that end within the first `len` bytes are counted. */
  lemma {:induction false} WholeCovers(fmt: Format, es: seq<LogEntry>, len: nat, n: nat)
    requires AllWritable(fmt, es) && n <= |es|
    ensures LengthOf(fmt, es, n) <= len <==> n <= Whole(fmt, es, len)
    decreases |es|
  {
    hide RecordBytes, Writable;
    if n > 0 {
      LengthsShift(fmt, es);
      if len >= |RecordBytes(fmt, es[0])| {
        WholeCovers(fmt, es[1..], len - |RecordBytes(fmt, es[0])|, n - 1);
      }
      assert LengthOf(fmt, es, n) == |RecordBytes(fmt, es[0])| + LengthOf(fmt, es[1..], n - 1) by {
        assert es[..n][1..] == es[1..][..n - 1];
      }
    }
  }

  /** Reading an interrupted file at the start of any of its complete records, or where they end. */
  lemma {:induction false} ReadTorn(fmt: Format, es: seq<LogEntry>, len: nat, j: nat)
    requires fmt.Lawful() && AllWritable(fmt, es) && len <= |EncodeAll(fmt, es)| + 4
    requires j <= Whole(fmt, es, len)
    ensures LengthOf(fmt, es, j) <= len
    ensures ParseRecord(fmt, Torn(fmt, es, len)[LengthOf(fmt, es, j)..]) ==
            if j < Whole(fmt, es, len) then Entry(es[j], |RecordBytes(fmt, es[j])|)
            else if len == |EncodeAll(fmt, es)| + 4 then EndOfSegment
            else UnexpectedEof
  {
    hide ParseRecord, RecordBytes, Writable, EncodeAll, Torn, Leftover, Whole;
    var m := Whole(fmt, es, len);
    TornIs(fmt, es, len);
    WholeCovers(fmt, es, len, j);
    assert |Torn(fmt, es, len)| == len by { TornLength(fmt, es, len); }
    assert es[..m][..j] == es[..j];
    if j < m {
      RecordAt(fmt, es[..m], j, Leftover(fmt, es, len));
    } else {
      assert (EncodeAll(fmt, es[..m]) + Leftover(fmt, es, len))[LengthOf(fmt, es, j)..] == Leftover(fmt, es, len);
      LeftoverReads(fmt, es, len);
    }
  }

  lemma {:induction false} TornLength(fmt: Format, es: seq<LogEntry>, len: nat)
    requires AllWritable(fmt, es) && len <= |EncodeAll(fmt, es)| + 4
    ensures |Torn(fmt, es, len)| == len
  {
    hide EncodeAll;
  }

  /** Recovery of an interrupted file keeps exactly its complete records. */
  lemma {:induction false} ScanOfTorn(fmt: Format, header: seq<byte>, es: seq<LogEntry>, len: nat, base: nat)
    requires fmt.Lawful() && AllWritable(fmt, es) && Consecutive(es, base) && |header| == HEADER_LEN
    requires len <= |EncodeAll(fmt, es)| + 4
    ensures var m := Whole(fmt, es, len);
            && AllWritable(fmt, es[..m])
            && ScanFrom(fmt, header + Torn(fmt, es, len), HEADER_LEN, base) ==
               Scan(es[..m], Positions(fmt, es[..m]), HEADER_LEN + LengthOf(fmt, es, m), false)
  {
    hide ParseRecord, RecordBytes, Writable, EncodeAll, Torn, Leftover, Whole;
    var m := Whole(fmt, es, len);
    TornIs(fmt, es, len);
    LeftoverReads(fmt, es, len);
    var kept := es[..m];
    ScanOfRecords(fmt, header, kept, Leftover(fmt, es, len), base);
    var r := ScanFrom(fmt, header + Torn(fmt, es, len), HEADER_LEN, base);
    assert header + Torn(fmt, es, len) == header + EncodeAll(fmt, kept) + Leftover(fmt, es, len);
    assert r.starts == Positions(fmt, kept);
  }

  // ---- the index ----

  function EncodeIndex(positions: seq<u64>): (s: seq<byte>)
    ensures |s| == 8 * |positions|
  {
    if positions == [] then [] else LittleEndian(positions[0], 8) + EncodeIndex(positions[1..])
  }

  function Chunks(s: seq<byte>): seq<u64>
    requires |s| % 8 == 0
  {
    if s == [] then [] else [LittleEndianU64(s[..8])] + Chunks(s[8..])
  }

  function DecodeIndex(bytes: seq<byte>): Result<seq<u64>, StorageError> {
    if |bytes| > MAX_INDEX_BYTES || |bytes| % 8 != 0 then Err(Corrupted) else Ok(Chunks(bytes))
  }

  predicate IndexFits(positions: seq<nat>) {
    8 * |positions| <= MAX_INDEX_BYTES
  }

  lemma {:induction false} ChunksOfEncoded(positions: seq<u64>)
    ensures Chunks(EncodeIndex(positions)) == positions
    decreases |positions|
  {
    if positions != [] {
      var s := EncodeIndex(positions);
      Pow256Values();
      LittleEndianRoundTrip(positions[0], 8);
      hide LittleEndian, FromLittleEndian, Pow256;
      assert s[..8] == LittleEndian(positions[0], 8) && s[8..] == EncodeIndex(positions[1..]);
      ChunksOfEncoded(positions[1..]);
    }
  }

  /** An index reads back exactly when it is within the limit. */
  lemma {:induction false} IndexRoundTrip(positions: seq<u64>)
    ensures DecodeIndex(EncodeIndex(positions)) == if IndexFits(positions) then Ok(positions) else Err(Corrupted)
  {
    ChunksOfEncoded(positions);
  }
}
