/** The bytes of a segment file: header, records, sentinel, index. */
module SegmentRecords {
  import opened Bytes
  import opened Wrappers
  import opened EventModel
  import opened EventLogPort

  const MAGIC: seq<byte> := [0x4F, 0x54, 0x4B, 0x53]
  const VERSION: byte := 2
  const HEADER_LEN := 24
  const MAX_EVENT_CBOR := 4 * 1024 * 1024
  const MAX_PRODUCER_ID_BYTES := 256
  const MAX_INDEX_BYTES := 256 * 1024 * 1024
  const SENTINEL: seq<byte> := [0, 0, 0, 0]

  /** The encodings the record format is built on: UTF-8, CBOR and CRC-32 in the program. */
  datatype Format = Format(
    idBytes: string -> seq<byte>,
    parseId: seq<byte> -> Option<string>,
    encodeEvent: OtkEvent -> Option<seq<byte>>,
    decodeEvent: seq<byte> -> Option<OtkEvent>,
    crc32: seq<byte> -> u32)
  {
    ghost predicate Lawful() {
      && (forall id: string :: parseId(idBytes(id)) == Some(id))
      && (forall e: OtkEvent :: encodeEvent(e).Some? ==> decodeEvent(encodeEvent(e).value) == Some(e))
    }
  }

  // ---- header ----

  datatype SegmentHeader = SegmentHeader(baseOffset: u64, createdAtNs: u64)

  function HeaderBytes(h: SegmentHeader): (s: seq<byte>)
    ensures |s| == HEADER_LEN
  {
    MAGIC + [VERSION, 0, 0, 0] + LittleEndian(h.baseOffset, 8) + LittleEndian(h.createdAtNs, 8)
  }

  function LittleEndianU64(s: seq<byte>): u64
    requires |s| == 8
  {
    FromLittleEndianBound(s);
    Pow256Values();
    FromLittleEndian(s)
  }

  function ReadHeader(data: seq<byte>): Result<SegmentHeader, StorageError> {
    if |data| < HEADER_LEN then Err(Io)
    else if data[..4] != MAGIC || data[4] != VERSION then Err(Corrupted)
    else Ok(SegmentHeader(LittleEndianU64(data[8..16]), LittleEndianU64(data[16..24])))
  }

  /** The file starts with a readable header that names `base`. */
  predicate HasHeader(data: seq<byte>, base: nat) {
    ReadHeader(data).Ok? && ReadHeader(data).value.baseOffset == base
  }

  lemma {:induction false} HeaderIsLong(data: seq<byte>, base: nat)
    requires HasHeader(data, base)
    ensures |data| >= HEADER_LEN
  {
  }

  lemma {:induction false} HeaderReadsBack(h: SegmentHeader, rest: seq<byte>)
    ensures ReadHeader(HeaderBytes(h) + rest) == Ok(h)
  {
    var data := HeaderBytes(h) + rest;
    hide LittleEndian, FromLittleEndian, Pow256;
    Pow256Values();
    LittleEndianRoundTrip(h.baseOffset, 8);
    LittleEndianRoundTrip(h.createdAtNs, 8);
    assert data[..4] == MAGIC;
    assert data[8..16] == LittleEndian(h.baseOffset, 8);
    assert data[16..24] == LittleEndian(h.createdAtNs, 8);
  }

  /** Only the first 24 bytes matter to the header. */
  lemma {:induction false} HeaderOfPrefix(data: seq<byte>, k: nat)
    requires HEADER_LEN <= k <= |data|
    ensures ReadHeader(data[..k]) == ReadHeader(data)
  {
    assert data[..k][..4] == data[..4] && data[..k][8..16] == data[8..16] && data[..k][16..24] == data[16..24];
  }

  lemma {:induction false} HeaderOfLonger(data: seq<byte>, more: seq<byte>)
    requires HEADER_LEN <= |data|
    ensures ReadHeader(data + more) == ReadHeader(data)
  {
    HeaderOfPrefix(data + more, |data|);
    assert (data + more)[..|data|] == data;
  }

  // ---- one record ----

  /** The checksummed part of a record. */
  function Body(fmt: Format, e: LogEntry, cbor: seq<byte>): (s: seq<byte>)
    requires |fmt.idBytes(e.producerId)| < U16_LIMIT && |cbor| < U32_LIMIT
    ensures |s| == 22 + |fmt.idBytes(e.producerId)| + |cbor|
  {
    var id := fmt.idBytes(e.producerId);
    LittleEndian(e.offset, 8) + LittleEndian(e.appendedAtNs, 8) + LittleEndian(|id|, 2) + id + LittleEndian(|cbor|, 4)
    + cbor
  }

  /** What can be written, in the order the checks are made. */
  function Refusal(fmt: Format, producerId: string, event: OtkEvent): Option<StorageError> {
    if fmt.encodeEvent(event).None? then Some(Corrupted)
    else if |fmt.encodeEvent(event).value| > MAX_EVENT_CBOR then Some(InvalidInput)
    else if fmt.idBytes(producerId) == [] then Some(InvalidInput)
    else if |fmt.idBytes(producerId)| > MAX_PRODUCER_ID_BYTES then Some(InvalidInput)
    else None
  }

  predicate Writable(fmt: Format, e: LogEntry) {
    Refusal(fmt, e.producerId, e.event).None?
  }

  function RecordBytes(fmt: Format, e: LogEntry): (s: seq<byte>)
    requires Writable(fmt, e)
    ensures |s| > 30
  {
    var body := Body(fmt, e, fmt.encodeEvent(e.event).value);
    LittleEndian(|body|, 4) + body + LittleEndian(fmt.crc32(body), 4)
  }

  /** What reading at a position finds. */
  datatype RecordRead =
    | Entry(entry: LogEntry, consumed: nat)
    | UnexpectedEof
    | EndOfSegment
    | Unreadable

  /** Reading one record from the front of the bytes that follow a position. Lengths are u32: the subtraction wraps. */
  function ParseRecord(fmt: Format, s: seq<byte>): (r: RecordRead)
    ensures r.Entry? ==> 30 <= r.consumed <= |s|
  {
    if |s| < 4 then UnexpectedEof
    else
      var payloadLen := FromLittleEndian(s[..4]);
      if payloadLen == 0 then EndOfSegment
      else if payloadLen < 22 then Unreadable
      else if |s| < 22 then UnexpectedEof
      else
        var idLen := FromLittleEndian(s[20..22]);
        if idLen == 0 || idLen > MAX_PRODUCER_ID_BYTES then Unreadable
        else if |s| < 22 + idLen then UnexpectedEof
        else if fmt.parseId(s[22..22 + idLen]).None? then Unreadable
        else
          var expected := (payloadLen - 22 - idLen) % U32_LIMIT;
          if expected > MAX_EVENT_CBOR then Unreadable
          else if |s| < 26 + idLen then UnexpectedEof
          else if FromLittleEndian(s[22 + idLen..26 + idLen]) != expected then Unreadable
          else ParseEvent(fmt, s, idLen, expected)
  }

  /** The end of the record: event bytes and checksum. */
  function ParseEvent(fmt: Format, s: seq<byte>, idLen: nat, eventLen: nat): (r: RecordRead)
    requires |s| >= 26 + idLen && fmt.parseId(s[22..22 + idLen]).Some? && idLen < U16_LIMIT && eventLen < U32_LIMIT
    ensures r.Entry? ==> r.consumed == 30 + idLen + eventLen <= |s|
  {
    if |s| < 30 + idLen + eventLen then UnexpectedEof
    else
      var producerId := fmt.parseId(s[22..22 + idLen]).value;
      var cbor := s[26 + idLen..26 + idLen + eventLen];
      var crc := FromLittleEndian(s[26 + idLen + eventLen..30 + idLen + eventLen]);
      var hashed := s[4..20] + LittleEndian(idLen, 2) + fmt.idBytes(producerId) + LittleEndian(eventLen, 4) + cbor;
      if fmt.crc32(hashed) != crc then Unreadable
      else
        match fmt.decodeEvent(cbor)
        case None => Unreadable
        case Some(event) =>
          Entry(LogEntry(LittleEndianU64(s[4..12]), LittleEndianU64(s[12..20]), producerId, event),
                30 + idLen + eventLen)
  }

  /** A decision made on a prefix is final: more bytes change nothing once reading did not run out. */
  lemma {:induction false} ParseLonger(fmt: Format, s: seq<byte>, more: seq<byte>)
    ensures ParseRecord(fmt, s).UnexpectedEof? || ParseRecord(fmt, s + more) == ParseRecord(fmt, s)
  {
    hide ParseEvent, FromLittleEndian;
    var t := s + more;
    if |s| >= 4 {
      assert t[..4] == s[..4];
      if |s| >= 22 {
        assert t[20..22] == s[20..22];
        var idLen := FromLittleEndian(s[20..22]);
        if |s| >= 22 + idLen {
          assert t[22..22 + idLen] == s[22..22 + idLen];
          if |s| >= 26 + idLen {
            assert t[22 + idLen..26 + idLen] == s[22 + idLen..26 + idLen];
            ParseEventLonger(fmt, s, more);
          }
        }
      }
    }
  }

  lemma {:induction false} ParseEventLonger(fmt: Format, s: seq<byte>, more: seq<byte>)
    ensures forall idLen: nat, eventLen: nat ::
              |s| >= 26 + idLen && fmt.parseId(s[22..22 + idLen]).Some? && idLen < U16_LIMIT && eventLen < U32_LIMIT
              && (s + more)[22..22 + idLen] == s[22..22 + idLen] ==>
                ParseEvent(fmt, s, idLen, eventLen).UnexpectedEof?
                || ParseEvent(fmt, s + more, idLen, eventLen) == ParseEvent(fmt, s, idLen, eventLen)
  {
    var t := s + more;
    forall idLen: nat, eventLen: nat | |s| >= 26 + idLen && fmt.parseId(s[22..22 + idLen]).Some? && idLen < U16_LIMIT
                                       && eventLen < U32_LIMIT && t[22..22 + idLen] == s[22..22 + idLen]
      ensures ParseEvent(fmt, s, idLen, eventLen).UnexpectedEof?
              || ParseEvent(fmt, t, idLen, eventLen) == ParseEvent(fmt, s, idLen, eventLen)
    {
      hide FromLittleEndian;
      if |s| >= 30 + idLen + eventLen {
        assert t[26 + idLen..26 + idLen + eventLen] == s[26 + idLen..26 + idLen + eventLen];
        assert t[26 + idLen + eventLen..30 + idLen + eventLen] == s[26 + idLen + eventLen..30 + idLen + eventLen];
        assert t[4..20] == s[4..20] && t[4..12] == s[4..12] && t[12..20] == s[12..20];
      }
    }
  }

  /** Where the fields of a written record lie. */
  lemma {:induction false} FieldsOfRecord(fmt: Format, e: LogEntry, rest: seq<byte>)
    requires Writable(fmt, e)
    ensures var id, cbor := fmt.idBytes(e.producerId), fmt.encodeEvent(e.event).value;
            var s := RecordBytes(fmt, e) + rest;
            var body := Body(fmt, e, cbor);
            && s[..4] == LittleEndian(22 + |id| + |cbor|, 4)
            && s[4..12] == LittleEndian(e.offset, 8)
            && s[12..20] == LittleEndian(e.appendedAtNs, 8)
            && s[20..22] == LittleEndian(|id|, 2)
            && s[22..22 + |id|] == id
            && s[22 + |id|..26 + |id|] == LittleEndian(|cbor|, 4)
            && s[26 + |id|..26 + |id| + |cbor|] == cbor
            && s[26 + |id| + |cbor|..30 + |id| + |cbor|] == LittleEndian(fmt.crc32(body), 4)
            && s[4..20] + LittleEndian(|id|, 2) + id + LittleEndian(|cbor|, 4) + cbor == body
            && |RecordBytes(fmt, e)| == 30 + |id| + |cbor|
  {
    hide LittleEndian;
  }

  /** The numbers in a written record's fields. */
  lemma {:induction false} NumbersOfRecord(fmt: Format, e: LogEntry, rest: seq<byte>)
    requires Writable(fmt, e)
    ensures var id, cbor := fmt.idBytes(e.producerId), fmt.encodeEvent(e.event).value;
            var s := RecordBytes(fmt, e) + rest;
            && |s| >= |RecordBytes(fmt, e)| == 30 + |id| + |cbor|
            && |id| <= MAX_PRODUCER_ID_BYTES && |cbor| <= MAX_EVENT_CBOR
            && FromLittleEndian(s[..4]) == 22 + |id| + |cbor|
            && LittleEndianU64(s[4..12]) == e.offset
            && LittleEndianU64(s[12..20]) == e.appendedAtNs
            && FromLittleEndian(s[20..22]) == |id|
            && FromLittleEndian(s[22 + |id|..26 + |id|]) == |cbor|
            && FromLittleEndian(s[26 + |id| + |cbor|..30 + |id| + |cbor|]) == fmt.crc32(Body(fmt, e, cbor))
  {
    var id, cbor := fmt.idBytes(e.producerId), fmt.encodeEvent(e.event).value;
    var s := RecordBytes(fmt, e) + rest;
    FieldsOfRecord(fmt, e, rest);
    assert |id| <= MAX_PRODUCER_ID_BYTES && |cbor| <= MAX_EVENT_CBOR;
    hide *;
    Pow256Values();
    NumberReads(s[..4], 22 + |id| + |cbor|, 4);
    NumberReads(s[4..12], e.offset, 8);
    NumberReads(s[12..20], e.appendedAtNs, 8);
    NumberReads(s[20..22], |id|, 2);
    NumberReads(s[22 + |id|..26 + |id|], |cbor|, 4);
    NumberReads(s[26 + |id| + |cbor|..30 + |id| + |cbor|], fmt.crc32(Body(fmt, e, cbor)), 4);
  }

  lemma {:induction false} NumberReads(s: seq<byte>, n: nat, k: nat)
    requires s == LittleEndian(n, k) && n < Pow256(k)
    ensures FromLittleEndian(s) == n
    ensures k == 8 ==> LittleEndianU64(s) == n
  {
    hide LittleEndian, FromLittleEndian, Pow256;
    LittleEndianRoundTrip(n, k);
  }

  lemma {:induction false} ParseWrittenEvent(fmt: Format, e: LogEntry, rest: seq<byte>)
    requires fmt.Lawful() && Writable(fmt, e)
    ensures var id, cbor := fmt.idBytes(e.producerId), fmt.encodeEvent(e.event).value;
            var s := RecordBytes(fmt, e) + rest;
            && |s| >= 26 + |id| && fmt.parseId(s[22..22 + |id|]).Some?
            && ParseEvent(fmt, s, |id|, |cbor|) == Entry(e, |RecordBytes(fmt, e)|)
  {
    FieldsOfRecord(fmt, e, rest);
    NumbersOfRecord(fmt, e, rest);
    hide LittleEndian, FromLittleEndian, LittleEndianU64, Pow256, RecordBytes, Body;
  }

  /** Consistent length fields lead to the end of the record. */
  lemma {:induction false} ParseReachesEvent(fmt: Format, s: seq<byte>, idLen: nat, eventLen: nat)
    requires |s| >= 26 + idLen && 0 < idLen <= MAX_PRODUCER_ID_BYTES && eventLen <= MAX_EVENT_CBOR
    requires FromLittleEndian(s[..4]) == 22 + idLen + eventLen && FromLittleEndian(s[20..22]) == idLen
    requires fmt.parseId(s[22..22 + idLen]).Some? && FromLittleEndian(s[22 + idLen..26 + idLen]) == eventLen
    ensures ParseRecord(fmt, s) == ParseEvent(fmt, s, idLen, eventLen)
  {
    hide FromLittleEndian, ParseEvent;
  }

  /** Reading back what was written, whatever follows it. */
  lemma {:induction false} ParseWritten(fmt: Format, e: LogEntry, rest: seq<byte>)
    requires fmt.Lawful() && Writable(fmt, e)
    ensures ParseRecord(fmt, RecordBytes(fmt, e) + rest) == Entry(e, |RecordBytes(fmt, e)|)
  {
    assert 0 < |fmt.idBytes(e.producerId)| <= MAX_PRODUCER_ID_BYTES && fmt.encodeEvent(e.event).Some?
           && |fmt.encodeEvent(e.event).value| <= MAX_EVENT_CBOR;
    hide *;
    var id, cbor := fmt.idBytes(e.producerId), fmt.encodeEvent(e.event).value;
    var s := RecordBytes(fmt, e) + rest;
    NumbersOfRecord(fmt, e, rest);
    ParseWrittenEvent(fmt, e, rest);
    ParseReachesEvent(fmt, s, |id|, |cbor|);
  }

  /** A record that was cut short reads as an unexpected end of file, never as corruption. */
  lemma {:induction false} TornRecord(fmt: Format, e: LogEntry, k: nat)
    requires fmt.Lawful() && Writable(fmt, e) && k < |RecordBytes(fmt, e)|
    ensures ParseRecord(fmt, RecordBytes(fmt, e)[..k]).UnexpectedEof?
  {
    hide ParseRecord, RecordBytes;
    var s := RecordBytes(fmt, e);
    ParseLonger(fmt, s[..k], s[k..]);
    assert s[..k] + s[k..] == s == s + [];
    ParseWritten(fmt, e, []);
  }

  lemma {:induction false} SentinelReads(fmt: Format, rest: seq<byte>)
    ensures ParseRecord(fmt, SENTINEL + rest).EndOfSegment?
  {
    assert (SENTINEL + rest)[..4] == SENTINEL;
    assert SENTINEL[1..] == [0, 0, 0] && [0, 0, 0][1..] == [0, 0] && [0, 0][1..] == [0] && [0][1..] == [];
    assert FromLittleEndian([0]) == 0 && FromLittleEndian([0, 0]) == 0 && FromLittleEndian([0, 0, 0]) == 0;
  }

  // ---- several records ----

  ghost predicate AllWritable(fmt: Format, es: seq<LogEntry>) {
    forall e :: e in es ==> Writable(fmt, e)
  }

  function EncodeAll(fmt: Format, es: seq<LogEntry>): seq<byte>
    requires AllWritable(fmt, es)
  {
    if es == [] then [] else RecordBytes(fmt, es[0]) + EncodeAll(fmt, es[1..])
  }

  lemma {:induction false} EncodeAllAppend(fmt: Format, a: seq<LogEntry>, b: seq<LogEntry>)
    requires AllWritable(fmt, a + b)
    ensures AllWritable(fmt, a) && AllWritable(fmt, b)
    ensures EncodeAll(fmt, a + b) == EncodeAll(fmt, a) + EncodeAll(fmt, b)
    decreases |a|
  {
    hide RecordBytes, Writable;
    assert forall e :: e in a ==> e in a + b;
    assert forall e :: e in b ==> e in a + b;
    if a == [] {
      assert a + b == b;
    } else {
      assert (a + b)[1..] == a[1..] + b;
      EncodeAllAppend(fmt, a[1..], b);
    }
  }

  lemma {:induction false} EncodeOne(fmt: Format, e: LogEntry)
    requires Writable(fmt, e)
    ensures EncodeAll(fmt, [e]) == RecordBytes(fmt, e)
  {
    hide RecordBytes, Writable;
    assert [e][1..] == [];
  }

  /** The length of the first `i` records. */
  function LengthOf(fmt: Format, es: seq<LogEntry>, i: nat): nat
    requires AllWritable(fmt, es) && i <= |es|
  {
    |EncodeAll(fmt, es[..i])|
  }

  /** Where the records start in a segment file that holds exactly these. */
  function Positions(fmt: Format, es: seq<LogEntry>): (ps: seq<nat>)
    requires AllWritable(fmt, es)
    ensures |ps| == |es| && forall i :: 0 <= i < |ps| ==> ps[i] == HEADER_LEN + LengthOf(fmt, es, i)
  {
    seq(|es|, i requires 0 <= i < |es| => HEADER_LEN + LengthOf(fmt, es, i))
  }

  lemma {:induction false} SplitAt(fmt: Format, es: seq<LogEntry>, i: nat)
    requires AllWritable(fmt, es) && i < |es|
    ensures AllWritable(fmt, es[i + 1..])
    ensures EncodeAll(fmt, es) == EncodeAll(fmt, es[..i]) + (RecordBytes(fmt, es[i]) + EncodeAll(fmt, es[i + 1..]))
    ensures LengthOf(fmt, es, i + 1) == LengthOf(fmt, es, i) + |RecordBytes(fmt, es[i])| <= |EncodeAll(fmt, es)|
  {
    hide RecordBytes, Writable, EncodeAll;
    assert es == es[..i] + es[i..] && es[i..] == [es[i]] + es[i + 1..] && es[..i + 1] == es[..i] + [es[i]];
    EncodeAllAppend(fmt, es[..i], es[i..]);
    EncodeAllAppend(fmt, [es[i]], es[i + 1..]);
    EncodeAllAppend(fmt, es[..i], [es[i]]);
    EncodeOne(fmt, es[i]);
  }

  /** Anything that starts with these records reads back the i-th at its position. */
  lemma {:induction false} RecordAt(fmt: Format, es: seq<LogEntry>, i: nat, tail: seq<byte>)
    requires fmt.Lawful() && AllWritable(fmt, es) && i < |es|
    ensures LengthOf(fmt, es, i + 1) == LengthOf(fmt, es, i) + |RecordBytes(fmt, es[i])| <= |EncodeAll(fmt, es)|
    ensures ParseRecord(fmt, (EncodeAll(fmt, es) + tail)[LengthOf(fmt, es, i)..]) ==
            Entry(es[i], |RecordBytes(fmt, es[i])|)
  {
    hide RecordBytes, Writable, EncodeAll, ParseRecord;
    SplitAt(fmt, es, i);
    var after := EncodeAll(fmt, es[i + 1..]) + tail;
    assert (EncodeAll(fmt, es) + tail)[LengthOf(fmt, es, i)..] == RecordBytes(fmt, es[i]) + after;
    ParseWritten(fmt, es[i], after);
  }
}
