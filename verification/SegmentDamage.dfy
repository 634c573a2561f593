/** What damage to a segment file is noticed, byte by byte, and where recovery cuts the file. */
module SegmentDamage {
  import opened Bytes
  import opened Wrappers
  import opened EventLogPort
  import opened SegmentRecords
  import opened SegmentFiles

  /**
   * The first `k` bytes of `s` are a record of `e`: lengths that agree and are within bounds, the fields at their
   * places, and at the end the checksum of everything between the length and itself.
   */
  ghost predicate IsRecord(fmt: Format, s: seq<byte>, e: LogEntry, k: nat) {
    && 30 <= k <= |s|
    && FromLittleEndian(s[..4]) == k - 8
    && FromLittleEndian(s[4..12]) == e.offset
    && FromLittleEndian(s[12..20]) == e.appendedAtNs
    && var idLen := FromLittleEndian(s[20..22]);
       && 1 <= idLen <= 256 && 30 + idLen <= k <= 30 + idLen + 4_194_304
       && fmt.parseId(s[22..22 + idLen]) == Some(e.producerId)
       && FromLittleEndian(s[22 + idLen..26 + idLen]) == k - 30 - idLen
       && fmt.decodeEvent(s[26 + idLen..k - 4]) == Some(e.event)
       && FromLittleEndian(s[k - 4..k]) == fmt.crc32(s[4..22] + fmt.idBytes(e.producerId) + s[22 + idLen..k - 4])
  }

  /** The bytes the checksum is taken of are those of the record, its producer id as it is written. */
  lemma {:induction false} HashedIs(fmt: Format, s: seq<byte>, idLen: nat, eventLen: nat, id: seq<byte>)
    requires |s| >= 26 + idLen + eventLen && FromLittleEndian(s[20..22]) == idLen
    requires FromLittleEndian(s[22 + idLen..26 + idLen]) == eventLen
    ensures s[4..20] + LittleEndian(idLen, 2) + id + LittleEndian(eventLen, 4) + s[26 + idLen..26 + idLen + eventLen] ==
            s[4..22] + id + s[22 + idLen..26 + idLen + eventLen]
  {
    LittleEndianOfParsed(s[20..22]);
    LittleEndianOfParsed(s[22 + idLen..26 + idLen]);
    hide LittleEndian, FromLittleEndian;
    assert s[4..20] + s[20..22] == s[4..22];
    assert s[22 + idLen..26 + idLen] + s[26 + idLen..26 + idLen + eventLen] == s[22 + idLen..26 + idLen + eventLen];
  }

  /** What a record of `e` has in its fields, given where they lie. */
  ghost predicate Fields(fmt: Format, s: seq<byte>, idLen: nat, eventLen: nat, e: LogEntry)
    requires |s| >= 30 + idLen + eventLen
  {
    && FromLittleEndian(s[4..12]) == e.offset && FromLittleEndian(s[12..20]) == e.appendedAtNs
    && fmt.parseId(s[22..22 + idLen]) == Some(e.producerId)
    && fmt.decodeEvent(s[26 + idLen..26 + idLen + eventLen]) == Some(e.event)
    && FromLittleEndian(s[26 + idLen + eventLen..30 + idLen + eventLen]) ==
       fmt.crc32(s[4..22] + fmt.idBytes(e.producerId) + s[22 + idLen..26 + idLen + eventLen])
  }

  lemma {:induction false} EventIsFields(fmt: Format, s: seq<byte>, idLen: nat, eventLen: nat, e: LogEntry, k: nat)
    requires |s| >= 26 + idLen && fmt.parseId(s[22..22 + idLen]).Some?
    requires 1 <= idLen <= 256 && eventLen <= 4_194_304 && FromLittleEndian(s[20..22]) == idLen
    requires FromLittleEndian(s[22 + idLen..26 + idLen]) == eventLen
    ensures ParseEvent(fmt, s, idLen, eventLen) == Entry(e, k) <==>
            |s| >= 30 + idLen + eventLen && k == 30 + idLen + eventLen && Fields(fmt, s, idLen, eventLen, e)
  {
    if |s| >= 30 + idLen + eventLen {
      HashedIs(fmt, s, idLen, eventLen, fmt.idBytes(fmt.parseId(s[22..22 + idLen]).value));
    }
    hide LittleEndian, FromLittleEndian;
  }

  lemma {:induction false} RecordIsFields(fmt: Format, s: seq<byte>, idLen: nat, eventLen: nat, e: LogEntry, k: nat)
    requires |s| >= 26 + idLen && 1 <= idLen <= 256 && eventLen <= 4_194_304
    requires FromLittleEndian(s[20..22]) == idLen && FromLittleEndian(s[22 + idLen..26 + idLen]) == eventLen
    requires FromLittleEndian(s[..4]) == 22 + idLen + eventLen
    ensures IsRecord(fmt, s, e, k) <==>
            |s| >= 30 + idLen + eventLen && k == 30 + idLen + eventLen && Fields(fmt, s, idLen, eventLen, e)
  {
    hide FromLittleEndian;
  }

  lemma {:induction false} EventIsRecord(fmt: Format, s: seq<byte>, idLen: nat, eventLen: nat, e: LogEntry, k: nat)
    requires |s| >= 26 + idLen && fmt.parseId(s[22..22 + idLen]).Some?
    requires 1 <= idLen <= 256 && eventLen <= 4_194_304 && FromLittleEndian(s[20..22]) == idLen
    requires FromLittleEndian(s[22 + idLen..26 + idLen]) == eventLen
    requires FromLittleEndian(s[..4]) == 22 + idLen + eventLen
    ensures ParseEvent(fmt, s, idLen, eventLen) == Entry(e, k) <==> IsRecord(fmt, s, e, k)
  {
    hide FromLittleEndian, ParseEvent, IsRecord, Fields;
    EventIsFields(fmt, s, idLen, eventLen, e, k);
    RecordIsFields(fmt, s, idLen, eventLen, e, k);
  }

  /** Reading a record comes to its end only through length fields that agree. */
  lemma {:induction false} EntryHasFields(fmt: Format, s: seq<byte>)
    requires ParseRecord(fmt, s).Entry?
    ensures |s| >= 26 && |s| >= 26 + FromLittleEndian(s[20..22])
    ensures var idLen, payloadLen := FromLittleEndian(s[20..22]), FromLittleEndian(s[..4]);
            && 1 <= idLen <= 256 && 22 + idLen <= payloadLen <= 22 + idLen + 4_194_304
            && fmt.parseId(s[22..22 + idLen]).Some?
            && FromLittleEndian(s[22 + idLen..26 + idLen]) == payloadLen - 22 - idLen
            && ParseRecord(fmt, s) == ParseEvent(fmt, s, idLen, payloadLen - 22 - idLen)
  {
    FromLittleEndianBound(s[..4]);
    Pow256Values();
    hide FromLittleEndian, ParseEvent;
  }

  /** Length fields that agree lead to the end of the record. */
  lemma {:induction false} ReachesEvent(fmt: Format, s: seq<byte>, idLen: nat, eventLen: nat)
    requires |s| >= 26 + idLen && 1 <= idLen <= 256 && eventLen <= 4_194_304
    requires FromLittleEndian(s[..4]) == 22 + idLen + eventLen && FromLittleEndian(s[20..22]) == idLen
    requires fmt.parseId(s[22..22 + idLen]).Some? && FromLittleEndian(s[22 + idLen..26 + idLen]) == eventLen
    ensures ParseRecord(fmt, s) == ParseEvent(fmt, s, idLen, eventLen)
  {
    hide FromLittleEndian, ParseEvent, ParseRecord;
    ParseReachesEvent(fmt, s, idLen, eventLen);
  }

  lemma {:induction false} RecordHasFields(fmt: Format, s: seq<byte>, e: LogEntry, k: nat)
    requires IsRecord(fmt, s, e, k)
    ensures var idLen := FromLittleEndian(s[20..22]);
            && |s| >= 26 + idLen && 1 <= idLen <= 256 && 0 <= k - 30 - idLen <= 4_194_304
            && FromLittleEndian(s[..4]) == 22 + idLen + (k - 30 - idLen)
            && fmt.parseId(s[22..22 + idLen]).Some?
            && FromLittleEndian(s[22 + idLen..26 + idLen]) == k - 30 - idLen
  {
    hide FromLittleEndian;
  }

  /** A record reads back as `e` exactly if its bytes are a record of `e`, checksum included. */
  lemma {:induction false} EntryExactlyWhen(fmt: Format, s: seq<byte>, e: LogEntry, k: nat)
    ensures ParseRecord(fmt, s) == Entry(e, k) <==> IsRecord(fmt, s, e, k)
  {
    hide *;
    if ParseRecord(fmt, s).Entry? {
      EntryHasFields(fmt, s);
      var idLen := FromLittleEndian(s[20..22]);
      EventIsRecord(fmt, s, idLen, FromLittleEndian(s[..4]) - 22 - idLen, e, k);
    }
    if IsRecord(fmt, s, e, k) {
      RecordHasFields(fmt, s, e, k);
      var idLen := FromLittleEndian(s[20..22]);
      ReachesEvent(fmt, s, idLen, k - 30 - idLen);
      EventIsRecord(fmt, s, idLen, k - 30 - idLen, e, k);
    }
  }

  /** Four zero bytes in place of a length, and nothing else, end a segment. */
  lemma {:induction false} EndExactlyWhen(fmt: Format, s: seq<byte>)
    ensures ParseRecord(fmt, s).EndOfSegment? <==> |s| >= 4 && s[..4] == [0, 0, 0, 0]
  {
    if |s| >= 4 {
      LittleEndianOfParsed(s[..4]);
      assert s[..4] == [s[0]] + s[1..4] && s[1..4] == [s[1]] + s[2..4] && s[2..4] == [s[2]] + s[3..4];
      SentinelReads(fmt, s[4..]);
      assert s[..4] == SENTINEL ==> SENTINEL + s[4..] == s;
      ZeroIsZeros();
    }
    hide FromLittleEndian, ParseEvent;
  }

  lemma ZeroIsZeros()
    ensures LittleEndian(0, 4) == [0, 0, 0, 0]
  {
    assert LittleEndian(0, 2) == [0, 0];
  }

  /** A length too small for a record is reported as damage, whatever follows it. */
  lemma {:induction false} BadLengthIsNoticed(fmt: Format, s: seq<byte>)
    requires |s| >= 4 && 0 < FromLittleEndian(s[..4]) < 22
    ensures ParseRecord(fmt, s).Unreadable?
  {
    hide FromLittleEndian, ParseEvent;
  }

  /** So is an empty or overlong producer id. */
  lemma {:induction false} BadIdLengthIsNoticed(fmt: Format, s: seq<byte>)
    requires |s| >= 22 && FromLittleEndian(s[..4]) >= 22
    requires FromLittleEndian(s[20..22]) == 0 || FromLittleEndian(s[20..22]) > 256
    ensures ParseRecord(fmt, s).Unreadable?
  {
    hide FromLittleEndian, ParseEvent;
  }

  /** So are an id that is no text, and lengths that do not agree or are over the limit. */
  lemma {:induction false} BadFieldsAreNoticed(fmt: Format, s: seq<byte>, payloadLen: nat, idLen: nat)
    requires |s| >= 26 + idLen && FromLittleEndian(s[..4]) == payloadLen && FromLittleEndian(s[20..22]) == idLen
    requires payloadLen >= 22 && 1 <= idLen <= 256
    requires || fmt.parseId(s[22..22 + idLen]).None?
             || payloadLen < 22 + idLen || payloadLen > 22 + idLen + 4_194_304
             || FromLittleEndian(s[22 + idLen..26 + idLen]) != payloadLen - 22 - idLen
    ensures ParseRecord(fmt, s).Unreadable?
  {
    FromLittleEndianBound(s[..4]);
    Pow256Values();
    hide FromLittleEndian, ParseEvent;
  }

  /** So is an event that cannot be decoded. */
  lemma {:induction false} BadEventIsNoticed(fmt: Format, s: seq<byte>, idLen: nat, eventLen: nat)
    requires |s| >= 30 + idLen + eventLen && 1 <= idLen <= 256 && eventLen <= 4_194_304
    requires FromLittleEndian(s[..4]) == 22 + idLen + eventLen && FromLittleEndian(s[20..22]) == idLen
    requires fmt.parseId(s[22..22 + idLen]).Some? && FromLittleEndian(s[22 + idLen..26 + idLen]) == eventLen
    requires fmt.decodeEvent(s[26 + idLen..26 + idLen + eventLen]).None?
    ensures ParseRecord(fmt, s).Unreadable?
  {
    ParseReachesEvent(fmt, s, idLen, eventLen);
    hide FromLittleEndian, LittleEndian, ParseRecord;
  }

  /** The bytes break off in front of something that the fields read so far ask for. */
  predicate BreaksOff(fmt: Format, s: seq<byte>) {
    || |s| < 4
    || (&& FromLittleEndian(s[..4]) >= 22
        && (|| |s| < 22
            || (&& 1 <= FromLittleEndian(s[20..22]) <= 256
                && (|| |s| < 22 + FromLittleEndian(s[20..22])
                    || BreaksOffBehindId(fmt, s, FromLittleEndian(s[..4]), FromLittleEndian(s[20..22]))))))
  }

  predicate BreaksOffBehindId(fmt: Format, s: seq<byte>, payloadLen: nat, idLen: nat)
    requires |s| >= 22 + idLen
  {
    && fmt.parseId(s[22..22 + idLen]).Some? && 22 + idLen <= payloadLen <= 22 + idLen + 4_194_304
    && (|| |s| < 26 + idLen
        || (FromLittleEndian(s[22 + idLen..26 + idLen]) == payloadLen - 22 - idLen && |s| < payloadLen + 8))
  }

  /** Reading runs into the end of the file exactly if the bytes break off; damage in front of that comes first. */
  lemma {:induction false} EofExactlyWhen(fmt: Format, s: seq<byte>)
    ensures ParseRecord(fmt, s).UnexpectedEof? <==> BreaksOff(fmt, s)
  {
    if |s| >= 4 {
      FromLittleEndianBound(s[..4]);
      Pow256Values();
    }
    hide FromLittleEndian, LittleEndian;
  }

  // ---- a written record, damaged ----

  /** The record of `e` with other bytes in place of its checksum. */
  function WithChecksum(fmt: Format, e: LogEntry, c: seq<byte>): seq<byte>
    requires Writable(fmt, e)
  {
    RecordBytes(fmt, e)[..|RecordBytes(fmt, e)| - 4] + c
  }

  /** Replacing the checksum leaves the other fields where they are. */
  lemma {:induction false} FieldsStay(fmt: Format, e: LogEntry, c: seq<byte>, rest: seq<byte>)
    requires Writable(fmt, e) && |c| == 4
    ensures var id, cbor := fmt.idBytes(e.producerId), fmt.encodeEvent(e.event).value;
            var s, t := RecordBytes(fmt, e) + rest, WithChecksum(fmt, e, c) + rest;
            && |t| == |s| >= 30 + |id| + |cbor| && 1 <= |id| <= 256 && |cbor| <= 4_194_304
            && t[..26 + |id| + |cbor|] == s[..26 + |id| + |cbor|]
            && t[26 + |id| + |cbor|..30 + |id| + |cbor|] == c
  {
    var id, cbor := fmt.idBytes(e.producerId), fmt.encodeEvent(e.event).value;
    assert 1 <= |id| <= 256 && |cbor| <= 4_194_304;
    RecordLength(fmt, e);
    hide *;
    var s, t := RecordBytes(fmt, e) + rest, WithChecksum(fmt, e, c) + rest;
    WithChecksumIs(fmt, e, c);
    SameFront(s, t, RecordBytes(fmt, e), 26 + |id| + |cbor|, c, rest);
  }

  lemma {:induction false} WithChecksumIs(fmt: Format, e: LogEntry, c: seq<byte>)
    requires Writable(fmt, e)
    ensures WithChecksum(fmt, e, c) == RecordBytes(fmt, e)[..|RecordBytes(fmt, e)| - 4] + c
  {
    hide RecordBytes;
  }

  lemma {:induction false} RecordLength(fmt: Format, e: LogEntry)
    requires Writable(fmt, e)
    ensures |RecordBytes(fmt, e)| == 30 + |fmt.idBytes(e.producerId)| + |fmt.encodeEvent(e.event).value|
  {
    hide LittleEndian;
  }

  /** The fields of a record with another checksum, as reading meets them. */
  lemma {:induction false} DamagedFields(fmt: Format, e: LogEntry, c: seq<byte>, rest: seq<byte>)
    requires Writable(fmt, e) && |c| == 4
    ensures var id, cbor := fmt.idBytes(e.producerId), fmt.encodeEvent(e.event).value;
            var t := WithChecksum(fmt, e, c) + rest;
            && |t| >= 30 + |id| + |cbor| && 1 <= |id| <= 256 && |cbor| <= 4_194_304
            && FromLittleEndian(t[..4]) == 22 + |id| + |cbor| && FromLittleEndian(t[20..22]) == |id|
            && FromLittleEndian(t[22 + |id|..26 + |id|]) == |cbor|
            && t[22..22 + |id|] == id && t[26 + |id| + |cbor|..30 + |id| + |cbor|] == c
            && t[4..20] + LittleEndian(|id|, 2) + id + LittleEndian(|cbor|, 4) + t[26 + |id|..26 + |id| + |cbor|]
               == Body(fmt, e, cbor)
  {
    FieldsOfRecord(fmt, e, rest);
    NumbersOfRecord(fmt, e, rest);
    hide *;
    var id, cbor := fmt.idBytes(e.producerId), fmt.encodeEvent(e.event).value;
    FieldsStay(fmt, e, c, rest);
    FrontSlices(RecordBytes(fmt, e) + rest, WithChecksum(fmt, e, c) + rest, |id|, |cbor|);
  }

  lemma IdParses(fmt: Format, e: LogEntry)
    requires fmt.Lawful()
    ensures fmt.parseId(fmt.idBytes(e.producerId)) == Some(e.producerId)
  {
  }

  lemma {:induction false} DamagedReads(fmt: Format, t: seq<byte>, idLen: nat, eventLen: nat, producerId: string,
                                        c: seq<byte>, body: seq<byte>)
    requires |t| >= 30 + idLen + eventLen && 1 <= idLen <= 256 && eventLen <= 4_194_304
    requires FromLittleEndian(t[..4]) == 22 + idLen + eventLen && FromLittleEndian(t[20..22]) == idLen
    requires FromLittleEndian(t[22 + idLen..26 + idLen]) == eventLen
    requires fmt.parseId(t[22..22 + idLen]) == Some(producerId)
    requires t[26 + idLen + eventLen..30 + idLen + eventLen] == c && c != LittleEndian(fmt.crc32(body), 4)
    requires t[4..20] + LittleEndian(idLen, 2) + fmt.idBytes(producerId) + LittleEndian(eventLen, 4)
             + t[26 + idLen..26 + idLen + eventLen] == body
    ensures ParseRecord(fmt, t) == Unreadable
  {
    hide *;
    LittleEndianOfParsed(c);
    MismatchIsUnreadable(fmt, t, idLen, eventLen, producerId);
    ReachesEvent(fmt, t, idLen, eventLen);
  }

  /** A record whose checksum is not that of its other bytes is unreadable, whatever follows it. */
  lemma {:induction false} ChecksumGuards(fmt: Format, e: LogEntry, c: seq<byte>, rest: seq<byte>)
    requires fmt.Lawful() && Writable(fmt, e) && |c| == 4
    requires c != LittleEndian(fmt.crc32(Body(fmt, e, fmt.encodeEvent(e.event).value)), 4)
    ensures ParseRecord(fmt, WithChecksum(fmt, e, c) + rest) == Unreadable
  {
    hide LittleEndian, FromLittleEndian, Body, ParseRecord, WithChecksum, RecordBytes;
    IdParses(fmt, e);
    EncodedSome(fmt, e);
    DamagedFields(fmt, e, c, rest);
    var id, cbor := fmt.idBytes(e.producerId), fmt.encodeEvent(e.event).value;
    DamagedReads(fmt, WithChecksum(fmt, e, c) + rest, |id|, |cbor|, e.producerId, c, Body(fmt, e, cbor));
  }

  lemma EncodedSome(fmt: Format, e: LogEntry)
    requires Writable(fmt, e)
    ensures fmt.encodeEvent(e.event).Some?
  {
  }

  lemma {:induction false} SameFront(s: seq<byte>, t: seq<byte>, r: seq<byte>, k: nat, c: seq<byte>, rest: seq<byte>)
    requires |r| == k + 4 && |c| == 4 && s == r + rest && t == r[..k] + c + rest
    ensures |s| == |t| && t[..k] == s[..k] && t[k..k + 4] == c
  {
  }

  lemma {:induction false} FrontSlices(s: seq<byte>, t: seq<byte>, idLen: nat, eventLen: nat)
    requires |s| == |t| >= 30 + idLen + eventLen && t[..26 + idLen + eventLen] == s[..26 + idLen + eventLen]
    ensures t[..4] == s[..4] && t[4..20] == s[4..20] && t[20..22] == s[20..22] && t[22..22 + idLen] == s[22..22 + idLen]
    ensures t[22 + idLen..26 + idLen] == s[22 + idLen..26 + idLen]
    ensures t[26 + idLen..26 + idLen + eventLen] == s[26 + idLen..26 + idLen + eventLen]
  {
    var m := 26 + idLen + eventLen;
    assert forall i :: 0 <= i < m ==> t[i] == t[..m][i] && s[i] == s[..m][i];
  }

  lemma {:induction false} MismatchIsUnreadable(fmt: Format, t: seq<byte>, idLen: nat, eventLen: nat,
                                                producerId: string)
    requires |t| >= 30 + idLen + eventLen && idLen <= 256 && eventLen <= 4_194_304
    requires fmt.parseId(t[22..22 + idLen]) == Some(producerId)
    requires FromLittleEndian(t[26 + idLen + eventLen..30 + idLen + eventLen]) !=
             fmt.crc32(t[4..20] + LittleEndian(idLen, 2) + fmt.idBytes(producerId) + LittleEndian(eventLen, 4)
                       + t[26 + idLen..26 + idLen + eventLen])
    ensures ParseEvent(fmt, t, idLen, eventLen) == Unreadable
  {
    hide FromLittleEndian, LittleEndian;
  }

  // ---- recovery ----

  /** Record `i` of the scan, with the offset that is its turn, ends where the next one starts. */
  ghost predicate ScannedAt(fmt: Format, data: seq<byte>, next: nat, r: Scan, i: nat)
    requires i < |r.starts| == |r.entries|
  {
    && r.starts[i] <= |data|
    && var p := ParseRecord(fmt, data[r.starts[i]..]);
       && p.Entry? && p.entry == r.entries[i] && p.entry.offset == next + i
       && r.starts[i] + p.consumed == (if i + 1 < |r.starts| then r.starts[i + 1] else r.end)
  }

  /**
   * What a scan of any bytes comes to: records that follow each other from `pos` on, and behind the last there is none
   * with the offset that would be next.
   */
  lemma {:induction false} ScanMeans(fmt: Format, data: seq<byte>, pos: nat, next: nat)
    requires pos <= |data|
    ensures var r := ScanFrom(fmt, data, pos, next);
            && (forall i :: 0 <= i < |r.starts| ==> ScannedAt(fmt, data, next, r, i))
            && (if r.starts == [] then r.end else r.starts[0]) == pos
            && (ParseRecord(fmt, data[r.end..]).Entry? && next + |r.entries| < U64_LIMIT ==>
                  ParseRecord(fmt, data[r.end..]).entry.offset != next + |r.entries|)
            && (r.overflow <==> next + |r.entries| >= U64_LIMIT && ParseRecord(fmt, data[r.end..]).Entry?)
    decreases |data| - pos
  {
    hide ParseRecord;
    var p := ParseRecord(fmt, data[pos..]);
    if p.Entry? && next < U64_LIMIT && p.entry.offset == next {
      var rest := ScanFrom(fmt, data, pos + p.consumed, next + 1);
      ScanMeans(fmt, data, pos + p.consumed, next + 1);
      var r := ScanFrom(fmt, data, pos, next);
      hide ScanFrom;
      assert r.starts[1..] == rest.starts && r.entries[1..] == rest.entries;
      forall i | 0 <= i < |r.starts|
        ensures ScannedAt(fmt, data, next, r, i)
      {
        if i > 0 {
          assert ScannedAt(fmt, data, next + 1, rest, i - 1);
        }
      }
    }
  }

  /**
   * Recovery keeps the records in front of the first one with a wrong checksum, and cuts the file there, whatever
   * follows.
   */
  lemma {:induction false} RecoveryCutsAtDamage(fmt: Format, header: seq<byte>, es: seq<LogEntry>, e: LogEntry,
                                                c: seq<byte>, rest: seq<byte>, base: nat)
    requires fmt.Lawful() && |header| == HEADER_LEN && AllWritable(fmt, es) && Consecutive(es, base)
    requires Writable(fmt, e) && |c| == 4
    requires c != LittleEndian(fmt.crc32(Body(fmt, e, fmt.encodeEvent(e.event).value)), 4)
    ensures ScanFrom(fmt, header + EncodeAll(fmt, es) + (WithChecksum(fmt, e, c) + rest), HEADER_LEN, base) ==
            Scan(es, Positions(fmt, es), HEADER_LEN + |EncodeAll(fmt, es)|, false)
  {
    ChecksumGuards(fmt, e, c, rest);
    hide ParseRecord, Body, LittleEndian, EncodeAll, WithChecksum, Writable;
    var tail := WithChecksum(fmt, e, c) + rest;
    ScanOfRecords(fmt, header, es, tail, base);
    var r := ScanFrom(fmt, header + EncodeAll(fmt, es) + tail, HEADER_LEN, base);
    assert r.starts == Positions(fmt, es);
  }
}
