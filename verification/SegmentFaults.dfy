/** What a subscription and an append make of bytes and events that are not as they should be. */
module SegmentFaults {
  import opened Bytes
  import opened Wrappers
  import opened EventModel
  import opened EventLogPort
  import opened SegmentRecords
  import opened SegmentFiles
  import opened SegmentDisk
  import opened SegmentWriting
  import opened SegmentSubscriptions
  import opened SegmentDamage

  // ---- appending ----

  /**
   * An event is refused if it would get the last u64 offset, cannot be encoded, or is too large, or its producer's id
   * is empty or too long; only a failing encoder is not the caller's fault.
   */
  lemma FaultExactlyWhen(fmt: Format, next: nat, producerId: string, event: OtkEvent)
    ensures Fault(fmt, next, producerId, event).None? <==>
            && next < 0xFFFF_FFFF_FFFF_FFFF
            && fmt.encodeEvent(event).Some? && |fmt.encodeEvent(event).value| <= 4_194_304
            && 1 <= |fmt.idBytes(producerId)| <= 256
    ensures Fault(fmt, next, producerId, event).Some? ==>
              Fault(fmt, next, producerId, event).value ==
              if next < 0xFFFF_FFFF_FFFF_FFFF && fmt.encodeEvent(event).None? then Corrupted else InvalidInput
  {
  }

  // ---- reading on ----

  /** The subscription has the file at `base` open and reads `bytes` from its position on. */
  ghost predicate Reads(contents: map<nat, seq<byte>>, s: Sub, bytes: seq<byte>) {
    s.file.Some? && s.file.value.base in contents && After(contents[s.file.value.base], s.file.value.pos) == bytes
  }

  /** The subscription has come `k` bytes further in its file. */
  function MovedOn(s: Sub, k: nat): Sub
    requires s.file.Some?
  {
    s.(file := Some(s.file.value.(pos := s.file.value.pos + k)))
  }

  /**
   * Whatever the files hold: only an intact record with the offset that is next is delivered, and the subscription then
   * stands behind it.
   */
  lemma {:induction false} DeliversOnlyNext(fmt: Format, d: Directory, contents: map<nat, seq<byte>>, s: Sub)
    requires s.file.Some? && s.file.value.base in contents
    ensures var (t, o) := ReadStep(fmt, d, contents, s);
            var bytes := After(contents[s.file.value.base], s.file.value.pos);
            o.Deliver? ==>
              && o.entry.offset == s.next
              && exists k: nat :: IsRecord(fmt, bytes, o.entry, k) && t == MovedOn(s, k).(next := s.next + 1)
  {
    hide ParseRecord, IsRecord, After;
    var p := ParseRecord(fmt, After(contents[s.file.value.base], s.file.value.pos));
    if p.Entry? {
      EntryExactlyWhen(fmt, After(contents[s.file.value.base], s.file.value.pos), p.entry, p.consumed);
    }
  }

  /** A record whose checksum is wrong ends the subscription. */
  lemma {:induction false} DamageEnds(fmt: Format, d: Directory, contents: map<nat, seq<byte>>, s: Sub, e: LogEntry,
                                      c: seq<byte>, rest: seq<byte>)
    requires fmt.Lawful() && Writable(fmt, e) && |c| == 4
    requires c != LittleEndian(fmt.crc32(Body(fmt, e, fmt.encodeEvent(e.event).value)), 4)
    requires Reads(contents, s, WithChecksum(fmt, e, c) + rest)
    ensures ReadStep(fmt, d, contents, s) == (s.(closed := true), Fail(Corrupted))
  {
    ChecksumGuards(fmt, e, c, rest);
    hide ParseRecord, After, WithChecksum, Body, LittleEndian, Writable;
  }

  lemma EntryIsActedOn(fmt: Format, d: Directory, contents: map<nat, seq<byte>>, s: Sub, e: LogEntry, k: nat)
    requires s.file.Some? && s.file.value.base in contents
    requires ParseRecord(fmt, After(contents[s.file.value.base], s.file.value.pos)) == Entry(e, k)
    ensures ReadStep(fmt, d, contents, s) ==
            if e.offset == s.next then (MovedOn(s, k).(next := s.next + 1), Deliver(e))
            else if e.offset < s.next && s.file.value.isActive then (MovedOn(s, k), Again)
            else (MovedOn(s, k).(closed := true), Fail(Corrupted))
  {
    hide ParseRecord, After;
  }

  /**
   * A written record is delivered if its offset is next; passed over if it is behind and the file has no index; and the
   * end of the subscription otherwise.
   */
  lemma {:induction false} RecordIsActedOn(fmt: Format, d: Directory, contents: map<nat, seq<byte>>, s: Sub,
                                           e: LogEntry, rest: seq<byte>)
    requires fmt.Lawful() && Writable(fmt, e) && Reads(contents, s, RecordBytes(fmt, e) + rest)
    ensures var moved := MovedOn(s, |RecordBytes(fmt, e)|);
            ReadStep(fmt, d, contents, s) ==
            if e.offset == s.next then (moved.(next := s.next + 1), Deliver(e))
            else if e.offset < s.next && s.file.value.isActive then (moved, Again)
            else (moved.(closed := true), Fail(Corrupted))
  {
    hide ParseRecord, After, RecordBytes, Writable, ReadStep, MovedOn;
    ParseWritten(fmt, e, rest);
    EntryIsActedOn(fmt, d, contents, s, e, |RecordBytes(fmt, e)|);
  }

  /** A record cut short is waited for in a file without an index, and ends the subscription in one that has it. */
  lemma {:induction false} ShortIsActedOn(fmt: Format, d: Directory, contents: map<nat, seq<byte>>, s: Sub, e: LogEntry,
                                          k: nat)
    requires fmt.Lawful() && Writable(fmt, e) && k < |RecordBytes(fmt, e)|
    requires Reads(contents, s, RecordBytes(fmt, e)[..k])
    ensures ReadStep(fmt, d, contents, s) ==
            if s.file.value.isActive then (s, Wait) else (s.(closed := true), Fail(Corrupted))
  {
    TornRecord(fmt, e, k);
    hide ParseRecord, After, RecordBytes, Writable;
  }

  /** The end of a segment leads to the file of the next offset, or back to the directory. */
  lemma {:induction false} EndIsActedOn(fmt: Format, d: Directory, contents: map<nat, seq<byte>>, s: Sub,
                                        rest: seq<byte>)
    requires Reads(contents, s, [0, 0, 0, 0] + rest)
    ensures ReadStep(fmt, d, contents, s) ==
            if s.next in d.segs then (s.(file := Some(Handle(s.next, 24, s.next !in d.idxs))), Again)
            else (s.(file := None), Again)
  {
    SentinelReads(fmt, rest);
    hide ParseRecord, After;
  }

  // ---- opening ----

  /** With an index the position is the index's, if it is within the limit and names the offset. */
  lemma {:induction false} IndexedOpens(fmt: Format, d: Directory, base: nat, next: nat)
    requires base in d.segs && base in d.idxs && base <= next
    ensures OpenAt(fmt, d, base, next) ==
            if 8 * |d.idxs[base]| > 268_435_456 then Refused(Corrupted)
            else if next >= base + |d.idxs[base]| then NotYet
            else Opened(Handle(base, d.idxs[base][next - base], false))
  {
  }

  /** Reading forward over whole records. */
  lemma {:induction false} SeekPasses(fmt: Format, data: seq<byte>, front: seq<byte>, es: seq<LogEntry>,
                                      tail: seq<byte>, current: nat, next: nat)
    requires fmt.Lawful() && AllWritable(fmt, es) && data == front + EncodeAll(fmt, es) + tail
    requires current <= next
    ensures var n := if next <= current + |es| then next - current else |es|;
            Seek(fmt, data, |front|, current, next) ==
            Seek(fmt, data, |front| + LengthOf(fmt, es, n), current + n, next)
    decreases |es|
  {
    hide ParseRecord, RecordBytes, Writable, After;
    if es == [] || current == next {
      assert es[..0] == [];
    } else {
      var first := RecordBytes(fmt, es[0]);
      var rest := EncodeAll(fmt, es[1..]) + tail;
      assert data == (front + first) + EncodeAll(fmt, es[1..]) + tail;
      AfterFront(data, front, first + rest);
      ParseWritten(fmt, es[0], rest);
      SeekPasses(fmt, data, front + first, es[1..], tail, current + 1, next);
      LengthsShift(fmt, es);
      var n := if next <= current + |es| then next - current else |es|;
      assert es[..n][1..] == es[1..][..n - 1];
      assert LengthOf(fmt, es, n) == |first| + LengthOf(fmt, es[1..], n - 1);
    }
  }

  lemma AfterFront(data: seq<byte>, front: seq<byte>, rest: seq<byte>)
    requires data == front + rest
    ensures After(data, |front|) == rest
  {
  }

  /**
   * Without an index the file is read from its header on: to the offset, if its records reach it; else to their end, if
   * the next record is not there yet; back to waiting if the segment ends first; and nowhere if there is damage on the
   * way.
   */
  lemma {:induction false} UnindexedOpens(fmt: Format, d: Directory, base: nat, next: nat, header: seq<byte>,
                                          es: seq<LogEntry>, tail: seq<byte>)
    requires fmt.Lawful() && AllWritable(fmt, es) && |header| == 24 && base <= next
    requires base in d.segs && base !in d.idxs && d.segs[base].data == header + EncodeAll(fmt, es) + tail
    requires next > base + |es| ==> !ParseRecord(fmt, tail).Entry?
    ensures OpenAt(fmt, d, base, next) ==
            if next <= base + |es| then Opened(Handle(base, 24 + LengthOf(fmt, es, next - base), true))
            else if ParseRecord(fmt, tail).UnexpectedEof? then Opened(Handle(base, 24 + |EncodeAll(fmt, es)|, true))
            else if ParseRecord(fmt, tail).EndOfSegment? then NotYet
            else Refused(Corrupted)
  {
    hide ParseRecord, RecordBytes, Writable, After;
    SeekPasses(fmt, d.segs[base].data, header, es, tail, base, next);
    assert es[..|es|] == es;
    AfterFront(d.segs[base].data, header + EncodeAll(fmt, es), tail);
  }
}
