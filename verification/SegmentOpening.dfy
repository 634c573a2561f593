/**
 * What opening makes of any directory, the log's own or not: which closed segments it accepts, what it keeps of the
 * files without an index, and what it refuses.
 */
module SegmentOpening {
  import opened Bytes
  import opened Wrappers
  import opened EventLogPort
  import opened SegmentRecords
  import opened SegmentFiles
  import opened SegmentDisk
  import opened SegmentIo
  import opened SegmentState
  import opened SegmentRecovery
  import opened SegmentDamage

  /** A header: magic, version, three bytes of no account, base offset and creation time. */
  lemma {:induction false} HeaderExactlyWhen(data: seq<byte>, h: SegmentHeader)
    ensures ReadHeader(data) == Ok(h) <==>
            && |data| >= 24 && data[..5] == [0x4F, 0x54, 0x4B, 0x53, 2]
            && FromLittleEndian(data[8..16]) == h.baseOffset && FromLittleEndian(data[16..24]) == h.createdAtNs
    ensures ReadHeader(data) == Err(Io) <==> |data| < 24
    ensures ReadHeader(data).Err? && |data| >= 24 ==> ReadHeader(data).error == Corrupted
  {
    hide FromLittleEndian;
    if |data| >= 24 {
      assert data[..5] == data[..4] + [data[4]];
      assert MAGIC + [VERSION] == [0x4F, 0x54, 0x4B, 0x53, 2];
      if data[..5] == MAGIC + [VERSION] {
        assert data[..4] == data[..5][..4];
      }
    }
  }

  /** What is written of a header, byte by byte. */
  lemma HeaderWrittenAs(h: SegmentHeader)
    ensures var s := HeaderBytes(h);
            && s[..8] == [0x4F, 0x54, 0x4B, 0x53, 2, 0, 0, 0]
            && s[8..16] == LittleEndian(h.baseOffset, 8) && s[16..24] == LittleEndian(h.createdAtNs, 8)
  {
    hide LittleEndian;
  }

  // ---- closed segments ----

  /** The record an index of a segment names last. */
  function LastRecord(fmt: Format, data: seq<byte>, positions: seq<nat>): RecordRead
    requires positions != []
  {
    ParseRecord(fmt, After(data, positions[|positions| - 1]))
  }

  /**
   * A closed segment is accepted exactly if its index is within the limit and names records, its header names its base,
   * and the last position has a record with the offset the index claims. It is then listed by those.
   */
  lemma {:induction false} ClosedLoadsExactlyWhen(fmt: Format, d: Directory, base: nat)
    requires base in d.segs && base in d.idxs
    ensures var r, p, data := LoadClosed(fmt, d, base), d.idxs[base], d.segs[base].data;
            && (r == Ok(None) <==> p == [])
            && (r.Ok? && r.value.Some? <==>
                  && p != [] && 8 * |p| <= 268_435_456 && base + |p| < 0x1_0000_0000_0000_0000
                  && ReadHeader(data).Ok? && ReadHeader(data).value.baseOffset == base
                  && LastRecord(fmt, data, p).Entry? && LastRecord(fmt, data, p).entry.offset == base + |p| - 1)
            && (r.Ok? && r.value.Some? ==>
                  r.value.value == ClosedSegment(base, base + |p| - 1, LastRecord(fmt, data, p).entry.appendedAtNs,
                                                 |data|, p))
            && (r.Err? ==>
                  || r.error == Corrupted
                  || (r.error == Io && (|data| < 24 || LastRecord(fmt, data, p).UnexpectedEof?)))
  {
    hide ParseRecord, After, FromLittleEndian;
  }

  /** A damaged last record, or one with another offset, is corruption, and not passed over. */
  lemma {:induction false} DamagedClosedIsRefused(fmt: Format, d: Directory, base: nat)
    requires base in d.segs && base in d.idxs && d.idxs[base] != [] && |d.segs[base].data| >= 24
    requires var last := LastRecord(fmt, d.segs[base].data, d.idxs[base]);
             || last.Unreadable? || last.EndOfSegment?
             || (last.Entry? && last.entry.offset != base + |d.idxs[base]| - 1)
    ensures LoadClosed(fmt, d, base) == Err(Corrupted)
  {
    hide ParseRecord, After, FromLittleEndian;
  }

  /** A file that ends before the last record does is an I/O error; so is one that ends before its header does. */
  lemma {:induction false} ShortClosedIsAnError(fmt: Format, d: Directory, base: nat)
    requires base in d.segs && base in d.idxs && 0 < 8 * |d.idxs[base]| <= 268_435_456
    requires base + |d.idxs[base]| < 0x1_0000_0000_0000_0000
    requires var data := d.segs[base].data;
             || |data| < 24
             || (&& ReadHeader(data).Ok? && ReadHeader(data).value.baseOffset == base
                 && LastRecord(fmt, data, d.idxs[base]).UnexpectedEof?)
    ensures LoadClosed(fmt, d, base) == Err(Io)
  {
    hide ParseRecord, After, FromLittleEndian;
  }

  // ---- files without an index ----

  /** A file with another header is refused and left alone. */
  lemma {:induction false} ForeignFileIsLeftAlone(fmt: Format, data: seq<byte>, base: u64, now: u64)
    requires |data| >= 24 && (ReadHeader(data).Err? || ReadHeader(data).value.baseOffset != base)
    ensures LoadTail(fmt, data, base, now) == TailLoad(Err(Corrupted), [])
  {
    hide FromLittleEndian;
  }

  /** The time of the last record kept. */
  function LastTime(entries: seq<LogEntry>): u64 {
    if entries == [] then 0 else entries[|entries| - 1].appendedAtNs
  }

  lemma {:induction false} LastReadsAgain(fmt: Format, data: seq<byte>, base: nat)
    requires |data| >= HEADER_LEN
    ensures var scan := ScanFrom(fmt, data, HEADER_LEN, base);
            scan.starts != [] ==>
              var last := ParseRecord(fmt, After(data[..scan.end], scan.starts[|scan.starts| - 1]));
              last.Entry? && last.entry == scan.entries[|scan.entries| - 1]
  {
    hide ParseRecord, ScanFrom;
    var scan := ScanFrom(fmt, data, HEADER_LEN, base);
    ScanIdempotent(fmt, data, HEADER_LEN, base);
    ScanMeans(fmt, data[..scan.end], HEADER_LEN, base);
    if scan.starts != [] {
      var again := ScanFrom(fmt, data[..scan.end], HEADER_LEN, base);
      assert ScannedAt(fmt, data[..scan.end], base, again, |again.starts| - 1);
      var start := scan.starts[|scan.starts| - 1];
      assert After(data[..scan.end], start) == data[..scan.end][start..];
    }
  }

  /**
   * A file with its own header keeps the records recovery finds, its creation time and its bytes up to the end of
   * those; it is cut there, if anything follows.
   */
  lemma {:induction false} OwnHeaderLoads(fmt: Format, data: seq<byte>, base: u64, now: u64, createdAtNs: u64)
    requires ReadHeader(data) == Ok(SegmentHeader(base, createdAtNs))
    ensures |data| >= HEADER_LEN
    ensures var t, scan := LoadTail(fmt, data, base, now), ScanFrom(fmt, data, HEADER_LEN, base);
            && (t.r.Ok? <==> !scan.overflow && base + |scan.entries| < U64_LIMIT)
            && (t.r.Err? ==> t.r.error == Corrupted)
            && (t.r.Ok? ==>
                  t.r.value == ActiveSegment(base, scan.starts, scan.end - 24, createdAtNs, scan.end,
                                             LastTime(scan.entries), scan.end))
            && t.calls == if scan.overflow || scan.end == |data| then [] else [SetLen(base, scan.end)]
  {
    hide ParseRecord, ScanFrom, FromLittleEndian, After;
    HeaderExactlyWhen(data, SegmentHeader(base, createdAtNs));
    LastReadsAgain(fmt, data, base);
  }

  /** A file too short for a header becomes an empty segment created now. */
  lemma {:induction false} ShortFileStartsAnew(fmt: Format, data: seq<byte>, base: u64, now: u64)
    requires |data| < 24 && base < U64_LIMIT
    ensures LoadTail(fmt, data, base, now) ==
            TailLoad(Ok(ActiveSegment(base, [], 0, now, 24, 0, 24)),
                     [SetLen(base, 0), WriteFile(base, 0, HeaderBytes(SegmentHeader(base, now)))])
  {
    var header := HeaderBytes(SegmentHeader(base, now));
    hide HeaderBytes, ParseRecord;
    assert header[HEADER_LEN..] == [];
    NothingReads(fmt);
    var calls := [SetLen(base, 0), WriteFile(base, 0, header)];
    assert calls + [] == calls;
  }

  // ---- whole directories ----

  /** What loading the file without an index at `b` gives. */
  function TailOf(fmt: Format, d: Directory, b: u64, now: u64): Result<ActiveSegment, StorageError> {
    LoadTail(fmt, FileOf(d, b).data, b, now).r
  }

  /** The closed segments that the indexed ones among `bases` load as, in order. */
  function ClosedIn(fmt: Format, d: Directory, bases: seq<nat>): seq<ClosedSegment>
    requires forall b :: b in bases ==> b in d.segs
  {
    if bases == [] then []
    else
      (if bases[0] in d.idxs && LoadClosed(fmt, d, bases[0]).Ok? && LoadClosed(fmt, d, bases[0]).value.Some?
       then [LoadClosed(fmt, d, bases[0]).value.value] else [])
      + ClosedIn(fmt, d, bases[1..])
  }

  /** The directory still holds the files at `bases`, and all indexes, as `d` does. */
  ghost predicate Holds(d: Directory, disk: Directory, bases: seq<nat>) {
    disk.idxs == d.idxs
    && forall b :: b in bases ==> b in d.segs && b in disk.segs && disk.segs[b] == d.segs[b]
  }

  /** The file at `b` loads, through its index if it has one. */
  predicate LoadsAt(fmt: Format, d: Directory, b: nat, now: u64) {
    && b in d.segs && b < U64_LIMIT
    && if b in d.idxs then LoadClosed(fmt, d, b).Ok? else TailOf(fmt, d, b, now).Ok?
  }

  /** The file at `b` loads without an index, and holds no records. */
  predicate LoadsEmpty(fmt: Format, d: Directory, b: nat, now: u64) {
    b < U64_LIMIT && TailOf(fmt, d, b, now).Ok? && TailOf(fmt, d, b, now).value.positions == []
  }

  /** Every file loads, and of those without an index none but the last has records. `active` is the one met before. */
  ghost predicate Loads(fmt: Format, d: Directory, active: Option<ActiveSegment>, bases: seq<nat>, now: u64) {
    && (forall b :: b in bases ==> LoadsAt(fmt, d, b, now))
    && (forall i, j :: 0 <= i < j < |bases| && bases[i] !in d.idxs && bases[j] !in d.idxs ==>
          LoadsEmpty(fmt, d, bases[i], now))
    && (active.Some? && (exists b :: b in bases && b !in d.idxs) ==> active.value.positions == [])
  }

  lemma {:induction false} SameClosed(fmt: Format, d: Directory, c: Directory, b: nat)
    requires b in d.segs && b in d.idxs && b in c.segs && b in c.idxs
    requires d.segs[b] == c.segs[b] && d.idxs[b] == c.idxs[b]
    ensures LoadClosed(fmt, c, b) == LoadClosed(fmt, d, b)
  {
    hide ParseRecord, ReadHeader, After;
  }

  /** Loading a file without an index touches no other file, and no index. */
  lemma {:induction false} TailTouchesOwn(fmt: Format, d: Directory, data: seq<byte>, base: u64, now: u64)
    ensures var c := ApplyAll(d, LoadTail(fmt, data, base, now).calls);
            && c.idxs == d.idxs && c.watermark == d.watermark
            && (base in d.segs ==> base in c.segs)
            && forall b :: b != base ==> (b in c.segs <==> b in d.segs) && (b in c.segs ==> c.segs[b] == d.segs[b])
  {
    hide ReadHeader, ScanFrom, HeaderBytes, ParseRecord, After;
    var calls := LoadTail(fmt, data, base, now).calls;
    assert forall call :: call in calls ==> call.SetLen? || call.WriteFile?;
    TouchesOwn(d, calls, base);
  }

  lemma {:induction false} TouchesOwn(d: Directory, calls: seq<IoCall>, base: nat)
    requires forall call :: call in calls ==>
               (call.SetLen? || call.WriteFile?) && call.base == base
    ensures var c := ApplyAll(d, calls);
            && c.idxs == d.idxs && c.watermark == d.watermark
            && (base in d.segs ==> base in c.segs)
            && forall b :: b != base ==> (b in c.segs <==> b in d.segs) && (b in c.segs ==> c.segs[b] == d.segs[b])
    decreases |calls|
  {
    if calls != [] {
      assert calls[0] in calls;
      TouchesOwn(Apply(d, calls[0]), calls[1..], base);
    }
  }

  /** Without the file of the segment met before, the others are as they were. */
  lemma {:induction false} WithoutOrphan(d: Directory, active: Option<ActiveSegment>)
    ensures var orphan := if active.Some? then [Unlink(active.value.baseOffset)] else [];
            var c := ApplyAll(d, orphan);
            && c.idxs == d.idxs
            && forall b :: (b in c.segs <==> b in d.segs && !(active.Some? && b == active.value.baseOffset))
                           && (b in c.segs ==> c.segs[b] == d.segs[b])
  {
    ApplyNothing(d);
    if active.Some? {
      ApplyOne(d, Unlink(active.value.baseOffset));
    }
    hide ApplyAll;
  }

  /** An indexed file: it loads as it would from the untouched directory. */
  lemma {:induction false} IndexedLoads(fmt: Format, d: Directory, s: LogState, b: u64, now: u64)
    requires b in d.segs && b in d.idxs && Holds(d, s.disk, [b])
    ensures var one := LoadOne(fmt, s, b, now);
            && (one.failure.None? <==> LoadClosed(fmt, d, b).Ok?)
            && (one.failure.None? ==>
                  && one.log.disk == s.disk && one.log.active == s.active
                  && one.log.closed == s.closed + ClosedIn(fmt, d, [b]))
  {
    hide LoadClosed;
    assert b in [b] && [b][1..] == [];
    SameClosed(fmt, d, s.disk, b);
    assert s.closed + [] == s.closed;
  }

  /** A file without an index: it loads as it would from the untouched directory; the one met before goes. */
  lemma {:induction false} UnindexedLoads(fmt: Format, d: Directory, s: LogState, b: u64, now: u64)
    requires b in d.segs && b !in d.idxs && Holds(d, s.disk, [b])
    requires s.active.Some? ==> s.active.value.baseOffset < b
    ensures var one := LoadOne(fmt, s, b, now);
            && (one.failure.None? <==>
                  TailOf(fmt, d, b, now).Ok? && (s.active.Some? ==> s.active.value.positions == []))
            && (s.active.Some? && s.active.value.positions != [] ==> one.failure == Some(Corrupted))
            && (one.failure.None? ==>
                  && one.log.closed == s.closed && one.log.active == Some(TailOf(fmt, d, b, now).value)
                  && one.log.disk.idxs == s.disk.idxs && b in one.log.disk.segs
                  && forall x :: x != b ==>
                       && (x in one.log.disk.segs <==>
                           x in s.disk.segs && !(s.active.Some? && x == s.active.value.baseOffset))
                       && (x in one.log.disk.segs ==> one.log.disk.segs[x] == s.disk.segs[x]))
  {
    hide LoadTail, ApplyAll;
    assert b in [b];
    WithoutOrphan(s.disk, s.active);
    var orphan := if s.active.Some? then [Unlink(s.active.value.baseOffset)] else [];
    var disk := ApplyAll(s.disk, orphan);
    assert FileOf(disk, b) == FileOf(d, b);
    TailTouchesOwn(fmt, disk, FileOf(d, b).data, b, now);
    ApplyConcat(s.disk, orphan, LoadTail(fmt, FileOf(d, b).data, b, now).calls);
  }

  lemma {:induction false} TailBase(fmt: Format, d: Directory, b: u64, now: u64)
    ensures TailOf(fmt, d, b, now).Ok? ==> TailOf(fmt, d, b, now).value.baseOffset == b
  {
    hide ReadHeader, ScanFrom, HeaderBytes, ParseRecord, After;
  }

  /** The condition for a list of files, from that for the first and that for the others. */
  lemma {:induction false} LoadsFirst(fmt: Format, d: Directory, active: Option<ActiveSegment>, bases: seq<nat>,
                                      now: u64)
    requires bases != []
    ensures var b, rest := bases[0], bases[1..];
            Loads(fmt, d, active, bases, now) <==>
            && LoadsAt(fmt, d, b, now)
            && (b !in d.idxs && active.Some? ==> active.value.positions == [])
            && Loads(fmt, d, if b in d.idxs then active else Some(TailOf(fmt, d, b, now).value), rest, now)
  {
  }

  /** `b` is the last of the files without an index. */
  ghost predicate LastUnindexed(d: Directory, bases: seq<nat>, b: nat) {
    b in bases && b !in d.idxs && forall c :: c in bases && c !in d.idxs ==> c <= b
  }

  /** The last of the files without an index is the active one. */
  ghost predicate ActiveIs(fmt: Format, d: Directory, before: Option<ActiveSegment>, bases: seq<nat>, now: u64,
                           active: Option<ActiveSegment>) {
    if forall b :: b in bases ==> b in d.idxs then active == before
    else
      exists b: u64 :: && LastUnindexed(d, bases, b) && TailOf(fmt, d, b, now).Ok?
                       && active == Some(TailOf(fmt, d, b, now).value)
  }

  /** Of the files without an index only the active one is left. */
  ghost predicate OneLeft(d: Directory, before: LogState, bases: seq<nat>, after: LogState) {
    forall x :: x in after.disk.segs ==>
      && (x !in bases ==> x in before.disk.segs)
      && (x in bases && x !in d.idxs ==> after.active.Some? && x == after.active.value.baseOffset)
      && (before.active.Some? && x == before.active.value.baseOffset ==> after.active == before.active)
  }

  /** The first file, and what it leaves to the others. */
  lemma {:induction false} FirstLoads(fmt: Format, d: Directory, s: LogState, bases: seq<nat>, now: u64)
    requires bases != [] && bases[0] < U64_LIMIT
    requires Holds(d, s.disk, bases) && Ascending(bases)
    requires s.active.Some? ==> s.active.value.baseOffset < bases[0]
    ensures var b, one := bases[0], LoadOne(fmt, s, bases[0], now);
            && (one.failure.None? <==>
                  LoadsAt(fmt, d, b, now) && (b !in d.idxs && s.active.Some? ==> s.active.value.positions == []))
            && (one.failure.Some? && LoadsAt(fmt, d, b, now) ==> one.failure == Some(Corrupted))
            && (one.failure.None? ==>
                  && Holds(d, one.log.disk, bases[1..]) && one.log.closed == s.closed + ClosedIn(fmt, d, [b])
                  && one.log.active == (if b in d.idxs then s.active else Some(TailOf(fmt, d, b, now).value))
                  && (one.log.active.Some? ==> one.log.active.value.baseOffset <= b)
                  && (b !in d.idxs ==> one.log.active.value.baseOffset == b)
                  && OneLeft(d, s, [b], one.log))
  {
    var b := bases[0];
    assert b in bases && forall x :: x in [b] ==> x == b;
    forall x | x in bases[1..]
      ensures x in bases && x > b
    {
      var i :| 0 <= i < |bases[1..]| && bases[1..][i] == x;
      assert bases[i + 1] == x;
    }
    TailBase(fmt, d, b, now);
    if b in d.idxs {
      IndexedLoads(fmt, d, s, b, now);
    } else {
      UnindexedLoads(fmt, d, s, b, now);
      assert [b][1..] == [] && s.closed + [] == s.closed;
    }
    hide LoadOne, LoadClosed, TailOf;
  }

  lemma {:induction false} ClosedInFirst(fmt: Format, d: Directory, bases: seq<nat>)
    requires bases != [] && forall b :: b in bases ==> b in d.segs
    ensures ClosedIn(fmt, d, bases) == ClosedIn(fmt, d, [bases[0]]) + ClosedIn(fmt, d, bases[1..])
  {
    hide LoadClosed;
    assert [bases[0]][1..] == [];
  }

  lemma {:induction false} ActiveStep(fmt: Format, d: Directory, before: Option<ActiveSegment>, bases: seq<nat>,
                                      now: u64, active: Option<ActiveSegment>)
    requires bases != [] && bases[0] < U64_LIMIT && Ascending(bases) && LoadsAt(fmt, d, bases[0], now)
    requires var b := bases[0];
             var met := if b in d.idxs then before else Some(TailOf(fmt, d, b, now).value);
             ActiveIs(fmt, d, met, bases[1..], now, active)
    ensures ActiveIs(fmt, d, before, bases, now, active)
  {
    hide TailOf, LoadClosed;
    var b, rest := bases[0], bases[1..];
    FirstIsLeast(bases);
    hide Ascending;
    if forall x :: x in rest ==> x in d.idxs {
      assert b !in d.idxs ==> LastUnindexed(d, bases, b);
    } else {
      var last: u64 :| && LastUnindexed(d, rest, last) && TailOf(fmt, d, last, now).Ok?
                       && active == Some(TailOf(fmt, d, last, now).value);
      assert LastUnindexed(d, bases, last);
    }
  }

  lemma {:induction false} FirstIsLeast(bases: seq<nat>)
    requires bases != [] && Ascending(bases)
    ensures forall x :: x in bases <==> x == bases[0] || x in bases[1..]
    ensures forall x :: x in bases[1..] ==> bases[0] < x
  {
    forall x | x in bases[1..]
      ensures bases[0] < x
    {
      var i :| 0 <= i < |bases[1..]| && bases[1..][i] == x;
      assert bases[i + 1] == x;
    }
  }

  lemma {:induction false} OneLeftStep(d: Directory, s: LogState, bases: seq<nat>, m: LogState, after: LogState)
    requires bases != [] && OneLeft(d, s, [bases[0]], m) && OneLeft(d, m, bases[1..], after)
    requires m.active != s.active ==> bases[0] !in d.idxs && m.active.Some? && m.active.value.baseOffset == bases[0]
    requires s.active.Some? ==> s.active.value.baseOffset < bases[0]
    requires bases[0] !in d.idxs ==> m.active.Some? && m.active.value.baseOffset == bases[0]
    requires Ascending(bases)
    ensures OneLeft(d, s, bases, after)
  {
    var b, rest := bases[0], bases[1..];
    assert forall x :: x in bases <==> x == b || x in rest;
    assert forall i :: 0 <= i < |rest| ==> rest[i] == bases[i + 1];
    assert b !in rest && (s.active.Some? ==> s.active.value.baseOffset !in bases);
  }

  /** What loading a list of files, in the order of their names, comes to. */
  ghost predicate LoadedAs(fmt: Format, d: Directory, s: LogState, bases: seq<nat>, now: u64, all: Opening)
    requires forall b :: b in bases ==> b in d.segs
  {
    && (all.failure.None? <==> Loads(fmt, d, s.active, bases, now))
    && (all.failure.Some? && (forall b :: b in bases ==> LoadsAt(fmt, d, b, now)) ==> all.failure == Some(Corrupted))
    && (all.failure.None? ==>
          && all.log.closed == s.closed + ClosedIn(fmt, d, bases)
          && ActiveIs(fmt, d, s.active, bases, now, all.log.active)
          && OneLeft(d, s, bases, all.log))
  }

  lemma {:induction false} NoneLoaded(fmt: Format, d: Directory, s: LogState, now: u64)
    ensures LoadedAs(fmt, d, s, [], now, LoadAll(fmt, s, [], now))
  {
    assert s.closed + [] == s.closed;
  }

  lemma {:induction false} OneMoreLoaded(fmt: Format, d: Directory, s: LogState, bases: seq<nat>, now: u64,
                                         rest: Opening, all: Opening)
    requires bases != [] && bases[0] < U64_LIMIT && Holds(d, s.disk, bases) && Ascending(bases)
    requires s.active.Some? ==> s.active.value.baseOffset < bases[0]
    requires forall b :: b in bases ==> b in d.segs
    requires var one := LoadOne(fmt, s, bases[0], now);
             if one.failure.Some? then all == one
             else LoadedAs(fmt, d, one.log, bases[1..], now, rest) && all == rest.(calls := one.calls + rest.calls)
    ensures LoadedAs(fmt, d, s, bases, now, all)
  {
    hide LoadOne, LoadsAt, ClosedIn, TailOf, Holds, ActiveIs, OneLeft, Loads, Ascending;
    FirstLoads(fmt, d, s, bases, now);
    LoadsFirst(fmt, d, s.active, bases, now);
    var one := LoadOne(fmt, s, bases[0], now);
    assert bases[0] in bases && forall b :: b in bases[1..] ==> b in bases;
    if one.failure.None? && all.failure.None? {
      ActiveStep(fmt, d, s.active, bases, now, all.log.active);
      OneLeftStep(d, s, bases, one.log, all.log);
      ClosedInFirst(fmt, d, bases);
      assert s.closed + ClosedIn(fmt, d, [bases[0]]) + ClosedIn(fmt, d, bases[1..]) ==
          s.closed + ClosedIn(fmt, d, bases);
    }
  }

  /** Loading a list of files from any state. */
  lemma {:induction false} AllLoad(fmt: Format, d: Directory, s: LogState, bases: seq<nat>, now: u64)
    requires Holds(d, s.disk, bases) && (forall i :: 0 <= i < |bases| ==> bases[i] < U64_LIMIT) && Ascending(bases)
    requires s.active.Some? && bases != [] ==> s.active.value.baseOffset < bases[0]
    ensures forall b :: b in bases ==> b in d.segs
    ensures LoadedAs(fmt, d, s, bases, now, LoadAll(fmt, s, bases, now))
    decreases |bases|
  {
    HoldsAll(d, s.disk, bases);
    if bases == [] {
      NoneLoaded(fmt, d, s, now);
    } else {
      hide LoadOne, LoadsAt, ClosedIn, TailOf, Holds, LoadedAs, OneLeft;
      var one := LoadOne(fmt, s, bases[0], now);
      FirstLoads(fmt, d, s, bases, now);
      var rest := one;
      if one.failure.None? {
        rest := LoadAll(fmt, one.log, bases[1..], now);
        AllLoad(fmt, d, one.log, bases[1..], now);
      }
      OneMoreLoaded(fmt, d, s, bases, now, rest, LoadAll(fmt, s, bases, now));
    }
  }

  lemma HoldsAll(d: Directory, disk: Directory, bases: seq<nat>)
    requires Holds(d, disk, bases)
    ensures forall b :: b in bases ==> b in d.segs
  {
  }

  /** The files of the directory that have no index, but the last of them. */
  ghost predicate BeforeAnother(d: Directory, b: nat) {
    b in d.segs && b !in d.idxs && exists c :: c in d.segs && c !in d.idxs && b < c
  }

  /**
   * Opening any directory, the log's own or not, succeeds exactly if every segment file loads, and those without an
   * index, but for the last, hold no records; records that would be lost are corruption. The log then lists the closed
   * segments in order, goes on with the last file without an index, and has removed the others.
   */
  lemma {:induction false} OpensExactlyWhen(fmt: Format, d: Directory, now: u64)
    requires Named(d)
    ensures forall b :: b in SortedKeys(d.segs.Keys) ==> b in d.segs
    ensures var o := OpenOf(fmt, d, now);
            && (o.failure.None? <==>
                  && (forall b :: b in d.segs ==> LoadsAt(fmt, d, b, now))
                  && (forall b :: BeforeAnother(d, b) ==> LoadsEmpty(fmt, d, b, now)))
            && (o.failure.Some? && (forall b :: b in d.segs ==> LoadsAt(fmt, d, b, now)) ==>
                  o.failure == Some(Corrupted))
            && (o.failure.None? ==>
                  && o.log.closed == ClosedIn(fmt, d, SortedKeys(d.segs.Keys))
                  && ActiveIs(fmt, d, None, SortedKeys(d.segs.Keys), now, o.log.active)
                  && forall x :: x in o.log.disk.segs && x !in d.idxs ==>
                       o.log.active.Some? && x == o.log.active.value.baseOffset)
  {
    hide LoadAll, SortedKeys, LoadsAt, LoadsEmpty, TailOf, ClosedIn, Named;
    var bases := SortedKeys(d.segs.Keys);
    NamedBelow(d);
    SortedKeysAre(d.segs.Keys);
    AllLoad(fmt, d, Unopened(d), bases, now);
    OrderedFiles(d, bases);
    assert [] + ClosedIn(fmt, d, bases) == ClosedIn(fmt, d, bases);
    hide ActiveIs;
  }

  lemma {:induction false} OrderedFiles(d: Directory, bases: seq<nat>)
    requires Ascending(bases) && forall b :: b in bases <==> b in d.segs
    ensures forall i, j :: 0 <= i < j < |bases| && bases[i] !in d.idxs && bases[j] !in d.idxs ==>
        BeforeAnother(d, bases[i])
    ensures forall b :: BeforeAnother(d, b) ==>
        exists i, j :: 0 <= i < j < |bases| && bases[i] == b && bases[i] !in d.idxs && bases[j] !in d.idxs
  {
    forall i, j | 0 <= i < j < |bases| && bases[i] !in d.idxs && bases[j] !in d.idxs
      ensures BeforeAnother(d, bases[i])
    {
      assert bases[i] in bases && bases[j] in bases;
    }
    forall b: nat | BeforeAnother(d, b)
      ensures exists i, j :: 0 <= i < j < |bases| && bases[i] == b && bases[i] !in d.idxs && bases[j] !in d.idxs
    {
      var c: nat :| c in d.segs && c !in d.idxs && b < c;
      assert b in bases && c in bases;
      var i :| 0 <= i < |bases| && bases[i] == b;
      var j :| 0 <= j < |bases| && bases[j] == c;
    }
  }
}
