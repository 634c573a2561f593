/** When the active segment is rolled, in plain numbers, and the creation time that rolling by age goes by. */
module SegmentRolling {
  import opened Bytes
  import opened Wrappers
  import opened EventModel
  import opened EventLogPort
  import opened SegmentRecords
  import opened SegmentFiles
  import opened SegmentDisk
  import opened SegmentIo
  import opened SegmentState
  import opened SegmentSteps
  import opened SegmentRetention
  import opened SegmentWriting
  import opened SegmentReading
  import opened SegmentRecovery
  import opened SegmentOpening
  import opened SegmentLogs
  import opened SegmentRuns

  /** When the segment that the append writes to was created. */
  function CreatedAt(s: LogState, clock: Clock): u64 {
    if s.active.Some? then s.active.value.createdAtNs else clock.created
  }

  /** Old enough to roll. No span of time is longer than u64 holds. */
  predicate OldEnough(config: Config, now: u64, createdAtNs: u64) {
    || config.maxSegmentAgeSecs == 0
    || now - createdAtNs >= config.maxSegmentAgeSecs * 1_000_000_000
    || now - createdAtNs == 0xFFFF_FFFF_FFFF_FFFF
  }

  /** The records of the segment that the append writes to, once it has. */
  ghost function SegmentBytes(fmt: Format, s: LogState, g: seq<LogEntry>): seq<byte>
    requires History(fmt, g) && Last(CutsOf(s)) <= |g|
  {
    Stored(fmt, g, Last(CutsOf(s)), |g|)
  }

  lemma {:induction false} DueInNumbers(config: Config, now: u64, byteSize: nat, createdAtNs: u64)
    ensures ShouldRoll(config, now, byteSize, createdAtNs) <==>
            byteSize >= config.maxSegmentBytes || OldEnough(config, now, createdAtNs)
  {
  }

  /**
   * An accepted append leaves no active segment exactly if the records of the segment it wrote to have reached the size
   * limit, or the segment its age. So a segment that stays active is below both limits.
   */
  lemma {:induction false} RollsExactlyWhen(fmt: Format, config: Config, clock: Clock, s: LogState, h: seq<LogEntry>,
                                            n: nat, producerId: string, events: seq<OtkEvent>)
    requires LogOk(fmt, s, h, n) && events != [] && producerId != ""
    requires AppendOf(fmt, config, clock, s, producerId, events).r.Ok?
    ensures |h| + |events| < U64_LIMIT && Last(CutsOf(s)) <= |h|
    ensures var g := h + Batch(|h|, clock.stamp, producerId, events);
            var log := AppendOf(fmt, config, clock, s, producerId, events).log;
            && History(fmt, g)
            && (log.active.None? <==>
                  || |SegmentBytes(fmt, s, g)| >= config.maxSegmentBytes
                  || OldEnough(config, clock.rollCheck, CreatedAt(s, clock)))
            && (log.active.Some? ==> log.active.value.byteSize == |SegmentBytes(fmt, s, g)| < config.maxSegmentBytes)
  {
    hide LogOk, AppendOf, FirstFault, Fault, Does, CutsOf, History, ShouldRoll, RolledTo, Attempt, Stored;
    LogParts(fmt, s, h, n);
    AppendDoes(fmt, config, clock, s, h, n, producerId, events);
    var g := h + Batch(|h|, clock.stamp, producerId, events);
    var log := AppendOf(fmt, config, clock, s, producerId, events).log;
    LogParts(fmt, log, g, |g|);
    DueInNumbers(config, clock.rollCheck, BytesFrom(fmt, g, Last(CutsOf(s))), CreatedAt(s, clock));
    RolledIsIdle(fmt, config, clock, s, g, log);
    if log.active.Some? {
      ActiveBytes(fmt, log, g, |g|);
    }
  }

  lemma {:induction false} RolledIsIdle(fmt: Format, config: Config, clock: Clock, s: LogState, g: seq<LogEntry>,
                                        log: LogState)
    requires RollOutcome(fmt, config, clock, s, true, g, log) && History(fmt, g) && Last(CutsOf(s)) <= |g|
    ensures log.active.None? <==>
            ShouldRoll(config, clock.rollCheck, BytesFrom(fmt, g, Last(CutsOf(s))), CreatedAt(s, clock))
    ensures log.active.Some? ==> CutsOf(log) == CutsOf(s)
    ensures BytesFrom(fmt, g, Last(CutsOf(s))) == |SegmentBytes(fmt, s, g)|
  {
    hide ShouldRoll, History, Stored, CutsOf, EvictedRun;
  }

  lemma {:induction false} ActiveBytes(fmt: Format, s: LogState, h: seq<LogEntry>, n: nat)
    requires LogOk(fmt, s, h, n) && s.active.Some?
    ensures History(fmt, h) && Last(CutsOf(s)) <= |h|
    ensures s.active.value.byteSize == |SegmentBytes(fmt, s, h)|
  {
    hide LogOk, History, Stored, CutsOf, AllClosedMatch, AllClosedOk, TailMatches, DiskOk, HasHeader;
    LogParts(fmt, s, h, n);
    TailFacts(fmt, s, h);
  }

  /**
   * What an append evicts for its age was too old: the newest entry of each closed segment that goes is more than the
   * policy's age before the time retention read, and what stays begins with one that is not.
   */
  lemma {:induction false} EvictedWasTooOld(fmt: Format, config: Config, clock: Clock, s: LogState, h: seq<LogEntry>,
                                            n: nat, producerId: string, events: seq<OtkEvent>, c: ClosedSegment)
    requires LogOk(fmt, s, h, n) && config.retention.TimeBased?
    ensures var log := AppendOf(fmt, config, clock, s, producerId, events).log;
            && (c in s.closed && c !in log.closed ==> TooOld(c, clock.retention, config.retention.maxAgeSecs))
            && (log.closed != s.closed && log.closed != [] ==>
                  !TooOld(log.closed[0], clock.retention, config.retention.maxAgeSecs))
  {
    hide LogOk, AppendOf, FirstFault, Fault, Does, CutsOf, History, ShouldRoll, Attempt, SealedOf, EvictedRun, TooOld;
    if events == [] || producerId == "" {
      RefusedKeepsClosed(fmt, config, clock, s, producerId, events);
    } else {
      AppendDoes(fmt, config, clock, s, h, n, producerId, events);
      var x := AppendOf(fmt, config, clock, s, producerId, events);
      var g := SegmentLogs.Accepted(h, x.r, clock.stamp, producerId, events);
      var cuts := CutsOf(s);
      if x.log.closed != s.closed {
        var all := s.closed + [SealedOf(fmt, g, Last(cuts))];
        var k := EvictedRun(config.retention, clock.retention, all, 0);
        EvictedRunIsExact(config.retention, clock.retention, all, 0);
        FrontWasOld(all, clock.retention, config.retention.maxAgeSecs, k, c);
        assert c in s.closed ==> c in all;
      }
    }
  }

  lemma RefusedKeepsClosed(fmt: Format, config: Config, clock: Clock, s: LogState, producerId: string,
                           events: seq<OtkEvent>)
    requires events == [] || producerId == ""
    ensures AppendOf(fmt, config, clock, s, producerId, events).log == s
  {
  }

  lemma {:induction false} FrontWasOld(all: seq<ClosedSegment>, now: u64, maxAgeSecs: nat, k: nat, c: ClosedSegment)
    requires LongestOldRun(all, now, maxAgeSecs, k)
    ensures c in all && c !in all[k..] ==> TooOld(c, now, maxAgeSecs)
    ensures all[k..] != [] ==> !TooOld(all[k..][0], now, maxAgeSecs)
  {
    hide TooOld;
    if c in all {
      var i :| 0 <= i < |all| && all[i] == c;
      if i >= k {
        assert all[k..][i - k] == c;
      }
    }
  }

  /** Rolling a segment that holds no records drops its file, and the log is what it was, if the tail is still told. */
  lemma {:induction false} EmptySegmentIsDropped(fmt: Format, policy: RetentionPolicy, now: u64, s: LogState,
                                                 h: seq<LogEntry>, n: nat)
    requires LogOk(fmt, s, h, n) && s.active.Some? && s.active.value.positions == []
    ensures var c := RollOf(policy, now, s);
            && c.calls == [Unlink(s.active.value.baseOffset)] && c.log.disk == ApplyAll(s.disk, c.calls)
            && c.log.closed == s.closed && c.log.active.None? && c.log.nextOffset == s.nextOffset
            && (s.closed != [] || s.disk.watermark == Some(|h|) || (h == [] && s.disk.watermark.None?) ==>
                  LogOk(fmt, c.log, h, n) && CutsOf(c.log) == CutsOf(s))
  {
    hide LogOk, AllClosedMatch, AllClosedOk, TailMatches, History, DiskOk, Full, StoredAt, ApplyAll, CutsOf;
    LogParts(fmt, s, h, n);
    TailFacts(fmt, s, h);
    var base, cuts := s.active.value.baseOffset, CutsOf(s);
    StoredAtLength(fmt, h, base, |h|);
    ApplyOne(s.disk, Unlink(base));
    var c := RollOf(policy, now, s);
    CutsWithoutActive(s, c.log);
    MatchUntouched(fmt, s.disk, c.log.disk, h, h, s.closed, cuts);
    if s.closed != [] || s.disk.watermark == Some(|h|) || (h == [] && s.disk.watermark.None?) {
      MatchedIsThere(fmt, s.disk, h, s.closed, cuts);
      TailGone(fmt, s.disk, c.log.disk, h, cuts, n);
      LogFrom(fmt, c.log, h, n, cuts);
    }
  }

  lemma {:induction false} CutsWithoutActive(s: LogState, t: LogState)
    requires s.active.Some? && s.active.value.baseOffset == s.nextOffset
    requires t.active.None? && t.closed == s.closed && t.nextOffset == s.nextOffset
    ensures CutsOf(t) == CutsOf(s) && Last(CutsOf(s)) == s.nextOffset
  {
  }

  lemma {:induction false} MatchedIsThere(fmt: Format, d: Directory, h: seq<LogEntry>, closed: seq<ClosedSegment>,
                                          cuts: seq<nat>)
    requires History(fmt, h) && AllClosedMatch(fmt, d, h, closed, cuts)
    ensures |closed| == |cuts| - 1 && (closed != [] ==> cuts[0] in d.segs)
  {
    hide History, StoredAt;
    if closed != [] {
      assert ClosedMatches(fmt, d, h, closed[0], cuts[0], cuts[1]);
    }
  }

  /** Without its empty tail file a directory is recoverable if something else tells the tail. */
  lemma {:induction false} TailGone(fmt: Format, d: Directory, c: Directory, h: seq<LogEntry>, cuts: seq<nat>, n: nat)
    requires DiskOk(fmt, d, h, cuts, n) && cuts != [] && Last(cuts) == |h| && Last(cuts) in d.segs
    requires c == d.(segs := d.segs - {Last(cuts)})
    requires (|cuts| > 1 && cuts[0] in d.segs) || d.watermark == Some(|h|) || (h == [] && d.watermark.None?)
    ensures DiskOk(fmt, c, h, cuts, n)
  {
    hide History, OpenFileOk, ClosedOk, AllClosedOk;
    assert AllClosedOk(fmt, d, h, cuts);
    ClosedUntouched(fmt, d, c, h, h, cuts);
    if |cuts| > 1 {
      CutsIncrease(fmt, d, h, cuts, 0, |cuts| - 1);
      assert cuts[0] in d.segs && cuts[0] != Last(cuts) ==> cuts[0] in c.segs;
    }
  }

  // ---- the creation time ----

  /** The active file's header says what the memory says of when it was created. */
  ghost predicate Dated(s: LogState) {
    s.active.Some? ==>
      && s.active.value.baseOffset in s.disk.segs
      && ReadHeader(s.disk.segs[s.active.value.baseOffset].data).Ok?
      && ReadHeader(s.disk.segs[s.active.value.baseOffset].data).value.createdAtNs == s.active.value.createdAtNs
  }

  /** Calls on one file that write or cut behind its header only. */
  ghost predicate BehindHeader(calls: seq<IoCall>, base: nat) {
    forall c :: c in calls ==>
      || (c.WriteFile? && c.base == base && c.pos >= HEADER_LEN)
      || (c.SetLen? && c.base == base && c.len >= HEADER_LEN)
      || (c.SyncFile? && c.base == base)
      || c.NotifyWaiters?
  }

  lemma {:induction false} HeaderUntouched(d: Directory, calls: seq<IoCall>, base: nat)
    requires BehindHeader(calls, base) && base in d.segs && |d.segs[base].data| >= HEADER_LEN
    ensures var c := ApplyAll(d, calls);
            && base in c.segs && |c.segs[base].data| >= HEADER_LEN
            && ReadHeader(c.segs[base].data) == ReadHeader(d.segs[base].data)
    decreases |calls|
  {
    if calls != [] {
      assert calls[0] in calls;
      var m := Apply(d, calls[0]);
      OneUntouched(d, calls[0], base);
      hide Apply, ReadHeader;
      HeaderUntouched(m, calls[1..], base);
    }
  }

  lemma {:induction false} OneUntouched(d: Directory, call: IoCall, base: nat)
    requires BehindHeader([call], base) && base in d.segs && |d.segs[base].data| >= HEADER_LEN
    ensures var c := Apply(d, call);
            && base in c.segs && |c.segs[base].data| >= HEADER_LEN
            && ReadHeader(c.segs[base].data) == ReadHeader(d.segs[base].data)
  {
    assert call in [call];
    var a, b := d.segs[base].data, Apply(d, call).segs[base].data;
    assert b[..HEADER_LEN] == a[..HEADER_LEN];
    HeaderOfPrefix(a, HEADER_LEN);
    HeaderOfPrefix(b, HEADER_LEN);
    hide ReadHeader;
  }

  lemma {:induction false} WritesBehindHeader(fmt: Format, base: nat, start: nat, pos: nat, next: nat, ts: u64,
                                              producerId: string, events: seq<OtkEvent>)
    requires start >= HEADER_LEN && pos >= HEADER_LEN
    ensures BehindHeader(WriteEvents(fmt, base, start, pos, next, ts, producerId, events).calls, base)
    decreases |events|
  {
    hide RecordBytes, Refusal;
    if events != [] && Fault(fmt, next, producerId, events[0]).None? {
      var bytes := RecordBytes(fmt, LogEntry(next, ts, producerId, events[0]));
      WritesBehindHeader(fmt, base, start, pos + |bytes|, next + 1, ts, producerId, events[1..]);
    }
  }

  lemma {:induction false} EnsuredIsDated(s: LogState, now: u64)
    requires Dated(s)
    ensures Dated(EnsuredOf(s, now).log)
  {
    if s.active.None? {
      var base := s.nextOffset;
      var bytes := HeaderBytes(SegmentHeader(base, now));
      HeaderReadsBack(SegmentHeader(base, now), []);
      hide HeaderBytes, ReadHeader;
      ApplyTwo(s.disk, CreateFile(base), WriteFile(base, 0, bytes));
      assert [] + bytes + [] == bytes && bytes + [] == bytes;
    }
  }

  lemma {:induction false} CommitIsDated(fmt: Format, s: LogState, h: seq<LogEntry>, n: nat, ts: u64,
                                         producerId: string, events: seq<OtkEvent>)
    requires LogOk(fmt, s, h, n) && s.active.Some? && events != [] && Dated(s)
    ensures Dated(CommitOf(fmt, s, ts, producerId, events).log)
  {
    hide LogOk, History, TailMatches, AllClosedMatch, AllClosedOk, DiskOk, WriteEvents, ApplyAll, ReadHeader, HasHeader;
    LogParts(fmt, s, h, n);
    TailFacts(fmt, s, h);
    var a := s.active.value;
    WritesBehindHeader(fmt, a.baseOffset, a.nextFilePos, a.nextFilePos, s.nextOffset, ts, producerId, events);
    HeaderUntouched(s.disk, CommitOf(fmt, s, ts, producerId, events).calls, a.baseOffset);
  }

  /** Every append leaves the active file's header and the memory in agreement on when it was created. */
  lemma {:induction false} AppendIsDated(fmt: Format, config: Config, clock: Clock, s: LogState, h: seq<LogEntry>,
                                         n: nat, producerId: string, events: seq<OtkEvent>)
    requires LogOk(fmt, s, h, n) && Dated(s)
    ensures Dated(AppendOf(fmt, config, clock, s, producerId, events).log)
  {
    hide LogOk, Dated, EnsuredOf, CommitOf, DueToRoll, Does;
    if events != [] && producerId != "" {
      EnsureDoes(fmt, s, h, n, clock.created, 0);
      EnsuredIsDated(s, clock.created);
      CommitIsDated(fmt, EnsuredOf(s, clock.created).log, h, n, clock.stamp, producerId, events);
      var c := CommitOf(fmt, EnsuredOf(s, clock.created).log, clock.stamp, producerId, events);
      RolledHasNoDate(config.retention, clock.retention, c.log);
    }
  }

  lemma RolledHasNoDate(policy: RetentionPolicy, now: u64, s: LogState)
    requires Dated(s)
    ensures Dated(RollOf(policy, now, s).log)
  {
    hide ReadHeader;
  }

  // ---- the creation time across a restart ----

  /** Loading a file without an index leaves its header in agreement with the memory. */
  lemma {:induction false} TailIsDated(fmt: Format, d: Directory, base: u64, now: u64)
    requires base in d.segs
    ensures var t := LoadTail(fmt, d.segs[base].data, base, now);
            var c := ApplyAll(d, t.calls);
            && base in c.segs
            && (t.r.Ok? ==>
                  && t.r.value.baseOffset == base
                  && ReadHeader(c.segs[base].data).Ok?
                  && ReadHeader(c.segs[base].data).value.createdAtNs == t.r.value.createdAtNs)
  {
    var data := d.segs[base].data;
    var t := LoadTail(fmt, data, base, now);
    if |data| < HEADER_LEN {
      ShortFileStartsAnew(fmt, data, base, now);
      var bytes := HeaderBytes(SegmentHeader(base, now));
      HeaderWritten(d, base, bytes);
      HeaderReadsBack(SegmentHeader(base, now), []);
      assert bytes + [] == bytes;
      hide HeaderBytes, ReadHeader, LoadTail;
    } else if ReadHeader(data).Ok? && ReadHeader(data).value.baseOffset == base {
      OwnHeaderLoads(fmt, data, base, now, ReadHeader(data).value.createdAtNs);
      hide LoadTail, ReadHeader, ScanFrom, ApplyAll;
      ScanEndsBehindHeader(fmt, data, base);
      ApplyNothing(d);
      HeaderUntouched(d, t.calls, base);
    } else {
      ForeignFileIsLeftAlone(fmt, data, base, now);
      ApplyNothing(d);
    }
  }

  lemma {:induction false} ScanEndsBehindHeader(fmt: Format, data: seq<byte>, base: nat)
    requires |data| >= HEADER_LEN
    ensures ScanFrom(fmt, data, HEADER_LEN, base).end >= HEADER_LEN
  {
    hide ScanFrom;
  }

  lemma {:induction false} OneIsDated(fmt: Format, s: LogState, base: u64, now: u64)
    requires Dated(s) && base in s.disk.segs
    requires s.active.Some? ==> s.active.value.baseOffset != base
    ensures LoadOne(fmt, s, base, now).failure.None? ==> Dated(LoadOne(fmt, s, base, now).log)
  {
    hide LoadClosed, ReadHeader, LoadTail, ApplyAll;
    if base !in s.disk.idxs {
      WithoutOrphan(s.disk, s.active);
      var orphan := if s.active.Some? then [Unlink(s.active.value.baseOffset)] else [];
      var disk := ApplyAll(s.disk, orphan);
      TailIsDated(fmt, disk, base, now);
      ApplyConcat(s.disk, orphan, LoadTail(fmt, disk.segs[base].data, base, now).calls);
    }
  }

  lemma {:induction false} AllAreDated(fmt: Format, d: Directory, s: LogState, bases: seq<nat>, now: u64)
    requires Holds(d, s.disk, bases) && (forall i :: 0 <= i < |bases| ==> bases[i] < U64_LIMIT) && Ascending(bases)
    requires s.active.Some? && bases != [] ==> s.active.value.baseOffset < bases[0]
    requires Dated(s)
    ensures LoadAll(fmt, s, bases, now).failure.None? ==> Dated(LoadAll(fmt, s, bases, now).log)
    decreases |bases|
  {
    hide LoadOne, LoadsAt, ClosedIn, TailOf, OneLeft, Dated, Holds;
    if bases != [] {
      HoldsFirst(d, s.disk, bases);
      FirstLoads(fmt, d, s, bases, now);
      OneIsDated(fmt, s, bases[0], now);
      var one := LoadOne(fmt, s, bases[0], now);
      if one.failure.None? {
        AllAreDated(fmt, d, one.log, bases[1..], now);
      }
    }
  }

  lemma HoldsFirst(d: Directory, disk: Directory, bases: seq<nat>)
    requires Holds(d, disk, bases) && bases != []
    ensures bases[0] in disk.segs
  {
  }

  /** A log just opened, of whatever directory, goes by the creation time in the header of the file it goes on with. */
  lemma {:induction false} OpensDated(fmt: Format, d: Directory, now: u64)
    requires Named(d) && OpenOf(fmt, d, now).failure.None?
    ensures Dated(OpenOf(fmt, d, now).log)
  {
    hide LoadAll, SortedKeys, Named;
    NamedBelow(d);
    SortedKeysAre(d.segs.Keys);
    AllAreDated(fmt, d, Unopened(d), SortedKeys(d.segs.Keys), now);
  }

  /** In every run the running log and the header of the file it writes agree on when that was created. */
  lemma {:induction false} RunIsDated(fmt: Format, nodes: seq<Node>, turns: seq<Turn>, j: nat)
    requires IsRun(fmt, nodes, turns) && j < |nodes| && nodes[j].Up?
    ensures Dated(nodes[j].log)
    decreases j
  {
    hide Dated, LogOk, AppendOf, LoadAll, SortedKeys, Named;
    if j > 0 {
      var turn := turns[j - 1];
      assert Takes(fmt, nodes[j - 1], turn, nodes[j - 1 + 1]);
      if turn.Reopen? {
        OpensDated(fmt, nodes[j - 1].disk, turn.now);
      } else {
        RunIsDated(fmt, nodes, turns, j - 1);
        var p := RunKnows(fmt, nodes, turns, j - 1);
        if turn.Append? {
          AppendIsDated(fmt, turn.config, turn.clock, nodes[j - 1].log, p.history, p.certain, turn.producerId,
                        turn.events);
        } else {
          CursorHasNoDate(nodes[j - 1].log, turn.cursor);
        }
      }
    }
  }

  lemma CursorHasNoDate(s: LogState, cursor: nat)
    requires s.active.Some? && Dated(s)
    ensures Dated(s.(active := Some(s.active.value.(cursor := cursor))))
  {
    hide ReadHeader;
  }

  /**
   * Rolling by age survives a restart: if a crash leaves the header of the file being written, the log opened from what
   * is left goes on with that file and the creation time it had.
   */
  lemma {:induction false} AgeSurvivesRestart(fmt: Format, s: LogState, h: seq<LogEntry>, n: nat, left: Directory,
                                              now: u64)
    requires LogOk(fmt, s, h, n) && Dated(s) && s.active.Some? && CrashOf(s.disk, left)
    requires Named(left) && OpenOf(fmt, left, now).failure.None?
    requires s.active.value.baseOffset in left.segs && |left.segs[s.active.value.baseOffset].data| >= 24
    ensures var a := OpenOf(fmt, left, now).log.active;
            && a.Some? && a.value.baseOffset == s.active.value.baseOffset
            && a.value.createdAtNs == s.active.value.createdAtNs
  {
    hide LogOk, OpenOf, SortedKeys, Named, LoadsAt, TailOf, ClosedIn, History, AllClosedMatch, AllClosedOk, TailMatches,
      DiskOk, ReadHeader;
    LogParts(fmt, s, h, n);
    TailFacts(fmt, s, h);
    var t := s.active.value.baseOffset;
    OnlyTailUnindexed(fmt, s.disk, h, CutsOf(s), n);
    SortedKeysAre(left.segs.Keys);
    OpensExactlyWhen(fmt, left, now);
    var bases := SortedKeys(left.segs.Keys);
    assert t in bases && t !in left.idxs;
    var b: u64 :| && LastUnindexed(left, bases, b) && TailOf(fmt, left, b, now).Ok?
                  && OpenOf(fmt, left, now).log.active == Some(TailOf(fmt, left, b, now).value);
    TailKeepsDate(fmt, s.disk, left, t, now, s.active.value.createdAtNs);
  }

  lemma {:induction false} OnlyTailUnindexed(fmt: Format, d: Directory, h: seq<LogEntry>, cuts: seq<nat>, n: nat)
    requires DiskOk(fmt, d, h, cuts, n)
    ensures cuts != [] && Last(cuts) !in d.idxs && forall b :: b in d.segs && b !in d.idxs ==> b == Last(cuts)
  {
    hide History, OpenFileOk, Stored, StoredAt, HasHeader;
    forall i | 0 <= i < |cuts| - 1
      ensures cuts[i] in d.idxs
    {
      assert ClosedOk(fmt, d, h, cuts[i], cuts[i + 1]);
    }
  }

  lemma {:induction false} TailKeepsDate(fmt: Format, d: Directory, left: Directory, t: u64, now: u64, createdAtNs: u64)
    requires CrashOf(d, left) && t in d.segs && |left.segs[t].data| >= 24
    requires ReadHeader(d.segs[t].data).Ok? && ReadHeader(d.segs[t].data).value.createdAtNs == createdAtNs
    requires TailOf(fmt, left, t, now).Ok?
    ensures TailOf(fmt, left, t, now).value.baseOffset == t
    ensures TailOf(fmt, left, t, now).value.createdAtNs == createdAtNs
  {
    HeaderOfPrefix(d.segs[t].data, |left.segs[t].data|);
    assert CutOf(d.segs[t], left.segs[t]);
    TailBase(fmt, left, t, now);
    var data := left.segs[t].data;
    if ReadHeader(data).value.baseOffset == t {
      OwnHeaderLoads(fmt, data, t, now, createdAtNs);
    } else {
      ForeignFileIsLeftAlone(fmt, data, t, now);
    }
    hide LoadTail, ReadHeader;
  }
}
