/** The segment-file event log. */
module SegmentLogs {
  import opened Bytes
  import opened Wrappers
  import opened EventModel
  import opened EventLogPort
  import opened SegmentRecords
  import opened SegmentFiles
  import opened SegmentDisk
  import opened SegmentIo
  import opened SegmentState
  import opened SegmentSteps
  import opened SegmentRetention
  import opened SegmentWriting
  import opened SegmentReading
  import opened SegmentRecovery
  import opened SegmentSubscriptions

  /** fsync on every append: `flush_interval_ms` is 0. */
  datatype Config = Config(maxSegmentBytes: u64, maxSegmentAgeSecs: u64, retention: RetentionPolicy)

  /** The clock readings an append may take, in the order it takes them. */
  datatype Clock = Clock(created: u64, stamp: u64, rollCheck: u64, retention: u64)

  predicate ShouldRoll(config: Config, now: u64, byteSize: nat, createdAtNs: u64) {
    byteSize >= config.maxSegmentBytes
    || SaturatingSub(now, createdAtNs) >= SaturatingMulU64(config.maxSegmentAgeSecs, NS_PER_SEC)
  }

  // ---- what an append does ----

  /** A log and the calls that led to it. */
  datatype Change = Change(log: LogState, calls: seq<IoCall>)

  /** A new segment, if none is active: an empty file, then its header. */
  function EnsuredOf(s: LogState, now: u64): (c: Change)
    ensures c.log.active.Some? && c.log.nextOffset == s.nextOffset
  {
    if s.active.Some? then Change(s, [])
    else
      var base := s.nextOffset;
      var calls := [CreateFile(base), WriteFile(base, 0, HeaderBytes(SegmentHeader(base, now)))];
      Change(s.(disk := ApplyAll(s.disk, calls),
                active := Some(ActiveSegment(base, [], 0, now, HEADER_LEN, 0, HEADER_LEN))), calls)
  }

  /** Closing the active segment and evicting what the policy names. A segment without records is dropped instead. */
  function RollOf(policy: RetentionPolicy, now: u64, s: LogState): Change {
    if s.active.None? then Change(s, [])
    else if s.active.value.positions == [] then
      var calls := [Unlink(s.active.value.baseOffset)];
      Change(s.(disk := ApplyAll(s.disk, calls), active := None), calls)
    else
      var sealing := SealCalls(s.active.value, s.nextOffset);
      var all := s.closed + [SealedAs(ApplyAll(s.disk, sealing), s.active.value)];
      var k := EvictedRun(policy, now, all, 0);
      var calls := sealing + DeleteCalls(all[..k]);
      Change(LogState(ApplyAll(s.disk, calls), all[k..], None, s.nextOffset), calls)
  }

  datatype Appended = Appended(r: Result<nat, StorageError>, log: LogState, calls: seq<IoCall>)

  lemma {:induction false} WrittenFits(fmt: Format, base: nat, start: nat, pos: nat, next: nat, ts: u64,
                                       producerId: string,
                                      events: seq<OtkEvent>)
    requires next < U64_LIMIT
    ensures WriteEvents(fmt, base, start, pos, next, ts, producerId, events).refused.None? ==>
        next + |events| < U64_LIMIT
    decreases |events|
  {
    hide RecordBytes, Refusal;
    if events != [] && Fault(fmt, next, producerId, events[0]).None? {
      var bytes := RecordBytes(fmt, LogEntry(next, ts, producerId, events[0]));
      WrittenFits(fmt, base, start, pos + |bytes|, next + 1, ts, producerId, events[1..]);
    }
  }

  /** The batch written, synced, committed to memory and announced; or refused and cut away. */
  function CommitOf(fmt: Format, s: LogState, ts: u64, producerId: string, events: seq<OtkEvent>): Appended
    requires s.active.Some? && events != []
  {
    var a := s.active.value;
    var w := WriteEvents(fmt, a.baseOffset, a.nextFilePos, a.nextFilePos, s.nextOffset, ts, producerId, events);
    WrittenFits(fmt, a.baseOffset, a.nextFilePos, a.nextFilePos, s.nextOffset, ts, producerId, events);
    if w.refused.Some? then
      Appended(Err(w.refused.value), s.(disk := ApplyAll(s.disk, w.calls), active := Some(a.(cursor := w.end))),
               w.calls)
    else
      var calls := w.calls + [SyncFile(a.baseOffset), NotifyWaiters];
      var b := a.(positions := a.positions + w.positions, nextFilePos := w.end,
                  byteSize := SaturatingSub(w.end, HEADER_LEN),
                  lastAppendedAtNs := ts, cursor := w.end);
      var next := s.nextOffset + |events|;
      Appended(Ok(next - 1), s.(disk := ApplyAll(s.disk, calls), active := Some(b), nextOffset := next), calls)
  }

  /** An append: refused for its arguments; or an active segment, the batch, and a roll if the segment is due. */
  function AppendOf(fmt: Format, config: Config, clock: Clock, s: LogState, producerId: string,
                    events: seq<OtkEvent>): Appended {
    if events == [] || producerId == "" then Appended(Err(InvalidInput), s, [])
    else
      var ensured := EnsuredOf(s, clock.created);
      var c := CommitOf(fmt, ensured.log, clock.stamp, producerId, events);
      if c.r.Err? || !DueToRoll(config, clock.rollCheck, c.log) then c.(calls := ensured.calls + c.calls)
      else
        var rolled := RollOf(config.retention, clock.retention, c.log);
        Appended(c.r, rolled.log, ensured.calls + c.calls + rolled.calls)
  }

  predicate DueToRoll(config: Config, now: u64, s: LogState) {
    s.active.Some? && ShouldRoll(config, now, s.active.value.byteSize, s.active.value.createdAtNs)
  }

  // ---- the log as a place of the writer ----

  /** Where a log that holds history `h` is, with all of it announced up to `announced`. */
  function PlaceOf(s: LogState, h: seq<LogEntry>, announced: nat): Place {
    Place(s.disk, h, CutsOf(s), announced)
  }

  lemma {:induction false} LogPlaced(fmt: Format, s: LogState, h: seq<LogEntry>, n: nat, announced: nat)
    requires LogOk(fmt, s, h, n)
    ensures Placed(fmt, PlaceOf(s, h, announced)) && History(fmt, h) && s.nextOffset == |h| && n <= |h|
    ensures s.active.Some? ==> TailFull(fmt, PlaceOf(s, h, announced))
  {
    hide LogOk, DiskOk, TailMatches, AllClosedMatch, AllClosedOk, CutsOf, History, Full;
    LogParts(fmt, s, h, n);
    TailFacts(fmt, s, h);
  }

  // ---- a new segment ----

  lemma {:induction false} CreateSteps(fmt: Format, p: Place, now: u64)
    requires Placed(fmt, p) && Last(p.cuts) == |p.history| && |p.history| !in p.disk.segs
    ensures var t := Last(p.cuts);
            && t < U64_LIMIT
            && var bytes := HeaderBytes(SegmentHeader(t, now));
               var p1 := p.(disk := Put(p.disk, t, SegFile([], 0)));
               var p2 := p.(disk := Put(p.disk, t, SegFile(bytes, 0)));
               && StepsBy(fmt, p, Create, CreateFile(t), p1)
               && StepsBy(fmt, p1, Header(now), WriteFile(t, 0, bytes), p2)
  {
    var t := Last(p.cuts);
    assert t < U64_LIMIT;
    hide History, HeaderBytes, Put, WriteAt;
    var bytes := HeaderBytes(SegmentHeader(t, now));
    PutAgain(p.disk, t, SegFile([], 0), SegFile(bytes, 0));
    HeaderWrites(Put(p.disk, t, SegFile([], 0)), t, bytes);
  }

  lemma {:induction false} CreateDoes(fmt: Format, p: Place, now: u64) returns (q: Place)
    requires Placed(fmt, p) && Last(p.cuts) == |p.history| && |p.history| !in p.disk.segs
    ensures Last(p.cuts) < U64_LIMIT
    ensures Does(fmt, p.history, p.history, p,
                 [CreateFile(Last(p.cuts)),
                  WriteFile(Last(p.cuts), 0, HeaderBytes(SegmentHeader(Last(p.cuts), now)))], q)
    ensures q == p.(disk := Put(p.disk, Last(p.cuts), SegFile(HeaderBytes(SegmentHeader(Last(p.cuts), now)), 0)))
  {
    hide Does, StepsBy, HeaderBytes, Put, History;
    var h, t := p.history, Last(p.cuts);
    CreateSteps(fmt, p, now);
    var bytes := HeaderBytes(SegmentHeader(t, now));
    var p1 := p.(disk := Put(p.disk, t, SegFile([], 0)));
    q := p.(disk := Put(p.disk, t, SegFile(bytes, 0)));
    DoesOne(fmt, h, h, p, Create, CreateFile(t), p1);
    DoesMore(fmt, h, h, p, [CreateFile(t)], p1, Header(now), WriteFile(t, 0, bytes), q);
    assert [CreateFile(t)] + [WriteFile(t, 0, bytes)] == [CreateFile(t), WriteFile(t, 0, bytes)];
  }

  /** After an append has made sure of an active segment, the log holds what it held. */
  lemma {:induction false} EnsureDoes(fmt: Format, s: LogState, h: seq<LogEntry>, n: nat, now: u64, announced: nat)
    requires LogOk(fmt, s, h, n)
    ensures var c := EnsuredOf(s, now);
            && LogOk(fmt, c.log, h, n) && CutsOf(c.log) == CutsOf(s) && c.log.closed == s.closed
            && c.log.active.value.createdAtNs == (if s.active.Some? then s.active.value.createdAtNs else now)
            && Does(fmt, h, h, PlaceOf(s, h, announced), c.calls, PlaceOf(c.log, h, announced))
  {
    hide LogOk, DiskOk, TailMatches, AllClosedMatch, AllClosedOk, History, Does, HeaderBytes, Full, Put, ApplyAll,
      Placed;
    LogParts(fmt, s, h, n);
    LogPlaced(fmt, s, h, n, announced);
    TailFacts(fmt, s, h);
    var p := PlaceOf(s, h, announced);
    if s.active.Some? {
      DoesNothing(fmt, h, h, p);
    } else {
      var q := CreateDoes(fmt, p, now);
      var c := EnsuredOf(s, now);
      DoesEnds(fmt, h, h, p, c.calls, q);
      DoesKeeps(fmt, h, h, p, c.calls, q, n);
      CreatedOk(fmt, s, h, n, c.log, now);
    }
  }

  lemma {:induction false} CreatedOk(fmt: Format, s: LogState, h: seq<LogEntry>, n: nat, log: LogState, now: u64)
    requires LogOk(fmt, s, h, n) && s.active.None? && s.nextOffset == |h|
    requires log == s.(disk := Put(s.disk, |h|, SegFile(HeaderBytes(SegmentHeader(|h|, now)), 0)),
                       active := Some(ActiveSegment(|h|, [], 0, now, HEADER_LEN, 0, HEADER_LEN)))
    requires DiskOk(fmt, log.disk, h, CutsOf(s), n)
    ensures LogOk(fmt, log, h, n) && CutsOf(log) == CutsOf(s)
  {
    hide LogOk, DiskOk, TailMatches, AllClosedMatch, AllClosedOk, History, HeaderBytes, ClosedMatches, CutsOf,
      SameBelow, Full, ActiveMatches;
    LogParts(fmt, s, h, n);
    TailFacts(fmt, s, h);
    var cuts := CutsOf(s);
    NewTail(fmt, s.disk, h, now);
    PutIsAbove(s.disk, |h|, SegFile(HeaderBytes(SegmentHeader(|h|, now)), 0));
    MatchUntouched(fmt, s.disk, log.disk, h, h, s.closed, cuts);
    LogFrom(fmt, log, h, n, cuts);
  }

  lemma {:induction false} NewTail(fmt: Format, d: Directory, h: seq<LogEntry>, now: u64)
    requires History(fmt, h) && |h| < U64_LIMIT
    ensures var f := SegFile(HeaderBytes(SegmentHeader(|h|, now)), 0);
            ActiveMatches(fmt, Put(d, |h|, f), h, ActiveSegment(|h|, [], 0, now, HEADER_LEN, 0, HEADER_LEN), |h|)
  {
    var header := SegmentHeader(|h|, now);
    HeaderReadsBack(header, []);
    assert HeaderBytes(header) + [] == HeaderBytes(header) && HeaderBytes(header)[HEADER_LEN..] == [];
    NothingStored(fmt, h, |h|);
    StoredAtLength(fmt, h, |h|, |h|);
    hide History, Stored, StoredAt, HeaderBytes, ReadHeader;
  }

  // ---- a batch ----

  lemma {:induction false} CursorMoves(fmt: Format, s: LogState, h: seq<LogEntry>, n: nat, cursor: nat)
    requires LogOk(fmt, s, h, n) && s.active.Some?
    ensures var log := s.(active := Some(s.active.value.(cursor := cursor)));
            LogOk(fmt, log, h, n) && CutsOf(log) == CutsOf(s)
  {
    hide DiskOk, AllClosedMatch, History, Full, StoredAt;
  }

  lemma {:induction false} CommitSteps(fmt: Format, p: Place, f: SegFile, g: seq<LogEntry>)
    requires p.cuts != [] && History(fmt, g) && Last(p.cuts) <= |g| && Full(fmt, f, g, Last(p.cuts))
    ensures var p3 := Grown(p, Synced(f), g);
            && StepsBy(fmt, Grown(p, f, g), Sync, SyncFile(Last(p.cuts)), p3)
            && StepsBy(fmt, p3, Announce, NotifyWaiters, p3.(announced := |g|))
  {
    hide History, HasHeader, Stored, Grown;
    GrownAgain(p, f, g, Synced(f));
    GrownAgain(p, Synced(f), g, f);
    GrownIs(p, f, g, Synced(f), g);
    assert Full(fmt, Synced(f), g, Last(p.cuts));
    hide Full;
    assert Placed(fmt, Grown(p, f, g)) && Enabled(fmt, Grown(p, f, g), Sync);
    assert Placed(fmt, Grown(p, Synced(f), g)) && Enabled(fmt, Grown(p, Synced(f), g), Announce);
  }

  /** The file with the whole batch, synced: the log holds the batch for certain. */
  lemma {:induction false} CommittedOk(fmt: Format, s: LogState, h: seq<LogEntry>, n: nat, f: SegFile, g: seq<LogEntry>,
                                       positions: seq<nat>,
                                      b: ActiveSegment, next: u64)
    requires LogOk(fmt, s, h, n) && s.active.Some? && Last(CutsOf(s)) in s.disk.segs
    requires InBatch(fmt, s.disk.segs[Last(CutsOf(s))], h, Last(CutsOf(s)), f, g, positions) && |h| < |g| == next
    requires DiskOk(fmt, Put(s.disk, Last(CutsOf(s)), f), g, CutsOf(s), n)
    requires b.baseOffset == s.active.value.baseOffset && b.positions == s.active.value.positions + positions
    requires b.nextFilePos == |f.data| && b.byteSize == SaturatingSub(|f.data|, HEADER_LEN)
    requires b.lastAppendedAtNs == g[|g| - 1].appendedAtNs
    ensures var log := LogState(Put(s.disk, Last(CutsOf(s)), Synced(f)), s.closed, Some(b), next);
            && LogOk(fmt, log, g, |g|) && CutsOf(log) == CutsOf(s)
            && |b.positions| == |g| - Last(CutsOf(s)) && b.byteSize == BytesFrom(fmt, g, Last(CutsOf(s)))
  {
    hide LogOk, DiskOk, TailMatches, AllClosedMatch, AllClosedOk, History, Full, StoredAt, CutsOf, InBatch, SameBelow,
      ClosedMatches, Stored, Put;
    LogParts(fmt, s, h, n);
    TailFacts(fmt, s, h);
    var cuts, t := CutsOf(s), Last(CutsOf(s));
    InBatchParts(fmt, s.disk.segs[t], h, t, f, g, positions);
    PutAgain(s.disk, t, f, Synced(f));
    SyncKeeps(fmt, Put(s.disk, t, f), g, cuts, n);
    PutAgain(s.disk, t, Synced(f), f);
    var log := LogState(Put(s.disk, t, Synced(f)), s.closed, Some(b), next);
    PutIsAbove(s.disk, t, Synced(f));
    PrefixUpTo(h, g, t);
    MatchUntouched(fmt, s.disk, log.disk, h, g, s.closed, cuts);
    StoredAtLength(fmt, g, t, |g|);
    assert ActiveMatches(fmt, log.disk, g, b, t);
    hide ActiveMatches;
    LogFrom(fmt, log, g, |g|, cuts);
  }

  lemma {:induction false} PrefixUpTo(h: seq<LogEntry>, g: seq<LogEntry>, t: nat)
    requires h <= g && t <= |h|
    ensures h[..t] == g[..t]
  {
  }

  /** Bytes of records from offset `b` to the end of the history. */
  ghost function BytesFrom(fmt: Format, h: seq<LogEntry>, b: nat): nat {
    if History(fmt, h) && b <= |h| then |Stored(fmt, h, b, |h|)| else 0
  }

  /** A refused batch: the calls undo each other, and only the handle's cursor has moved. */
  lemma {:induction false} RefusedDoes(fmt: Format, s: LogState, h: seq<LogEntry>, n: nat, ts: u64, producerId: string,
                                      events: seq<OtkEvent>, announced: nat)
    requires LogOk(fmt, s, h, n) && s.active.Some? && |h| < U64_LIMIT
    requires FirstFault(fmt, |h|, producerId, events) < |events|
    ensures var k := FirstFault(fmt, |h|, producerId, events);
            var c := CommitOf(fmt, s, ts, producerId, events);
            && c.r == Err(Fault(fmt, |h| + k, producerId, events[k]).value)
            && LogOk(fmt, c.log, h, n)
            && c.log == s.(active := Some(s.active.value.(cursor := c.log.active.value.cursor)))
            && CutsOf(c.log) == CutsOf(s)
            && Does(fmt, h, h + Attempt(fmt, |h|, ts, producerId, events), PlaceOf(s, h, announced), c.calls,
                    PlaceOf(c.log, h, announced))
  {
    hide LogOk, DiskOk, TailMatches, AllClosedMatch, AllClosedOk, History, Full, CutsOf, InBatch, Does, Grown,
      WriteEvents, Attempt, FirstFault,
      Fault, Placed, ApplyAll;
    LogParts(fmt, s, h, n);
    LogPlaced(fmt, s, h, n, announced);
    TailFacts(fmt, s, h);
    var p, t := PlaceOf(s, h, announced), Last(CutsOf(s));
    BatchStarts(fmt, s.disk.segs[t], h, t);
    var after, q := EventsDo(fmt, p, s.disk.segs[t], h, [], ts, producerId, events);
    GrownAgain(p, s.disk.segs[t], h, s.disk.segs[t]);
    var c := CommitOf(fmt, s, ts, producerId, events);
    DoesEnds(fmt, h, h + Attempt(fmt, |h|, ts, producerId, events), p, c.calls, p);
    CursorMoves(fmt, s, h, n, c.log.active.value.cursor);
  }

  lemma {:induction false} WholeAttempt(fmt: Format, next: nat, ts: u64, producerId: string, events: seq<OtkEvent>)
    requires next < U64_LIMIT && FirstFault(fmt, next, producerId, events) == |events|
    ensures next + |events| < U64_LIMIT
    ensures Attempt(fmt, next, ts, producerId, events) == Batch(next, ts, producerId, events)
  {
    hide FirstFault;
    AttemptFits(fmt, next, producerId, events);
    assert events[..|events|] == events;
  }

  /** An accepted batch: written, synced, announced; the log holds it for certain. */
  lemma {:induction false} CommitDoes(fmt: Format, s: LogState, h: seq<LogEntry>, n: nat, ts: u64, producerId: string,
                                     events: seq<OtkEvent>, announced: nat)
    requires LogOk(fmt, s, h, n) && s.active.Some? && events != []
    requires |h| < U64_LIMIT && FirstFault(fmt, |h|, producerId, events) == |events|
    ensures |h| + |events| < U64_LIMIT
    ensures var g := h + Batch(|h|, ts, producerId, events);
            var c := CommitOf(fmt, s, ts, producerId, events);
            && c.r == Ok(|g| - 1) && LogOk(fmt, c.log, g, |g|)
            && c.log.closed == s.closed && CutsOf(c.log) == CutsOf(s) && c.log.active.Some?
            && var b := c.log.active.value;
               && b.createdAtNs == s.active.value.createdAtNs && b.cursor == b.nextFilePos
               && b.positions != [] && b.byteSize == BytesFrom(fmt, g, Last(CutsOf(s)))
               && Does(fmt, h, g, PlaceOf(s, h, announced), c.calls, PlaceOf(c.log, g, |g|))
  {
    hide LogOk, DiskOk, TailMatches, AllClosedMatch, AllClosedOk, History, Full, CutsOf, InBatch, Does, Grown,
      WriteEvents, Attempt, FirstFault,
      Fault, Placed, ApplyAll, StepsBy, BytesFrom, CommitOf;
    WholeAttempt(fmt, |h|, ts, producerId, events);
    var g := h + Batch(|h|, ts, producerId, events);
    LogParts(fmt, s, h, n);
    LogPlaced(fmt, s, h, n, announced);
    TailFacts(fmt, s, h);
    var p, t := PlaceOf(s, h, announced), Last(CutsOf(s));
    BatchStarts(fmt, s.disk.segs[t], h, t);
    var after, q := EventsDo(fmt, p, s.disk.segs[t], h, [], ts, producerId, events);
    GrownAgain(p, s.disk.segs[t], h, s.disk.segs[t]);
    CommitCalls(fmt, s, h, n, ts, producerId, events, announced, after, g);
  }

  lemma {:induction false} CommitCalls(fmt: Format, s: LogState, h: seq<LogEntry>, n: nat, ts: u64, producerId: string,
                                      events: seq<OtkEvent>, announced: nat, after: SegFile, g: seq<LogEntry>)
    requires LogOk(fmt, s, h, n) && s.active.Some? && events != []
    requires |h| + |events| < U64_LIMIT && g == h + Batch(|h|, ts, producerId, events)
    requires s.nextOffset == |h| && Last(CutsOf(s)) in s.disk.segs
    requires var a := s.active.value;
             a.baseOffset == Last(CutsOf(s)) && a.nextFilePos == |s.disk.segs[Last(CutsOf(s))].data|
    requires var f0 := s.disk.segs[Last(CutsOf(s))];
             var w := WriteEvents(fmt, Last(CutsOf(s)), |f0.data|, |f0.data|, |h|, ts, producerId, events);
             && w.refused.None? && w.end == |after.data|
             && InBatch(fmt, f0, h, Last(CutsOf(s)), after, g, [] + w.positions)
             && Does(fmt, h, g, PlaceOf(s, h, announced), w.calls, Grown(PlaceOf(s, h, announced), after, g))
    ensures var c := CommitOf(fmt, s, ts, producerId, events);
            && c.r == Ok(|g| - 1) && LogOk(fmt, c.log, g, |g|)
            && c.log.closed == s.closed && CutsOf(c.log) == CutsOf(s) && c.log.active.Some?
            && var b := c.log.active.value;
               && b.createdAtNs == s.active.value.createdAtNs && b.cursor == b.nextFilePos
               && b.positions != [] && b.byteSize == BytesFrom(fmt, g, Last(CutsOf(s)))
               && Does(fmt, h, g, PlaceOf(s, h, announced), c.calls, PlaceOf(c.log, g, |g|))
  {
    hide LogOk, DiskOk, TailMatches, AllClosedMatch, AllClosedOk, History, Full, CutsOf, InBatch, Does, WriteEvents,
      ApplyAll, StepsBy, BytesFrom,
      Put;
    var p, t := PlaceOf(s, h, announced), Last(CutsOf(s));
    var f0 := s.disk.segs[t];
    var w := WriteEvents(fmt, t, |f0.data|, |f0.data|, |h|, ts, producerId, events);
    LogParts(fmt, s, h, n);
    InBatchParts(fmt, f0, h, t, after, g, [] + w.positions);
    CommitSteps(fmt, p, after, g);
    var p2, p3 := Grown(p, after, g), Grown(p, Synced(after), g);
    DoesMore(fmt, h, g, p, w.calls, p2, Sync, SyncFile(t), p3);
    DoesMore(fmt, h, g, p, w.calls + [SyncFile(t)], p3, Announce, NotifyWaiters, p3.(announced := |g|));
    var c := CommitOf(fmt, s, ts, producerId, events);
    assert w.calls + [SyncFile(t)] + [NotifyWaiters] == c.calls;
    DoesEnds(fmt, h, g, p, c.calls, p3.(announced := |g|));
    DoesKeeps(fmt, h, g, p, w.calls, p2, n);
    CommittedOk(fmt, s, h, n, after, g, [] + w.positions, c.log.active.value, |g|);
  }

  // ---- rolling ----

  /** What the closed list says of the segment for the offsets from `t` to the end of the history. */
  ghost function SealedOf(fmt: Format, h: seq<LogEntry>, t: nat): ClosedSegment
    requires History(fmt, h) && t < |h|
  {
    ClosedSegment(t, |h| - 1, h[|h| - 1].appendedAtNs, HEADER_LEN + |Stored(fmt, h, t, |h|)| + 4,
                  StoredAt(fmt, h, t, |h|))
  }

  /**
   * Where a roll with retention leaves the log: the sealed segment joins the closed ones, and the evicted run leaves.
   */
  ghost predicate RolledTo(fmt: Format, policy: RetentionPolicy, now: u64, closed: seq<ClosedSegment>, cuts: seq<nat>,
                           h: seq<LogEntry>,
                           log: LogState)
  {
    && History(fmt, h) && cuts != [] && Last(cuts) < |h| && |cuts| == |closed| + 1
    && var all := closed + [SealedOf(fmt, h, Last(cuts))];
       var k := EvictedRun(policy, now, all, 0);
       log.closed == all[k..] && log.active.None? && CutsOf(log) == (cuts + [|h|])[k..]
       && log.disk.watermark == Some(|h|)
  }

  lemma {:induction false} EndIsNew(fmt: Format, d: Directory, h: seq<LogEntry>, cuts: seq<nat>, n: nat)
    requires DiskOk(fmt, d, h, cuts, n) && Last(cuts) < |h|
    ensures |h| !in d.segs
  {
    hide History, ClosedOk, OpenFileOk;
    if |h| in d.segs {
      var i :| 0 <= i < |cuts| && cuts[i] == |h|;
      if i < |cuts| - 1 {
        CutsIncrease(fmt, d, h, cuts, i, |cuts| - 1);
      }
    }
  }

  /** The last closed segment, as the directory has it. */
  lemma {:induction false} SealedMatches(fmt: Format, d: Directory, h: seq<LogEntry>, cuts: seq<nat>, n: nat,
                                         a: ActiveSegment)
    requires cuts != [] && DiskOk(fmt, d, h, cuts + [|h|], n) && History(fmt, h) && Last(cuts) < |h|
    requires a.baseOffset == Last(cuts) && a.positions == StoredAt(fmt, h, Last(cuts), |h|)
    requires |a.positions| == |h| - Last(cuts)
    requires a.lastAppendedAtNs == h[|h| - 1].appendedAtNs
    ensures a.positions != [] && SealedAs(d, a) == SealedOf(fmt, h, Last(cuts))
    ensures ClosedMatches(fmt, d, h, SealedAs(d, a), Last(cuts), |h|)
  {
    hide History, Stored, StoredAt, DiskOk, FromLittleEndian, LittleEndianU64;
    LastOf(cuts, |h|);
    ClosedAt(fmt, d, h, cuts + [|h|], n, |cuts| - 1);
    var data := d.segs[Last(cuts)].data;
    assert |data| >= HEADER_LEN;
    assert |data[HEADER_LEN..]| == |Stored(fmt, h, Last(cuts), |h|)| + 4;
  }

  lemma {:induction false} AllMatch(fmt: Format, d: Directory, h: seq<LogEntry>, closed: seq<ClosedSegment>,
                                    cuts: seq<nat>, c: ClosedSegment)
    requires History(fmt, h) && cuts != [] && AllClosedMatch(fmt, d, h, closed, cuts)
    requires ClosedMatches(fmt, d, h, c, Last(cuts), |h|)
    ensures AllClosedMatch(fmt, d, h, closed + [c], cuts + [|h|])
  {
    hide ClosedMatches, History;
    var all, ends := closed + [c], cuts + [|h|];
    forall i | 0 <= i < |all|
      ensures ClosedMatches(fmt, d, h, all[i], ends[i], ends[i + 1])
    {
      if i < |closed| {
        assert ClosedMatches(fmt, d, h, closed[i], cuts[i], cuts[i + 1]);
      }
    }
  }

  /** Sealing the active segment. */
  lemma {:induction false} SealingDoes(fmt: Format, s: LogState, h: seq<LogEntry>, announced: nat) returns (q: Place)
    requires LogOk(fmt, s, h, |h|) && s.active.Some? && s.active.value.positions != []
    requires s.active.value.cursor == s.active.value.nextFilePos
    ensures History(fmt, h) && Last(CutsOf(s)) < |h| == s.nextOffset
    ensures var calls := SealCalls(s.active.value, s.nextOffset);
            var all := s.closed + [SealedOf(fmt, h, Last(CutsOf(s)))];
            && Does(fmt, h, h, PlaceOf(s, h, announced), calls, q) && q.disk == ApplyAll(s.disk, calls)
            && SealedAs(q.disk, s.active.value) == SealedOf(fmt, h, Last(CutsOf(s)))
            && q.history == h && q.cuts == CutsOf(s) + [|h|] && q.announced == announced
            && Deletable(fmt, q, all, |h|) && |h| !in q.disk.segs && q.disk.watermark == Some(|h|)
  {
    hide LogOk, DiskOk, TailMatches, AllClosedMatch, AllClosedOk, History, Full, CutsOf, Does, ApplyAll, StoredAt,
      Stored, TailFull, Placed,
      SameBelow, ClosedMatches, SealedAs, SealedOf;
    LogParts(fmt, s, h, |h|);
    LogPlaced(fmt, s, h, |h|, announced);
    TailFacts(fmt, s, h);
    var p, cuts, a := PlaceOf(s, h, announced), CutsOf(s), s.active.value;
    EndIsNew(fmt, s.disk, h, cuts, |h|);
    q := SealDoes(fmt, p, a);
    DoesEnds(fmt, h, h, p, SealCalls(a, |h|), q);
    DoesKeeps(fmt, h, h, p, SealCalls(a, |h|), q, |h|);
    SealedMatches(fmt, q.disk, h, cuts, |h|, a);
    MatchUntouched(fmt, s.disk, q.disk, h, h, s.closed, cuts);
    AllMatch(fmt, q.disk, h, s.closed, cuts, SealedAs(q.disk, a));
    LastOf(cuts, |h|);
  }

  /** A roll seals the active segment and evicts what the policy names, one step of the writer after another. */
  lemma {:induction false} RollDoes(fmt: Format, policy: RetentionPolicy, now: u64, s: LogState, h: seq<LogEntry>,
                                    announced: nat)
    requires LogOk(fmt, s, h, |h|) && s.active.Some? && s.active.value.positions != []
    requires s.active.value.cursor == s.active.value.nextFilePos
    ensures var c := RollOf(policy, now, s);
            && LogOk(fmt, c.log, h, |h|) && RolledTo(fmt, policy, now, s.closed, CutsOf(s), h, c.log)
            && Does(fmt, h, h, PlaceOf(s, h, announced), c.calls, PlaceOf(c.log, h, announced))
  {
    hide LogOk, DiskOk, AllClosedMatch, AllClosedOk, History, CutsOf, Does, ApplyAll, SealedOf, SealedAs, SealCalls,
      Deletable, EvictedRun;
    var p, cuts := PlaceOf(s, h, announced), CutsOf(s);
    var q := SealingDoes(fmt, s, h, announced);
    var all := s.closed + [SealedOf(fmt, h, Last(cuts))];
    var k := EvictedRun(policy, now, all, 0);
    var r := DeletesDo(fmt, q, all, k, |h|);
    var sealing := SealCalls(s.active.value, s.nextOffset);
    DoesOn(fmt, h, h, p, sealing, q, DeleteCalls(all[..k]), r);
    var c := RollOf(policy, now, s);
    DoesEnds(fmt, h, h, p, c.calls, r);
    LastOf(cuts, |h|);
    RestIsLog(fmt, r, all[k..], c.log, |h|);
  }

  lemma {:induction false} RestIsLog(fmt: Format, r: Place, left: seq<ClosedSegment>, log: LogState, n: nat)
    requires Deletable(fmt, r, left, n) && r.cuts != [] && Last(r.cuts) == |r.history| && |r.history| !in r.disk.segs
    requires log.disk == r.disk && log.closed == left && log.active.None? && log.nextOffset == |r.history|
    ensures LogOk(fmt, log, r.history, n) && CutsOf(log) == r.cuts
  {
    hide LogOk, AllClosedMatch, AllClosedOk, History, CutsOf, TailOk, NoOthers;
    assert History(fmt, r.history);
    hide DiskOk;
    LogFrom(fmt, log, r.history, n, r.cuts);
  }

  // ---- a whole append ----

  /** What a batch that reached the log does to its history: appended whole with the next offsets, or not at all. */
  ghost predicate BatchOutcome(fmt: Format, h: seq<LogEntry>, ts: u64, producerId: string, events: seq<OtkEvent>,
                               r: Result<nat, StorageError>, g: seq<LogEntry>)
  {
    var k := FirstFault(fmt, |h|, producerId, events);
    if k < |events| then r == Err(Fault(fmt, |h| + k, producerId, events[k]).value) && g == h
    else |h| + |events| < U64_LIMIT && g == h + Batch(|h|, ts, producerId, events) && r == Ok(|g| - 1)
  }

  /** What happens to the segments: nothing, or a roll with retention exactly when the active segment is due. */
  ghost predicate RollOutcome(fmt: Format, config: Config, clock: Clock, before: LogState, appended: bool,
                              g: seq<LogEntry>, log: LogState) {
    var createdAtNs := if before.active.Some? then before.active.value.createdAtNs else clock.created;
    if appended && ShouldRoll(config, clock.rollCheck, BytesFrom(fmt, g, Last(CutsOf(before))), createdAtNs)
    then RolledTo(fmt, config.retention, clock.retention, before.closed, CutsOf(before), g, log)
    else log.closed == before.closed && log.active.Some? && CutsOf(log) == CutsOf(before)
  }

  /** The log's history once an append has returned `r`. */
  function Accepted(h: seq<LogEntry>, r: Result<nat, StorageError>, ts: u64, producerId: string,
                    events: seq<OtkEvent>): seq<LogEntry> {
    if r.Ok? && |h| + |events| <= U64_LIMIT then h + Batch(|h|, ts, producerId, events) else h
  }

  /**
   * An append, from a log that holds `h`: it is appended whole or refused whole, the segment is rolled exactly when
   * due, and the calls it makes are single steps of the writer, in each of which what was written is `h` and at most a
   * part of the batch.
   */
  lemma {:induction false} AppendDoes(fmt: Format, config: Config, clock: Clock, s: LogState, h: seq<LogEntry>, n: nat,
                                     producerId: string, events: seq<OtkEvent>)
    requires LogOk(fmt, s, h, n) && events != [] && producerId != ""
    ensures |h| < U64_LIMIT
    ensures var a := AppendOf(fmt, config, clock, s, producerId, events);
            var g := Accepted(h, a.r, clock.stamp, producerId, events);
            && BatchOutcome(fmt, h, clock.stamp, producerId, events, a.r, g)
            && RollOutcome(fmt, config, clock, s, a.r.Ok?, g, a.log)
            && LogOk(fmt, a.log, g, if a.r.Ok? then |g| else n)
            && Does(fmt, h, h + Attempt(fmt, |h|, clock.stamp, producerId, events), PlaceOf(s, h, |h|), a.calls,
                    PlaceOf(a.log, g, |g|))
  {
    hide LogOk, DiskOk, Does, FirstFault, Fault, Attempt, EnsuredOf, CommitOf, CutsOf, RolledTo, ShouldRoll, BytesFrom,
      RollOf, History;
    LogPlaced(fmt, s, h, n, |h|);
    HistoryFits(fmt, h);
    EnsureDoes(fmt, s, h, n, clock.created, |h|);
    var ensured := EnsuredOf(s, clock.created);
    var high := h + Attempt(fmt, |h|, clock.stamp, producerId, events);
    var p, p1 := PlaceOf(s, h, |h|), PlaceOf(ensured.log, h, |h|);
    DoesWider(fmt, h, h, p, ensured.calls, p1, h, high);
    var c := CommitOf(fmt, ensured.log, clock.stamp, producerId, events);
    if FirstFault(fmt, |h|, producerId, events) < |events| {
      RefusedDoes(fmt, ensured.log, h, n, clock.stamp, producerId, events, |h|);
      DoesOn(fmt, h, high, p, ensured.calls, p1, c.calls, PlaceOf(c.log, h, |h|));
    } else {
      WholeAttempt(fmt, |h|, clock.stamp, producerId, events);
      var g := h + Batch(|h|, clock.stamp, producerId, events);
      CommitDoes(fmt, ensured.log, h, n, clock.stamp, producerId, events, |h|);
      var p2 := PlaceOf(c.log, g, |g|);
      DoesOn(fmt, h, high, p, ensured.calls, p1, c.calls, p2);
      if DueToRoll(config, clock.rollCheck, c.log) {
        RollDoes(fmt, config.retention, clock.retention, c.log, g, |g|);
        var rolled := RollOf(config.retention, clock.retention, c.log);
        var p3 := PlaceOf(rolled.log, g, |g|);
        DoesWider(fmt, g, g, p2, rolled.calls, p3, h, high);
        DoesOn(fmt, h, high, p, ensured.calls + c.calls, p2, rolled.calls, p3);
      }
    }
  }

  // ---- the log ----

  class SegmentLog {
    const fmt: Format
    const config: Config
    var disk: Directory
    var closed: seq<ClosedSegment>
    var active: Option<ActiveSegment>
    var nextOffset: u64
    /** Every entry the log holds or has held, by offset, and how many of them survive any crash. */
    ghost var history: seq<LogEntry>
    ghost var certain: nat

    function State(): LogState
      reads this
    {
      LogState(disk, closed, active, nextOffset)
    }

    ghost predicate Valid()
      reads this
    {
      fmt.Lawful() && LogOk(fmt, State(), history, certain)
    }

    constructor (fmt: Format, config: Config, loaded: LogState, ghost history: seq<LogEntry>, ghost certain: nat)
      ensures this.fmt == fmt && this.config == config && State() == loaded
      ensures this.history == history && this.certain == certain
    {
      this.fmt, this.config := fmt, config;
      disk, closed, active, nextOffset := loaded.disk, loaded.closed, loaded.active, loaded.nextOffset;
      this.history, this.certain := history, certain;
    }

    /**
     * Open a directory. If it is the log's own, in any state a crash can leave it in, with history `h` of which the
     * first `n` entries were certain, opening succeeds exactly when every index is within the limit, and the log holds
     * the entries from `cuts[0]` up to some offset at or after `n`, unchanged.
     */
    static method Open(ghost h: seq<LogEntry>, ghost cuts: seq<nat>, ghost n: nat, fmt: Format, config: Config,
                       d: Directory, now: u64)
      returns (r: Result<SegmentLog, StorageError>, ghost calls: seq<IoCall>)
      requires Named(d)
      ensures r.Ok? ==> fresh(r.value) && r.value.fmt == fmt && r.value.config == config
      ensures var o := OpenOf(fmt, d, now);
              && calls == o.calls
              && (if o.failure.Some? then r == Err(o.failure.value) else r.Ok? && r.value.State() == o.log)
      ensures fmt.Lawful() && DiskOk(fmt, d, h, cuts, n) ==>
                && (r.Ok? <==> IndexesFit(d)) && (r.Err? ==> r.error == Corrupted)
                && (r.Ok? ==> && r.value.Valid() && CutsOf(r.value.State()) == cuts && r.value.certain == n
                              && n <= |r.value.history| <= |h| && r.value.history == h[..|r.value.history|])
    {
      hide DiskOk, LogOk, LoadAll, IndexesFit, History, DiskEnd, CutsOf, SortedKeys, Named;
      var failure, loaded;
      failure, loaded, calls := LoadDirectory(fmt, d, now);
      ghost var own := fmt.Lawful() && DiskOk(fmt, d, h, cuts, n);
      if own { OpensOwn(fmt, d, h, cuts, n, now); }
      if failure.Some? {
        return Err(failure.value), calls;
      }
      var log := new SegmentLog(fmt, config, loaded, if own then h[..DiskEnd(fmt, d, h, cuts)] else [], n);
      return Ok(log), calls;
    }

    method EnsureActive(now: u64) returns (ghost calls: seq<IoCall>)
      modifies `disk, `active
      ensures Change(State(), calls) == EnsuredOf(old(State()), now)
    {
      hide Apply, ApplyAll, HeaderBytes;
      calls := [];
      if active.Some? {
        return;
      }
      var base := nextOffset;
      var header := HeaderBytes(SegmentHeader(base, now));
      calls := [CreateFile(base), WriteFile(base, 0, header)];
      ApplyTwo(disk, CreateFile(base), WriteFile(base, 0, header));
      disk := Apply(disk, CreateFile(base));
      disk := Apply(disk, WriteFile(base, 0, header));
      active := Some(ActiveSegment(base, [], 0, now, HEADER_LEN, 0, HEADER_LEN));
    }

    /** Seek to the write position, write the batch, fsync, commit to memory and notify; or undo it. */
    method CommitBatch(ts: u64, producerId: string, events: seq<OtkEvent>)
      returns (r: Result<nat, StorageError>, ghost calls: seq<IoCall>)
      requires active.Some? && events != []
      modifies `disk, `active, `nextOffset
      ensures Appended(r, State(), calls) == CommitOf(fmt, old(State()), ts, producerId, events)
    {
      hide Apply, ApplyAll, WriteEvents;
      var a := active.value;
      var start := a.nextFilePos;
      ghost var before := disk;
      var written, cursor;
      ghost var writing;
      WrittenFits(fmt, a.baseOffset, start, start, nextOffset, ts, producerId, events);
      written, disk, cursor, writing := WriteBatch(fmt, disk, a.baseOffset, start, nextOffset, ts, producerId, events);
      calls := writing;
      if written.Err? {
        active := Some(a.(cursor := cursor));
        return Err(written.error), calls;
      }
      ApplyTwo(disk, SyncFile(a.baseOffset), NotifyWaiters);
      ApplyConcat(before, writing, [SyncFile(a.baseOffset), NotifyWaiters]);
      calls := writing + [SyncFile(a.baseOffset), NotifyWaiters];
      disk := Apply(disk, SyncFile(a.baseOffset));
      active := Some(a.(positions := a.positions + written.value, nextFilePos := cursor,
                        byteSize := SaturatingSub(cursor, HEADER_LEN), lastAppendedAtNs := ts, cursor := cursor));
      nextOffset := nextOffset + |events|;
      disk := Apply(disk, NotifyWaiters);
      return Ok(nextOffset - 1), calls;
    }

    /** Close the active segment and enforce retention. */
    method RollSegment(now: u64) returns (ghost calls: seq<IoCall>)
      modifies `disk, `active, `closed
      ensures Change(State(), calls) == RollOf(config.retention, now, old(State()))
    {
      hide Apply, ApplyAll, EvictedRun, DeleteCalls, SealCalls;
      calls := [];
      if active.None? {
        return;
      }
      if active.value.positions == [] {
        calls := [Unlink(active.value.baseOffset)];
        ApplyOne(disk, Unlink(active.value.baseOffset));
        disk := Apply(disk, Unlink(active.value.baseOffset));
        active := None;
        return;
      }
      ghost var before := disk;
      ghost var sealing, evicting;
      var sealed;
      disk, sealed, sealing := SealSegment(disk, active.value, nextOffset);
      active := None;
      closed := closed + [sealed];
      disk, closed, evicting := EnforceRetention(config.retention, now, disk, closed, 0);
      ApplyConcat(before, sealing, evicting);
      calls := sealing + evicting;
    }

    /**
     * Append a batch. A batch that is refused leaves the log as it was; otherwise its entries get the next offsets, in
     * order, are durable, and the segment is rolled and retention enforced when due.
     */
    method Append(producerId: string, events: seq<OtkEvent>, clock: Clock)
      returns (r: Result<nat, StorageError>, ghost calls: seq<IoCall>)
      requires Valid()
      modifies this
      ensures Valid()
      ensures Appended(r, State(), calls) == AppendOf(fmt, config, clock, old(State()), producerId, events)
      ensures events == [] || producerId == "" ==> r == Err(InvalidInput) && unchanged(this) && calls == []
      ensures events != [] && producerId != "" ==>
                && BatchOutcome(fmt, old(history), clock.stamp, producerId, events, r, history)
                && RollOutcome(fmt, config, clock, old(State()), r.Ok?, history, State())
                && certain == if r.Ok? then |history| else old(certain)
    {
      hide LogOk, BatchOutcome, RollOutcome, Attempt, EnsuredOf, CommitOf, RollOf, Does, FirstFault, Accepted,
        ShouldRoll;
      calls := [];
      if events == [] {
        return Err(InvalidInput), [];
      }
      if producerId == "" {
        return Err(InvalidInput), [];
      }
      AppendDoes(fmt, config, clock, State(), history, certain, producerId, events);
      ghost var ensuring := EnsureActive(clock.created);
      ghost var committing;
      r, committing := CommitBatch(clock.stamp, producerId, events);
      calls := ensuring + committing;
      if r.Ok? && active.Some? && ShouldRoll(config, clock.rollCheck, active.value.byteSize, active.value.createdAtNs) {
        ghost var rolling := RollSegment(clock.retention);
        calls := calls + rolling;
      }
      history := Accepted(history, r, clock.stamp, producerId, events);
      certain := if r.Ok? then |history| else certain;
    }

    /** A range read answers exactly the slice of the committed history; only the file handle's cursor may move. */
    method ReadRange(from: u64, to: Option<u64>) returns (r: Result<seq<LogEntry>, StorageError>)
      requires Valid()
      modifies `active
      ensures Valid() && r == ReadOf(fmt, old(State()), from, to)
      ensures r == RangeOf(history, First(State()), from, to) && First(State()) == First(old(State()))
      ensures active == old(active) ||
              (active.Some? && old(active).Some? && active.value == old(active).value.(cursor := active.value.cursor))
      ensures r.Ok? && from < nextOffset && ActiveEnd(old(State()), from, to).Some? ==>
                active.Some? && active.value.cursor ==
                EndAt(fmt, FileOf(disk, active.value.baseOffset).data, active.value.positions,
                      ActiveEnd(old(State()), from, to).value - 1 - active.value.baseOffset)
    {
      hide LogOk, CutsOf, ReadOf, EndAt;
      var cursor;
      ReadOfIs(fmt, State(), history, certain, from, to);
      r, cursor := SegmentReading.ReadRange(fmt, State(), from, to);
      if cursor.Some? {
        CursorMoves(fmt, State(), history, certain, cursor.value);
        active := Some(active.value.(cursor := cursor.value));
      }
    }

    method EarliestOffset() returns (r: Option<nat>)
      requires Valid()
      ensures r == if First(State()) == |history| then None else Some(First(State()))
    {
      WindowFacts(fmt, State(), history, certain);
      r := EarliestRaw(closed, active);
    }

    method LatestOffset() returns (r: Option<int>)
      requires Valid()
      ensures r == if history == [] then None else Some(|history| - 1)
    {
      WindowFacts(fmt, State(), history, certain);
      r := LatestRaw(closed, active, nextOffset);
    }

    /** A subscription may start at any retained offset, or at or past the tail. */
    method Subscribe(from: u64) returns (r: Result<SegmentLogSubscription, StorageError>)
      requires Valid()
      ensures r.Ok? <==> from >= |history| || First(State()) <= from
      ensures r.Ok? ==> fresh(r.value) && r.value.fmt == fmt && r.value.State() == Sub(from, None, false)
      ensures r.Err? ==>
          r.error == RetentionExpired(from, if First(State()) == |history| then None else Some(First(State())))
    {
      hide LogOk, CutsOf;
      LogPlaced(fmt, State(), history, certain, 0);
      WindowFacts(fmt, State(), history, certain);
      if from < nextOffset {
        if FullyEvicted(closed, active, nextOffset) {
          return Err(RetentionExpired(from, None));
        }
        var earliest := EarliestRaw(closed, active);
        if earliest.Some? && from < earliest.value {
          return Err(RetentionExpired(from, Some(earliest.value)));
        }
      }
      var sub := new SegmentLogSubscription(fmt, from);
      return Ok(sub);
    }
  }
}
