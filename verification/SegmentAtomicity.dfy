/** When an append is all or nothing across a crash, and which entries survive one. */
module SegmentAtomicity {
  import opened Bytes
  import opened EventModel
  import opened EventLogPort
  import opened SegmentRecords
  import opened SegmentFiles
  import opened SegmentDisk
  import opened SegmentIo
  import opened SegmentState
  import opened SegmentSteps
  import opened SegmentWriting
  import opened SegmentRecovery
  import opened SegmentLogs
  import opened SegmentRuns

  /** The offset at which a log goes on that is opened from `left`. */
  ghost predicate ReopensAt(fmt: Format, left: Directory, now: u64, next: nat) {
    Named(left) && OpenOf(fmt, left, now).failure.None? && OpenOf(fmt, left, now).log.nextOffset == next
  }

  /** What is left of the append by a crash after some of its calls. */
  ghost predicate CrashLeaves(fmt: Format, config: Config, clock: Clock, s: LogState, producerId: string,
                              events: seq<OtkEvent>,
                              calls: nat, left: Directory)
  {
    var made := AppendOf(fmt, config, clock, s, producerId, events).calls;
    calls <= |made| && CrashOf(ApplyAll(s.disk, made[..calls]), left)
  }

  /** Whatever call a crash follows, whatever it leaves: the log goes on without the batch or with all of it. */
  ghost predicate AllOrNothing(fmt: Format, config: Config, clock: Clock, s: LogState, producerId: string,
                               events: seq<OtkEvent>) {
    forall calls: nat, left, now: u64, next: nat ::
      CrashLeaves(fmt, config, clock, s, producerId, events, calls, left) && ReopensAt(fmt, left, now, next) ==>
        next == s.nextOffset || next == s.nextOffset + |events|
  }

  // ---- a crash after the first record ----

  /** The calls up to the first record, and where they lead. */
  lemma {:induction false} FirstRecord(fmt: Format, config: Config, clock: Clock, s: LogState, h: seq<LogEntry>, n: nat,
                                      producerId: string, events: seq<OtkEvent>)
    returns (calls: nat, p: Place)
    requires LogOk(fmt, s, h, n) && events != [] && producerId != "" && Fault(fmt, |h|, producerId, events[0]).None?
    ensures |h| + 1 < U64_LIMIT
    ensures var made := AppendOf(fmt, config, clock, s, producerId, events).calls;
            calls <= |made| && p.disk == ApplyAll(s.disk, made[..calls])
            && Does(fmt, h, p.history, PlaceOf(s, h, |h|), made[..calls], p)
    ensures DiskOk(fmt, p.disk, p.history, p.cuts, n) && Placed(fmt, p) && TailFull(fmt, p)
    ensures p.history == h + [LogEntry(|h|, clock.stamp, producerId, events[0])] && p.cuts == CutsOf(s)
    ensures forall c :: c in AppendOf(fmt, config, clock, s, producerId, events).calls[..calls] ==>
        c.CreateFile? || c.WriteFile?
    ensures p.disk.idxs == s.disk.idxs && p.disk.segs.Keys == s.disk.segs.Keys + {Last(p.cuts)}
  {
    hide LogOk, DiskOk, Does, Placed, TailFull, StepsBy, Refusal, EnsuredOf, CommitOf, RollOf, CutsOf, History,
      ApplyAll, RecordBytes,
      Writable, InBatch, Full, Grown, DueToRoll;
    LogPlaced(fmt, s, h, n, |h|);
    LogDisk(fmt, s, h, n);
    EnsureDoes(fmt, s, h, n, clock.created, |h|);
    EnsuredDisk(fmt, s, h, n, clock.created);
    var c := EnsuredOf(s, clock.created);
    var p0, p1 := PlaceOf(s, h, |h|), PlaceOf(c.log, h, |h|);
    HistoryFits(fmt, h);
    FaultOrWritable(fmt, |h|, clock.stamp, producerId, events);
    var e := LogEntry(|h|, clock.stamp, producerId, events[0]);
    EnsuredTail(fmt, c.log, h, n);
    var t := Last(CutsOf(c.log));
    var f := c.log.disk.segs[t];
    BatchStarts(fmt, f, h, t);
    RecordStep(fmt, p1, f, h, f, h, [], e);
    GrownAgain(p1, f, h, f);
    p := Grown(p1, f.(data := f.data + RecordBytes(fmt, e)), h + [e]);
    GrownAgain(p1, f.(data := f.data + RecordBytes(fmt, e)), h + [e], f);
    var call := WriteFile(t, |f.data|, RecordBytes(fmt, e));
    DoesWider(fmt, h, h, p0, c.calls, p1, h, h + [e]);
    DoesMore(fmt, h, h + [e], p0, c.calls, p1, Record(e), call, p);
    DoesEnds(fmt, h, h + [e], p0, c.calls + [call], p);
    DoesKeeps(fmt, h, h + [e], p0, c.calls + [call], p, n);
    FirstCalls(fmt, config, clock, s, h, producerId, events, t, |f.data|);
    calls := |c.calls| + 1;
    EnsuredCalls(s, clock.created);
    InBatchIs(fmt, f, h, t, f.(data := f.data + RecordBytes(fmt, e)), h + [e], [] + [|f.data|], p);
    GrownKeys(p1, f.(data := f.data + RecordBytes(fmt, e)), h + [e]);
  }

  lemma {:induction false} EnsuredCalls(s: LogState, now: u64)
    ensures forall c :: c in EnsuredOf(s, now).calls ==> c.CreateFile? || c.WriteFile?
  {
    hide HeaderBytes, ApplyAll;
  }

  lemma {:induction false} EnsuredDisk(fmt: Format, s: LogState, h: seq<LogEntry>, n: nat, now: u64)
    requires LogOk(fmt, s, h, n)
    ensures var c := EnsuredOf(s, now);
            c.log.disk.idxs == s.disk.idxs && c.log.disk.segs.Keys == s.disk.segs.Keys + {Last(CutsOf(c.log))}
  {
    hide LogOk, HeaderBytes, WriteAt, TailMatches, DiskOk, AllClosedMatch, AllClosedOk, History, Full;
    LogParts(fmt, s, h, n);
    TailFacts(fmt, s, h);
    if s.active.None? {
      var base := s.nextOffset;
      ApplyTwo(s.disk, CreateFile(base), WriteFile(base, 0, HeaderBytes(SegmentHeader(base, now))));
    }
  }

  lemma {:induction false} EnsuredTail(fmt: Format, s: LogState, h: seq<LogEntry>, n: nat)
    requires LogOk(fmt, s, h, n) && s.active.Some?
    ensures History(fmt, h) && Last(CutsOf(s)) <= |h| && Last(CutsOf(s)) in s.disk.segs
    ensures Full(fmt, s.disk.segs[Last(CutsOf(s))], h, Last(CutsOf(s)))
    ensures s.active.value.baseOffset == Last(CutsOf(s))
    ensures s.active.value.nextFilePos == |s.disk.segs[Last(CutsOf(s))].data|
    ensures s.nextOffset == |h|
  {
    hide LogOk, TailMatches, DiskOk, AllClosedMatch, AllClosedOk, History, Full;
    LogParts(fmt, s, h, n);
    TailFacts(fmt, s, h);
  }

  lemma {:induction false} FirstCalls(fmt: Format, config: Config, clock: Clock, s: LogState, h: seq<LogEntry>,
                                      producerId: string,
                                     events: seq<OtkEvent>, t: nat, pos: nat)
    requires events != [] && producerId != "" && |h| < U64_LIMIT && Fault(fmt, |h|, producerId, events[0]).None?
    requires s.nextOffset == |h|
    requires Writable(fmt, LogEntry(|h|, clock.stamp, producerId, events[0]))
    requires var a := EnsuredOf(s, clock.created).log.active.value; a.baseOffset == t && a.nextFilePos == pos
    ensures var ensured := EnsuredOf(s, clock.created).calls;
            var made := AppendOf(fmt, config, clock, s, producerId, events).calls;
            var call := WriteFile(t, pos, RecordBytes(fmt, LogEntry(|h|, clock.stamp, producerId, events[0])));
            |ensured| + 1 <= |made| && made[..|ensured| + 1] == ensured + [call]
  {
    hide EnsuredOf, RollOf, RecordBytes, Refusal, ApplyAll, DueToRoll;
    var ensured := EnsuredOf(s, clock.created);
    var c := CommitOf(fmt, ensured.log, clock.stamp, producerId, events);
    assert c.calls != [];
    assert c.calls[0] == WriteFile(t, pos, RecordBytes(fmt, LogEntry(|h|, clock.stamp, producerId, events[0])));
    var made := AppendOf(fmt, config, clock, s, producerId, events).calls;
    assert ensured.calls + c.calls <= made;
  }

  lemma {:induction false} InBatchIs(fmt: Format, f0: SegFile, h: seq<LogEntry>, t: nat, f: SegFile, g: seq<LogEntry>,
                                     positions: seq<nat>,
                                    p: Place)
    requires InBatch(fmt, f0, h, t, f, g, positions) && p.cuts != [] && Last(p.cuts) == t && p.history == g
    requires t in p.disk.segs && p.disk.segs[t] == f
    ensures Placed(fmt, p) && TailFull(fmt, p)
  {
    hide History, Full, Stored, StoredAt;
  }

  lemma {:induction false} GrownKeys(p: Place, f: SegFile, g: seq<LogEntry>)
    requires p.cuts != []
    ensures var q := Grown(p, f, g); q.disk.idxs == p.disk.idxs && q.disk.segs.Keys == p.disk.segs.Keys + {Last(p.cuts)}
  {
  }

  /** Everything that reached the files may survive: a crash can leave the directory as it is. */
  lemma {:induction false} CrashLeavesAll(fmt: Format, d: Directory, h: seq<LogEntry>, cuts: seq<nat>, n: nat)
    requires DiskOk(fmt, d, h, cuts, n)
    ensures CrashOf(d, d)
  {
    hide History, HasHeader, Stored, StoredAt;
    forall b | b in d.segs
      ensures CutOf(d.segs[b], d.segs[b])
    {
      var i :| 0 <= i < |cuts| && cuts[i] == b;
      if i < |cuts| - 1 {
        assert ClosedOk(fmt, d, h, cuts[i], cuts[i + 1]);
      }
      assert d.segs[b].data == d.segs[b].data[..|d.segs[b].data|];
    }
  }

  /** A directory whose tail file is complete reopens where its history ends. */
  lemma {:induction false} ReopensWhole(fmt: Format, p: Place, n: nat, now: u64)
    requires fmt.Lawful() && DiskOk(fmt, p.disk, p.history, p.cuts, n) && Placed(fmt, p) && TailFull(fmt, p)
    requires IndexesFit(p.disk)
    ensures ReopensAt(fmt, p.disk, now, |p.history|)
  {
    hide DiskOk, History, LoadAll, Recoverable, IndexesFit, SortedKeys, Named, LogOk, CutsOf, DiskEnd, Full;
    OpensOwn(fmt, p.disk, p.history, p.cuts, n, now);
    FullSynced(fmt, p.disk.segs[Last(p.cuts)], p.history, Last(p.cuts));
    EndReaches(fmt, p.disk, p.history, p.cuts, |p.history|);
    LogPlaced(fmt, OpenOf(fmt, p.disk, now).log, p.history[..|p.history|], n, 0);
  }

  /**
   * A batch of two or more events, the first of which can be appended, is not all or nothing: a crash behind the first
   * record that leaves the file whole reopens with that record alone.
   */
  lemma {:induction false} PartMaySurvive(fmt: Format, config: Config, clock: Clock, s: LogState, h: seq<LogEntry>,
                                         producerId: string, events: seq<OtkEvent>)
    returns (calls: nat, left: Directory)
    requires fmt.Lawful() && LogOk(fmt, s, h, |h|) && IndexesFit(s.disk) && |events| >= 2 && producerId != ""
    requires Fault(fmt, |h|, producerId, events[0]).None?
    ensures CrashLeaves(fmt, config, clock, s, producerId, events, calls, left)
    ensures s.nextOffset == |h| && ReopensAt(fmt, left, 0, |h| + 1)
  {
    hide IndexesFit, LogOk, DiskOk, Placed, TailFull, Refusal, AppendOf, CutsOf, History, ApplyAll, ReopensAt, CrashOf;
    LogPlaced(fmt, s, h, |h|, |h|);
    var p;
    calls, p := FirstRecord(fmt, config, clock, s, h, |h|, producerId, events);
    left := p.disk;
    CrashLeavesAll(fmt, p.disk, p.history, p.cuts, |h|);
    PlacedCuts(fmt, p);
    TailNotIndexedIn(fmt, p.disk, p.history, p.cuts, |h|);
    StillFits(s.disk, p.disk, Last(p.cuts));
    ReopensWhole(fmt, p, |h|, 0);
  }

  lemma {:induction false} StillFits(d: Directory, c: Directory, t: nat)
    requires IndexesFit(d) && c.idxs == d.idxs && c.segs.Keys == d.segs.Keys + {t} && t !in c.idxs
    ensures IndexesFit(c)
  {
  }

  lemma {:induction false} PlacedCuts(fmt: Format, p: Place)
    requires Placed(fmt, p)
    ensures p.cuts != []
  {
  }

  /** With one event at most to write, what survives is nothing of the batch or all of it. */
  lemma {:induction false} OneSurvives(fmt: Format, config: Config, clock: Clock, s: LogState, h: seq<LogEntry>,
                                      producerId: string, events: seq<OtkEvent>, calls: nat, left: Directory,
                                      now: u64, next: nat)
    requires fmt.Lawful() && LogOk(fmt, s, h, |h|) && |h| < U64_LIMIT
    requires CrashLeaves(fmt, config, clock, s, producerId, events, calls, left) && ReopensAt(fmt, left, now, next)
    ensures s.nextOffset == |h| <= next <= |h| + FirstFault(fmt, |h|, producerId, events)
  {
    hide LogOk, DiskOk, AppendOf, CutsOf, History, CrashOf, LoadAll, SortedKeys, Named, Attempt;
    var a, b, c := Up(s), Down(left), Up(OpenOf(fmt, left, now).log);
    var turn := Crash(config, clock, producerId, events, calls, left);
    var p := Past(h, CutsOf(s), |h|);
    var q := CrashKnows(fmt, a, turn, b, p);
    var r := ReopenKnows(fmt, b, Reopen(now), c, q);
    hide Knows, Takes;
    KnowsParts(fmt, a, p);
    KnowsParts(fmt, c, r);
  }

  /**
   * An append is all or nothing across every crash exactly if the batch has one event, or its first event is refused.
   * That is the most the code gives of the port's promise of atomicity.
   */
  lemma {:induction false} AtomicExactlyWhen(fmt: Format, config: Config, clock: Clock, s: LogState, h: seq<LogEntry>,
                                            producerId: string, events: seq<OtkEvent>)
    requires fmt.Lawful() && LogOk(fmt, s, h, |h|) && IndexesFit(s.disk) && events != [] && producerId != ""
    ensures AllOrNothing(fmt, config, clock, s, producerId, events) <==>
            |events| == 1 || Fault(fmt, |h|, producerId, events[0]).Some?
  {
    hide LogOk, CrashLeaves, ReopensAt, Refusal, IndexesFit, CutsOf;
    LogPlaced(fmt, s, h, |h|, |h|);
    HistoryFits(fmt, h);
    if |events| == 1 || Fault(fmt, |h|, producerId, events[0]).Some? {
      assert FirstFault(fmt, |h|, producerId, events) <= 1;
      forall calls: nat, left, now: u64, next: nat
        | CrashLeaves(fmt, config, clock, s, producerId, events, calls, left) && ReopensAt(fmt, left, now, next)
        ensures next == s.nextOffset || next == s.nextOffset + |events|
      {
        OneSurvives(fmt, config, clock, s, h, producerId, events, calls, left, now, next);
      }
    } else {
      var calls, left := PartMaySurvive(fmt, config, clock, s, h, producerId, events);
      assert |h| + 1 != s.nextOffset && |h| + 1 != s.nextOffset + |events|;
    }
  }

  // ---- a crash after the sync ----

  /** An accepted batch's calls: its records, one sync, and the notification. */
  lemma {:induction false} AcceptedCalls(fmt: Format, config: Config, clock: Clock, s: LogState, producerId: string,
                                        events: seq<OtkEvent>)
    requires events != [] && producerId != "" && FirstFault(fmt, s.nextOffset, producerId, events) == |events|
    ensures var ensured := EnsuredOf(s, clock.created);
            var c := CommitOf(fmt, ensured.log, clock.stamp, producerId, events);
            var made := AppendOf(fmt, config, clock, s, producerId, events).calls;
            && c.r.Ok? && |c.calls| >= 2 && c.calls[|c.calls| - 1] == NotifyWaiters
            && c.calls[|c.calls| - 2].SyncFile?
            && (forall i :: 0 <= i < |c.calls| - 2 ==> c.calls[i].WriteFile?)
            && made == ensured.calls + c.calls + (if DueToRoll(config, clock.rollCheck, c.log)
                                                  then RollOf(config.retention, clock.retention, c.log).calls else [])
  {
    hide FirstFault, ApplyAll, WriteEvents, EnsuredOf, DueToRoll, RollOf;
    var ensured := EnsuredOf(s, clock.created);
    var a := ensured.log.active.value;
    WritesCutNothing(fmt, a.baseOffset, a.nextFilePos, a.nextFilePos, s.nextOffset, clock.stamp, producerId, events);
    var w := WriteEvents(fmt, a.baseOffset, a.nextFilePos, a.nextFilePos, s.nextOffset, clock.stamp, producerId,
                         events);
    assert forall i :: 0 <= i < |w.calls| ==> w.calls[i] in w.calls;
    var c := CommitOf(fmt, ensured.log, clock.stamp, producerId, events);
    assert ensured.calls + c.calls + [] == ensured.calls + c.calls;
  }

  /** Which part of the calls has been made once a file has been synced. */
  lemma {:induction false} SyncComes(ensured: seq<IoCall>, batch: seq<IoCall>, rolling: seq<IoCall>, calls: nat)
    requires calls <= |ensured + batch + rolling| && |batch| >= 2 && batch[|batch| - 1] == NotifyWaiters
    requires forall c :: c in ensured ==> c.CreateFile? || c.WriteFile?
    requires forall i :: 0 <= i < |batch| - 2 ==> batch[i].WriteFile?
    requires exists c :: c in (ensured + batch + rolling)[..calls] && c.SyncFile?
    ensures calls >= |ensured| + |batch| - 1
    ensures calls == |ensured| + |batch| - 1 ==>
              (ensured + batch + rolling)[..calls] + [NotifyWaiters] == ensured + batch
    ensures calls >= |ensured| + |batch| ==>
              (ensured + batch + rolling)[..calls] == ensured + batch + rolling[..calls - |ensured| - |batch|]
  {
    var made := ensured + batch + rolling;
    forall j | 0 <= j < |ensured| + |batch| - 2
      ensures !made[j].SyncFile?
    {
      if j < |ensured| {
        assert made[j] == ensured[j] && ensured[j] in ensured;
      } else {
        assert made[j] == batch[j - |ensured|];
      }
    }
    var i :| 0 <= i < calls && made[..calls][i].SyncFile?;
    assert made[i].SyncFile?;
  }

  /** The directory after the sync, or any call after it, holds the whole batch for certain. */
  lemma {:induction false} SyncedDisk(fmt: Format, config: Config, clock: Clock, s: LogState, h: seq<LogEntry>, n: nat,
                                     producerId: string, events: seq<OtkEvent>, calls: nat)
    returns (g: seq<LogEntry>, cuts: seq<nat>)
    requires LogOk(fmt, s, h, n) && |h| < U64_LIMIT && events != [] && producerId != ""
    requires FirstFault(fmt, |h|, producerId, events) == |events|
    requires calls <= |AppendOf(fmt, config, clock, s, producerId, events).calls|
    requires exists c :: c in AppendOf(fmt, config, clock, s, producerId, events).calls[..calls] && c.SyncFile?
    ensures |g| == |h| + |events|
    ensures DiskOk(fmt, ApplyAll(s.disk, AppendOf(fmt, config, clock, s, producerId, events).calls[..calls]), g, cuts,
                   |g|)
  {
    hide LogOk, DiskOk, Does, Placed, EnsuredOf, CommitOf, RollOf, AppendOf, CutsOf, History, ApplyAll, DueToRoll,
      FirstFault, RolledTo,
      BytesFrom, Apply;
    LogPlaced(fmt, s, h, n, |h|);
    EnsureDoes(fmt, s, h, n, clock.created, |h|);
    EnsuredCalls(s, clock.created);
    AcceptedCalls(fmt, config, clock, s, producerId, events);
    var ensured := EnsuredOf(s, clock.created);
    LogPlaced(fmt, ensured.log, h, n, |h|);
    CommitDoes(fmt, ensured.log, h, n, clock.stamp, producerId, events, |h|);
    g := h + Batch(|h|, clock.stamp, producerId, events);
    var c := CommitOf(fmt, ensured.log, clock.stamp, producerId, events);
    var p0, p1, p2 := PlaceOf(s, h, |h|), PlaceOf(ensured.log, h, |h|), PlaceOf(c.log, g, |g|);
    DoesEnds(fmt, h, h, p0, ensured.calls, p1);
    DoesEnds(fmt, h, g, p1, c.calls, p2);
    ApplyConcat(s.disk, ensured.calls, c.calls);
    LogDisk(fmt, c.log, g, |g|);
    var made := AppendOf(fmt, config, clock, s, producerId, events).calls;
    var due := DueToRoll(config, clock.rollCheck, c.log);
    var rolling := if due then RollOf(config.retention, clock.retention, c.log).calls else [];
    SyncComes(ensured.calls, c.calls, rolling, calls);
    cuts := CutsOf(c.log);
    if calls < |ensured.calls| + |c.calls| {
      NotifyingKeepsDisk(s.disk, made[..calls]);
      assert ApplyAll(s.disk, made[..calls]) == c.log.disk;
    } else {
      var k := calls - |ensured.calls| - |c.calls|;
      ApplyConcat(s.disk, ensured.calls + c.calls, rolling[..k]);
      if due {
        RollDoes(fmt, config.retention, clock.retention, c.log, g, |g|);
        var rolled := RollOf(config.retention, clock.retention, c.log);
        var x := DoesPrefix(fmt, g, g, p2, rolling, PlaceOf(rolled.log, g, |g|), k);
        DoesEnds(fmt, g, g, p2, rolling[..k], x);
        DoesKeeps(fmt, g, g, p2, rolling[..k], x, |g|);
        cuts := x.cuts;
        assert ApplyAll(s.disk, made[..calls]) == x.disk && x.history == g;
      } else {
        assert rolling[..k] == [];
        ApplyNothing(c.log.disk);
        assert ApplyAll(s.disk, made[..calls]) == c.log.disk;
      }
    }
  }

  lemma {:induction false} NotifyingKeepsDisk(d: Directory, calls: seq<IoCall>)
    ensures ApplyAll(d, calls + [NotifyWaiters]) == ApplyAll(d, calls)
  {
    hide ApplyAll;
    ApplyMore(d, calls, NotifyWaiters);
  }

  /**
   * Once an accepted append has synced its file, no crash loses anything of its batch, before or after the append
   * returns: the log goes on behind all of it. Waiting subscriptions are woken only after that; one that is reading can
   * deliver a record before, and `SafeExactlyWhen` says that a crash may then take it back.
   */
  lemma {:induction false} SyncedSurvives(fmt: Format, config: Config, clock: Clock, s: LogState, h: seq<LogEntry>,
                                          n: nat,
                                         producerId: string, events: seq<OtkEvent>, calls: nat, left: Directory,
                                         now: u64, next: nat)
    requires fmt.Lawful() && LogOk(fmt, s, h, n) && |h| < U64_LIMIT && events != [] && producerId != ""
    requires FirstFault(fmt, |h|, producerId, events) == |events|
    requires CrashLeaves(fmt, config, clock, s, producerId, events, calls, left) && ReopensAt(fmt, left, now, next)
    requires exists c :: c in AppendOf(fmt, config, clock, s, producerId, events).calls[..calls] && c.SyncFile?
    ensures next == s.nextOffset + |events|
  {
    hide LogOk, DiskOk, AppendOf, CutsOf, History, CrashOf, LoadAll, SortedKeys, Named, FirstFault, ApplyAll,
      Recoverable, DiskEnd, IndexesFit;
    LogPlaced(fmt, s, h, n, |h|);
    var g, cuts := SyncedDisk(fmt, config, clock, s, h, n, producerId, events, calls);
    CrashKeeps(fmt, ApplyAll(s.disk, AppendOf(fmt, config, clock, s, producerId, events).calls[..calls]), left, g, cuts,
               |g|);
    OpensOwn(fmt, left, g, cuts, |g|, now);
    var m := DiskEnd(fmt, left, g, cuts);
    LogPlaced(fmt, OpenOf(fmt, left, now).log, g[..m], |g|, 0);
  }

  // ---- which entries survive a crash ----

  /** The entry's segment is closed, or its record lies in what has been synced of the file being written. */
  ghost predicate OnDisk(fmt: Format, s: LogState, h: seq<LogEntry>, o: nat)
    requires History(fmt, h) && o < |h|
  {
    var t := Last(CutsOf(s));
    t <= o ==> t in s.disk.segs && s.disk.segs[t].synced >= HEADER_LEN + |Stored(fmt, h, t, o + 1)|
  }

  /** Wherever a crash at rest cuts the files, the log goes on behind the entry. */
  ghost predicate Survives(fmt: Format, s: LogState, o: nat) {
    forall left, now: u64, next: nat :: CrashOf(s.disk, left) && ReopensAt(fmt, left, now, next) ==> o < next
  }

  lemma {:induction false} CertainMore(fmt: Format, d: Directory, h: seq<LogEntry>, cuts: seq<nat>, n: nat, m: nat)
    requires DiskOk(fmt, d, h, cuts, n) && History(fmt, h) && cuts != [] && Last(cuts) <= |h| && m <= |h|
    requires Last(cuts) < m ==>
               && Last(cuts) in d.segs && Full(fmt, d.segs[Last(cuts)], h, Last(cuts))
               && d.segs[Last(cuts)].synced >= HEADER_LEN + |Stored(fmt, h, Last(cuts), m)|
    ensures n <= m ==> DiskOk(fmt, d, h, cuts, m)
  {
    if n <= m && Last(cuts) < m {
      hide DiskOk, History, Full, Stored;
      var t := Last(cuts);
      FullIsOpenFile(fmt, d.segs[t], h, t, m);
      PutKeeps(fmt, d, h, cuts, n, d.segs[t], h, m);
      PutAgain(d, t, d.segs[t], d.segs[t]);
    } else {
      hide History, AllClosedOk, NoOthers, Stored, HasHeader;
    }
  }

  /** What is left if the file being written is cut where its synced part ends. */
  function CutToSynced(d: Directory, t: nat): Directory
    requires t in d.segs && d.segs[t].synced <= |d.segs[t].data|
  {
    Put(d, t, SegFile(d.segs[t].data[..d.segs[t].synced], d.segs[t].synced))
  }

  lemma {:induction false} CutIsCrash(fmt: Format, d: Directory, h: seq<LogEntry>, cuts: seq<nat>, n: nat, t: nat)
    requires DiskOk(fmt, d, h, cuts, n) && t in d.segs && d.segs[t].synced <= |d.segs[t].data| && t !in d.idxs
    ensures CrashOf(d, CutToSynced(d, t))
    ensures IndexesFit(d) ==> IndexesFit(CutToSynced(d, t))
  {
    hide DiskOk;
    CrashLeavesAll(fmt, d, h, cuts, n);
    var c := CutToSynced(d, t);
    assert c.segs.Keys == d.segs.Keys;
    forall b | b in d.segs
      ensures CutOf(d.segs[b], c.segs[b])
    {
      assert CutOf(d.segs[b], d.segs[b]);
    }
  }

  /** A file that ends before a record does is not recovered past it. */
  lemma {:induction false} EndStops(fmt: Format, d: Directory, h: seq<LogEntry>, cuts: seq<nat>, o: nat)
    requires History(fmt, h) && cuts != [] && Last(cuts) <= o < |h| && Last(cuts) in d.segs
    requires |d.segs[Last(cuts)].data| < HEADER_LEN + |Stored(fmt, h, Last(cuts), o + 1)|
    ensures DiskEnd(fmt, d, h, cuts) <= o
  {
    var t := Last(cuts);
    SliceWritable(fmt, h, t, |h|);
    SliceWritable(fmt, h, t, o + 1);
    assert Slice(h, t, o + 1) == Slice(h, t, |h|)[..o + 1 - t];
    hide Writable, EncodeAll, Whole, History;
    if |d.segs[t].data| >= HEADER_LEN {
      WholeCovers(fmt, Slice(h, t, |h|), |d.segs[t].data| - HEADER_LEN, o + 1 - t);
    }
  }

  /**
   * An entry the log serves survives every crash exactly if its segment is closed or its record has been synced. An
   * accepted append has synced its own; a log reopened over an unsynced tail serves entries that a further crash can
   * take away.
   */
  lemma {:induction false} SurvivesExactlyWhen(fmt: Format, s: LogState, h: seq<LogEntry>, n: nat, o: nat)
    requires fmt.Lawful() && LogOk(fmt, s, h, n) && IndexesFit(s.disk) && History(fmt, h) && o < |h|
    ensures Survives(fmt, s, o) <==> OnDisk(fmt, s, h, o)
  {
    hide LogOk, DiskOk, CrashOf, ReopensAt, IndexesFit, History, Stored, CutsOf, Full, TailMatches, AllClosedMatch,
      AllClosedOk;
    LogParts(fmt, s, h, n);
    TailFacts(fmt, s, h);
    var cuts := CutsOf(s);
    if OnDisk(fmt, s, h, o) {
      if n <= o {
        CertainMore(fmt, s.disk, h, cuts, n, o + 1);
      }
      forall left, now: u64, next: nat | CrashOf(s.disk, left) && ReopensAt(fmt, left, now, next)
        ensures o < next
      {
        ReopensBehind(fmt, s.disk, h, cuts, if n <= o then o + 1 else n, left, now, next);
      }
    } else {
      TailNotIndexedIn(fmt, s.disk, h, cuts, n);
      CutIsCrash(fmt, s.disk, h, cuts, n, Last(cuts));
      var left := CutToSynced(s.disk, Last(cuts));
      EndStops(fmt, left, h, cuts, o);
      var next := ReopensBefore(fmt, s.disk, h, cuts, n, left, o);
      assert CrashOf(s.disk, left) && ReopensAt(fmt, left, 0, next);
    }
  }

  lemma {:induction false} ReopensBehind(fmt: Format, d: Directory, h: seq<LogEntry>, cuts: seq<nat>, n: nat,
                                         left: Directory, now: u64,
                                        next: nat)
    requires fmt.Lawful() && DiskOk(fmt, d, h, cuts, n) && CrashOf(d, left) && ReopensAt(fmt, left, now, next)
    ensures n <= next
  {
    hide DiskOk, CrashOf, IndexesFit, History, CutsOf, LogOk, LoadAll, Recoverable, SortedKeys, Named, DiskEnd;
    CrashKeeps(fmt, d, left, h, cuts, n);
    OpensOwn(fmt, left, h, cuts, n, now);
    LogPlaced(fmt, OpenOf(fmt, left, now).log, h[..DiskEnd(fmt, left, h, cuts)], n, 0);
  }

  lemma {:induction false} ReopensBefore(fmt: Format, d: Directory, h: seq<LogEntry>, cuts: seq<nat>, n: nat,
                                         left: Directory, o: nat)
    returns (next: nat)
    requires fmt.Lawful() && DiskOk(fmt, d, h, cuts, n) && CrashOf(d, left) && IndexesFit(left)
    requires History(fmt, h) && cuts != [] && Last(cuts) <= |h| && DiskEnd(fmt, left, h, cuts) <= o
    ensures next <= o && ReopensAt(fmt, left, 0, next)
  {
    hide DiskOk, CrashOf, IndexesFit, History, CutsOf, LogOk, LoadAll, Recoverable, SortedKeys, Named, DiskEnd;
    CrashKeeps(fmt, d, left, h, cuts, n);
    OpensOwn(fmt, left, h, cuts, n, 0);
    next := DiskEnd(fmt, left, h, cuts);
    LogPlaced(fmt, OpenOf(fmt, left, 0).log, h[..next], n, 0);
  }

  // ---- a crash before the sync ----

  lemma {:induction false} UnsyncedStep(fmt: Format, p: Place, step: WriterStep, call: IoCall, q: Place)
    requires StepsBy(fmt, p, step, call, q) && (call.CreateFile? || call.WriteFile?)
    ensures p.cuts != [] && q.cuts == p.cuts && q.disk.idxs == p.disk.idxs
    ensures q.disk.segs.Keys <= p.disk.segs.Keys + {Last(p.cuts)}
    ensures forall b :: b in q.disk.segs ==> q.disk.segs[b].synced <= FileOf(p.disk, b).synced
  {
    hide History, Full, Sealed, Stored, StoredAt, RecordBytes, HeaderBytes, Writable;
  }

  /** Calls that only create and write files leave indexes and segment starts alone and sync nothing. */
  lemma {:induction false} UnsyncedCalls(fmt: Format, low: seq<LogEntry>, high: seq<LogEntry>, p: Place,
                                         calls: seq<IoCall>, q: Place)
    requires Does(fmt, low, high, p, calls, q) && p.cuts != []
    requires forall c :: c in calls ==> c.CreateFile? || c.WriteFile?
    ensures q.cuts == p.cuts && q.disk.idxs == p.disk.idxs
    ensures q.disk.segs.Keys <= p.disk.segs.Keys + {Last(p.cuts)}
    ensures forall b :: b in q.disk.segs ==> q.disk.segs[b].synced <= FileOf(p.disk, b).synced
    decreases |calls|
  {
    hide StepsBy;
    if calls != [] {
      var step, m :| StepsBy(fmt, p, step, calls[0], m) && Does(fmt, low, high, m, calls[1..], q);
      UnsyncedStep(fmt, p, step, calls[0], m);
      UnsyncedCalls(fmt, low, high, m, calls[1..], q);
    }
  }

  /** What is synced of a file ends before the first record written since. */
  lemma {:induction false} SyncedEndsBefore(fmt: Format, s: LogState, h: seq<LogEntry>, n: nat, g: seq<LogEntry>)
    requires LogOk(fmt, s, h, n) && History(fmt, h) && History(fmt, g) && h <= g && |h| < |g|
    ensures Last(CutsOf(s)) <= |h|
    ensures FileOf(s.disk, Last(CutsOf(s))).synced < HEADER_LEN + |Stored(fmt, g, Last(CutsOf(s)), |h| + 1)|
  {
    hide LogOk, DiskOk, AllClosedMatch, AllClosedOk, History, Full, Stored, TailMatches, CutsOf, Writable, RecordBytes;
    LogParts(fmt, s, h, n);
    TailFacts(fmt, s, h);
    var t := Last(CutsOf(s));
    PrefixHistory(fmt, g, |h| + 1);
    RecordStored(fmt, h, g, t);
    if s.active.Some? {
      FullSynced(fmt, s.disk.segs[t], h, t);
    }
  }

  lemma {:induction false} RecordStored(fmt: Format, h: seq<LogEntry>, g: seq<LogEntry>, t: nat)
    requires History(fmt, h) && History(fmt, g) && h <= g && |h| < |g| && t <= |h|
    ensures |Stored(fmt, h, t, |h|)| < |Stored(fmt, g, t, |h| + 1)|
  {
    hide Stored, RecordBytes;
    var e := g[|h|];
    assert h + [e] == g[..|h| + 1] && e in g && e.offset == |h|;
    HistoryFits(fmt, g);
    StoredGrows(fmt, h, e, t);
    RecordHasBytes(fmt, e);
    assert (h + [e])[..|h| + 1] == h + [e];
    StoredIgnoresTail(fmt, h + [e], g, t, |h| + 1);
  }

  lemma {:induction false} RecordHasBytes(fmt: Format, e: LogEntry)
    requires Writable(fmt, e)
    ensures |RecordBytes(fmt, e)| > 0
  {
  }

  /** Until its file is synced an append can lose all it has written. */
  lemma {:induction false} UnsyncedMayBeLost(fmt: Format, config: Config, clock: Clock, s: LogState, h: seq<LogEntry>,
                                             n: nat, producerId: string, events: seq<OtkEvent>, calls: nat)
    returns (left: Directory, next: nat)
    requires fmt.Lawful() && LogOk(fmt, s, h, n) && IndexesFit(s.disk) && events != [] && producerId != ""
    requires calls <= |AppendOf(fmt, config, clock, s, producerId, events).calls|
    requires forall c :: c in AppendOf(fmt, config, clock, s, producerId, events).calls[..calls] ==>
        c.CreateFile? || c.WriteFile?
    ensures CrashLeaves(fmt, config, clock, s, producerId, events, calls, left)
    ensures ReopensAt(fmt, left, 0, next) && next <= s.nextOffset == |h|
  {
    hide LogOk, DiskOk, Does, AppendOf, CutsOf, History, ApplyAll, Attempt, RollOutcome, BatchOutcome, Accepted,
      CrashOf, ReopensAt, Placed, FirstFault, IndexesFit, DiskEnd;
    LogPlaced(fmt, s, h, n, |h|);
    LogDisk(fmt, s, h, n);
    AppendDoes(fmt, config, clock, s, h, n, producerId, events);
    var x := AppendOf(fmt, config, clock, s, producerId, events);
    var to := Accepted(h, x.r, clock.stamp, producerId, events);
    var high := h + Attempt(fmt, |h|, clock.stamp, producerId, events);
    var from := PlaceOf(s, h, |h|);
    var m := DoesPrefix(fmt, h, high, from, x.calls, PlaceOf(x.log, to, |to|), calls);
    DoesEnds(fmt, h, high, from, x.calls[..calls], m);
    DoesKeeps(fmt, h, high, from, x.calls[..calls], m, n);
    UnsyncedCalls(fmt, h, high, from, x.calls[..calls], m);
    left, next := LosesUnsynced(fmt, s, h, n, m);
  }

  lemma {:induction false} LosesUnsynced(fmt: Format, s: LogState, h: seq<LogEntry>, n: nat, m: Place)
    returns (left: Directory, next: nat)
    requires fmt.Lawful() && LogOk(fmt, s, h, n) && IndexesFit(s.disk) && History(fmt, h) && h <= m.history
    requires DiskOk(fmt, m.disk, m.history, m.cuts, n) && m.cuts == CutsOf(s) && m.disk.idxs == s.disk.idxs
    requires m.disk.segs.Keys <= s.disk.segs.Keys + {Last(m.cuts)}
    requires forall b :: b in m.disk.segs ==> m.disk.segs[b].synced <= FileOf(s.disk, b).synced
    ensures CrashOf(m.disk, left) && ReopensAt(fmt, left, 0, next) && next <= |h|
  {
    hide LogOk, DiskOk, CutsOf, History, CrashOf, ReopensAt, IndexesFit, Stored, Full, AllClosedMatch, AllClosedOk,
      TailMatches;
    DiskHistory(fmt, m.disk, m.history, m.cuts, n);
    LogParts(fmt, s, h, n);
    TailNotIndexedIn(fmt, m.disk, m.history, m.cuts, n);
    FewerFit(s.disk, m.disk, Last(m.cuts));
    var t := Last(m.cuts);
    left := m.disk;
    CrashLeavesAll(fmt, m.disk, m.history, m.cuts, n);
    if t in m.disk.segs {
      SyncedPart(fmt, m.disk, m.history, m.cuts, n);
      CutIsCrash(fmt, m.disk, m.history, m.cuts, n, t);
      left := CutToSynced(m.disk, t);
      if |h| < |m.history| {
        SyncedEndsBefore(fmt, s, h, n, m.history);
        EndStops(fmt, left, m.history, m.cuts, |h|);
      }
    }
    next := ReopensBefore(fmt, m.disk, m.history, m.cuts, n, left, |h|);
  }

  lemma {:induction false} FewerFit(d: Directory, c: Directory, t: nat)
    requires IndexesFit(d) && c.idxs == d.idxs && c.segs.Keys <= d.segs.Keys + {t} && t !in c.idxs
    ensures IndexesFit(c)
  {
  }

  lemma {:induction false} SyncedPart(fmt: Format, d: Directory, h: seq<LogEntry>, cuts: seq<nat>, n: nat)
    requires DiskOk(fmt, d, h, cuts, n) && cuts != [] && Last(cuts) in d.segs
    ensures d.segs[Last(cuts)].synced <= |d.segs[Last(cuts)].data|
  {
    hide History, HasHeader, Stored, AllClosedOk, NoOthers;
  }

  lemma {:induction false} InFront<T>(s: seq<T>, n: nat, i: nat)
    requires n <= |s| && i < |s|
    ensures i < n ==> s[i] in s[..n]
  {
    if i < n {
      assert s[..n][i] == s[i];
    }
  }

  lemma {:induction false} NoSyncYet(ensured: seq<IoCall>, batch: seq<IoCall>, rolling: seq<IoCall>, calls: nat)
    requires calls <= |ensured + batch + rolling| && |batch| >= 2 && batch[|batch| - 2].SyncFile?
    requires forall c :: c in ensured ==> c.CreateFile? || c.WriteFile?
    requires forall i :: 0 <= i < |batch| - 2 ==> batch[i].WriteFile?
    requires forall c :: c in (ensured + batch + rolling)[..calls] ==> !c.SyncFile?
    ensures forall c :: c in (ensured + batch + rolling)[..calls] ==> c.CreateFile? || c.WriteFile?
  {
    var made := ensured + batch + rolling;
    var at := |ensured| + |batch| - 2;
    assert made[at] == batch[|batch| - 2];
    InFront(made, calls, at);
    forall i | 0 <= i < calls
      ensures made[i].CreateFile? || made[i].WriteFile?
    {
      if i < |ensured| {
        assert made[i] == ensured[i] && ensured[i] in ensured;
      } else {
        assert made[i] == batch[i - |ensured|];
      }
    }
    assert forall i :: 0 <= i < calls ==> made[..calls][i] == made[i];
  }

  /** Whatever a crash behind these calls leaves, the log goes on behind the whole batch. */
  ghost predicate BatchIsSafe(fmt: Format, config: Config, clock: Clock, s: LogState, producerId: string,
                              events: seq<OtkEvent>, calls: nat) {
    forall left, now: u64, next: nat ::
      CrashLeaves(fmt, config, clock, s, producerId, events, calls, left) && ReopensAt(fmt, left, now, next) ==>
        next == s.nextOffset + |events|
  }

  /**
   * A batch is safe from crashes exactly from its fsync on. A subscription that is reading may have delivered its
   * records before.
   */
  lemma {:induction false} SafeExactlyWhen(fmt: Format, config: Config, clock: Clock, s: LogState, h: seq<LogEntry>,
                                           n: nat, producerId: string, events: seq<OtkEvent>, calls: nat)
    requires fmt.Lawful() && LogOk(fmt, s, h, n) && |h| < U64_LIMIT && events != [] && producerId != ""
    requires IndexesFit(s.disk) && FirstFault(fmt, |h|, producerId, events) == |events|
    requires calls <= |AppendOf(fmt, config, clock, s, producerId, events).calls|
    ensures BatchIsSafe(fmt, config, clock, s, producerId, events, calls) <==>
            exists c :: c in AppendOf(fmt, config, clock, s, producerId, events).calls[..calls] && c.SyncFile?
  {
    hide LogOk, AppendOf, EnsuredOf, CommitOf, RollOf, DueToRoll, CrashLeaves, ReopensAt, FirstFault, IndexesFit,
      CutsOf;
    LogPlaced(fmt, s, h, n, |h|);
    var made := AppendOf(fmt, config, clock, s, producerId, events).calls;
    if exists c :: c in made[..calls] && c.SyncFile? {
      forall left, now: u64, next: nat
        | CrashLeaves(fmt, config, clock, s, producerId, events, calls, left) && ReopensAt(fmt, left, now, next)
        ensures next == s.nextOffset + |events|
      {
        SyncedSurvives(fmt, config, clock, s, h, n, producerId, events, calls, left, now, next);
      }
    } else {
      EnsuredCalls(s, clock.created);
      AcceptedCalls(fmt, config, clock, s, producerId, events);
      var ensured := EnsuredOf(s, clock.created);
      var c := CommitOf(fmt, ensured.log, clock.stamp, producerId, events);
      NoSyncYet(ensured.calls, c.calls,
                if DueToRoll(config, clock.rollCheck, c.log) then RollOf(config.retention, clock.retention, c.log).calls
                else [], calls);
      var left, next := UnsyncedMayBeLost(fmt, config, clock, s, h, n, producerId, events, calls);
    }
  }
}
