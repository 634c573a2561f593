/**
 * Whole runs of the segment log: appends, range reads, crashes in any of their calls, reopenings and crashes in those.
 */
module SegmentRuns {
  import opened Bytes
  import opened Wrappers
  import opened EventModel
  import opened EventLogPort
  import opened SegmentRecords
  import opened SegmentDisk
  import opened SegmentIo
  import opened SegmentState
  import opened SegmentSteps
  import opened SegmentWriting
  import opened SegmentReading
  import opened SegmentRecovery
  import opened SegmentLogs

  /** A running log, or what is left of its directory. */
  datatype Node = Up(log: LogState) | Down(disk: Directory)

  datatype Turn =
    | Append(config: Config, clock: Clock, producerId: string, events: seq<OtkEvent>)
    | Read(cursor: nat)
    | Crash(setting: Config, times: Clock, producer: string, batch: seq<OtkEvent>, calls: nat, left: Directory)
    | Reopen(now: u64)
    | CrashInReopen(started: u64, passed: nat, remains: Directory)

  /**
   * One turn. A crash strikes after any number of the calls an append makes, none of them being a crash at rest, and
   * leaves what a crash may leave of the files; so does one while the directory is being opened. A range read moves the
   * active file's cursor.
   */
  ghost predicate Takes(fmt: Format, a: Node, turn: Turn, b: Node) {
    match turn
    case Append(config, clock, producerId, events) =>
      a.Up? && b == Up(AppendOf(fmt, config, clock, a.log, producerId, events).log)
    case Read(cursor) =>
      a.Up? && a.log.active.Some? && b == Up(a.log.(active := Some(a.log.active.value.(cursor := cursor))))
    case Crash(config, clock, producerId, events, calls, left) =>
      && a.Up? && b == Down(left)
      && var made := AppendOf(fmt, config, clock, a.log, producerId, events).calls;
         calls <= |made| && CrashOf(ApplyAll(a.log.disk, made[..calls]), left)
    case Reopen(now) =>
      a.Down? && Named(a.disk) && OpenOf(fmt, a.disk, now).failure.None? && b == Up(OpenOf(fmt, a.disk, now).log)
    case CrashInReopen(now, calls, left) =>
      && a.Down? && Named(a.disk) && b == Down(left)
      && var made := OpenOf(fmt, a.disk, now).calls;
         calls <= |made| && CrashOf(ApplyAll(a.disk, made[..calls]), left)
  }

  /** Any run, from the day the directory is created. */
  ghost predicate IsRun(fmt: Format, nodes: seq<Node>, turns: seq<Turn>) {
    && fmt.Lawful() && |nodes| == |turns| + 1 && nodes[0] == Down(EMPTY)
    && forall i :: 0 <= i < |turns| ==> Takes(fmt, nodes[i], turns[i], nodes[i + 1])
  }

  // ---- what is behind a node ----

  /** The entries a node holds or has held, where its segments start, and how many entries are certain. */
  datatype Past = Past(history: seq<LogEntry>, cuts: seq<nat>, certain: nat)

  ghost predicate Knows(fmt: Format, a: Node, p: Past) {
    match a
    case Up(log) => LogOk(fmt, log, p.history, p.certain) && p.cuts == CutsOf(log)
    case Down(disk) => DiskOk(fmt, disk, p.history, p.cuts, p.certain)
  }

  /** What was certain is certain and unchanged, and the window has not moved back. */
  ghost predicate Keeps(p: Past, q: Past) {
    && p.certain <= q.certain <= |q.history| && p.certain <= |p.history|
    && q.history[..p.certain] == p.history[..p.certain]
    && p.cuts != [] && q.cuts != [] && p.cuts[0] <= q.cuts[0]
  }

  lemma {:induction false} KnowsParts(fmt: Format, a: Node, p: Past)
    requires Knows(fmt, a, p)
    ensures History(fmt, p.history) && p.cuts != [] && p.certain <= |p.history| < U64_LIMIT && Keeps(p, p)
    ensures a.Up? ==> a.log.nextOffset == |p.history| && First(a.log) == p.cuts[0]
  {
    hide DiskOk, LogOk, History, CutsOf;
    if a.Up? {
      LogPlaced(fmt, a.log, p.history, p.certain, 0);
    } else {
      DiskHistory(fmt, a.disk, p.history, p.cuts, p.certain);
    }
    HistoryFits(fmt, p.history);
  }

  lemma {:induction false} KeepsTwice(p: Past, q: Past, r: Past)
    requires Keeps(p, q) && Keeps(q, r)
    ensures Keeps(p, r)
  {
    assert r.history[..p.certain] == r.history[..q.certain][..p.certain];
    assert q.history[..p.certain] == q.history[..q.certain][..p.certain];
  }

  lemma {:induction false} KeepsLonger(p: Past, q: Past)
    requires p.certain <= q.certain <= |q.history| && p.certain <= |p.history|
    requires p.history <= q.history || (q.history <= p.history && q.history == p.history[..|q.history|])
    requires p.cuts != [] && q.cuts != [] && p.cuts[0] <= q.cuts[0]
    ensures Keeps(p, q)
  {
  }

  /** The batch an append turn adds to the log when it is accepted. */
  ghost predicate Accepts(fmt: Format, a: Node, turn: Turn) {
    turn.Append? && a.Up? && AppendOf(fmt, turn.config, turn.clock, a.log, turn.producerId, turn.events).r.Ok?
  }

  lemma {:induction false} AppendKnows(fmt: Format, a: Node, turn: Turn, b: Node, p: Past) returns (q: Past)
    requires turn.Append? && Takes(fmt, a, turn, b) && Knows(fmt, a, p)
    ensures Knows(fmt, b, q) && Keeps(p, q) && |p.history| < U64_LIMIT
    ensures Accepts(fmt, a, turn) ==>
              && |p.history| + |turn.events| < U64_LIMIT && turn.events != []
              && q.history == p.history + Batch(|p.history|, turn.clock.stamp, turn.producerId, turn.events)
              && q.certain == |q.history|
              && AppendOf(fmt, turn.config, turn.clock, a.log, turn.producerId, turn.events).r == Ok(|q.history| - 1)
    ensures !Accepts(fmt, a, turn) ==> q.history == p.history && q.certain == p.certain
  {
    hide LogOk, Does, Attempt, RollOutcome, FirstFault, Fault, EnsuredOf, CommitOf, RollOf, CutsOf, Accepted,
      Keeps, History, DueToRoll;
    KnowsParts(fmt, a, p);
    if turn.events == [] || turn.producerId == "" {
      q := p;
    } else {
      AppendDoes(fmt, turn.config, turn.clock, a.log, p.history, p.certain, turn.producerId, turn.events);
      var x := AppendOf(fmt, turn.config, turn.clock, a.log, turn.producerId, turn.events);
      var g := Accepted(p.history, x.r, turn.clock.stamp, turn.producerId, turn.events);
      q := Past(g, CutsOf(x.log), if x.r.Ok? then |g| else p.certain);
      var high := p.history + Attempt(fmt, |p.history|, turn.clock.stamp, turn.producerId, turn.events);
      LogDisk(fmt, a.log, p.history, p.certain);
      DoesKeeps(fmt, p.history, high, PlaceOf(a.log, p.history, |p.history|), x.calls, PlaceOf(x.log, g, |g|),
                p.certain);
      KeepsLonger(p, q);
    }
  }

  lemma {:induction false} LogDisk(fmt: Format, s: LogState, h: seq<LogEntry>, n: nat)
    requires LogOk(fmt, s, h, n)
    ensures DiskOk(fmt, s.disk, h, CutsOf(s), n) && n <= |h|
  {
    hide DiskOk, AllClosedMatch, TailMatches, CutsOf;
    DiskHistory(fmt, s.disk, h, CutsOf(s), n);
  }

  /** A crash in an append keeps everything and adds at most the part of the batch that had been written. */
  lemma {:induction false} CrashKnows(fmt: Format, a: Node, turn: Turn, b: Node, p: Past) returns (q: Past)
    requires turn.Crash? && Takes(fmt, a, turn, b) && Knows(fmt, a, p)
    ensures Knows(fmt, b, q) && Keeps(p, q) && q.certain == p.certain && |p.history| < U64_LIMIT
    ensures p.history <= q.history
    ensures q.history <= p.history + Attempt(fmt, |p.history|, turn.times.stamp, turn.producer, turn.batch)
  {
    hide LogOk, DiskOk, Does, Attempt, RollOutcome, BatchOutcome, EnsuredOf, CommitOf, RollOf, CutsOf, Accepted,
      Keeps, History, CrashOf,
      ApplyAll, DueToRoll;
    KnowsParts(fmt, a, p);
    LogDisk(fmt, a.log, p.history, p.certain);
    var x := AppendOf(fmt, turn.setting, turn.times, a.log, turn.producer, turn.batch);
    var h := p.history;
    var high := h + Attempt(fmt, |h|, turn.times.stamp, turn.producer, turn.batch);
    if turn.batch == [] || turn.producer == "" {
      assert x.calls[..turn.calls] == [];
      ApplyNothing(a.log.disk);
      CrashKeeps(fmt, a.log.disk, turn.left, h, p.cuts, p.certain);
      q := p;
    } else {
      AppendDoes(fmt, turn.setting, turn.times, a.log, h, p.certain, turn.producer, turn.batch);
      var g := Accepted(h, x.r, turn.times.stamp, turn.producer, turn.batch);
      var from, to := PlaceOf(a.log, h, |h|), PlaceOf(x.log, g, |g|);
      var m := DoesPrefix(fmt, h, high, from, x.calls, to, turn.calls);
      DoesEnds(fmt, h, high, from, x.calls[..turn.calls], m);
      DoesKeeps(fmt, h, high, from, x.calls[..turn.calls], m, p.certain);
      CrashKeeps(fmt, m.disk, turn.left, m.history, m.cuts, p.certain);
      q := Past(m.history, m.cuts, p.certain);
      KeepsLonger(p, q);
    }
  }

  /** Reopening succeeds or not by the indexes alone; what it yields is the history up to where the files reach. */
  lemma {:induction false} ReopenKnows(fmt: Format, a: Node, turn: Turn, b: Node, p: Past) returns (q: Past)
    requires fmt.Lawful() && turn.Reopen? && Takes(fmt, a, turn, b) && Knows(fmt, a, p)
    ensures Knows(fmt, b, q) && Keeps(p, q) && q.certain == p.certain && q.cuts == p.cuts
    ensures |q.history| <= |p.history| && q.history == p.history[..|q.history|]
  {
    hide LogOk, DiskOk, Keeps, History, CutsOf, LoadAll, Recoverable, IndexesFit, DiskEnd, SortedKeys, Named;
    OpensOwn(fmt, a.disk, p.history, p.cuts, p.certain, turn.now);
    KnowsParts(fmt, a, p);
    q := p.(history := p.history[..DiskEnd(fmt, a.disk, p.history, p.cuts)]);
    KeepsLonger(p, q);
  }

  lemma {:induction false} CrashInReopenKnows(fmt: Format, a: Node, turn: Turn, b: Node, p: Past)
    requires fmt.Lawful() && turn.CrashInReopen? && Takes(fmt, a, turn, b) && Knows(fmt, a, p)
    ensures Knows(fmt, b, p)
  {
    hide LogOk, DiskOk, Keeps, History, LoadAll, CrashOf, ApplyAll, LoadedAll, IndexesFit, SortedKeys, Named;
    OpensOwn(fmt, a.disk, p.history, p.cuts, p.certain, turn.started);
    var made := OpenOf(fmt, a.disk, turn.started).calls;
    assert DiskOk(fmt, ApplyAll(a.disk, made[..turn.passed]), p.history, p.cuts, p.certain);
    CrashKeeps(fmt, ApplyAll(a.disk, made[..turn.passed]), turn.remains, p.history, p.cuts, p.certain);
  }

  lemma {:induction false} ReadKnows(fmt: Format, a: Node, turn: Turn, b: Node, p: Past)
    requires turn.Read? && Takes(fmt, a, turn, b) && Knows(fmt, a, p)
    ensures Knows(fmt, b, p)
  {
    hide LogOk, CutsOf;
    CursorMoves(fmt, a.log, p.history, p.certain, turn.cursor);
  }

  /** Every turn keeps what is certain. */
  lemma {:induction false} TurnKeeps(fmt: Format, a: Node, turn: Turn, b: Node, p: Past) returns (q: Past)
    requires fmt.Lawful() && Takes(fmt, a, turn, b) && Knows(fmt, a, p)
    ensures Knows(fmt, b, q) && Keeps(p, q)
  {
    hide Takes, Knows, Keeps, Accepts;
    KnowsParts(fmt, a, p);
    match turn {
      case Append(_, _, _, _) => q := AppendKnows(fmt, a, turn, b, p);
      case Read(_) => ReadKnows(fmt, a, turn, b, p); q := p;
      case Crash(_, _, _, _, _, _) => q := CrashKnows(fmt, a, turn, b, p);
      case Reopen(_) => q := ReopenKnows(fmt, a, turn, b, p);
      case CrashInReopen(_, _, _) => CrashInReopenKnows(fmt, a, turn, b, p); q := p;
    }
  }

  // ---- runs ----

  lemma {:induction false} RunKeeps(fmt: Format, nodes: seq<Node>, turns: seq<Turn>, i: nat, j: nat,
                                    p: Past) returns (q: Past)
    requires IsRun(fmt, nodes, turns) && i <= j < |nodes| && Knows(fmt, nodes[i], p)
    ensures Knows(fmt, nodes[j], q) && Keeps(p, q)
    decreases j
  {
    hide Takes, Knows, Keeps;
    KnowsParts(fmt, nodes[i], p);
    q := p;
    if i < j {
      var m := RunKeeps(fmt, nodes, turns, i, j - 1, p);
      assert Takes(fmt, nodes[j - 1], turns[j - 1], nodes[j - 1 + 1]);
      q := TurnKeeps(fmt, nodes[j - 1], turns[j - 1], nodes[j], m);
      KeepsTwice(p, m, q);
    }
  }

  lemma {:induction false} RunKnows(fmt: Format, nodes: seq<Node>, turns: seq<Turn>, j: nat) returns (p: Past)
    requires IsRun(fmt, nodes, turns) && j < |nodes|
    ensures Knows(fmt, nodes[j], p)
  {
    hide Takes, DiskOk, Keeps;
    FreshDirectory(fmt);
    p := RunKeeps(fmt, nodes, turns, 0, j, Past([], [0], 0));
  }

  /**
   * In every run, whenever the directory is to be opened, opening succeeds exactly when every index is within the
   * limit.
   */
  lemma {:induction false} ReopeningSucceeds(fmt: Format, nodes: seq<Node>, turns: seq<Turn>, j: nat, now: u64)
    requires IsRun(fmt, nodes, turns) && j < |nodes| && nodes[j].Down?
    ensures Named(nodes[j].disk)
    ensures var failure := OpenOf(fmt, nodes[j].disk, now).failure;
            (failure.None? <==> IndexesFit(nodes[j].disk)) && (failure.Some? ==> failure == Some(Corrupted))
  {
    hide IsRun, DiskOk, LogOk, LoadAll, IndexesFit, Recoverable, LoadedAll, SortedKeys, Named;
    RunIsLawful(fmt, nodes, turns);
    var p := RunKnows(fmt, nodes, turns, j);
    OpensOwn(fmt, nodes[j].disk, p.history, p.cuts, p.certain, now);
  }

  lemma {:induction false} RunIsLawful(fmt: Format, nodes: seq<Node>, turns: seq<Turn>)
    requires IsRun(fmt, nodes, turns)
    ensures fmt.Lawful() && |nodes| == |turns| + 1
  {
    hide Takes;
  }

  /** An accepted append of a run, and what is known once it is done. */
  lemma {:induction false} AcceptedKnows(fmt: Format, nodes: seq<Node>, turns: seq<Turn>, i: nat) returns (p: Past,
                                                                                                           q: Past)
    requires IsRun(fmt, nodes, turns) && i < |turns| && Accepts(fmt, nodes[i], turns[i])
    ensures Knows(fmt, nodes[i], p) && Knows(fmt, nodes[i + 1], q)
    ensures var t := turns[i];
            && |p.history| + |t.events| < U64_LIMIT && t.events != [] && q.certain == |q.history|
            && q.history == p.history + Batch(|p.history|, t.clock.stamp, t.producerId, t.events)
            && AppendOf(fmt, t.config, t.clock, nodes[i].log, t.producerId, t.events).r == Ok(|q.history| - 1)
  {
    hide Takes, Knows, Keeps, AppendOf;
    p := RunKnows(fmt, nodes, turns, i);
    assert Takes(fmt, nodes[i], turns[i], nodes[i + 1]);
    q := AppendKnows(fmt, nodes[i], turns[i], nodes[i + 1], p);
  }

  /** The last offset an accepted append reports. */
  ghost function LastOffset(fmt: Format, a: Node, turn: Turn): nat
    requires Accepts(fmt, a, turn)
  {
    AppendOf(fmt, turn.config, turn.clock, a.log, turn.producerId, turn.events).r.value
  }

  /**
   * Durability: what an append reported is there in every later state of the log, whatever crashes and reopenings lie
   * between, unless the retained window has moved past it; and it reads back as what was appended.
   */
  lemma {:induction false} AcknowledgedStays(fmt: Format, nodes: seq<Node>, turns: seq<Turn>, i: nat, j: nat, k: nat)
    requires IsRun(fmt, nodes, turns) && i < j < |nodes| && i < |turns| && Accepts(fmt, nodes[i], turns[i])
    requires nodes[j].Up?
    requires k < |turns[i].events|
    ensures |turns[i].events| <= LastOffset(fmt, nodes[i], turns[i]) + 1 <= nodes[j].log.nextOffset
    ensures var t := turns[i];
            var o := LastOffset(fmt, nodes[i], t) + 1 - |t.events| + k;
            && o < U64_LIMIT
            && (First(nodes[j].log) <= o ==> EntryAt(fmt, nodes[j].log,
                                                     o) == Some(LogEntry(o, t.clock.stamp, t.producerId, t.events[k])))
  {
    hide IsRun, Knows, EntryAt, AppendOf, CutsOf;
    var t := turns[i];
    var p, q := AcceptedKnows(fmt, nodes, turns, i);
    var r := RunKeeps(fmt, nodes, turns, i + 1, j, q);
    KnowsParts(fmt, nodes[j], r);
    var o := |p.history| + k;
    assert r.history[o] == r.history[..q.certain][o] && q.history[o] == q.history[..q.certain][o];
    RunIsLawful(fmt, nodes, turns);
    if First(nodes[j].log) <= o {
      ReadsBack(fmt, nodes[j], r, o);
    }
  }

  lemma {:induction false} ReadsBack(fmt: Format, a: Node, p: Past, o: nat)
    requires fmt.Lawful() && Knows(fmt, a, p) && a.Up? && First(a.log) <= o < |p.history|
    ensures EntryAt(fmt, a.log, o) == Some(p.history[o])
  {
    hide LogOk, EntryAt, CutsOf;
    EntryAtIs(fmt, a.log, p.history, p.certain, o);
  }

  /** The retained window never moves back. */
  lemma {:induction false} WindowMovesForward(fmt: Format, nodes: seq<Node>, turns: seq<Turn>, i: nat, j: nat)
    requires IsRun(fmt, nodes, turns) && i <= j < |nodes| && nodes[i].Up? && nodes[j].Up?
    ensures First(nodes[i].log) <= First(nodes[j].log)
  {
    hide IsRun, Knows, CutsOf;
    var p := RunKnows(fmt, nodes, turns, i);
    var q := RunKeeps(fmt, nodes, turns, i, j, p);
    KnowsParts(fmt, nodes[i], p);
    KnowsParts(fmt, nodes[j], q);
  }

  /**
   * A committed offset is never assigned to a second event: two accepted appends of one run have no offset in common,
   * whatever crashes, reopenings and evictions, even of every segment, lie between them.
   */
  lemma {:induction false} OffsetsAreNeverReused(fmt: Format, nodes: seq<Node>, turns: seq<Turn>, i: nat, j: nat)
    requires IsRun(fmt, nodes, turns) && i < j < |turns|
    requires Accepts(fmt, nodes[i], turns[i]) && Accepts(fmt, nodes[j], turns[j])
    ensures LastOffset(fmt, nodes[i], turns[i]) + |turns[j].events| <= LastOffset(fmt, nodes[j], turns[j])
  {
    hide IsRun, Knows, AppendOf;
    RunIsLawful(fmt, nodes, turns);
    var _, q := AcceptedKnows(fmt, nodes, turns, i);
    var p, r := AcceptedKnows(fmt, nodes, turns, j);
    var m := RunKeeps(fmt, nodes, turns, i + 1, j, q);
    SameNext(fmt, nodes[j], m, p);
  }

  lemma {:induction false} SameNext(fmt: Format, a: Node, p: Past, q: Past)
    requires a.Up? && Knows(fmt, a, p) && Knows(fmt, a, q)
    ensures |p.history| == |q.history|
  {
    hide Knows;
    KnowsParts(fmt, a, p);
    KnowsParts(fmt, a, q);
  }

  // ---- one crash, until the log is up again ----

  /** From a crash at turn `i` to a log that is up again at node `j`, with any number of failed attempts between. */
  ghost predicate Recovers(turns: seq<Turn>, i: nat, j: nat) {
    && i + 1 < j <= |turns| && turns[i].Crash? && turns[j - 1].Reopen?
    && forall k :: i < k < j - 1 ==> turns[k].CrashInReopen?
  }

  lemma {:induction false} AttemptsKeep(fmt: Format, nodes: seq<Node>, turns: seq<Turn>, i: nat, j: nat, k: nat,
                                        p: Past)
    requires IsRun(fmt, nodes, turns) && Recovers(turns, i, j) && i < k < j && Knows(fmt, nodes[i + 1], p)
    ensures Knows(fmt, nodes[k], p)
    decreases k
  {
    hide Takes, Knows;
    if k > i + 1 {
      AttemptsKeep(fmt, nodes, turns, i, j, k - 1, p);
      assert Takes(fmt, nodes[k - 1], turns[k - 1], nodes[k - 1 + 1]);
      CrashInReopenKnows(fmt, nodes[k - 1], turns[k - 1], nodes[k], p);
    }
  }

  /** From what is known before a crash, what is known once the log is up again. */
  lemma {:induction false} RecoveryKnows(fmt: Format, nodes: seq<Node>, turns: seq<Turn>, i: nat, j: nat,
                                         p: Past) returns (r: Past)
    requires IsRun(fmt, nodes, turns) && Recovers(turns, i, j) && Knows(fmt, nodes[i], p)
    ensures Knows(fmt, nodes[j], r) && Keeps(p, r) && |p.history| < U64_LIMIT
    ensures var all := p.history + Attempt(fmt, |p.history|, turns[i].times.stamp, turns[i].producer, turns[i].batch);
            |r.history| <= |all| && r.history == all[..|r.history|]
  {
    hide Takes, Knows, Keeps, Attempt;
    assert Takes(fmt, nodes[i], turns[i], nodes[i + 1]);
    assert Takes(fmt, nodes[j - 1], turns[j - 1], nodes[j - 1 + 1]);
    var q := CrashKnows(fmt, nodes[i], turns[i], nodes[i + 1], p);
    AttemptsKeep(fmt, nodes, turns, i, j, j - 1, q);
    r := ReopenKnows(fmt, nodes[j - 1], turns[j - 1], nodes[j], q);
    KeepsTwice(p, q, r);
  }

  /**
   * A crash in an append, and a log that is up again: it goes on behind everything that was certain; what it holds of
   * what it held is unchanged, and behind that comes at most a first part of the one batch that was in flight, at the
   * offsets it was given.
   */
  lemma {:induction false} CrashAddsPrefix(fmt: Format, nodes: seq<Node>, turns: seq<Turn>, i: nat, j: nat, o: nat)
    requires IsRun(fmt, nodes, turns) && Recovers(turns, i, j)
    ensures nodes[i].Up? && nodes[j].Up? && First(nodes[i].log) <= First(nodes[j].log)
    ensures forall p: Past :: Knows(fmt, nodes[i], p) ==> p.certain <= nodes[j].log.nextOffset
    ensures nodes[j].log.nextOffset <= nodes[i].log.nextOffset + |turns[i].batch|
    ensures First(nodes[j].log) <= o < nodes[j].log.nextOffset ==>
              EntryAt(fmt, nodes[j].log, o) ==
              if o < nodes[i].log.nextOffset then EntryAt(fmt, nodes[i].log, o)
              else Some(LogEntry(o, turns[i].times.stamp, turns[i].producer,
                                 turns[i].batch[o - nodes[i].log.nextOffset]))
  {
    hide IsRun, Recovers, Knows, EntryAt, CutsOf, FirstFault;
    UpAgain(fmt, nodes, turns, i, j);
    forall p: Past | Knows(fmt, nodes[i], p)
      ensures p.certain <= nodes[j].log.nextOffset
    {
      var r := RecoveryKnows(fmt, nodes, turns, i, j, p);
      KnowsParts(fmt, nodes[j], r);
    }
    var p := RunKnows(fmt, nodes, turns, i);
    var r := RecoveryKnows(fmt, nodes, turns, i, j, p);
    KnowsParts(fmt, nodes[i], p);
    KnowsParts(fmt, nodes[j], r);
    RunIsLawful(fmt, nodes, turns);
    if First(nodes[j].log) <= o < nodes[j].log.nextOffset {
      ReadsBack(fmt, nodes[j], r, o);
      AttemptAt(fmt, p.history, turns[i], r.history, o);
      if o < nodes[i].log.nextOffset {
        ReadsBack(fmt, nodes[i], p, o);
      }
    }
  }

  /** Each entry of a history followed by a part of the batch in flight. */
  lemma {:induction false} AttemptAt(fmt: Format, h: seq<LogEntry>, turn: Turn, g: seq<LogEntry>, o: nat)
    requires turn.Crash? && |h| < U64_LIMIT && o < |g|
    requires var all := h + Attempt(fmt, |h|, turn.times.stamp, turn.producer, turn.batch);
             |g| <= |all| && g == all[..|g|]
    ensures |g| <= |h| + |turn.batch| && |g| < U64_LIMIT
    ensures g[o] == if o < |h| then h[o] else LogEntry(o, turn.times.stamp, turn.producer, turn.batch[o - |h|])
  {
    hide FirstFault;
    AttemptFits(fmt, |h|, turn.producer, turn.batch);
  }

  lemma {:induction false} UpAgain(fmt: Format, nodes: seq<Node>, turns: seq<Turn>, i: nat, j: nat)
    requires IsRun(fmt, nodes, turns) && Recovers(turns, i, j)
    ensures i < |turns| && i < j < |nodes| && nodes[i].Up? && nodes[j].Up? && turns[i].Crash?
  {
    hide CrashOf, AppendOf, LoadAll, SortedKeys;
    assert Takes(fmt, nodes[i], turns[i], nodes[i + 1]);
    assert Takes(fmt, nodes[j - 1], turns[j - 1], nodes[j - 1 + 1]);
  }
}
