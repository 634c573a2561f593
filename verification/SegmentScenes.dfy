/** A subscription interleaved, call by call, with the appends, rolls and retention of the log itself. */
module SegmentScenes {
  import opened Bytes
  import opened Wrappers
  import opened EventModel
  import opened EventLogPort
  import opened SegmentRecords
  import opened SegmentFiles
  import opened SegmentDisk
  import opened SegmentIo
  import opened SegmentState
  import opened SegmentSteps
  import opened SegmentRetention
  import opened SegmentWriting
  import opened SegmentRecovery
  import opened SegmentLogs
  import opened SegmentSubscriptions
  import opened SegmentWorld
  import opened SegmentDelivery

  /**
   * The log between two operations; or in the middle of an append, with calls still to make and where they will have
   * led.
   */
  datatype Writer = Resting(log: LogState) | Writing(todo: seq<IoCall>, target: LogState, after: seq<LogEntry>)

  /** `contents` is what open files read, deleted ones too; `history` is every entry the log has accepted. */
  datatype Scene = Scene(disk: Directory, contents: map<nat, seq<byte>>, history: seq<LogEntry>, writer: Writer,
                         session: Session)

  datatype SceneTurn =
    | StartAppend(config: Config, clock: Clock, producerId: string, events: seq<OtkEvent>)
    | Call
    | Return
    | MoveCursor(cursor: nat)
    | Subscriber

  /** The append's next call; `notify_waiters` signals the waiter armed before it. */
  function CallOnce(a: Scene): Scene
    requires a.writer.Writing? && a.writer.todo != []
  {
    var call, disk := a.writer.todo[0], Apply(a.disk, a.writer.todo[0]);
    a.(disk := disk, contents := Saw(a.contents, disk), writer := a.writer.(todo := a.writer.todo[1..]),
       session := if call.NotifyWaiters? then a.session.(signalled := true) else a.session)
  }

  ghost predicate SceneTakes(fmt: Format, a: Scene, turn: SceneTurn, b: Scene) {
    match turn
    case StartAppend(config, clock, producerId, events) =>
      && a.writer.Resting?
      && var x := AppendOf(fmt, config, clock, a.writer.log, producerId, events);
         b == a.(writer := Writing(x.calls, x.log, Accepted(a.history, x.r, clock.stamp, producerId, events)))
    case Call => a.writer.Writing? && a.writer.todo != [] && b == CallOnce(a)
    case Return =>
      a.writer.Writing? && a.writer.todo == [] && b == a.(writer := Resting(a.writer.target), history := a.writer.after)
    case MoveCursor(cursor) =>
      && a.writer.Resting? && a.writer.log.active.Some?
      && b == a.(writer := Resting(a.writer.log.(active := Some(a.writer.log.active.value.(cursor := cursor)))))
    case Subscriber =>
      && a.session.failure.None? && b == a.(session := b.session)
      && SubscriberTakes(fmt, Visible(a.disk), a.contents, a.session, b.session)
  }

  /** A log that holds history `h`, and a subscription from `from` that has just been made. */
  function Start(s: LogState, h: seq<LogEntry>, from: nat): Scene {
    Scene(s.disk, Saw(map[], s.disk), h, Resting(s), Session(Sub(from, None, false), Idle, false, [], None))
  }

  /** No index is written that is over the limit. */
  ghost predicate CallsFit(calls: seq<IoCall>) {
    forall c :: c in calls && c.PutIndex? ==> IndexFits(c.positions)
  }

  /** An append that is accepted, or refused before anything of it has been written. */
  ghost predicate Harmless(fmt: Format, h: seq<LogEntry>, producerId: string, events: seq<OtkEvent>) {
    FirstFault(fmt, |h|, producerId, events) == 0 || FirstFault(fmt, |h|, producerId, events) == |events|
  }

  ghost predicate Careful(fmt: Format, a: Scene, turn: SceneTurn) {
    turn.StartAppend? && a.writer.Resting? ==>
      && Harmless(fmt, a.history, turn.producerId, turn.events)
      && CallsFit(AppendOf(fmt, turn.config, turn.clock, a.writer.log, turn.producerId, turn.events).calls)
  }

  /**
   * The turns lead from one scene to the other; `careful` if every append among them is harmless and its index fits.
   */
  ghost predicate Path(fmt: Format, careful: bool, a: Scene, turns: seq<SceneTurn>, b: Scene)
    decreases |turns|
  {
    if turns == [] then a == b
    else
      && (careful ==> Careful(fmt, a, turns[0]))
      && exists m :: SceneTakes(fmt, a, turns[0], m) && Path(fmt, careful, m, turns[1..], b)
  }

  // ---- the world behind a scene ----

  /** Readers of the scene see `w`, which is where the writer is at `p`. */
  ghost predicate Watching(fmt: Format, from: nat, c: Scene, w: World, p: Place) {
    && SessionOk(fmt, w, from, c.session) && Sees(p, w) && p.disk == c.disk && w.contents == c.contents
    && DiskOk(fmt, p.disk, p.history, p.cuts, 0)
  }

  /** Nothing that was written is taken back: the calls cut no file, or there is nothing to cut away. */
  ghost predicate Forward(calls: seq<IoCall>, low: seq<LogEntry>, high: seq<LogEntry>) {
    low == high || forall c :: c in calls ==> !c.SetLen?
  }

  ghost predicate SceneOk(fmt: Format, from: nat, c: Scene, w: World, p: Place, n: nat) {
    && Watching(fmt, from, c, w, p)
    && |c.history| <= p.announced
    && match c.writer
       case Resting(log) => LogOk(fmt, log, c.history, n) && p == PlaceOf(log, c.history, |c.history|)
       case Writing(todo, target, after) =>
         && LogOk(fmt, target, after, n)
         && Does(fmt, c.history, after, p, todo, PlaceOf(target, after, |after|))
         && Forward(todo, c.history, after) && CallsFit(todo)
  }

  // ---- a log at rest ----

  /** Where the closed segments end. */
  function EndsOf(cuts: seq<nat>): map<nat, nat>
    decreases |cuts|
  {
    if |cuts| < 2 then map[] else EndsOf(cuts[1..])[cuts[0] := cuts[1]]
  }

  lemma {:induction false} EndsAt(cuts: seq<nat>, i: nat)
    requires Ascending(cuts) && i + 1 < |cuts|
    ensures cuts[i] in EndsOf(cuts) && EndsOf(cuts)[cuts[i]] == cuts[i + 1]
    decreases |cuts|
  {
    if i > 0 {
      assert cuts[1..][i - 1] == cuts[i] && cuts[1..][i] == cuts[i + 1] && cuts[0] < cuts[i];
      EndsAt(cuts[1..], i - 1);
    }
  }

  lemma {:induction false} EndsOnly(cuts: seq<nat>, b: nat) returns (i: nat)
    requires Ascending(cuts) && b in EndsOf(cuts)
    ensures i + 1 < |cuts| && cuts[i] == b
    decreases |cuts|
  {
    if b == cuts[0] {
      i := 0;
    } else {
      i := EndsOnly(cuts[1..], b);
      assert cuts[1..][i] == cuts[i + 1];
      i := i + 1;
    }
  }

  /** What readers see of a log at rest: everything it holds has been announced. */
  function RestWorld(s: LogState, h: seq<LogEntry>): World {
    World(Visible(s.disk), h, CutsOf(s), |h|, Saw(map[], s.disk), EndsOf(CutsOf(s)))
  }

  lemma {:induction false} RestDisk(fmt: Format, s: LogState, h: seq<LogEntry>, n: nat)
    requires LogOk(fmt, s, h, n)
    ensures DiskOk(fmt, Visible(s.disk), h, CutsOf(s), |h|) && DiskOk(fmt, s.disk, h, CutsOf(s), 0)
  {
    hide LogOk, DiskOk, TailMatches, AllClosedMatch, AllClosedOk, History, Full, CutsOf, HasHeader, Stored;
    LogParts(fmt, s, h, n);
    TailFacts(fmt, s, h);
    var cuts := CutsOf(s);
    CertainLess(fmt, s.disk, h, cuts, n, 0);
    VisibleOk(fmt, s.disk, h, cuts, n);
    var t := Last(cuts);
    if t in s.disk.segs {
      var f := s.disk.segs[t];
      FullVisible(fmt, f, h, t);
      SyncKeeps(fmt, Visible(s.disk), h, cuts, n);
      PutAgain(Visible(s.disk), t, SegFile(f.data, |f.data|), f);
    } else {
      AllCertain(fmt, Visible(s.disk), h, cuts, n);
    }
  }

  lemma {:induction false} AllCertain(fmt: Format, d: Directory, h: seq<LogEntry>, cuts: seq<nat>, n: nat)
    requires DiskOk(fmt, d, h, cuts, n) && Last(cuts) == |h| && Last(cuts) !in d.segs
    ensures DiskOk(fmt, d, h, cuts, |h|)
  {
    hide History, AllClosedOk, NoOthers;
  }

  lemma {:induction false} RestEnd(fmt: Format, d: Directory, h: seq<LogEntry>, cuts: seq<nat>, n: nat, i: nat)
    requires DiskOk(fmt, d, h, cuts, n) && i + 1 < |cuts|
    ensures cuts[i] in d.segs && cuts[i] < cuts[i + 1] <= Last(cuts)
    ensures SealedUpTo(fmt, d.segs[cuts[i]].data, h, cuts[i], cuts[i + 1])
  {
    hide DiskOk, History, HasHeader, Stored, StoredAt;
    ClosedAt(fmt, d, h, cuts, n, i);
    HeaderIsLong(d.segs[cuts[i]].data, cuts[i]);
  }

  lemma {:induction false} RestAscends(fmt: Format, s: LogState, h: seq<LogEntry>, n: nat)
    requires LogOk(fmt, s, h, n)
    ensures Ascending(CutsOf(s))
  {
    hide LogOk, DiskOk, TailMatches, AllClosedMatch, AllClosedOk, History, CutsOf;
    LogParts(fmt, s, h, n);
    forall i, j | 0 <= i < j < |CutsOf(s)|
      ensures CutsOf(s)[i] < CutsOf(s)[j]
    {
      CutsIncrease(fmt, s.disk, h, CutsOf(s), i, j);
    }
  }

  lemma {:induction false} RestEnds(fmt: Format, s: LogState, h: seq<LogEntry>, n: nat)
    requires LogOk(fmt, s, h, n)
    ensures KnowsEnds(fmt, RestWorld(s, h)) && SeesFiles(RestWorld(s, h))
  {
    hide LogOk, DiskOk, CutsOf, SealedUpTo, EndsOf, Ascending;
    RestDisk(fmt, s, h, n);
    var cuts: seq<nat> := CutsOf(s);
    var w := RestWorld(s, h);
    RestAscends(fmt, s, h, n);
    RestFiles(fmt, s, h, n);
    forall b | b in w.ends
      ensures b in w.contents && b < w.ends[b] <= Last(cuts) && SealedUpTo(fmt, w.contents[b], h, b, w.ends[b])
    {
      var i := EndsOnly(cuts, b);
      EndsAt(cuts, i);
      RestEnd(fmt, s.disk, h, cuts, 0, i);
    }
    forall i | 0 <= i < |cuts| - 1
      ensures cuts[i] in w.ends && w.ends[cuts[i]] == cuts[i + 1]
    {
      EndsAt(cuts, i);
    }
    forall b | b in w.contents
      ensures b in w.ends || (b == Last(cuts) && b in w.disk.segs)
    {
      var i :| 0 <= i < |cuts| && cuts[i] == b;
      if i + 1 < |cuts| {
        EndsAt(cuts, i);
      }
    }
  }

  lemma {:induction false} RestFiles(fmt: Format, s: LogState, h: seq<LogEntry>, n: nat)
    requires LogOk(fmt, s, h, n)
    ensures forall b :: b in s.disk.segs ==> b in CutsOf(s)
  {
    hide History, AllClosedOk, TailOk, AllClosedMatch, TailMatches, CutsOf;
  }

  lemma {:induction false} RestWorldOk(fmt: Format, s: LogState, h: seq<LogEntry>, n: nat)
    requires LogOk(fmt, s, h, n) && IndexesFit(s.disk)
    ensures WorldOk(fmt, RestWorld(s, h))
  {
    hide LogOk, DiskOk, KnowsEnds, SeesFiles, CutsOf;
    RestDisk(fmt, s, h, n);
    RestEnds(fmt, s, h, n);
  }

  /** A log at rest and a subscription just made. */
  lemma {:induction false} StartOk(fmt: Format, s: LogState, h: seq<LogEntry>, n: nat, from: nat)
    requires fmt.Lawful() && LogOk(fmt, s, h, n) && IndexesFit(s.disk)
    ensures SceneOk(fmt, from, Start(s, h, from), RestWorld(s, h), PlaceOf(s, h, |h|), n)
  {
    hide LogOk, DiskOk, WorldOk, CutsOf, Saw, Visible;
    RestWorldOk(fmt, s, h, n);
    RestDisk(fmt, s, h, n);
    FreshSession(fmt, RestWorld(s, h), from);
  }

  lemma {:induction false} FreshSession(fmt: Format, w: World, from: nat)
    requires WorldOk(fmt, w)
    ensures SessionOk(fmt, w, from, Session(Sub(from, None, false), Idle, false, [], None))
  {
    hide WorldOk;
  }

  // ---- a call ----

  /** One call, seen by readers. */
  lemma {:induction false} CallSeen(fmt: Format, from: nat, c: Scene, w: World, p: Place, step: WriterStep,
                                    m: Place) returns (v: World)
    requires c.writer.Writing? && c.writer.todo != [] && Watching(fmt, from, c, w, p)
    requires StepsBy(fmt, p, step, c.writer.todo[0], m)
    requires p.history <= m.history && CallsFit(c.writer.todo)
    ensures Watching(fmt, from, CallOnce(c), v, m)
  {
    hide WorldOk, DiskOk, SessionOk, Steps, Saw, Visible, Apply, History;
    var call := c.writer.todo[0];
    StepIsSeen(fmt, p, step, call, m, w);
    StepApplies(fmt, p, step, call, m);
    CallAllowed(fmt, p, step, call, m, w);
    v := Next(fmt, w, step);
    StepKeepsAll(fmt, p, step, call, m);
    CallAnnounces(fmt, p, step, call, m);
    WriterKeepsSession(fmt, w, v, step, from, c.session, CallOnce(c).session);
  }

  lemma {:induction false} CallAllowed(fmt: Format, p: Place, step: WriterStep, call: IoCall, m: Place, w: World)
    requires StepsBy(fmt, p, step, call, m) && Sees(p, w) && p.history <= m.history
    requires Placed(fmt, Spot(w)) && Enabled(fmt, Spot(w), step) && CallOf(fmt, Spot(w), step) == call
    requires call.PutIndex? ==> IndexFits(call.positions)
    ensures Allowed(fmt, w, step)
  {
    hide History, Full, Sealed, StoredAt, Stored, RecordBytes, HeaderBytes, Visible, Apply;
  }

  lemma {:induction false} StepKeepsAll(fmt: Format, p: Place, step: WriterStep, call: IoCall, m: Place)
    requires StepsBy(fmt, p, step, call, m) && DiskOk(fmt, p.disk, p.history, p.cuts, 0)
    ensures DiskOk(fmt, m.disk, m.history, m.cuts, 0) && p.cuts != [] && m.cuts != [] && p.cuts[0] <= m.cuts[0]
  {
    hide Steps, DiskOk;
    DiskHistory(fmt, p.disk, p.history, p.cuts, 0);
    StepKeeps(fmt, p, step, m, 0);
  }

  lemma {:induction false} CallAnnounces(fmt: Format, p: Place, step: WriterStep, call: IoCall, m: Place)
    requires StepsBy(fmt, p, step, call, m)
    ensures call.NotifyWaiters? <==> step.Announce?
    ensures call.SetLen? <==> step.TakeBack?
    ensures m.announced == if call.NotifyWaiters? then |p.history| else p.announced
    ensures p.history <= m.history || (step.TakeBack? && m.history <= p.history)
  {
    hide History, Full, Sealed, StoredAt, Stored, RecordBytes, HeaderBytes, Apply;
  }

  /** A step that takes nothing back only adds to the history. */
  lemma {:induction false} StepGoesForward(fmt: Format, p: Place, step: WriterStep, call: IoCall, m: Place,
                                           calls: seq<IoCall>,
                                          low: seq<LogEntry>, high: seq<LogEntry>)
    requires StepsBy(fmt, p, step, call, m) && call in calls && Forward(calls, low, high)
    requires low <= p.history <= high && low <= m.history
    ensures p.history <= m.history
  {
    hide StepsBy;
    CallAnnounces(fmt, p, step, call, m);
  }

  lemma {:induction false} ForwardRest(calls: seq<IoCall>, low: seq<LogEntry>, high: seq<LogEntry>)
    requires calls != []
    ensures Forward(calls, low, high) ==> Forward(calls[1..], low, high)
    ensures CallsFit(calls) ==> CallsFit(calls[1..])
  {
    assert forall c :: c in calls[1..] ==> c in calls;
  }

  /** The scene after `k` more calls. */
  function Made(c: Scene, k: nat): Scene
    requires c.writer.Writing? && k <= |c.writer.todo|
    decreases k
  {
    if k == 0 then c else Made(CallOnce(c), k - 1)
  }

  lemma {:induction false} MadeSeen(fmt: Format, from: nat, c: Scene, w: World, p: Place, k: nat, q: Place,
                                   low: seq<LogEntry>, high: seq<LogEntry>)
    returns (v: World)
    requires c.writer.Writing? && k <= |c.writer.todo| && Watching(fmt, from, c, w, p)
    requires Does(fmt, low, high, p, c.writer.todo[..k], q) && CallsFit(c.writer.todo)
    requires Forward(c.writer.todo[..k], low, high)
    ensures Watching(fmt, from, Made(c, k), v, q)
    ensures Made(c, k).history == c.history && Made(c, k).writer == c.writer.(todo := c.writer.todo[k..])
    decreases k
  {
    hide StepsBy, Watching;
    var calls := c.writer.todo[..k];
    if k == 0 {
      v := w;
      assert c.writer.todo[0..] == c.writer.todo;
    } else {
      assert calls[0] == c.writer.todo[0];
      var step, m :| StepsBy(fmt, p, step, calls[0], m) && Does(fmt, low, high, m, calls[1..], q);
      DoesEnds(fmt, low, high, m, calls[1..], q);
      StepGoesForward(fmt, p, step, calls[0], m, calls, low, high);
      var u := CallSeen(fmt, from, c, w, p, step, m);
      var d := CallOnce(c);
      assert d.writer.todo[..k - 1] == calls[1..] && d.writer.todo[k - 1..] == c.writer.todo[k..];
      ForwardRest(calls, low, high);
      ForwardRest(c.writer.todo, low, high);
      v := MadeSeen(fmt, from, d, u, m, k - 1, q, low, high);
    }
  }

  // ---- one turn ----

  lemma {:induction false} DeletesCutNothing(closed: seq<ClosedSegment>)
    ensures forall c :: c in DeleteCalls(closed) ==> c.Unlink? || c.UnlinkIndex?
    decreases |closed|
  {
    if closed != [] {
      DeletesCutNothing(closed[1..]);
    }
  }

  lemma {:induction false} AcceptedCutsNothing(fmt: Format, config: Config, clock: Clock, s: LogState,
                                               producerId: string, events: seq<OtkEvent>)
    requires FirstFault(fmt, s.nextOffset, producerId, events) == |events|
    ensures forall c :: c in AppendOf(fmt, config, clock, s, producerId, events).calls ==> !c.SetLen?
  {
    hide FirstFault, EvictedRun, ApplyAll, WriteEvents, ShouldRoll, HeaderBytes, DeleteCalls;
    if events != [] && producerId != "" {
      var ensured := EnsuredOf(s, clock.created).log;
      var a := ensured.active.value;
      WritesCutNothing(fmt, a.baseOffset, a.nextFilePos, a.nextFilePos, s.nextOffset, clock.stamp, producerId, events);
      var c := CommitOf(fmt, ensured, clock.stamp, producerId, events);
      RollCutsNothing(config.retention, clock.retention, c.log);
    }
  }

  lemma {:induction false} RollCutsNothing(policy: RetentionPolicy, now: u64, s: LogState)
    ensures forall c :: c in RollOf(policy, now, s).calls ==> !c.SetLen?
  {
    hide EvictedRun, ApplyAll, DeleteCalls;
    if s.active.Some? && s.active.value.positions != [] {
      var all := s.closed + [SealedAs(ApplyAll(s.disk, SealCalls(s.active.value, s.nextOffset)), s.active.value)];
      DeletesCutNothing(all[..EvictedRun(policy, now, all, 0)]);
    }
  }

  lemma {:induction false} AppendStarts(fmt: Format, from: nat, a: Scene, turn: SceneTurn, b: Scene, w: World, p: Place,
                                        n: nat)
    returns (m: nat)
    requires SceneOk(fmt, from, a, w, p, n) && turn.StartAppend? && SceneTakes(fmt, a, turn, b) && Careful(fmt, a, turn)
    ensures SceneOk(fmt, from, b, w, p, m)
  {
    hide LogOk, DiskOk, SessionOk, Does, Attempt, RollOutcome, FirstFault, Fault, EnsuredOf, CommitOf, RollOf, CutsOf,
      DueToRoll, Sees, History;
    var h, log := a.history, a.writer.log;
    var x := AppendOf(fmt, turn.config, turn.clock, log, turn.producerId, turn.events);
    LogPlaced(fmt, log, h, n, |h|);
    HistoryFits(fmt, h);
    m := n;
    if turn.events == [] || turn.producerId == "" {
      DoesNothing(fmt, h, h, p);
    } else {
      AppendDoes(fmt, turn.config, turn.clock, log, h, n, turn.producerId, turn.events);
      AttemptLength(fmt, |h|, turn.clock.stamp, turn.producerId, turn.events);
      m := if x.r.Ok? then |b.writer.after| else n;
      if FirstFault(fmt, |h|, turn.producerId, turn.events) == |turn.events| {
        AcceptedCutsNothing(fmt, turn.config, turn.clock, log, turn.producerId, turn.events);
        WholeAttempt(fmt, |h|, turn.clock.stamp, turn.producerId, turn.events);
      } else {
        assert h + Attempt(fmt, |h|, turn.clock.stamp, turn.producerId, turn.events) == h;
      }
    }
  }

  lemma {:induction false} AttemptLength(fmt: Format, next: nat, ts: u64, producerId: string, events: seq<OtkEvent>)
    requires next < U64_LIMIT
    ensures |Attempt(fmt, next, ts, producerId, events)| == FirstFault(fmt, next, producerId, events)
  {
  }

  lemma {:induction false} CallTurn(fmt: Format, from: nat, a: Scene, b: Scene, w: World, p: Place, n: nat)
    returns (v: World, m: Place)
    requires SceneOk(fmt, from, a, w, p, n) && SceneTakes(fmt, a, Call, b)
    ensures SceneOk(fmt, from, b, v, m, n)
  {
    hide LogOk, Watching, StepsBy, Apply, Saw;
    var todo := a.writer.todo;
    var q := PlaceOf(a.writer.target, a.writer.after, |a.writer.after|);
    var step;
    step, m :| StepsBy(fmt, p, step, todo[0], m) && Does(fmt, a.history, a.writer.after, m, todo[1..], q);
    DoesEnds(fmt, a.history, a.writer.after, m, todo[1..], q);
    StepGoesForward(fmt, p, step, todo[0], m, todo, a.history, a.writer.after);
    v := CallSeen(fmt, from, a, w, p, step, m);
    CallAnnounces(fmt, p, step, todo[0], m);
    ForwardRest(todo, a.history, a.writer.after);
  }

  lemma {:induction false} CursorTurn(fmt: Format, from: nat, a: Scene, turn: SceneTurn, b: Scene, w: World, p: Place,
                                      n: nat)
    requires SceneOk(fmt, from, a, w, p, n) && turn.MoveCursor? && SceneTakes(fmt, a, turn, b)
    ensures SceneOk(fmt, from, b, w, p, n)
  {
    hide LogOk, SessionOk, DiskOk, CutsOf, Sees;
    CursorMoves(fmt, a.writer.log, a.history, n, turn.cursor);
  }

  lemma {:induction false} SubscriberTurnKeeps(fmt: Format, from: nat, a: Scene, b: Scene, w: World, p: Place, n: nat)
    requires fmt.Lawful() && SceneOk(fmt, from, a, w, p, n) && SceneTakes(fmt, a, Subscriber, b)
    ensures SceneOk(fmt, from, b, w, p, n)
  {
    hide LogOk, SessionOk, DiskOk, Does, Forward, CallsFit, SubscriberTakes, CutsOf, Visible;
    SubscriberKeepsSession(fmt, w, from, a.session, b.session);
  }

  /** Every turn leaves a scene whose readers see what they may rely on. */
  lemma {:induction false} TurnOk(fmt: Format, from: nat, a: Scene, turn: SceneTurn, b: Scene, w: World, p: Place,
                                  n: nat)
    returns (v: World, q: Place, m: nat)
    requires fmt.Lawful() && SceneOk(fmt, from, a, w, p, n) && SceneTakes(fmt, a, turn, b) && Careful(fmt, a, turn)
    ensures SceneOk(fmt, from, b, v, q, m)
  {
    v, q, m := w, p, n;
    match turn {
      case StartAppend(_, _, _, _) =>
        hide *;
        m := AppendStarts(fmt, from, a, turn, b, w, p, n);
      case Call =>
        hide *;
        v, q := CallTurn(fmt, from, a, b, w, p, n);
      case Return =>
        hide LogOk, SessionOk, DiskOk, CutsOf, Sees, StepsBy;
      case MoveCursor(_) =>
        hide *;
        CursorTurn(fmt, from, a, turn, b, w, p, n);
      case Subscriber =>
        hide *;
        SubscriberTurnKeeps(fmt, from, a, b, w, p, n);
    }
  }

  lemma {:induction false} PathOk(fmt: Format, from: nat, a: Scene, turns: seq<SceneTurn>, b: Scene, w: World, p: Place,
                                  n: nat)
    returns (v: World, q: Place, m: nat)
    requires fmt.Lawful() && SceneOk(fmt, from, a, w, p, n) && Path(fmt, true, a, turns, b)
    ensures SceneOk(fmt, from, b, v, q, m)
    decreases |turns|
  {
    hide SceneOk, SceneTakes, Careful;
    v, q, m := w, p, n;
    if turns != [] {
      var c :| SceneTakes(fmt, a, turns[0], c) && Path(fmt, true, c, turns[1..], b);
      v, q, m := TurnOk(fmt, from, a, turns[0], c, w, p, n);
      v, q, m := PathOk(fmt, from, c, turns[1..], b, v, q, m);
    }
  }

  // ---- what a subscription gets ----

  /** Every entry the log will have accepted once the append in progress, if any, returns. */
  function HistoryOf(c: Scene): seq<LogEntry> {
    if c.writer.Writing? then c.writer.after else c.history
  }

  function LogOf(c: Scene): LogState {
    if c.writer.Writing? then c.writer.target else c.writer.log
  }

  /** What has been delivered is the log's entries from `from` on, with no gap and no repeat. */
  ghost predicate Truthful(c: Scene, from: nat) {
    var n := |c.session.delivered|;
    n == 0 || (from + n <= |HistoryOf(c)| && c.session.delivered == HistoryOf(c)[from..from + n])
  }

  /**
   * A subscription interleaved, call by call, with appends, rolls and retention of the log, all appends accepted or
   * refused at their first event: it is given exactly the log's entries at `from`, `from + 1` and so on; it ends only
   * with RetentionExpired, and then its cursor lies below the window the log retains.
   */
  lemma {:induction false} DeliversTheLog(fmt: Format, s: LogState, h: seq<LogEntry>, n: nat, from: nat,
                                          turns: seq<SceneTurn>, c: Scene)
    requires fmt.Lawful() && LogOk(fmt, s, h, n) && IndexesFit(s.disk) && Path(fmt, true, Start(s, h, from), turns, c)
    ensures Truthful(c, from)
    ensures exists m: nat :: LogOk(fmt, LogOf(c), HistoryOf(c), m)
    ensures c.session.failure.Some? ==>
              && c.session.failure.value.RetentionExpired?
              && c.session.failure.value.requested == from + |c.session.delivered| < First(LogOf(c))
  {
    hide LogOk, IndexesFit, Path, SceneOk, CutsOf;
    StartOk(fmt, s, h, n, from);
    var w, p, m := PathOk(fmt, from, Start(s, h, from), turns, c, RestWorld(s, h), PlaceOf(s, h, |h|), n);
    SceneFacts(fmt, from, c, w, p, m);
  }

  lemma {:induction false} SceneFacts(fmt: Format, from: nat, c: Scene, w: World, p: Place, n: nat)
    requires SceneOk(fmt, from, c, w, p, n)
    ensures Truthful(c, from) && LogOk(fmt, LogOf(c), HistoryOf(c), n)
    ensures c.session.failure.Some? ==>
              && c.session.failure.value.RetentionExpired?
              && c.session.failure.value.requested == from + |c.session.delivered| < First(LogOf(c))
    ensures c.session.phase.Parked? && !c.session.signalled ==> p.announced <= from + |c.session.delivered|
  {
    hide LogOk, DiskOk, Does, WorldOk, Visible, CutsOf, SubOk;
    if c.writer.Writing? {
      var after := c.writer.after;
      DoesEnds(fmt, c.history, after, p, c.writer.todo, PlaceOf(c.writer.target, after, |after|));
      DoesKeeps(fmt, c.history, after, p, c.writer.todo, PlaceOf(c.writer.target, after, |after|), 0);
    }
    if c.session.delivered != [] {
      SamePrefix(w.history, HistoryOf(c), from, c.session.sub.next);
    }
  }

  /** What has been announced at the end, if nothing more is to be announced. */
  lemma {:induction false} DoesAnnounced(fmt: Format, low: seq<LogEntry>, high: seq<LogEntry>, p: Place,
                                         calls: seq<IoCall>, q: Place)
    requires Does(fmt, low, high, p, calls, q) && forall c :: c in calls ==> !c.NotifyWaiters?
    ensures p.announced == q.announced
    decreases |calls|
  {
    hide StepsBy;
    if calls != [] {
      var step, m :| StepsBy(fmt, p, step, calls[0], m) && Does(fmt, low, high, m, calls[1..], q);
      CallAnnounces(fmt, p, step, calls[0], m);
      DoesAnnounced(fmt, low, high, m, calls[1..], q);
    }
  }

  /**
   * No lost wake-up: between operations, a subscriber that is parked and not signalled has been given every entry the
   * log holds. While an append runs the same is true of the entries before it, and of its own once it has notified.
   */
  lemma {:induction false} NoLostWakeUp(fmt: Format, s: LogState, h: seq<LogEntry>, n: nat, from: nat,
                                        turns: seq<SceneTurn>, c: Scene)
    requires fmt.Lawful() && LogOk(fmt, s, h, n) && IndexesFit(s.disk) && Path(fmt, true, Start(s, h, from), turns, c)
    requires c.session.phase.Parked? && !c.session.signalled
    ensures |c.history| <= from + |c.session.delivered|
    ensures c.writer.Resting? ==> c.writer.log.nextOffset <= from + |c.session.delivered|
    ensures c.writer.Writing? && (forall call :: call in c.writer.todo ==> !call.NotifyWaiters?) ==>
              c.writer.target.nextOffset <= from + |c.session.delivered|
  {
    hide LogOk, IndexesFit, Path, CutsOf, Watching, Does, Forward, CallsFit;
    StartOk(fmt, s, h, n, from);
    var w, p, m := PathOk(fmt, from, Start(s, h, from), turns, c, RestWorld(s, h), PlaceOf(s, h, |h|), n);
    SceneFacts(fmt, from, c, w, p, m);
    LogPlaced(fmt, LogOf(c), HistoryOf(c), m, 0);
    if c.writer.Writing? && forall call :: call in c.writer.todo ==> !call.NotifyWaiters? {
      var after := c.writer.after;
      DoesAnnounced(fmt, c.history, after, p, c.writer.todo, PlaceOf(c.writer.target, after, |after|));
    }
  }
}
