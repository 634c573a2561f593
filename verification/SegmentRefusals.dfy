/** What a batch that is refused part-way does to a subscription. */
module SegmentRefusals {
  import opened Bytes
  import opened Wrappers
  import opened EventModel
  import opened EventLogPort
  import opened SegmentRecords
  import opened SegmentDisk
  import opened SegmentIo
  import opened SegmentState
  import opened SegmentSteps
  import opened SegmentWriting
  import opened SegmentReading
  import opened SegmentRecovery
  import opened SegmentLogs
  import opened SegmentSubscriptions
  import opened SegmentWorld
  import opened SegmentDelivery
  import opened SegmentAtomicity
  import opened SegmentScenes

  ghost predicate NoAppend(turns: seq<SceneTurn>) {
    forall t :: t in turns ==> !t.StartAppend?
  }

  /** The turns start with this append, and no other follows. */
  ghost predicate OneAppend(turns: seq<SceneTurn>, first: SceneTurn) {
    turns != [] && turns[0] == first && first.StartAppend? && NoAppend(turns[1..])
  }

  /**
   * However a subscription is interleaved with the append: once it has returned, what was delivered is what the log
   * holds.
   */
  ghost predicate KeepsReaders(fmt: Format, s: LogState, h: seq<LogEntry>, first: SceneTurn) {
    forall from: nat, turns, c ::
      OneAppend(turns, first) && Path(fmt, false, Start(s, h, from), turns, c) && c.writer.Resting? ==>
        Truthful(c, from)
  }

  // ---- paths ----

  lemma {:induction false} PathOn(fmt: Format, careful: bool, a: Scene, s: seq<SceneTurn>, m: Scene, t: seq<SceneTurn>,
                                  b: Scene)
    requires Path(fmt, careful, a, s, m) && Path(fmt, careful, m, t, b)
    ensures Path(fmt, careful, a, s + t, b)
    decreases |s|
  {
    hide SceneTakes, Careful;
    if s == [] {
      assert s + t == t;
    } else {
      assert (s + t)[1..] == s[1..] + t && (s + t)[0] == s[0];
      var c :| SceneTakes(fmt, a, s[0], c) && Path(fmt, careful, c, s[1..], m);
      PathOn(fmt, careful, c, s[1..], m, t, b);
    }
  }

  lemma {:induction false} PathOne(fmt: Format, a: Scene, turn: SceneTurn, b: Scene)
    requires SceneTakes(fmt, a, turn, b)
    ensures Path(fmt, false, a, [turn], b)
  {
    hide SceneTakes, Careful;
    var turns := [turn];
    assert turns[0] == turn && turns[1..] == [] && Path(fmt, false, b, turns[1..], b);
  }

  /** Turns that start no append need no care. */
  lemma {:induction false} CarefulPath(fmt: Format, a: Scene, turns: seq<SceneTurn>, b: Scene)
    requires Path(fmt, false, a, turns, b) && NoAppend(turns)
    ensures Path(fmt, true, a, turns, b)
    decreases |turns|
  {
    hide SceneTakes;
    if turns != [] {
      var c :| SceneTakes(fmt, a, turns[0], c) && Path(fmt, false, c, turns[1..], b);
      assert turns[0] in turns;
      assert forall t :: t in turns[1..] ==> t in turns;
      CarefulPath(fmt, c, turns[1..], b);
    }
  }

  function Calls(k: nat): (turns: seq<SceneTurn>)
    ensures |turns| == k && forall t :: t in turns ==> t == Call
  {
    seq(k, _ => Call)
  }

  lemma {:induction false} CallsLead(fmt: Format, a: Scene, k: nat)
    requires a.writer.Writing? && k <= |a.writer.todo|
    ensures Path(fmt, false, a, Calls(k), Made(a, k))
    ensures Made(a, k).writer == a.writer.(todo := a.writer.todo[k..]) && Made(a, k).history == a.history
    decreases k
  {
    hide Careful;
    if k > 0 {
      var turns, b := Calls(k), CallOnce(a);
      assert turns[0] == Call && turns[1..] == Calls(k - 1);
      CallsLead(fmt, b, k - 1);
      assert b.writer.todo[k - 1..] == a.writer.todo[k..];
      assert SceneTakes(fmt, a, turns[0], b);
    } else {
      assert a.writer.todo[0..] == a.writer.todo;
    }
  }

  /** Calls that notify nobody leave the subscription alone. */
  lemma {:induction false} QuietCalls(a: Scene, k: nat)
    requires a.writer.Writing? && k <= |a.writer.todo| && forall c :: c in a.writer.todo[..k] ==> !c.NotifyWaiters?
    ensures Made(a, k).session == a.session
    decreases k
  {
    hide Apply, Saw;
    if k > 0 {
      var b := CallOnce(a);
      assert a.writer.todo[0] in a.writer.todo[..k];
      assert b.writer.todo[..k - 1] == a.writer.todo[..k][1..];
      QuietCalls(b, k - 1);
    }
  }

  // ---- the refused batch ----

  /** A refused append only writes, and cuts back. */
  lemma {:induction false} RefusedCalls(fmt: Format, config: Config, clock: Clock, s: LogState, producerId: string,
                                        events: seq<OtkEvent>)
    requires FirstFault(fmt, s.nextOffset, producerId, events) < |events|
    ensures forall c :: c in AppendOf(fmt, config, clock, s, producerId, events).calls ==>
        c.CreateFile? || c.WriteFile? || c.SetLen?
    ensures AppendOf(fmt, config, clock, s, producerId, events).r.Err?
  {
    hide FirstFault, ApplyAll, WriteEvents, HeaderBytes, RollOf;
    if producerId != "" {
      var ensured := EnsuredOf(s, clock.created).log;
      var a := ensured.active.value;
      RefusedWrites(fmt, a.baseOffset, a.nextFilePos, a.nextFilePos, s.nextOffset, clock.stamp, producerId, events);
    }
  }

  lemma {:induction false} RefusedWrites(fmt: Format, base: nat, start: nat, pos: nat, next: nat, ts: u64,
                                         producerId: string,
                                        events: seq<OtkEvent>)
    requires FirstFault(fmt, next, producerId, events) < |events|
    ensures var w := WriteEvents(fmt, base, start, pos, next, ts, producerId, events);
            w.refused.Some? && forall c :: c in w.calls ==> c.WriteFile? || c.SetLen?
    decreases |events|
  {
    hide RecordBytes, Refusal;
    if Fault(fmt, next, producerId, events[0]).None? {
      var bytes := RecordBytes(fmt, LogEntry(next, ts, producerId, events[0]));
      RefusedWrites(fmt, base, start, pos + |bytes|, next + 1, ts, producerId, events[1..]);
    }
  }

  /** Once told of everything written, readers could rely on all of it. */
  lemma {:induction false} Told(fmt: Format, w: World)
    requires WorldOk(fmt, w) && Placed(fmt, Spot(w)) && TailFull(fmt, Spot(w))
    ensures WorldOk(fmt, w.(announced := |w.history|))
  {
    hide WorldOk, History, Full, Later, Saw, Visible;
    WorldSees(fmt, w);
    TailIsSynced(fmt, w);
    assert Allowed(fmt, w, Announce);
    AnnounceLater(fmt, w);
    SeenIs(w, w.disk.segs[Last(w.cuts)]);
    LaterOk(fmt, w, Next(fmt, w, Announce));
  }

  lemma {:induction false} TailIsSynced(fmt: Format, w: World)
    requires WorldOk(fmt, w) && Placed(fmt, Spot(w)) && TailFull(fmt, Spot(w))
    ensures TailSynced(fmt, Spot(w))
  {
    hide DiskOk, History, Full, KnowsEnds, IndexesFit;
  }

  lemma {:induction false} OpensSomehow(fmt: Format, d: Directory, next: nat, b: nat) returns (r: OpenResult)
    requires b in d.segs && b <= next
    ensures OpensTo(fmt, d, next, r)
  {
    hide OpenAt;
    var m := HasBestIn(d.segs.Keys, next, b);
    r := OpenAt(fmt, d, m, next);
    assert IsBest(d, next, m);
    assert forall x :: IsBest(d, next, x) ==> x == m;
  }

  /** A subscription at the end of what had been written before takes the entry just written. */
  lemma {:induction false} TakesWritten(fmt: Format, a: Scene, w: World) returns (b: Scene)
    requires fmt.Lawful() && WorldOk(fmt, w) && w.cuts != [] && w.disk == Visible(a.disk) && w.contents == a.contents
    requires Last(w.cuts) in w.disk.segs && w.cuts[0] <= Last(w.cuts) <= |w.history| - 1 && w.announced == |w.history|
    requires a.session == Session(Sub(|w.history| - 1, None, false), Idle, false, [], None)
    ensures Path(fmt, false, a, [Subscriber] + [Subscriber] + [Subscriber], b)
    ensures b == a.(session := b.session) && b.session.delivered == [w.history[|w.history| - 1]]
  {
    hide WorldOk, OpensTo, HandleAt, Limit, Path, ReadStep, Visible;
    var s := a.session;
    var r := OpensSomehow(fmt, w.disk, s.sub.next, Last(w.cuts));
    var sub, o := Opens(fmt, w.disk, s.sub, r);
    OpensAtNext(fmt, w, s.sub, sub, o);
    ReadsAtNext(fmt, w, sub);
    var read := ReadStep(fmt, w.disk, w.contents, sub);
    var a1 := a.(session := s.(phase := Armed));
    var a2 := a.(session := s.(phase := Reading, sub := sub));
    b := a.(session := Acted(s.(phase := Reading, sub := read.0), read.1, Armed));
    assert SubscriberTakes(fmt, w.disk, w.contents, a1.session, a2.session);
    assert SceneTakes(fmt, a, Subscriber, a1) && SceneTakes(fmt, a1, Subscriber, a2);
    assert SceneTakes(fmt, a2, Subscriber, b);
    hide SceneTakes;
    PathOne(fmt, a, Subscriber, a1);
    PathOne(fmt, a1, Subscriber, a2);
    PathOne(fmt, a2, Subscriber, b);
    PathOn(fmt, false, a, [Subscriber], a1, [Subscriber], a2);
    PathOn(fmt, false, a, [Subscriber] + [Subscriber], a2, [Subscriber], b);
  }

  lemma {:induction false} Opens(fmt: Format, d: Directory, s: Sub, r: OpenResult) returns (t: Sub, o: Outcome)
    requires s.file.None? && OpensTo(fmt, d, s.next, r)
    ensures OpenStep(fmt, d, s, t, o)
  {
    hide OpensTo;
    match r {
      case Opened(handle) => t, o := s.(file := Some(handle)), Again;
      case NotYet => t, o := s, Wait;
      case Refused(e) => t, o := s.(closed := true), Fail(e);
    }
  }

  /** The world behind the scene in which the first record of the batch has been written. */
  lemma {:induction false} FirstWritten(fmt: Format, s: LogState, h: seq<LogEntry>, n: nat, config: Config,
                                        clock: Clock,
                                       producerId: string, events: seq<OtkEvent>, a: Scene)
    returns (k: nat, w: World)
    requires fmt.Lawful() && LogOk(fmt, s, h, n) && IndexesFit(s.disk) && producerId != ""
    requires 0 < FirstFault(fmt, |h|, producerId, events) < |events|
    requires var x := AppendOf(fmt, config, clock, s, producerId, events);
             a == Start(s, h, |h|).(writer := Writing(x.calls, x.log, h))
    ensures k <= |a.writer.todo| && |h| + 1 < U64_LIMIT
    ensures w.history == h + [LogEntry(|h|, clock.stamp, producerId, events[0])] && w.announced == |w.history|
    ensures var b := Made(a, k);
            && WorldOk(fmt, w) && w.disk == Visible(b.disk) && w.contents == b.contents && b.session == a.session
    ensures w.cuts != [] && w.cuts[0] <= Last(w.cuts) <= |h| && Last(w.cuts) in w.disk.segs
    ensures s.nextOffset == |h| && forall c :: c in a.writer.todo[k..] ==> !c.NotifyWaiters?
  {
    FirstFaults(fmt, |h|, producerId, events);
    hide LogOk, DiskOk, WorldOk, CutsOf, Does, Placed, TailFull, AppendOf, IndexesFit, FirstFault, Fault, SessionOk,
      Saw, Visible, ApplyAll, Made,
      Sees, Forward, CallsFit, Watching;
    StartWatched(fmt, s, h, n, a);
    LogPlaced(fmt, s, h, n, |h|);
    WindowFacts(fmt, s, h, n);
    RefusedCalls(fmt, config, clock, s, producerId, events);
    var p;
    k, p := FirstRecord(fmt, config, clock, s, h, n, producerId, events);
    PlainCalls(a.writer.todo, k, h, p.history);
    QuietCalls(a, k);
    var v := MadeSeen(fmt, |h|, a, RestWorld(s, h), PlaceOf(s, h, |h|), k, p, h, p.history);
    SeenParts(fmt, |h|, Made(a, k), v, p);
    Told(fmt, v);
    w := v.(announced := |v.history|);
  }

  lemma {:induction false} StartWatched(fmt: Format, s: LogState, h: seq<LogEntry>, n: nat, a: Scene)
    requires fmt.Lawful() && LogOk(fmt, s, h, n) && IndexesFit(s.disk) && a == Start(s, h, |h|).(writer := a.writer)
    ensures Watching(fmt, |h|, a, RestWorld(s, h), PlaceOf(s, h, |h|))
  {
    hide LogOk, DiskOk, IndexesFit, SessionOk, Saw, Visible, Sees, CutsOf;
    StartOk(fmt, s, h, n, |h|);
  }

  lemma {:induction false} PlainCalls(calls: seq<IoCall>, k: nat, low: seq<LogEntry>, high: seq<LogEntry>)
    requires k <= |calls| && forall c :: c in calls ==> c.CreateFile? || c.WriteFile? || c.SetLen?
    requires forall c :: c in calls[..k] ==> c.CreateFile? || c.WriteFile?
    ensures CallsFit(calls) && Forward(calls[..k], low, high)
    ensures forall c :: c in calls[..k] ==> !c.NotifyWaiters?
    ensures forall c :: c in calls[k..] ==> !c.NotifyWaiters?
  {
    assert forall c :: c in calls[k..] ==> c in calls;
  }

  lemma {:induction false} FirstFaults(fmt: Format, next: nat, producerId: string, events: seq<OtkEvent>)
    requires 0 < FirstFault(fmt, next, producerId, events)
    ensures events != [] && Fault(fmt, next, producerId, events[0]).None?
  {
  }

  /** A place with a full tail, as readers see it. */
  lemma {:induction false} SeenParts(fmt: Format, from: nat, c: Scene, w: World, p: Place)
    requires Watching(fmt, from, c, w, p) && Placed(fmt, p) && TailFull(fmt, p)
    ensures WorldOk(fmt, w) && w.disk == Visible(c.disk) && w.contents == c.contents && w.history == p.history
    ensures w.cuts == p.cuts
    ensures Placed(fmt, Spot(w)) && TailFull(fmt, Spot(w)) && w.cuts != [] && Last(w.cuts) in w.disk.segs
  {
    hide WorldOk, DiskOk, SubOk, History, Full;
    FullVisible(fmt, p.disk.segs[Last(p.cuts)], p.history, Last(p.cuts));
  }

  lemma {:induction false} RefusedLog(fmt: Format, s: LogState, h: seq<LogEntry>, n: nat, config: Config, clock: Clock,
                                     producerId: string, events: seq<OtkEvent>)
    requires LogOk(fmt, s, h, n) && producerId != "" && FirstFault(fmt, |h|, producerId, events) < |events|
    ensures LogOk(fmt, AppendOf(fmt, config, clock, s, producerId, events).log, h, n)
  {
    hide LogOk, AppendOf, Does, RollOutcome, Attempt, FirstFault;
    AppendDoes(fmt, config, clock, s, h, n, producerId, events);
  }

  /**
   * A batch refused after its first event can be read before it is cut away: a subscription at the end of the log is
   * given an entry that the log does not hold, and whose offset the next batch will get.
   */
  lemma {:induction false} RefusedIsDelivered(fmt: Format, s: LogState, h: seq<LogEntry>, n: nat, config: Config,
                                              clock: Clock,
                                             producerId: string, events: seq<OtkEvent>)
    returns (turns: seq<SceneTurn>, c: Scene)
    requires fmt.Lawful() && LogOk(fmt, s, h, n) && IndexesFit(s.disk) && producerId != ""
    requires 0 < FirstFault(fmt, |h|, producerId, events) < |events|
    ensures OneAppend(turns, StartAppend(config, clock, producerId, events))
    ensures Path(fmt, false, Start(s, h, |h|), turns, c)
    ensures |h| < U64_LIMIT && c.writer.Resting? && c.history == h && LogOk(fmt, c.writer.log, h, n)
    ensures c.session.delivered == [LogEntry(|h|, clock.stamp, producerId, events[0])] && !Truthful(c, |h|)
  {
    hide LogOk, WorldOk, AppendOf, IndexesFit, FirstFault, Path, Made, CutsOf, Visible, Saw;
    LogPlaced(fmt, s, h, n, |h|);
    var first := StartAppend(config, clock, producerId, events);
    var x := AppendOf(fmt, config, clock, s, producerId, events);
    RefusedCalls(fmt, config, clock, s, producerId, events);
    RefusedLog(fmt, s, h, n, config, clock, producerId, events);
    var a0 := Start(s, h, |h|);
    var a1 := a0.(writer := Writing(x.calls, x.log, h));
    assert SceneTakes(fmt, a0, first, a1);
    var k, w := FirstWritten(fmt, s, h, n, config, clock, producerId, events, a1);
    var a2 := Made(a1, k);
    CallsLead(fmt, a1, k);
    var a3 := TakesWritten(fmt, a2, w);
    var rest := |x.calls| - k;
    CallsLead(fmt, a3, rest);
    var a4 := Made(a3, rest);
    assert a3.writer.todo[..rest] == a1.writer.todo[k..] && x.calls[k..][rest..] == [];
    QuietCalls(a3, rest);
    c := a4.(writer := Resting(x.log), history := h);
    assert SceneTakes(fmt, a4, Return, c);
    hide SceneTakes;
    PathOne(fmt, a0, first, a1);
    PathOne(fmt, a4, Return, c);
    var reading := [Subscriber] + [Subscriber] + [Subscriber];
    PathOn(fmt, false, a0, [first], a1, Calls(k), a2);
    PathOn(fmt, false, a0, [first] + Calls(k), a2, reading, a3);
    PathOn(fmt, false, a0, [first] + Calls(k) + reading, a3, Calls(rest), a4);
    PathOn(fmt, false, a0, [first] + Calls(k) + reading + Calls(rest), a4, [Return], c);
    turns := [first] + Calls(k) + reading + Calls(rest) + [Return];
    assert turns[1..] == Calls(k) + reading + Calls(rest) + [Return];
  }

  /**
   * An append keeps what subscriptions are promised exactly if it is accepted or refused at its first event: refused
   * any later, there is a subscription that has been given what the log then does not hold.
   */
  lemma {:induction false} ReadersKeptExactlyWhen(fmt: Format, s: LogState, h: seq<LogEntry>, n: nat, config: Config,
                                                  clock: Clock,
                                                 producerId: string, events: seq<OtkEvent>)
    requires fmt.Lawful() && LogOk(fmt, s, h, n) && IndexesFit(s.disk) && producerId != ""
    requires CallsFit(AppendOf(fmt, config, clock, s, producerId, events).calls)
    ensures KeepsReaders(fmt, s, h, StartAppend(config, clock, producerId, events)) <==>
        Harmless(fmt, h, producerId, events)
  {
    hide LogOk, AppendOf, IndexesFit, FirstFault, Path, Truthful, CallsFit;
    var first := StartAppend(config, clock, producerId, events);
    if Harmless(fmt, h, producerId, events) {
      forall from: nat, turns, c | OneAppend(turns, first) && Path(fmt, false, Start(s, h, from), turns,
                                                                   c) && c.writer.Resting?
        ensures Truthful(c, from)
      {
        CarefulFirst(fmt, Start(s, h, from), turns, c);
        DeliversTheLog(fmt, s, h, n, from, turns, c);
      }
    } else {
      var turns, c := RefusedIsDelivered(fmt, s, h, n, config, clock, producerId, events);
    }
  }

  lemma {:induction false} CarefulFirst(fmt: Format, a: Scene, turns: seq<SceneTurn>, b: Scene)
    requires turns != [] && Path(fmt, false, a, turns, b) && Careful(fmt, a, turns[0]) && NoAppend(turns[1..])
    ensures Path(fmt, true, a, turns, b)
  {
    hide SceneTakes, Careful, NoAppend;
    var c :| SceneTakes(fmt, a, turns[0], c) && Path(fmt, false, c, turns[1..], b);
    CarefulPath(fmt, c, turns[1..], b);
  }
}
