/**
 * Many sessions calling the service at once. The gate lock, the processor lock and the log lock are taken one after the
 * other and released in between, so a call is a sequence of atomic steps that other calls' steps may separate.
 */
module IngestInterleaving {
  import opened Wrappers
  import opened EventModel
  import opened EventLogPort
  import opened SequenceGates
  import opened CrossingProcessors
  import opened EventIngest

  /** How far a call that was not dropped has come. */
  datatype Phase =
    | Decided
    | Grouped(closed: seq<Group>)
    | Logged(closed: seq<Group>)
    | GateCommitted(closed: seq<Group>)

  datatype InFlight = InFlight(producerId: string, detection: Detection, phase: Phase)
  {
    function Stamp(): Stamp {
      StampOf(producerId, detection)
    }

    /** The call has passed the gate and its detection is not in the log yet. */
    predicate Unlogged() {
      phase.Decided? || phase.Grouped?
    }
  }

  /** Shared state and the calls under way, by call id. */
  datatype System = System(log: seq<LogRecord>, marks: HighWater, pending: Pending, calls: map<nat, InFlight>)

  datatype Step =
    | Begin(id: nat, producerId: string, detection: Detection)
    | PeekGroups(call: nat)
    | AppendOk(call: nat)
    | AppendFails(call: nat)
    | CommitGate(call: nat)
    | CommitGroups(call: nat)
    | AppendOther(producer: string, event: OtkEvent)
    | Restart

  function At(s: System, id: nat, phase: Phase): System
    requires id in s.calls
  {
    s.(calls := s.calls[id := s.calls[id].(phase := phase)])
  }

  ghost predicate Takes(window: nat, s: System, t: System, step: Step) {
    match step
    case Begin(id, producerId, detection) =>
      && id !in s.calls
      && t == if Decide(s.marks, StampOf(producerId, detection)).Persist()
              then s.(calls := s.calls[id := InFlight(producerId, detection, Decided)])
              else s
    case PeekGroups(id) =>
      && id in s.calls && s.calls[id].phase.Decided?
      && t == At(s, id, Grouped(Closes(window, s.pending, s.calls[id].detection)))
    case AppendOk(id) =>
      && id in s.calls && s.calls[id].phase.Grouped?
      && t == At(s, id, Logged(s.calls[id].phase.closed)).(log := s.log +
           RecordsOf(s.calls[id].producerId, Written(DetectionEvent(s.calls[id].detection), s.calls[id].phase.closed)))
    case AppendFails(id) =>
      && id in s.calls && s.calls[id].phase.Grouped?
      && t == s.(calls := s.calls - {id})
    case CommitGate(id) =>
      && id in s.calls && s.calls[id].phase.Logged?
      && t == At(s, id, GateCommitted(s.calls[id].phase.closed)).(marks := Raise(s.marks, s.calls[id].Stamp()))
    case CommitGroups(id) =>
      && id in s.calls && s.calls[id].phase.GateCommitted?
      && t == s.(pending := Opens(window, s.pending, s.calls[id].detection), calls := s.calls - {id})
    case AppendOther(producerId, event) =>
      && !event.DetectionEvent?
      && t == s.(log := s.log + RecordsOf(producerId, [event]))
    case Restart =>
      t == System(s.log, RaiseAll(map[], Stamps(s.log)), map[], map[])
  }

  const START := System([], map[], map[], map[])

  /** A run: each state follows from the one before by some step of some call. */
  ghost predicate IsRun(window: nat, states: seq<System>, steps: seq<Step>) {
    && |states| == |steps| + 1
    && states[0] == START
    && forall i :: 0 <= i < |steps| ==> Takes(window, states[i], states[i + 1], steps[i])
  }

  /** At most one call under way per producer and detector. */
  ghost predicate OnePerKey(s: System) {
    KeysApart(s.calls)
  }

  /** What the gate has let through. */
  predicate LetThrough(s: System, step: Step) {
    step.Begin? && Decide(s.marks, StampOf(step.producerId, step.detection)).Persist()
  }

  /**
   * A call may begin beside those under way: none of its key is on its way to the log, and those that are logged and
   * not committed have lower numbers.
   */
  ghost predicate Fits(calls: map<nat, InFlight>, s: Stamp) {
    forall id :: id in calls && calls[id].Stamp().key == s.key ==>
        !calls[id].Unlogged() && (calls[id].phase.Logged? ==> calls[id].Stamp().seqNo < s.seqNo)
  }

  /** Every call of a run that the gate let through fitted where it began. */
  ghost predicate BeginsFit(states: seq<System>, steps: seq<Step>)
    requires |states| == |steps| + 1
  {
    forall i :: 0 <= i < |steps| && LetThrough(states[i], steps[i]) ==>
        Fits(states[i].calls, StampOf(steps[i].producerId, steps[i].detection))
  }

  /** A logged call of the same key, with no lower number, has not committed to the gate yet. */
  ghost predicate Uncommitted(calls: map<nat, InFlight>, s: Stamp) {
    exists id :: id in calls && calls[id].phase.Logged? && calls[id].Stamp().key == s.key
                 && s.seqNo <= calls[id].Stamp().seqNo
  }

  ghost predicate MarksLogged(stamps: seq<Stamp>, marks: HighWater) {
    forall k :: k in marks ==> Stamp(k, marks[k]) in stamps
  }

  ghost predicate Covered(stamps: seq<Stamp>, marks: HighWater, calls: map<nat, InFlight>) {
    forall e :: e in stamps ==> (e.key in marks && e.seqNo <= marks[e.key]) || Uncommitted(calls, e)
  }

  ghost predicate CallsInStep(stamps: seq<Stamp>, calls: map<nat, InFlight>) {
    forall id :: id in calls ==> CallInStep(stamps, calls[id])
  }

  /** Every number logged for the key of `s` is below its own. */
  ghost predicate Above(stamps: seq<Stamp>, s: Stamp) {
    forall e :: e in stamps && e.key == s.key ==> e.seqNo < s.seqNo
  }

  ghost predicate CallInStep(stamps: seq<Stamp>, c: InFlight) {
    match c.phase
    case Decided => Above(stamps, c.Stamp())
    case Grouped(_) => Above(stamps, c.Stamp())
    case Logged(_) => c.Stamp() in stamps
    case GateCommitted(_) => true
  }

  /** The gate is at the log's maxima but for calls that are logged and not committed, and no two calls race. */
  ghost predicate InStepWithLog(s: System) {
    InStepWith(Stamps(s.log), s.marks, s.calls)
  }

  ghost predicate InStepWith(stamps: seq<Stamp>, marks: HighWater, calls: map<nat, InFlight>) {
    && Increasing(stamps)
    && MarksLogged(stamps, marks)
    && Covered(stamps, marks, calls)
    && CallsInStep(stamps, calls)
    && NoRace(calls)
  }

  /** No two calls of one key are on their way to the log. */
  ghost predicate NoRace(calls: map<nat, InFlight>) {
    forall i, j :: i in calls && j in calls && i != j && calls[i].Unlogged() && calls[j].Unlogged() ==>
        calls[i].Stamp().key != calls[j].Stamp().key
  }

  ghost predicate KeysApart(calls: map<nat, InFlight>) {
    forall i, j :: i in calls && j in calls && i != j ==> calls[i].Stamp().key != calls[j].Stamp().key
  }

  // ---- what one call's progress does to the others ----

  lemma {:induction false} UncommittedAfterUpdate(calls: map<nat, InFlight>, id: nat, c: InFlight, s: Stamp)
    requires Uncommitted(calls, s)
    requires id in calls && calls[id].phase.Logged? ==>
               calls[id].Stamp().key != s.key || calls[id].Stamp().seqNo < s.seqNo
    ensures Uncommitted(calls[id := c], s)
  {
    var other :| other in calls && calls[other].phase.Logged? && calls[other].Stamp().key == s.key
                 && s.seqNo <= calls[other].Stamp().seqNo;
    assert calls[id := c][other] == calls[other];
  }

  lemma {:induction false} UncommittedAfterRemoval(calls: map<nat, InFlight>, id: nat, s: Stamp)
    requires Uncommitted(calls, s)
    requires id in calls && !calls[id].phase.Logged?
    ensures Uncommitted(calls - {id}, s)
  {
    var other :| other in calls && calls[other].phase.Logged? && calls[other].Stamp().key == s.key
                 && s.seqNo <= calls[other].Stamp().seqNo;
    assert (calls - {id})[other] == calls[other];
  }

  lemma {:induction false} NoRaceAfterUpdate(calls: map<nat, InFlight>, id: nat, c: InFlight)
    requires NoRace(calls)
    requires c.Unlogged() ==> (forall other :: other in calls && other != id && calls[other].Unlogged() ==>
                                                 calls[other].Stamp().key != c.Stamp().key)
    ensures NoRace(calls[id := c])
  {
  }

  /** A call that moves without logging, and was not waiting to commit, leaves the others in step. */
  lemma {:induction false} UpdateKeeps(stamps: seq<Stamp>, marks: HighWater, calls: map<nat, InFlight>, id: nat,
                                       c: InFlight)
    requires InStepWith(stamps, marks, calls)
    requires id in calls ==> !calls[id].phase.Logged?
    requires CallInStep(stamps, c) && NoRace(calls[id := c])
    ensures InStepWith(stamps, marks, calls[id := c])
  {
    hide Increasing, MarksLogged, CallInStep, Uncommitted, NoRace;
    forall e | e in stamps && Uncommitted(calls, e)
      ensures Uncommitted(calls[id := c], e)
    {
      UncommittedAfterUpdate(calls, id, c, e);
    }
  }

  lemma {:induction false} RemovalKeeps(stamps: seq<Stamp>, marks: HighWater, calls: map<nat, InFlight>, id: nat)
    requires InStepWith(stamps, marks, calls)
    requires id in calls && !calls[id].phase.Logged?
    ensures InStepWith(stamps, marks, calls - {id})
  {
    hide Increasing, MarksLogged, CallInStep, Uncommitted;
    forall e | e in stamps && Uncommitted(calls, e)
      ensures Uncommitted(calls - {id}, e)
    {
      UncommittedAfterRemoval(calls, id, e);
    }
  }

  // ---- each step ----

  /** What the gate lets through, and fits beside the calls under way, is above everything logged. */
  lemma {:induction false} FittingIsAbove(stamps: seq<Stamp>, marks: HighWater, calls: map<nat, InFlight>, s: Stamp)
    requires Covered(stamps, marks, calls) && Fits(calls, s)
    requires Decide(marks, s).Persist()
    ensures Above(stamps, s)
  {
  }

  lemma {:induction false} BeginKeeps(window: nat, s: System, t: System, id: nat, producerId: string,
                                      detection: Detection)
    requires InStepWithLog(s) && Takes(window, s, t, Begin(id, producerId, detection))
    requires LetThrough(s, Begin(id, producerId, detection)) ==> Fits(s.calls, StampOf(producerId, detection))
    ensures InStepWithLog(t)
  {
    hide Uncommitted, Covered, MarksLogged, Increasing, Decide, CallsInStep, Above, InStepWith, NoRace, Fits;
    var c := InFlight(producerId, detection, Decided);
    if Decide(s.marks, c.Stamp()).Persist() {
      InStepParts(s);
      FittingIsAbove(Stamps(s.log), s.marks, s.calls, c.Stamp());
      FittingRacesNone(s.calls, id, c);
      UpdateKeeps(Stamps(s.log), s.marks, s.calls, id, c);
    }
  }

  lemma {:induction false} FittingRacesNone(calls: map<nat, InFlight>, id: nat, c: InFlight)
    requires NoRace(calls) && Fits(calls, c.Stamp())
    ensures NoRace(calls[id := c])
  {
  }

  lemma {:induction false} InStepParts(s: System)
    requires InStepWithLog(s)
    ensures Increasing(Stamps(s.log)) && MarksLogged(Stamps(s.log), s.marks) && NoRace(s.calls)
    ensures Covered(Stamps(s.log), s.marks, s.calls) && CallsInStep(Stamps(s.log), s.calls)
  {
    hide Uncommitted, Covered, MarksLogged, Increasing, CallsInStep, NoRace;
  }

  lemma {:induction false} CallParts(s: System, id: nat)
    requires InStepWithLog(s) && id in s.calls
    ensures CallInStep(Stamps(s.log), s.calls[id])
  {
    hide Uncommitted, Covered, MarksLogged, Increasing, CallInStep;
  }

  lemma {:induction false} PeekKeeps(window: nat, s: System, t: System, id: nat)
    requires InStepWithLog(s) && Takes(window, s, t, PeekGroups(id))
    ensures InStepWithLog(t)
  {
    hide Closes, Above, Uncommitted, InStepWith, Fits;
    InStepParts(s);
    CallParts(s, id);
    NoRaceAfterUpdate(s.calls, id, t.calls[id]);
    hide NoRace;
    UpdateKeeps(Stamps(s.log), s.marks, s.calls, id, t.calls[id]);
  }

  lemma {:induction false} StampsOfDetectionBatch(log: seq<LogRecord>, c: InFlight, closed: seq<Group>)
    ensures Stamps(log + RecordsOf(c.producerId, Written(DetectionEvent(c.detection), closed))) ==
            Stamps(log) + [c.Stamp()]
  {
    hide RecordsOf, Written, Stamps;
    var call := Call(c.producerId, DetectionEvent(c.detection), None);
    StampsOfWritten(call, closed);
    StampsAppend(log, RecordsOf(c.producerId, Written(DetectionEvent(c.detection), closed)));
  }

  lemma {:induction false} AboveKeepsIncreasing(stamps: seq<Stamp>, s: Stamp)
    requires Increasing(stamps) && Above(stamps, s)
    ensures Increasing(stamps + [s])
  {
    var all := stamps + [s];
    assert all[|stamps|] == s;
    forall i, j | 0 <= i < j < |all| && all[i].key == all[j].key
      ensures all[i].seqNo < all[j].seqNo
    {
      if j == |stamps| {
        assert all[i] in stamps;
      }
    }
  }

  lemma {:induction false} OtherCallAfterAppend(stamps: seq<Stamp>, s: Stamp, c: InFlight)
    requires CallInStep(stamps, c) && (c.Unlogged() ==> c.Stamp().key != s.key)
    ensures CallInStep(stamps + [s], c)
  {
    assert forall e :: e in stamps + [s] <==> e in stamps || e == s;
  }

  lemma {:induction false} LoggingKeeps(stamps: seq<Stamp>, marks: HighWater, calls: map<nat, InFlight>, id: nat,
                                        c: InFlight)
    requires InStepWith(stamps, marks, calls)
    requires id in calls && calls[id].Unlogged() && c.phase.Logged? && calls[id].Stamp() == c.Stamp()
    requires Above(stamps, c.Stamp())
    ensures InStepWith(stamps + [c.Stamp()], marks, calls[id := c])
  {
    var s, all, after := c.Stamp(), stamps + [c.Stamp()], calls[id := c];
    assert forall e :: e in all <==> e in stamps || e == s;
    AboveKeepsIncreasing(stamps, s);
    NoRaceAfterUpdate(calls, id, c);
    hide Above, Increasing, Uncommitted;
    assert Covered(all, marks, after) by {
      forall e | e in all
        ensures (e.key in marks && e.seqNo <= marks[e.key]) || Uncommitted(after, e)
      {
        if e == s {
          LoggedIsUncommitted(after, id);
        } else if Uncommitted(calls, e) {
          UncommittedAfterUpdate(calls, id, c, e);
        }
      }
    }
    forall other | other in after
      ensures CallInStep(all, after[other])
    {
      if other != id {
        assert after[other] == calls[other];
        OtherCallAfterAppend(stamps, s, calls[other]);
      }
    }
  }

  lemma {:induction false} LoggedIsUncommitted(calls: map<nat, InFlight>, id: nat)
    requires id in calls && calls[id].phase.Logged?
    ensures Uncommitted(calls, calls[id].Stamp())
  {
  }

  lemma {:induction false} AppendKeeps(window: nat, s: System, t: System, id: nat)
    requires InStepWithLog(s) && Takes(window, s, t, AppendOk(id))
    ensures InStepWithLog(t)
  {
    hide RecordsOf, Written, Stamps, Above, InStepWith;
    CallParts(s, id);
    StampsOfDetectionBatch(s.log, s.calls[id], s.calls[id].phase.closed);
    LoggingKeeps(Stamps(s.log), s.marks, s.calls, id, t.calls[id]);
  }

  lemma {:induction false} AppendOtherKeeps(window: nat, s: System, t: System, producerId: string, event: OtkEvent)
    requires InStepWithLog(s) && Takes(window, s, t, AppendOther(producerId, event))
    ensures InStepWithLog(t)
  {
    hide RecordsOf, Stamps, InStepWith;
    StampsAppend(s.log, RecordsOf(producerId, [event]));
    NotADetection(producerId, event);
    assert Stamps(s.log) + [] == Stamps(s.log);
  }

  lemma {:induction false} NotADetection(producerId: string, event: OtkEvent)
    requires !event.DetectionEvent?
    ensures Stamps(RecordsOf(producerId, [event])) == []
  {
    assert RecordsOf(producerId, [event])[1..] == [];
  }

  lemma {:induction false} AppendFailsKeeps(window: nat, s: System, t: System, id: nat)
    requires InStepWithLog(s) && Takes(window, s, t, AppendFails(id))
    ensures InStepWithLog(t)
  {
    hide InStepWith;
    RemovalKeeps(Stamps(s.log), s.marks, s.calls, id);
  }

  /** The gate takes over what a logged call covered. */
  lemma {:induction false} RaisingCovers(marks: HighWater, calls: map<nat, InFlight>, id: nat, c: InFlight, e: Stamp)
    requires id in calls && calls[id].phase.Logged? && calls[id].Stamp() == c.Stamp()
    requires (e.key in marks && e.seqNo <= marks[e.key]) || Uncommitted(calls, e)
    ensures var raised := Raise(marks, c.Stamp());
            (e.key in raised && e.seqNo <= raised[e.key]) || Uncommitted(calls[id := c], e)
  {
    if Uncommitted(calls, e) && (e.key != c.Stamp().key || c.Stamp().seqNo < e.seqNo) {
      UncommittedAfterUpdate(calls, id, c, e);
    }
  }

  lemma {:induction false} RaisingKeepsLogged(stamps: seq<Stamp>, marks: HighWater, s: Stamp)
    requires MarksLogged(stamps, marks) && s in stamps
    ensures MarksLogged(stamps, Raise(marks, s))
  {
  }

  lemma {:induction false} RaisingKeeps(stamps: seq<Stamp>, marks: HighWater, calls: map<nat, InFlight>, id: nat,
                                        c: InFlight)
    requires InStepWith(stamps, marks, calls)
    requires id in calls && calls[id].phase.Logged? && c.phase.GateCommitted? && calls[id].Stamp() == c.Stamp()
    ensures InStepWith(stamps, Raise(marks, c.Stamp()), calls[id := c])
  {
    hide Increasing, Uncommitted, Raise, NoRace, MarksLogged;
    assert CallInStep(stamps, calls[id]);
    NoRaceAfterUpdate(calls, id, c);
    RaisingKeepsLogged(stamps, marks, c.Stamp());
    forall e | e in stamps
      ensures var raised := Raise(marks, c.Stamp());
              (e.key in raised && e.seqNo <= raised[e.key]) || Uncommitted(calls[id := c], e)
    {
      RaisingCovers(marks, calls, id, c, e);
    }
  }

  lemma {:induction false} CommitGateKeeps(window: nat, s: System, t: System, id: nat)
    requires InStepWithLog(s) && Takes(window, s, t, CommitGate(id))
    ensures InStepWithLog(t)
  {
    hide Raise, InStepWith;
    RaisingKeeps(Stamps(s.log), s.marks, s.calls, id, t.calls[id]);
  }

  lemma {:induction false} CommitGroupsKeeps(window: nat, s: System, t: System, id: nat)
    requires InStepWithLog(s) && Takes(window, s, t, CommitGroups(id))
    ensures InStepWithLog(t)
  {
    hide Opens, InStepWith;
    RemovalKeeps(Stamps(s.log), s.marks, s.calls, id);
  }

  lemma {:induction false} SeededInStep(stamps: seq<Stamp>, marks: HighWater)
    requires Increasing(stamps) && Highest(marks, stamps)
    ensures InStepWith(stamps, marks, map[])
  {
    hide Increasing;
    assert NoRace(map[]) && CallsInStep(stamps, map[]);
    forall e | e in stamps
      ensures e.key in marks && e.seqNo <= marks[e.key]
    {
      assert IsHighest(stamps, e.key, marks[e.key]);
    }
  }

  lemma {:induction false} RestartKeeps(window: nat, s: System, t: System)
    requires InStepWithLog(s) && Takes(window, s, t, Restart)
    ensures InStepWithLog(t)
  {
    hide Increasing, Stamps, RaiseAll, InStepWith, Highest;
    InStepParts(s);
    MarksAreMaxima(Stamps(s.log));
    SeededInStep(Stamps(s.log), t.marks);
  }

  lemma {:induction false} StepKeeps(window: nat, s: System, t: System, step: Step)
    requires InStepWithLog(s) && Takes(window, s, t, step)
    requires LetThrough(s, step) ==> Fits(s.calls, StampOf(step.producerId, step.detection))
    ensures InStepWithLog(t)
  {
    hide InStepWithLog, Takes, Fits;
    match step
    case Begin(id, producerId, detection) => BeginKeeps(window, s, t, id, producerId, detection);
    case PeekGroups(id) => PeekKeeps(window, s, t, id);
    case AppendOk(id) => AppendKeeps(window, s, t, id);
    case AppendFails(id) => AppendFailsKeeps(window, s, t, id);
    case CommitGate(id) => CommitGateKeeps(window, s, t, id);
    case CommitGroups(id) => CommitGroupsKeeps(window, s, t, id);
    case AppendOther(producerId, event) => AppendOtherKeeps(window, s, t, producerId, event);
    case Restart => RestartKeeps(window, s, t);
  }

  lemma {:induction false} StartInStep()
    ensures InStepWithLog(START)
  {
  }

  lemma {:induction false} RunStaysInStep(window: nat, states: seq<System>, steps: seq<Step>, n: nat)
    requires IsRun(window, states, steps) && n < |states|
    requires BeginsFit(states[..n + 1], steps[..n])
    ensures InStepWithLog(states[n])
    decreases n
  {
    hide InStepWithLog, Takes, Fits, LetThrough;
    if n == 0 {
      StartInStep();
    } else {
      assert states[..n + 1][..n] == states[..n] && steps[..n][..n - 1] == steps[..n - 1];
      BeginsFitFront(states[..n + 1], steps[..n], n - 1);
      RunStaysInStep(window, states, steps, n - 1);
      assert states[..n + 1][n - 1] == states[n - 1] && steps[..n][n - 1] == steps[n - 1];
      StepKeeps(window, states[n - 1], states[n], steps[n - 1]);
    }
  }

  lemma {:induction false} BeginsFitFront(states: seq<System>, steps: seq<Step>, n: nat)
    requires |states| == |steps| + 1 && n <= |steps| && BeginsFit(states, steps)
    ensures BeginsFit(states[..n + 1], steps[..n])
  {
    hide Fits, LetThrough;
  }

  /**
   * In every interleaving of any number of sessions, append failures and restarts, in which each call let through
   * fitted beside those under way, the logged numbers of each producer and detector strictly increase.
   */
  lemma {:induction false} InterleavedLogIncreases(window: nat, states: seq<System>, steps: seq<Step>, n: nat)
    requires IsRun(window, states, steps) && n < |states|
    requires BeginsFit(states, steps)
    ensures Increasing(Stamps(states[n].log))
  {
    hide IsRun, Increasing, Stamps, BeginsFit;
    assert |states| == |steps| + 1 by { RunLength(window, states, steps); }
    BeginsFitFront(states, steps, n);
    RunStaysInStep(window, states, steps, n);
    InStepParts(states[n]);
  }

  lemma {:induction false} RunLength(window: nat, states: seq<System>, steps: seq<Step>)
    requires IsRun(window, states, steps)
    ensures |states| == |steps| + 1
  {
    hide Takes;
  }

  /** With at most one call under way per producer and detector every call fits. */
  lemma {:induction false} OnePerKeyFits(window: nat, states: seq<System>, steps: seq<Step>)
    requires IsRun(window, states, steps) && forall i :: 0 <= i < |states| ==> OnePerKey(states[i])
    ensures |states| == |steps| + 1 && BeginsFit(states, steps)
  {
    hide Decide;
    forall i | 0 <= i < |steps| && LetThrough(states[i], steps[i])
      ensures Fits(states[i].calls, StampOf(steps[i].producerId, steps[i].detection))
    {
      assert Takes(window, states[i], states[i + 1], steps[i]);
      NewCallIsAlone(states[i].calls, steps[i].id, InFlight(steps[i].producerId, steps[i].detection, Decided));
    }
  }

  lemma {:induction false} NewCallIsAlone(calls: map<nat, InFlight>, id: nat, c: InFlight)
    requires id !in calls && KeysApart(calls[id := c])
    ensures Fits(calls, c.Stamp())
  {
    forall other | other in calls
      ensures calls[other].Stamp().key != c.Stamp().key
    {
      assert calls[id := c][other] == calls[other] && calls[id := c][id] == c;
    }
  }

  // ---- exactly which calls under way are dangerous ----

  /** A run on from `s` in which no further call begins. */
  ghost predicate Continues(window: nat, s: System, states: seq<System>, steps: seq<Step>) {
    && |states| == |steps| + 1
    && states[0] == s
    && (forall i :: 0 <= i < |steps| ==> !steps[i].Begin?)
    && (forall i :: 0 <= i < |steps| ==> Takes(window, states[i], states[i + 1], steps[i]))
  }

  /** However the calls under way go on, numbers are logged in increasing order. */
  ghost predicate Safe(window: nat, s: System) {
    forall states: seq<System>, steps: seq<Step> :: Continues(window, s, states, steps) ==>
        Increasing(Stamps(states[|steps|].log))
  }

  /** The log increases; every call on its way to it is above it; and no two such calls are of one key. */
  ghost predicate Harmless(s: System) {
    && Increasing(Stamps(s.log))
    && (forall id :: id in s.calls && s.calls[id].Unlogged() ==> Above(Stamps(s.log), s.calls[id].Stamp()))
    && NoRace(s.calls)
  }

  lemma {:induction false} LoggingStaysHarmless(stamps: seq<Stamp>, calls: map<nat, InFlight>, id: nat, c: InFlight)
    requires Increasing(stamps) && NoRace(calls)
    requires forall i :: i in calls && calls[i].Unlogged() ==> Above(stamps, calls[i].Stamp())
    requires id in calls && calls[id].Unlogged() && !c.Unlogged() && c.Stamp() == calls[id].Stamp()
    ensures Increasing(stamps + [c.Stamp()]) && NoRace(calls[id := c])
    ensures var after := calls[id := c];
            forall i :: i in after && after[i].Unlogged() ==> Above(stamps + [c.Stamp()], after[i].Stamp())
  {
    var s, all := c.Stamp(), stamps + [c.Stamp()];
    AboveKeepsIncreasing(stamps, s);
    assert forall e :: e in all <==> e in stamps || e == s;
    hide Increasing;
  }

  lemma {:induction false} HarmlessStep(window: nat, s: System, t: System, step: Step)
    requires Harmless(s) && !step.Begin? && Takes(window, s, t, step)
    ensures Harmless(t)
  {
    hide Increasing, Above, RecordsOf, Written, Stamps, Closes, Opens, Raise, RaiseAll;
    match step
    case AppendOk(id) =>
      StampsOfDetectionBatch(s.log, s.calls[id], s.calls[id].phase.closed);
      LoggingStaysHarmless(Stamps(s.log), s.calls, id, t.calls[id]);
    case AppendOther(producerId, event) =>
      StampsAppend(s.log, RecordsOf(producerId, [event]));
      NotADetection(producerId, event);
      assert Stamps(s.log) + [] == Stamps(s.log);
    case _ =>
  }

  lemma {:induction false} HarmlessStays(window: nat, s: System, states: seq<System>, steps: seq<Step>, n: nat)
    requires Harmless(s) && Continues(window, s, states, steps) && n <= |steps|
    ensures Harmless(states[n])
  {
    hide Harmless, Takes;
    if n > 0 {
      HarmlessStays(window, s, states, steps, n - 1);
      assert Takes(window, states[n - 1], states[n - 1 + 1], steps[n - 1]);
      HarmlessStep(window, states[n - 1], states[n], steps[n - 1]);
    }
  }

  lemma {:induction false} SafeNow(window: nat, s: System)
    requires Safe(window, s)
    ensures Increasing(Stamps(s.log))
  {
    var states, steps: seq<Step> := [s], [];
    assert Continues(window, s, states, steps);
  }

  lemma {:induction false} SafeNext(window: nat, s: System, t: System, step: Step)
    requires Safe(window, s) && !step.Begin? && Takes(window, s, t, step)
    ensures Safe(window, t)
  {
    hide Takes, Increasing, Stamps;
    forall states: seq<System>, steps: seq<Step> | Continues(window, t, states, steps)
      ensures Increasing(Stamps(states[|steps|].log))
    {
      var longer, more := [s] + states, [step] + steps;
      forall i | 0 <= i < |more|
        ensures !more[i].Begin? && Takes(window, longer[i], longer[i + 1], more[i])
      {
        if i > 0 {
          assert Takes(window, states[i - 1], states[i - 1 + 1], steps[i - 1]) && more[i] == steps[i - 1];
        }
      }
      assert Continues(window, s, longer, more);
      assert longer[|more|] == states[|steps|];
    }
  }

  /** A call on its way to the log can be logged next. */
  lemma {:induction false} LoggedNext(window: nat, s: System, id: nat) returns (t: System)
    requires Safe(window, s) && id in s.calls && s.calls[id].Unlogged()
    ensures Safe(window, t) && Stamps(t.log) == Stamps(s.log) + [s.calls[id].Stamp()]
    ensures forall other :: other in s.calls && other != id ==> other in t.calls && t.calls[other] == s.calls[other]
  {
    hide Safe, Closes, RecordsOf, Written, Stamps;
    var m := s;
    if s.calls[id].phase.Decided? {
      m := At(s, id, Grouped(Closes(window, s.pending, s.calls[id].detection)));
      SafeNext(window, s, m, PeekGroups(id));
    }
    var c := m.calls[id];
    t := At(m, id, Logged(c.phase.closed)).(log := m.log +
      RecordsOf(c.producerId, Written(DetectionEvent(c.detection), c.phase.closed)));
    SafeNext(window, m, t, AppendOk(id));
    StampsOfDetectionBatch(m.log, c, c.phase.closed);
  }

  lemma {:induction false} IncreasingIsAbove(stamps: seq<Stamp>, s: Stamp)
    requires Increasing(stamps + [s])
    ensures Above(stamps, s)
  {
    var all := stamps + [s];
    assert all[|stamps|] == s;
    forall e | e in stamps && e.key == s.key
      ensures e.seqNo < s.seqNo
    {
      var i :| 0 <= i < |stamps| && stamps[i] == e;
      assert all[i] == e;
    }
  }

  lemma {:induction false} SafeIsAbove(window: nat, s: System, id: nat)
    requires Safe(window, s) && id in s.calls && s.calls[id].Unlogged()
    ensures Above(Stamps(s.log), s.calls[id].Stamp())
  {
    hide Safe, Increasing, Above;
    var t := LoggedNext(window, s, id);
    SafeNow(window, t);
    IncreasingIsAbove(Stamps(s.log), s.calls[id].Stamp());
  }

  /** Of two calls of one key the one with the larger number could be logged first. */
  lemma {:induction false} SafeRacesNone(window: nat, s: System, i: nat, j: nat)
    requires Safe(window, s) && i in s.calls && j in s.calls && i != j
    requires s.calls[i].Unlogged() && s.calls[j].Unlogged() && s.calls[j].Stamp().seqNo <= s.calls[i].Stamp().seqNo
    ensures s.calls[i].Stamp().key != s.calls[j].Stamp().key
  {
    hide Safe;
    var t := LoggedNext(window, s, i);
    SafeIsAbove(window, t, j);
    assert Stamps(t.log)[|Stamps(s.log)|] == s.calls[i].Stamp();
  }

  /**
   * In any state, reachable or not: however the calls under way go on, what they log is in order exactly if the log is,
   * every call on its way to the log is above it, and no two of these are of one producer and detector.
   */
  lemma {:induction false} SafeExactlyWhen(window: nat, s: System)
    ensures Safe(window, s) <==> Harmless(s)
  {
    hide Increasing, Stamps, Takes, Above;
    if Harmless(s) {
      forall states: seq<System>, steps: seq<Step> | Continues(window, s, states, steps)
        ensures Increasing(Stamps(states[|steps|].log))
      {
        HarmlessStays(window, s, states, steps, |steps|);
      }
    }
    if Safe(window, s) {
      SafeNow(window, s);
      forall id | id in s.calls && s.calls[id].Unlogged()
        ensures Above(Stamps(s.log), s.calls[id].Stamp())
      {
        SafeIsAbove(window, s, id);
      }
      forall i, j | i in s.calls && j in s.calls && i != j && s.calls[i].Unlogged() && s.calls[j].Unlogged()
        ensures s.calls[i].Stamp().key != s.calls[j].Stamp().key
      {
        if s.calls[j].Stamp().seqNo <= s.calls[i].Stamp().seqNo {
          SafeRacesNone(window, s, i, j);
        } else {
          SafeRacesNone(window, s, j, i);
        }
      }
    }
  }

  lemma {:induction false} InStepIsSafe(window: nat, s: System)
    requires InStepWithLog(s)
    ensures Safe(window, s)
  {
    hide Increasing, Stamps, Safe, Covered, MarksLogged, Above;
    SafeExactlyWhen(window, s);
  }

  /** A call that the gate lets through begins safely exactly if it fits beside those under way. */
  lemma {:induction false} BeginSafeExactlyWhen(window: nat, s: System, t: System, step: Step)
    requires InStepWithLog(s) && LetThrough(s, step) && Takes(window, s, t, step)
    ensures Safe(window, t) <==> Fits(s.calls, StampOf(step.producerId, step.detection))
  {
    hide InStepWithLog, Safe, Decide;
    var c := InFlight(step.producerId, step.detection, Decided);
    assert t == s.(calls := s.calls[step.id := c]);
    if Fits(s.calls, c.Stamp()) {
      BeginKeeps(window, s, t, step.id, step.producerId, step.detection);
      InStepIsSafe(window, t);
    }
    if Safe(window, t) {
      SafeExactlyWhen(window, t);
      HarmlessFits(s, step.id, c);
    }
  }

  lemma {:induction false} HarmlessFits(s: System, id: nat, c: InFlight)
    requires InStepWithLog(s) && id !in s.calls && c.Unlogged() && Harmless(s.(calls := s.calls[id := c]))
    ensures Fits(s.calls, c.Stamp())
  {
    hide Increasing, Stamps, Covered, MarksLogged;
    var calls := s.calls[id := c];
    forall other | other in s.calls && s.calls[other].Stamp().key == c.Stamp().key
      ensures !s.calls[other].Unlogged()
      ensures s.calls[other].phase.Logged? ==> s.calls[other].Stamp().seqNo < c.Stamp().seqNo
    {
      assert calls[other] == s.calls[other] && calls[id] == c;
      assert CallInStep(Stamps(s.log), s.calls[other]);
    }
  }

  /**
   * A run can log numbers out of order, there and then or as the calls under way go on, exactly if some call that the
   * gate let through did not fit beside those under way.
   */
  lemma {:induction false} RunSafeExactlyWhen(window: nat, states: seq<System>, steps: seq<Step>)
    requires IsRun(window, states, steps)
    ensures |states| == |steps| + 1
    ensures (forall n :: 0 <= n < |states| ==> Safe(window, states[n])) <==> BeginsFit(states, steps)
  {
    hide Safe, Takes, BeginsFit, IsRun;
    RunLength(window, states, steps);
    if BeginsFit(states, steps) {
      forall n | 0 <= n < |states|
        ensures Safe(window, states[n])
      {
        BeginsFitFront(states, steps, n);
        RunStaysInStep(window, states, steps, n);
        InStepIsSafe(window, states[n]);
      }
    }
    if forall n :: 0 <= n < |states| ==> Safe(window, states[n]) {
      SafeRunFits(window, states, steps, |steps|);
      assert states[..|steps| + 1] == states && steps[..|steps|] == steps;
    }
  }

  lemma {:induction false} SafeRunFits(window: nat, states: seq<System>, steps: seq<Step>, n: nat)
    requires IsRun(window, states, steps) && n <= |steps|
    requires forall i :: 0 <= i < |states| ==> Safe(window, states[i])
    ensures |states| == |steps| + 1 && BeginsFit(states[..n + 1], steps[..n])
  {
    hide Safe, Takes, Fits, Decide, InStepWithLog;
    if n > 0 {
      SafeRunFits(window, states, steps, n - 1);
      RunStaysInStep(window, states, steps, n - 1);
      assert Takes(window, states[n - 1], states[n - 1 + 1], steps[n - 1]);
      var before, begun := states[..n], steps[..n - 1];
      forall i | 0 <= i < n && LetThrough(states[i], steps[i])
        ensures Fits(states[i].calls, StampOf(steps[i].producerId, steps[i].detection))
      {
        if i == n - 1 {
          BeginSafeExactlyWhen(window, states[i], states[i + 1], steps[i]);
        } else {
          assert before[i] == states[i] && begun[i] == steps[i];
        }
      }
    }
  }

  // ---- a run that logs one detection twice ----

  /** The states of a run in which two calls with the same detection both reach the log. */
  function RaceStates(d: Detection, closed: seq<Group>): (states: seq<System>)
    ensures |states| == 7
  {
    var batch := RecordsOf("p", Written(DetectionEvent(d), closed));
    var decided, grouped := InFlight("p", d, Decided), InFlight("p", d, Grouped(closed));
    var logged := InFlight("p", d, Logged(closed));
    [ START,
      START.(calls := map[1 := decided]),
      START.(calls := map[1 := decided, 2 := decided]),
      START.(calls := map[1 := grouped, 2 := decided]),
      START.(calls := map[1 := grouped, 2 := grouped]),
      START.(calls := map[1 := logged, 2 := grouped], log := batch),
      START.(calls := map[1 := logged, 2 := logged], log := batch + batch)
    ]
  }

  function RaceSteps(d: Detection): seq<Step> {
    [Begin(1, "p", d), Begin(2, "p", d), PeekGroups(1), PeekGroups(2), AppendOk(1), AppendOk(2)]
  }

  lemma {:induction false} RaceStep(window: nat, d: Detection, i: nat)
    requires i < 6
    ensures var states := RaceStates(d, Closes(window, map[], d));
            Takes(window, states[i], states[i + 1], RaceSteps(d)[i])
  {
    hide RecordsOf, Written, Closes;
    var closed := Closes(window, map[], d);
    var batch := RecordsOf("p", Written(DetectionEvent(d), closed));
    var s, t := RaceStates(d, closed)[i], RaceStates(d, closed)[i + 1];
    match i
    case 0 => assert s.calls[1 := InFlight("p", d, Decided)] == t.calls;
    case 1 => assert s.calls[2 := InFlight("p", d, Decided)] == t.calls;
    case 2 => assert s.calls[1 := InFlight("p", d, Grouped(closed))] == t.calls;
    case 3 => assert s.calls[2 := InFlight("p", d, Grouped(closed))] == t.calls;
    case 4 => assert s.calls[1 := InFlight("p", d, Logged(closed))] == t.calls && [] + batch == batch;
    case 5 => assert s.calls[2 := InFlight("p", d, Logged(closed))] == t.calls;
  }

  /** From the start: two calls with the same detection both pass the gate and are both logged. */
  lemma {:induction false} TwoCallsLogTwice(window: nat, d: Detection)
    ensures var states := RaceStates(d, Closes(window, map[], d));
            IsRun(window, states, RaceSteps(d)) && !Increasing(Stamps(states[6].log))
  {
    var closed := Closes(window, map[], d);
    var states, steps := RaceStates(d, closed), RaceSteps(d);
    assert states[0] == START && states[6].log == states[5].log + states[5].log && |steps| == 6;
    var batch := states[5].log;
    assert batch == RecordsOf("p", Written(DetectionEvent(d), closed));
    var c := InFlight("p", d, Logged(closed));
    hide RecordsOf, Written, Closes, Stamps, Takes, RaceStates, RaceSteps;
    forall i | 0 <= i < 6
      ensures Takes(window, states[i], states[i + 1], steps[i])
    {
      RaceStep(window, d, i);
    }
    StampsOfDetectionBatch([], c, closed);
    StampsOfDetectionBatch(batch, c, closed);
    NoStamps();
    assert [] + batch == batch && [] + [c.Stamp()] == [c.Stamp()];
    var stamps := Stamps(states[6].log);
    assert stamps == [c.Stamp()] + [c.Stamp()];
    assert stamps[0] == stamps[1];
  }

  lemma {:induction false} NoStamps()
    ensures Stamps([]) == []
  {
  }

  // ---- the steps are those of a call ----

  /** The steps of one call whose append succeeds. */
  function StepsOf(id: nat, producerId: string, d: Detection): seq<Step> {
    [Begin(id, producerId, d), PeekGroups(id), AppendOk(id), CommitGate(id), CommitGroups(id)]
  }

  /** The steps of a call, with no other call's in between, do to log, gate and groups what one call does. */
  lemma {:induction false} UninterruptedIsIngest(window: nat, states: seq<System>, id: nat, producerId: string,
                                                 d: Detection)
    requires |states| == 6 && producerId != "" && LetThrough(states[0], Begin(id, producerId, d))
    requires forall i :: 0 <= i < 5 ==> Takes(window, states[i], states[i + 1], StepsOf(id, producerId, d)[i])
    ensures var s, t := states[0], states[5];
            var call := Call(producerId, DetectionEvent(d), None);
            var after := Ingest(window, Pipeline(s.log, s.marks, s.pending, []), call);
            t.log == after.log && t.marks == after.marks && t.pending == after.pending && t.calls == s.calls
  {
    hide Closes, Opens, RecordsOf, Written, Decide, RaiseAll, Raise;
    var steps := StepsOf(id, producerId, d);
    assert Takes(window, states[0], states[1], steps[0]) && Takes(window, states[1], states[2], steps[1]);
    assert Takes(window, states[2], states[3], steps[2]) && Takes(window, states[3], states[4], steps[3]);
    assert Takes(window, states[4], states[5], steps[4]);
    assert states[0].calls[id := states[4].calls[id]] - {id} == states[0].calls;
  }
}
