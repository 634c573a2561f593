/**
 * Crossings when calls run side by side, and when a crash tears a batch. A call's crossings are computed before its
 * append and its detection joins the groups after it, so that other calls can change the groups in between.
 */
module IngestGroups {
  import opened Bytes
  import opened Wrappers
  import opened EventModel
  import opened EventLogPort
  import opened SequenceGates
  import opened CrossingProcessors
  import opened EventIngest
  import opened IngestInterleaving

  // ---- calls side by side ----

  /** The groups whose crossings a call writes, once it has looked. */
  function Peeked(c: InFlight): seq<Group> {
    if c.phase.Decided? then [] else c.phase.closed
  }

  /** The detections that joined the groups since the last restart, in that order. */
  function Arrived(states: seq<System>, steps: seq<Step>, n: nat): seq<Detection>
    requires n <= |steps| && |states| == |steps| + 1
  {
    if n == 0 then []
    else
      match steps[n - 1]
      case CommitGroups(id) =>
        Arrived(states, steps, n - 1)
        + (if id in states[n - 1].calls then [states[n - 1].calls[id].detection] else [])
      case Restart => []
      case _ => Arrived(states, steps, n - 1)
  }

  /** The groups whose crossings their calls wrote, in the same order. */
  function Emitted(states: seq<System>, steps: seq<Step>, n: nat): seq<Group>
    requires n <= |steps| && |states| == |steps| + 1
  {
    if n == 0 then []
    else
      match steps[n - 1]
      case CommitGroups(id) =>
        Emitted(states, steps, n - 1)
        + (if id in states[n - 1].calls then Peeked(states[n - 1].calls[id]) else [])
      case Restart => []
      case _ => Emitted(states, steps, n - 1)
  }

  /** Whenever a detection joins the groups, it closes what its call saw it close before the append. */
  ghost predicate PeeksHold(window: nat, states: seq<System>, steps: seq<Step>)
    requires |states| == |steps| + 1
  {
    forall i :: 0 <= i < |steps| && steps[i].CommitGroups? ==> PeekHolds(window, states[i], steps[i].call)
  }

  ghost predicate PeekHolds(window: nat, s: System, id: nat) {
    id in s.calls ==> Peeked(s.calls[id]) == Closes(window, s.pending, s.calls[id].detection)
  }

  lemma {:induction false} PendingAfter(window: nat, s: System, t: System, step: Step)
    requires Takes(window, s, t, step)
    ensures t.pending ==
            match step
            case CommitGroups(id) =>
              if id in s.calls then Opens(window, s.pending, s.calls[id].detection) else s.pending
            case Restart => map[]
            case _ => s.pending
  {
    hide Opens, Closes, RecordsOf, Written, Decide, RaiseAll, Raise;
  }

  /** Whatever the calls have seen, the open groups are those of the detections that have joined. */
  lemma {:induction false} PendingIsStreamed(window: nat, states: seq<System>, steps: seq<Step>, n: nat)
    requires IsRun(window, states, steps) && n < |states|
    ensures n <= |steps| && |states| == |steps| + 1
    ensures states[n].pending == Stream(window, Arrived(states, steps, n)).pending
  {
    hide Opens, Closes, Takes;
    if n > 0 {
      PendingIsStreamed(window, states, steps, n - 1);
      assert Takes(window, states[n - 1], states[n - 1 + 1], steps[n - 1]);
      PendingAfter(window, states[n - 1], states[n], steps[n - 1]);
      StreamedOneMore(window, states, steps, n);
      hide Stream, Arrived;
    }
  }

  /** What one more step adds to a batch computation over the detections that have joined. */
  lemma {:induction false} StreamedOneMore(window: nat, states: seq<System>, steps: seq<Step>, n: nat)
    requires 0 < n <= |steps| && |states| == |steps| + 1
    ensures var before := Stream(window, Arrived(states, steps, n - 1));
            var s := states[n - 1];
            Stream(window, Arrived(states, steps, n)) ==
            match steps[n - 1]
            case CommitGroups(id) =>
              if id !in s.calls then before
              else Streamed(before.closed + Closes(window, before.pending, s.calls[id].detection),
                            Opens(window, before.pending, s.calls[id].detection))
            case Restart => Streamed([], map[])
            case _ => before
  {
    hide Opens, Closes;
    if steps[n - 1].CommitGroups? && steps[n - 1].call in states[n - 1].calls {
      var before, d := Arrived(states, steps, n - 1), states[n - 1].calls[steps[n - 1].call].detection;
      assert (before + [d])[..|before|] == before;
    } else {
      assert Arrived(states, steps, n - 1) + [] == Arrived(states, steps, n - 1);
    }
  }

  /** The crossings written are those of the detections that have joined, grouped one by one. */
  ghost predicate AsStreamed(window: nat, states: seq<System>, steps: seq<Step>, n: nat)
    requires n <= |steps| && |states| == |steps| + 1
  {
    Emitted(states, steps, n) == Stream(window, Arrived(states, steps, n)).closed
  }

  /**
   * The crossings written are at all times exactly those of the detections that have joined, grouped one by one, if and
   * only if every detection closes, when it joins, what its call saw.
   */
  lemma {:induction false} EmittedExactlyWhen(window: nat, states: seq<System>, steps: seq<Step>)
    requires IsRun(window, states, steps)
    ensures |states| == |steps| + 1
    ensures (forall n :: 0 <= n <= |steps| ==> AsStreamed(window, states, steps, n))
            <==> PeeksHold(window, states, steps)
  {
    hide IsRun, AsStreamed, PeekHolds;
    RunLength(window, states, steps);
    if PeeksHold(window, states, steps) {
      forall n | 0 <= n <= |steps|
        ensures AsStreamed(window, states, steps, n)
      {
        HeldIsEmitted(window, states, steps, n);
      }
    }
    if forall n :: 0 <= n <= |steps| ==> AsStreamed(window, states, steps, n) {
      forall i | 0 <= i < |steps| && steps[i].CommitGroups?
        ensures PeekHolds(window, states[i], steps[i].call)
      {
        assert AsStreamed(window, states, steps, i) && AsStreamed(window, states, steps, i + 1);
        StreamedHolds(window, states, steps, i);
      }
    }
  }

  lemma {:induction false} StreamedHolds(window: nat, states: seq<System>, steps: seq<Step>, i: nat)
    requires IsRun(window, states, steps) && |states| == |steps| + 1 && i < |steps| && steps[i].CommitGroups?
    requires AsStreamed(window, states, steps, i) && AsStreamed(window, states, steps, i + 1)
    ensures PeekHolds(window, states[i], steps[i].call)
  {
    hide IsRun, Stream, Closes, Opens, Arrived;
    PendingIsStreamed(window, states, steps, i);
    StreamedOneMore(window, states, steps, i + 1);
    var before, s := Emitted(states, steps, i), states[i];
    if steps[i].call in s.calls {
      var peeked, closed := Peeked(s.calls[steps[i].call]), Closes(window, s.pending, s.calls[steps[i].call].detection);
      assert before + peeked == before + closed;
      assert (before + peeked)[|before|..] == peeked && (before + closed)[|before|..] == closed;
    }
  }

  lemma {:induction false} HeldIsEmitted(window: nat, states: seq<System>, steps: seq<Step>, n: nat)
    requires IsRun(window, states, steps) && |states| == |steps| + 1 && n <= |steps|
    requires PeeksHold(window, states, steps)
    ensures AsStreamed(window, states, steps, n)
  {
    hide IsRun, Closes, Opens;
    if n > 0 {
      HeldIsEmitted(window, states, steps, n - 1);
      PendingIsStreamed(window, states, steps, n - 1);
      StreamedOneMore(window, states, steps, n);
      hide Stream, Arrived;
      assert steps[n - 1].CommitGroups? ==> PeekHolds(window, states[n - 1], steps[n - 1].call);
    }
  }

  /** The open group of the detection's key, if any. */
  function OpenFor(pending: Pending, d: Detection): seq<Detection> {
    match KeyOf(d)
    case None => []
    case Some(k) => if k in pending then pending[k] else []
  }

  /**
   * `other` joining the groups does not matter to `d`: it is of another key, or `d` falls into the window of the open
   * group, if there is one, and of the group that `other` starts, if it does.
   */
  predicate Undisturbed(window: nat, pending: Pending, other: Detection, d: Detection) {
    var g := OpenFor(pending, d);
    || KeyOf(d).None?
    || KeyOf(other) != KeyOf(d)
    || ((g != [] ==> !OutsideWindow(window, g[0], d))
        && (g == [] || OutsideWindow(window, g[0], other) ==> !OutsideWindow(window, other, d)))
  }

  /** What a call has seen outlives another detection's joining exactly if that does not disturb it. */
  lemma {:induction false} PeekOutlivesExactlyWhen(window: nat, pending: Pending, other: Detection, d: Detection)
    ensures Closes(window, Opens(window, pending, other), d) == Closes(window, pending, d) <==>
            Undisturbed(window, pending, other, d)
  {
    if KeyOf(d).Some? && KeyOf(other) == KeyOf(d) {
      var g := OpenFor(pending, d);
      if g != [] && OutsideWindow(window, g[0], d) {
        if OutsideWindow(window, g[0], other) {
          assert [other][0] != g[0];
        } else {
          assert |g + [other]| != |g|;
        }
      }
    }
  }

  /** No detection joins the groups while another call that it disturbs has looked and not yet joined. */
  ghost predicate NoneDisturbed(window: nat, states: seq<System>, steps: seq<Step>)
    requires |states| == |steps| + 1
  {
    forall i, j :: 0 <= i < |steps| && steps[i].CommitGroups? && steps[i].call in states[i].calls
                   && j in states[i].calls && j != steps[i].call && !states[i].calls[j].phase.Decided? ==>
        Undisturbed(window, states[i].pending, states[i].calls[steps[i].call].detection, states[i].calls[j].detection)
  }

  ghost predicate AllPeeksHold(window: nat, s: System) {
    forall id :: id in s.calls && !s.calls[id].phase.Decided? ==> PeekHolds(window, s, id)
  }

  lemma {:induction false} PeeksHoldOn(window: nat, states: seq<System>, steps: seq<Step>, n: nat)
    requires IsRun(window, states, steps) && |states| == |steps| + 1 && n <= |steps|
    requires NoneDisturbed(window, states, steps)
    ensures AllPeeksHold(window, states[n])
  {
    hide Opens, Closes, RecordsOf, Written, Decide, RaiseAll, Raise, Undisturbed;
    if n > 0 {
      PeeksHoldOn(window, states, steps, n - 1);
      var s, t, step := states[n - 1], states[n], steps[n - 1];
      assert Takes(window, states[n - 1], states[n - 1 + 1], steps[n - 1]);
      if step.CommitGroups? {
        forall j | j in t.calls && !t.calls[j].phase.Decided?
          ensures PeekHolds(window, t, j)
        {
          assert j in s.calls && j != step.call && PeekHolds(window, s, j);
          PeekOutlivesExactlyWhen(window, s.pending, s.calls[step.call].detection, s.calls[j].detection);
        }
      } else {
        forall j | j in t.calls && !t.calls[j].phase.Decided?
          ensures PeekHolds(window, t, j)
        {
          assert j in s.calls && (s.calls[j].phase.Decided? || PeekHolds(window, s, j));
        }
      }
    }
  }

  /**
   * With no call disturbed between its look and its joining, crossings are written as if the calls had come one after
   * the other, and no detection is in two of them or in none.
   */
  lemma {:induction false} UndisturbedIsStreamed(window: nat, states: seq<System>, steps: seq<Step>, n: nat,
                                                 k: Option<GroupKey>)
    requires IsRun(window, states, steps) && n < |states| && |states| == |steps| + 1
    requires NoneDisturbed(window, states, steps)
    ensures Emitted(states, steps, n) == Stream(window, Arrived(states, steps, n)).closed
    ensures Members(ClosedOf(Emitted(states, steps, n), k))
            + (if k.Some? && k.value in states[n].pending then states[n].pending[k.value] else [])
            == Filter(Arrived(states, steps, n), k)
  {
    hide IsRun, NoneDisturbed, Closes, Opens, Stream, Arrived, Emitted;
    forall i | 0 <= i < |steps| && steps[i].CommitGroups?
      ensures PeekHolds(window, states[i], steps[i].call)
    {
      PeeksHoldOn(window, states, steps, i);
      CommitHasPeeked(window, states, steps, i);
    }
    HeldIsEmitted(window, states, steps, n);
    PendingIsStreamed(window, states, steps, n);
    EveryDetectionOnce(window, Arrived(states, steps, n), k);
  }

  lemma {:induction false} CommitHasPeeked(window: nat, states: seq<System>, steps: seq<Step>, i: nat)
    requires IsRun(window, states, steps) && i < |steps| && steps[i].CommitGroups?
    ensures steps[i].call in states[i].calls && states[i].calls[steps[i].call].phase.GateCommitted?
  {
    assert Takes(window, states[i], states[i + 1], steps[i]);
  }

  /** Two calls that have passed the gate and would each close the same group both write its crossing. */
  lemma {:induction false} GroupWrittenTwice(window: nat, s: System, i: nat, j: nat, g: Group)
    returns (states: seq<System>, steps: seq<Step>)
    requires i != j && i in s.calls && j in s.calls && s.calls[i].phase.Decided? && s.calls[j].phase.Decided?
    requires Closes(window, s.pending, s.calls[i].detection) == [g]
    requires Closes(window, s.pending, s.calls[j].detection) == [g]
    ensures Continues(window, s, states, steps)
    ensures states[|steps|].log == s.log
            + RecordsOf(s.calls[i].producerId, Written(DetectionEvent(s.calls[i].detection), [g]))
            + RecordsOf(s.calls[j].producerId, Written(DetectionEvent(s.calls[j].detection), [g]))
  {
    hide Closes, RecordsOf, Written;
    var s1 := At(s, i, Grouped([g]));
    var s2 := At(s1, j, Grouped([g]));
    var s3 := At(s2, i, Logged([g])).(log := s.log +
      RecordsOf(s.calls[i].producerId, Written(DetectionEvent(s.calls[i].detection), [g])));
    var s4 := At(s3, j, Logged([g])).(log := s3.log +
      RecordsOf(s.calls[j].producerId, Written(DetectionEvent(s.calls[j].detection), [g])));
    states, steps := [s, s1, s2, s3, s4], [PeekGroups(i), PeekGroups(j), AppendOk(i), AppendOk(j)];
    assert Takes(window, s, s1, PeekGroups(i)) && Takes(window, s1, s2, PeekGroups(j));
    assert Takes(window, s2, s3, AppendOk(i)) && Takes(window, s3, s4, AppendOk(j));
  }

  // ---- a crash that tears a batch ----

  /** The batch of a call whose detection the gate lets through. */
  function BatchOf(window: nat, s: Pipeline, c: Call): seq<LogRecord>
    requires c.event.DetectionEvent?
  {
    RecordsOf(c.producerId, Written(c.event, Closes(window, s.pending, c.event.detection)))
  }

  /** A crash keeps the first `k` records of a call's batch; the program starts again, and the producer sends again. */
  function Retried(window: nat, s: Pipeline, c: Call, k: nat): Pipeline
    requires c.event.DetectionEvent? && k <= |BatchOf(window, s, c)|
  {
    var log := s.log + BatchOf(window, s, c)[..k];
    Ingest(window, Pipeline(log, RaiseAll(map[], Stamps(log)), map[], []), c)
  }

  lemma {:induction false} StampsOfPart(c: Call, closed: seq<Group>, k: nat)
    requires c.event.DetectionEvent? && 1 <= k <= |RecordsOf(c.producerId, Written(c.event, closed))|
    ensures Stamps(RecordsOf(c.producerId, Written(c.event, closed))[..k]) == [c.Stamp()]
  {
    hide CrossingsOf, CrossingOf, Stamps;
    var crossings := CrossingEvents(CrossingsOf(closed))[..k - 1];
    assert RecordsOf(c.producerId, Written(c.event, closed))[..k] == RecordsOf(c.producerId, [c.event] + crossings);
    RecordsOfCons(c.producerId, c.event, crossings);
    StampsAppend([LogRecord(c.producerId, c.event)], RecordsOf(c.producerId, crossings));
    StampsOfRecords(c.producerId, crossings);
    OneStamp(c);
  }

  lemma {:induction false} OneStamp(c: Call)
    requires c.event.DetectionEvent?
    ensures Stamps([LogRecord(c.producerId, c.event)]) == [c.Stamp()]
  {
    assert [LogRecord(c.producerId, c.event)][1..] == [];
  }

  /** Once the detection is in the log, sending it again changes nothing. */
  lemma {:induction false} LoggedIsDropped(window: nat, log: seq<LogRecord>, c: Call)
    requires c.event.DetectionEvent? && c.Stamp() in Stamps(log)
    ensures var s := Pipeline(log, RaiseAll(map[], Stamps(log)), map[], []); Ingest(window, s, c) == s
  {
    hide Stamps, RaiseAll;
    MarksAreMaxima(Stamps(log));
    var marks := RaiseAll(map[], Stamps(log));
    assert IsHighest(Stamps(log), c.Stamp().key, marks[c.Stamp().key]);
  }

  /** With no group open, a detection closes nothing but, if it is anonymous, its own group. */
  lemma {:induction false} FirstCloses(window: nat, pending: Pending, d: Detection)
    ensures Closes(window, map[], d) == if KeyOf(d).None? then Closes(window, pending, d) else []
  {
  }

  /**
   * In every run: after a crash in a call's append, a restart and a retry, the log is what it would have been without
   * the crash exactly if the whole batch survived, or none of it and the detection closes no group of earlier ones. In
   * all other cases the crossing it closed is lost: the gate drops the retry, or the open groups are gone.
   */
  lemma {:induction false} RetryAfterCrash(window: nat, calls: seq<Call>, c: Call, k: nat)
    requires c.event.DetectionEvent? && !c.Fails() && !Drops(IngestAll(window, EMPTY, calls), c)
    requires k <= |BatchOf(window, IngestAll(window, EMPTY, calls), c)|
    ensures var s := IngestAll(window, EMPTY, calls);
            Retried(window, s, c, k).log == Accepted(window, s, c).log <==>
            || k == |BatchOf(window, s, c)|
            || (k == 0 && (KeyOf(c.event.detection).None? || Closes(window, s.pending, c.event.detection) == []))
  {
    hide IngestAll, Stamps, RaiseAll, Closes, CrossingOf, Increasing, Decide, Raise, Opens, KeyOf;
    var s := IngestAll(window, EMPTY, calls);
    var batch, d := BatchOf(window, s, c), c.event.detection;
    var closed := Closes(window, s.pending, d);
    LogSeedsTheGate(window, calls);
    FirstCloses(window, s.pending, d);
    var log := s.log + batch[..k];
    if k == 0 {
      assert log == s.log;
      if KeyOf(d).Some? && closed != [] {
        assert |Written(c.event, [])| == 1 && |Written(c.event, closed)| > 1;
      }
    } else {
      StampsOfPart(c, closed, k);
      StampsAppend(s.log, batch[..k]);
      assert c.Stamp() in Stamps(log);
      LoggedIsDropped(window, log, c);
      assert k == |batch| ==> batch[..k] == batch;
      assert k < |batch| ==> |log| < |s.log + batch|;
    }
  }
}
