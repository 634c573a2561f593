/** The ingest use case: decide, append, commit. */
module EventIngest {
  import opened Bytes
  import opened Wrappers
  import opened EventModel
  import opened EventLogPort
  import opened SequenceGates
  import opened CrossingProcessors

  /**
   * The event log behind its port: an error means nothing was appended. `fault` is the error the backend runs into, if
   * any.
   */
  class EventStore {
    var records: seq<LogRecord>

    constructor ()
      ensures records == []
    {
      records := [];
    }

    method Append(producerId: string, events: seq<OtkEvent>, fault: Option<StorageError>)
      returns (r: Result<nat, StorageError>)
      modifies this
      ensures r.Ok? <==> events != [] && producerId != "" && fault.None?
      ensures r.Ok? ==> records == old(records) + RecordsOf(producerId, events) && r.value == |records| - 1
      ensures r.Err? ==> records == old(records)
      ensures r.Err? ==> r.error == if events == [] || producerId == "" then InvalidInput else fault.value
    {
      if events == [] || producerId == "" {
        return Err(InvalidInput);
      }
      if fault.Some? {
        return Err(fault.value);
      }
      records := records + RecordsOf(producerId, events);
      return Ok(|records| - 1);
    }
  }

  function RecordsOf(producerId: string, events: seq<OtkEvent>): (rs: seq<LogRecord>)
    ensures |rs| == |events| && forall i :: 0 <= i < |rs| ==> rs[i] == LogRecord(producerId, events[i])
  {
    seq(|events|, i requires 0 <= i < |events| => LogRecord(producerId, events[i]))
  }

  datatype AppendOutcome = Appended(offset: nat) | DroppedDuplicate

  /** One call of the service, with the fault its append would meet. */
  datatype Call = Call(producerId: string, event: OtkEvent, fault: Option<StorageError>)
  {
    function Stamp(): Stamp
      requires event.DetectionEvent?
    {
      StampOf(producerId, event.detection)
    }

    /** The append of this call fails if it is reached. */
    predicate Fails() {
      fault.Some? || producerId == ""
    }
  }

  /** Everything a call can change that outlives it: the log, the gate, the open groups, and the gaps counted so far. */
  datatype Pipeline = Pipeline(log: seq<LogRecord>, marks: HighWater, pending: Pending, gaps: seq<Key>)

  const EMPTY := Pipeline([], map[], map[], [])

  function CrossingEvents(cs: seq<CrossingEvent>): (es: seq<OtkEvent>)
    ensures |es| == |cs| && forall i :: 0 <= i < |es| ==> es[i] == CrossingRecord(cs[i])
  {
    seq(|cs|, i requires 0 <= i < |cs| => CrossingRecord(cs[i]))
  }

  /** The events one accepted call writes: its own, then the crossings of the groups it closes. */
  function Written(event: OtkEvent, closed: seq<Group>): seq<OtkEvent> {
    [event] + CrossingEvents(CrossingsOf(closed))
  }

  predicate Drops(s: Pipeline, c: Call) {
    c.event.DetectionEvent? && !Decide(s.marks, c.Stamp()).Persist()
  }

  /** The pipeline after a call whose event is accepted and whose append succeeds. */
  function Accepted(window: nat, s: Pipeline, c: Call): Pipeline {
    if c.event.DetectionEvent? then
      Pipeline(s.log + RecordsOf(c.producerId, Written(c.event, Closes(window, s.pending, c.event.detection))),
               Raise(s.marks, c.Stamp()),
               Opens(window, s.pending, c.event.detection),
               s.gaps + (if Decide(s.marks, c.Stamp()).Gap? then [c.Stamp().key] else []))
    else
      s.(log := s.log + RecordsOf(c.producerId, Written(c.event, [])))
  }

  function Ingest(window: nat, s: Pipeline, c: Call): Pipeline {
    if Drops(s, c) || c.Fails() then s else Accepted(window, s, c)
  }

  class EventIngestService {
    const store: EventStore
    const gate: SequenceGate
    const processor: CrossingProcessor
    var sequenceGaps: seq<Key>
    var duplicatesDropped: seq<Key>

    ghost function State(): Pipeline
      reads this, store, gate, processor
    {
      Pipeline(store.records, gate.highWater, processor.pending, sequenceGaps)
    }

    constructor (store: EventStore, gate: SequenceGate, groupingWindowNs: u64)
      ensures this.store == store && this.gate == gate && fresh(processor)
      ensures processor.groupingWindowNs == groupingWindowNs && processor.pending == map[]
      ensures sequenceGaps == [] && duplicatesDropped == []
    {
      this.store := store;
      this.gate := gate;
      processor := new CrossingProcessor(groupingWindowNs);
      sequenceGaps := [];
      duplicatesDropped := [];
    }

    method AppendEvent(producerId: string, event: OtkEvent, fault: Option<StorageError>)
      returns (r: Result<AppendOutcome, StorageError>)
      modifies this, store, gate, processor
      ensures var c := Call(producerId, event, fault);
              var dropped := Drops(old(State()), c);
              && State() == Ingest(processor.groupingWindowNs, old(State()), c)
              && (r == Ok(DroppedDuplicate) <==> dropped)
              && (r.Err? <==> !dropped && c.Fails())
              && (r.Err? ==> r.error == if producerId == "" then InvalidInput else fault.value)
              && (r.Ok? && !dropped ==> r.value == Appended(|store.records| - 1))
              && duplicatesDropped == old(duplicatesDropped) + (if dropped then [c.Stamp().key] else [])
    {
      hide CrossingOf, CrossingsOf, Closes, Opens, Raise;
      // Phase 1: decide.
      var pendingGap := false;
      if event.DetectionEvent? {
        var decision := gate.Peek(producerId, event.detection);
        match decision {
          case Accept =>
          case Advance(_) =>
          case Gap(_, _) => pendingGap := true;
          case Duplicate(_, _) =>
            duplicatesDropped := duplicatesDropped + [(producerId, event.detection.detectorId)];
            return Ok(DroppedDuplicate);
        }
      }
      // Phase 2: compute crossings without committing to them, and try the append.
      var crossings: seq<CrossingEvent> := [];
      if event.DetectionEvent? {
        crossings := processor.PeekDetection(event.detection);
      } else {
        assert crossings == CrossingsOf([]);
      }
      var batch := [event] + CrossingEvents(crossings);
      var appended := store.Append(producerId, batch, fault);
      if appended.Err? {
        return Err(appended.error);
      }
      // Phase 3: commit.
      if event.DetectionEvent? {
        gate.Commit(producerId, event.detection);
        var _ := processor.CommitDetection(event.detection);
        if pendingGap {
          sequenceGaps := sequenceGaps + [(producerId, event.detection.detectorId)];
        }
      }
      return Ok(Appended(appended.value));
    }
  }

  // ---- failures leave no trace ----

  function IngestAll(window: nat, s: Pipeline, calls: seq<Call>): Pipeline {
    if calls == [] then s
    else Ingest(window, IngestAll(window, s, calls[..|calls| - 1]), calls[|calls| - 1])
  }

  /** The run without its failed calls. */
  function WithoutFailures(calls: seq<Call>): (kept: seq<Call>)
    ensures forall c :: c in kept ==> !c.Fails()
  {
    if calls == [] then []
    else WithoutFailures(calls[..|calls| - 1]) + (if calls[|calls| - 1].Fails() then [] else [calls[|calls| - 1]])
  }

  lemma IngestOneMore(window: nat, s: Pipeline, calls: seq<Call>, c: Call)
    ensures IngestAll(window, s, calls + [c]) == Ingest(window, IngestAll(window, s, calls), c)
  {
    assert (calls + [c])[..|calls|] == calls;
  }

  /**
   * Any run with failures and retries leaves the log, gate, groups and gap count of the run with the failed calls
   * deleted.
   */
  lemma {:induction false} FailuresLeaveNoTrace(window: nat, s: Pipeline, calls: seq<Call>)
    ensures IngestAll(window, s, calls) == IngestAll(window, s, WithoutFailures(calls))
    decreases |calls|
  {
    hide Accepted, Drops;
    if calls != [] {
      var before, c := calls[..|calls| - 1], calls[|calls| - 1];
      FailuresLeaveNoTrace(window, s, before);
      if c.Fails() {
        assert WithoutFailures(before) + [] == WithoutFailures(before);
      } else {
        IngestOneMore(window, s, WithoutFailures(before), c);
      }
    }
  }

  // ---- the log as a function of the calls ----

  /** No earlier call of the same producer and detector carried this number or a higher one. */
  ghost predicate IsNew(before: seq<Call>, c: Call) {
    c.event.DetectionEvent? ==>
      forall b :: b in before && b.event.DetectionEvent? && b.Stamp().key == c.Stamp().key ==>
        b.Stamp().seqNo < c.Stamp().seqNo
  }

  /** The calls left after dropping, per key, every number that does not exceed all before it. */
  ghost function Kept(calls: seq<Call>): seq<Call> {
    if calls == [] then []
    else
      var before, c := calls[..|calls| - 1], calls[|calls| - 1];
      Kept(before) + (if IsNew(before, c) then [c] else [])
  }

  function Arrivals(calls: seq<Call>): seq<Detection> {
    if calls == [] then []
    else
      var c := calls[|calls| - 1];
      Arrivals(calls[..|calls| - 1]) + (if c.event.DetectionEvent? then [c.event.detection] else [])
  }

  /**
   * The log that kept calls deserve: each event, followed by the crossings a batch grouping of all arrivals closes with
   * it.
   */
  function LogOf(window: nat, kept: seq<Call>): seq<LogRecord> {
    if kept == [] then []
    else
      var before, c := kept[..|kept| - 1], kept[|kept| - 1];
      LogOf(window, before)
      + RecordsOf(c.producerId, Written(c.event, ClosedBy(window, Arrivals(before), Arrivals(kept))))
  }

  /** The groups that batch grouping closes between two points of the same arrival list. */
  function ClosedBy(window: nat, before: seq<Detection>, after: seq<Detection>): seq<Group> {
    var m, n := BatchClosed(window, before), BatchClosed(window, after);
    if |m| <= |n| then n[|m|..] else []
  }

  function CallStamps(calls: seq<Call>): seq<Stamp> {
    if calls == [] then []
    else
      var c := calls[|calls| - 1];
      CallStamps(calls[..|calls| - 1]) + (if c.event.DetectionEvent? then [c.Stamp()] else [])
  }

  lemma {:induction false} CallStampsAre(calls: seq<Call>)
    ensures forall c :: c in calls && c.event.DetectionEvent? ==> c.Stamp() in CallStamps(calls)
    ensures forall s :: s in CallStamps(calls) ==> exists c :: c in calls && c.event.DetectionEvent? && c.Stamp() == s
    decreases |calls|
  {
    if calls != [] {
      var before, c := calls[..|calls| - 1], calls[|calls| - 1];
      CallStampsAre(before);
      forall s | s in CallStamps(calls)
        ensures exists c :: c in calls && c.event.DetectionEvent? && c.Stamp() == s
      {
        if s in CallStamps(before) {
          var b :| b in before && b.event.DetectionEvent? && b.Stamp() == s;
          assert b in calls;
        } else {
          assert c in calls && c.Stamp() == s;
        }
      }
      forall b | b in calls && b.event.DetectionEvent?
        ensures b.Stamp() in CallStamps(calls)
      {
        assert b in before || b == c;
      }
    }
  }

  /** A gate at the per-key maxima of the earlier calls drops exactly the calls that are not new. */
  lemma GateDropsOld(marks: HighWater, before: seq<Call>, c: Call)
    requires Highest(marks, CallStamps(before)) && c.event.DetectionEvent?
    ensures Decide(marks, c.Stamp()).Persist() <==> IsNew(before, c)
  {
    CallStampsAre(before);
    var k := c.Stamp().key;
    if k in marks {
      assert IsHighest(CallStamps(before), k, marks[k]);
      var b :| b in before && b.event.DetectionEvent? && b.Stamp() == Stamp(k, marks[k]);
    } else {
      forall b | b in before && b.event.DetectionEvent?
        ensures b.Stamp().key != k
      {
        assert b.Stamp() in CallStamps(before);
      }
    }
  }

  /** The keys of the kept calls that skipped at least one number after all earlier ones of their key. */
  ghost function GapsOf(kept: seq<Call>): seq<Key> {
    if kept == [] then []
    else
      var before, c := kept[..|kept| - 1], kept[|kept| - 1];
      GapsOf(before) + (if Skips(before, c) then [c.Stamp().key] else [])
  }

  ghost predicate Skips(before: seq<Call>, c: Call) {
    && c.event.DetectionEvent?
    && (exists b :: b in before && b.event.DetectionEvent? && b.Stamp().key == c.Stamp().key)
    && (forall b :: b in before && b.event.DetectionEvent? && b.Stamp().key == c.Stamp().key ==>
                      b.Stamp().seqNo + 1 < c.Stamp().seqNo)
  }

  lemma GateSeesGaps(marks: HighWater, kept: seq<Call>, c: Call)
    requires Highest(marks, CallStamps(kept)) && c.event.DetectionEvent?
    ensures Decide(marks, c.Stamp()).Gap? <==> Skips(kept, c)
  {
    CallStampsAre(kept);
    var k := c.Stamp().key;
    if k in marks {
      assert IsHighest(CallStamps(kept), k, marks[k]);
      var b :| b in kept && b.event.DetectionEvent? && b.Stamp() == Stamp(k, marks[k]);
    } else {
      forall b | b in kept && b.event.DetectionEvent?
        ensures b.Stamp().key != k
      {
        assert b.Stamp() in CallStamps(kept);
      }
    }
  }

  lemma {:induction false} RaiseAllOneMore(marks: HighWater, stamps: seq<Stamp>, s: Stamp)
    ensures RaiseAll(marks, stamps + [s]) == Raise(RaiseAll(marks, stamps), s)
    decreases |stamps|
  {
    if stamps == [] {
      assert [] + [s] == [s] && [s][1..] == [];
    } else {
      assert (stamps + [s])[1..] == stamps[1..] + [s];
      RaiseAllOneMore(Raise(marks, stamps[0]), stamps[1..], s);
    }
  }

  /** What the pipeline is after a run without failures, in terms of the calls alone. */
  ghost predicate InStep(window: nat, s: Pipeline, calls: seq<Call>) {
    var kept := Kept(calls);
    && s.log == LogOf(window, kept)
    && s.marks == RaiseAll(map[], CallStamps(calls)) == RaiseAll(map[], CallStamps(kept))
    && s.pending == Stream(window, Arrivals(kept)).pending
    && s.gaps == GapsOf(kept)
    && Increasing(CallStamps(kept))
  }

  lemma ClosedByIsCloses(window: nat, arrivals: seq<Detection>, d: Detection)
    ensures ClosedBy(window, arrivals, arrivals + [d]) == Closes(window, Stream(window, arrivals).pending, d)
  {
    hide Closes, BatchClosed, Opens;
    StreamingIsBatch(window, arrivals);
    StreamingIsBatch(window, arrivals + [d]);
    assert (arrivals + [d])[..|arrivals|] == arrivals;
  }

  lemma OneMoreKept(window: nat, kept: seq<Call>, c: Call)
    ensures c.event.DetectionEvent? ==>
              && Arrivals(kept + [c]) == Arrivals(kept) + [c.event.detection]
              && CallStamps(kept + [c]) == CallStamps(kept) + [c.Stamp()]
    ensures !c.event.DetectionEvent? ==>
        Arrivals(kept + [c]) == Arrivals(kept) && CallStamps(kept + [c]) == CallStamps(kept)
    ensures LogOf(window, kept + [c]) ==
            LogOf(window, kept)
            + RecordsOf(c.producerId, Written(c.event, ClosedBy(window, Arrivals(kept), Arrivals(kept + [c]))))
    ensures GapsOf(kept + [c]) == GapsOf(kept) + (if Skips(kept, c) then [c.Stamp().key] else [])
  {
    hide ClosedBy, Skips;
    assert (kept + [c])[..|kept|] == kept;
  }

  lemma InStepAfterDetection(window: nat, s: Pipeline, before: seq<Call>, c: Call)
    requires InStep(window, s, before) && c.event.DetectionEvent? && !c.Fails()
    ensures InStep(window, Ingest(window, s, c), before + [c])
  {
    hide ClosedBy, Closes, Opens, Skips, IsNew, Increasing, Highest, Written, BatchClosed, Raise;
    var kept := Kept(before);
    var calls := before + [c];
    assert calls[..|before|] == before;
    MarksAreMaxima(CallStamps(before));
    MarksAreMaxima(CallStamps(kept));
    GateDropsOld(s.marks, before, c);
    RaiseAllOneMore(map[], CallStamps(before), c.Stamp());
    OneMoreKept(window, before, c);
    if Drops(s, c) {
      assert Raise(s.marks, c.Stamp()) == s.marks by { DropsIsNoRaise(s, c); }
      assert Kept(calls) == kept + [] == kept;
    } else {
      var arrivals := Arrivals(kept);
      OneMoreKept(window, kept, c);
      RaiseAllOneMore(map[], CallStamps(kept), c.Stamp());
      ClosedByIsCloses(window, arrivals, c.event.detection);
      GateSeesGaps(s.marks, kept, c);
      PersistKeepsIncreasing(s.marks, CallStamps(kept), c.Stamp());
      assert Stream(window, arrivals + [c.event.detection]).pending == Opens(window, s.pending, c.event.detection) by {
        assert (arrivals + [c.event.detection])[..|arrivals|] == arrivals;
      }
      assert Kept(calls) == kept + [c];
    }
  }

  lemma DropsIsNoRaise(s: Pipeline, c: Call)
    requires Drops(s, c)
    ensures Raise(s.marks, c.Stamp()) == s.marks
  {
  }

  lemma InStepAfterOther(window: nat, s: Pipeline, before: seq<Call>, c: Call)
    requires InStep(window, s, before) && !c.event.DetectionEvent? && !c.Fails()
    ensures InStep(window, Ingest(window, s, c), before + [c])
  {
    hide Increasing, Written, BatchClosed, Stream;
    var kept := Kept(before);
    var calls := before + [c];
    assert calls[..|before|] == before;
    OneMoreKept(window, before, c);
    OneMoreKept(window, kept, c);
    assert Kept(calls) == kept + [c];
    assert ClosedBy(window, Arrivals(kept), Arrivals(kept)) == [];
    assert GapsOf(kept) + [] == GapsOf(kept);
  }

  /**
   * The log, gate, open groups and gap count of any run without failures are the pure specification:
   * drop per key the numbers that do not increase, then write each event followed by the crossings it closes.
   */
  lemma {:induction false} IngestIsSpecification(window: nat, calls: seq<Call>)
    requires forall c :: c in calls ==> !c.Fails()
    ensures InStep(window, IngestAll(window, EMPTY, calls), calls)
    decreases |calls|
  {
    hide Ingest, InStep;
    if calls == [] {
      InStepAtStart(window);
    } else {
      var before, c := calls[..|calls| - 1], calls[|calls| - 1];
      IngestIsSpecification(window, before);
      assert calls == before + [c];
      if c.event.DetectionEvent? {
        InStepAfterDetection(window, IngestAll(window, EMPTY, before), before, c);
      } else {
        InStepAfterOther(window, IngestAll(window, EMPTY, before), before, c);
      }
    }
  }

  lemma InStepAtStart(window: nat)
    ensures InStep(window, EMPTY, [])
  {
  }

  /** Failures and retries included: the log of any run is the specification of the calls that did not fail. */
  lemma LogOfAnyRun(window: nat, calls: seq<Call>)
    ensures IngestAll(window, EMPTY, calls).log == LogOf(window, Kept(WithoutFailures(calls)))
  {
    hide Ingest, LogOf, Increasing, Kept;
    FailuresLeaveNoTrace(window, EMPTY, calls);
    IngestIsSpecification(window, WithoutFailures(calls));
  }

  // ---- the log and the gate agree ----

  lemma {:induction false} StampsOfRecords(producerId: string, events: seq<OtkEvent>)
    requires forall i :: 0 <= i < |events| ==> events[i].CrossingRecord?
    ensures Stamps(RecordsOf(producerId, events)) == []
    decreases |events|
  {
    if events != [] {
      StampsOfRecords(producerId, events[1..]);
      assert RecordsOf(producerId, events)[1..] == RecordsOf(producerId, events[1..]);
    }
  }

  lemma RecordsOfCons(producerId: string, event: OtkEvent, events: seq<OtkEvent>)
    ensures RecordsOf(producerId, [event] + events) == [LogRecord(producerId, event)] + RecordsOf(producerId, events)
  {
  }

  lemma StampsOfWritten(c: Call, closed: seq<Group>)
    ensures Stamps(RecordsOf(c.producerId, Written(c.event, closed))) ==
            if c.event.DetectionEvent? then [c.Stamp()] else []
  {
    hide CrossingsOf, CrossingEvents, RecordsOf;
    var crossings := CrossingEvents(CrossingsOf(closed));
    StampsOfRecords(c.producerId, crossings);
    RecordsOfCons(c.producerId, c.event, crossings);
    assert ([LogRecord(c.producerId, c.event)] + RecordsOf(c.producerId, crossings))[1..] ==
        RecordsOf(c.producerId, crossings);
  }

  /** Crossings carry no stamp: the stamps in the log are those of the kept calls. */
  lemma {:induction false} StampsOfLog(window: nat, kept: seq<Call>)
    ensures Stamps(LogOf(window, kept)) == CallStamps(kept)
    decreases |kept|
  {
    hide ClosedBy, Written;
    if kept != [] {
      var before, c := kept[..|kept| - 1], kept[|kept| - 1];
      var closed := ClosedBy(window, Arrivals(before), Arrivals(kept));
      StampsOfLog(window, before);
      StampsOfWritten(c, closed);
      StampsAppend(LogOf(window, before), RecordsOf(c.producerId, Written(c.event, closed)));
    }
  }

  /**
   * In every run each key's logged numbers strictly increase, and a gate seeded from the log is the gate of the running
   * service.
   */
  lemma LogSeedsTheGate(window: nat, calls: seq<Call>)
    ensures var s := IngestAll(window, EMPTY, calls);
            Increasing(Stamps(s.log)) && RaiseAll(map[], Stamps(s.log)) == s.marks
  {
    hide Ingest, LogOf, Kept, Increasing;
    var ok := WithoutFailures(calls);
    FailuresLeaveNoTrace(window, EMPTY, calls);
    IngestIsSpecification(window, ok);
    StampsOfLog(window, Kept(ok));
  }

  // ---- the log in plain terms ----

  /** The record is a detection of this producer and detector with this number. */
  predicate IsDetection(r: LogRecord, producerId: string, detectorId: string, seqNo: u64) {
    && r.event.DetectionEvent? && r.producerId == producerId && r.event.detection.detectorId == detectorId
    && r.event.detection.sequenceNumber == seqNo
  }

  ghost predicate Holds(log: seq<LogRecord>, producerId: string, detectorId: string, seqNo: u64) {
    exists r :: r in log && IsDetection(r, producerId, detectorId, seqNo)
  }

  lemma {:induction false} StampInLog(log: seq<LogRecord>, producerId: string, detectorId: string, seqNo: u64)
    ensures Stamp((producerId, detectorId), seqNo) in Stamps(log) <==> Holds(log, producerId, detectorId, seqNo)
  {
    if log != [] {
      StampInLog(log[1..], producerId, detectorId, seqNo);
      assert forall r :: r in log <==> r == log[0] || r in log[1..];
      assert IsDetection(log[0], producerId, detectorId, seqNo) <==>
          Stamp((producerId, detectorId), seqNo) in StampsOf(log[0]);
    }
  }

  /**
   * In every run a detection is dropped exactly if the log holds one of the same producer and detector with the same
   * number or a higher one; whatever has failed or been dropped before does not matter.
   */
  lemma {:induction false} DropsExactlyWhen(window: nat, calls: seq<Call>, c: Call)
    requires c.event.DetectionEvent?
    ensures Drops(IngestAll(window, EMPTY, calls), c) <==>
            var log, d := IngestAll(window, EMPTY, calls).log, c.event.detection;
            exists n: u64 :: n >= d.sequenceNumber && Holds(log, c.producerId, d.detectorId, n)
  {
    hide IngestAll, Stamps, RaiseAll, Increasing, Holds;
    var s := IngestAll(window, EMPTY, calls);
    LogSeedsTheGate(window, calls);
    MarksAreMaxima(Stamps(s.log));
    var d := c.event.detection;
    var k := (c.producerId, d.detectorId);
    forall n: u64
      ensures Stamp(k, n) in Stamps(s.log) <==> Holds(s.log, c.producerId, d.detectorId, n)
    {
      StampInLog(s.log, c.producerId, d.detectorId, n);
    }
    if k in s.marks {
      assert IsHighest(Stamps(s.log), k, s.marks[k]);
    }
  }

  lemma BatchHolds(producerId: string, event: OtkEvent, closed: seq<Group>)
    ensures var batch := RecordsOf(producerId, Written(event, closed));
            && |batch| == 1 + |closed| && batch[0] == LogRecord(producerId, event)
            && forall i :: 0 <= i < |closed| ==>
                 batch[1 + i] == LogRecord(producerId, CrossingRecord(CrossingOf(closed[i])))
  {
    hide CrossingOf, RecordsOf, CrossingsOf, CrossingEvents;
  }

  lemma BehindLog(log: seq<LogRecord>, batch: seq<LogRecord>)
    requires batch != []
    ensures log < log + batch && (log + batch)[|log|..] == batch
  {
  }

  /**
   * What an accepted call adds to the log: its event, and behind it the crossings of the groups it closes, all under
   * the caller's id.
   */
  lemma AcceptedWrites(window: nat, s: Pipeline, c: Call)
    requires !Drops(s, c) && !c.Fails()
    ensures s.log < Ingest(window, s, c).log
    ensures var added := Ingest(window, s, c).log[|s.log|..];
            var closed := if c.event.DetectionEvent? then Closes(window, s.pending, c.event.detection) else [];
            && |added| == 1 + |closed| && added[0] == LogRecord(c.producerId, c.event)
            && forall i :: 0 <= i < |closed| ==>
                 added[1 + i] == LogRecord(c.producerId, CrossingRecord(CrossingOf(closed[i])))
  {
    hide CrossingOf, Closes, Opens, Raise, RecordsOf, Written, Decide, Drops;
    var closed := if c.event.DetectionEvent? then Closes(window, s.pending, c.event.detection) else [];
    BatchHolds(c.producerId, c.event, closed);
    BehindLog(s.log, RecordsOf(c.producerId, Written(c.event, closed)));
  }
}
