/** The in-memory event log of the conformance suite, and its subscriptions' wake-up protocol. */
module MemLogs {
  import opened Bytes
  import opened Wrappers
  import opened EventModel
  import opened EventLogPort
  import opened SegmentReading

  /** The boundary, if it points at a retained entry. */
  function EarliestAvailable(earliest: nat, len: nat): Option<nat> {
    if earliest < len then Some(earliest) else None
  }

  /** Below the retention boundary. */
  predicate Evicted(earliest: Option<nat>, offset: nat) {
    earliest.Some? && offset < earliest.value
  }

  function Expired(earliest: Option<nat>, len: nat, offset: nat): StorageError
    requires earliest.Some?
  {
    RetentionExpired(offset, EarliestAvailable(earliest.value, len))
  }

  /** The slice of the entries, retention first. */
  function MemRange(entries: seq<LogEntry>, earliest: Option<nat>, from: u64,
                    to: Option<u64>): Result<seq<LogEntry>, StorageError> {
    if Evicted(earliest, from) then Err(Expired(earliest, |entries|, from))
    else
      var end := if to.Some? then Min(to.value, |entries|) else |entries|;
      if from < end then Ok(entries[from..end]) else Ok([])
  }

  /** What a subscriber finds when it looks under the lock. */
  datatype Look = Gone(error: StorageError) | Serve(entry: LogEntry) | Nothing

  function LookAt(entries: seq<LogEntry>, earliest: Option<nat>, cursor: nat): Look {
    if Evicted(earliest, cursor) then Gone(Expired(earliest, |entries|, cursor))
    else if cursor < |entries| then Serve(entries[cursor])
    else Nothing
  }

  class MemLog {
    var entries: seq<LogEntry>
    var earliestRetained: Option<nat>
    /** How often waiters have been notified. */
    var notified: nat

    /** Entry `i` has offset `i`, and the boundary never lies past the end. */
    ghost predicate Valid()
      reads this
    {
      && |entries| <= U64_LIMIT
      && (forall i :: 0 <= i < |entries| ==> entries[i].offset == i)
      && (earliestRetained.Some? ==> earliestRetained.value <= |entries|)
    }

    constructor ()
      ensures Valid() && entries == [] && earliestRetained == None && notified == 0
    {
      entries, earliestRetained, notified := [], None, 0;
    }

    /** `stamps` are the clock readings, one for each event. A vector cannot hold 2^64 entries. */
    method Append(producerId: string, events: seq<OtkEvent>, stamps: seq<u64>) returns (r: Result<nat, StorageError>)
      requires Valid() && |stamps| == |events| && |entries| + |events| <= U64_LIMIT
      modifies `entries, `notified
      ensures Valid()
      ensures events == [] || producerId == "" ==> r == Err(InvalidInput) && unchanged(this)
      ensures events != [] && producerId != "" ==>
                && notified == old(notified) + 1
                && r == Ok(|entries| - 1) && |entries| == |old(entries)| + |events| && old(entries) <= entries
                && forall i :: 0 <= i < |events| ==>
                     entries[|old(entries)| + i] == LogEntry(|old(entries)| + i, stamps[i], producerId, events[i])
    {
      if events == [] || producerId == "" {
        return Err(InvalidInput);
      }
      var start := |entries|;
      for i := 0 to |events|
        invariant |entries| == start + i && old(entries) <= entries && notified == old(notified) && Valid()
        invariant forall k :: 0 <= k < i ==> entries[start + k] == LogEntry(start + k, stamps[k], producerId, events[k])
      {
        entries := entries + [LogEntry(start + i, stamps[i], producerId, events[i])];
      }
      notified := notified + 1;
      return Ok(start + |events| - 1);
    }

    /** The boundary is clamped to the end of the log. It may move back as well as forward. */
    method EvictBelow(boundary: nat)
      requires Valid()
      modifies `earliestRetained, `notified
      ensures Valid() && earliestRetained == Some(Min(boundary, |entries|)) && notified == old(notified) + 1
    {
      var nextOffset := |entries|;
      earliestRetained := Some(Min(boundary, nextOffset));
      notified := notified + 1;
    }

    method EvictAll()
      requires Valid()
      modifies `earliestRetained, `notified
      ensures Valid() && earliestRetained == Some(|entries|) && notified == old(notified) + 1
      ensures forall from :: 0 <= from < |entries| ==>
          LookAt(entries, earliestRetained, from) == Gone(RetentionExpired(from, None))
    {
      earliestRetained := Some(|entries|);
      notified := notified + 1;
    }

    method ReadRange(from: u64, to: Option<u64>) returns (r: Result<seq<LogEntry>, StorageError>)
      requires Valid()
      ensures r == MemRange(entries, earliestRetained, from, to)
    {
      if earliestRetained.Some? && from < earliestRetained.value {
        return Err(RetentionExpired(from, EarliestAvailable(earliestRetained.value, |entries|)));
      }
      if from >= |entries| {
        return Ok([]);
      }
      var toIdx := if to.Some? then to.value else |entries|;
      toIdx := Min(toIdx, |entries|);
      if toIdx <= from {
        return Ok([]);
      }
      return Ok(entries[from..toIdx]);
    }

    /** None once everything is evicted. */
    method LatestOffset() returns (r: Option<int>)
      requires Valid()
      ensures r == if entries == [] || earliestRetained == Some(|entries|) then None else Some(|entries| - 1)
    {
      if entries == [] {
        return None;
      }
      if earliestRetained.Some? && EarliestAvailable(earliestRetained.value, |entries|).None? {
        return None;
      }
      return Some(|entries| - 1);
    }

    method EarliestOffset() returns (r: Option<nat>)
      requires Valid()
      ensures r.Some? <==> exists o :: 0 <= o < |entries| && LookAt(entries, earliestRetained, o).Serve?
      ensures r.Some? ==> r.value < |entries| && forall o ::
          0 <= o < |entries| ==> (LookAt(entries, earliestRetained, o).Serve? <==> r.value <= o)
    {
      r := if entries == [] then None
           else if earliestRetained.Some? then EarliestAvailable(earliestRetained.value, |entries|)
           else Some(0);
      assert r.Some? ==> LookAt(entries, earliestRetained, r.value).Serve?;
    }

    method Subscribe(from: u64) returns (r: Result<MemSubscription, StorageError>)
      requires Valid()
      ensures r.Err? <==> Evicted(earliestRetained, from)
      ensures r.Err? ==> r.error == Expired(earliestRetained, |entries|, from)
      ensures r.Ok? ==> fresh(r.value) && r.value.log == this && r.value.cursor == from && !r.value.closed
    {
      if earliestRetained.Some? && from < earliestRetained.value {
        return Err(RetentionExpired(from, EarliestAvailable(earliestRetained.value, |entries|)));
      }
      var sub := new MemSubscription(this, from);
      return Ok(sub);
    }
  }

  class MemSubscription {
    const log: MemLog
    var cursor: nat
    var closed: bool
    /** How often the log had notified when this subscription last registered. */
    var ticket: nat

    constructor (log: MemLog, from: nat)
      ensures this.log == log && cursor == from && !closed && ticket == 0
    {
      this.log := log;
      cursor, closed, ticket := from, false, 0;
    }

    /** The log has notified since this subscription registered. */
    predicate Signalled()
      reads this, log
    {
      ticket < log.notified
    }

    /** The first look of a turn of the loop: report eviction, serve the entry at the cursor, or go on to register. */
    method Check() returns (found: Look)
      requires log.Valid()
      modifies `cursor
      ensures found == LookAt(log.entries, log.earliestRetained, old(cursor))
      ensures cursor == if found.Serve? then old(cursor) + 1 else old(cursor)
    {
      if log.earliestRetained.Some? && cursor < log.earliestRetained.value {
        return Gone(RetentionExpired(cursor, EarliestAvailable(log.earliestRetained.value, |log.entries|)));
      }
      if cursor < |log.entries| {
        var entry := log.entries[cursor];
        cursor := cursor + 1;
        return Serve(entry);
      }
      return Nothing;
    }

    /** Registering as a waiter: notifications from now on wake this subscription. */
    method Register()
      modifies `ticket
      ensures ticket == log.notified && !Signalled()
    {
      ticket := log.notified;
    }

    /** The second look, after registering: an entry is left for the next turn. */
    method Recheck() returns (found: Look)
      requires log.Valid()
      ensures found == LookAt(log.entries, log.earliestRetained, cursor)
    {
      if log.earliestRetained.Some? && cursor < log.earliestRetained.value {
        return Gone(RetentionExpired(cursor, EarliestAvailable(log.earliestRetained.value, |log.entries|)));
      }
      return if cursor < |log.entries| then Serve(log.entries[cursor]) else Nothing;
    }
  }

  // ---- the two backends ----

  /**
   * With the same entries and boundary, a range read of this log and of the segment log answer alike exactly unless the
   * range is empty and starts below the boundary: this log checks retention first, the segment log the empty range.
   */
  lemma BackendsAgreeExcept(h: seq<LogEntry>, first: nat, from: u64, to: Option<u64>)
    requires first <= |h|
    ensures MemRange(h, Some(first), from, to) == RangeOf(h, first, from, to) <==>
        !(from < first && to.Some? && to.value <= from)
  {
    var mem, seg := MemRange(h, Some(first), from, to), RangeOf(h, first, from, to);
    if from < first && to.Some? && to.value <= from {
      assert mem.Err? && seg.Ok?;
    }
  }

  // ---- many subscribers, appenders and evictors ----

  /**
   * Where a subscriber is in `next_entry`: outside, before its first look, before registering, registered, or asleep.
   */
  datatype Phase = Idle | Looking | Unregistered | Registered | Parked

  datatype Subscriber = Subscriber(from: nat, cursor: nat, phase: Phase, signalled: bool, delivered: seq<LogEntry>)

  datatype System = System(entries: seq<LogEntry>, earliest: Option<nat>, subscribers: map<nat, Subscriber>)

  datatype Step =
    | Append(more: seq<LogEntry>)
    | EvictBelow(boundary: nat)
    | Close
    | Subscribe(newId: nat, start: nat)
    | Call(id: nat)
    | Look(id: nat)
    | Register(id: nat)
    | Relook(id: nat)
    | Wake(id: nat)

  /** `notify_waiters`: every registered waiter is woken, and nobody else. */
  function Notified(s: Subscriber): Subscriber {
    if s.phase.Registered? || s.phase.Parked? then s.(signalled := true) else s
  }

  function NotifyAll(subs: map<nat, Subscriber>): map<nat, Subscriber> {
    map id | id in subs :: Notified(subs[id])
  }

  function Looked(s: System, sub: Subscriber): Subscriber {
    match LookAt(s.entries, s.earliest, sub.cursor)
    case Gone(_) => sub.(phase := Idle)
    case Serve(e) => sub.(phase := Idle, cursor := sub.cursor + 1, delivered := sub.delivered + [e])
    case Nothing => sub.(phase := Unregistered)
  }

  function Relooked(s: System, sub: Subscriber): Subscriber {
    match LookAt(s.entries, s.earliest, sub.cursor)
    case Gone(_) => sub.(phase := Idle)
    case Serve(_) => sub.(phase := Looking)
    case Nothing => sub.(phase := Parked)
  }

  function With(s: System, id: nat, sub: Subscriber): System {
    s.(subscribers := s.subscribers[id := sub])
  }

  ghost predicate Takes(s: System, t: System, step: Step) {
    match step
    case Append(more) => more != [] && t == System(s.entries + more, s.earliest, NotifyAll(s.subscribers))
    case EvictBelow(boundary) => t == System(s.entries, Some(Min(boundary, |s.entries|)), NotifyAll(s.subscribers))
    case Close => t == s.(subscribers := NotifyAll(s.subscribers))
    case Subscribe(id, from) =>
      id !in s.subscribers && !Evicted(s.earliest, from) && t == With(s, id, Subscriber(from, from, Idle, false, []))
    case Call(id) =>
      id in s.subscribers && s.subscribers[id].phase.Idle? && t == With(s, id, s.subscribers[id].(phase := Looking))
    case Look(id) =>
      id in s.subscribers && s.subscribers[id].phase.Looking? && t == With(s, id, Looked(s, s.subscribers[id]))
    case Register(id) =>
      id in s.subscribers && s.subscribers[id].phase.Unregistered?
      && t == With(s, id, s.subscribers[id].(phase := Registered, signalled := false))
    case Relook(id) =>
      id in s.subscribers && s.subscribers[id].phase.Registered? && t == With(s, id, Relooked(s, s.subscribers[id]))
    case Wake(id) =>
      id in s.subscribers && s.subscribers[id].phase.Parked? && s.subscribers[id].signalled
      && t == With(s, id, s.subscribers[id].(phase := Looking))
  }

  /** What holds of a subscriber at every moment. */
  ghost predicate SubscriberOk(s: System, sub: Subscriber) {
    && sub.cursor == sub.from + |sub.delivered|
    && (sub.delivered != [] ==> sub.cursor <= |s.entries| && sub.delivered == s.entries[sub.from..sub.cursor])
    && (sub.phase.Parked? && !sub.signalled ==> LookAt(s.entries, s.earliest, sub.cursor) == Nothing)
  }

  ghost predicate SystemOk(s: System) {
    forall id :: id in s.subscribers ==> SubscriberOk(s, s.subscribers[id])
  }

  lemma {:induction false} OthersStay(s: System, id: nat, sub: Subscriber)
    requires SystemOk(s) && SubscriberOk(s, sub)
    ensures SystemOk(With(s, id, sub))
  {
    hide LookAt;
    forall other | other in With(s, id, sub).subscribers
      ensures SubscriberOk(With(s, id, sub), With(s, id, sub).subscribers[other])
    {
      if other != id {
        assert SubscriberOk(s, s.subscribers[other]);
      }
    }
  }

  lemma {:induction false} NotifyingKeeps(s: System, t: System)
    requires SystemOk(s) && s.entries <= t.entries && t.subscribers == NotifyAll(s.subscribers)
    ensures SystemOk(t)
  {
    hide LookAt;
    forall id | id in t.subscribers
      ensures SubscriberOk(t, t.subscribers[id])
    {
      var sub := s.subscribers[id];
      assert SubscriberOk(s, sub);
      if sub.delivered != [] {
        assert s.entries[sub.from..sub.cursor] == t.entries[sub.from..sub.cursor];
      }
    }
  }

  lemma {:induction false} LookKeeps(s: System, sub: Subscriber)
    requires SubscriberOk(s, sub) && sub.phase.Looking?
    ensures SubscriberOk(s, Looked(s, sub))
  {
    if LookAt(s.entries, s.earliest, sub.cursor).Serve? {
      assert sub.delivered + [s.entries[sub.cursor]] == s.entries[sub.from..sub.cursor + 1];
    }
  }

  lemma {:induction false} StepKeeps(s: System, t: System, step: Step)
    requires SystemOk(s) && Takes(s, t, step)
    ensures SystemOk(t)
  {
    hide SystemOk, LookAt;
    match step {
      case Append(more) => NotifyingKeeps(s, t);
      case EvictBelow(boundary) => NotifyingKeeps(s, t);
      case Close => NotifyingKeeps(s, t);
      case Subscribe(id, from) => OthersStay(s, id, Subscriber(from, from, Idle, false, []));
      case Call(id) =>
        SubscriberIn(s, id);
        OthersStay(s, id, s.subscribers[id].(phase := Looking));
      case Look(id) =>
        SubscriberIn(s, id);
        LookKeeps(s, s.subscribers[id]);
        OthersStay(s, id, Looked(s, s.subscribers[id]));
      case Register(id) =>
        SubscriberIn(s, id);
        OthersStay(s, id, s.subscribers[id].(phase := Registered, signalled := false));
      case Relook(id) =>
        SubscriberIn(s, id);
        OthersStay(s, id, Relooked(s, s.subscribers[id]));
      case Wake(id) =>
        SubscriberIn(s, id);
        OthersStay(s, id, s.subscribers[id].(phase := Looking));
    }
  }

  lemma {:induction false} SubscriberIn(s: System, id: nat)
    requires SystemOk(s) && id in s.subscribers
    ensures SubscriberOk(s, s.subscribers[id])
  {
    hide SubscriberOk;
  }

  ghost predicate IsRun(states: seq<System>, steps: seq<Step>) {
    && |states| == |steps| + 1 && states[0] == System([], None, map[])
    && forall i :: 0 <= i < |steps| ==> Takes(states[i], states[i + 1], steps[i])
  }

  lemma {:induction false} RunKeeps(states: seq<System>, steps: seq<Step>, n: nat)
    requires IsRun(states, steps) && n < |states|
    ensures SystemOk(states[n])
    decreases n
  {
    hide SubscriberOk, Takes;
    if n > 0 {
      RunKeeps(states, steps, n - 1);
      hide SystemOk;
      StepKeeps(states[n - 1], states[n], steps[n - 1]);
    }
  }

  /**
   * In every interleaving of any number of appenders, evictors and subscribers: a parked and unsignalled subscriber has
   * its cursor at or past the end of the log and at or past the retention boundary.
   */
  lemma {:induction false} NoLostWakeUp(states: seq<System>, steps: seq<Step>, n: nat, id: nat)
    requires IsRun(states, steps) && n < |states| && id in states[n].subscribers
    requires states[n].subscribers[id].phase.Parked? && !states[n].subscribers[id].signalled
    ensures var (s, sub) := (states[n], states[n].subscribers[id]);
            sub.cursor >= |s.entries| && !Evicted(s.earliest, sub.cursor)
  {
    hide IsRun, SystemOk;
    RunKeeps(states, steps, n);
    SubscriberIn(states[n], id);
  }

  /** What any subscriber has been given is the log from its start on, in order, without gap or repeat. */
  lemma {:induction false} DeliversInOrder(states: seq<System>, steps: seq<Step>, n: nat, id: nat)
    requires IsRun(states, steps) && n < |states| && id in states[n].subscribers
    ensures var (s, sub) := (states[n], states[n].subscribers[id]);
            sub.delivered == [] || (sub.from + |sub.delivered| <= |s.entries|
                                    && sub.delivered == s.entries[sub.from..sub.from + |sub.delivered|])
  {
    hide IsRun, SystemOk;
    RunKeeps(states, steps, n);
    SubscriberIn(states[n], id);
  }

  /**
   * Without the second look a wake-up is lost: an append between the first look and registering leaves the subscriber
   * asleep.
   */
  lemma {:induction false} SecondLookIsNeeded(e: LogEntry)
    ensures var asleep := Subscriber(0, 0, Parked, false, []);
            var s0 := System([], None, map[1 := asleep.(phase := Looking)]);
            exists s1, s2, s3 ::
              && Takes(s0, s1, Look(1)) && Takes(s1, s2, Append([e])) && Takes(s2, s3, Register(1))
              && With(s3, 1, s3.subscribers[1].(phase := Parked)) == System([e], None, map[1 := asleep])
              && !SubscriberOk(System([e], None, map[1 := asleep]), asleep)
  {
    var sub := Subscriber(0, 0, Looking, false, []);
    var s0 := System([], None, map[1 := sub]);
    var s1 := With(s0, 1, sub.(phase := Unregistered));
    var s2 := System([e], None, NotifyAll(s1.subscribers));
    var s3 := With(s2, 1, sub.(phase := Registered));
    assert [] + [e] == [e] && s2.subscribers[1] == sub.(phase := Unregistered);
    assert Takes(s0, s1, Look(1)) && Takes(s1, s2, Append([e])) && Takes(s2, s3, Register(1));
    assert With(s3, 1, s3.subscribers[1].(phase := Parked)).subscribers == map[1 := sub.(phase := Parked)];
  }
}
