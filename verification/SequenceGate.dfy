/** Per-(producer, detector) sequence-number high-water enforcement. */
module SequenceGates {
  import opened Bytes
  import opened Wrappers
  import opened EventModel
  import opened EventLogPort

  /** (producer id, detector id). */
  type Key = (string, string)

  datatype GateDecision =
    | Accept
    | Advance(previousHighWater: u64)
    | Gap(expected: nat, got: u64)
    | Duplicate(highWater: u64, gotSeq: u64)
  {
    predicate Persist() {
      !Duplicate?
    }
  }

  type HighWater = map<Key, u64>

  /** A detection as the gate sees it: whose it is and its sequence number. */
  datatype Stamp = Stamp(key: Key, seqNo: u64)

  function StampOf(producerId: string, det: Detection): Stamp {
    Stamp((producerId, det.detectorId), det.sequenceNumber)
  }

  function Decide(marks: HighWater, s: Stamp): GateDecision {
    if s.key !in marks then Accept
    else if s.seqNo <= marks[s.key] then Duplicate(marks[s.key], s.seqNo)
    else if s.seqNo == marks[s.key] + 1 then Advance(marks[s.key])
    else Gap(marks[s.key] + 1, s.seqNo)
  }

  function Raise(marks: HighWater, s: Stamp): HighWater {
    if s.key in marks && s.seqNo <= marks[s.key] then marks else marks[s.key := s.seqNo]
  }

  function RaiseAll(marks: HighWater, stamps: seq<Stamp>): HighWater
    decreases |stamps|
  {
    if stamps == [] then marks else RaiseAll(Raise(marks, stamps[0]), stamps[1..])
  }

  class SequenceGate {
    var highWater: HighWater

    constructor ()
      ensures highWater == map[]
    {
      highWater := map[];
    }

    method Peek(producerId: string, detection: Detection) returns (d: GateDecision)
      ensures d == Decide(highWater, StampOf(producerId, detection))
    {
      var key := (producerId, detection.detectorId);
      var seqNo := detection.sequenceNumber;
      if key !in highWater {
        return Accept;
      }
      var hw := highWater[key];
      if seqNo <= hw {
        return Duplicate(hw, seqNo);
      }
      return if seqNo == hw + 1 then Advance(hw) else Gap(hw + 1, seqNo);
    }

    method Commit(producerId: string, detection: Detection)
      modifies this
      ensures highWater == Raise(old(highWater), StampOf(producerId, detection))
    {
      var key := (producerId, detection.detectorId);
      var seqNo := detection.sequenceNumber;
      if key !in highWater || seqNo > highWater[key] {
        highWater := highWater[key := seqNo];
      }
    }

    method Check(producerId: string, detection: Detection) returns (d: GateDecision)
      modifies this
      ensures d == Decide(old(highWater), StampOf(producerId, detection))
      ensures highWater == Raise(old(highWater), StampOf(producerId, detection))
    {
      d := Peek(producerId, detection);
      if d.Persist() {
        Commit(producerId, detection);
      }
    }
  }

  /** The stamp of a record, if it is a detection. */
  function StampsOf(r: LogRecord): seq<Stamp> {
    if r.event.DetectionEvent? then [StampOf(r.producerId, r.event.detection)] else []
  }

  /** The stamps of the detections in a log, in log order. */
  function Stamps(log: seq<LogRecord>): seq<Stamp> {
    if log == [] then [] else StampsOf(log[0]) + Stamps(log[1..])
  }

  /** Startup: replay every retained detection through commit. `earliest` and `range` are what the log port answered. */
  method SeedFromLog(gate: SequenceGate, earliest: Result<Option<nat>, StorageError>, range: Result<seq<LogEntry>,
                     StorageError>)
    returns (r: Result<nat, StorageError>)
    modifies gate
    ensures earliest.Err? ==> r == Err(earliest.error)
    ensures earliest == Ok(None) ==> r == Ok(0)
    ensures earliest.Ok? && earliest.value.Some? && range.Err? ==> r == Err(range.error)
    ensures if earliest.Ok? && earliest.value.Some? && range.Ok?
            then r == Ok(|range.value|) && gate.highWater == RaiseAll(old(gate.highWater), Stamps(Records(range.value)))
            else gate.highWater == old(gate.highWater)
  {
    if earliest.Err? {
      return Err(earliest.error);
    }
    if earliest.value.None? {
      return Ok(0);
    }
    if range.Err? {
      return Err(range.error);
    }
    var entries := range.value;
    ghost var log := Records(entries);
    assert log[0..] == log;
    for i := 0 to |entries|
      invariant RaiseAll(gate.highWater, Stamps(log[i..])) == RaiseAll(old(gate.highWater), Stamps(log))
    {
      assert log[i..][0] == entries[i].Record() && log[i..][1..] == log[i + 1..];
      assert [] + Stamps(log[i + 1..]) == Stamps(log[i + 1..]);
      var entry := entries[i];
      if entry.event.DetectionEvent? {
        gate.Commit(entry.producerId, entry.event.detection);
      }
    }
    return Ok(|entries|);
  }

  lemma {:induction false} StampsAppend(a: seq<LogRecord>, b: seq<LogRecord>)
    ensures Stamps(a + b) == Stamps(a) + Stamps(b)
  {
    if a == [] {
      assert a + b == b;
    } else {
      assert (a + b)[1..] == a[1..] + b;
      StampsAppend(a[1..], b);
    }
  }

  // ---- the marks are maxima ----

  /** `m` is the highest number stamped for `k`. */
  ghost predicate IsHighest(stamps: seq<Stamp>, k: Key, m: u64) {
    Stamp(k, m) in stamps && forall s :: s in stamps && s.key == k ==> s.seqNo <= m
  }

  /** The marks are exactly the per-key maxima of what was committed. */
  ghost predicate Highest(marks: HighWater, stamps: seq<Stamp>) {
    && (forall s :: s in stamps ==> s.key in marks)
    && (forall k :: k in marks ==> IsHighest(stamps, k, marks[k]))
  }

  lemma RaiseKeepsHighest(marks: HighWater, stamps: seq<Stamp>, s: Stamp)
    requires Highest(marks, stamps)
    ensures Highest(Raise(marks, s), stamps + [s])
  {
    var after, all := Raise(marks, s), stamps + [s];
    assert s in all && forall t :: t in stamps ==> t in all;
    forall k | k in after
      ensures IsHighest(all, k, after[k])
    {
      if k in marks {
        assert IsHighest(stamps, k, marks[k]);
      }
    }
  }

  lemma {:induction false} RaiseAllKeepsHighest(marks: HighWater, before: seq<Stamp>, stamps: seq<Stamp>)
    requires Highest(marks, before)
    ensures Highest(RaiseAll(marks, stamps), before + stamps)
    decreases |stamps|
  {
    hide Highest;
    if stamps == [] {
      assert before + stamps == before;
    } else {
      RaiseKeepsHighest(marks, before, stamps[0]);
      RaiseAllKeepsHighest(Raise(marks, stamps[0]), before + [stamps[0]], stamps[1..]);
      assert before + [stamps[0]] + stamps[1..] == before + stamps;
    }
  }

  /** Committing any detections leaves each key at its maximum, and only the keys that occurred. */
  lemma MarksAreMaxima(stamps: seq<Stamp>)
    ensures Highest(RaiseAll(map[], stamps), stamps)
  {
    RaiseAllKeepsHighest(map[], [], stamps);
    assert [] + stamps == stamps;
  }

  lemma HighestIsUnique(m: HighWater, n: HighWater, a: seq<Stamp>, b: seq<Stamp>)
    requires Highest(m, a) && Highest(n, b)
    requires forall s :: s in a <==> s in b
    ensures m == n
  {
    forall k | k in m
      ensures k in n && m[k] == n[k]
    {
      assert IsHighest(a, k, m[k]) && Stamp(k, m[k]) in b;
      assert IsHighest(b, k, n[k]) && Stamp(k, n[k]) in a;
    }
    forall k | k in n
      ensures k in m
    {
      assert IsHighest(b, k, n[k]) && Stamp(k, n[k]) in a;
    }
  }

  /** The order of commits does not matter. */
  lemma SeedOrderIrrelevant(a: seq<Stamp>, b: seq<Stamp>)
    requires multiset(a) == multiset(b)
    ensures RaiseAll(map[], a) == RaiseAll(map[], b)
  {
    MarksAreMaxima(a);
    MarksAreMaxima(b);
    forall s
      ensures s in a <==> s in b
    {
      assert s in a <==> s in multiset(a);
      assert s in b <==> s in multiset(b);
    }
    HighestIsUnique(RaiseAll(map[], a), RaiseAll(map[], b), a, b);
  }

  // ---- logs the service builds ----

  /** Per key, sequence numbers strictly increase along the log. */
  ghost predicate Increasing(stamps: seq<Stamp>) {
    forall i, j :: 0 <= i < j < |stamps| && stamps[i].key == stamps[j].key ==> stamps[i].seqNo < stamps[j].seqNo
  }

  /** What a gate in step with the log lets through keeps the log increasing. */
  lemma PersistKeepsIncreasing(marks: HighWater, stamps: seq<Stamp>, s: Stamp)
    requires Highest(marks, stamps) && Increasing(stamps)
    ensures Decide(marks, s).Persist() <==> Increasing(stamps + [s])
  {
    if s.key in marks {
      assert IsHighest(stamps, s.key, marks[s.key]);
      var i :| 0 <= i < |stamps| && stamps[i] == Stamp(s.key, marks[s.key]);
      var all := stamps + [s];
      assert all[i] == stamps[i] && all[|stamps|] == s;
    }
  }

  /** Where numbers increase, the highest of a suffix is the highest of all. */
  lemma HighestOfSuffix(gone: seq<Stamp>, kept: seq<Stamp>, k: Key, m: u64)
    requires Increasing(gone + kept) && IsHighest(kept, k, m)
    ensures IsHighest(gone + kept, k, m)
  {
    var all := gone + kept;
    var j :| 0 <= j < |kept| && kept[j] == Stamp(k, m);
    assert all[|gone| + j] == kept[j];
    forall i | 0 <= i < |all| && all[i].key == k
      ensures all[i].seqNo <= m
    {
      if i >= |gone| {
        assert all[i] == kept[i - |gone|];
      }
    }
  }

  ghost predicate HasKey(stamps: seq<Stamp>, k: Key) {
    exists s :: s in stamps && s.key == k
  }

  /**
   * Retention removed any prefix: a key is seeded with the highest number ever persisted for it exactly if it has a
   * retained detection.
   */
  lemma {:induction false} SeedAfterRetention(evicted: seq<LogRecord>, retained: seq<LogRecord>, k: Key)
    requires Increasing(Stamps(evicted + retained))
    ensures var marks := RaiseAll(map[], Stamps(retained));
            && (k in marks <==> HasKey(Stamps(retained), k))
            && (k in marks && IsHighest(Stamps(evicted + retained), k, marks[k]) <==> HasKey(Stamps(retained), k))
  {
    hide Stamps, Increasing, RaiseAll;
    StampsAppend(evicted, retained);
    MarksAreMaxima(Stamps(retained));
    if HasKey(Stamps(retained), k) {
      HighestOfSuffix(Stamps(evicted), Stamps(retained), k, RaiseAll(map[], Stamps(retained))[k]);
    }
  }

  /**
   * What a restart after eviction can log twice: of the detections logged before, the seeded gate lets through again
   * exactly those of keys with no retained detection.
   */
  lemma {:induction false} ForgottenAfterRetention(evicted: seq<LogRecord>, retained: seq<LogRecord>, s: Stamp)
    requires Increasing(Stamps(evicted + retained)) && s in Stamps(evicted + retained)
    ensures Decide(RaiseAll(map[], Stamps(retained)), s).Persist() <==> !HasKey(Stamps(retained), s.key)
  {
    hide Stamps, Increasing, RaiseAll;
    SeedAfterRetention(evicted, retained, s.key);
  }

  /**
   * What a gate that has seen `stamps` says of a detection, in numbers: first sight of its key; the next number after
   * the highest committed; a later one, with the number expected; or one not above the highest.
   */
  lemma {:induction false} DecisionMeans(stamps: seq<Stamp>, s: Stamp)
    ensures var d := Decide(RaiseAll(map[], stamps), s);
            && (d == Accept <==> !HasKey(stamps, s.key))
            && (forall p: u64 :: d == Advance(p) <==> IsHighest(stamps, s.key, p) && s.seqNo == p + 1)
            && (forall expected: nat, got: u64 :: d == Gap(expected, got) <==>
                  0 < expected < got == s.seqNo && IsHighest(stamps, s.key, expected - 1))
            && (forall p: u64, got: u64 :: d == Duplicate(p, got) <==>
                  IsHighest(stamps, s.key, p) && got == s.seqNo <= p)
  {
    hide RaiseAll;
    MarksAreMaxima(stamps);
    var marks := RaiseAll(map[], stamps);
    if s.key in marks {
      assert IsHighest(stamps, s.key, marks[s.key]);
    }
    forall p: u64, q: u64 | IsHighest(stamps, s.key, p) && IsHighest(stamps, s.key, q)
      ensures p == q
    {
      assert Stamp(s.key, p) in stamps && Stamp(s.key, q) in stamps;
    }
  }
}
