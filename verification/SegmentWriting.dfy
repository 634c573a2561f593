/** Writing a batch of records, and sealing a segment. */
module SegmentWriting {
  import opened Bytes
  import opened Wrappers
  import opened EventModel
  import opened EventLogPort
  import opened SegmentRecords
  import opened SegmentFiles
  import opened SegmentDisk
  import opened SegmentIo
  import opened SegmentState
  import opened SegmentSteps

  /** One record at the cursor of the file at `base`. */
  method WriteRecord(fmt: Format, d: Directory, base: nat, cursor: nat, e: LogEntry)
    returns (r: Result<nat, StorageError>, after: Directory, end: nat, ghost calls: seq<IoCall>)
    ensures r == (if Writable(fmt, e) then Ok(cursor) else Err(Refusal(fmt, e.producerId, e.event).value))
    ensures calls == (if Writable(fmt, e) then [WriteFile(base, cursor, RecordBytes(fmt, e))] else [])
    ensures after == ApplyAll(d, calls)
    ensures end == if Writable(fmt, e) then cursor + |RecordBytes(fmt, e)| else cursor
  {
    hide Apply, LittleEndian;
    after, end, calls := d, cursor, [];
    var encoded := fmt.encodeEvent(e.event);
    if encoded.None? {
      return Err(Corrupted), after, end, calls;
    }
    var cbor := encoded.value;
    if |cbor| > MAX_EVENT_CBOR {
      return Err(InvalidInput), after, end, calls;
    }
    var id := fmt.idBytes(e.producerId);
    if id == [] {
      return Err(InvalidInput), after, end, calls;
    }
    if |id| > MAX_PRODUCER_ID_BYTES {
      return Err(InvalidInput), after, end, calls;
    }
    var payloadLen := 8 + 8 + 2 + |id| + 4 + |cbor|;
    var crc := fmt.crc32(LittleEndian(e.offset, 8) + LittleEndian(e.appendedAtNs, 8) + LittleEndian(|id|, 2) + id
                         + LittleEndian(|cbor|, 4) + cbor);
    var buf := LittleEndian(payloadLen, 4);
    buf := buf + LittleEndian(e.offset, 8);
    buf := buf + LittleEndian(e.appendedAtNs, 8);
    buf := buf + LittleEndian(|id|, 2);
    buf := buf + id;
    buf := buf + LittleEndian(|cbor|, 4);
    buf := buf + cbor;
    buf := buf + LittleEndian(crc, 4);
    assert buf == RecordBytes(fmt, e);
    ApplyOne(d, WriteFile(base, cursor, buf));
    return Ok(cursor), Apply(d, WriteFile(base, cursor, buf)), cursor + |buf|, [WriteFile(base, cursor, buf)];
  }

  // ---- a batch ----

  /** The entries a batch becomes. */
  function Batch(next: nat, ts: u64, producerId: string, events: seq<OtkEvent>): (es: seq<LogEntry>)
    requires next + |events| <= U64_LIMIT
    ensures |es| == |events|
    ensures forall i :: 0 <= i < |es| ==> es[i] == LogEntry(next + i, ts, producerId, events[i])
  {
    seq(|events|, i requires 0 <= i < |events| => LogEntry(next + i, ts, producerId, events[i]))
  }

  /** Why the event that would get offset `next` cannot be appended, if so. */
  function Fault(fmt: Format, next: nat, producerId: string, event: OtkEvent): Option<StorageError> {
    if next >= U64_LIMIT - 1 then Some(InvalidInput) else Refusal(fmt, producerId, event)
  }

  /** The first event that cannot be appended. */
  function FirstFault(fmt: Format, next: nat, producerId: string, events: seq<OtkEvent>): (k: nat)
    ensures k <= |events|
    ensures forall j :: 0 <= j < k ==> Fault(fmt, next + j, producerId, events[j]).None?
    ensures k < |events| ==> Fault(fmt, next + k, producerId, events[k]).Some?
    decreases |events|
  {
    if events == [] || Fault(fmt, next, producerId, events[0]).Some? then 0
    else
      var k := FirstFault(fmt, next + 1, producerId, events[1..]);
      assert forall j {:trigger events[j]} :: 0 < j < |events| ==> events[j] == events[1..][j - 1];
      1 + k
  }

  /** The entries that reach the file before the batch ends or fails. */
  function Attempt(fmt: Format, next: nat, ts: u64, producerId: string, events: seq<OtkEvent>): (es: seq<LogEntry>)
    requires next < U64_LIMIT
    ensures |es| == FirstFault(fmt, next, producerId, events)
  {
    AttemptFits(fmt, next, producerId, events);
    Batch(next, ts, producerId, events[..FirstFault(fmt, next, producerId, events)])
  }

  lemma {:induction false} AttemptFits(fmt: Format, next: nat, producerId: string, events: seq<OtkEvent>)
    requires next < U64_LIMIT
    ensures next + FirstFault(fmt, next, producerId, events) < U64_LIMIT
  {
    var k := FirstFault(fmt, next, producerId, events);
    if k > 0 {
      assert Fault(fmt, next + (k - 1), producerId, events[k - 1]).None?;
    }
  }

  /** What writing a batch asks for, and where it gets to. */
  datatype Written = Written(calls: seq<IoCall>, positions: seq<nat>, end: nat, refused: Option<StorageError>)

  function Prefixed(calls: seq<IoCall>, positions: seq<nat>, w: Written): Written {
    Written(calls + w.calls, positions + w.positions, w.end, w.refused)
  }

  /** The records one after the other from `pos` on; a refused one cuts the file back to `start`. */
  function WriteEvents(fmt: Format, base: nat, start: nat, pos: nat, next: nat, ts: u64, producerId: string,
                       events: seq<OtkEvent>): Written
    decreases |events|
  {
    if events == [] then Written([], [], pos, None)
    else
      match Fault(fmt, next, producerId, events[0])
      case Some(error) => Written([SetLen(base, start)], [], pos, Some(error))
      case None =>
        var bytes := RecordBytes(fmt, LogEntry(next, ts, producerId, events[0]));
        Prefixed([WriteFile(base, pos, bytes)], [pos],
                 WriteEvents(fmt, base, start, pos + |bytes|, next + 1, ts, producerId, events[1..]))
  }

  lemma {:induction false} PrefixedTwice(calls: seq<IoCall>, positions: seq<nat>, more: seq<IoCall>, further: seq<nat>,
                                         w: Written)
    ensures Prefixed(calls, positions, Prefixed(more, further, w)) == Prefixed(calls + more, positions + further, w)
  {
    assert calls + (more + w.calls) == (calls + more) + w.calls;
    assert positions + (further + w.positions) == (positions + further) + w.positions;
  }

  /** One more event, of those from the `i`-th on. */
  lemma {:induction false} WriteEventsStep(fmt: Format, base: nat, start: nat, pos: nat, next: nat, ts: u64,
                                           producerId: string,
                                          events: seq<OtkEvent>, i: nat, calls: seq<IoCall>, positions: seq<nat>)
    requires i < |events|
    ensures var error := Fault(fmt, next, producerId, events[i]);
            var w := WriteEvents(fmt, base, start, pos, next, ts, producerId, events[i..]);
            && (error.Some? ==>
                  Prefixed(calls, positions, w) == Written(calls + [SetLen(base, start)], positions, pos, error))
            && (error.None? ==>
                  var bytes := RecordBytes(fmt, LogEntry(next, ts, producerId, events[i]));
                  Prefixed(calls, positions, w) ==
                  Prefixed(calls + [WriteFile(base, pos, bytes)], positions + [pos],
                           WriteEvents(fmt, base, start, pos + |bytes|, next + 1, ts, producerId, events[i + 1..])))
  {
    hide RecordBytes, Refusal, Prefixed;
    assert events[i..][0] == events[i] && events[i..][1..] == events[i + 1..];
    if Fault(fmt, next, producerId, events[i]).None? {
      var bytes := RecordBytes(fmt, LogEntry(next, ts, producerId, events[i]));
      PrefixedTwice(calls, positions, [WriteFile(base, pos, bytes)], [pos],
                    WriteEvents(fmt, base, start, pos + |bytes|, next + 1, ts, producerId, events[i + 1..]));
    } else {
      PrefixedNone(calls, positions, base, start, pos, Fault(fmt, next, producerId, events[i]));
    }
  }

  lemma {:induction false} PrefixedNone(calls: seq<IoCall>, positions: seq<nat>, base: nat, start: nat, pos: nat,
                                        error: Option<StorageError>)
    ensures Prefixed(calls, positions, Written([SetLen(base, start)], [], pos, error)) ==
            Written(calls + [SetLen(base, start)], positions, pos, error)
    ensures Prefixed(calls, positions, Written([], [], pos, error)) == Written(calls, positions, pos, error)
    ensures Prefixed([], [], Written(calls, positions, pos, error)) == Written(calls, positions, pos, error)
  {
  }

  /**
   * The records of a batch one after the other, from the position the file handle was moved to; a refused one undoes
   * those before.
   */
  method WriteBatch(fmt: Format, d: Directory, base: nat, start: nat, next: u64, ts: u64, producerId: string,
                    events: seq<OtkEvent>)
    returns (r: Result<seq<nat>, StorageError>, after: Directory, cursor: nat, ghost calls: seq<IoCall>)
    ensures var w := WriteEvents(fmt, base, start, start, next, ts, producerId, events);
            && r == (if w.refused.Some? then Err(w.refused.value) else Ok(w.positions))
            && cursor == w.end && calls == w.calls && after == ApplyAll(d, calls)
  {
    hide RecordBytes, WriteEvents, Apply, ApplyAll, Refusal, Prefixed;
    var positions: seq<nat> := [];
    after, cursor, calls := d, start, [];
    ghost var w := WriteEvents(fmt, base, start, start, next, ts, producerId, events);
    PrefixedNone(w.calls, w.positions, base, start, w.end, w.refused);
    ApplyNothing(d);
    assert events[0..] == events;
    var i := 0;
    while i < |events|
      invariant i <= |events| && next + i < U64_LIMIT
      invariant after == ApplyAll(d, calls)
      invariant w ==
          Prefixed(calls, positions, WriteEvents(fmt, base, start, cursor, next + i, ts, producerId, events[i..]))
    {
      var local := next + i;
      WriteEventsStep(fmt, base, start, cursor, local, ts, producerId, events, i, calls, positions);
      if local == U64_LIMIT - 1 {
        ApplyMore(d, calls, SetLen(base, start));
        return Err(InvalidInput), Apply(after, SetLen(base, start)), cursor, calls + [SetLen(base, start)];
      }
      var entry := LogEntry(local, ts, producerId, events[i]);
      var written, grown, end;
      ghost var one;
      written, grown, end, one := WriteRecord(fmt, after, base, cursor, entry);
      if written.Err? {
        ApplyMore(d, calls, SetLen(base, start));
        return Err(written.error), Apply(after, SetLen(base, start)), cursor, calls + [SetLen(base, start)];
      }
      ApplyConcat(d, calls, one);
      after, cursor, calls := grown, end, calls + one;
      positions := positions + [written.value];
      i := i + 1;
    }
    assert events[i..] == [];
    NothingToWrite(fmt, base, start, cursor, next + i, ts, producerId);
    PrefixedNone(calls, positions, base, start, cursor, None);
    return Ok(positions), after, cursor, calls;
  }

  lemma {:induction false} NothingToWrite(fmt: Format, base: nat, start: nat, pos: nat, next: nat, ts: u64,
                                          producerId: string)
    ensures WriteEvents(fmt, base, start, pos, next, ts, producerId, []) == Written([], [], pos, None)
  {
  }

  // ---- what a batch does to the log's own directory ----

  /**
   * The file `f0`, full with `h`, has grown to `f`, full with `g`: the new records are at `positions`, and not synced.
   */
  ghost predicate InBatch(fmt: Format, f0: SegFile, h: seq<LogEntry>, t: nat, f: SegFile, g: seq<LogEntry>,
                          positions: seq<nat>) {
    && History(fmt, h) && History(fmt, g) && h <= g && t <= |h|
    && Full(fmt, f, g, t)
    && f0.data <= f.data && f.synced == f0.synced <= |f0.data| == HEADER_LEN + |Stored(fmt, h, t, |h|)|
    && StoredAt(fmt, g, t, |g|) == StoredAt(fmt, h, t, |h|) + positions
  }

  lemma {:induction false} BatchStarts(fmt: Format, f: SegFile, h: seq<LogEntry>, t: nat)
    requires History(fmt, h) && t <= |h| && Full(fmt, f, h, t)
    ensures InBatch(fmt, f, h, t, f, h, [])
  {
    hide History, HasHeader, Stored, StoredAt;
    assert StoredAt(fmt, h, t, |h|) + [] == StoredAt(fmt, h, t, |h|);
  }

  /** The place with the tail file and the history replaced. */
  function Grown(p: Place, f: SegFile, g: seq<LogEntry>): Place
    requires p.cuts != []
  {
    p.(disk := Put(p.disk, Last(p.cuts), f), history := g)
  }

  lemma {:induction false} GrownAgain(p: Place, f: SegFile, g: seq<LogEntry>, w: SegFile)
    requires p.cuts != []
    ensures var q := Grown(p, f, g); var t := Last(p.cuts);
            && q.cuts == p.cuts && q.history == g && q.announced == p.announced && t in q.disk.segs
            && q.disk.segs[t] == f
            && Put(q.disk, t, w) == Put(p.disk, t, w)
    ensures Last(p.cuts) in p.disk.segs ==> Grown(p, p.disk.segs[Last(p.cuts)], p.history) == p
  {
    var t := Last(p.cuts);
    assert p.disk.segs[t := f][t := w] == p.disk.segs[t := w];
    assert t in p.disk.segs ==> p.disk.segs[t := p.disk.segs[t]] == p.disk.segs;
  }

  lemma {:induction false} RecordStep(fmt: Format, p: Place, f0: SegFile, h: seq<LogEntry>, f: SegFile,
                                      g: seq<LogEntry>, positions: seq<nat>,
                                     e: LogEntry)
    requires p.cuts != [] && InBatch(fmt, f0, h, Last(p.cuts), f, g, positions)
    requires Writable(fmt, e) && e.offset == |g| && |g| + 1 < U64_LIMIT
    ensures var w := f.(data := f.data + RecordBytes(fmt, e));
            && StepsBy(fmt, Grown(p, f, g), Record(e), WriteFile(Last(p.cuts), |f.data|, RecordBytes(fmt, e)),
                       Grown(p, w, g + [e]))
            && InBatch(fmt, f0, h, Last(p.cuts), w, g + [e], positions + [|f.data|])
  {
    hide InBatch, Grown, RecordBytes, Writable, History, HasHeader, Full, Stored, Apply;
    var t := Last(p.cuts);
    var w := f.(data := f.data + RecordBytes(fmt, e));
    InBatchParts(fmt, f0, h, t, f, g, positions);
    GrownAgain(p, f, g, w);
    AppendsTo(Grown(p, f, g).disk, t, RecordBytes(fmt, e));
    GrownIs(p, f, g, w, g + [e]);
    assert Placed(fmt, Grown(p, f, g)) && Enabled(fmt, Grown(p, f, g), Record(e));
    BatchGrows(fmt, f0, h, t, f, g, positions, e);
  }

  lemma {:induction false} BatchGrows(fmt: Format, f0: SegFile, h: seq<LogEntry>, t: nat, f: SegFile, g: seq<LogEntry>,
                                     positions: seq<nat>, e: LogEntry)
    requires InBatch(fmt, f0, h, t, f, g, positions)
    requires Writable(fmt, e) && e.offset == |g| && |g| + 1 < U64_LIMIT
    ensures InBatch(fmt, f0, h, t, f.(data := f.data + RecordBytes(fmt, e)), g + [e], positions + [|f.data|])
  {
    StoredGrows(fmt, g, e, t);
    FileGrows(fmt, f, g, t, e);
    hide History, HasHeader, Full, Stored, StoredAt, RecordBytes, Writable;
    var at := StoredAt(fmt, h, t, |h|);
    assert (at + positions) + [|f.data|] == at + (positions + [|f.data|]);
  }

  lemma {:induction false} GrownIs(p: Place, f: SegFile, g: seq<LogEntry>, w: SegFile, k: seq<LogEntry>)
    requires p.cuts != []
    ensures Grown(p, w, k) == Grown(p, f, g).(disk := Put(p.disk, Last(p.cuts), w), history := k)
  {
  }

  /** Cutting the file back to where the batch began undoes it completely. */
  lemma {:induction false} UndoStep(fmt: Format, p: Place, f0: SegFile, h: seq<LogEntry>, f: SegFile, g: seq<LogEntry>,
                                    positions: seq<nat>)
    requires p.cuts != [] && InBatch(fmt, f0, h, Last(p.cuts), f, g, positions)
    ensures StepsBy(fmt, Grown(p, f, g), TakeBack(|h|), SetLen(Last(p.cuts), |f0.data|), Grown(p, f0, h))
  {
    hide History, HasHeader, Full, Stored, StoredAt, Grown;
    var t := Last(p.cuts);
    assert g[..|h|] == h;
    StoredIgnoresTail(fmt, h, g, t, |h|);
    GrownAgain(p, f, g, f0);
    GrownIs(p, f, g, f0, h);
    assert Resized(f, |f0.data|) == f0;
    assert Placed(fmt, Grown(p, f, g)) && Enabled(fmt, Grown(p, f, g), TakeBack(|h|));
  }

  lemma {:induction false} FaultOrWritable(fmt: Format, next: nat, ts: u64, producerId: string, events: seq<OtkEvent>)
    requires next < U64_LIMIT && events != [] && Fault(fmt, next, producerId, events[0]).None?
    ensures next + 1 < U64_LIMIT && Writable(fmt, LogEntry(next, ts, producerId, events[0]))
    ensures FirstFault(fmt, next, producerId, events) == 1 + FirstFault(fmt, next + 1, producerId, events[1..])
    ensures Attempt(fmt, next, ts, producerId, events) ==
            [LogEntry(next, ts, producerId, events[0])] + Attempt(fmt, next + 1, ts, producerId, events[1..])
  {
    hide Refusal;
    assert Writable(fmt, LogEntry(next, ts, producerId, events[0]));
    var k := FirstFault(fmt, next, producerId, events);
    assert events[..k][1..] == events[1..][..k - 1];
    AttemptFits(fmt, next, producerId, events);
    AttemptFits(fmt, next + 1, producerId, events[1..]);
  }

  /** The batch is at its end, or at an event that is refused. */
  lemma {:induction false} EventsStop(fmt: Format, p: Place, f: SegFile, g: seq<LogEntry>, positions: seq<nat>, ts: u64,
                                      producerId: string,
                                     events: seq<OtkEvent>)
    returns (after: SegFile, q: seq<LogEntry>)
    requires p.cuts != [] && Last(p.cuts) in p.disk.segs && |g| < U64_LIMIT
    requires InBatch(fmt, p.disk.segs[Last(p.cuts)], p.history, Last(p.cuts), f, g, positions)
    requires events == [] || Fault(fmt, |g|, producerId, events[0]).Some?
    ensures var f0 := p.disk.segs[Last(p.cuts)];
            var w := WriteEvents(fmt, Last(p.cuts), |f0.data|, |f.data|, |g|, ts, producerId, events);
            && FirstFault(fmt, |g|, producerId, events) == 0
            && (events != [] ==> w.refused == Fault(fmt, |g|, producerId, events[0]) && after == f0 && q == p.history)
            && (events == [] ==>
                  && w.refused.None? && q == g + Attempt(fmt, |g|, ts, producerId, events) && w.end == |after.data|
                  && InBatch(fmt, f0, p.history, Last(p.cuts), after, q, positions + w.positions))
            && Does(fmt, p.history, g + Attempt(fmt, |g|, ts, producerId, events), Grown(p, f, g), w.calls,
                    Grown(p, after, q))
  {
    hide InBatch, StepsBy, Grown, RecordBytes, Refusal, Does, Attempt, Writable;
    var t, h := Last(p.cuts), p.history;
    var f0 := p.disk.segs[t];
    InBatchParts(fmt, f0, h, t, f, g, positions);
    GrownAgain(p, f, g, f);
    assert g + Attempt(fmt, |g|, ts, producerId, events) == g;
    if events == [] {
      after, q := f, g;
      DoesNothing(fmt, h, g, Grown(p, f, g));
      assert positions + [] == positions;
    } else {
      UndoStep(fmt, p, f0, h, f, g, positions);
      after, q := f0, h;
      GrownAgain(p, f0, h, f0);
      DoesOne(fmt, h, g, Grown(p, f, g), TakeBack(|h|), SetLen(t, |f0.data|), Grown(p, f0, h));
    }
  }

  /**
   * Writing a batch is one step of the writer after another; it ends with the whole batch written or with nothing of
   * it.
   */
  lemma {:induction false} EventsDo(fmt: Format, p: Place, f: SegFile, g: seq<LogEntry>, positions: seq<nat>, ts: u64,
                                    producerId: string,
                                   events: seq<OtkEvent>)
    returns (after: SegFile, q: seq<LogEntry>)
    requires p.cuts != [] && Last(p.cuts) in p.disk.segs && |g| < U64_LIMIT
    requires InBatch(fmt, p.disk.segs[Last(p.cuts)], p.history, Last(p.cuts), f, g, positions)
    ensures var f0 := p.disk.segs[Last(p.cuts)];
            var w := WriteEvents(fmt, Last(p.cuts), |f0.data|, |f.data|, |g|, ts, producerId, events);
            var k := FirstFault(fmt, |g|, producerId, events);
            && (k < |events| ==> w.refused == Fault(fmt, |g| + k, producerId,
                                                    events[k]) && after == f0 && q == p.history)
            && (k == |events| ==>
                  && w.refused.None? && q == g + Attempt(fmt, |g|, ts, producerId, events) && w.end == |after.data|
                  && InBatch(fmt, f0, p.history, Last(p.cuts), after, q, positions + w.positions))
            && Does(fmt, p.history, g + Attempt(fmt, |g|, ts, producerId, events), Grown(p, f, g), w.calls,
                    Grown(p, after, q))
    decreases |events|
  {
    hide *;
    var t, h := Last(p.cuts), p.history;
    var f0 := p.disk.segs[t];
    InBatchParts(fmt, f0, h, t, f, g, positions);
    if events == [] || Fault(fmt, |g|, producerId, events[0]).Some? {
      after, q := EventsStop(fmt, p, f, g, positions, ts, producerId, events);
    } else {
      var e := LogEntry(|g|, ts, producerId, events[0]);
      FaultOrWritable(fmt, |g|, ts, producerId, events);
      RecordStep(fmt, p, f0, h, f, g, positions, e);
      var w := f.(data := f.data + RecordBytes(fmt, e));
      after, q := EventsDo(fmt, p, w, g + [e], positions + [|f.data|], ts, producerId, events[1..]);
      EventsJoin(fmt, p, f, g, positions, ts, producerId, events, after, q);
    }
  }

  lemma {:induction false} InBatchParts(fmt: Format, f0: SegFile, h: seq<LogEntry>, t: nat, f: SegFile,
                                        g: seq<LogEntry>, positions: seq<nat>)
    requires InBatch(fmt, f0, h, t, f, g, positions)
    ensures History(fmt, h) && History(fmt, g) && h <= g && t <= |h| && |g| < U64_LIMIT && Full(fmt, f, g, t)
    ensures |f.data| == HEADER_LEN + |Stored(fmt, g, t, |g|)| && f.synced <= |f0.data| <= |f.data|
    ensures |f0.data| == HEADER_LEN + |Stored(fmt, h, t, |h|)|
    ensures StoredAt(fmt, g, t, |g|) == StoredAt(fmt, h, t, |h|) + positions
  {
    hide HasHeader, Stored, StoredAt;
  }

  /** The first record's step before those of the others. */
  lemma {:induction false} EventsJoin(fmt: Format, p: Place, f: SegFile, g: seq<LogEntry>, positions: seq<nat>, ts: u64,
                                      producerId: string,
                                     events: seq<OtkEvent>, after: SegFile, q: seq<LogEntry>)
    requires p.cuts != [] && Last(p.cuts) in p.disk.segs && |g| < U64_LIMIT && events != [] && p.history <= g
    requires Fault(fmt, |g|, producerId, events[0]).None? && Writable(fmt, LogEntry(|g|, ts, producerId, events[0]))
    requires |g| + 1 < U64_LIMIT
    requires var e := LogEntry(|g|, ts, producerId, events[0]);
             var w := f.(data := f.data + RecordBytes(fmt, e));
             var rest := WriteEvents(fmt, Last(p.cuts), |p.disk.segs[Last(p.cuts)].data|, |w.data|, |g| + 1, ts,
                                     producerId, events[1..]);
             && StepsBy(fmt, Grown(p, f, g), Record(e), WriteFile(Last(p.cuts), |f.data|, RecordBytes(fmt, e)),
                        Grown(p, w, g + [e]))
             && Does(fmt, p.history, (g + [e]) + Attempt(fmt, |g| + 1, ts, producerId, events[1..]),
                     Grown(p, w, g + [e]), rest.calls,
                     Grown(p, after, q))
    ensures var start := |p.disk.segs[Last(p.cuts)].data|;
            var all := WriteEvents(fmt, Last(p.cuts), start, |f.data|, |g|, ts, producerId, events);
            var rest := WriteEvents(fmt, Last(p.cuts), start,
                                    |f.data| + |RecordBytes(fmt, LogEntry(|g|, ts, producerId, events[0]))|,
                                    |g| + 1, ts, producerId, events[1..]);
            && all.refused == rest.refused && all.end == rest.end
            && positions + all.positions == (positions + [|f.data|]) + rest.positions
            && g + Attempt(fmt, |g|, ts, producerId, events) ==
               (g + [LogEntry(|g|, ts, producerId, events[0])]) + Attempt(fmt, |g| + 1, ts, producerId, events[1..])
            && Does(fmt, p.history, g + Attempt(fmt, |g|, ts, producerId, events), Grown(p, f, g), all.calls,
                    Grown(p, after, q))
  {
    hide StepsBy, RecordBytes, Refusal, Does, Attempt, Writable;
    FaultOrWritable(fmt, |g|, ts, producerId, events);
    var e := LogEntry(|g|, ts, producerId, events[0]);
    var w := f.(data := f.data + RecordBytes(fmt, e));
    var call := WriteFile(Last(p.cuts), |f.data|, RecordBytes(fmt, e));
    var rest := WriteEvents(fmt, Last(p.cuts), |p.disk.segs[Last(p.cuts)].data|, |w.data|, |g| + 1, ts, producerId,
                            events[1..]);
    var high := g + Attempt(fmt, |g|, ts, producerId, events);
    assert high == (g + [e]) + Attempt(fmt, |g| + 1, ts, producerId, events[1..]);
    DoesOne(fmt, p.history, high, Grown(p, f, g), Record(e), call, Grown(p, w, g + [e]));
    DoesOn(fmt, p.history, high, Grown(p, f, g), [call], Grown(p, w, g + [e]), rest.calls, Grown(p, after, q));
  }

  // ---- sealing ----

  /** fsync, sentinel, fsync, index, watermark: the order in which a segment is closed. */
  function SealCalls(a: ActiveSegment, next: u64): seq<IoCall> {
    [SyncFile(a.baseOffset), WriteFile(a.baseOffset, a.cursor, SENTINEL), SyncFile(a.baseOffset),
     PutIndex(a.baseOffset, a.positions), PutWatermark(next)]
  }

  /** What the closed list says of a segment just sealed. */
  function SealedAs(d: Directory, a: ActiveSegment): ClosedSegment
    requires a.positions != []
  {
    ClosedSegment(a.baseOffset, a.baseOffset + |a.positions| - 1, a.lastAppendedAtNs, |FileOf(d, a.baseOffset).data|,
                  a.positions)
  }

  method SealSegment(d: Directory, a: ActiveSegment, next: u64)
    returns (after: Directory, closed: ClosedSegment, ghost calls: seq<IoCall>)
    requires a.positions != []
    ensures calls == SealCalls(a, next) && after == ApplyAll(d, calls)
    ensures closed == SealedAs(after, a)
  {
    hide WriteAt;
    var base := a.baseOffset;
    after := Apply(d, SyncFile(base));
    after := Apply(after, WriteFile(base, a.cursor, SENTINEL));
    after := Apply(after, SyncFile(base));
    after := Apply(after, PutIndex(base, a.positions));
    var segSize := |FileOf(after, base).data|;
    var lastOffset := base + |a.positions| - 1;
    closed := ClosedSegment(base, lastOffset, a.lastAppendedAtNs, segSize, a.positions);
    after := Apply(after, PutWatermark(next));
    calls := SealCalls(a, next);
    FiveApply(d, calls);
  }

  lemma {:induction false} FiveApply(d: Directory, calls: seq<IoCall>)
    requires |calls| == 5
    ensures ApplyAll(d, calls) == Apply(Apply(Apply(Apply(Apply(d, calls[0]), calls[1]), calls[2]), calls[3]), calls[4])
  {
    hide Apply, ApplyAll;
    assert calls[1..][1..] == calls[2..] && calls[2..][1..] == calls[3..] && calls[3..][1..] == calls[4..];
    assert calls[4..][1..] == [];
    var d4 := Apply(Apply(Apply(Apply(d, calls[0]), calls[1]), calls[2]), calls[3]);
    ApplyFirst(d, calls);
    ApplyFirst(Apply(d, calls[0]), calls[1..]);
    ApplyFirst(Apply(Apply(d, calls[0]), calls[1]), calls[2..]);
    ApplyFirst(Apply(Apply(Apply(d, calls[0]), calls[1]), calls[2]), calls[3..]);
    ApplyFirst(d4, calls[4..]);
    ApplyNothing(Apply(d4, calls[4]));
  }

  lemma {:induction false} LastOf(cuts: seq<nat>, x: nat)
    ensures Last(cuts + [x]) == x
    ensures cuts != [] ==> (cuts + [x])[0] == cuts[0]
  {
  }

  lemma {:induction false} SealingSteps(fmt: Format, p: Place, a: ActiveSegment)
    requires Placed(fmt, p) && TailFull(fmt, p) && a.cursor == |p.disk.segs[Last(p.cuts)].data|
    ensures var t, h := Last(p.cuts), p.history;
            var f := p.disk.segs[t];
            var sealed := f.data + SENTINEL;
            var p1, p2 := Grown(p, Synced(f), h), Grown(p, SegFile(sealed, |f.data|), h);
            var p3 := Grown(p, SegFile(sealed, |sealed|), h);
            && StepsBy(fmt, p, Sync, SyncFile(t), p1)
            && StepsBy(fmt, p1, SegmentSteps.Sentinel, WriteFile(t, a.cursor, SENTINEL), p2)
            && StepsBy(fmt, p2, SyncSealed, SyncFile(t), p3)
            && Placed(fmt, p3) && TailSealed(fmt, p3) && TailSynced(fmt, p3)
  {
    hide History, Stored, HasHeader, StoredAt, Sealed, Full, Grown, WriteAt;
    var h, t := p.history, Last(p.cuts);
    var f := p.disk.segs[t];
    FullSynced(fmt, f, h, t);
    SealedFile(fmt, f, h, t);
    var sealed := f.data + SENTINEL;
    var p1, p2 := Grown(p, Synced(f), h), Grown(p, SegFile(sealed, |f.data|), h);
    var p3 := Grown(p, SegFile(sealed, |sealed|), h);
    GrownAgain(p, Synced(f), h, SegFile(sealed, |f.data|));
    GrownAgain(p, SegFile(sealed, |f.data|), h, SegFile(sealed, |sealed|));
    GrownAgain(p, SegFile(sealed, |sealed|), h, f);
    GrownIs(p, f, h, Synced(f), h);
    GrownIs(p, Synced(f), h, SegFile(sealed, |f.data|), h);
    GrownIs(p, SegFile(sealed, |f.data|), h, SegFile(sealed, |sealed|), h);
    AppendsTo(p1.disk, t, SENTINEL);
  }

  /** The three calls that complete the file. */
  lemma {:induction false} SealingFile(fmt: Format, p: Place, a: ActiveSegment) returns (q: Place)
    requires Placed(fmt, p) && TailFull(fmt, p) && Last(p.cuts) < |p.history| && |p.history| !in p.disk.segs
    requires a.baseOffset == Last(p.cuts) && a.cursor == |p.disk.segs[Last(p.cuts)].data|
    ensures Does(fmt, p.history, p.history, p,
                 [SyncFile(a.baseOffset), WriteFile(a.baseOffset, a.cursor, SENTINEL), SyncFile(a.baseOffset)], q)
    ensures q.history == p.history && q.cuts == p.cuts && q.announced == p.announced
    ensures Placed(fmt, q) && TailSealed(fmt, q) && TailSynced(fmt, q) && Last(p.cuts) in q.disk.segs
    ensures q.disk.watermark == p.disk.watermark && SameBelow(p.disk, q.disk, Last(p.cuts))
    ensures |p.history| !in q.disk.segs
  {
    hide StepsBy, Does, WriteAt, Apply, TailFull, TailSealed, TailSynced, Placed, Grown, SameBelow;
    PlacedParts(fmt, p);
    var h, t := p.history, Last(p.cuts);
    var f := p.disk.segs[t];
    SealingSteps(fmt, p, a);
    var sealed := f.data + SENTINEL;
    var p1, p2 := Grown(p, Synced(f), h), Grown(p, SegFile(sealed, |f.data|), h);
    q := Grown(p, SegFile(sealed, |sealed|), h);
    GrownAgain(p, Synced(f), h, f);
    GrownAgain(p, SegFile(sealed, |f.data|), h, f);
    GrownAgain(p, SegFile(sealed, |sealed|), h, f);
    GrownElsewhere(p, SegFile(sealed, |sealed|), h);
    DoesOne(fmt, h, h, p, Sync, SyncFile(t), p1);
    DoesMore(fmt, h, h, p, [SyncFile(t)], p1, SegmentSteps.Sentinel, WriteFile(t, a.cursor, SENTINEL), p2);
    DoesMore(fmt, h, h, p, [SyncFile(t)] + [WriteFile(t, a.cursor, SENTINEL)], p2, SyncSealed, SyncFile(t), q);
    assert [SyncFile(t)] + [WriteFile(t, a.cursor, SENTINEL)] + [SyncFile(t)] ==
           [SyncFile(t), WriteFile(t, a.cursor, SENTINEL), SyncFile(t)];
  }

  lemma {:induction false} SealedFile(fmt: Format, f: SegFile, h: seq<LogEntry>, t: nat)
    requires History(fmt, h) && t <= |h| && Full(fmt, f, h, t)
    ensures Full(fmt, Synced(f), h, t)
    ensures forall n :: Sealed(fmt, SegFile(f.data + SENTINEL, n), h, t)
  {
    hide History, Stored, HasHeader;
    HasHeaderLonger(f.data, SENTINEL, t);
    assert (f.data + SENTINEL)[HEADER_LEN..] == f.data[HEADER_LEN..] + SENTINEL;
  }

  lemma {:induction false} GrownElsewhere(p: Place, f: SegFile, g: seq<LogEntry>)
    requires p.cuts != []
    ensures var q := Grown(p, f, g);
            && SameBelow(p.disk, q.disk, Last(p.cuts)) && q.disk.watermark == p.disk.watermark
            && q.disk.idxs == p.disk.idxs
            && forall b :: b != Last(p.cuts) ==> (b in q.disk.segs <==> b in p.disk.segs)
  {
  }

  lemma {:induction false} IndexSteps(fmt: Format, p3: Place, a: ActiveSegment, p4: Place, q: Place)
    requires Placed(fmt, p3) && TailSealed(fmt, p3) && TailSynced(fmt, p3)
    requires Last(p3.cuts) < |p3.history| && |p3.history| !in p3.disk.segs
    requires a.baseOffset == Last(p3.cuts) && a.positions == StoredAt(fmt, p3.history, Last(p3.cuts), |p3.history|)
    requires p4 == p3.(disk := Apply(p3.disk, PutIndex(Last(p3.cuts), a.positions)), cuts := p3.cuts + [|p3.history|])
    requires q == p4.(disk := Apply(p4.disk, PutWatermark(|p3.history|)))
    ensures StepsBy(fmt, p3, Index, PutIndex(a.baseOffset, a.positions), p4)
    ensures StepsBy(fmt, p4, Watermark, PutWatermark(|p3.history|), q)
    ensures q.disk.watermark == Some(|p3.history|) && SameBelow(p3.disk, q.disk, Last(p3.cuts))
    ensures q.disk.segs == p3.disk.segs
  {
    hide History, Stored, Sealed, Full, StoredAt;
    LastOf(p3.cuts, |p3.history|);
  }

  lemma {:induction false} SameBelowOn(d: Directory, c: Directory, e: Directory, t: nat)
    requires SameBelow(d, c, t) && SameBelow(c, e, t)
    ensures SameBelow(d, e, t)
  {
  }

  lemma {:induction false} PlacedParts(fmt: Format, p: Place)
    requires Placed(fmt, p)
    ensures History(fmt, p.history) && p.cuts != [] && Last(p.cuts) <= |p.history|
    ensures TailFull(fmt, p) ==> Last(p.cuts) in p.disk.segs
  {
    hide History, Full;
  }

  /** The place after each of the five calls of sealing. */
  lemma {:induction false} SealDoes(fmt: Format, p: Place, a: ActiveSegment)
    returns (q: Place)
    requires Placed(fmt, p) && TailFull(fmt, p) && Last(p.cuts) < |p.history| && |p.history| !in p.disk.segs
    requires a.baseOffset == Last(p.cuts) && a.positions == StoredAt(fmt, p.history, Last(p.cuts), |p.history|)
    requires a.cursor == |p.disk.segs[Last(p.cuts)].data|
    ensures Does(fmt, p.history, p.history, p, SealCalls(a, |p.history|), q)
    ensures q.history == p.history && q.cuts == p.cuts + [|p.history|] && q.announced == p.announced
    ensures q.disk.watermark == Some(|p.history|) && SameBelow(p.disk, q.disk, Last(p.cuts))
    ensures |p.history| !in q.disk.segs && Last(p.cuts) in q.disk.segs
  {
    hide StepsBy, Does, TailFull, TailSealed, TailSynced, Placed, StoredAt, SameBelow, Apply;
    PlacedParts(fmt, p);
    var h, t := p.history, Last(p.cuts);
    var p3 := SealingFile(fmt, p, a);
    LastOf(p.cuts, |h|);
    var p4 := p3.(disk := Apply(p3.disk, PutIndex(t, a.positions)), cuts := p.cuts + [|h|]);
    q := p4.(disk := Apply(p4.disk, PutWatermark(|h|)));
    IndexSteps(fmt, p3, a, p4, q);
    SameBelowOn(p.disk, p3.disk, q.disk, t);
    var three := [SyncFile(t), WriteFile(t, a.cursor, SENTINEL), SyncFile(t)];
    DoesMore(fmt, h, h, p, three, p3, Index, PutIndex(t, a.positions), p4);
    DoesMore(fmt, h, h, p, three + [PutIndex(t, a.positions)], p4, Watermark, PutWatermark(|h|), q);
    assert three + [PutIndex(t, a.positions)] + [PutWatermark(|h|)] == SealCalls(a, |h|);
  }

  /** The calls of an append that is not refused cut no file. */
  lemma {:induction false} WritesCutNothing(fmt: Format, base: nat, start: nat, pos: nat, next: nat, ts: u64,
                                            producerId: string,
                                           events: seq<OtkEvent>)
    requires FirstFault(fmt, next, producerId, events) == |events|
    ensures forall c :: c in WriteEvents(fmt, base, start, pos, next, ts, producerId, events).calls ==> c.WriteFile?
    ensures WriteEvents(fmt, base, start, pos, next, ts, producerId, events).refused.None?
    decreases |events|
  {
    hide RecordBytes, Refusal;
    if events != [] {
      var bytes := RecordBytes(fmt, LogEntry(next, ts, producerId, events[0]));
      WritesCutNothing(fmt, base, start, pos + |bytes|, next + 1, ts, producerId, events[1..]);
    }
  }
}
