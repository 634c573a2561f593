/** The single steps that append, roll and retention consist of, and the calls they are. */
module SegmentSteps {
  import opened Bytes
  import opened Wrappers
  import opened EventLogPort
  import opened SegmentRecords
  import opened SegmentFiles
  import opened SegmentDisk
  import opened SegmentIo

  /**
   * Where the writer is: the directory, everything written so far, where the segments start, and how much of what was
   * written its waiters have been told of.
   */
  datatype Place = Place(disk: Directory, history: seq<LogEntry>, cuts: seq<nat>, announced: nat)

  datatype WriterStep =
    | Create
    | Header(createdAtNs: u64)
    | Record(entry: LogEntry)
    | TakeBack(kept: nat)
    | Sync
    | Announce
    | Sentinel
    | SyncSealed
    | Index
    | Watermark
    | DeleteSegment
    | DeleteIndex(base: nat)

  ghost predicate Placed(fmt: Format, p: Place) {
    History(fmt, p.history) && p.cuts != [] && Last(p.cuts) <= |p.history|
  }

  /** The file being written holds its header and every entry from its base on, and nothing else. */
  ghost predicate TailFull(fmt: Format, p: Place)
    requires Placed(fmt, p)
  {
    Last(p.cuts) in p.disk.segs && Full(fmt, p.disk.segs[Last(p.cuts)], p.history, Last(p.cuts))
  }

  ghost predicate TailSealed(fmt: Format, p: Place)
    requires Placed(fmt, p)
  {
    Last(p.cuts) in p.disk.segs && Sealed(fmt, p.disk.segs[Last(p.cuts)], p.history, Last(p.cuts))
  }

  ghost predicate TailSynced(fmt: Format, p: Place)
    requires Placed(fmt, p) && Last(p.cuts) in p.disk.segs
  {
    p.disk.segs[Last(p.cuts)].synced == |p.disk.segs[Last(p.cuts)].data|
  }

  /** When each step happens. */
  ghost predicate Enabled(fmt: Format, p: Place, step: WriterStep)
    requires Placed(fmt, p)
  {
    var t := Last(p.cuts);
    match step
    case Create => t !in p.disk.segs && t == |p.history|
    case Header(_) => t in p.disk.segs && p.disk.segs[t] == SegFile([], 0) && t == |p.history|
    case Record(e) => TailFull(fmt, p) && Writable(fmt, e) && e.offset == |p.history| && |p.history| + 1 < U64_LIMIT
    case TakeBack(k) => TailFull(fmt, p) && t <= k <= |p.history|
    case Sync => TailFull(fmt, p)
    case Announce => TailFull(fmt, p) && TailSynced(fmt, p)
    case Sentinel => TailFull(fmt, p)
    case SyncSealed => TailSealed(fmt, p)
    case Index => TailSealed(fmt, p) && TailSynced(fmt, p) && t < |p.history|
    case Watermark => t !in p.disk.segs
    case DeleteSegment => |p.cuts| > 1 && (t in p.disk.segs || p.disk.watermark == Some(t))
    case DeleteIndex(b) => b !in p.disk.segs
  }

  /** The call that makes the step. */
  function CallOf(fmt: Format, p: Place, step: WriterStep): IoCall
    requires Placed(fmt, p) && Enabled(fmt, p, step)
  {
    var t := Last(p.cuts);
    match step
    case Create => CreateFile(t)
    case Header(ts) => WriteFile(t, 0, HeaderBytes(SegmentHeader(t, ts)))
    case Record(e) => WriteFile(t, |p.disk.segs[t].data|, RecordBytes(fmt, e))
    case TakeBack(k) => SetLen(t, HEADER_LEN + |Stored(fmt, p.history, t, k)|)
    case Sync => SyncFile(t)
    case Announce => NotifyWaiters
    case Sentinel => WriteFile(t, |p.disk.segs[t].data|, SENTINEL)
    case SyncSealed => SyncFile(t)
    case Index => PutIndex(t, StoredAt(fmt, p.history, t, |p.history|))
    case Watermark => PutWatermark(t)
    case DeleteSegment => Unlink(p.cuts[0])
    case DeleteIndex(b) => UnlinkIndex(b)
  }

  function NextPlace(fmt: Format, p: Place, step: WriterStep): Place
    requires Placed(fmt, p) && Enabled(fmt, p, step)
  {
    var q := p.(disk := Apply(p.disk, CallOf(fmt, p, step)));
    match step
    case Record(e) => q.(history := p.history + [e])
    case TakeBack(k) => q.(history := p.history[..k])
    case Announce => q.(announced := |p.history|)
    case Index => q.(cuts := p.cuts + [|p.history|])
    case DeleteSegment => q.(cuts := p.cuts[1..])
    case _ => q
  }

  ghost predicate Steps(fmt: Format, p: Place, step: WriterStep, q: Place) {
    Placed(fmt, p) && Enabled(fmt, p, step) && q == NextPlace(fmt, p, step)
  }

  // ---- what the steps do to the directory ----

  lemma {:induction false} HeaderWrites(d: Directory, t: nat, bytes: seq<byte>)
    requires t in d.segs && d.segs[t] == SegFile([], 0)
    ensures Apply(d, WriteFile(t, 0, bytes)) == Put(d, t, SegFile(bytes, 0))
  {
    assert [] + bytes + [] == bytes;
  }

  lemma {:induction false} AppendsTo(d: Directory, t: nat, bytes: seq<byte>)
    requires t in d.segs && d.segs[t].synced <= |d.segs[t].data|
    ensures Apply(d, WriteFile(t, |d.segs[t].data|, bytes)) == Put(d, t, d.segs[t].(data := d.segs[t].data + bytes))
  {
    WriteAtEnd(d.segs[t], bytes);
  }

  lemma {:induction false} FullSynced(fmt: Format, f: SegFile, h: seq<LogEntry>, t: nat)
    requires History(fmt, h) && t <= |h| && Full(fmt, f, h, t)
    ensures f.synced <= |f.data| == HEADER_LEN + |Stored(fmt, h, t, |h|)|
  {
    hide History, HasHeader, Stored;
  }

  lemma {:induction false} WriteKeeps(fmt: Format, p: Place, step: WriterStep, q: Place, n: nat)
    requires Steps(fmt, p, step, q) && DiskOk(fmt, p.disk, p.history, p.cuts, n) && n <= |q.history|
    requires step.Header? || step.Record? || step.Sentinel?
    ensures DiskOk(fmt, q.disk, q.history, p.cuts, n)
  {
    var t := Last(p.cuts);
    hide History, DiskOk, Full, Sealed, Stored, StoredAt, RecordBytes, HeaderBytes, Put, Apply, Writable;
    DiskHistory(fmt, p.disk, p.history, p.cuts, n);
    match step {
      case Header(ts) =>
        HeaderKeeps(fmt, p.disk, p.history, p.cuts, n, ts);
        HeaderWrites(p.disk, t, HeaderBytes(SegmentHeader(t, ts)));
      case Record(e) =>
        FullSynced(fmt, p.disk.segs[t], p.history, t);
        RecordKeeps(fmt, p.disk, p.history, p.cuts, n, e);
        AppendsTo(p.disk, t, RecordBytes(fmt, e));
      case Sentinel =>
        FullSynced(fmt, p.disk.segs[t], p.history, t);
        SentinelKeeps(fmt, p.disk, p.history, p.cuts, n);
        AppendsTo(p.disk, t, SENTINEL);
    }
  }

  lemma {:induction false} FileKeeps(fmt: Format, p: Place, step: WriterStep, q: Place, n: nat)
    requires Steps(fmt, p, step, q) && DiskOk(fmt, p.disk, p.history, p.cuts, n) && n <= |q.history|
    requires step.Create? || step.TakeBack? || step.Sync? || step.SyncSealed?
    ensures DiskOk(fmt, q.disk, q.history, p.cuts, n)
  {
    hide History, DiskOk, Full, Sealed, Stored, StoredAt, Put, WriteAt;
    DiskHistory(fmt, p.disk, p.history, p.cuts, n);
    match step {
      case Create => CreateKeeps(fmt, p.disk, p.history, p.cuts, n);
      case TakeBack(k) => TakeBackKeeps(fmt, p.disk, p.history, p.cuts, n, k);
      case Sync =>
        SyncKeeps(fmt, p.disk, p.history, p.cuts, n);
        CertainLess(fmt, q.disk, p.history, p.cuts, |p.history|, n);
      case SyncSealed => SealSyncKeeps(fmt, p.disk, p.history, p.cuts, n);
    }
  }

  lemma {:induction false} CutsStay(fmt: Format, p: Place, step: WriterStep, q: Place)
    requires Steps(fmt, p, step, q) && !step.Index? && !step.DeleteSegment?
    ensures q.cuts == p.cuts
  {
    hide Placed, Enabled, CallOf, Apply;
  }

  /** Every step leaves a recoverable directory recoverable; what was certain and is not taken back stays certain. */
  lemma {:induction false} StepKeeps(fmt: Format, p: Place, step: WriterStep, q: Place, n: nat)
    requires Steps(fmt, p, step, q) && DiskOk(fmt, p.disk, p.history, p.cuts, n) && n <= |q.history|
    ensures DiskOk(fmt, q.disk, q.history, q.cuts, n) && q.cuts != [] && p.cuts[0] <= q.cuts[0]
  {
    hide History, DiskOk, Full, Sealed, Stored, StoredAt, Put, WriteAt, RecordBytes, HeaderBytes, Writable;
    DiskHistory(fmt, p.disk, p.history, p.cuts, n);
    if step.Header? || step.Record? || step.Sentinel? {
      WriteKeeps(fmt, p, step, q, n);
      CutsStay(fmt, p, step, q);
    } else if step.Create? || step.TakeBack? || step.Sync? || step.SyncSealed? {
      FileKeeps(fmt, p, step, q, n);
      CutsStay(fmt, p, step, q);
    } else {
      match step {
        case Index => IndexKeeps(fmt, p.disk, p.history, p.cuts, n);
        case Watermark => WatermarkKeeps(fmt, p.disk, p.history, p.cuts, n);
        case DeleteSegment =>
          RemoveFirstKeeps(fmt, p.disk, p.history, p.cuts, n);
          FirstIncreases(fmt, p.disk, p.history, p.cuts, n);
        case DeleteIndex(b) => RemoveIndexKeeps(fmt, p.disk, p.history, p.cuts, n, b);
        case Announce =>
      }
    }
  }

  lemma {:induction false} FirstIncreases(fmt: Format, d: Directory, h: seq<LogEntry>, cuts: seq<nat>, n: nat)
    requires DiskOk(fmt, d, h, cuts, n) && |cuts| > 1
    ensures cuts[0] < cuts[1]
  {
    hide ClosedOk, TailOk, NoOthers, History;
    CutsIncrease(fmt, d, h, cuts, 0, 1);
  }

  // ---- chains of steps ----

  /**
   * The calls take the writer from `p` to `q`, each of them one step. What has been written is never less than `low`
   * and never more than `high`.
   */
  ghost predicate Does(fmt: Format, low: seq<LogEntry>, high: seq<LogEntry>, p: Place, calls: seq<IoCall>, q: Place)
    decreases |calls|
  {
    && low <= p.history <= high
    && if calls == [] then p == q
       else exists step, m :: StepsBy(fmt, p, step, calls[0], m) && Does(fmt, low, high, m, calls[1..], q)
  }

  ghost predicate StepsBy(fmt: Format, p: Place, step: WriterStep, call: IoCall, q: Place) {
    Steps(fmt, p, step, q) && call == CallOf(fmt, p, step)
  }

  lemma {:induction false} StepApplies(fmt: Format, p: Place, step: WriterStep, call: IoCall, q: Place)
    requires StepsBy(fmt, p, step, call, q)
    ensures q.disk == Apply(p.disk, call)
  {
    hide Placed, Enabled, CallOf, Apply;
  }

  lemma {:induction false} DoesOne(fmt: Format, low: seq<LogEntry>, high: seq<LogEntry>, p: Place, step: WriterStep,
                                   call: IoCall, q: Place)
    requires StepsBy(fmt, p, step, call, q) && low <= p.history <= high && low <= q.history <= high
    ensures Does(fmt, low, high, p, [call], q)
  {
    hide StepsBy;
    var calls := [call];
    assert calls[0] == call && calls[1..] == [];
    assert Does(fmt, low, high, q, [], q);
    assert StepsBy(fmt, p, step, calls[0], q) && Does(fmt, low, high, q, calls[1..], q);
  }

  lemma {:induction false} DoesOn(fmt: Format, low: seq<LogEntry>, high: seq<LogEntry>, p: Place, a: seq<IoCall>,
                                  m: Place,
                                 b: seq<IoCall>, q: Place)
    requires Does(fmt, low, high, p, a, m) && Does(fmt, low, high, m, b, q)
    ensures Does(fmt, low, high, p, a + b, q)
    decreases |a|
  {
    hide StepsBy;
    if a == [] {
      assert a + b == b;
    } else {
      assert (a + b)[1..] == a[1..] + b && (a + b)[0] == a[0];
      var step, next :| StepsBy(fmt, p, step, a[0], next) && Does(fmt, low, high, next, a[1..], m);
      DoesOn(fmt, low, high, next, a[1..], m, b, q);
    }
  }

  lemma {:induction false} DoesMore(fmt: Format, low: seq<LogEntry>, high: seq<LogEntry>, p: Place, calls: seq<IoCall>,
                                    m: Place,
                                   step: WriterStep, call: IoCall, q: Place)
    requires Does(fmt, low, high, p, calls, m) && StepsBy(fmt, m, step, call, q) && low <= q.history <= high
    ensures Does(fmt, low, high, p, calls + [call], q)
  {
    hide StepsBy;
    DoesEnds(fmt, low, high, p, calls, m);
    DoesOne(fmt, low, high, m, step, call, q);
    hide Does;
    DoesOn(fmt, low, high, p, calls, m, [call], q);
  }

  lemma {:induction false} DoesEnds(fmt: Format, low: seq<LogEntry>, high: seq<LogEntry>, p: Place, calls: seq<IoCall>,
                                    q: Place)
    requires Does(fmt, low, high, p, calls, q)
    ensures low <= p.history <= high && low <= q.history <= high && q.disk == ApplyAll(p.disk, calls)
    decreases |calls|
  {
    hide StepsBy, Apply;
    if calls != [] {
      var step, m :| StepsBy(fmt, p, step, calls[0], m) && Does(fmt, low, high, m, calls[1..], q);
      StepApplies(fmt, p, step, calls[0], m);
      DoesEnds(fmt, low, high, m, calls[1..], q);
    }
  }

  lemma {:induction false} DoesWider(fmt: Format, low: seq<LogEntry>, high: seq<LogEntry>, p: Place, calls: seq<IoCall>,
                                     q: Place,
                                    lower: seq<LogEntry>, higher: seq<LogEntry>)
    requires Does(fmt, low, high, p, calls, q) && lower <= low && high <= higher
    ensures Does(fmt, lower, higher, p, calls, q)
    decreases |calls|
  {
    hide StepsBy;
    assert lower <= p.history <= higher;
    if calls != [] {
      var step, m :| StepsBy(fmt, p, step, calls[0], m) && Does(fmt, low, high, m, calls[1..], q);
      DoesWider(fmt, low, high, m, calls[1..], q, lower, higher);
    }
  }

  /** Where the writer is after the first `i` calls. */
  lemma {:induction false} DoesPrefix(fmt: Format, low: seq<LogEntry>, high: seq<LogEntry>, p: Place,
                                      calls: seq<IoCall>, q: Place, i: nat)
    returns (m: Place)
    requires Does(fmt, low, high, p, calls, q) && i <= |calls|
    ensures Does(fmt, low, high, p, calls[..i], m) && Does(fmt, low, high, m, calls[i..], q)
    decreases i
  {
    hide StepsBy;
    if i == 0 {
      m := p;
      assert calls[0..] == calls && calls[..0] == [];
    } else {
      var step, next :| StepsBy(fmt, p, step, calls[0], next) && Does(fmt, low, high, next, calls[1..], q);
      m := DoesPrefix(fmt, low, high, next, calls[1..], q, i - 1);
      assert calls[..i][1..] == calls[1..][..i - 1] && calls[1..][i - 1..] == calls[i..] && calls[..i][0] == calls[0];
    }
  }

  /**
   * After any of the calls the directory is recoverable, with the same entries certain, and the window has not moved
   * back.
   */
  lemma {:induction false} DoesKeeps(fmt: Format, low: seq<LogEntry>, high: seq<LogEntry>, p: Place, calls: seq<IoCall>,
                                     q: Place, n: nat)
    requires Does(fmt, low, high, p, calls, q) && DiskOk(fmt, p.disk, p.history, p.cuts, n) && n <= |low|
    ensures DiskOk(fmt, q.disk, q.history, q.cuts, n) && p.cuts != [] && q.cuts != [] && p.cuts[0] <= q.cuts[0]
    decreases |calls|
  {
    hide DiskOk, Steps, Apply, CallOf;
    DiskHistory(fmt, p.disk, p.history, p.cuts, n);
    if calls != [] {
      var step, m :| StepsBy(fmt, p, step, calls[0], m) && Does(fmt, low, high, m, calls[1..], q);
      DoesEnds(fmt, low, high, m, calls[1..], q);
      StepKeeps(fmt, p, step, m, n);
      DoesKeeps(fmt, low, high, m, calls[1..], q, n);
    }
  }

  lemma {:induction false} DoesNothing(fmt: Format, low: seq<LogEntry>, high: seq<LogEntry>, p: Place)
    requires low <= p.history <= high
    ensures Does(fmt, low, high, p, [], p)
  {
  }
}
