/** What readers of the log's directory can see while the log writes, rolls and evicts. */
module SegmentWorld {
  import opened Bytes
  import opened EventLogPort
  import opened SegmentRecords
  import opened SegmentFiles
  import opened SegmentDisk
  import opened SegmentIo
  import opened SegmentSteps
  import opened SegmentRecovery

  /** What readers see of a directory: bytes, synced or not. */
  function Visible(d: Directory): Directory {
    d.(segs := map b | b in d.segs :: SegFile(d.segs[b].data, |d.segs[b].data|))
  }

  /** The bytes of every file ever seen: an open handle keeps reading a file after it is deleted. */
  function Saw(contents: map<nat, seq<byte>>, d: Directory): map<nat, seq<byte>> {
    map b | b in contents.Keys + d.segs.Keys :: if b in d.segs then d.segs[b].data else contents[b]
  }

  /**
   * The visible directory, the history written so far, and how much of it has been announced to waiters. `contents`
   * holds every file created so far. `ends` says where closed ones end.
   */
  datatype World = World(disk: Directory, history: seq<LogEntry>, cuts: seq<nat>, announced: nat,
                         contents: map<nat, seq<byte>>, ends: map<nat, nat>)

  /** A complete segment file for offsets `b` up to `e`. */
  ghost predicate SealedUpTo(fmt: Format, data: seq<byte>, h: seq<LogEntry>, b: nat, e: nat) {
    && History(fmt, h) && b <= e <= |h| && |data| >= HEADER_LEN && data[HEADER_LEN..] == Stored(fmt, h, b, e) + SENTINEL
  }

  ghost predicate SeesFiles(w: World) {
    forall b :: b in w.disk.segs ==>
      b in w.contents && w.contents[b] == w.disk.segs[b].data && w.disk.segs[b].synced == |w.disk.segs[b].data|
  }

  ghost predicate KnowsEnds(fmt: Format, w: World)
    requires w.cuts != []
  {
    && Last(w.cuts) !in w.ends
    && (forall b :: b in w.contents ==> b in w.ends || (b == Last(w.cuts) && b in w.disk.segs))
    && (forall b :: b in w.ends ==>
          b in w.contents && b < w.ends[b] <= Last(w.cuts) && SealedUpTo(fmt, w.contents[b], w.history, b, w.ends[b]))
    && (forall i :: 0 <= i < |w.cuts| - 1 ==> w.cuts[i] in w.ends && w.ends[w.cuts[i]] == w.cuts[i + 1])
  }

  ghost predicate WorldOk(fmt: Format, w: World) {
    && DiskOk(fmt, w.disk, w.history, w.cuts, w.announced)
    && IndexesFit(w.disk)
    && SeesFiles(w)
    && KnowsEnds(fmt, w)
  }

  /** Where the records of the file at `b` end at present. */
  ghost function Limit(w: World, b: nat): nat {
    if b in w.ends then w.ends[b] else |w.history|
  }

  /**
   * What a reader may rely on between two looks: files and history only grow, ends stay, the window start moves
   * forward.
   */
  ghost predicate Later(fmt: Format, w: World, v: World) {
    && WorldOk(fmt, w) && WorldOk(fmt, v)
    && w.history <= v.history && w.announced <= v.announced && w.cuts[0] <= v.cuts[0]
    && (forall b :: b in w.contents ==> b in v.contents && w.contents[b] <= v.contents[b] && Limit(w, b) <= Limit(v, b))
    && (forall b :: b in w.ends ==> b in v.ends)
  }

  // ---- the writer's steps ----

  /** The writer's place, as readers see it. */
  function Spot(w: World): Place {
    Place(w.disk, w.history, w.cuts, w.announced)
  }

  /** Readers of `w` look at the directory of `p`. */
  ghost predicate Sees(p: Place, w: World) {
    p.history == w.history && p.cuts == w.cuts && p.announced == w.announced && Visible(p.disk) == w.disk
  }

  /** The steps that take nothing back that had been written, and whose indexes are within the limit. */
  ghost predicate Allowed(fmt: Format, w: World, step: WriterStep) {
    && Placed(fmt, Spot(w)) && Enabled(fmt, Spot(w), step)
    && (step.TakeBack? ==> step.kept == |w.history|)
    && (step.Index? ==> IndexFits(StoredAt(fmt, w.history, Last(w.cuts), |w.history|)))
  }

  /** The world after a step that leads to place `q`. */
  function Moved(w: World, step: WriterStep, q: Place): World
    requires w.cuts != []
  {
    World(Visible(q.disk), q.history, q.cuts, q.announced, Saw(w.contents, q.disk),
          if step.Index? then w.ends[Last(w.cuts) := |w.history|] else w.ends)
  }

  function Next(fmt: Format, w: World, step: WriterStep): World
    requires Allowed(fmt, w, step)
  {
    Moved(w, step, NextPlace(fmt, Spot(w), step))
  }

  // ---- seeing is independent of syncing ----

  /** A file that is all on the disk holds at least what it held. */
  lemma {:induction false} VisibleFile(fmt: Format, f: SegFile, h: seq<LogEntry>, b: nat, n: nat)
    requires History(fmt, h) && n <= |h| && b <= |h| && OpenFileOk(fmt, f, h, b, n)
    ensures OpenFileOk(fmt, SegFile(f.data, |f.data|), h, b, n)
  {
    hide History, Stored, HasHeader;
  }

  lemma {:induction false} VisibleOk(fmt: Format, d: Directory, h: seq<LogEntry>, cuts: seq<nat>, n: nat)
    requires DiskOk(fmt, d, h, cuts, n)
    ensures DiskOk(fmt, Visible(d), h, cuts, n)
  {
    hide History, Stored, StoredAt, HasHeader, OpenFileOk;
    var c := Visible(d);
    if Last(cuts) in d.segs {
      VisibleFile(fmt, d.segs[Last(cuts)], h, Last(cuts), n);
    } else if c.segs == map[] {
      assert d.segs.Keys == c.segs.Keys;
      assert d.segs == map[];
    }
    forall i | 0 <= i < |cuts| - 1
      ensures ClosedOk(fmt, c, h, cuts[i], cuts[i + 1])
    {
      assert ClosedOk(fmt, d, h, cuts[i], cuts[i + 1]);
    }
  }

  lemma {:induction false} VisibleApplies(d: Directory, call: IoCall)
    ensures Visible(Apply(Visible(d), call)) == Visible(Apply(d, call))
  {
    match call
    case WriteFile(b, pos, bytes) =>
      VisiblePut(d, b, WriteAt(FileOf(Visible(d), b), pos, bytes), WriteAt(FileOf(d, b), pos, bytes));
    case SetLen(b, len) => VisiblePut(d, b, Resized(FileOf(Visible(d), b), len), Resized(FileOf(d, b), len));
    case SyncFile(b) => VisiblePut(d, b, Synced(FileOf(Visible(d), b)), Synced(FileOf(d, b)));
    case CreateFile(b) => VisiblePut(d, b, SegFile([], 0), SegFile([], 0));
    case _ =>
  }

  lemma {:induction false} VisiblePut(d: Directory, b: nat, f: SegFile, g: SegFile)
    requires f.data == g.data
    ensures Visible(Put(Visible(d), b, f)) == Visible(Put(d, b, g))
    ensures Visible(Put(d, b, g)) == Put(Visible(d), b, SegFile(g.data, |g.data|))
  {
    PutVisible(d, b, g);
    PutVisible(Visible(d), b, f);
    VisibleTwice(d);
  }

  lemma {:induction false} PutVisible(d: Directory, b: nat, f: SegFile)
    ensures Visible(Put(d, b, f)) == Put(Visible(d), b, SegFile(f.data, |f.data|))
  {
    assert Visible(Put(d, b, f)).segs == Put(Visible(d), b, SegFile(f.data, |f.data|)).segs;
  }

  lemma {:induction false} VisibleTwice(d: Directory)
    ensures Visible(Visible(d)) == Visible(d)
  {
    assert Visible(Visible(d)).segs == Visible(d).segs;
  }

  lemma {:induction false} FullVisible(fmt: Format, f: SegFile, h: seq<LogEntry>, t: nat)
    requires History(fmt, h) && t <= |h|
    ensures Full(fmt, f, h, t) ==> Full(fmt, SegFile(f.data, |f.data|), h, t)
    ensures Sealed(fmt, f, h, t) ==> Sealed(fmt, SegFile(f.data, |f.data|), h, t)
  {
    hide History, Stored, HasHeader;
  }

  /** A step of the log is the same step as readers see it. */
  lemma {:induction false} StepIsSeen(fmt: Format, p: Place, step: WriterStep, call: IoCall, q: Place, w: World)
    requires StepsBy(fmt, p, step, call, q) && Sees(p, w)
    ensures Placed(fmt, Spot(w)) && Enabled(fmt, Spot(w), step) && CallOf(fmt, Spot(w), step) == call
    ensures Sees(q, Moved(w, step, NextPlace(fmt, Spot(w), step)))
    ensures var v := Moved(w, step, NextPlace(fmt, Spot(w), step)); Saw(w.contents, q.disk) == v.contents
  {
    hide History, Full, Sealed, Stored, StoredAt, RecordBytes, HeaderBytes, Writable, Apply;
    if Last(p.cuts) in p.disk.segs {
      FullVisible(fmt, p.disk.segs[Last(p.cuts)], p.history, Last(p.cuts));
    }
    VisibleApplies(p.disk, call);
    SawVisible(w.contents, Apply(Visible(p.disk), call), Apply(p.disk, call));
  }

  lemma {:induction false} SawVisible(contents: map<nat, seq<byte>>, c: Directory, d: Directory)
    requires Visible(c) == Visible(d)
    ensures Saw(contents, c) == Saw(contents, d)
  {
    assert c.segs.Keys == Visible(c).segs.Keys == d.segs.Keys;
    forall b | b in c.segs
      ensures c.segs[b].data == d.segs[b].data
    {
      assert Visible(c).segs[b] == Visible(d).segs[b];
    }
  }

  // ---- what each step leaves ----

  lemma {:induction false} WorldParts(fmt: Format, w: World)
    requires WorldOk(fmt, w)
    ensures DiskOk(fmt, w.disk, w.history, w.cuts, w.announced) && History(fmt, w.history) && w.cuts != []
    ensures Last(w.cuts) <= |w.history| && w.announced <= |w.history|
  {
    DiskHistory(fmt, w.disk, w.history, w.cuts, w.announced);
    hide DiskOk, History;
  }

  lemma {:induction false} SealedStays(fmt: Format, data: seq<byte>, h: seq<LogEntry>, g: seq<LogEntry>, b: nat, e: nat)
    requires SealedUpTo(fmt, data, h, b, e) && History(fmt, g) && h <= g
    ensures SealedUpTo(fmt, data, g, b, e)
  {
    StoredIgnoresTail(fmt, h, g, b, e);
    hide History, Stored;
  }

  function WithTail(w: World, f: SegFile): World
    requires w.cuts != []
  {
    w.(disk := Put(w.disk, Last(w.cuts), f), contents := w.contents[Last(w.cuts) := f.data])
  }

  /** After a step the directory is as readers may rely on, with what had been announced in it. */
  lemma {:induction false} NextDisk(fmt: Format, w: World, step: WriterStep)
    requires WorldOk(fmt, w) && Allowed(fmt, w, step)
    ensures var v := Next(fmt, w, step);
            && DiskOk(fmt, v.disk, v.history, v.cuts, w.announced) && v.cuts != [] && w.cuts != []
            && w.cuts[0] <= v.cuts[0]
            && w.history <= v.history
  {
    hide WorldOk, DiskOk, History, Full, Sealed, Stored, StoredAt, RecordBytes, HeaderBytes, Writable, Apply, Visible,
      Saw;
    WorldParts(fmt, w);
    var q := NextPlace(fmt, Spot(w), step);
    assert w.history <= q.history;
    StepKeeps(fmt, Spot(w), step, q, w.announced);
    VisibleOk(fmt, q.disk, q.history, q.cuts, w.announced);
  }

  /** Writing to the tail file, with the history growing. */
  lemma {:induction false} TailWritten(fmt: Format, w: World, f: SegFile, g: seq<LogEntry>)
    requires WorldOk(fmt, w) && w.cuts != [] && DiskOk(fmt, Put(w.disk, Last(w.cuts), f), g, w.cuts, w.announced)
    requires w.history <= g && f.synced == |f.data|
    requires Last(w.cuts) in w.disk.segs ==> w.disk.segs[Last(w.cuts)].data <= f.data
    ensures Later(fmt, w, WithTail(w, f).(history := g))
  {
    var v := WithTail(w, f).(history := g);
    hide DiskOk, History, IndexesFit, SeesFiles, KnowsEnds;
    WorldParts(fmt, w);
    DiskHistory(fmt, v.disk, g, w.cuts, w.announced);
    TailNotIndexedIn(fmt, w.disk, w.history, w.cuts, w.announced);
    TailFits(w.disk, Last(w.cuts), f);
    TailEnds(fmt, w, f, g);
    assert WorldOk(fmt, v);
    TailGrows(fmt, w, f, g);
  }

  lemma {:induction false} TailFits(d: Directory, t: nat, f: SegFile)
    requires IndexesFit(d) && t !in d.idxs
    ensures IndexesFit(Put(d, t, f))
  {
  }

  lemma {:induction false} TailEnds(fmt: Format, w: World, f: SegFile, g: seq<LogEntry>)
    requires w.cuts != [] && SeesFiles(w) && KnowsEnds(fmt, w) && History(fmt, g) && w.history <= g
    requires f.synced == |f.data|
    ensures var v := WithTail(w, f).(history := g);
            SeesFiles(v) && KnowsEnds(fmt, v)
  {
    hide SealedUpTo, History;
    var v := WithTail(w, f).(history := g);
    forall b | b in v.ends
      ensures SealedUpTo(fmt, v.contents[b], g, b, v.ends[b])
    {
      SealedStays(fmt, w.contents[b], w.history, g, b, w.ends[b]);
    }
  }

  lemma {:induction false} TailGrows(fmt: Format, w: World, f: SegFile, g: seq<LogEntry>)
    requires w.cuts != [] && SeesFiles(w) && KnowsEnds(fmt, w) && w.history <= g
    requires Last(w.cuts) in w.disk.segs ==> w.disk.segs[Last(w.cuts)].data <= f.data
    ensures var v := WithTail(w, f).(history := g);
            forall b :: b in w.contents ==>
              b in v.contents && w.contents[b] <= v.contents[b] && Limit(w, b) <= Limit(v, b)
  {
    hide SealedUpTo;
  }

  /** A step that only replaces the tail file. */
  lemma {:induction false} TailMoves(fmt: Format, w: World, step: WriterStep, f: SegFile)
    requires WorldOk(fmt, w) && Allowed(fmt, w, step) && !step.Index? && w.cuts != []
    requires Apply(w.disk, CallOf(fmt, Spot(w), step)) == Put(w.disk, Last(w.cuts), f)
    requires NextPlace(fmt, Spot(w), step).cuts == w.cuts && NextPlace(fmt, Spot(w), step).announced == w.announced
    requires NextPlace(fmt, Spot(w), step).disk == Put(w.disk, Last(w.cuts), f)
    requires Last(w.cuts) in w.disk.segs ==> w.disk.segs[Last(w.cuts)].data <= f.data
    ensures Later(fmt, w, Next(fmt, w, step))
  {
    hide WorldOk, DiskOk, History, Later, Placed, Enabled, NextPlace, Apply, CallOf;
    var whole := SegFile(f.data, |f.data|);
    var q := NextPlace(fmt, Spot(w), step);
    NextDisk(fmt, w, step);
    WorldSees(fmt, w);
    VisiblePut(w.disk, Last(w.cuts), f, f);
    SeenIs(w, f);
    assert Next(fmt, w, step) == WithTail(w, whole).(history := q.history);
    TailWritten(fmt, w, whole, q.history);
  }

  lemma {:induction false} WorldSees(fmt: Format, w: World)
    requires WorldOk(fmt, w)
    ensures SeesFiles(w) && Visible(w.disk) == w.disk
  {
    hide DiskOk, IndexesFit, KnowsEnds;
    assert Visible(w.disk).segs == w.disk.segs;
  }

  lemma {:induction false} SeenIs(w: World, f: SegFile)
    requires w.cuts != [] && SeesFiles(w)
    ensures Saw(w.contents, Put(w.disk, Last(w.cuts), f)) == w.contents[Last(w.cuts) := f.data]
    ensures Saw(w.contents, w.disk) == w.contents
  {
  }

  lemma {:induction false} WriteLater(fmt: Format, w: World, step: WriterStep)
    requires WorldOk(fmt, w) && Allowed(fmt, w, step) && (step.Header? || step.Record? || step.Sentinel?)
    ensures Later(fmt, w, Next(fmt, w, step))
  {
    hide DiskOk, WorldOk, History, Put, Full, HeaderBytes, RecordBytes, Writable, Apply, Later, Next;
    var t := Last(w.cuts);
    WorldParts(fmt, w);
    HistoryFits(fmt, w.history);
    match step {
      case Header(ts) =>
        HeaderWrites(w.disk, t, HeaderBytes(SegmentHeader(t, ts)));
        TailMoves(fmt, w, step, SegFile(HeaderBytes(SegmentHeader(t, ts)), 0));
      case Record(e) =>
        FullSynced(fmt, w.disk.segs[t], w.history, t);
        AppendsTo(w.disk, t, RecordBytes(fmt, e));
        TailMoves(fmt, w, step, w.disk.segs[t].(data := w.disk.segs[t].data + RecordBytes(fmt, e)));
      case Sentinel =>
        FullSynced(fmt, w.disk.segs[t], w.history, t);
        AppendsTo(w.disk, t, SENTINEL);
        TailMoves(fmt, w, step, w.disk.segs[t].(data := w.disk.segs[t].data + SENTINEL));
    }
  }

  lemma {:induction false} FileLater(fmt: Format, w: World, step: WriterStep)
    requires WorldOk(fmt, w) && Allowed(fmt, w, step)
    requires (step.Create? || step.TakeBack? || step.Sync? || step.SyncSealed?)
    ensures Later(fmt, w, Next(fmt, w, step))
  {
    hide DiskOk, WorldOk, History, Put, Full, Sealed, Stored, Later, Next;
    var t := Last(w.cuts);
    if step.Create? {
      TailMoves(fmt, w, step, SegFile([], 0));
    } else if step.TakeBack? {
      FullSynced(fmt, w.disk.segs[t], w.history, t);
      assert w.history[..step.kept] == w.history;
      TailMoves(fmt, w, step, Resized(w.disk.segs[t], |w.disk.segs[t].data|));
    } else {
      TailMoves(fmt, w, step, Synced(w.disk.segs[t]));
    }
  }

  /** The one step that wakes waiters: everything written becomes what they have been told of. */
  lemma {:induction false} AnnounceLater(fmt: Format, w: World)
    requires WorldOk(fmt, w) && Allowed(fmt, w, Announce)
    ensures Later(fmt, w, Next(fmt, w, Announce))
  {
    hide DiskOk, History, Put, Full, KnowsEnds, IndexesFit, Visible, Saw;
    WorldSees(fmt, w);
    SeenIs(w, w.disk.segs[Last(w.cuts)]);
    WorldParts(fmt, w);
    SyncKeeps(fmt, w.disk, w.history, w.cuts, w.announced);
    PutAgain(w.disk, Last(w.cuts), w.disk.segs[Last(w.cuts)], w.disk.segs[Last(w.cuts)]);
    EndsStay(fmt, w, Next(fmt, w, Announce));
  }

  lemma {:induction false} EndsStay(fmt: Format, w: World, v: World)
    requires w.cuts != [] && KnowsEnds(fmt, w)
    requires v.cuts == w.cuts && v.history == w.history && v.contents == w.contents && v.ends == w.ends
    requires v.disk.segs == w.disk.segs
    ensures KnowsEnds(fmt, v)
  {
    hide SealedUpTo;
  }

  /** A step that writes no file: readers see the same bytes. */
  lemma {:induction false} SameBytes(fmt: Format, w: World, step: WriterStep)
    requires WorldOk(fmt, w) && Allowed(fmt, w, step)
    requires step.Index? || step.Watermark? || step.DeleteSegment? || step.DeleteIndex?
    ensures var q := NextPlace(fmt, Spot(w), step);
            Visible(q.disk) == q.disk && Saw(w.contents, q.disk) == w.contents
  {
    hide WorldOk, History, Stored, StoredAt, Full, Sealed, Visible, Saw;
    WorldSees(fmt, w);
    FewerFiles(w, NextPlace(fmt, Spot(w), step).disk);
  }

  lemma {:induction false} FewerFiles(w: World, d: Directory)
    requires SeesFiles(w) && d.segs.Keys <= w.disk.segs.Keys && forall b :: b in d.segs ==> d.segs[b] == w.disk.segs[b]
    ensures Visible(d) == d && Saw(w.contents, d) == w.contents
  {
    assert Visible(d).segs == d.segs;
  }

  lemma {:induction false} IndexLater(fmt: Format, w: World)
    requires WorldOk(fmt, w) && Allowed(fmt, w, Index)
    ensures Later(fmt, w, Next(fmt, w, Index))
  {
    hide DiskOk, History, Full, StoredAt, Stored, HasHeader, Sealed, IndexesFit, SeesFiles, KnowsEnds, Visible, Saw;
    var t := Last(w.cuts);
    var v := Next(fmt, w, Index);
    SameBytes(fmt, w, Index);
    IndexKeeps(fmt, w.disk, w.history, w.cuts, w.announced);
    SealedSeen(fmt, w);
    FitsAfterIndex(w, v);
    EndsAfterIndex(fmt, w, v);
    assert (w.cuts + [|w.history|])[0] == w.cuts[0];
    LimitsAfterIndex(fmt, w, v);
  }

  lemma {:induction false} SealedSeen(fmt: Format, w: World)
    requires Placed(fmt, Spot(w)) && TailSealed(fmt, Spot(w)) && SeesFiles(w)
    ensures Last(w.cuts) in w.contents
    ensures SealedUpTo(fmt, w.contents[Last(w.cuts)], w.history, Last(w.cuts), |w.history|)
  {
    hide History, Stored, HasHeader;
  }

  lemma {:induction false} FitsAfterIndex(w: World, v: World)
    requires IndexesFit(w.disk) && SeesFiles(w) && v.contents == w.contents && w.cuts != []
    requires exists positions :: IndexFits(positions) && v.disk == Apply(w.disk, PutIndex(Last(w.cuts), positions))
    ensures IndexesFit(v.disk) && SeesFiles(v)
  {
  }

  lemma {:induction false} LimitsAfterIndex(fmt: Format, w: World, v: World)
    requires w.cuts != [] && KnowsEnds(fmt, w) && v.history == w.history
    requires v.ends == w.ends[Last(w.cuts) := |w.history|]
    ensures forall b :: b in w.contents ==> Limit(w, b) <= Limit(v, b)
    ensures forall b :: b in w.ends ==> b in v.ends
  {
    hide SealedUpTo;
  }

  lemma {:induction false} EndsAfterIndex(fmt: Format, w: World, v: World)
    requires w.cuts != [] && KnowsEnds(fmt, w) && SeesFiles(w) && Last(w.cuts) in w.disk.segs
    requires Last(w.cuts) < |w.history|
    requires v.contents == w.contents && v.history == w.history && v.disk.segs == w.disk.segs
    requires v.cuts == w.cuts + [|w.history|] && v.ends == w.ends[Last(w.cuts) := |w.history|]
    requires SealedUpTo(fmt, w.contents[Last(w.cuts)], w.history, Last(w.cuts), |w.history|)
    ensures KnowsEnds(fmt, v)
  {
    hide SealedUpTo;
    forall i | 0 <= i < |v.cuts| - 1
      ensures v.cuts[i] in v.ends && v.ends[v.cuts[i]] == v.cuts[i + 1]
    {
      if i < |w.cuts| - 1 {
        assert w.cuts[i] in w.ends && w.ends[w.cuts[i]] == w.cuts[i + 1];
      }
    }
  }

  lemma {:induction false} WatermarkLater(fmt: Format, w: World)
    requires WorldOk(fmt, w) && Allowed(fmt, w, Watermark)
    ensures Later(fmt, w, Next(fmt, w, Watermark))
  {
    hide DiskOk, History, Full, SealedUpTo, Visible, Saw;
    SameBytes(fmt, w, Watermark);
    WatermarkKeeps(fmt, w.disk, w.history, w.cuts, w.announced);
  }

  lemma {:induction false} DeleteSegmentLater(fmt: Format, w: World)
    requires WorldOk(fmt, w) && Allowed(fmt, w, DeleteSegment)
    ensures Later(fmt, w, Next(fmt, w, DeleteSegment))
  {
    hide DiskOk, History, Full, SealedUpTo, Visible, Saw;
    SameBytes(fmt, w, DeleteSegment);
    var v := Next(fmt, w, DeleteSegment);
    RemoveFirstKeeps(fmt, w.disk, w.history, w.cuts, w.announced);
    assert Last(v.cuts) == Last(w.cuts);
    assert w.cuts[0] in w.ends && w.ends[w.cuts[0]] == w.cuts[1];
    forall i | 0 <= i < |v.cuts| - 1
      ensures v.cuts[i] in v.ends && v.ends[v.cuts[i]] == v.cuts[i + 1]
    {
      assert w.cuts[i + 1] in w.ends && w.ends[w.cuts[i + 1]] == w.cuts[i + 2];
    }
  }

  lemma {:induction false} DeleteIndexLater(fmt: Format, w: World, b: nat)
    requires WorldOk(fmt, w) && Allowed(fmt, w, DeleteIndex(b))
    ensures Later(fmt, w, Next(fmt, w, DeleteIndex(b)))
  {
    hide DiskOk, History, Full, SealedUpTo, Visible, Saw;
    SameBytes(fmt, w, DeleteIndex(b));
    RemoveIndexKeeps(fmt, w.disk, w.history, w.cuts, w.announced, b);
  }

  /** Every step of the writer leaves what readers rely on. */
  lemma {:induction false} WriterKeeps(fmt: Format, w: World, step: WriterStep)
    requires WorldOk(fmt, w) && Allowed(fmt, w, step)
    ensures Later(fmt, w, Next(fmt, w, step))
  {
    hide WorldOk, History, Allowed, Next, Later;
    match step
    case Header(_) => WriteLater(fmt, w, step);
    case Record(_) => WriteLater(fmt, w, step);
    case Sentinel => WriteLater(fmt, w, step);
    case Create => FileLater(fmt, w, step);
    case TakeBack(_) => FileLater(fmt, w, step);
    case Sync => FileLater(fmt, w, step);
    case SyncSealed => FileLater(fmt, w, step);
    case Announce => AnnounceLater(fmt, w);
    case Index => IndexLater(fmt, w);
    case Watermark => WatermarkLater(fmt, w);
    case DeleteSegment => DeleteSegmentLater(fmt, w);
    case DeleteIndex(b) => DeleteIndexLater(fmt, w, b);
  }

  lemma {:induction false} LaterOk(fmt: Format, w: World, v: World)
    requires Later(fmt, w, v)
    ensures WorldOk(fmt, v)
  {
    hide WorldOk;
  }
}
