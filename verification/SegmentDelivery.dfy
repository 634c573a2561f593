/** What a subscription delivers, in every interleaving with the writer, and why it never sleeps through an entry. */
module SegmentDelivery {
  import opened Bytes
  import opened Wrappers
  import opened EventLogPort
  import opened SegmentRecords
  import opened SegmentFiles
  import opened SegmentDisk
  import opened SegmentReading
  import opened SegmentSteps
  import opened SegmentRecovery
  import opened SegmentWorld
  import opened SegmentSubscriptions

  // ---- reading one record of a growing file ----

  /** The file's bytes are a header and then some first part of the records of `b` up to `e` and their sentinel. */
  ghost predicate TornAt(fmt: Format, data: seq<byte>, h: seq<LogEntry>, b: nat, e: nat) {
    && History(fmt, h) && b <= e <= |h| && HEADER_LEN <= |data| <= HEADER_LEN + |Stored(fmt, h, b, e)| + 4
    && data[HEADER_LEN..] == (Stored(fmt, h, b, e) + SENTINEL)[..|data| - HEADER_LEN]
  }

  lemma {:induction false} TornIsTorn(fmt: Format, data: seq<byte>, h: seq<LogEntry>, b: nat, e: nat)
    requires TornAt(fmt, data, h, b, e)
    ensures AllWritable(fmt, Slice(h, b, e)) && |data| - HEADER_LEN <= |EncodeAll(fmt, Slice(h, b, e))| + 4
    ensures data[HEADER_LEN..] == Torn(fmt, Slice(h, b, e), |data| - HEADER_LEN)
    ensures Stored(fmt, h, b, e) == EncodeAll(fmt, Slice(h, b, e))
  {
    SliceWritable(fmt, h, b, e);
    hide EncodeAll, Writable, History;
  }

  lemma {:induction false} StoredLength(fmt: Format, h: seq<LogEntry>, b: nat, e: nat, j: nat)
    requires History(fmt, h) && b <= j <= e <= |h|
    ensures AllWritable(fmt, Slice(h, b, e)) && LengthOf(fmt, Slice(h, b, e), j - b) == |Stored(fmt, h, b, j)|
  {
    SliceWritable(fmt, h, b, e);
    SliceWritable(fmt, h, b, j);
    assert Slice(h, b, e)[..j - b] == Slice(h, b, j);
    hide EncodeAll, Writable, History;
  }

  lemma {:induction false} StoredStep(fmt: Format, h: seq<LogEntry>, b: nat, e: nat, j: nat)
    requires History(fmt, h) && b <= j < e <= |h|
    ensures Writable(fmt, h[j]) && |Stored(fmt, h, b, j + 1)| == |Stored(fmt, h, b, j)| + |RecordBytes(fmt, h[j])|
  {
    hide *;
    SliceWritable(fmt, h, b, e);
    SliceAt(h, b, e);
    StoredLength(fmt, h, b, e, j);
    StoredLength(fmt, h, b, e, j + 1);
    MemberWritable(fmt, Slice(h, b, e), j - b);
    SplitAt(fmt, Slice(h, b, e), j - b);
  }

  lemma {:induction false} MemberWritable(fmt: Format, es: seq<LogEntry>, i: nat)
    requires AllWritable(fmt, es) && i < |es|
    ensures Writable(fmt, es[i])
  {
    hide Writable;
  }

  /** Reading such a file where the record of offset `j` starts or would start. */
  lemma {:induction false} ReadGrowing(fmt: Format, data: seq<byte>, h: seq<LogEntry>, b: nat, e: nat, j: nat)
    requires fmt.Lawful() && TornAt(fmt, data, h, b, e) && b <= j <= e && HEADER_LEN + |Stored(fmt, h, b, j)| <= |data|
    ensures var r := ParseRecord(fmt, After(data, HEADER_LEN + |Stored(fmt, h, b, j)|));
            && !r.Unreadable?
            && (r.Entry? ==>
                  && j < e && r.entry == h[j]
                  && |Stored(fmt, h, b, j)| + r.consumed == |Stored(fmt, h, b, j + 1)| <= |data| - HEADER_LEN)
            && (r.EndOfSegment? ==> j == e)
            && (r.UnexpectedEof? ==> |data| < HEADER_LEN + |Stored(fmt, h, b, e)| + 4)
    ensures ParseRecord(fmt, After(data, HEADER_LEN + |Stored(fmt, h, b, j)|)).UnexpectedEof? ==>
              forall n :: b <= n <= e && HEADER_LEN + |Stored(fmt, h, b, n)| <= |data| ==> n <= j
  {
    hide *;
    TornParts(fmt, data, h, b, e);
    var es, len := Slice(h, b, e), |data| - HEADER_LEN;
    TornIsTorn(fmt, data, h, b, e);
    SliceAt(h, b, e);
    StoredLength(fmt, h, b, e, j);
    WholeCovers(fmt, es, len, j - b);
    AfterHeader(data, LengthOf(fmt, es, j - b));
    ReadTorn(fmt, es, len, j - b);
    WholeIsAll(fmt, es, len, e - b);
    if j < e {
      StoredStep(fmt, h, b, e, j);
      StoredLength(fmt, h, b, e, j + 1);
      WholeCovers(fmt, es, len, j + 1 - b);
    }
    forall n | b <= n <= e && HEADER_LEN + |Stored(fmt, h, b, n)| <= |data|
      ensures n - b <= Whole(fmt, es, len)
    {
      StoredLength(fmt, h, b, e, n);
      WholeCovers(fmt, es, len, n - b);
    }
  }

  lemma {:induction false} TornParts(fmt: Format, data: seq<byte>, h: seq<LogEntry>, b: nat, e: nat)
    requires TornAt(fmt, data, h, b, e)
    ensures History(fmt, h) && b <= e <= |h| && HEADER_LEN <= |data|
  {
  }

  lemma {:induction false} AfterHeader(data: seq<byte>, k: nat)
    requires HEADER_LEN + k <= |data|
    ensures After(data, HEADER_LEN + k) == data[HEADER_LEN..][k..]
  {
  }

  lemma {:induction false} SliceAt(h: seq<LogEntry>, b: nat, e: nat)
    requires b <= e <= |h|
    ensures |Slice(h, b, e)| == e - b && forall i :: 0 <= i < e - b ==> Slice(h, b, e)[i] == h[b + i]
  {
  }

  /** Only all records and the sentinel make a full file. */
  lemma {:induction false} WholeIsAll(fmt: Format, es: seq<LogEntry>, len: nat, n: nat)
    requires AllWritable(fmt, es) && n == |es|
    ensures len == |EncodeAll(fmt, es)| + 4 ==> Whole(fmt, es, len) == n
  {
    WholeCovers(fmt, es, len, n);
    assert es[..|es|] == es;
  }

  // ---- reading any file the log has created ----

  /**
   * What a file's bytes are at present: everything up to its limit if it is closed, and at least what was announced if
   * not.
   */
  lemma {:induction false} ContentShape(fmt: Format, w: World, b: nat)
    requires WorldOk(fmt, w) && b in w.contents
    ensures History(fmt, w.history) && b <= Limit(w, b) <= |w.history|
    ensures |w.contents[b]| < HEADER_LEN ==> b !in w.ends && w.announced <= b
    ensures |w.contents[b]| >= HEADER_LEN ==> TornAt(fmt, w.contents[b], w.history, b, Limit(w, b))
    ensures b in w.ends ==> |w.contents[b]| == HEADER_LEN + |Stored(fmt, w.history, b, Limit(w, b))| + 4
    ensures b !in w.ends && b < w.announced ==>
              w.announced <= |w.history| && |w.contents[b]| >= HEADER_LEN + |Stored(fmt, w.history, b, w.announced)|
  {
    hide History, AllClosedOk, HasHeader, Stored, IndexesFit, NoOthers;
    DiskHistory(fmt, w.disk, w.history, w.cuts, w.announced);
    if b in w.ends {
      assert SealedUpTo(fmt, w.contents[b], w.history, b, w.ends[b]);
      var s := Stored(fmt, w.history, b, w.ends[b]) + SENTINEL;
      assert s[..|s|] == s;
    }
  }

  lemma {:induction false} ReadHandle(fmt: Format, w: World, b: nat, j: nat)
    requires fmt.Lawful() && WorldOk(fmt, w) && b in w.contents && History(fmt, w.history)
    requires b <= j <= Limit(w, b) <= |w.history|
    requires j == b || HEADER_LEN + |Stored(fmt, w.history, b, j)| <= |w.contents[b]|
    ensures var data, pos := w.contents[b], HEADER_LEN + |Stored(fmt, w.history, b, j)|;
            var r := ParseRecord(fmt, After(data, pos));
            && !r.Unreadable?
            && (r.Entry? ==> j < Limit(w, b) && r.entry == w.history[j]
                             && pos + r.consumed == HEADER_LEN + |Stored(fmt, w.history, b, j + 1)| <= |data|)
            && (r.EndOfSegment? ==> j == Limit(w, b))
            && (r.UnexpectedEof? ==> b !in w.ends && w.announced <= j)
  {
    hide WorldOk, Stored, TornAt, ParseRecord, After, History, Limit;
    var data := w.contents[b];
    ContentShape(fmt, w, b);
    NothingStored(fmt, w.history, b);
    if |data| < HEADER_LEN {
      ReadShort(fmt, data);
    } else {
      ReadGrowing(fmt, data, w.history, b, Limit(w, b), j);
      LimitOfOpen(w, b);
    }
  }

  lemma {:induction false} LimitOfOpen(w: World, b: nat)
    ensures b !in w.ends ==> Limit(w, b) == |w.history|
    ensures b in w.ends ==> Limit(w, b) == w.ends[b]
  {
  }

  lemma {:induction false} ReadShort(fmt: Format, data: seq<byte>)
    requires |data| < HEADER_LEN
    ensures ParseRecord(fmt, After(data, HEADER_LEN)).UnexpectedEof?
  {
    assert After(data, HEADER_LEN) == [];
    NothingReads(fmt);
  }

  // ---- a subscription's open file ----

  /**
   * The handle stands where the record of offset `j` starts or would start; only an active one may be behind `next`.
   */
  ghost predicate HandleAt(fmt: Format, w: World, f: Handle, next: nat, j: nat) {
    && History(fmt, w.history) && f.base in w.contents && f.base <= j <= next && j <= Limit(w, f.base) <= |w.history|
    && f.pos == HEADER_LEN + |Stored(fmt, w.history, f.base, j)|
    && (j == f.base || f.pos <= |w.contents[f.base]|)
    && (!f.isActive ==> f.base in w.ends && j == next)
  }

  ghost predicate SubOk(fmt: Format, w: World, s: Sub) {
    s.file.Some? ==> exists j :: HandleAt(fmt, w, s.file.value, s.next, j)
  }

  lemma {:induction false} HandleLater(fmt: Format, w: World, v: World, f: Handle, next: nat, j: nat)
    requires Later(fmt, w, v) && HandleAt(fmt, w, f, next, j)
    ensures HandleAt(fmt, v, f, next, j)
  {
    hide WorldOk, Stored, History;
    WorldParts(fmt, v);
    StoredIgnoresTail(fmt, w.history, v.history, f.base, j);
    LimitBelow(fmt, v, f.base);
  }

  lemma {:induction false} LimitBelow(fmt: Format, w: World, b: nat)
    requires WorldOk(fmt, w) && b in w.contents
    ensures Limit(w, b) <= |w.history|
  {
    hide WorldOk;
    ContentShape(fmt, w, b);
  }

  lemma {:induction false} SubLater(fmt: Format, w: World, v: World, s: Sub)
    requires Later(fmt, w, v) && SubOk(fmt, w, s)
    ensures SubOk(fmt, v, s)
  {
    hide Later, HandleAt;
    if s.file.Some? {
      var j :| HandleAt(fmt, w, s.file.value, s.next, j);
      HandleLater(fmt, w, v, s.file.value, s.next, j);
    }
  }

  /** A file that can be opened at its first record. */
  lemma {:induction false} FreshHandle(fmt: Format, w: World, next: nat)
    requires WorldOk(fmt, w) && next in w.disk.segs
    ensures HandleAt(fmt, w, Handle(next, HEADER_LEN, next !in w.disk.idxs), next, next)
  {
    hide WorldOk, Stored, History;
    WorldParts(fmt, w);
    SeenFile(fmt, w, next);
    ContentShape(fmt, w, next);
    NothingStored(fmt, w.history, next);
  }

  lemma {:induction false} SeenFile(fmt: Format, w: World, b: nat)
    requires WorldOk(fmt, w) && b in w.disk.segs
    ensures b in w.contents && w.contents[b] == w.disk.segs[b].data
    ensures b in w.disk.idxs ==> b in w.ends
    ensures b !in w.disk.idxs ==> b == Last(w.cuts) && b !in w.ends
  {
    hide History, ClosedOk, SealedUpTo, OpenFileOk, IndexesFit;
    var i :| 0 <= i < |w.cuts| && w.cuts[i] == b;
    if i < |w.cuts| - 1 {
      ClosedHere(fmt, w.disk, w.history, w.cuts, w.announced, i);
    }
  }

  lemma {:induction false} ClosedHere(fmt: Format, d: Directory, h: seq<LogEntry>, cuts: seq<nat>, n: nat, i: nat)
    requires DiskOk(fmt, d, h, cuts, n) && i + 1 < |cuts|
    ensures History(fmt, h) && cuts[i] in d.segs && cuts[i] in d.idxs && cuts[i] < cuts[i + 1] <= |h|
    ensures d.idxs[cuts[i]] == StoredAt(fmt, h, cuts[i], cuts[i + 1])
  {
    hide History, Stored, StoredAt, HasHeader, TailOk, NoOthers;
    assert ClosedOk(fmt, d, h, cuts[i], cuts[i + 1]);
  }

  /**
   * One read: it delivers exactly the entry at the cursor, and waits only when nothing announced is left to deliver.
   */
  lemma {:induction false} ReadDelivers(fmt: Format, w: World, s: Sub)
    requires fmt.Lawful() && WorldOk(fmt, w) && SubOk(fmt, w, s) && s.file.Some? && s.file.value.base in w.contents
    ensures var (t, o) := ReadStep(fmt, w.disk, w.contents, s);
            && !o.Fail? && t.closed == s.closed
            && (o.Deliver? ==>
                  && s.next < |w.history| && o.entry == w.history[s.next]
                  && t.next == s.next + 1 && SubOk(fmt, w, t))
            && (o.Again? ==> t.next == s.next && SubOk(fmt, w, t))
            && (o.Wait? ==> t == s && w.announced <= s.next)
  {
    hide WorldOk, Stored, History, ParseRecord, After, HandleAt;
    var j :| HandleAt(fmt, w, s.file.value, s.next, j);
    HandleParts(fmt, w, s.file.value, s.next, j);
    var f := s.file.value;
    ReadHandle(fmt, w, f.base, j);
    var r := ParseRecord(fmt, After(w.contents[f.base], f.pos));
    if r.Entry? {
      OffsetOf(fmt, w.history, j);
      HandleMoves(fmt, w, f, s.next, j, r.consumed);
    } else if r.EndOfSegment? && s.next in w.disk.segs {
      FreshHandle(fmt, w, s.next);
    }
  }

  lemma {:induction false} HandleParts(fmt: Format, w: World, f: Handle, next: nat, j: nat)
    requires HandleAt(fmt, w, f, next, j)
    ensures History(fmt, w.history) && f.base in w.contents && f.base <= j <= next
    ensures j <= Limit(w, f.base) <= |w.history|
    ensures f.pos == HEADER_LEN + |Stored(fmt, w.history, f.base, j)|
    ensures j == f.base || f.pos <= |w.contents[f.base]|
    ensures !f.isActive ==> f.base in w.ends && j == next
  {
    hide Stored, History;
  }

  lemma {:induction false} OffsetOf(fmt: Format, h: seq<LogEntry>, j: nat)
    requires History(fmt, h) && j < |h|
    ensures h[j].offset == j
  {
  }

  lemma {:induction false} HandleMoves(fmt: Format, w: World, f: Handle, next: nat, j: nat, consumed: nat)
    requires HandleAt(fmt, w, f, next, j) && j < Limit(w, f.base) && History(fmt, w.history)
    requires f.pos + consumed == HEADER_LEN + |Stored(fmt, w.history, f.base, j + 1)| <= |w.contents[f.base]|
    ensures j < next && f.isActive ==> HandleAt(fmt, w, f.(pos := f.pos + consumed), next, j + 1)
    ensures j == next ==> HandleAt(fmt, w, f.(pos := f.pos + consumed), next + 1, j + 1)
  {
    hide Stored, History;
  }

  // ---- opening ----

  /**
   * Reading forward through the file being written: it arrives at the offset, or at a tail that nothing announced lies
   * beyond.
   */
  lemma {:induction false} SeekArrives(fmt: Format, w: World, b: nat, pos: nat, j: nat, next: nat)
    requires fmt.Lawful() && WorldOk(fmt, w) && b in w.contents && b !in w.ends && j <= next
    requires HandleAt(fmt, w, Handle(b, pos, true), next, j)
    ensures var r := Seek(fmt, w.contents[b], pos, j, next);
            && !r.SeekFailed?
            && (r.At? ==> HandleAt(fmt, w, Handle(b, r.pos, true), next, next))
            && (r.AtTail? ==> w.announced <= next && exists i :: HandleAt(fmt, w, Handle(b, r.pos, true), next, i))
            && (r.RolledAway? ==> w.announced <= next)
    decreases next - j
  {
    hide WorldOk, Stored, History, ParseRecord, After, HandleAt, Limit;
    if j < next {
      var f := Handle(b, pos, true);
      HandleParts(fmt, w, f, next, j);
      ReadHandle(fmt, w, b, j);
      LimitOfOpen(w, b);
      WorldParts(fmt, w);
      var r := ParseRecord(fmt, After(w.contents[b], pos));
      if r.Entry? {
        HandleMoves(fmt, w, f, next, j, r.consumed);
        SeekArrives(fmt, w, b, pos + r.consumed, j + 1, next);
      }
    }
  }

  lemma {:induction false} HasBestIn(keys: set<nat>, next: nat, b: nat) returns (m: nat)
    requires b in keys && b <= next
    ensures m in keys && m <= next && forall x :: x in keys && x <= next ==> x <= m
    decreases next - b
  {
    if x :| x in keys && b < x <= next {
      m := HasBestIn(keys, next, x);
    } else {
      m := b;
    }
  }

  /**
   * What opening promises: a handle in place, at the cursor if anything announced is there; or a wait for good reason,
   * or an error because the offset is gone, with the offset at which what is left starts.
   */
  ghost predicate GoodOpen(fmt: Format, w: World, next: nat, r: OpenResult)
    requires w.cuts != []
  {
    match r
    case Opened(handle) =>
      exists j :: HandleAt(fmt, w, handle, next, j) && (j == next < Limit(w, handle.base) || w.announced <= next)
    case NotYet => w.announced <= next
    case Refused(e) =>
      next < w.cuts[0] && e == RetentionExpired(next, if w.cuts[0] in w.disk.segs then Some(w.cuts[0]) else None)
  }

  lemma {:induction false} ClosedOpens(fmt: Format, w: World, b: nat, next: nat)
    requires WorldOk(fmt, w) && IsBest(w.disk, next, b) && b in w.disk.idxs && w.cuts != []
    ensures GoodOpen(fmt, w, next, OpenAt(fmt, w.disk, b, next))
  {
    hide WorldOk, Stored, StoredAt, History, Limit;
    WorldParts(fmt, w);
    SeenFile(fmt, w, b);
    var i := CutOfBase(fmt, w, b);
    ClosedHere(fmt, w.disk, w.history, w.cuts, w.announced, i);
    var e := w.cuts[i + 1];
    StoredAtLength(fmt, w.history, b, e);
    EndOfCut(fmt, w, i);
    if next < e {
      StoredAtIs(fmt, w.history, b, e, next);
      StoredMonotoneTo(fmt, w.history, b, next, e);
      ContentShape(fmt, w, b);
      assert HandleAt(fmt, w, Handle(b, w.disk.idxs[b][next - b], false), next, next);
    } else {
      NothingBeyond(fmt, w, i, next);
    }
  }

  lemma {:induction false} CutOfBase(fmt: Format, w: World, b: nat) returns (i: nat)
    requires WorldOk(fmt, w) && b in w.disk.segs && b in w.disk.idxs
    ensures i + 1 < |w.cuts| && w.cuts[i] == b && IndexFits(w.disk.idxs[b])
  {
    hide History, SealedUpTo, OpenFileOk, AllClosedOk, KnowsEnds, SeesFiles;
    i :| 0 <= i < |w.cuts| && w.cuts[i] == b;
  }

  lemma {:induction false} EndOfCut(fmt: Format, w: World, i: nat)
    requires WorldOk(fmt, w) && i + 1 < |w.cuts|
    ensures w.cuts[i] in w.ends && Limit(w, w.cuts[i]) == w.cuts[i + 1]
  {
    hide DiskOk, SealedUpTo;
  }

  lemma {:induction false} StoredAtIs(fmt: Format, h: seq<LogEntry>, b: nat, e: nat, j: nat)
    requires History(fmt, h) && b <= j < e <= |h|
    ensures |StoredAt(fmt, h, b, e)| == e - b && StoredAt(fmt, h, b, e)[j - b] == HEADER_LEN + |Stored(fmt, h, b, j)|
  {
    StoredLength(fmt, h, b, e, j);
    hide Stored, History;
  }

  /** If the best segment ends at or before `next`, it is the last one and nothing announced lies beyond it. */
  lemma {:induction false} NothingBeyond(fmt: Format, w: World, i: nat, next: nat)
    requires WorldOk(fmt, w) && i + 1 < |w.cuts| && IsBest(w.disk, next, w.cuts[i]) && w.cuts[i] < w.cuts[i + 1] <= next
    ensures w.announced <= next
  {
    hide History, SealedUpTo, OpenFileOk, AllClosedOk, KnowsEnds, SeesFiles, IndexesFit;
    if i + 2 < |w.cuts| {
      ClosedHere(fmt, w.disk, w.history, w.cuts, w.announced, i + 1);
    }
    assert w.cuts[i + 1] !in w.disk.segs;
  }

  lemma {:induction false} TailOpens(fmt: Format, w: World, b: nat, next: nat)
    requires fmt.Lawful() && WorldOk(fmt, w) && IsBest(w.disk, next, b) && b !in w.disk.idxs && w.cuts != []
    ensures GoodOpen(fmt, w, next, OpenAt(fmt, w.disk, b, next))
  {
    hide WorldOk, HandleAt, Seek;
    WorldParts(fmt, w);
    SeenFile(fmt, w, b);
    TailHandle(fmt, w, b, next);
    SeekArrives(fmt, w, b, HEADER_LEN, b, next);
  }

  lemma {:induction false} TailHandle(fmt: Format, w: World, b: nat, next: nat)
    requires WorldOk(fmt, w) && b in w.contents && b <= next
    ensures HandleAt(fmt, w, Handle(b, HEADER_LEN, true), next, b)
  {
    hide WorldOk, Stored, History;
    ContentShape(fmt, w, b);
    NothingStored(fmt, w.history, b);
  }

  lemma {:induction false} NoneOpens(fmt: Format, w: World, next: nat, r: OpenResult)
    requires WorldOk(fmt, w) && w.cuts != [] && OpensTo(fmt, w.disk, next, r)
    requires forall b :: b in w.disk.segs ==> b > next
    ensures GoodOpen(fmt, w, next, r)
  {
    hide History, SealedUpTo, OpenFileOk, AllClosedOk, KnowsEnds, SeesFiles, IndexesFit, OpenAt;
    if |w.cuts| > 1 {
      ClosedHere(fmt, w.disk, w.history, w.cuts, w.announced, 0);
    } else if w.disk.segs != map[] {
      var b :| b in w.disk.segs;
      assert b in w.cuts;
    }
    if w.disk.segs != map[] {
      FirstFile(fmt, w.disk, w.history, w.cuts, w.announced);
      assert IsFirst(w.disk, w.cuts[0]) && forall m :: IsFirst(w.disk, m) ==> m == w.cuts[0];
    }
  }

  /** The smallest segment file is where the window starts. */
  lemma {:induction false} FirstFile(fmt: Format, d: Directory, h: seq<LogEntry>, cuts: seq<nat>, n: nat)
    requires DiskOk(fmt, d, h, cuts, n) && d.segs != map[]
    ensures cuts != [] && IsFirst(d, cuts[0])
  {
    hide History, ClosedOk, OpenFileOk;
    if |cuts| > 1 {
      ClosedHere(fmt, d, h, cuts, n, 0);
    } else {
      var b :| b in d.segs;
      assert b in cuts;
    }
    forall b | b in d.segs
      ensures cuts[0] <= b
    {
      var i :| 0 <= i < |cuts| && cuts[i] == b;
      if i > 0 {
        CutsIncrease(fmt, d, h, cuts, 0, i);
      }
    }
  }

  /** Opening at any offset, in any state the writer can leave. */
  lemma {:induction false} OpenIsGood(fmt: Format, w: World, next: nat, r: OpenResult)
    requires fmt.Lawful() && WorldOk(fmt, w) && w.cuts != [] && OpensTo(fmt, w.disk, next, r)
    ensures GoodOpen(fmt, w, next, r)
  {
    hide WorldOk, GoodOpen, OpenAt;
    if b :| b in w.disk.segs && b <= next {
      var m := HasBestIn(w.disk.segs.Keys, next, b);
      assert IsBest(w.disk, next, m);
      if m in w.disk.idxs {
        ClosedOpens(fmt, w, m, next);
      } else {
        TailOpens(fmt, w, m, next);
      }
    } else {
      NoneOpens(fmt, w, next, r);
    }
  }

  // ---- the delivery loop interleaved with the writer ----

  /** Where `next_entry` is: not called, waiter armed, about to read, about to park, or parked. */
  datatype Phase = Idle | Armed | Reading | Checked | Parked

  /** A subscription in use. `signalled` is the armed waiter; `failure` what ended it. */
  datatype Session = Session(sub: Sub, phase: Phase, signalled: bool, delivered: seq<LogEntry>,
                             failure: Option<StorageError>)

  /** One atomic step of the subscriber: `d` is the directory it sees, `contents` the bytes its open file can have. */
  ghost predicate SubscriberTakes(fmt: Format, d: Directory, contents: map<nat, seq<byte>>, s: Session, t: Session) {
    match s.phase
    case Idle => !s.sub.closed && t == s.(phase := Armed, signalled := false)
    case Armed =>
      exists sub, o :: OpenStep(fmt, d, s.sub, sub, o) && t == Acted(s.(sub := sub), o, Reading)
    case Reading =>
      && s.sub.file.Some? && s.sub.file.value.base in contents
      && var (sub, o) := ReadStep(fmt, d, contents, s.sub);
         t == Acted(s.(sub := sub), o, Armed)
    case Checked => t == if s.signalled then s.(phase := Armed, signalled := false) else s.(phase := Parked)
    case Parked => s.signalled && t == s.(phase := Armed, signalled := false)
  }

  /**
   * What an outcome does to the session: `again` is the phase that follows `Again`, with a fresh waiter if it is the
   * loop's top.
   */
  function Acted(s: Session, o: Outcome, again: Phase): Session {
    match o
    case Deliver(e) => s.(phase := Idle, delivered := s.delivered + [e])
    case Fail(e) => s.(phase := Idle, failure := Some(e))
    case Again => s.(phase := again, signalled := if again.Armed? then false else s.signalled)
    case Wait => s.(phase := Checked)
  }

  /** One step of the writer; announcing signals every waiter armed before it. */
  ghost predicate WriterTakes(fmt: Format, w: World, v: World, step: WriterStep, s: Session, t: Session) {
    && Allowed(fmt, w, step) && v == Next(fmt, w, step)
    && t == if step.Announce? then s.(signalled := true) else s
  }

  /** What holds of a subscription from `from` at every moment. */
  ghost predicate SessionOk(fmt: Format, w: World, from: nat, s: Session) {
    && WorldOk(fmt, w)
    && s.sub.next == from + |s.delivered|
    && (s.delivered != [] ==> s.sub.next <= |w.history| && s.delivered == w.history[from..s.sub.next])
    && (s.failure.None? ==> SubOk(fmt, w, s.sub) && !s.sub.closed)
    && (s.failure.Some? ==> s.sub.closed && s.phase.Idle?
                            && s.failure.value.RetentionExpired? && s.failure.value.requested == s.sub.next
                            && s.sub.next < w.cuts[0])
    && (s.phase.Reading? ==> s.sub.file.Some?)
    && ((s.phase.Checked? || s.phase.Parked?) && !s.signalled ==> w.announced <= s.sub.next)
  }

  lemma {:induction false} WriterKeepsSession(fmt: Format, w: World, v: World, step: WriterStep, from: nat, s: Session,
                                              t: Session)
    requires SessionOk(fmt, w, from, s) && WriterTakes(fmt, w, v, step, s, t)
    ensures SessionOk(fmt, v, from, t)
  {
    hide WorldOk, SubOk, Allowed, History;
    WriterKeeps(fmt, w, step);
    LaterParts(fmt, w, v);
    if s.failure.None? {
      SubLater(fmt, w, v, s.sub);
    }
    if !step.Announce? {
      OnlyAnnounceAnnounces(fmt, w, step);
    }
    if s.delivered != [] {
      SamePrefix(w.history, v.history, from, s.sub.next);
    }
    hide Next;
  }

  lemma {:induction false} SamePrefix(h: seq<LogEntry>, g: seq<LogEntry>, from: nat, next: nat)
    requires h <= g && from <= next <= |h|
    ensures h[from..next] == g[from..next]
  {
  }

  lemma {:induction false} LaterParts(fmt: Format, w: World, v: World)
    requires Later(fmt, w, v)
    ensures WorldOk(fmt, w) && WorldOk(fmt, v) && w.cuts != [] && v.cuts != []
    ensures w.history <= v.history && w.announced <= v.announced && w.cuts[0] <= v.cuts[0]
  {
    hide WorldOk;
    WorldParts(fmt, w);
    WorldParts(fmt, v);
  }

  lemma {:induction false} OnlyAnnounceAnnounces(fmt: Format, w: World, step: WriterStep)
    requires Allowed(fmt, w, step) && !step.Announce?
    ensures Next(fmt, w, step).announced == w.announced
  {
    hide Full, Sealed, StoredAt, RecordBytes, HeaderBytes;
  }

  lemma {:induction false} SubscriberKeepsSession(fmt: Format, w: World, from: nat, s: Session, t: Session)
    requires fmt.Lawful() && SessionOk(fmt, w, from, s) && s.failure.None?
    requires SubscriberTakes(fmt, w.disk, w.contents, s, t)
    ensures SessionOk(fmt, w, from, t)
  {
    hide WorldOk, SubOk, OpenStep, ReadStep;
    WorldParts(fmt, w);
    match s.phase {
      case Armed =>
        var sub, o :| OpenStep(fmt, w.disk, s.sub, sub, o) && t == Acted(s.(sub := sub), o, Reading);
        OpenKeeps(fmt, w, s.sub, sub, o);
      case Reading =>
        ReadDelivers(fmt, w, s.sub);
        var (sub, o) := ReadStep(fmt, w.disk, w.contents, s.sub);
        if o.Deliver? {
          DeliveredOneMore(w.history, from, s.delivered, s.sub.next, o.entry);
        }
      case _ =>
    }
  }

  lemma {:induction false} DeliveredOneMore(h: seq<LogEntry>, from: nat, delivered: seq<LogEntry>, next: nat,
                                            e: LogEntry)
    requires next == from + |delivered| && next < |h| && e == h[next]
    requires delivered != [] ==> delivered == h[from..next]
    ensures delivered + [e] == h[from..next + 1]
  {
  }

  lemma {:induction false} OpenKeeps(fmt: Format, w: World, s: Sub, t: Sub, o: Outcome)
    requires fmt.Lawful() && WorldOk(fmt, w) && w.cuts != [] && SubOk(fmt, w, s) && !s.closed
    requires OpenStep(fmt, w.disk, s, t, o)
    ensures t.next == s.next && !o.Deliver?
    ensures o.Again? ==> SubOk(fmt, w, t) && !t.closed && t.file.Some?
    ensures o.Wait? ==> t == s && w.announced <= s.next
    ensures o.Fail? ==> t.closed && s.next < w.cuts[0] && o.error.RetentionExpired? && o.error.requested == s.next
  {
    hide WorldOk, OpensTo, HandleAt;
    if s.file.None? {
      var r :| OpensTo(fmt, w.disk, s.next, r) &&
        match r
        case Opened(handle) => t == s.(file := Some(handle)) && o == Again
        case NotYet => t == s && o == Wait
        case Refused(e) => t == s.(closed := true) && o == Fail(e);
      OpenIsGood(fmt, w, s.next, r);
    }
  }

  // ---- what is there to be delivered is delivered ----

  /** Opening where an announced entry is retained finds its record. */
  lemma {:induction false} OpensAtNext(fmt: Format, w: World, s: Sub, t: Sub, o: Outcome)
    requires fmt.Lawful() && WorldOk(fmt, w) && w.cuts != [] && s.file.None? && OpenStep(fmt, w.disk, s, t, o)
    requires w.cuts[0] <= s.next < w.announced
    ensures o == Again && t.file.Some? && t == s.(file := t.file)
    ensures HandleAt(fmt, w, t.file.value, s.next, s.next) && s.next < Limit(w, t.file.value.base)
  {
    hide WorldOk, OpensTo, HandleAt;
    var r :| OpensTo(fmt, w.disk, s.next, r) &&
      match r
      case Opened(handle) => t == s.(file := Some(handle)) && o == Again
      case NotYet => t == s && o == Wait
      case Refused(e) => t == s.(closed := true) && o == Fail(e);
    OpenIsGood(fmt, w, s.next, r);
  }

  /** Reading where an announced entry's record starts delivers it. */
  lemma {:induction false} ReadsAtNext(fmt: Format, w: World, s: Sub)
    requires fmt.Lawful() && WorldOk(fmt, w) && s.file.Some? && HandleAt(fmt, w, s.file.value, s.next, s.next)
    requires s.next < w.announced && s.next < Limit(w, s.file.value.base)
    ensures s.file.value.base in w.contents && s.next < |w.history|
    ensures var (t, o) := ReadStep(fmt, w.disk, w.contents, s);
            o == Deliver(w.history[s.next]) && t.next == s.next + 1 && t.closed == s.closed
  {
    hide WorldOk, Stored, History, ParseRecord, After, HandleAt, Limit;
    var f, j := s.file.value, s.next;
    WorldParts(fmt, w);
    HandleParts(fmt, w, f, j, j);
    ReadHandle(fmt, w, f.base, j);
    OffsetOf(fmt, w.history, j);
  }
}
