/** The log's directory as crashes see it, and what each durable step keeps. */
module SegmentDisk {
  import opened Bytes
  import opened Wrappers
  import opened EventLogPort
  import opened SegmentRecords
  import opened SegmentFiles

  /** Segment files and indexes by base offset, and the WATERMARK file. Renames and unlinks are durable when made. */
  datatype Directory = Directory(segs: map<nat, SegFile>, idxs: map<nat, seq<nat>>, watermark: Option<u64>)

  const EMPTY := Directory(map[], map[], None)

  // ---- what a directory stores ----

  /**
   * A history the log can store: every entry writable, offsets counted from zero, and one offset left to name the end.
   */
  ghost predicate History(fmt: Format, h: seq<LogEntry>) {
    AllWritable(fmt, h) && Consecutive(h, 0) && |h| < U64_LIMIT
  }

  /** The entries of offsets `b` up to `e`. */
  function Slice(h: seq<LogEntry>, b: nat, e: nat): seq<LogEntry>
    requires b <= e <= |h|
  {
    h[b..e]
  }

  lemma {:induction false} SliceWritable(fmt: Format, h: seq<LogEntry>, b: nat, e: nat)
    requires History(fmt, h) && b <= e <= |h|
    ensures AllWritable(fmt, Slice(h, b, e)) && Consecutive(Slice(h, b, e), b)
  {
    hide Writable;
    forall x | x in Slice(h, b, e)
      ensures Writable(fmt, x)
    {
      assert x in h;
    }
  }

  function Stored(fmt: Format, h: seq<LogEntry>, b: nat, e: nat): seq<byte>
    requires History(fmt, h) && b <= e <= |h|
  {
    SliceWritable(fmt, h, b, e);
    EncodeAll(fmt, Slice(h, b, e))
  }

  function StoredAt(fmt: Format, h: seq<LogEntry>, b: nat, e: nat): seq<nat>
    requires History(fmt, h) && b <= e <= |h|
  {
    SliceWritable(fmt, h, b, e);
    Positions(fmt, Slice(h, b, e))
  }

  /** A rolled segment: header, its records, the sentinel, all synced, and an index of exactly those records. */
  ghost predicate ClosedOk(fmt: Format, d: Directory, h: seq<LogEntry>, b: nat, e: nat)
    requires History(fmt, h)
  {
    && b < e <= |h| && b in d.segs && b in d.idxs
    && HasHeader(d.segs[b].data, b)
    && d.segs[b].data[HEADER_LEN..] == Stored(fmt, h, b, e) + SENTINEL
    && d.segs[b].synced == |d.segs[b].data|
    && d.idxs[b] == StoredAt(fmt, h, b, e)
  }

  /**
   * A file still being written at `b`: cut anywhere in the header, or a header and then a part of records and sentinel.
   */
  ghost predicate OpenFileOk(fmt: Format, f: SegFile, h: seq<LogEntry>, b: nat, n: nat)
    requires History(fmt, h) && n <= |h| && b <= |h|
  {
    && f.synced <= |f.data|
    && (|f.data| >= HEADER_LEN ==>
          && HasHeader(f.data, b)
          && |f.data| <= HEADER_LEN + |Stored(fmt, h, b, |h|)| + 4
          && f.data[HEADER_LEN..] == (Stored(fmt, h, b, |h|) + SENTINEL)[..|f.data| - HEADER_LEN])
    && (n > b ==> f.synced >= HEADER_LEN + |Stored(fmt, h, b, n)|)
  }

  /**
   * Where the last segment starts: a file being written, or nothing yet, and then the watermark must tell if nothing
   * else does.
   */
  ghost predicate TailOk(fmt: Format, d: Directory, h: seq<LogEntry>, b: nat, n: nat)
    requires History(fmt, h)
  {
    && n <= |h| && b <= |h|
    && if b in d.segs then b !in d.idxs && OpenFileOk(fmt, d.segs[b], h, b, n)
       else n <= b && (d.segs == map[] ==> d.watermark == Some(b) || (d.watermark == None && b == 0))
  }

  ghost predicate AllClosedOk(fmt: Format, d: Directory, h: seq<LogEntry>, cuts: seq<nat>)
    requires History(fmt, h)
  {
    forall i :: 0 <= i < |cuts| - 1 ==> ClosedOk(fmt, d, h, cuts[i], cuts[i + 1])
  }

  /** No segment file but those at the cuts, and no index at or past the last one. */
  ghost predicate NoOthers(d: Directory, cuts: seq<nat>)
    requires cuts != []
  {
    (forall b :: b in d.segs ==> b in cuts) && (forall b :: b in d.idxs ==> b < Last(cuts))
  }

  function Last(cuts: seq<nat>): nat
    requires cuts != []
  {
    cuts[|cuts| - 1]
  }

  /**
   * `d` is recoverable: it holds the entries of `h` from `cuts[0]` on, cut into segments at `cuts`, the first `n` of
   * them for certain and the others as far as they reached the disk.
   */
  ghost predicate DiskOk(fmt: Format, d: Directory, h: seq<LogEntry>, cuts: seq<nat>, n: nat) {
    && History(fmt, h) && cuts != []
    && AllClosedOk(fmt, d, h, cuts)
    && TailOk(fmt, d, h, Last(cuts), n)
    && NoOthers(d, cuts)
  }

  lemma {:induction false} FreshDirectory(fmt: Format)
    ensures DiskOk(fmt, EMPTY, [], [0], 0)
  {
  }

  lemma {:induction false} CutsIncrease(fmt: Format, d: Directory, h: seq<LogEntry>, cuts: seq<nat>, i: nat, j: nat)
    requires History(fmt, h) && AllClosedOk(fmt, d, h, cuts) && i < j < |cuts|
    ensures cuts[i] < cuts[j]
    decreases j
  {
    hide Stored, StoredAt, History, HasHeader;
    assert ClosedOk(fmt, d, h, cuts[j - 1], cuts[j]);
    if i < j - 1 {
      CutsIncrease(fmt, d, h, cuts, i, j - 1);
    }
  }

  lemma {:induction false} HasHeaderLonger(data: seq<byte>, more: seq<byte>, base: nat)
    requires HasHeader(data, base)
    ensures HasHeader(data + more, base)
  {
    HeaderOfLonger(data, more);
  }

  lemma {:induction false} HasHeaderPrefix(data: seq<byte>, k: nat, base: nat)
    requires HasHeader(data, base) && HEADER_LEN <= k <= |data|
    ensures HasHeader(data[..k], base)
  {
    HeaderOfPrefix(data, k);
  }

  // ---- crash ----

  /**
   * What a crash may leave: each file cut anywhere at or after its synced part. What it leaves is no more synced than
   * it was.
   */
  ghost predicate CrashOf(d: Directory, c: Directory) {
    && c.segs.Keys == d.segs.Keys && c.idxs == d.idxs && c.watermark == d.watermark
    && forall b :: b in d.segs ==> CutOf(d.segs[b], c.segs[b])
  }

  ghost predicate CutOf(f: SegFile, g: SegFile) {
    g.synced == f.synced <= |g.data| <= |f.data| && g.data == f.data[..|g.data|]
  }

  lemma {:induction false} CutKeepsOpenFile(fmt: Format, f: SegFile, g: SegFile, h: seq<LogEntry>, b: nat, n: nat)
    requires History(fmt, h) && n <= |h| && b <= |h| && OpenFileOk(fmt, f, h, b, n) && CutOf(f, g)
    ensures OpenFileOk(fmt, g, h, b, n)
  {
    hide Stored, History;
    if |g.data| >= HEADER_LEN {
      HeaderOfPrefix(f.data, |g.data|);
      assert f.data[..|g.data|][HEADER_LEN..] == f.data[HEADER_LEN..][..|g.data| - HEADER_LEN];
    }
  }

  /** A crash leaves a recoverable directory recoverable. */
  lemma {:induction false} CrashKeeps(fmt: Format, d: Directory, c: Directory, h: seq<LogEntry>, cuts: seq<nat>, n: nat)
    requires DiskOk(fmt, d, h, cuts, n) && CrashOf(d, c)
    ensures DiskOk(fmt, c, h, cuts, n)
  {
    hide Stored, StoredAt, History, HasHeader, OpenFileOk;
    var t := Last(cuts);
    if t in d.segs {
      CutKeepsOpenFile(fmt, d.segs[t], c.segs[t], h, t, n);
    } else {
      assert c.segs == map[] ==> d.segs == map[] by {
        assert c.segs.Keys == d.segs.Keys;
        if c.segs == map[] {
          assert d.segs.Keys == {};
        }
      }
    }
    forall i | 0 <= i < |cuts| - 1
      ensures ClosedOk(fmt, c, h, cuts[i], cuts[i + 1])
    {
      var b := cuts[i];
      assert ClosedOk(fmt, d, h, b, cuts[i + 1]);
      assert CutOf(d.segs[b], c.segs[b]);
      assert d.segs[b].data[..|d.segs[b].data|] == d.segs[b].data;
    }
  }

  // ---- the durable steps of append, roll and retention ----

  function Put(d: Directory, b: nat, f: SegFile): Directory {
    d.(segs := d.segs[b := f])
  }

  /** Both directories hold the same rolled segments below `t`. */
  ghost predicate SameBelow(d: Directory, c: Directory, t: nat) {
    && (forall b :: b in d.segs && b < t ==> b in c.segs && c.segs[b] == d.segs[b])
    && (forall b :: b in d.idxs && b < t ==> b in c.idxs && c.idxs[b] == d.idxs[b])
  }

  /** Closed segments stay as they are when only the tail of the directory and of the history changes. */
  lemma {:induction false} ClosedUntouched(fmt: Format, d: Directory, c: Directory, h: seq<LogEntry>, g: seq<LogEntry>,
                                           cuts: seq<nat>)
    requires History(fmt, h) && History(fmt, g) && cuts != [] && AllClosedOk(fmt, d, h, cuts)
    requires SameBelow(d, c, Last(cuts))
    requires Last(cuts) <= |h| && Last(cuts) <= |g| && h[..Last(cuts)] == g[..Last(cuts)]
    ensures AllClosedOk(fmt, c, g, cuts)
  {
    hide History, HasHeader;
    var t := Last(cuts);
    forall i | 0 <= i < |cuts| - 1
      ensures ClosedOk(fmt, c, g, cuts[i], cuts[i + 1])
    {
      var b, e := cuts[i], cuts[i + 1];
      assert ClosedOk(fmt, d, h, b, e);
      CutsIncrease(fmt, d, h, cuts, i, |cuts| - 1);
      if i + 1 < |cuts| - 1 {
        CutsIncrease(fmt, d, h, cuts, i + 1, |cuts| - 1);
      }
      assert e <= t && h[b..e] == h[..t][b..e] && g[b..e] == g[..t][b..e];
    }
  }

  lemma {:induction false} PutAtTail(d: Directory, f: SegFile, cuts: seq<nat>)
    requires cuts != [] && NoOthers(d, cuts)
    ensures SameBelow(d, Put(d, Last(cuts), f), Last(cuts)) && NoOthers(Put(d, Last(cuts), f), cuts)
  {
  }

  lemma {:induction false} PutIsAbove(d: Directory, t: nat, f: SegFile)
    ensures SameBelow(d, Put(d, t, f), t)
  {
  }

  /** Replacing the tail file, with the history changing past the tail only. */
  lemma {:induction false} PutKeeps(fmt: Format, d: Directory, h: seq<LogEntry>, cuts: seq<nat>, n: nat, f: SegFile,
                                    g: seq<LogEntry>, m: nat)
    requires DiskOk(fmt, d, h, cuts, n) && History(fmt, g) && m <= |g|
    requires Last(cuts) <= |g| && g[..Last(cuts)] == h[..Last(cuts)]
    requires OpenFileOk(fmt, f, g, Last(cuts), m)
    ensures DiskOk(fmt, Put(d, Last(cuts), f), g, cuts, m)
  {
    hide History, OpenFileOk, ClosedOk, AllClosedOk, NoOthers, SameBelow;
    PutAtTail(d, f, cuts);
    ClosedUntouched(fmt, d, Put(d, Last(cuts), f), h, g, cuts);
    TailNotIndexed(d, cuts);
  }

  lemma {:induction false} TailNotIndexed(d: Directory, cuts: seq<nat>)
    requires cuts != [] && NoOthers(d, cuts)
    ensures Last(cuts) !in d.idxs
  {
  }

  /** The tail file holds its header, every record of the history from its base on, and nothing else. */
  ghost predicate Full(fmt: Format, f: SegFile, h: seq<LogEntry>, b: nat)
    requires History(fmt, h) && b <= |h|
  {
    |f.data| >= HEADER_LEN && HasHeader(f.data, b) && f.data[HEADER_LEN..] == Stored(fmt, h, b, |h|)
    && f.synced <= |f.data|
  }

  lemma {:induction false} FullIsOpenFile(fmt: Format, f: SegFile, h: seq<LogEntry>, b: nat, n: nat)
    requires History(fmt, h) && b <= |h| && n <= |h| && Full(fmt, f, h, b)
    requires n > b ==> f.synced >= HEADER_LEN + |Stored(fmt, h, b, n)|
    ensures OpenFileOk(fmt, f, h, b, n)
  {
    hide History, HasHeader, Stored;
    assert (Stored(fmt, h, b, |h|) + SENTINEL)[..|f.data| - HEADER_LEN] == Stored(fmt, h, b, |h|);
  }

  /** Creating the next segment: an empty file. */
  lemma {:induction false} CreateKeeps(fmt: Format, d: Directory, h: seq<LogEntry>, cuts: seq<nat>, n: nat)
    requires DiskOk(fmt, d, h, cuts, n) && Last(cuts) !in d.segs
    ensures DiskOk(fmt, Put(d, Last(cuts), SegFile([], 0)), h, cuts, n)
  {
    assert n <= Last(cuts) <= |h|;
    hide History, HasHeader, Stored, AllClosedOk, NoOthers;
    PutKeeps(fmt, d, h, cuts, n, SegFile([], 0), h, n);
  }

  /** Writing the header of a file that has no records yet. */
  lemma {:induction false} HeaderKeeps(fmt: Format, d: Directory, h: seq<LogEntry>, cuts: seq<nat>, n: nat,
                                       createdAtNs: u64)
    requires DiskOk(fmt, d, h, cuts, n) && n <= Last(cuts) < U64_LIMIT
    ensures var f := SegFile(HeaderBytes(SegmentHeader(Last(cuts), createdAtNs)), 0);
            && DiskOk(fmt, Put(d, Last(cuts), f), h, cuts, n)
            && (Last(cuts) == |h| ==> Full(fmt, f, h, |h|))
  {
    var header := SegmentHeader(Last(cuts), createdAtNs);
    var f := SegFile(HeaderBytes(header), 0);
    HeaderReadsBack(header, []);
    assert HeaderBytes(header) + [] == HeaderBytes(header);
    assert f.data[HEADER_LEN..] == [];
    assert Last(cuts) == |h| ==> Stored(fmt, h, |h|, |h|) == [];
    hide History, Stored, AllClosedOk, NoOthers, HeaderBytes, ReadHeader;
    assert (Stored(fmt, h, Last(cuts), |h|) + SENTINEL)[..0] == [];
    PutKeeps(fmt, d, h, cuts, n, f, h, n);
  }

  /** What one more record does to the history and the file. */
  lemma {:induction false} StoredGrows(fmt: Format, h: seq<LogEntry>, e: LogEntry, b: nat)
    requires History(fmt, h) && b <= |h| && Writable(fmt, e) && e.offset == |h| && |h| + 1 < U64_LIMIT
    ensures History(fmt, h + [e])
    ensures Stored(fmt, h + [e], b, |h| + 1) == Stored(fmt, h, b, |h|) + RecordBytes(fmt, e)
    ensures Stored(fmt, h + [e], b, |h|) == Stored(fmt, h, b, |h|)
    ensures StoredAt(fmt, h + [e], b, |h| + 1) == StoredAt(fmt, h, b, |h|) + [HEADER_LEN + |Stored(fmt, h, b, |h|)|]
  {
    hide Writable, RecordBytes, EncodeAll;
    var g := h + [e];
    SliceWritable(fmt, g, b, |g|);
    var es := Slice(h, b, |h|);
    SliceWritable(fmt, h, b, |h|);
    assert Slice(g, b, |g|) == es + [e] && Slice(g, b, |h|) == es;
    EncodeAllAppend(fmt, es, [e]);
    EncodeOne(fmt, e);
    assert es[..|es|] == es && (es + [e])[..|es|] == es;
    assert forall i :: 0 <= i < |es| ==> (es + [e])[..i] == es[..i];
  }

  lemma {:induction false} StoredIgnoresTail(fmt: Format, h: seq<LogEntry>, g: seq<LogEntry>, b: nat, e: nat)
    requires History(fmt, h) && History(fmt, g) && b <= e <= |h| && e <= |g| && h[..e] == g[..e]
    ensures Stored(fmt, h, b, e) == Stored(fmt, g, b, e)
  {
    assert h[b..e] == h[..e][b..e] && g[b..e] == g[..e][b..e];
  }

  lemma {:induction false} StoredMonotone(fmt: Format, h: seq<LogEntry>, b: nat, e: nat)
    requires History(fmt, h) && b <= e <= |h|
    ensures Stored(fmt, h, b, e) <= Stored(fmt, h, b, |h|)
  {
    hide Writable, EncodeAll;
    SliceWritable(fmt, h, b, |h|);
    SliceWritable(fmt, h, b, e);
    SliceWritable(fmt, h, e, |h|);
    assert Slice(h, b, |h|) == Slice(h, b, e) + Slice(h, e, |h|);
    EncodeAllAppend(fmt, Slice(h, b, e), Slice(h, e, |h|));
  }

  /** A record written behind a full file leaves it full, with one more entry. */
  lemma {:induction false} FileGrows(fmt: Format, f: SegFile, h: seq<LogEntry>, t: nat, e: LogEntry)
    requires History(fmt, h) && t <= |h| && Full(fmt, f, h, t)
    requires Writable(fmt, e) && e.offset == |h| && |h| + 1 < U64_LIMIT
    ensures History(fmt, h + [e])
    ensures Full(fmt, f.(data := f.data + RecordBytes(fmt, e)), h + [e], t)
    ensures |f.data| == HEADER_LEN + |Stored(fmt, h, t, |h|)|
  {
    hide History, HasHeader, Stored, RecordBytes, Writable, StoredAt;
    StoredGrows(fmt, h, e, t);
    var w := f.(data := f.data + RecordBytes(fmt, e));
    HasHeaderLonger(f.data, RecordBytes(fmt, e), t);
    assert w.data[HEADER_LEN..] == f.data[HEADER_LEN..] + RecordBytes(fmt, e);
  }

  /** Appending a record to a full tail file. */
  lemma {:induction false} RecordKeeps(fmt: Format, d: Directory, h: seq<LogEntry>, cuts: seq<nat>, n: nat, e: LogEntry)
    requires DiskOk(fmt, d, h, cuts, n) && Last(cuts) in d.segs && Full(fmt, d.segs[Last(cuts)], h, Last(cuts))
    requires Writable(fmt, e) && e.offset == |h| && |h| + 1 < U64_LIMIT
    ensures var f := d.segs[Last(cuts)];
            DiskOk(fmt, Put(d, Last(cuts), f.(data := f.data + RecordBytes(fmt, e))), h + [e], cuts, n)
  {
    hide History, HasHeader, Stored, AllClosedOk, NoOthers, RecordBytes, Writable, Full;
    var t := Last(cuts);
    var f := d.segs[t];
    var g := h + [e];
    FileGrows(fmt, f, h, t, e);
    assert g[..t] == h[..t] && g[..n] == h[..n];
    if n > t {
      StoredIgnoresTail(fmt, h, g, t, n);
    }
    var w := f.(data := f.data + RecordBytes(fmt, e));
    FullIsOpenFile(fmt, w, g, t, n);
    PutKeeps(fmt, d, h, cuts, n, w, g, n);
  }

  /** Syncing a full tail file makes its whole history certain. */
  lemma {:induction false} SyncKeeps(fmt: Format, d: Directory, h: seq<LogEntry>, cuts: seq<nat>, n: nat)
    requires DiskOk(fmt, d, h, cuts, n) && Last(cuts) in d.segs && Full(fmt, d.segs[Last(cuts)], h, Last(cuts))
    ensures var f := d.segs[Last(cuts)];
            var w := f.(synced := |f.data|);
            && DiskOk(fmt, Put(d, Last(cuts), w), h, cuts, |h|)
            && Full(fmt, w, h, Last(cuts))
  {
    hide History, HasHeader, Stored, AllClosedOk, NoOthers;
    var f := d.segs[Last(cuts)];
    var w := f.(synced := |f.data|);
    FullIsOpenFile(fmt, w, h, Last(cuts), |h|);
    PutKeeps(fmt, d, h, cuts, n, w, h, |h|);
  }

  /** Cutting a full tail file back to the first `k` entries of the history, none of those certain among what goes. */
  lemma {:induction false} TakeBackKeeps(fmt: Format, d: Directory, h: seq<LogEntry>, cuts: seq<nat>, n: nat, k: nat)
    requires DiskOk(fmt, d, h, cuts, n) && Last(cuts) in d.segs && Full(fmt, d.segs[Last(cuts)], h, Last(cuts))
    requires Last(cuts) <= k <= |h| && n <= k
    ensures History(fmt, h[..k])
    ensures HEADER_LEN + |Stored(fmt, h, Last(cuts), k)| <= |d.segs[Last(cuts)].data|
    ensures var f := Truncated(d.segs[Last(cuts)], HEADER_LEN + |Stored(fmt, h, Last(cuts), k)|);
            && DiskOk(fmt, Put(d, Last(cuts), f), h[..k], cuts, n)
            && Full(fmt, f, h[..k], Last(cuts))
  {
    hide History, HasHeader, Stored, AllClosedOk, NoOthers;
    var t := Last(cuts);
    var w := d.segs[t];
    PrefixHistory(fmt, h, k);
    assert h[..k][..k] == h[..k];
    StoredIgnoresTail(fmt, h, h[..k], t, k);
    StoredMonotone(fmt, h, t, k);
    var len := HEADER_LEN + |Stored(fmt, h, t, k)|;
    var f := Truncated(w, len);
    HasHeaderPrefix(w.data, len, t);
    assert f.data[HEADER_LEN..] == w.data[HEADER_LEN..][..len - HEADER_LEN];
    if n > t {
      assert h[..k][..n] == h[..n];
      StoredIgnoresTail(fmt, h, h[..k], t, n);
      StoredMonotoneTo(fmt, h, t, n, k);
    }
    FullIsOpenFile(fmt, f, h[..k], t, n);
    assert h[..k][..t] == h[..t];
    PutKeeps(fmt, d, h, cuts, n, f, h[..k], n);
  }

  /** The tail file is complete and ends in the sentinel. */
  ghost predicate Sealed(fmt: Format, f: SegFile, h: seq<LogEntry>, b: nat)
    requires History(fmt, h) && b <= |h|
  {
    |f.data| >= HEADER_LEN && HasHeader(f.data, b) && f.data[HEADER_LEN..] == Stored(fmt, h, b, |h|) + SENTINEL
  }

  /** Writing the sentinel behind a full tail file. */
  lemma {:induction false} SentinelKeeps(fmt: Format, d: Directory, h: seq<LogEntry>, cuts: seq<nat>, n: nat)
    requires DiskOk(fmt, d, h, cuts, n) && Last(cuts) in d.segs && Full(fmt, d.segs[Last(cuts)], h, Last(cuts))
    ensures var f := d.segs[Last(cuts)];
            var w := f.(data := f.data + SENTINEL);
            && DiskOk(fmt, Put(d, Last(cuts), w), h, cuts, n)
            && Sealed(fmt, w, h, Last(cuts))
  {
    hide History, HasHeader, Stored, AllClosedOk, NoOthers;
    var t := Last(cuts);
    var f := d.segs[t];
    var w := f.(data := f.data + SENTINEL);
    HasHeaderLonger(f.data, SENTINEL, t);
    assert w.data[HEADER_LEN..] == f.data[HEADER_LEN..] + SENTINEL;
    var all := Stored(fmt, h, t, |h|) + SENTINEL;
    assert all[..|w.data| - HEADER_LEN] == all;
    PutKeeps(fmt, d, h, cuts, n, w, h, n);
  }

  /** Syncing a sealed file changes nothing that is certain. */
  lemma {:induction false} SealSyncKeeps(fmt: Format, d: Directory, h: seq<LogEntry>, cuts: seq<nat>, n: nat)
    requires DiskOk(fmt, d, h, cuts, n) && Last(cuts) in d.segs && Sealed(fmt, d.segs[Last(cuts)], h, Last(cuts))
    ensures var f := d.segs[Last(cuts)];
            var w := f.(synced := |f.data|);
            DiskOk(fmt, Put(d, Last(cuts), w), h, cuts, n) && Sealed(fmt, w, h, Last(cuts))
  {
    hide History, HasHeader, Stored, AllClosedOk, NoOthers;
    var f := d.segs[Last(cuts)];
    PutKeeps(fmt, d, h, cuts, n, f.(synced := |f.data|), h, n);
  }

  /**
   * The index of a sealed and synced tail file appears: the segment is closed and the tail moves to the end of the
   * history.
   */
  lemma {:induction false} IndexKeeps(fmt: Format, d: Directory, h: seq<LogEntry>, cuts: seq<nat>, n: nat)
    requires DiskOk(fmt, d, h, cuts, n) && Last(cuts) in d.segs && Sealed(fmt, d.segs[Last(cuts)], h, Last(cuts))
    requires d.segs[Last(cuts)].synced == |d.segs[Last(cuts)].data| && Last(cuts) < |h|
    ensures var c := d.(idxs := d.idxs[Last(cuts) := StoredAt(fmt, h, Last(cuts), |h|)]);
            DiskOk(fmt, c, h, cuts + [|h|], n) && |h| !in c.segs
  {
    hide History, HasHeader, Stored, StoredAt;
    var t := Last(cuts);
    var c := d.(idxs := d.idxs[t := StoredAt(fmt, h, t, |h|)]);
    var after := cuts + [|h|];
    assert SameBelow(d, c, t);
    ClosedUntouched(fmt, d, c, h, h, cuts);
    assert ClosedOk(fmt, c, h, t, |h|);
    forall i | 0 <= i < |after| - 1
      ensures ClosedOk(fmt, c, h, after[i], after[i + 1])
    {
      if i < |cuts| - 1 {
        assert ClosedOk(fmt, c, h, cuts[i], cuts[i + 1]);
      }
    }
    forall b | b in c.segs
      ensures b in after && b < |h|
    {
      var i :| 0 <= i < |cuts| && cuts[i] == b;
      if i < |cuts| - 1 {
        CutsIncrease(fmt, d, h, cuts, i, |cuts| - 1);
      }
      assert after[i] == b;
    }
    assert t in c.segs;
  }

  /** The watermark may be set to the tail once no file is being written. */
  lemma {:induction false} WatermarkKeeps(fmt: Format, d: Directory, h: seq<LogEntry>, cuts: seq<nat>, n: nat)
    requires DiskOk(fmt, d, h, cuts, n) && Last(cuts) !in d.segs
    ensures DiskOk(fmt, d.(watermark := Some(Last(cuts))), h, cuts, n)
  {
    assert Last(cuts) < U64_LIMIT;
    hide History, HasHeader, Stored, StoredAt;
    var c := d.(watermark := Some(Last(cuts)));
    assert SameBelow(d, c, Last(cuts));
    ClosedUntouched(fmt, d, c, h, h, cuts);
  }

  /**
   * Deleting the first segment's file: the window starts at the next cut. The watermark must be there if it was the
   * last.
   */
  lemma {:induction false} RemoveFirstKeeps(fmt: Format, d: Directory, h: seq<LogEntry>, cuts: seq<nat>, n: nat)
    requires DiskOk(fmt, d, h, cuts, n) && |cuts| > 1
    requires Last(cuts) in d.segs || d.watermark == Some(Last(cuts))
    ensures DiskOk(fmt, d.(segs := d.segs - {cuts[0]}), h, cuts[1..], n)
  {
    hide History, HasHeader, Stored, StoredAt, OpenFileOk;
    var c := d.(segs := d.segs - {cuts[0]});
    var after := cuts[1..];
    CutsIncrease(fmt, d, h, cuts, 0, |cuts| - 1);
    forall i | 0 <= i < |after| - 1
      ensures ClosedOk(fmt, c, h, after[i], after[i + 1])
    {
      assert ClosedOk(fmt, d, h, cuts[i + 1], cuts[i + 2]);
      CutsIncrease(fmt, d, h, cuts, 0, i + 1);
    }
    forall b | b in c.segs
      ensures b in after
    {
      var i :| 0 <= i < |cuts| && cuts[i] == b;
      assert i > 0 && after[i - 1] == b;
    }
    assert Last(after) == Last(cuts);
    if Last(cuts) in d.segs {
      assert c.segs[Last(cuts)] == d.segs[Last(cuts)];
    }
  }

  /** An index whose segment is gone can go. */
  lemma {:induction false} RemoveIndexKeeps(fmt: Format, d: Directory, h: seq<LogEntry>, cuts: seq<nat>, n: nat, b: nat)
    requires DiskOk(fmt, d, h, cuts, n) && b !in d.segs
    ensures DiskOk(fmt, d.(idxs := d.idxs - {b}), h, cuts, n)
  {
    hide History, HasHeader, Stored, StoredAt, OpenFileOk;
    var c := d.(idxs := d.idxs - {b});
    forall i | 0 <= i < |cuts| - 1
      ensures ClosedOk(fmt, c, h, cuts[i], cuts[i + 1])
    {
      assert ClosedOk(fmt, d, h, cuts[i], cuts[i + 1]);
    }
  }

  lemma {:induction false} DiskHistory(fmt: Format, d: Directory, h: seq<LogEntry>, cuts: seq<nat>, n: nat)
    requires DiskOk(fmt, d, h, cuts, n)
    ensures History(fmt, h) && cuts != [] && Last(cuts) <= |h| && n <= |h|
  {
  }

  lemma {:induction false} StoredMonotoneTo(fmt: Format, h: seq<LogEntry>, b: nat, m: nat, n: nat)
    requires History(fmt, h) && b <= m <= n <= |h|
    ensures |Stored(fmt, h, b, m)| <= |Stored(fmt, h, b, n)|
  {
    PrefixHistory(fmt, h, n);
    assert h[..n][..n] == h[..n] && h[..n][..m] == h[..m];
    StoredIgnoresTail(fmt, h, h[..n], b, m);
    StoredIgnoresTail(fmt, h, h[..n], b, n);
    hide History, Stored;
    StoredMonotone(fmt, h[..n], b, m);
  }

  /** What is certain may be claimed in part. */
  lemma {:induction false} CertainLess(fmt: Format, d: Directory, h: seq<LogEntry>, cuts: seq<nat>, n: nat, m: nat)
    requires DiskOk(fmt, d, h, cuts, n) && m <= n
    ensures DiskOk(fmt, d, h, cuts, m)
  {
    var t := Last(cuts);
    if t < m {
      StoredMonotoneTo(fmt, h, t, m, n);
    }
    hide History, AllClosedOk, NoOthers, Stored, HasHeader;
  }

  lemma {:induction false} PrefixHistory(fmt: Format, h: seq<LogEntry>, m: nat)
    requires History(fmt, h) && m <= |h|
    ensures History(fmt, h[..m])
  {
    hide Writable;
    assert forall e :: e in h[..m] ==> e in h;
  }

  lemma {:induction false} HistoryFits(fmt: Format, h: seq<LogEntry>)
    requires History(fmt, h)
    ensures |h| < U64_LIMIT
  {
  }

  lemma {:induction false} NothingStored(fmt: Format, h: seq<LogEntry>, b: nat)
    requires History(fmt, h) && b <= |h|
    ensures Stored(fmt, h, b, b) == []
  {
  }

  lemma {:induction false} TailNotIndexedIn(fmt: Format, d: Directory, h: seq<LogEntry>, cuts: seq<nat>, n: nat)
    requires DiskOk(fmt, d, h, cuts, n)
    ensures cuts != [] && Last(cuts) !in d.idxs
  {
    hide History, AllClosedOk, TailOk;
  }
}
