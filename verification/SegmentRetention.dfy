/** Which closed segments a retention policy evicts, and evicting them. */
module SegmentRetention {
  import opened Bytes
  import opened Wrappers
  import opened EventLogPort
  import opened SegmentRecords
  import opened SegmentDisk
  import opened SegmentIo
  import opened SegmentState
  import opened SegmentSteps

  const NS_PER_SEC := 1_000_000_000

  /** The longest front run of segments whose newest entry is older than the cutoff. */
  function OldRun(closed: seq<ClosedSegment>, cutoff: nat): (k: nat)
    ensures k <= |closed|
    ensures forall i :: 0 <= i < k ==> closed[i].lastAppendedAtNs < cutoff
    ensures k == |closed| || closed[k].lastAppendedAtNs >= cutoff
  {
    if closed == [] || closed[0].lastAppendedAtNs >= cutoff then 0 else 1 + OldRun(closed[1..], cutoff)
  }

  function TotalSize(closed: seq<ClosedSegment>): nat {
    if closed == [] then 0 else closed[0].byteSize + TotalSize(closed[1..])
  }

  /** The size of a list of segments is the sum of their sizes. */
  lemma {:induction false} SizesAdd(a: seq<ClosedSegment>, c: ClosedSegment)
    ensures TotalSize([]) == 0
    ensures TotalSize(a + [c]) == TotalSize(a) + c.byteSize
    decreases |a|
  {
    if a == [] {
      assert [] + [c] == [c] && [c][1..] == [];
    } else {
      assert (a + [c])[1..] == a[1..] + [c];
      SizesAdd(a[1..], c);
    }
  }

  /** How many segments the size loop removes, counting down from `total`. */
  function BigRun(closed: seq<ClosedSegment>, total: nat, maxBytes: nat): (k: nat)
    ensures k <= |closed|
  {
    if total <= maxBytes || closed == [] then 0
    else 1 + BigRun(closed[1..], SaturatingSub(total, closed[0].byteSize), maxBytes)
  }

  /** The size of what is left once the first `j` segments are gone. */
  function SizeFrom(closed: seq<ClosedSegment>, j: nat): nat
    requires j <= |closed|
  {
    TotalSize(closed[j..])
  }

  lemma {:induction false} SizeFromRest(closed: seq<ClosedSegment>, j: nat)
    requires 0 < j <= |closed|
    ensures SizeFrom(closed, j) == SizeFrom(closed[1..], j - 1)
  {
    assert closed[1..][j - 1..] == closed[j..];
  }

  lemma {:induction false} SizeFromStart(closed: seq<ClosedSegment>)
    ensures SizeFrom(closed, 0) == TotalSize(closed)
  {
    assert closed[0..] == closed;
  }

  /** The size loop removes the shortest front run that brings the total within the limit, or everything. */
  lemma {:induction false} BigRunIsShortest(closed: seq<ClosedSegment>, activeSize: nat, maxBytes: nat)
    ensures var k := BigRun(closed, TotalSize(closed) + activeSize, maxBytes);
            && (k == |closed| || SizeFrom(closed, k) + activeSize <= maxBytes)
            && forall j :: 0 <= j < k ==> SizeFrom(closed, j) + activeSize > maxBytes
    decreases |closed|
  {
    hide SizeFrom;
    var total := TotalSize(closed) + activeSize;
    SizeFromStart(closed);
    if total > maxBytes && closed != [] {
      var rest := closed[1..];
      var k := BigRun(closed, total, maxBytes);
      BigRunIsShortest(rest, activeSize, maxBytes);
      SizeFromRest(closed, k);
      forall j | 0 < j < k
        ensures SizeFrom(closed, j) + activeSize > maxBytes
      {
        SizeFromRest(closed, j);
      }
    }
  }

  /** How many front segments the policy evicts at `now`. */
  function EvictedRun(policy: RetentionPolicy, now: u64, closed: seq<ClosedSegment>, activeSize: nat): (k: nat)
    ensures k <= |closed|
  {
    match policy
    case Indefinite => 0
    case TimeBased(age) => OldRun(closed, Cutoff(now, age))
    case SizeBased(max) => BigRun(closed, TotalSize(closed) + activeSize, max)
    case Hybrid(age, max) =>
      var k := OldRun(closed, Cutoff(now, age));
      k + BigRun(closed[k..], TotalSize(closed[k..]) + activeSize, max)
  }

  /** The newest entry of the segment is more than `maxAgeSecs` seconds old. */
  predicate TooOld(c: ClosedSegment, now: u64, maxAgeSecs: nat) {
    c.lastAppendedAtNs + maxAgeSecs * 1_000_000_000 < now
  }

  /** `k` is the longest front run of segments that are too old. */
  ghost predicate LongestOldRun(closed: seq<ClosedSegment>, now: u64, maxAgeSecs: nat, k: nat) {
    && k <= |closed| && (forall i :: 0 <= i < k ==> TooOld(closed[i], now, maxAgeSecs))
    && (k == |closed| || !TooOld(closed[k], now, maxAgeSecs))
  }

  /** Being older than the cutoff is being too old, for every age and time, saturated or not. */
  lemma CutoffIsAge(c: ClosedSegment, now: u64, maxAgeSecs: nat)
    ensures c.lastAppendedAtNs < Cutoff(now, maxAgeSecs) <==> TooOld(c, now, maxAgeSecs)
  {
  }

  lemma {:induction false} OldRunIsLongest(closed: seq<ClosedSegment>, now: u64, maxAgeSecs: nat)
    ensures LongestOldRun(closed, now, maxAgeSecs, OldRun(closed, Cutoff(now, maxAgeSecs)))
  {
    var k := OldRun(closed, Cutoff(now, maxAgeSecs));
    forall i | 0 <= i < |closed|
      ensures closed[i].lastAppendedAtNs < Cutoff(now, maxAgeSecs) <==> TooOld(closed[i], now, maxAgeSecs)
    {
      CutoffIsAge(closed[i], now, maxAgeSecs);
    }
    hide Cutoff, TooOld, OldRun;
  }

  /** `k` is the shortest front run whose removal brings the total within the limit, or the whole list if none does. */
  ghost predicate ShortestBigRun(closed: seq<ClosedSegment>, activeSize: nat, maxBytes: nat, k: nat) {
    && k <= |closed| && (forall j :: 0 <= j < k ==> SizeFrom(closed, j) + activeSize > maxBytes)
    && (k == |closed| || SizeFrom(closed, k) + activeSize <= maxBytes)
  }

  /** What each policy evicts, said without its loops. */
  lemma {:induction false} EvictedRunIsExact(policy: RetentionPolicy, now: u64, closed: seq<ClosedSegment>,
                                             activeSize: nat)
    ensures var k := EvictedRun(policy, now, closed, activeSize);
            match policy
            case Indefinite => k == 0
            case TimeBased(age) => LongestOldRun(closed, now, age, k)
            case SizeBased(max) => ShortestBigRun(closed, activeSize, max, k)
            case Hybrid(age, max) =>
              exists j: nat ::
                && j <= k && LongestOldRun(closed, now, age, j)
                && ShortestBigRun(closed[j..], activeSize, max, k - j)
  {
    hide SizeFrom, Cutoff, LongestOldRun, OldRun;
    match policy
    case Indefinite =>
    case TimeBased(age) => OldRunIsLongest(closed, now, age);
    case SizeBased(max) => BigRunIsShortest(closed, activeSize, max);
    case Hybrid(age, max) =>
      var j := OldRun(closed, Cutoff(now, age));
      BigRunIsShortest(closed[j..], activeSize, max);
      OldRunIsLongest(closed, now, age);
  }

  function Cutoff(now: u64, maxAgeSecs: nat): nat {
    SaturatingSub(now, SaturatingMulU64(maxAgeSecs, NS_PER_SEC))
  }

  // ---- deleting ----

  /** The segment file first, then its index. */
  function DeleteCalls(closed: seq<ClosedSegment>): seq<IoCall>
    decreases |closed|
  {
    if closed == [] then []
    else [Unlink(closed[0].baseOffset), UnlinkIndex(closed[0].baseOffset)] + DeleteCalls(closed[1..])
  }

  lemma {:induction false} DeleteCallsOn(a: seq<ClosedSegment>, b: seq<ClosedSegment>)
    ensures DeleteCalls(a + b) == DeleteCalls(a) + DeleteCalls(b)
    decreases |a|
  {
    if a == [] {
      assert a + b == b;
    } else {
      assert (a + b)[1..] == a[1..] + b;
      DeleteCallsOn(a[1..], b);
    }
  }

  /** One more segment of a list deleted. */
  lemma {:induction false} DeleteCallsMore(closed: seq<ClosedSegment>, k: nat)
    requires k < |closed|
    ensures DeleteCalls(closed[..k + 1]) ==
            DeleteCalls(closed[..k]) + [Unlink(closed[k].baseOffset), UnlinkIndex(closed[k].baseOffset)]
  {
    DeleteCallsOn(closed[..k], [closed[k]]);
    assert closed[..k + 1] == closed[..k] + [closed[k]];
    assert [closed[k]][1..] == [];
  }

  method DeleteFiles(d: Directory, base: nat) returns (after: Directory, ghost calls: seq<IoCall>)
    ensures calls == [Unlink(base), UnlinkIndex(base)] && after == ApplyAll(d, calls)
  {
    hide Apply;
    after := Apply(d, Unlink(base));
    after := Apply(after, UnlinkIndex(base));
    calls := [Unlink(base), UnlinkIndex(base)];
    ApplyTwo(d, Unlink(base), UnlinkIndex(base));
  }

  method EvictOlderThan(d: Directory, closed: seq<ClosedSegment>, cutoff: nat)
    returns (after: Directory, left: seq<ClosedSegment>, ghost calls: seq<IoCall>)
    ensures var k := OldRun(closed, cutoff);
            left == closed[k..] && calls == DeleteCalls(closed[..k]) && after == ApplyAll(d, calls)
  {
    hide ApplyAll, DeleteCalls;
    after, left, calls := d, closed, [];
    ghost var k := 0;
    Untouched(d, closed);
    while left != [] && left[0].lastAppendedAtNs < cutoff
      invariant k <= |closed| && left == closed[k..]
      invariant calls == DeleteCalls(closed[..k]) && after == ApplyAll(d, calls)
      invariant k + OldRun(left, cutoff) == OldRun(closed, cutoff)
      decreases |left|
    {
      DeleteCallsMore(closed, k);
      ghost var two;
      after, two := DeleteFiles(after, left[0].baseOffset);
      ApplyConcat(d, calls, two);
      calls := calls + two;
      left := left[1..];
      k := k + 1;
    }
  }

  lemma {:induction false} Untouched(d: Directory, closed: seq<ClosedSegment>)
    ensures closed[0..] == closed && DeleteCalls(closed[..0]) == [] && ApplyAll(d, []) == d
  {
  }

  method SumSizes(closed: seq<ClosedSegment>) returns (total: nat)
    ensures total == TotalSize(closed)
  {
    total := 0;
    for i := |closed| downto 0
      invariant total == TotalSize(closed[i..])
    {
      assert closed[i..][1..] == closed[i + 1..];
      total := closed[i].byteSize + total;
    }
    assert closed[0..] == closed;
  }

  method EvictToSize(d: Directory, closed: seq<ClosedSegment>, activeSize: nat, maxBytes: nat)
    returns (after: Directory, left: seq<ClosedSegment>, ghost calls: seq<IoCall>)
    ensures var k := BigRun(closed, TotalSize(closed) + activeSize, maxBytes);
            left == closed[k..] && calls == DeleteCalls(closed[..k]) && after == ApplyAll(d, calls)
  {
    hide ApplyAll, DeleteCalls;
    var closedSize := SumSizes(closed);
    var total: nat := closedSize + activeSize;
    after, left, calls := d, closed, [];
    ghost var k := 0;
    Untouched(d, closed);
    while total > maxBytes && left != []
      invariant k <= |closed| && left == closed[k..]
      invariant calls == DeleteCalls(closed[..k]) && after == ApplyAll(d, calls)
      invariant k + BigRun(left, total, maxBytes) == BigRun(closed, TotalSize(closed) + activeSize, maxBytes)
      decreases |left|
    {
      DeleteCallsMore(closed, k);
      var evictedSize := left[0].byteSize;
      ghost var two;
      after, two := DeleteFiles(after, left[0].baseOffset);
      ApplyConcat(d, calls, two);
      calls := calls + two;
      left := left[1..];
      total := SaturatingSub(total, evictedSize);
      k := k + 1;
    }
  }

  /** One front run and then another. */
  lemma {:induction false} DeletedTwice(closed: seq<ClosedSegment>, k: nat, j: nat)
    requires k + j <= |closed|
    ensures DeleteCalls(closed[..k]) + DeleteCalls(closed[k..][..j]) == DeleteCalls(closed[..k + j])
    ensures closed[k..][j..] == closed[k + j..]
  {
    hide DeleteCalls;
    DeleteCallsOn(closed[..k], closed[k..][..j]);
    assert closed[..k] + closed[k..][..j] == closed[..k + j];
  }

  /** Retention deletes exactly the run its policy names, oldest first. */
  method EnforceRetention(policy: RetentionPolicy, now: u64, d: Directory, closed: seq<ClosedSegment>, activeSize: nat)
    returns (after: Directory, left: seq<ClosedSegment>, ghost calls: seq<IoCall>)
    ensures var k := EvictedRun(policy, now, closed, activeSize);
            left == closed[k..] && calls == DeleteCalls(closed[..k]) && after == ApplyAll(d, calls)
  {
    hide OldRun, BigRun, ApplyAll, DeleteCalls, TotalSize, Cutoff;
    match policy {
      case Indefinite =>
        after, left, calls := d, closed, [];
        Untouched(d, closed);
      case TimeBased(age) => after, left, calls := EvictOlderThan(d, closed, Cutoff(now, age));
      case SizeBased(max) => after, left, calls := EvictToSize(d, closed, activeSize, max);
      case Hybrid(age, max) =>
        var at, young;
        ghost var older, bigger;
        at, young, older := EvictOlderThan(d, closed, Cutoff(now, age));
        after, left, bigger := EvictToSize(at, young, activeSize, max);
        ghost var k := OldRun(closed, Cutoff(now, age));
        ghost var j := BigRun(young, TotalSize(young) + activeSize, max);
        DeletedTwice(closed, k, j);
        ApplyConcat(d, older, bigger);
        calls := older + bigger;
    }
  }

  // ---- what deleting does to the log's own directory ----

  /** The closed segments at the front of the directory can be deleted one by one. */
  ghost predicate Deletable(fmt: Format, p: Place, closed: seq<ClosedSegment>, n: nat) {
    && DiskOk(fmt, p.disk, p.history, p.cuts, n)
    && AllClosedMatch(fmt, p.disk, p.history, closed, p.cuts)
    && (Last(p.cuts) in p.disk.segs || p.disk.watermark == Some(Last(p.cuts)))
  }

  /** Dropping the first cut leaves the others matched. */
  lemma {:induction false} MatchRest(fmt: Format, d: Directory, c: Directory, h: seq<LogEntry>,
                                     closed: seq<ClosedSegment>, cuts: seq<nat>,
                                    n: nat)
    requires DiskOk(fmt, d, h, cuts, n) && AllClosedMatch(fmt, d, h, closed, cuts) && |cuts| > 1
    requires c.segs == d.segs - {cuts[0]}
    ensures AllClosedMatch(fmt, c, h, closed[1..], cuts[1..])
  {
    hide History, StoredAt, Stored, TailOk, NoOthers;
    forall i | 0 <= i < |closed| - 1
      ensures ClosedMatches(fmt, c, h, closed[1..][i], cuts[1..][i], cuts[1..][i + 1])
    {
      assert ClosedMatches(fmt, d, h, closed[i + 1], cuts[i + 1], cuts[i + 2]);
      CutsIncrease(fmt, d, h, cuts, 0, i + 1);
    }
  }

  /** The place after the first segment and its index are gone. */
  function Shorter(p: Place): Place
    requires p.cuts != []
  {
    p.(disk := p.disk.(segs := p.disk.segs - {p.cuts[0]}, idxs := p.disk.idxs - {p.cuts[0]}), cuts := p.cuts[1..])
  }

  lemma {:induction false} DeletingSteps(fmt: Format, p: Place, closed: seq<ClosedSegment>, n: nat)
    requires Deletable(fmt, p, closed, n) && closed != []
    ensures |p.cuts| > 1 && p.cuts[0] != Last(p.cuts) && closed[0].baseOffset == p.cuts[0]
    ensures Does(fmt, p.history, p.history, p, [Unlink(p.cuts[0]), UnlinkIndex(p.cuts[0])], Shorter(p))
    ensures Deletable(fmt, Shorter(p), closed[1..], n)
  {
    hide History, StoredAt, Stored, TailOk, NoOthers, AllClosedOk, StepsBy, Does;
    var h := p.history;
    FirstCloses(fmt, p, closed, n);
    var m := p.(disk := p.disk.(segs := p.disk.segs - {p.cuts[0]}), cuts := p.cuts[1..]);
    DeletingStep(fmt, p, closed, n);
    DoesOne(fmt, h, h, p, DeleteSegment, Unlink(p.cuts[0]), m);
    DoesMore(fmt, h, h, p, [Unlink(p.cuts[0])], m, DeleteIndex(p.cuts[0]), UnlinkIndex(p.cuts[0]), Shorter(p));
    assert [Unlink(p.cuts[0])] + [UnlinkIndex(p.cuts[0])] == [Unlink(p.cuts[0]), UnlinkIndex(p.cuts[0])];
    RemoveFirstKeeps(fmt, p.disk, h, p.cuts, n);
    RemoveIndexKeeps(fmt, m.disk, h, m.cuts, n, p.cuts[0]);
    MatchRest(fmt, p.disk, Shorter(p).disk, h, closed, p.cuts, n);
  }

  lemma {:induction false} FirstCloses(fmt: Format, p: Place, closed: seq<ClosedSegment>, n: nat)
    requires Deletable(fmt, p, closed, n) && closed != []
    ensures |p.cuts| > 1 && p.cuts[0] < Last(p.cuts) && closed[0].baseOffset == p.cuts[0]
    ensures Last(p.cuts[1..]) == Last(p.cuts)
  {
    hide History, StoredAt, Stored, TailOk, NoOthers, AllClosedOk;
    assert ClosedMatches(fmt, p.disk, p.history, closed[0], p.cuts[0], p.cuts[1]);
    CutsIncrease(fmt, p.disk, p.history, p.cuts, 0, |p.cuts| - 1);
  }

  lemma {:induction false} DeletingStep(fmt: Format, p: Place, closed: seq<ClosedSegment>, n: nat)
    requires Deletable(fmt, p, closed, n) && |p.cuts| > 1 && p.cuts[0] < Last(p.cuts)
    requires Last(p.cuts[1..]) == Last(p.cuts)
    ensures var m := p.(disk := p.disk.(segs := p.disk.segs - {p.cuts[0]}), cuts := p.cuts[1..]);
            && StepsBy(fmt, p, DeleteSegment, Unlink(p.cuts[0]), m)
            && StepsBy(fmt, m, DeleteIndex(p.cuts[0]), UnlinkIndex(p.cuts[0]), Shorter(p))
  {
    hide History, DiskOk, AllClosedMatch;
    DiskHistory(fmt, p.disk, p.history, p.cuts, n);
  }

  /** Both directories have the same tail and the same watermark. */
  ghost predicate SameTail(d: Directory, c: Directory, t: nat) {
    && c.watermark == d.watermark
    && (t in d.segs <==> t in c.segs)
    && (t in d.segs ==> c.segs[t] == d.segs[t])
  }

  /** Deleting a front run is one step of the writer after another, and takes nothing else away. */
  lemma {:induction false} DeletesDo(fmt: Format, p: Place, closed: seq<ClosedSegment>, k: nat,
                                     n: nat) returns (q: Place)
    requires Deletable(fmt, p, closed, n) && k <= |closed| && |p.cuts| == |closed| + 1
    ensures Does(fmt, p.history, p.history, p, DeleteCalls(closed[..k]), q)
    ensures q.history == p.history && q.cuts == p.cuts[k..] && q.announced == p.announced
    ensures Deletable(fmt, q, closed[k..], n) && SameTail(p.disk, q.disk, Last(p.cuts))
    decreases k
  {
    hide Deletable, Does;
    if k == 0 {
      q := p;
      DoesNothing(fmt, p.history, p.history, p);
      assert closed[0..] == closed && p.cuts[0..] == p.cuts && closed[..0] == [];
    } else {
      DeletingSteps(fmt, p, closed, n);
      q := DeletesDo(fmt, Shorter(p), closed[1..], k - 1, n);
      DoesOn(fmt, p.history, p.history, p, [Unlink(p.cuts[0]), UnlinkIndex(p.cuts[0])], Shorter(p),
             DeleteCalls(closed[1..][..k - 1]), q);
      assert closed[..k][1..] == closed[1..][..k - 1] && closed[1..][k - 1..] == closed[k..];
      assert p.cuts[1..][k - 1..] == p.cuts[k..];
    }
  }
}
