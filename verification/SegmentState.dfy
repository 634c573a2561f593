/** What the running log keeps in memory, and how it mirrors the directory. */
module SegmentState {
  import opened Bytes
  import opened Wrappers
  import opened EventLogPort
  import opened SegmentRecords
  import opened SegmentDisk

  datatype ClosedSegment = ClosedSegment(
    baseOffset: nat,
    lastOffset: nat,
    lastAppendedAtNs: u64,
    byteSize: nat,
    positions: seq<nat>)

  /** `cursor` is the file handle's position: reading moves it, writing happens at it. */
  datatype ActiveSegment = ActiveSegment(
    baseOffset: nat,
    positions: seq<nat>,
    byteSize: nat,
    createdAtNs: u64,
    nextFilePos: nat,
    lastAppendedAtNs: u64,
    cursor: nat)

  /** A running log: its directory and its memory. */
  datatype LogState = LogState(disk: Directory, closed: seq<ClosedSegment>, active: Option<ActiveSegment>,
                               nextOffset: u64)

  function Bases(closed: seq<ClosedSegment>): (bs: seq<nat>)
    ensures |bs| == |closed| && forall i :: 0 <= i < |bs| ==> bs[i] == closed[i].baseOffset
  {
    seq(|closed|, i requires 0 <= i < |closed| => closed[i].baseOffset)
  }

  /**
   * Where the retained segments start, and where the next one does if none is active: what the memory says of the
   * window.
   */
  function CutsOf(s: LogState): (cuts: seq<nat>)
    ensures |cuts| == |s.closed| + 1
  {
    Bases(s.closed) + [if s.active.Some? then s.active.value.baseOffset else s.nextOffset]
  }

  /** The offset at which the retained window starts. */
  function First(s: LogState): nat {
    CutsOf(s)[0]
  }

  ghost predicate ClosedMatches(fmt: Format, d: Directory, h: seq<LogEntry>, c: ClosedSegment, b: nat, e: nat)
    requires History(fmt, h)
  {
    && b < e <= |h| && b in d.segs
    && c == ClosedSegment(b, e - 1, h[e - 1].appendedAtNs, |d.segs[b].data|, StoredAt(fmt, h, b, e))
  }

  ghost predicate AllClosedMatch(fmt: Format, d: Directory, h: seq<LogEntry>, closed: seq<ClosedSegment>,
                                 cuts: seq<nat>)
    requires History(fmt, h)
  {
    && |closed| == |cuts| - 1
    && forall i :: 0 <= i < |closed| ==> ClosedMatches(fmt, d, h, closed[i], cuts[i], cuts[i + 1])
  }

  ghost predicate ActiveMatches(fmt: Format, d: Directory, h: seq<LogEntry>, a: ActiveSegment, t: nat)
    requires History(fmt, h)
  {
    && a.baseOffset == t <= |h| && t in d.segs && Full(fmt, d.segs[t], h, t)
    && a.positions == StoredAt(fmt, h, t, |h|)
    && a.nextFilePos == |d.segs[t].data| && a.byteSize == a.nextFilePos - HEADER_LEN
    && a.lastAppendedAtNs == (if t == |h| then 0 else h[|h| - 1].appendedAtNs)
  }

  /** A log that holds history `h`, retained from the first cut on, the first `n` entries of it for certain. */
  ghost predicate LogOk(fmt: Format, s: LogState, h: seq<LogEntry>, n: nat) {
    && DiskOk(fmt, s.disk, h, CutsOf(s), n)
    && s.nextOffset == |h|
    && AllClosedMatch(fmt, s.disk, h, s.closed, CutsOf(s))
    && TailMatches(fmt, s, h)
  }

  ghost predicate TailMatches(fmt: Format, s: LogState, h: seq<LogEntry>)
    requires History(fmt, h)
  {
    if s.active.Some? then ActiveMatches(fmt, s.disk, h, s.active.value, Last(CutsOf(s)))
    else Last(CutsOf(s)) == |h| && Last(CutsOf(s)) !in s.disk.segs
  }

  lemma {:induction false} LogParts(fmt: Format, s: LogState, h: seq<LogEntry>, n: nat)
    requires LogOk(fmt, s, h, n)
    ensures DiskOk(fmt, s.disk, h, CutsOf(s), n) && History(fmt, h) && s.nextOffset == |h| < U64_LIMIT && n <= |h|
    ensures AllClosedMatch(fmt, s.disk, h, s.closed, CutsOf(s)) && Last(CutsOf(s)) <= |h|
    ensures AllClosedOk(fmt, s.disk, h, CutsOf(s))
    ensures TailMatches(fmt, s, h)
  {
    hide TailMatches, AllClosedMatch, AllClosedOk, NoOthers;
  }

  /** A log from its parts, with the cuts its memory names. */
  lemma {:induction false} LogFrom(fmt: Format, s: LogState, h: seq<LogEntry>, n: nat, cuts: seq<nat>)
    requires DiskOk(fmt, s.disk, h, cuts, n) && History(fmt, h) && cuts != [] && s.nextOffset == |h|
    requires AllClosedMatch(fmt, s.disk, h, s.closed, cuts)
    requires if s.active.Some? then ActiveMatches(fmt, s.disk, h, s.active.value, Last(cuts))
             else Last(cuts) == |h| && Last(cuts) !in s.disk.segs
    ensures CutsOf(s) == cuts && LogOk(fmt, s, h, n)
  {
    CutsAre(fmt, s, h, cuts);
    hide DiskOk, AllClosedMatch, ActiveMatches, History, CutsOf;
  }

  lemma {:induction false} CutsAre(fmt: Format, s: LogState, h: seq<LogEntry>, cuts: seq<nat>)
    requires History(fmt, h) && cuts != [] && s.nextOffset == |h| && AllClosedMatch(fmt, s.disk, h, s.closed, cuts)
    requires if s.active.Some? then s.active.value.baseOffset == Last(cuts) else Last(cuts) == |h|
    ensures CutsOf(s) == cuts
  {
    hide History, ClosedMatches;
    forall i | 0 <= i < |s.closed|
      ensures CutsOf(s)[i] == cuts[i]
    {
      MatchAt(fmt, s.disk, h, s.closed, cuts, i);
    }
  }

  lemma {:induction false} ActiveFacts(fmt: Format, d: Directory, h: seq<LogEntry>, active: ActiveSegment, t: nat)
    requires History(fmt, h) && ActiveMatches(fmt, d, h, active, t)
    ensures active.baseOffset == t && t in d.segs && t <= |h| && Full(fmt, d.segs[t], h, t)
    ensures active.positions == StoredAt(fmt, h, t, |h|) && |active.positions| == |h| - t
    ensures d.segs[t].synced <= |d.segs[t].data| == active.nextFilePos
    ensures active.byteSize == active.nextFilePos - HEADER_LEN
    ensures t < |h| ==> active.lastAppendedAtNs == h[|h| - 1].appendedAtNs
  {
    hide History, HasHeader, Stored;
  }

  /** The tail of a running log. */
  lemma {:induction false} TailFacts(fmt: Format, s: LogState, h: seq<LogEntry>)
    requires History(fmt, h) && TailMatches(fmt, s, h)
    ensures s.active.Some? ==>
              var a, t := s.active.value, Last(CutsOf(s));
              && a.baseOffset == t && t in s.disk.segs && t <= |h| && Full(fmt, s.disk.segs[t], h, t)
              && a.positions == StoredAt(fmt, h, t, |h|) && |a.positions| == |h| - t
              && s.disk.segs[t].synced <= |s.disk.segs[t].data| == a.nextFilePos
              && a.byteSize == a.nextFilePos - HEADER_LEN
              && (t < |h| ==> a.lastAppendedAtNs == h[|h| - 1].appendedAtNs)
    ensures s.active.None? ==> Last(CutsOf(s)) == |h| && Last(CutsOf(s)) !in s.disk.segs
  {
    hide History, ActiveMatches;
    if s.active.Some? {
      ActiveFacts(fmt, s.disk, h, s.active.value, Last(CutsOf(s)));
    }
  }

  lemma {:induction false} MatchAt(fmt: Format, d: Directory, h: seq<LogEntry>, closed: seq<ClosedSegment>,
                                   cuts: seq<nat>, i: nat)
    requires History(fmt, h) && AllClosedMatch(fmt, d, h, closed, cuts) && i < |closed|
    ensures closed[i].baseOffset == cuts[i] < cuts[i + 1] == closed[i].lastOffset + 1 <= |h|
    ensures closed[i].positions == StoredAt(fmt, h, cuts[i], cuts[i + 1])
  {
    hide History, StoredAt;
    assert ClosedMatches(fmt, d, h, closed[i], cuts[i], cuts[i + 1]);
  }

  lemma {:induction false} ClosedAt(fmt: Format, d: Directory, h: seq<LogEntry>, cuts: seq<nat>, n: nat, i: nat)
    requires DiskOk(fmt, d, h, cuts, n) && i + 1 < |cuts|
    ensures History(fmt, h) && ClosedOk(fmt, d, h, cuts[i], cuts[i + 1]) && cuts[i] < cuts[i + 1] <= Last(cuts)
  {
    hide ClosedOk, TailOk, NoOthers, History;
    CutsIncrease(fmt, d, h, cuts, i, i + 1);
    if i + 1 < |cuts| - 1 {
      CutsIncrease(fmt, d, h, cuts, i + 1, |cuts| - 1);
    }
  }

  lemma {:induction false} FirstAtMostLast(fmt: Format, d: Directory, h: seq<LogEntry>, cuts: seq<nat>, n: nat)
    requires DiskOk(fmt, d, h, cuts, n)
    ensures cuts != [] && cuts[0] <= Last(cuts) && (|cuts| > 1 ==> cuts[0] < Last(cuts))
  {
    hide ClosedOk, TailOk, NoOthers, History;
    if |cuts| > 1 {
      CutsIncrease(fmt, d, h, cuts, 0, |cuts| - 1);
    }
  }

  /** The in-memory list stays right when only the tail of the directory changes and the history grows. */
  lemma {:induction false} MatchUntouched(fmt: Format, d: Directory, c: Directory, h: seq<LogEntry>, g: seq<LogEntry>,
                                         closed: seq<ClosedSegment>, cuts: seq<nat>)
    requires cuts != [] && History(fmt, h) && History(fmt, g) && Last(cuts) <= |h| && Last(cuts) <= |g|
    requires h[..Last(cuts)] == g[..Last(cuts)]
    requires AllClosedOk(fmt, d, h, cuts) && AllClosedMatch(fmt, d, h, closed, cuts) && SameBelow(d, c, Last(cuts))
    ensures AllClosedMatch(fmt, c, g, closed, cuts)
  {
    hide History, ClosedOk, ClosedMatches, SameBelow;
    forall i | 0 <= i < |closed|
      ensures ClosedMatches(fmt, c, g, closed[i], cuts[i], cuts[i + 1])
    {
      assert ClosedMatches(fmt, d, h, closed[i], cuts[i], cuts[i + 1]);
      CutsIncrease(fmt, d, h, cuts, i, |cuts| - 1);
      if i + 1 < |cuts| - 1 {
        CutsIncrease(fmt, d, h, cuts, i + 1, |cuts| - 1);
      }
      MatchMoves(fmt, d, c, h, g, closed[i], cuts[i], cuts[i + 1], Last(cuts));
    }
  }

  lemma {:induction false} MatchMoves(fmt: Format, d: Directory, c: Directory, h: seq<LogEntry>, g: seq<LogEntry>,
                                     cl: ClosedSegment, b: nat, e: nat, t: nat)
    requires History(fmt, h) && History(fmt, g) && ClosedMatches(fmt, d, h, cl, b, e) && SameBelow(d, c, t)
    requires e <= t <= |h| && t <= |g| && h[..t] == g[..t]
    ensures ClosedMatches(fmt, c, g, cl, b, e)
  {
    hide History;
    SameSlice(h, g, b, e, t);
  }

  lemma {:induction false} SameSlice(h: seq<LogEntry>, g: seq<LogEntry>, b: nat, e: nat, t: nat)
    requires b < e <= t <= |h| && t <= |g| && h[..t] == g[..t]
    ensures Slice(h, b, e) == Slice(g, b, e) && h[e - 1] == g[e - 1]
  {
    forall k | 0 <= k < t
      ensures h[k] == g[k]
    {
      assert h[k] == h[..t][k] && g[k] == g[..t][k];
    }
    assert h[b..e] == g[b..e];
  }
}
