/** Reading the log page by page, as the query side of the service does. */
module EventQueries {
  import opened Bytes
  import opened Wrappers
  import opened EventLogPort
  import opened SegmentState
  import opened SegmentReading
  import opened SegmentLogs

  datatype EventPage = EventPage(entries: seq<LogEntry>, latestOffset: Option<int>)

  /** One page: at most `limit` entries from `from` on. */
  function Page(h: seq<LogEntry>, first: nat, from: u64, limit: u64): Result<seq<LogEntry>, StorageError> {
    RangeOf(h, first, from, Some(SaturatingAddU64(from, limit)))
  }

  method ReadEvents(log: SegmentLog, from: u64, limit: u64) returns (r: Result<EventPage, StorageError>)
    requires log.Valid()
    modifies log`active
    ensures log.Valid()
    ensures var page := Page(log.history, First(log.State()), from, limit);
            r == if page.Err? then Err(page.error)
                 else Ok(EventPage(page.value, if log.history == [] then None else Some(|log.history| - 1)))
  {
    var latest := log.LatestOffset();
    var to: u64 := SaturatingAddU64(from, limit);
    var entries := log.ReadRange(from, Some(to));
    if entries.Err? {
      return Err(entries.error);
    }
    return Ok(EventPage(entries.value, latest));
  }

  /** What a client collects that asks for the next page until one is empty or fails. */
  function Collect(h: seq<LogEntry>, first: nat, from: u64, limit: u64): seq<LogEntry>
    requires limit >= 1 && |h| < U64_LIMIT
    decreases |h| - from
  {
    var page := Page(h, first, from, limit);
    if page.Err? || page.value == [] then []
    else page.value + Collect(h, first, from + |page.value|, limit)
  }

  /** Paging with any limit visits each retained entry from `from` on exactly once, in order. */
  lemma {:induction false} PagingVisitsEachOnce(h: seq<LogEntry>, first: nat, from: u64, limit: u64)
    requires limit >= 1 && |h| < U64_LIMIT && first <= from <= |h|
    ensures Collect(h, first, from, limit) == h[from..]
    decreases |h| - from
  {
    if from < |h| {
      var page := Page(h, first, from, limit).value;
      var end := from + |page|;
      assert page == h[from..end] && end > from;
      PagingVisitsEachOnce(h, first, end, limit);
      assert h[from..] == h[from..end] + h[end..];
    }
  }

  /** Below the retained window a client is told so, with the offset to restart from if there is one. */
  lemma {:induction false} EvictedPagesExpire(h: seq<LogEntry>, first: nat, from: u64, limit: u64)
    requires limit >= 1 && |h| < U64_LIMIT && first <= |h|
    ensures Page(h, first, from, limit).Err? <==> from < first
    ensures from < first ==>
        Page(h, first, from, limit) == Err(RetentionExpired(from, if first == |h| then None else Some(first)))
  {
  }

  /** A range read that answers gives the entries of the offsets from `from` up to `to`, as far as the log reaches. */
  lemma RangeIsExact(h: seq<LogEntry>, first: nat, from: u64, to: Option<u64>)
    requires first <= |h|
    ensures var r := RangeOf(h, first, from, to);
            && (r.Ok? <==> from >= first || (to.Some? && to.value <= from))
            && (r.Ok? ==>
                  && from + |r.value| == Max(from, if to.Some? then Min(to.value, |h|) else |h|)
                  && (forall i :: 0 <= i < |r.value| ==> r.value[i] == h[from + i]))
            && (r.Err? ==> r.error == RetentionExpired(from, if first < |h| then Some(first) else None))
  {
  }

  /** A page is never longer than asked for, and shorter only where the log ends. */
  lemma PageIsBounded(h: seq<LogEntry>, first: nat, from: u64, limit: u64)
    requires |h| < U64_LIMIT && first <= from
    ensures var page := Page(h, first, from, limit);
            && page.Ok? && |page.value| == (if from >= |h| then 0 else Min(limit, |h| - from))
            && forall i :: 0 <= i < |page.value| ==> page.value[i] == h[from + i]
  {
  }
}
