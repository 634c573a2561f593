/** A subscription that follows the log by reading its files, interleaved with the writer. */
module SegmentSubscriptions {
  import opened Bytes
  import opened Wrappers
  import opened EventLogPort
  import opened SegmentRecords
  import opened SegmentFiles
  import opened SegmentDisk

  /** An open file, the position of the next record, and whether the file had no index when it was opened. */
  datatype Handle = Handle(base: nat, pos: nat, isActive: bool)

  datatype Sub = Sub(next: nat, file: Option<Handle>, closed: bool)

  datatype Outcome = Deliver(entry: LogEntry) | Fail(error: StorageError) | Again | Wait

  datatype OpenResult = Opened(handle: Handle) | NotYet | Refused(error: StorageError)

  // ---- scanning the directory ----

  /** The largest base at or below the offset, and the smallest of all. */
  method ScanSegments(listing: seq<nat>, offset: nat) returns (best: Option<nat>, min: Option<nat>)
    ensures best.None? <==> forall b :: b in listing ==> b > offset
    ensures best.Some? ==> best.value in listing && best.value <= offset && forall b ::
        b in listing && b <= offset ==> b <= best.value
    ensures min.None? <==> listing == []
    ensures min.Some? ==> min.value in listing && forall b :: b in listing ==> min.value <= b
  {
    best, min := None, None;
    for i := 0 to |listing|
      invariant best.None? ==> forall k :: 0 <= k < i ==> listing[k] > offset
      invariant best.Some? ==> best.value in listing && best.value <= offset
      invariant best.Some? ==> forall k :: 0 <= k < i && listing[k] <= offset ==> listing[k] <= best.value
      invariant min.None? <==> i == 0
      invariant min.Some? ==> min.value in listing && forall k :: 0 <= k < i ==> min.value <= listing[k]
    {
      var base := listing[i];
      min := Some(if min.None? || base < min.value then base else min.value);
      if base <= offset {
        best := Some(if best.None? || best.value < base then base else best.value);
      }
    }
  }

  datatype SeekResult = At(pos: nat) | AtTail(pos: nat) | RolledAway | SeekFailed

  /** Reading forward from `pos`, the record of offset `current`, to the record of offset `next`. */
  function Seek(fmt: Format, data: seq<byte>, pos: nat, current: nat, next: nat): SeekResult
    requires current <= next
    decreases next - current
  {
    if current == next then At(pos)
    else
      match ParseRecord(fmt, After(data, pos))
      case Entry(_, k) => Seek(fmt, data, pos + k, current + 1, next)
      case EndOfSegment => RolledAway
      case UnexpectedEof => AtTail(pos)
      case Unreadable => SeekFailed
  }

  method SeekLinear(fmt: Format, data: seq<byte>, base: nat, next: nat) returns (r: SeekResult)
    requires base <= next
    ensures r == Seek(fmt, data, HEADER_LEN, base, next)
  {
    hide ParseRecord, After;
    var pos: nat, current: nat := HEADER_LEN, base;
    while current != next
      invariant current <= next
      invariant Seek(fmt, data, pos, current, next) == Seek(fmt, data, HEADER_LEN, base, next)
      decreases next - current
    {
      var read, cursor := ReadRecord(fmt, data, pos);
      match read {
        case Entry(_, _) =>
          pos := cursor;
          current := current + 1;
        case EndOfSegment => return RolledAway;
        case UnexpectedEof => return AtTail(pos);
        case Unreadable => return SeekFailed;
      }
    }
    return At(pos);
  }

  /** Opening the segment at `base` for the record of offset `next`. */
  function OpenAt(fmt: Format, d: Directory, base: nat, next: nat): OpenResult
    requires base in d.segs && base <= next
  {
    if base in d.idxs then
      if !IndexFits(d.idxs[base]) then Refused(Corrupted)
      else if next - base >= |d.idxs[base]| then NotYet
      else Opened(Handle(base, d.idxs[base][next - base], false))
    else
      match Seek(fmt, d.segs[base].data, HEADER_LEN, base, next)
      case At(pos) => Opened(Handle(base, pos, true))
      case AtTail(pos) => Opened(Handle(base, pos, true))
      case RolledAway => NotYet
      case SeekFailed => Refused(Corrupted)
  }

  /** What opening at `next` must come to, whatever order the directory is listed in. */
  ghost predicate OpensTo(fmt: Format, d: Directory, next: nat, r: OpenResult) {
    && (forall b :: IsBest(d, next, b) ==> r == OpenAt(fmt, d, b, next))
    && ((forall b :: b in d.segs ==> b > next) ==>
          if d.segs == map[] then
            r == if d.watermark.Some? && d.watermark.value > next then Refused(RetentionExpired(next, None)) else NotYet
          else
            exists m :: IsFirst(d, m) && r == Refused(RetentionExpired(next, Some(m))))
  }

  ghost predicate IsBest(d: Directory, next: nat, b: nat) {
    b in d.segs && b <= next && forall x :: x in d.segs && x <= next ==> x <= b
  }

  ghost predicate IsFirst(d: Directory, m: nat) {
    m in d.segs && forall x :: x in d.segs ==> m <= x
  }

  // ---- the subscription ----

  /** Reading the next record of the open file and acting on what is found. */
  function ReadStep(fmt: Format, d: Directory, contents: map<nat, seq<byte>>, s: Sub): (Sub, Outcome)
    requires s.file.Some? && s.file.value.base in contents
  {
    var f := s.file.value;
    match ParseRecord(fmt, After(contents[f.base], f.pos))
    case Entry(e, k) =>
      var moved := s.(file := Some(f.(pos := f.pos + k)));
      if e.offset < s.next && f.isActive then (moved, Again)
      else if e.offset != s.next then (moved.(closed := true), Fail(Corrupted))
      else (moved.(next := s.next + 1), Deliver(e))
    case EndOfSegment =>
      if s.next in d.segs then (s.(file := Some(Handle(s.next, HEADER_LEN, s.next !in d.idxs))), Again)
      else (s.(file := None), Again)
    case UnexpectedEof =>
      if f.isActive then (s, Wait) else (s.(closed := true), Fail(Corrupted))
    case Unreadable => (s.(closed := true), Fail(Corrupted))
  }

  /** Opening, if no file is open. `Again` means there is something to read. */
  ghost predicate OpenStep(fmt: Format, d: Directory, s: Sub, t: Sub, o: Outcome) {
    if s.file.Some? then t == s && o == Again
    else
      exists r :: OpensTo(fmt, d, s.next, r) &&
        match r
        case Opened(handle) => t == s.(file := Some(handle)) && o == Again
        case NotYet => t == s && o == Wait
        case Refused(e) => t == s.(closed := true) && o == Fail(e)
  }

  class SegmentLogSubscription {
    const fmt: Format
    var nextOffset: nat
    var currentFile: Option<Handle>
    var closed: bool

    ghost function State(): Sub
      reads this
    {
      Sub(nextOffset, currentFile, closed)
    }

    constructor (fmt: Format, from: nat)
      ensures this.fmt == fmt && State() == Sub(from, None, false)
    {
      this.fmt := fmt;
      nextOffset, currentFile, closed := from, None, false;
    }

    /** `listing` is the directory's segment files in whatever order it lists them. */
    method OpenToOffset(d: Directory, listing: seq<nat>) returns (r: OpenResult)
      requires forall b :: b in listing <==> b in d.segs
      ensures OpensTo(fmt, d, nextOffset, r)
    {
      hide ParseRecord, Seek;
      var best, min := ScanSegments(listing, nextOffset);
      if best.None? {
        if min.Some? {
          assert IsFirst(d, min.value);
          assert d.segs != map[];
          return Refused(RetentionExpired(nextOffset, Some(min.value)));
        }
        assert forall b :: b in d.segs ==> b in listing;
        assert d.segs.Keys == {};
        assert d.segs == map[];
        if d.watermark.Some? && d.watermark.value > nextOffset {
          return Refused(RetentionExpired(nextOffset, None));
        }
        return NotYet;
      }
      var base := best.value;
      assert IsBest(d, nextOffset, base);
      assert forall b :: IsBest(d, nextOffset, b) ==> b == base;
      if base in d.idxs {
        var positions := d.idxs[base];
        if !IndexFits(positions) {
          return Refused(Corrupted);
        }
        var i := nextOffset - base;
        if i >= |positions| {
          return NotYet;
        }
        return Opened(Handle(base, positions[i], false));
      }
      var sought := SeekLinear(fmt, d.segs[base].data, base, nextOffset);
      match sought {
        case At(pos) => return Opened(Handle(base, pos, true));
        case AtTail(pos) => return Opened(Handle(base, pos, true));
        case RolledAway => return NotYet;
        case SeekFailed => return Refused(Corrupted);
      }
    }

    /** The first half of a turn of the delivery loop. */
    method OpenCurrent(d: Directory, listing: seq<nat>) returns (o: Outcome)
      requires forall b :: b in listing <==> b in d.segs
      modifies this
      ensures OpenStep(fmt, d, old(State()), State(), o)
    {
      hide OpensTo;
      if currentFile.Some? {
        return Again;
      }
      var r := OpenToOffset(d, listing);
      match r {
        case Opened(handle) =>
          currentFile := Some(handle);
          return Again;
        case NotYet => return Wait;
        case Refused(e) =>
          closed := true;
          return Fail(e);
      }
    }

    /** The second half: read a record, deliver it, skip it, move to the next segment, or wait. */
    method ReadCurrent(d: Directory, contents: map<nat, seq<byte>>) returns (o: Outcome)
      requires currentFile.Some? && currentFile.value.base in contents
      modifies this
      ensures (State(), o) == ReadStep(fmt, d, contents, old(State()))
    {
      hide ParseRecord, After;
      var f := currentFile.value;
      var read, cursor := ReadRecord(fmt, contents[f.base], f.pos);
      match read {
        case Entry(entry, _) =>
          currentFile := Some(f.(pos := cursor));
          if entry.offset < nextOffset && f.isActive {
            return Again;
          }
          if entry.offset != nextOffset {
            closed := true;
            return Fail(Corrupted);
          }
          nextOffset := nextOffset + 1;
          return Deliver(entry);
        case EndOfSegment =>
          if nextOffset in d.segs {
            currentFile := Some(Handle(nextOffset, HEADER_LEN, nextOffset !in d.idxs));
          } else {
            currentFile := None;
          }
          return Again;
        case UnexpectedEof =>
          if f.isActive {
            return Wait;
          }
          closed := true;
          return Fail(Corrupted);
        case Unreadable =>
          closed := true;
          return Fail(Corrupted);
      }
    }
  }
}
