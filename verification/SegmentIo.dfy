/** What the log asks of the file system, call by call. */
module SegmentIo {
  import opened Bytes
  import opened Wrappers
  import opened EventLogPort
  import opened SegmentFiles
  import opened SegmentDisk

  /**
   * One call. An index or watermark is written to a temporary file, synced and renamed into place: one durable step.
   */
  datatype IoCall =
    | CreateFile(base: nat)
    | WriteFile(base: nat, pos: nat, bytes: seq<byte>)
    | SetLen(base: nat, len: nat)
    | SyncFile(base: nat)
    | PutIndex(base: nat, positions: seq<nat>)
    | PutWatermark(next: u64)
    | Unlink(base: nat)
    | UnlinkIndex(base: nat)
    | NotifyWaiters

  function Zeros(n: nat): (z: seq<byte>)
    ensures |z| == n
  {
    seq(n, _ => 0)
  }

  /** Writing at a position overwrites what is there and extends the file, past its end with zeros in between. */
  function WriteAt(f: SegFile, pos: nat, bytes: seq<byte>): SegFile {
    var front := if pos <= |f.data| then f.data[..pos] else f.data + Zeros(pos - |f.data|);
    SegFile(front + bytes + After(f.data, pos + |bytes|), Min(f.synced, pos))
  }

  lemma {:induction false} WriteAtEnd(f: SegFile, bytes: seq<byte>)
    requires f.synced <= |f.data|
    ensures WriteAt(f, |f.data|, bytes) == f.(data := f.data + bytes)
  {
    assert f.data[..|f.data|] == f.data && f.data + bytes + [] == f.data + bytes;
  }

  function Resized(f: SegFile, len: nat): SegFile {
    if len <= |f.data| then Truncated(f, len) else f.(data := f.data + Zeros(len - |f.data|))
  }

  function Synced(f: SegFile): SegFile {
    f.(synced := |f.data|)
  }

  function FileOf(d: Directory, base: nat): SegFile {
    if base in d.segs then d.segs[base] else SegFile([], 0)
  }

  function Apply(d: Directory, call: IoCall): Directory {
    match call
    case CreateFile(b) => Put(d, b, SegFile([], 0))
    case WriteFile(b, pos, bytes) => Put(d, b, WriteAt(FileOf(d, b), pos, bytes))
    case SetLen(b, len) => Put(d, b, Resized(FileOf(d, b), len))
    case SyncFile(b) => Put(d, b, Synced(FileOf(d, b)))
    case PutIndex(b, positions) => d.(idxs := d.idxs[b := positions])
    case PutWatermark(next) => d.(watermark := Some(next))
    case Unlink(b) => d.(segs := d.segs - {b})
    case UnlinkIndex(b) => d.(idxs := d.idxs - {b})
    case NotifyWaiters => d
  }

  function ApplyAll(d: Directory, calls: seq<IoCall>): Directory
    decreases |calls|
  {
    if calls == [] then d else ApplyAll(Apply(d, calls[0]), calls[1..])
  }

  lemma {:induction false} ApplyConcat(d: Directory, a: seq<IoCall>, b: seq<IoCall>)
    ensures ApplyAll(d, a + b) == ApplyAll(ApplyAll(d, a), b)
    decreases |a|
  {
    hide Apply;
    if a == [] {
      assert a + b == b;
    } else {
      assert (a + b)[1..] == a[1..] + b;
      ApplyConcat(Apply(d, a[0]), a[1..], b);
    }
  }

  lemma {:induction false} ApplyOne(d: Directory, call: IoCall)
    ensures ApplyAll(d, [call]) == Apply(d, call)
  {
    hide Apply;
    assert [call][1..] == [];
  }

  lemma {:induction false} ApplyMore(d: Directory, calls: seq<IoCall>, call: IoCall)
    ensures ApplyAll(d, calls + [call]) == Apply(ApplyAll(d, calls), call)
  {
    hide Apply, ApplyAll;
    ApplyConcat(d, calls, [call]);
    ApplyOne(ApplyAll(d, calls), call);
  }

  lemma {:induction false} ApplyNothing(d: Directory)
    ensures ApplyAll(d, []) == d
  {
  }

  lemma {:induction false} ApplyFirst(d: Directory, calls: seq<IoCall>)
    requires calls != []
    ensures ApplyAll(d, calls) == ApplyAll(Apply(d, calls[0]), calls[1..])
  {
    hide Apply;
  }

  lemma {:induction false} ApplyTwo(d: Directory, a: IoCall, b: IoCall)
    ensures ApplyAll(d, [a, b]) == Apply(Apply(d, a), b)
  {
    hide Apply, ApplyAll;
    ApplyMore(d, [a], b);
    ApplyOne(d, a);
    assert [a] + [b] == [a, b];
  }

  lemma {:induction false} PutAgain(d: Directory, t: nat, f: SegFile, g: SegFile)
    ensures t in Put(d, t, f).segs && Put(d, t, f).segs[t] == f && Put(Put(d, t, f), t, g) == Put(d, t, g)
    ensures t in d.segs ==> Put(d, t, d.segs[t]) == d
  {
    assert d.segs[t := f][t := g] == d.segs[t := g];
    assert t in d.segs ==> d.segs[t := d.segs[t]] == d.segs;
  }

  lemma {:induction false} PutGives(d: Directory, t: nat, f: SegFile)
    ensures t in Put(d, t, f).segs && FileOf(Put(d, t, f), t) == f
  {
  }
}
