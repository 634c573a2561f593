/**
 * Consistent Overhead Byte Stuffing. The serial codec is verified for every scheme that obeys the laws below;
 * the blocks of Cheshire and Baker's algorithm, defined here, are shown to be one.
 */
module Cobs {
  import opened Bytes
  import opened Wrappers

  /** A byte-stuffing scheme: what the serial codec uses of its COBS library. */
  datatype Scheme = Scheme(encode: seq<byte> -> seq<byte>, decode: seq<byte> -> Option<seq<byte>>,
                           maxEncodingLength: nat -> nat)
  {
    ghost predicate Lawful() {
      && (forall s: seq<byte> :: 0 !in encode(s))
      && (forall s: seq<byte> :: decode(encode(s)) == Some(s))
      && (forall s: seq<byte> :: s != [] ==> encode(s) != [] && |encode(s)| <= maxEncodingLength(|s|))
      && (forall m: nat, n: nat :: m <= n ==> maxEncodingLength(m) <= maxEncodingLength(n))
    }
  }

  const MAX_RUN := 254

  /** Length of the run of non-zero bytes at the front, cut off at 254. */
  function RunLength(s: seq<byte>): (k: nat)
    ensures k <= |s| && k <= MAX_RUN
    ensures forall i :: 0 <= i < k ==> s[i] != 0
    ensures k < |s| && k < MAX_RUN ==> s[k] == 0
  {
    RunFrom(s, 0)
  }

  function RunFrom(s: seq<byte>, k: nat): (r: nat)
    requires k <= |s| && k <= MAX_RUN
    requires forall i :: 0 <= i < k ==> s[i] != 0
    ensures k <= r <= |s| && r <= MAX_RUN
    ensures forall i :: 0 <= i < r ==> s[i] != 0
    ensures r < |s| && r < MAX_RUN ==> s[r] == 0
    decreases |s| - k
  {
    if k == |s| || k == MAX_RUN || s[k] == 0 then k else RunFrom(s, k + 1)
  }

  /**
   * Each block is a code byte (one more than the run it announces) and the run; a zero follows every block but full and
   * last ones.
   */
  function Encode(s: seq<byte>): (e: seq<byte>)
    ensures e != []
    decreases |s|
  {
    var k := RunLength(s);
    [k + 1] + s[..k] +
    (if k == |s| then [] else if k == MAX_RUN then Encode(s[k..]) else Encode(s[k + 1..]))
  }

  function Decode(e: seq<byte>): Option<seq<byte>>
    decreases |e|
  {
    if e == [] then Some([])
    else if e[0] == 0 || |e| < e[0] then None
    else if |e| == e[0] then Some(e[1..])
    else
      match Decode(e[e[0]..])
      case None => None
      case Some(tail) => Some(e[1..e[0]] + (if e[0] == MAX_RUN + 1 then [] else [0]) + tail)
  }

  function MaxEncodingLength(n: nat): nat {
    n + n / MAX_RUN + (if n % MAX_RUN > 0 then 1 else 0)
  }

  /** What follows the first block. */
  function Rest(s: seq<byte>): seq<byte>
    requires RunLength(s) < |s|
  {
    if RunLength(s) == MAX_RUN then s[MAX_RUN..] else s[RunLength(s) + 1..]
  }

  lemma {:induction false} EncodeBlock(s: seq<byte>)
    requires RunLength(s) < |s|
    ensures |Rest(s)| < |s|
    ensures Encode(s) == [RunLength(s) + 1] + s[..RunLength(s)] + Encode(Rest(s))
    ensures s == s[..RunLength(s)] + (if RunLength(s) == MAX_RUN then [] else [0]) + Rest(s)
  {
    hide RunLength;
  }

  /** The last block holds all that is left. */
  lemma {:induction false} EncodeLast(s: seq<byte>)
    requires RunLength(s) == |s|
    ensures Encode(s) == [|s| + 1] + s
  {
    hide RunLength;
    assert s[..|s|] == s && [|s| + 1] + s + [] == [|s| + 1] + s;
  }

  lemma {:induction false} RunHasNoZero(s: seq<byte>)
    ensures 0 !in s[..RunLength(s)]
  {
    hide RunLength;
  }

  lemma {:induction false} BlockHasNoZero(code: byte, run: seq<byte>, tail: seq<byte>)
    requires code != 0 && 0 !in run && 0 !in tail
    ensures 0 !in [code] + run + tail
  {
  }

  lemma {:induction false} EncodeHasNoZero(s: seq<byte>)
    ensures 0 !in Encode(s)
    decreases |s|
  {
    hide RunLength, Encode, Rest;
    RunHasNoZero(s);
    if RunLength(s) == |s| {
      EncodeLast(s);
      assert s[..|s|] == s;
      BlockHasNoZero(|s| + 1, s, []);
      assert [|s| + 1] + s + [] == [|s| + 1] + s;
    } else {
      EncodeBlock(s);
      EncodeHasNoZero(Rest(s));
      BlockHasNoZero(RunLength(s) + 1, s[..RunLength(s)], Encode(Rest(s)));
    }
  }

  lemma {:induction false} DecodeBlock(run: seq<byte>, tail: seq<byte>)
    requires |run| <= MAX_RUN && tail != [] && Decode(tail).Some?
    ensures Decode([|run| + 1] + run + tail) == Some(run + (if |run| == MAX_RUN then [] else [0]) + Decode(tail).value)
  {
    var e := [|run| + 1] + run + tail;
    assert e[1..e[0]] == run && e[e[0]..] == tail;
  }

  lemma {:induction false} DecodeLast(run: seq<byte>)
    requires |run| <= MAX_RUN
    ensures Decode([|run| + 1] + run) == Some(run)
  {
    assert ([|run| + 1] + run)[1..] == run;
  }

  lemma {:induction false} DecodeUndoesEncode(s: seq<byte>)
    ensures Decode(Encode(s)) == Some(s)
    decreases |s|
  {
    hide Decode, RunLength;
    if RunLength(s) == |s| {
      DecodeLast(s);
      EncodeLast(s);
    } else {
      hide Encode, Rest;
      EncodeBlock(s);
      DecodeUndoesEncode(Rest(s));
      DecodeBlock(s[..RunLength(s)], Encode(Rest(s)));
    }
  }

  lemma {:induction false} EncodeLength(s: seq<byte>)
    ensures |Encode(s)| <= if s == [] then 1 else MaxEncodingLength(|s|)
    decreases |s|
  {
    hide RunLength, Encode, Rest;
    if RunLength(s) == |s| {
      EncodeLast(s);
    } else {
      EncodeBlock(s);
      EncodeLength(Rest(s));
      LengthOfBlock(|s|, RunLength(s), |Rest(s)|);
    }
  }

  /** One block costs its code byte; only a full one is not paid for by the zero it stands for. */
  lemma {:induction false} LengthOfBlock(n: nat, run: nat, rest: nat)
    requires run <= MAX_RUN && n == run + (if run == MAX_RUN then 0 else 1) + rest
    requires run == MAX_RUN ==> rest > 0
    ensures 1 + run + (if rest == 0 then 1 else MaxEncodingLength(rest)) <= MaxEncodingLength(n)
  {
  }

  /** The published algorithm obeys the laws. */
  lemma {:induction false} PublishedSchemeIsLawful()
    ensures Scheme(s => Encode(s), e => Decode(e), n => MaxEncodingLength(n)).Lawful()
  {
    forall s: seq<byte>
      ensures 0 !in Encode(s) && Decode(Encode(s)) == Some(s)
      ensures s != [] ==> |Encode(s)| <= MaxEncodingLength(|s|)
    {
      EncodeHasNoZero(s);
      DecodeUndoesEncode(s);
      EncodeLength(s);
    }
  }
}
