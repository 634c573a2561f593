/** Length-prefixed stream frames: u32 big-endian payload length, then the payload. */
module StreamCodec {
  import opened Bytes
  import opened Wrappers
  import opened OtkProtocol
  import opened FrameTypes

  const LENGTH_PREFIX := 4

  /** The bytes of one frame. */
  function Frame(payload: seq<byte>): (f: seq<byte>)
    requires |payload| < U32_LIMIT
    ensures |f| == LENGTH_PREFIX + |payload|
  {
    BigEndian(|payload|, LENGTH_PREFIX) + payload
  }

  method EncodeStream(codec: EnvelopeCodec, envelope: OtkEnvelope, maxFrameSize: nat)
    returns (r: Result<seq<byte>, FrameError>)
    ensures r.Ok? <==> codec.encode(envelope).Some? && |codec.encode(envelope).value| <= maxFrameSize
                       && |codec.encode(envelope).value| < U32_LIMIT
    ensures r.Ok? ==> r.value == Frame(codec.encode(envelope).value)
    ensures r.Err? && codec.encode(envelope).None? ==> r.error == EncodeFailed
    ensures r.Err? && codec.encode(envelope).Some? ==>
              r.error == OversizeFrame(Some(|codec.encode(envelope).value|),
                                       if maxFrameSize < U32_LIMIT then maxFrameSize else U32_LIMIT - 1)
  {
    var encoded := codec.encode(envelope);
    if encoded.None? {
      return Err(EncodeFailed);
    }
    var payload := encoded.value;
    var effectiveMax := if maxFrameSize < U32_LIMIT - 1 then maxFrameSize else U32_LIMIT - 1;
    if |payload| > effectiveMax {
      return Err(OversizeFrame(Some(|payload|), effectiveMax));
    }
    var out := BigEndian(|payload|, 4);
    out := out + payload;
    return Ok(out);
  }

  // ---- the one-shot parser ----

  /**
   * What parsing yields: the results in order, the unparsed bytes, and how much of an oversize payload is still to
   * come.
   */
  datatype Parsed = Parsed(results: seq<Decoded>, rest: seq<byte>, skip: nat)

  function Prepend(rs: seq<Decoded>, p: Parsed): Parsed {
    p.(results := rs + p.results)
  }

  lemma PrependNothing(p: Parsed)
    ensures Prepend([], p) == p
  {
    assert [] + p.results == p.results;
  }

  lemma PrependTwice(a: seq<Decoded>, b: seq<Decoded>, p: Parsed)
    ensures Prepend(a, Prepend(b, p)) == Prepend(a + b, p)
  {
    assert a + (b + p.results) == (a + b) + p.results;
  }

  /** What stands at the front of a byte string when no payload is being skipped. */
  datatype Head = Incomplete | Oversize(len: nat) | Whole(len: nat)

  function HeadOf(max: nat, s: seq<byte>): (h: Head)
    ensures h.Oversize? ==> |s| >= 4 && h.len > max
    ensures h.Whole? ==> |s| >= 4 + h.len && h.len <= max
  {
    if |s| < 4 then Incomplete
    else
      var len := FromBigEndian(s[..4]);
      if len > max then Oversize(len)
      else if |s| < 4 + len then Incomplete
      else Whole(len)
  }

  lemma HeadOfLonger(max: nat, a: seq<byte>, b: seq<byte>)
    ensures HeadOf(max, a).Incomplete? || HeadOf(max, a + b) == HeadOf(max, a)
  {
    if |a| >= 4 {
      assert (a + b)[..4] == a[..4];
    }
  }

  lemma HeadOfFrame(max: nat, payload: seq<byte>, tail: seq<byte>)
    requires |payload| < U32_LIMIT
    ensures HeadOf(max, Frame(payload) + tail) == if |payload| > max then Oversize(|payload|) else Whole(|payload|)
  {
    assert (Frame(payload) + tail)[..4] == BigEndian(|payload|, 4);
    Pow256Values();
    BigEndianRoundTrip(|payload|, 4);
  }

  /** Parse a whole byte string at once, first passing over `skip` bytes of an oversize payload. */
  function Parse(codec: EnvelopeCodec, max: nat, skip: nat, s: seq<byte>): (p: Parsed)
    ensures p.skip > 0 ==> p.rest == []
    decreases |s|, skip
  {
    if skip > 0 then
      if |s| < skip then Parsed([], [], skip - |s|) else Parse(codec, max, 0, s[skip..])
    else
      match HeadOf(max, s)
      case Incomplete => Parsed([], s, 0)
      case Oversize(len) =>
        Prepend([Err(OversizeFrame(Some(len), max))], Parse(codec, max, len, s[4..]))
      case Whole(len) =>
        Prepend([DecodePayload(codec, s[4..4 + len])], Parse(codec, max, 0, s[4 + len..]))
  }

  // ---- one turn of the decoder's loop, case by case ----

  lemma SkipStep(codec: EnvelopeCodec, max: nat, skip: nat, s: seq<byte>, pos: nat)
    requires pos <= |s|
    ensures var k := if |s| - pos < skip then |s| - pos else skip;
            Parse(codec, max, skip, s[pos..]) == Parse(codec, max, skip - k, s[pos + k..])
  {
    if skip <= |s| - pos {
      DropOfDrop(s, pos, skip);
    }
  }

  /** The length prefix at `pos` that the loop reads. */
  function LengthAt(s: seq<byte>, pos: nat): nat
    requires pos + 4 <= |s|
  {
    FromBigEndian(s[pos..pos + 4])
  }

  lemma OversizeStep(codec: EnvelopeCodec, max: nat, rs: seq<Decoded>, s: seq<byte>, pos: nat)
    requires pos + 4 <= |s| && LengthAt(s, pos) > max
    ensures Prepend(rs, Parse(codec, max, 0, s[pos..])) ==
            Prepend(rs + [Err(OversizeFrame(Some(LengthAt(s, pos)), max))],
                    Parse(codec, max, LengthAt(s, pos), s[pos + 4..]))
  {
    var len := LengthAt(s, pos);
    TakeOfDrop(s, pos, 4);
    DropOfDrop(s, pos, 4);
    PrependTwice(rs, [Err(OversizeFrame(Some(len), max))], Parse(codec, max, len, s[pos + 4..]));
  }

  lemma WholeStep(codec: EnvelopeCodec, max: nat, rs: seq<Decoded>, s: seq<byte>, pos: nat)
    requires pos + 4 <= |s| && LengthAt(s, pos) <= max && pos + 4 + LengthAt(s, pos) <= |s|
    ensures var len := LengthAt(s, pos);
            Prepend(rs, Parse(codec, max, 0, s[pos..])) ==
            Prepend(rs + [DecodePayload(codec, s[pos + 4..pos + 4 + len])], Parse(codec, max, 0, s[pos + 4 + len..]))
  {
    var len := LengthAt(s, pos);
    TakeOfDrop(s, pos, 4);
    SliceOfDrop(s, pos, 4, 4 + len);
    DropOfDrop(s, pos, 4 + len);
    PrependTwice(rs, [DecodePayload(codec, s[pos + 4..pos + 4 + len])], Parse(codec, max, 0, s[pos + 4 + len..]));
  }

  lemma StopStep(codec: EnvelopeCodec, max: nat, rs: seq<Decoded>, skip: nat, s: seq<byte>, pos: nat)
    requires pos <= |s|
    requires if skip > 0 then pos == |s|
             else pos + 4 > |s| || (LengthAt(s, pos) <= max && pos + 4 + LengthAt(s, pos) > |s|)
    ensures Prepend(rs, Parse(codec, max, skip, s[pos..])) == Parsed(rs, s[pos..], skip)
  {
    if skip == 0 && pos + 4 <= |s| {
      TakeOfDrop(s, pos, 4);
      assert HeadOf(max, s[pos..]).Incomplete?;
    }
    assert rs + [] == rs;
  }

  // ---- the incremental decoder ----

  /** The decoder's loop over its buffer: a cursor runs over whole frames and skipped payloads until neither is left. */
  method Drain(codec: EnvelopeCodec, max: nat, skipBytes: nat, buf: seq<byte>)
    returns (results: seq<Decoded>, pos: nat, skip: nat)
    ensures pos <= |buf|
    ensures Parsed(results, buf[pos..], skip) == Parse(codec, max, skipBytes, buf)
  {
    hide *;
    ghost var goal := Parse(codec, max, skipBytes, buf);
    results, pos, skip := [], 0, skipBytes;
    PrependNothing(goal);
    assert buf[0..] == buf;
    while true
      invariant pos <= |buf|
      invariant goal == Prepend(results, Parse(codec, max, skip, buf[pos..]))
      decreases |buf| - pos
    {
      if skip > 0 {
        var available := |buf| - pos;
        var n := if available < skip then available else skip;
        SkipStep(codec, max, skip, buf, pos);
        pos := pos + n;
        skip := skip - n;
        if skip > 0 {
          break;
        }
      }
      if |buf| - pos < 4 {
        break;
      }
      var len := LengthAt(buf, pos);
      if len > max {
        OversizeStep(codec, max, results, buf, pos);
        results := results + [Err(OversizeFrame(Some(len), max))];
        pos := pos + 4;
        skip := len;
        continue;
      }
      if |buf| - pos < 4 + len {
        break;
      }
      WholeStep(codec, max, results, buf, pos);
      var result := DecodePayload(codec, buf[pos + 4..pos + 4 + len]);
      pos := pos + 4 + len;
      results := results + [result];
    }
    StopStep(codec, max, results, skip, buf, pos);
  }

  class StreamFrameDecoder {
    const codec: EnvelopeCodec
    const maxFrameSize: nat
    var buf: seq<byte>
    var skipBytes: nat

    /** While a payload is being skipped nothing is buffered. */
    ghost predicate Valid()
      reads this
    {
      skipBytes > 0 ==> buf == []
    }

    constructor (codec: EnvelopeCodec, maxFrameSize: nat)
      ensures Valid() && buf == [] && skipBytes == 0
      ensures this.codec == codec && this.maxFrameSize == maxFrameSize
    {
      this.codec := codec;
      this.maxFrameSize := maxFrameSize;
      buf := [];
      skipBytes := 0;
    }

    predicate HasPending()
      reads this
    {
      buf != [] || skipBytes > 0
    }

    /** One push leaves the decoder exactly where the one-shot parser stops on everything it held plus the new bytes. */
    method Push(bytes: seq<byte>) returns (results: seq<Decoded>)
      requires Valid()
      modifies this
      ensures Valid()
      ensures Parsed(results, buf, skipBytes) == Parse(codec, maxFrameSize, old(skipBytes), old(buf) + bytes)
    {
      var input := bytes;
      if skipBytes > 0 {
        var n := if |bytes| < skipBytes then |bytes| else skipBytes;
        SkipStep(codec, maxFrameSize, skipBytes, bytes, 0);
        assert bytes[0..] == bytes && old(buf) + bytes == bytes && buf + bytes[n..] == bytes[n..];
        skipBytes := skipBytes - n;
        input := bytes[n..];
      }
      buf := buf + input;
      var pos;
      results, pos, skipBytes := Drain(codec, maxFrameSize, skipBytes, buf);
      if pos > 0 {
        buf := buf[pos..];
      }
    }
  }

  // ---- chunking does not matter ----

  /** Parsing `a` and then feeding `b` to where it stopped is parsing `a + b`. */
  lemma {:induction false} ParseSplit(codec: EnvelopeCodec, max: nat, skip: nat, a: seq<byte>, b: seq<byte>)
    ensures var p := Parse(codec, max, skip, a);
            Parse(codec, max, skip, a + b) == Prepend(p.results, Parse(codec, max, p.skip, p.rest + b))
    decreases |a|, skip
  {
    hide HeadOf, DecodePayload;
    if skip > 0 {
      if |a| < skip {
        assert skip <= |a + b| ==> (a + b)[skip..] == b[skip - |a|..];
        assert [] + b == b;
      } else {
        assert (a + b)[skip..] == a[skip..] + b;
        ParseSplit(codec, max, 0, a[skip..], b);
      }
    } else {
      HeadOfLonger(max, a, b);
      match HeadOf(max, a) {
        case Incomplete =>
        case Oversize(len) =>
          assert (a + b)[4..] == a[4..] + b;
          ParseSplit(codec, max, len, a[4..], b);
          var p := Parse(codec, max, len, a[4..]);
          PrependTwice([Err(OversizeFrame(Some(len), max))], p.results, Parse(codec, max, p.skip, p.rest + b));
        case Whole(len) =>
          assert (a + b)[4..4 + len] == a[4..4 + len];
          assert (a + b)[4 + len..] == a[4 + len..] + b;
          ParseSplit(codec, max, 0, a[4 + len..], b);
          var p := Parse(codec, max, 0, a[4 + len..]);
          PrependTwice([DecodePayload(codec, a[4..4 + len])], p.results, Parse(codec, max, p.skip, p.rest + b));
      }
    }
  }

  /** Pushing a list of chunks one after the other into a decoder that holds `rest` and `skip`. */
  function Feed(codec: EnvelopeCodec, max: nat, skip: nat, rest: seq<byte>, chunks: seq<seq<byte>>): Parsed
    decreases |chunks|
  {
    if chunks == [] then Parsed([], rest, skip)
    else
      var p := Parse(codec, max, skip, rest + chunks[0]);
      Prepend(p.results, Feed(codec, max, p.skip, p.rest, chunks[1..]))
  }

  /** A decoder state that a push can leave behind: parsing it alone yields nothing more. */
  ghost predicate Settled(codec: EnvelopeCodec, max: nat, skip: nat, rest: seq<byte>) {
    Parse(codec, max, skip, rest) == Parsed([], rest, skip)
  }

  lemma {:induction false} ParseSettles(codec: EnvelopeCodec, max: nat, skip: nat, s: seq<byte>)
    ensures var p := Parse(codec, max, skip, s); Settled(codec, max, p.skip, p.rest)
    decreases |s|, skip
  {
    hide HeadOf, DecodePayload;
    if skip > 0 {
      if |s| >= skip {
        ParseSettles(codec, max, 0, s[skip..]);
      }
    } else {
      match HeadOf(max, s)
      case Incomplete =>
      case Oversize(len) => ParseSettles(codec, max, len, s[4..]);
      case Whole(len) => ParseSettles(codec, max, 0, s[4 + len..]);
    }
  }

  /** Every way of cutting a byte string into pushes gives the results and the final state of one push of the whole. */
  lemma {:induction false} ChunkingIsInvisible(codec: EnvelopeCodec, max: nat, skip: nat, rest: seq<byte>,
                                               chunks: seq<seq<byte>>)
    requires Settled(codec, max, skip, rest)
    ensures Feed(codec, max, skip, rest, chunks) == Parse(codec, max, skip, rest + Flatten(chunks))
    decreases |chunks|
  {
    hide Parse;
    if chunks == [] {
      assert rest + Flatten(chunks) == rest;
    } else {
      var p := Parse(codec, max, skip, rest + chunks[0]);
      ParseSettles(codec, max, skip, rest + chunks[0]);
      ChunkingIsInvisible(codec, max, p.skip, p.rest, chunks[1..]);
      ParseSplit(codec, max, skip, rest + chunks[0], Flatten(chunks[1..]));
      assert rest + chunks[0] + Flatten(chunks[1..]) == rest + Flatten(chunks);
    }
  }

  // ---- the parser against the encoder ----

  /** The wire form of a list of payloads. */
  function Wire(payloads: seq<seq<byte>>): seq<byte>
    requires forall p :: p in payloads ==> |p| < U32_LIMIT
  {
    if payloads == [] then [] else Frame(payloads[0]) + Wire(payloads[1..])
  }

  /** What one whole frame should be reported as. */
  function Outcome(codec: EnvelopeCodec, max: nat, payload: seq<byte>): Decoded {
    if |payload| > max then Err(OversizeFrame(Some(|payload|), max)) else DecodePayload(codec, payload)
  }

  function Outcomes(codec: EnvelopeCodec, max: nat, payloads: seq<seq<byte>>): (rs: seq<Decoded>)
    ensures |rs| == |payloads|
    ensures forall i :: 0 <= i < |rs| ==> rs[i] == Outcome(codec, max, payloads[i])
  {
    seq(|payloads|, i requires 0 <= i < |payloads| => Outcome(codec, max, payloads[i]))
  }

  lemma ParseFrame(codec: EnvelopeCodec, max: nat, payload: seq<byte>, tail: seq<byte>)
    requires |payload| < U32_LIMIT
    ensures Parse(codec, max, 0, Frame(payload) + tail) ==
            Prepend([Outcome(codec, max, payload)], Parse(codec, max, 0, tail))
  {
    var s := Frame(payload) + tail;
    HeadOfFrame(max, payload, tail);
    assert s[4..] == payload + tail;
    assert (payload + tail)[|payload|..] == tail;
    assert s[4..4 + |payload|] == payload;
    assert s[4 + |payload|..] == tail;
  }

  /** Any concatenation of frames parses to exactly one outcome per frame, in order, and stops at the frame boundary. */
  lemma {:induction false} ParseWire(codec: EnvelopeCodec, max: nat, payloads: seq<seq<byte>>, tail: seq<byte>)
    requires forall p :: p in payloads ==> |p| < U32_LIMIT
    ensures Parse(codec, max, 0, Wire(payloads) + tail)
         == Prepend(Outcomes(codec, max, payloads), Parse(codec, max, 0, tail))
  {
    hide Parse, Frame, Outcome;
    if payloads == [] {
      assert Wire(payloads) + tail == tail;
      assert Outcomes(codec, max, payloads) == [];
      PrependNothing(Parse(codec, max, 0, tail));
    } else {
      ParseFrame(codec, max, payloads[0], Wire(payloads[1..]) + tail);
      assert Wire(payloads) + tail == Frame(payloads[0]) + (Wire(payloads[1..]) + tail);
      ParseWire(codec, max, payloads[1..], tail);
      assert Outcomes(codec, max, payloads) == [Outcome(codec, max, payloads[0])] + Outcomes(codec, max, payloads[1..]);
      PrependTwice([Outcome(codec, max, payloads[0])], Outcomes(codec, max, payloads[1..]), Parse(codec, max, 0, tail));
    }
  }

  /** `s` is nothing but whole frames. */
  ghost predicate WholeFrames(s: seq<byte>) {
    exists payloads: seq<seq<byte>> :: IsWireOf(s, payloads)
  }

  ghost predicate IsWireOf(s: seq<byte>, payloads: seq<seq<byte>>) {
    (forall p :: p in payloads ==> |p| < U32_LIMIT) && s == Wire(payloads)
  }

  lemma NoFrames()
    ensures WholeFrames([])
  {
    assert IsWireOf([], []);
  }

  lemma PrependFrame(s: seq<byte>, payload: seq<byte>, tail: seq<byte>)
    requires |payload| < U32_LIMIT && s == Frame(payload) + tail && WholeFrames(tail)
    ensures WholeFrames(s)
  {
    var payloads :| IsWireOf(tail, payloads);
    assert ([payload] + payloads)[1..] == payloads;
    assert IsWireOf(s, [payload] + payloads);
  }

  lemma FrameOfParsed(s: seq<byte>)
    requires |s| >= 4 && |s| >= 4 + FromBigEndian(s[..4])
    ensures var len := FromBigEndian(s[..4]);
            len < U32_LIMIT && s == Frame(s[4..4 + len]) + s[4 + len..]
  {
    BigEndianOfParsed(s[..4]);
    Pow256Values();
  }

  lemma {:induction false} NothingPendingIsWhole(codec: EnvelopeCodec, max: nat, s: seq<byte>)
    requires Parse(codec, max, 0, s).rest == [] && Parse(codec, max, 0, s).skip == 0
    ensures WholeFrames(s)
    decreases |s|
  {
    hide FromBigEndian, BigEndian, Frame, Wire, WholeFrames;
    if s == [] {
      NoFrames();
    } else {
      var len := FromBigEndian(s[..4]);
      if HeadOf(max, s).Oversize? {
        SkipStep(codec, max, len, s, 4);
      }
      FrameOfParsed(s);
      NothingPendingIsWhole(codec, max, s[4 + len..]);
      PrependFrame(s, s[4..4 + len], s[4 + len..]);
    }
  }

  /** The decoder reports nothing pending exactly when it has been fed whole frames and nothing else. */
  lemma PendingMeansMidFrame(codec: EnvelopeCodec, max: nat, s: seq<byte>)
    ensures var p := Parse(codec, max, 0, s); (p.rest == [] && p.skip == 0) <==> WholeFrames(s)
  {
    var p := Parse(codec, max, 0, s);
    if p.rest == [] && p.skip == 0 {
      NothingPendingIsWhole(codec, max, s);
    }
    if WholeFrames(s) {
      var payloads :| IsWireOf(s, payloads);
      ParseWire(codec, max, payloads, []);
      assert s + [] == s;
    }
  }

  /** Encoder and decoder agree on the limit: whatever one accepts the other returns unchanged. */
  lemma StreamRoundTrip(codec: EnvelopeCodec, max: nat, envelope: OtkEnvelope, tail: seq<byte>)
    requires codec.Lawful()
    requires codec.encode(envelope).Some? && |codec.encode(envelope).value| <= max
    requires |codec.encode(envelope).value| < U32_LIMIT
    ensures Parse(codec, max, 0, Frame(codec.encode(envelope).value) + tail)
         == Prepend([Ok(envelope)], Parse(codec, max, 0, tail))
  {
    ParseFrame(codec, max, codec.encode(envelope).value, tail);
  }

  /** What each kind of whole frame is reported as; what follows it is parsed as if it stood alone. */
  lemma FrameReported(codec: EnvelopeCodec, max: nat, payload: seq<byte>, tail: seq<byte>)
    requires |payload| < U32_LIMIT
    ensures var p, after := Parse(codec, max, 0, Frame(payload) + tail), Parse(codec, max, 0, tail);
            && p.rest == after.rest && p.skip == after.skip
            && p.results == [if |payload| > max then Err(OversizeFrame(Some(|payload|), max))
                             else if codec.decode(payload).None? then Err(DecodeFailed)
                             else Ok(codec.decode(payload).value)] + after.results
  {
    ParseFrame(codec, max, payload, tail);
  }

  /** A decoder that has been fed `s` has something pending exactly if `s` is not whole frames. */
  lemma DecoderPendingMidFrame(decoder: StreamFrameDecoder, s: seq<byte>)
    requires var p := Parse(decoder.codec, decoder.maxFrameSize, 0, s);
             decoder.buf == p.rest && decoder.skipBytes == p.skip
    ensures decoder.HasPending() <==> !WholeFrames(s)
  {
    hide Parse, WholeFrames;
    PendingMeansMidFrame(decoder.codec, decoder.maxFrameSize, s);
  }
}
