/** Serial frames: COBS(payload || CRC-16) followed by one 0x00. */
module SerialCodec {
  import opened Bytes
  import opened Wrappers
  import opened FrameTypes
  import opened OtkProtocol
  import Cobs
  import Crc16

  const USIZE_MAX := U64_LIMIT - 1

  function SaturatingAdd(a: nat, b: nat): nat {
    if a + b > USIZE_MAX then USIZE_MAX else a + b
  }

  /** The libraries a codec is built on. */
  datatype Config = Config(codec: EnvelopeCodec, cobs: Cobs.Scheme, maxFrameSize: nat)
  {
    /** On-wire limit before the delimiter, derived from the payload limit. */
    function MaxWireSize(): nat {
      cobs.maxEncodingLength(SaturatingAdd(maxFrameSize, 2))
    }
  }

  // ---- encoder ----

  function WithCrc(payload: seq<byte>): (s: seq<byte>)
    ensures |s| == |payload| + 2
  {
    payload + Crc16.ToBytes(Crc16.CrcFrom(Crc16.CRC_INIT, payload))
  }

  method EncodeSerial(config: Config, envelope: OtkEnvelope) returns (r: Result<seq<byte>, FrameError>)
    ensures r.Ok? <==>
        config.codec.encode(envelope).Some? && |config.codec.encode(envelope).value| <= config.maxFrameSize
    ensures r.Ok? ==> r.value == config.cobs.encode(WithCrc(config.codec.encode(envelope).value)) + [0]
    ensures r.Err? ==> r.error == if config.codec.encode(envelope).None? then EncodeFailed
                                  else OversizeFrame(Some(|config.codec.encode(envelope).value|), config.maxFrameSize)
  {
    var encoded := config.codec.encode(envelope);
    if encoded.None? {
      return Err(EncodeFailed);
    }
    var payload := encoded.value;
    if |payload| > config.maxFrameSize {
      return Err(OversizeFrame(Some(|payload|), config.maxFrameSize));
    }
    var crc := Crc16.Crc16CcittFalse(payload);
    var withCrc := payload + Crc16.ToBytes(crc);
    return Ok(config.cobs.encode(withCrc) + [0]);
  }

  // ---- decoder ----

  /** What the decoder reports for a complete run of non-zero bytes within the wire limit. */
  function DecodeFrame(config: Config, frame: seq<byte>): Decoded {
    match config.cobs.decode(frame)
    case None => Err(LostSync)
    case Some(decoded) =>
      if |decoded| < 2 || !Crc16.Passes(decoded) then Err(CorruptFrame)
      else if |decoded| - 2 > config.maxFrameSize then
        Err(OversizeFrame(Some(|decoded| - 2), config.maxFrameSize))
      else DecodePayload(config.codec, decoded[..|decoded| - 2])
  }

  datatype State = State(buf: seq<byte>, discarding: bool)

  const CLEAN := State([], false)

  datatype Ran = Ran(state: State, results: seq<Decoded>)

  function Prepend(rs: seq<Decoded>, r: Ran): Ran {
    r.(results := rs + r.results)
  }

  /** The decoder on one byte. */
  function StepByte(config: Config, st: State, b: byte): Ran {
    if b == 0 then
      Ran(CLEAN, if st.buf == [] then [] else [DecodeFrame(config, st.buf)])
    else if st.discarding then
      Ran(st, [])
    else if |st.buf| >= config.MaxWireSize() then
      Ran(State([], true), [Err(OversizeFrame(None, config.maxFrameSize))])
    else
      Ran(State(st.buf + [b], false), [])
  }

  function Run(config: Config, st: State, bytes: seq<byte>): Ran
    decreases |bytes|
  {
    if bytes == [] then Ran(st, [])
    else
      var r := StepByte(config, st, bytes[0]);
      Prepend(r.results, Run(config, r.state, bytes[1..]))
  }

  class SerialFrameDecoder {
    const config: Config
    const maxWireSize: nat
    var buf: seq<byte>
    var discarding: bool

    ghost predicate Valid()
      reads this
    {
      && maxWireSize == config.MaxWireSize()
      && 0 !in buf && |buf| <= maxWireSize
      && (discarding ==> buf == [])
    }

    ghost function Now(): State
      reads this
    {
      State(buf, discarding)
    }

    constructor (config: Config)
      ensures Valid() && Now() == CLEAN && this.config == config
    {
      this.config := config;
      maxWireSize := config.MaxWireSize();
      buf := [];
      discarding := false;
    }

    predicate HasPending()
      reads this
    {
      buf != [] || discarding
    }

    /**
     * The buffer never outgrows the wire limit, never holds a delimiter, and results are those of the byte-wise
     * machine.
     */
    method Push(bytes: seq<byte>) returns (results: seq<Decoded>)
      requires Valid()
      modifies this
      ensures Valid()
      ensures Ran(Now(), results) == Run(config, old(Now()), bytes)
    {
      results := [];
      assert bytes[0..] == bytes;
      PrependNothing(Run(config, Now(), bytes));
      for i := 0 to |bytes|
        invariant Valid()
        invariant Prepend(results, Run(config, Now(), bytes[i..])) == Run(config, old(Now()), bytes)
      {
        hide Run, DecodeFrame;
        RunStep(config, results, Now(), bytes, i);
        var b := bytes[i];
        if b == 0 {
          discarding := false;
          if buf == [] {
            assert results + [] == results;
            continue;
          }
          var decoded := Decode(buf);
          buf := [];
          results := results + [decoded];
        } else if discarding {
          assert results + [] == results;
        } else if |buf| >= maxWireSize {
          buf := [];
          discarding := true;
          results := results + [Err(OversizeFrame(None, config.maxFrameSize))];
        } else {
          assert results + [] == results;
          buf := buf + [b];
        }
      }
      assert results + [] == results;
    }

    /** COBS decoding, CRC check, size check, then envelope decoding, in that order. */
    method Decode(frame: seq<byte>) returns (decoded: Decoded)
      ensures decoded == DecodeFrame(config, frame)
    {
      var unstuffed := config.cobs.decode(frame);
      if unstuffed.None? {
        return Err(LostSync);
      }
      var n := |unstuffed.value|;
      if n < 2 {
        return Err(CorruptFrame);
      }
      var payload := unstuffed.value[..n - 2];
      var crc := Crc16.Crc16CcittFalse(payload);
      if crc != Crc16.FromBytes(unstuffed.value[n - 2], unstuffed.value[n - 1]) {
        return Err(CorruptFrame);
      }
      if |payload| > config.maxFrameSize {
        return Err(OversizeFrame(Some(|payload|), config.maxFrameSize));
      }
      return DecodePayload(config.codec, payload);
    }
  }

  // ---- runs ----

  lemma PrependNothing(r: Ran)
    ensures Prepend([], r) == r
  {
    assert [] + r.results == r.results;
  }

  lemma PrependTwice(a: seq<Decoded>, b: seq<Decoded>, r: Ran)
    ensures Prepend(a, Prepend(b, r)) == Prepend(a + b, r)
  {
    assert a + (b + r.results) == (a + b) + r.results;
  }

  lemma RunStep(config: Config, rs: seq<Decoded>, st: State, bytes: seq<byte>, i: nat)
    requires i < |bytes|
    ensures var r := StepByte(config, st, bytes[i]);
            Prepend(rs, Run(config, st, bytes[i..])) == Prepend(rs + r.results, Run(config, r.state, bytes[i + 1..]))
  {
    var r := StepByte(config, st, bytes[i]);
    assert bytes[i..][0] == bytes[i] && bytes[i..][1..] == bytes[i + 1..];
    PrependTwice(rs, r.results, Run(config, r.state, bytes[i + 1..]));
  }

  /** Pushing `a` then `b` is pushing `a + b`: how the bytes are chunked is invisible. */
  lemma {:induction false} RunSplit(config: Config, st: State, a: seq<byte>, b: seq<byte>)
    ensures var r := Run(config, st, a); Run(config, st, a + b) == Prepend(r.results, Run(config, r.state, b))
    decreases |a|
  {
    hide StepByte;
    if a == [] {
      assert a + b == b;
      PrependNothing(Run(config, st, b));
    } else {
      var r := StepByte(config, st, a[0]);
      assert (a + b)[1..] == a[1..] + b;
      RunSplit(config, r.state, a[1..], b);
      var ra := Run(config, r.state, a[1..]);
      PrependTwice(r.results, ra.results, Run(config, ra.state, b));
    }
  }

  /** What a run of non-zero bytes that ends in a delimiter is reported as. */
  function PieceOutcome(config: Config, piece: seq<byte>): seq<Decoded> {
    if piece == [] then []
    else if |piece| > config.MaxWireSize() then [Err(OversizeFrame(None, config.maxFrameSize))]
    else [DecodeFrame(config, piece)]
  }

  /** The state and results after a run of non-zero bytes whose delimiter has not come yet. */
  function Unfinished(config: Config, piece: seq<byte>): Ran {
    if |piece| > config.MaxWireSize() then Ran(State([], true), [Err(OversizeFrame(None, config.maxFrameSize))])
    else Ran(State(piece, false), [])
  }

  lemma {:induction false} RunPiece(config: Config, piece: seq<byte>)
    requires 0 !in piece
    ensures Run(config, CLEAN, piece) == Unfinished(config, piece)
    decreases |piece|
  {
    hide DecodeFrame;
    if piece != [] {
      var n := |piece| - 1;
      RunPiece(config, piece[..n]);
      assert piece == piece[..n] + [piece[n]];
      RunSplit(config, CLEAN, piece[..n], [piece[n]]);
      assert [piece[n]][1..] == [];
    }
  }

  lemma RunDelimited(config: Config, piece: seq<byte>)
    requires 0 !in piece
    ensures Run(config, CLEAN, piece + [0]) == Ran(CLEAN, PieceOutcome(config, piece))
  {
    hide DecodeFrame;
    RunPiece(config, piece);
    RunSplit(config, CLEAN, piece, [0]);
    assert [0][1..] == [];
  }

  /** Each piece followed by its delimiter. */
  function Delimited(pieces: seq<seq<byte>>): seq<byte> {
    if pieces == [] then [] else pieces[0] + [0] + Delimited(pieces[1..])
  }

  function Outcomes(config: Config, pieces: seq<seq<byte>>): seq<Decoded> {
    if pieces == [] then [] else PieceOutcome(config, pieces[0]) + Outcomes(config, pieces[1..])
  }

  /**
   * Any byte string is delimited pieces and a tail; the results are the pieces' outcomes, one by one and independently.
   */
  lemma {:induction false} RunPieces(config: Config, pieces: seq<seq<byte>>, tail: seq<byte>)
    requires 0 !in tail && forall p :: p in pieces ==> 0 !in p
    ensures Run(config, CLEAN, Delimited(pieces) + tail) == Prepend(Outcomes(config, pieces), Unfinished(config, tail))
    decreases |pieces|
  {
    hide Run, PieceOutcome, Unfinished;
    if pieces == [] {
      assert Delimited(pieces) + tail == tail;
      RunPiece(config, tail);
      PrependNothing(Unfinished(config, tail));
    } else {
      var rest := Delimited(pieces[1..]) + tail;
      assert Delimited(pieces) + tail == (pieces[0] + [0]) + rest;
      RunDelimited(config, pieces[0]);
      RunSplit(config, CLEAN, pieces[0] + [0], rest);
      RunPieces(config, pieces[1..], tail);
      PrependTwice(PieceOutcome(config, pieces[0]), Outcomes(config, pieces[1..]), Unfinished(config, tail));
    }
  }

  /** The pieces of a byte string: every byte string has them. */
  function Pieces(bytes: seq<byte>): (r: (seq<seq<byte>>, seq<byte>))
    ensures 0 !in r.1 && forall p :: p in r.0 ==> 0 !in p
    ensures bytes == Delimited(r.0) + r.1
    decreases |bytes|
  {
    if bytes == [] then ([], [])
    else
      var (pieces, tail) := Pieces(bytes[1..]);
      if bytes[0] == 0 then
        assert ([[]] + pieces)[1..] == pieces;
        ([[]] + pieces, tail)
      else if pieces == [] then ([], [bytes[0]] + tail)
      else
        assert (pieces[0 := [bytes[0]] + pieces[0]])[1..] == pieces[1..];
        (pieces[0 := [bytes[0]] + pieces[0]], tail)
  }

  /** After any bytes and one delimiter the decoder is clean, whatever state it was in. */
  lemma DelimiterResyncs(config: Config, st: State, bytes: seq<byte>)
    ensures Run(config, st, bytes + [0]).state == CLEAN
  {
    hide DecodeFrame;
    RunSplit(config, st, bytes, [0]);
    assert [0][1..] == [];
  }

  /**
   * Resynchronisation: after any bytes and one 0x00 from any state, an accepted frame decodes to exactly its envelope.
   */
  lemma FrameAfterResync(config: Config, st: State, bytes: seq<byte>, envelope: OtkEnvelope)
    requires config.codec.Lawful() && config.cobs.Lawful()
    requires config.codec.encode(envelope).Some?
    requires |config.codec.encode(envelope).value| <= config.maxFrameSize
    requires |config.codec.encode(envelope).value| + 2 <= USIZE_MAX
    ensures var frame := config.cobs.encode(WithCrc(config.codec.encode(envelope).value)) + [0];
            var before := Run(config, st, bytes + [0]);
            Run(config, st, bytes + [0] + frame) == Ran(CLEAN, before.results + [Ok(envelope)])
  {
    var payload := config.codec.encode(envelope).value;
    var stuffed := config.cobs.encode(WithCrc(payload));
    DelimiterResyncs(config, st, bytes);
    RunSplit(config, st, bytes + [0], stuffed + [0]);
    FrameDecodes(config, envelope);
    RunDelimited(config, stuffed);
  }

  /** The limits match: an accepted frame fits on the wire and decodes to the envelope it came from. */
  lemma FrameDecodes(config: Config, envelope: OtkEnvelope)
    requires config.codec.Lawful() && config.cobs.Lawful()
    requires config.codec.encode(envelope).Some?
    requires |config.codec.encode(envelope).value| <= config.maxFrameSize
    requires |config.codec.encode(envelope).value| + 2 <= USIZE_MAX
    ensures var stuffed := config.cobs.encode(WithCrc(config.codec.encode(envelope).value));
            0 !in stuffed && PieceOutcome(config, stuffed) == [Ok(envelope)]
  {
    hide Crc16.Passes, Crc16.CrcFrom;
    var payload := config.codec.encode(envelope).value;
    Crc16.EncodedPasses(payload);
    assert WithCrc(payload)[..|payload|] == payload;
    assert |config.cobs.encode(WithCrc(payload))| <= config.cobs.maxEncodingLength(|payload| + 2);
    assert config.cobs.maxEncodingLength(|payload| + 2) <= config.MaxWireSize();
  }

  /**
   * A frame whose content was changed within sixteen consecutive bits of a valid one is reported corrupt, never
   * decoded.
   */
  lemma BurstIsReported(config: Config, good: seq<byte>, bad: seq<byte>, i: nat)
    requires config.cobs.Lawful()
    requires |good| == |bad| && |good| >= 2 && Crc16.Passes(good)
    requires i + 16 <= 8 * |good| && Crc16.BitsOf(good) != Crc16.BitsOf(bad)
    requires Crc16.BitsOf(good)[..i] == Crc16.BitsOf(bad)[..i]
    requires Crc16.BitsOf(good)[i + 16..] == Crc16.BitsOf(bad)[i + 16..]
    ensures DecodeFrame(config, config.cobs.encode(bad)) == Err(CorruptFrame)
  {
    hide Crc16.Passes, Crc16.BitsOf;
    Crc16.BurstDetected(good, bad, i);
  }

  /** No run ever buffers a delimiter or more than the wire limit. */
  lemma {:induction false} BufferBounded(config: Config, st: State, bytes: seq<byte>)
    requires 0 !in st.buf && |st.buf| <= config.MaxWireSize() && (st.discarding ==> st.buf == [])
    ensures var end := Run(config, st, bytes).state;
            0 !in end.buf && |end.buf| <= config.MaxWireSize() && (end.discarding ==> end.buf == [])
    decreases |bytes|
  {
    hide DecodeFrame;
    if bytes != [] {
      BufferBounded(config, StepByte(config, st, bytes[0]).state, bytes[1..]);
    }
  }

  lemma LastByteDecides(config: Config, st: State, b: byte)
    ensures var after := Run(config, st, [b]).state; (after.buf != [] || after.discarding) <==> b != 0
  {
    hide DecodeFrame;
    assert [b][1..] == [];
  }

  lemma {:induction false} StatePending(config: Config, bytes: seq<byte>)
    ensures var st := Run(config, CLEAN, bytes).state;
            (st.buf != [] || st.discarding) <==> bytes != [] && bytes[|bytes| - 1] != 0
  {
    if bytes != [] {
      hide Run, StepByte;
      var n := |bytes| - 1;
      var front, last := bytes[..n], [bytes[n]];
      assert bytes == front + last;
      RunSplit(config, CLEAN, front, last);
      LastByteDecides(config, Run(config, CLEAN, front).state, bytes[n]);
    }
  }

  /** Something is pending exactly if there has been a byte and the last one was no delimiter. */
  lemma PendingIsMidFrame(decoder: SerialFrameDecoder, bytes: seq<byte>)
    requires decoder.Now() == Run(decoder.config, CLEAN, bytes).state
    ensures decoder.HasPending() <==> bytes != [] && bytes[|bytes| - 1] != 0
  {
    hide Run;
    StatePending(decoder.config, bytes);
  }

  // ---- what each kind of frame is reported as ----

  /** What the largest payload and its checksum can be stuffed to. A length is a u64. */
  function WireLimit(config: Config): nat {
    config.cobs.maxEncodingLength(if config.maxFrameSize < 0xFFFF_FFFF_FFFF_FFFD then config.maxFrameSize + 2
                                  else 0xFFFF_FFFF_FFFF_FFFF)
  }

  /** A clean decoder's results for one run of bytes and its delimiter. */
  ghost predicate Reported(config: Config, piece: seq<byte>, r: Decoded) {
    Run(config, CLEAN, piece + [0]) == Ran(CLEAN, [r])
  }

  /** More bytes than the largest payload with its checksum can be stuffed to are reported once, as oversize. */
  lemma OverlongReported(config: Config, piece: seq<byte>)
    requires 0 !in piece && |piece| > WireLimit(config)
    ensures Reported(config, piece, Err(OversizeFrame(None, config.maxFrameSize)))
  {
    hide DecodeFrame;
    RunDelimited(config, piece);
  }

  /** Bytes that are no stuffing are lost synchronisation. */
  lemma UnstuffableReported(config: Config, piece: seq<byte>)
    requires 0 !in piece && piece != [] && |piece| <= WireLimit(config)
    requires config.cobs.decode(piece).None?
    ensures Reported(config, piece, Err(LostSync))
  {
    RunDelimited(config, piece);
  }

  /** A stuffed codeword within the wire limit is a frame that the decoder takes apart. */
  lemma StuffedReported(config: Config, word: seq<byte>)
    requires config.cobs.Lawful() && word != []
    requires |config.cobs.encode(word)| <= WireLimit(config)
    ensures Reported(config, config.cobs.encode(word), DecodeFrame(config, config.cobs.encode(word)))
    ensures config.cobs.decode(config.cobs.encode(word)) == Some(word)
  {
    hide DecodeFrame;
    RunDelimited(config, config.cobs.encode(word));
  }

  /** Two bytes that are not the payload's checksum are corruption, whatever the payload. */
  lemma WrongChecksumReported(config: Config, payload: seq<byte>, hi: byte, lo: byte)
    requires config.cobs.Lawful()
    requires |config.cobs.encode(payload + [hi, lo])| <= WireLimit(config)
    requires [hi, lo] != Crc16.ToBytes(Crc16.CrcFrom(Crc16.CRC_INIT, payload))
    ensures Reported(config, config.cobs.encode(payload + [hi, lo]), Err(CorruptFrame))
  {
    hide Crc16.CrcFrom;
    var word := payload + [hi, lo];
    StuffedReported(config, word);
    assert word[..|word| - 2] == payload;
    assert word[|word| - 2] == hi && word[|word| - 1] == lo;
    Crc16.BytesOfWord(hi, lo);
  }

  /** A single byte is too short for a checksum. */
  lemma ShortReported(config: Config, b: byte)
    requires config.cobs.Lawful()
    requires |config.cobs.encode([b])| <= WireLimit(config)
    ensures Reported(config, config.cobs.encode([b]), Err(CorruptFrame))
  {
    StuffedReported(config, [b]);
  }

  /**
   * An intact frame within the wire limit: its payload is over the limit, or decodes, or does not. A payload over the
   * limit is reported with its length even if it stuffs to no more than the largest allowed one could.
   */
  lemma IntactReported(config: Config, payload: seq<byte>)
    requires config.cobs.Lawful()
    requires |config.cobs.encode(WithCrc(payload))| <= WireLimit(config)
    ensures var stuffed := config.cobs.encode(WithCrc(payload));
            && (|payload| > config.maxFrameSize ==>
                  Reported(config, stuffed, Err(OversizeFrame(Some(|payload|), config.maxFrameSize))))
            && (|payload| <= config.maxFrameSize && config.codec.decode(payload).None? ==>
                  Reported(config, stuffed, Err(DecodeFailed)))
            && (|payload| <= config.maxFrameSize && config.codec.decode(payload).Some? ==>
                  Reported(config, stuffed, Ok(config.codec.decode(payload).value)))
  {
    hide Crc16.Passes, Crc16.CrcFrom;
    StuffedReported(config, WithCrc(payload));
    Crc16.EncodedPasses(payload);
    assert WithCrc(payload)[..|payload|] == payload;
  }

  /** The envelope came in a payload within the limit, with its checksum, stuffed. */
  ghost predicate CameIn(config: Config, piece: seq<byte>, payload: seq<byte>, envelope: OtkEnvelope) {
    && |payload| <= config.maxFrameSize && config.codec.decode(payload) == Some(envelope)
    && config.cobs.decode(piece) == Some(WithCrc(payload))
  }

  lemma {:induction false} OkFrameCameIn(config: Config, frame: seq<byte>)
    requires DecodeFrame(config, frame).Ok?
    ensures exists payload :: CameIn(config, frame, payload, DecodeFrame(config, frame).value)
  {
    hide Crc16.CrcFrom;
    var word := config.cobs.decode(frame).value;
    var payload := word[..|word| - 2];
    Crc16.BytesOfWord(word[|word| - 2], word[|word| - 1]);
    assert WithCrc(payload) == word;
    assert CameIn(config, frame, payload, DecodeFrame(config, frame).value);
  }

  /** Whatever bytes come, from any state: every envelope a run yields came in a payload within the limit, intact. */
  lemma {:induction false} EnvelopesCameIn(config: Config, st: State, bytes: seq<byte>, i: nat)
    requires i < |Run(config, st, bytes).results| && Run(config, st, bytes).results[i].Ok?
    ensures exists piece, payload :: CameIn(config, piece, payload, Run(config, st, bytes).results[i].value)
    decreases |bytes|
  {
    hide DecodeFrame, CameIn;
    var r := StepByte(config, st, bytes[0]);
    if i < |r.results| {
      OkFrameCameIn(config, st.buf);
    } else {
      EnvelopesCameIn(config, r.state, bytes[1..], i - |r.results|);
    }
  }
}
