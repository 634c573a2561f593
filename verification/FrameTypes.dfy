/** What both frame formats share: the error vocabulary and the envelope codec they are built on. */
module FrameTypes {
  import opened Bytes
  import opened Wrappers
  import opened OtkProtocol

  datatype FrameError =
    | OversizeFrame(len: Option<nat>, max: nat)
    | CorruptFrame
    | LostSync
    | EncodeFailed
    | DecodeFailed

  type Decoded = Result<OtkEnvelope, FrameError>

  /** The envelope encoding (CBOR in the program) as a pair of functions. */
  datatype EnvelopeCodec = EnvelopeCodec(encode: OtkEnvelope -> Option<seq<byte>>,
                                         decode: seq<byte> -> Option<OtkEnvelope>)
  {
    /** Decoding undoes encoding. */
    ghost predicate Lawful() {
      forall e: OtkEnvelope :: encode(e).Some? ==> decode(encode(e).value) == Some(e)
    }
  }

  /** The result a decoder reports for one complete payload. */
  function DecodePayload(codec: EnvelopeCodec, payload: seq<byte>): Decoded {
    match codec.decode(payload)
    case Some(e) => Ok(e)
    case None => Err(DecodeFailed)
  }
}
