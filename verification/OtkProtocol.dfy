/** The wire envelope and the shapes of the messages it carries. */
module OtkProtocol {
  import opened Bytes
  import opened Wrappers

  datatype MessageType = Event | Connect | ConnectAck | ConnectReject | Heartbeat | Error | Disconnect

  datatype OtkEnvelope = OtkEnvelope(
    protocolVersion: byte,
    messageType: MessageType,
    sourceId: string,
    streamId: Option<string>,
    sequenceNumber: Option<u64>,
    correlationId: Option<string>,
    payload: Option<seq<byte>>,
    traceparent: Option<string>)
}
