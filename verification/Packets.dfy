/** The control packets that reach the client and the send jobs that leave it. */
module Packets {
  import opened Bytes

  datatype PacketType =
    | Reserved | Connect | ConnectAck | Publish | PublishAck | PublishReceived | PublishReleased
    | PublishComplete | Subscribe | SubscribeAck | Unsubscribe | UnsubscribeAck
    | PingRequest | PingResponse | Disconnect | Auth

  /** The type is the upper half of the first byte. */
  function CheckPacketType(data: seq<byte>): PacketType
    requires |data| > 0
  {
    [Reserved, Connect, ConnectAck, Publish, PublishAck, PublishReceived, PublishReleased,
     PublishComplete, Subscribe, SubscribeAck, Unsubscribe, UnsubscribeAck,
     PingRequest, PingResponse, Disconnect, Auth][data[0] / 0x10]
  }

  /** A decoded packet, with the fields the handlers look at. `failed` is a reason code of 0x80 or more. */
  datatype Inbound =
    | ConAck
    | Pub(qos: nat, id: nat, topic: string, alias: Option<nat>)
    | PubAck(id: nat)
    | PubRec(id: nat, failed: bool)
    | PubRel(id: nat)
    | PubComp(id: nat)
    | SubAck(id: nat)
    | UnsubAck(id: nat)
    | PingResp
    | Discon

  datatype DecodeErrorCode =
    | NoError | UnspecifiedError | MalformedPacket | ProtocolError | InternalError | ReceiveMaximumExceeded

  /** What a packet's own decoder can answer when it fails. */
  type FailureCode = c: DecodeErrorCode | c != NoError && c != ReceiveMaximumExceeded witness ProtocolError

  datatype Decoded = Failed(code: FailureCode) | Decoded(packet: Inbound)

  /** A send job. `content` stands for what the caller asked for (topic and payload, or topic list);
      `encoded` is what composing yields, nothing when it fails. */
  datatype Job = Job(kind: PacketType, qos: nat, id: nat, content: nat, encoded: Option<seq<byte>>)
}
