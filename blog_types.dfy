/**
 * The blog module's records and packet payloads. Their validation and JSON
 * encoding live outside the keeper and are not modelled: a `Codec` carries
 * them as uninterpreted, fallible functions.
 */
module BlogTypes {
  import opened Wrappers
  import opened Decimal
  import opened Ibc

  /** A post owned by this chain. */
  datatype Post = Post(id: Uint64, title: string, content: string, creator: string)

  /** The sender's shadow of a post whose update was sent to another chain. */
  datatype SentPost = SentPost(id: Uint64, title: string, creator: string)

  /** A record of an update packet that timed out; `chain` names the route. */
  datatype TimedoutPost = TimedoutPost(creator: string, title: string, chain: string)

  /** The update-post packet payload; the target id travels as decimal text. */
  datatype UpdatePostPacketData = UpdatePostPacketData(postId: string, title: string, content: string, creator: string)

  /** The application acknowledgement; its zero value has an empty status. */
  datatype UpdatePostPacketAck = UpdatePostPacketAck(status: string)

  const SuccessStatus := "success"
  const FailedStatus := "failed"

  /**
   * validateBasic: the payload's ValidateBasic, None when it passes.
   * getBytes: the payload's wire encoding, None when marshalling fails.
   * unmarshalAck: decoding of an acknowledgement payload, None on failure.
   */
  datatype Codec = Codec(
    validateBasic: UpdatePostPacketData -> Option<string>,
    getBytes: UpdatePostPacketData -> Option<seq<Byte>>,
    unmarshalAck: seq<Byte> -> Option<UpdatePostPacketAck>)
}
