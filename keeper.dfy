/**
 * The blog keeper's handlers for the "update post" packet: transmit on the
 * sending chain, apply on the receiving chain, then reconcile the sender's
 * shadow record when the acknowledgement arrives or record the timeout.
 */
module BlogKeeper {
  import opened Wrappers
  import opened Decimal
  import opened Ibc
  import opened BlogTypes

  datatype Error =
    | ChannelNotFound           // no channel end at the source port and channel
    | SequenceSendNotFound      // the channel has no next send sequence
    | ChannelCapabilityNotFound // this module does not own the channel's capability
    | JsonMarshal               // the packet payload could not be encoded
    | SendFailed(reason: string)    // the channel refused the packet
    | InvalidPacket(reason: string) // ValidateBasic rejected the payload
    | PostNotFound
    | CannotUnmarshalAck
    | FailedToUpdatePost
    | SentPostNotFound
    | InvalidAckFormat

  /** Posts after an update packet for `id` is applied. */
  function EditPost(posts: map<Uint64, Post>, id: Uint64, title: string, content: string): (r: map<Uint64, Post>)
    requires id in posts
    ensures r.Keys == posts.Keys
    ensures r[id].title == title && r[id].content == content
    ensures r[id].id == posts[id].id && r[id].creator == posts[id].creator
    ensures forall k | k in posts && k != id :: r[k] == posts[k]
  {
    posts[id := posts[id].(title := title, content := content)]
  }

  /** Sent posts after a successful acknowledgement for `id` commits `title`. */
  function CommitSentTitle(sentPosts: map<Uint64, SentPost>, id: Uint64, title: string): (r: map<Uint64, SentPost>)
    requires id in sentPosts
    ensures r.Keys == sentPosts.Keys
    ensures r[id].title == title
    ensures r[id].id == sentPosts[id].id && r[id].creator == sentPosts[id].creator
    ensures forall k | k in sentPosts && k != id :: r[k] == sentPosts[k]
  {
    sentPosts[id := sentPosts[id].(title := title)]
  }

  /** A repeated successful acknowledgement leaves the sent posts as the first left them. */
  lemma CommitSentTitleIdempotent(sentPosts: map<Uint64, SentPost>, id: Uint64, title: string)
    requires id in sentPosts
    ensures CommitSentTitle(CommitSentTitle(sentPosts, id, title), id, title) == CommitSentTitle(sentPosts, id, title)
  {
  }

  const NoPost := Post(0, "", "", "")
  const NoSentPost := SentPost(0, "", "")

  class Keeper {
    var posts: map<Uint64, Post>
    var sentPosts: map<Uint64, SentPost>
    var timedoutPosts: seq<TimedoutPost>
    const channelKeeper: ChannelKeeper
    const scopedKeeper: ScopedKeeper

    /** The stores are keyed by the id of the record they hold. */
    ghost predicate Valid()
      reads this
    {
      && (forall id | id in posts :: posts[id].id == id)
      && (forall id | id in sentPosts :: sentPosts[id].id == id)
    }

    constructor(channelKeeper: ChannelKeeper, scopedKeeper: ScopedKeeper)
      ensures Valid()
      ensures posts == map[] && sentPosts == map[] && timedoutPosts == []
      ensures this.channelKeeper == channelKeeper && this.scopedKeeper == scopedKeeper
    {
      posts := map[];
      sentPosts := map[];
      timedoutPosts := [];
      this.channelKeeper := channelKeeper;
      this.scopedKeeper := scopedKeeper;
    }

    method GetPost(id: Uint64) returns (p: Post, found: bool)
      ensures found <==> id in posts
      ensures p == if found then posts[id] else NoPost
    {
      found := id in posts;
      p := if found then posts[id] else NoPost;
    }

    /** Stores `p` under its own id. */
    method SetPost(p: Post)
      requires Valid()
      modifies this`posts
      ensures Valid()
      ensures posts == old(posts)[p.id := p]
    {
      posts := posts[p.id := p];
    }

    method GetSentPost(id: Uint64) returns (sp: SentPost, found: bool)
      ensures found <==> id in sentPosts
      ensures sp == if found then sentPosts[id] else NoSentPost
    {
      found := id in sentPosts;
      sp := if found then sentPosts[id] else NoSentPost;
    }

    /** Stores `sp` under its own id. */
    method SetSentPost(sp: SentPost)
      requires Valid()
      modifies this`sentPosts
      ensures Valid()
      ensures sentPosts == old(sentPosts)[sp.id := sp]
    {
      sentPosts := sentPosts[sp.id := sp];
    }

    method AppendTimedoutPost(t: TimedoutPost)
      modifies this`timedoutPosts
      ensures timedoutPosts == old(timedoutPosts) + [t]
    {
      timedoutPosts := timedoutPosts + [t];
    }

    /**
     * Sends an update packet on the source channel. The guards are checked in
     * order and the first one that fails decides the error; only a packet
     * that passes all of them reaches the channel. The keeper's own stores
     * are not touched.
     */
    method TransmitUpdatePostPacket(
      packetData: UpdatePostPacketData,
      sourcePort: string,
      sourceChannel: string,
      timeoutHeight: Height,
      timeoutTimestamp: Uint64,
      codec: Codec,
      sendFault: Option<string>)
      returns (err: Option<Error>)
      modifies channelKeeper`sent
      ensures var source := Endpoint(sourcePort, sourceChannel);
        if source !in channelKeeper.channels then
          err == Some(ChannelNotFound) && channelKeeper.sent == old(channelKeeper.sent)
        else if source !in channelKeeper.nextSequenceSend then
          err == Some(SequenceSendNotFound) && channelKeeper.sent == old(channelKeeper.sent)
        else if source !in scopedKeeper.capabilities then
          err == Some(ChannelCapabilityNotFound) && channelKeeper.sent == old(channelKeeper.sent)
        else if codec.getBytes(packetData).None? then
          err == Some(JsonMarshal) && channelKeeper.sent == old(channelKeeper.sent)
        else if sendFault.Some? then
          err == Some(SendFailed(sendFault.value)) && channelKeeper.sent == old(channelKeeper.sent)
        else
          var destination := channelKeeper.channels[source].counterparty;
          err == None &&
          channelKeeper.sent == old(channelKeeper.sent) + [Packet(
            codec.getBytes(packetData).value,
            channelKeeper.nextSequenceSend[source],
            sourcePort, sourceChannel,
            destination.portId, destination.channelId,
            timeoutHeight, timeoutTimestamp)]
    {
      var sourceChannelEnd, found := channelKeeper.GetChannel(sourcePort, sourceChannel);
      if !found {
        return Some(ChannelNotFound);
      }
      var destinationPort := sourceChannelEnd.counterparty.portId;
      var destinationChannel := sourceChannelEnd.counterparty.channelId;

      var sequence, foundSequence := channelKeeper.GetNextSequenceSend(sourcePort, sourceChannel);
      if !foundSequence {
        return Some(SequenceSendNotFound);
      }

      var channelCap, ok := scopedKeeper.GetCapability(sourcePort, sourceChannel);
      if !ok {
        return Some(ChannelCapabilityNotFound);
      }

      var packetBytes := codec.getBytes(packetData);
      if packetBytes.None? {
        return Some(JsonMarshal);
      }

      var packet := Packet(
        packetBytes.value, sequence, sourcePort, sourceChannel,
        destinationPort, destinationChannel, timeoutHeight, timeoutTimestamp);
      var sendErr := channelKeeper.SendPacket(channelCap, packet, sendFault);
      if sendErr.Some? {
        return Some(SendFailed(sendErr.value));
      }
      return None;
    }

    /**
     * Applies a received update to the post it names. A payload that fails
     * validation gets the zero acknowledgement; an unknown post gets a
     * "failed" acknowledgement; otherwise exactly that post's title and
     * content change and the acknowledgement is "success". The id is parsed
     * with its error ignored.
     */
    method OnRecvUpdatePostPacket(packet: Packet, data: UpdatePostPacketData, codec: Codec)
      returns (packetAck: UpdatePostPacketAck, err: Option<Error>)
      requires Valid()
      modifies this`posts
      ensures Valid()
      ensures var id := ParseUint(data.postId);
        if codec.validateBasic(data).Some? then
          packetAck.status == "" && err == Some(InvalidPacket(codec.validateBasic(data).value))
          && posts == old(posts)
        else if id !in old(posts) then
          packetAck.status == FailedStatus && err == Some(PostNotFound) && posts == old(posts)
        else
          packetAck.status == SuccessStatus && err == None
          && posts == EditPost(old(posts), id, data.title, data.content)
    {
      packetAck := UpdatePostPacketAck("");
      var invalid := codec.validateBasic(data);
      if invalid.Some? {
        return packetAck, Some(InvalidPacket(invalid.value));
      }

      var id := ParseUint(data.postId);
      var p, f := GetPost(id);
      if !f {
        packetAck := packetAck.(status := FailedStatus);
        return packetAck, Some(PostNotFound);
      }

      p := p.(title := data.title, content := data.content);
      SetPost(p);

      packetAck := packetAck.(status := SuccessStatus);
      return packetAck, None;
    }

    /**
     * Reconciles the sent post once the receiving chain's acknowledgement is
     * back. Only a result envelope that decodes to status "success" for a
     * known sent post changes anything: it commits the packet's title.
     * An error envelope is accepted without any change.
     */
    method OnAcknowledgementUpdatePostPacket(packet: Packet, data: UpdatePostPacketData, ack: Acknowledgement, codec: Codec)
      returns (err: Option<Error>)
      requires Valid()
      modifies this`sentPosts
      ensures Valid()
      ensures match ack
        case AckError(_) => err == None && sentPosts == old(sentPosts)
        case AckUnrecognized => err == Some(InvalidAckFormat) && sentPosts == old(sentPosts)
        case AckResult(result) =>
          var decoded := codec.unmarshalAck(result);
          var id := ParseUint(data.postId);
          if decoded.None? then
            err == Some(CannotUnmarshalAck) && sentPosts == old(sentPosts)
          else if decoded.value.status != SuccessStatus then
            err == Some(FailedToUpdatePost) && sentPosts == old(sentPosts)
          else if id !in old(sentPosts) then
            err == Some(SentPostNotFound) && sentPosts == old(sentPosts)
          else
            err == None && sentPosts == CommitSentTitle(old(sentPosts), id, data.title)
    {
      match ack {
        case AckError(_) =>
          return None;
        case AckResult(result) =>
          var packetAck := codec.unmarshalAck(result);
          if packetAck.None? {
            return Some(CannotUnmarshalAck);
          }

          if packetAck.value.status == SuccessStatus {
            var id := ParseUint(data.postId);
            var sp, f := GetSentPost(id);
            if !f {
              return Some(SentPostNotFound);
            }

            sp := sp.(title := data.title);
            SetSentPost(sp);
          } else {
            return Some(FailedToUpdatePost);
          }
          return None;
        case AckUnrecognized =>
          return Some(InvalidAckFormat);
      }
    }

    /**
     * Records a timed-out update: one new entry carrying the payload's
     * creator and title and the route it was sent on. It never fails.
     */
    method OnTimeoutUpdatePostPacket(packet: Packet, data: UpdatePostPacketData)
      returns (err: Option<Error>)
      requires Valid()
      modifies this`timedoutPosts
      ensures Valid()
      ensures err == None
      ensures timedoutPosts == old(timedoutPosts) + [TimedoutPost(
        data.creator, data.title, packet.destinationPort + "-" + packet.destinationChannel)]
    {
      AppendTimedoutPost(TimedoutPost(
        data.creator, data.title, packet.destinationPort + "-" + packet.destinationChannel));
      return None;
    }
  }
}
