/**
 * Clients of the keeper that replay concrete packet lifecycles and check,
 * from the contracts alone, the outcome each one must have.
 */
module Scenarios {
  import opened Wrappers
  import opened Decimal
  import opened Ibc
  import opened BlogTypes
  import opened BlogKeeper

  const AcceptAll := Codec(d => None, d => Some([7]), b => Some(UpdatePostPacketAck(SuccessStatus)))
  const RemoteRejects := Codec(d => None, d => Some([7]), b => Some(UpdatePostPacketAck(FailedStatus)))
  const SomePacket := Packet([], 1, "blog", "channel-0", "blog", "channel-3", Height(0, 10), 0)

  method NewKeeper() returns (k: Keeper)
    ensures fresh(k) && k.Valid()
    ensures k.posts == map[] && k.sentPosts == map[] && k.timedoutPosts == []
  {
    var ck := new ChannelKeeper(map[], map[]);
    var sk := new ScopedKeeper(map[]);
    k := new Keeper(ck, sk);
  }

  method ReceiveUpdatesExistingPost() {
    var k := NewKeeper();
    k.SetPost(Post(1, "A", "x", "alice"));
    var ack, err := k.OnRecvUpdatePostPacket(SomePacket, UpdatePostPacketData("1", "B", "y", "alice"), AcceptAll);
    assert ack.status == "success" && err == None;
    assert k.posts == map[1 := Post(1, "B", "y", "alice")];

    // The same packet delivered again finds the post already updated.
    var posts := k.posts;
    ack, err := k.OnRecvUpdatePostPacket(SomePacket, UpdatePostPacketData("1", "B", "y", "alice"), AcceptAll);
    assert k.posts == posts;
  }

  method ReceiveForUnknownPost() {
    var k := NewKeeper();
    k.SetPost(Post(1, "A", "x", "alice"));
    FormatParseRoundTrip(42);
    assert FormatUint(42) == "42";
    var ack, err := k.OnRecvUpdatePostPacket(SomePacket, UpdatePostPacketData("42", "B", "y", "alice"), AcceptAll);
    assert ack.status == "failed" && err == Some(PostNotFound);
    assert k.posts == map[1 := Post(1, "A", "x", "alice")];
  }

  method ReceiveInvalidPayload() {
    var k := NewKeeper();
    k.SetPost(Post(1, "A", "x", "alice"));
    var strict := AcceptAll.(validateBasic := (d: UpdatePostPacketData) => if d.creator == "" then Some("empty creator") else None);
    var ack, err := k.OnRecvUpdatePostPacket(SomePacket, UpdatePostPacketData("1", "B", "y", ""), strict);
    assert ack.status == "" && err == Some(InvalidPacket("empty creator"));
    assert k.posts == map[1 := Post(1, "A", "x", "alice")];
  }

  /** A target id that is not a number is read as post 0, which is then updated. */
  method ReceiveNonNumericId() {
    var k := NewKeeper();
    k.SetPost(Post(0, "A", "x", "alice"));
    var ack, err := k.OnRecvUpdatePostPacket(SomePacket, UpdatePostPacketData("abc", "B", "y", "mallory"), AcceptAll);
    assert ack.status == "success";
    assert k.posts[0] == Post(0, "B", "y", "alice");
  }

  method AcknowledgementCommitsTitle() {
    var k := NewKeeper();
    k.SetSentPost(SentPost(7, "Old", "bob"));
    var data := UpdatePostPacketData("7", "New", "body", "bob");
    var err := k.OnAcknowledgementUpdatePostPacket(SomePacket, data, AckResult([1]), AcceptAll);
    assert err == None && k.sentPosts == map[7 := SentPost(7, "New", "bob")];

    // Committing the same acknowledgement again changes nothing.
    err := k.OnAcknowledgementUpdatePostPacket(SomePacket, data, AckResult([1]), AcceptAll);
    assert err == None && k.sentPosts == map[7 := SentPost(7, "New", "bob")];
  }

  method AcknowledgementFailuresChangeNothing() {
    var k := NewKeeper();
    k.SetSentPost(SentPost(7, "Old", "bob"));
    var data := UpdatePostPacketData("7", "New", "body", "bob");
    var err := k.OnAcknowledgementUpdatePostPacket(SomePacket, data, AckResult([1]), RemoteRejects);
    assert err == Some(FailedToUpdatePost);
    err := k.OnAcknowledgementUpdatePostPacket(SomePacket, data, AckError("channel closed"), AcceptAll);
    assert err == None;
    err := k.OnAcknowledgementUpdatePostPacket(SomePacket, data, AckUnrecognized, AcceptAll);
    assert err == Some(InvalidAckFormat);
    err := k.OnAcknowledgementUpdatePostPacket(SomePacket, data, AckResult([1]), AcceptAll.(unmarshalAck := b => None));
    assert err == Some(CannotUnmarshalAck);
    err := k.OnAcknowledgementUpdatePostPacket(SomePacket, data.(postId := "8"), AckResult([1]), AcceptAll);
    assert err == Some(SentPostNotFound);
    assert k.sentPosts == map[7 := SentPost(7, "Old", "bob")];
  }

  method TimeoutRecordsRoute() {
    var k := NewKeeper();
    var err := k.OnTimeoutUpdatePostPacket(SomePacket, UpdatePostPacketData("1", "T", "body", "bob"));
    assert err == None;
    assert SomePacket.destinationPort + "-" + SomePacket.destinationChannel == "blog-channel-3";
    assert k.timedoutPosts == [TimedoutPost("bob", "T", "blog-channel-3")];
  }

  method TransmitOnOwnedChannel() {
    var source := Endpoint("blog", "channel-0");
    var ck := new ChannelKeeper(map[source := ChannelEnd(Endpoint("blog", "channel-1"))], map[source := 5]);
    var sk := new ScopedKeeper(map[source := Capability(3)]);
    var k := new Keeper(ck, sk);
    var data := UpdatePostPacketData("1", "T", "body", "bob");
    var err := k.TransmitUpdatePostPacket(data, "blog", "channel-0", Height(1, 100), 0, AcceptAll, None);
    assert err == None;
    assert ck.sent == [Packet([7], 5, "blog", "channel-0", "blog", "channel-1", Height(1, 100), 0)];

    // On a channel the keeper does not know, nothing is sent.
    err := k.TransmitUpdatePostPacket(data, "blog", "channel-9", Height(1, 100), 0, AcceptAll, None);
    assert err == Some(ChannelNotFound) && |ck.sent| == 1;
  }

  method TransmitWithoutCapability() {
    var source := Endpoint("blog", "channel-0");
    var ck := new ChannelKeeper(map[source := ChannelEnd(Endpoint("blog", "channel-1"))], map[source := 5]);
    var sk := new ScopedKeeper(map[]);
    var k := new Keeper(ck, sk);
    var err := k.TransmitUpdatePostPacket(UpdatePostPacketData("1", "T", "body", "bob"), "blog", "channel-0",
                                          Height(1, 100), 0, AcceptAll, None);
    assert err == Some(ChannelCapabilityNotFound) && ck.sent == [];
  }
}
