/**
 * The part of the IBC core (ICS 4, Channel & Packet Semantics) that the blog
 * keeper calls: channel ends, send sequences, channel capabilities and packet
 * dispatch. Their stores are abstract tables; what SendPacket checks
 * internally is not modelled, so its verdict is a parameter.
 */
module Ibc {
  import opened Wrappers
  import opened Decimal

  type Byte = b: int | 0 <= b < 256

  /** A port and channel naming one end of a channel. */
  datatype Endpoint = Endpoint(portId: string, channelId: string)

  datatype ChannelEnd = ChannelEnd(counterparty: Endpoint)

  datatype Height = Height(revisionNumber: Uint64, revisionHeight: Uint64)

  datatype Packet = Packet(
    data: seq<Byte>,
    sequence: Uint64,
    sourcePort: string,
    sourceChannel: string,
    destinationPort: string,
    destinationChannel: string,
    timeoutHeight: Height,
    timeoutTimestamp: Uint64)

  /**
   * The acknowledgement envelope: an error string, an opaque result payload,
   * or a response of any other shape (including none at all).
   */
  datatype Acknowledgement = AckError(error: string) | AckResult(result: seq<Byte>) | AckUnrecognized

  datatype Capability = Capability(index: Uint64)

  /** The zero value Go returns beside `found == false`. */
  const NoChannel := ChannelEnd(Endpoint("", ""))

  class ChannelKeeper {
    var channels: map<Endpoint, ChannelEnd>
    var nextSequenceSend: map<Endpoint, Uint64>
    /** Every packet SendPacket has accepted, in order. */
    var sent: seq<Packet>

    constructor(channels: map<Endpoint, ChannelEnd>, nextSequenceSend: map<Endpoint, Uint64>)
      ensures this.channels == channels && this.nextSequenceSend == nextSequenceSend && sent == []
    {
      this.channels := channels;
      this.nextSequenceSend := nextSequenceSend;
      sent := [];
    }

    method GetChannel(portId: string, channelId: string) returns (channel: ChannelEnd, found: bool)
      ensures found <==> Endpoint(portId, channelId) in channels
      ensures channel == if found then channels[Endpoint(portId, channelId)] else NoChannel
    {
      var end := Endpoint(portId, channelId);
      found := end in channels;
      channel := if found then channels[end] else NoChannel;
    }

    method GetNextSequenceSend(portId: string, channelId: string) returns (sequence: Uint64, found: bool)
      ensures found <==> Endpoint(portId, channelId) in nextSequenceSend
      ensures sequence == if found then nextSequenceSend[Endpoint(portId, channelId)] else 0
    {
      var end := Endpoint(portId, channelId);
      found := end in nextSequenceSend;
      sequence := if found then nextSequenceSend[end] else 0;
    }

    /**
     * Hands `packet` to the channel. Its own checks are not modelled: `fault`
     * is the error it reports, if any, and a packet it rejects is not sent.
     */
    method SendPacket(channelCap: Capability, packet: Packet, fault: Option<string>) returns (err: Option<string>)
      modifies this`sent
      ensures err == fault
      ensures sent == if fault.None? then old(sent) + [packet] else old(sent)
    {
      err := fault;
      if fault.None? {
        sent := sent + [packet];
      }
    }
  }

  class ScopedKeeper {
    /** The channel capabilities this module owns, by the channel they guard. */
    var capabilities: map<Endpoint, Capability>

    constructor(capabilities: map<Endpoint, Capability>)
      ensures this.capabilities == capabilities
    {
      this.capabilities := capabilities;
    }

    method GetCapability(portId: string, channelId: string) returns (channelCap: Capability, ok: bool)
      ensures ok <==> Endpoint(portId, channelId) in capabilities
      ensures ok ==> channelCap == capabilities[Endpoint(portId, channelId)]
    {
      var end := Endpoint(portId, channelId);
      ok := end in capabilities;
      channelCap := if ok then capabilities[end] else Capability(0);
    }
  }
}
