# Blog "update post" packet keeper

This project models the blog module's keeper for the IBC "update post"
packet (ICS 4, Channel & Packet Semantics, of the Inter-Blockchain
Communication specification): one chain sends an update for a post it
shadows, the other chain applies it to its post and answers with an
acknowledgement, and the sender then either commits the title to its shadow
record or, if the packet times out, logs the failed route.

- `Wrappers` (wrappers.dfy): `Option`, standing for Go's nil error or a lookup
  that found nothing.
- `Decimal` (decimal.dfy): `strconv.ParseUint(s, 10, 64)` with the error
  dropped, as the keeper uses it on the post id. It is written after Go's
  loop: the first non-digit gives 0, and the first digit that overflows gives
  2^64-1. It is proved equal to a loop-free reference. A helper, `FormatUint`,
  renders an id as decimal text without leading zeros, as `strconv.FormatUint`
  does; parsing that text is proved to give back the id.
- `Ibc` (ibc.dfy): the ibc-go collaborators as abstract tables. `ChannelKeeper`
  maps a port/channel `Endpoint` to its `ChannelEnd`, from which the
  counterparty is read, and to its next send sequence. It also logs the
  packets it accepts. `ScopedKeeper` holds the channel
  capabilities the module owns.
- `BlogTypes` (blog_types.dfy): the records (`Post`, `SentPost`,
  `TimedoutPost`), the packet payload and its acknowledgement. A `Codec`
  carries `ValidateBasic`, payload marshalling and acknowledgement decoding as
  uninterpreted, fallible functions.
- `BlogKeeper` (keeper.dfy): class `Keeper` with the three stores as fields
  and the four handlers as methods. Each handler follows the Go code's
  read-modify-write through `GetPost`/`SetPost`, `GetSentPost`/`SetSentPost`
  and `AppendTimedoutPost`. Its `modifies` clause names the one store it may
  change, and its `ensures` gives the outcome of every branch.
  `Keeper.Valid()` says each store is keyed by the id of the record it holds.
  `SetPost` writes under `p.Id`, so this invariant is what makes "only the
  looked-up entry changes" true.
- `Scenarios` (scenarios.dfy): client methods that replay concrete
  lifecycles. They check, from the contracts alone, the outcomes of receive,
  acknowledgement, timeout and transmit.

Two behaviours of the code are worth stating outright:

- The code discards ParseUint's error (update_post.go:79 and :116). So an id
  that `ValidateBasic` lets through but that is not a number selects post 0,
  and an overflowing id selects post 2^64-1 (`Decimal.ParseUintSyntaxError`,
  `Decimal.ParseUintOverflow`, `Scenarios.ReceiveNonNumericId`).
- A payload that `ValidateBasic` rejects gets the zero acknowledgement (empty
  status) together with that error (update_post.go:74-76).

## Model

| member | source | states |
|---|---|---|
| `Decimal.ParseUintMatchesReference` | x/blog/keeper/update_post.go:79 | The parse of the post id equals the value of its leading digits. It saturates at 2^64-1 on overflow and is 0 when a non-digit follows digits that fit. The empty string gives 0. |
| `Decimal.ScanMatchesReference` | x/blog/keeper/update_post.go:79 | Each step of the digit loop preserves the correspondence with the reference. An overflow is reported before a later syntax error. |
| `Decimal.FormatParseRoundTrip` | x/blog/keeper/update_post.go:116 | The decimal text of any 64-bit id parses back to that same id. |
| `Decimal.ParseUintSyntaxError` | x/blog/keeper/update_post.go:79 | A non-digit reached before any overflow makes the discarded-error parse select id 0. |
| `Decimal.ParseUintOverflow` | x/blog/keeper/update_post.go:116 | An all-digit id too large for 64 bits selects id 2^64-1. |
| `Decimal.DigitPrefix` | x/blog/keeper/update_post.go:79 | The digit run the parser consumes is all digits and is followed by a non-digit or the end. |
| `Ibc.ChannelKeeper.GetChannel` | x/blog/keeper/update_post.go:26-32 | The channel is found exactly when the source endpoint has a channel end, and the counterparty comes from that end. |
| `Ibc.ChannelKeeper.GetNextSequenceSend` | x/blog/keeper/update_post.go:35-41 | A sequence is found exactly when the endpoint has one, and it is that endpoint's next send sequence. |
| `Ibc.ScopedKeeper.GetCapability` | x/blog/keeper/update_post.go:43-46 | The capability is found exactly when the module owns the channel's capability. |
| `Ibc.ChannelKeeper.SendPacket` | x/blog/keeper/update_post.go:64-66 | The send's verdict is returned. Only an accepted packet is appended to the channel's sent log. |
| `BlogKeeper.Keeper.TransmitUpdatePostPacket` | x/blog/keeper/update_post.go:17-69 | The guards are checked in order: channel not found, no send sequence, capability missing, marshal error, send refused. The first failing guard is the error and nothing is sent. On success exactly one packet is sent, with the next sequence, the source port and channel, the counterparty as destination and the given timeouts. The keeper's stores are untouched. |
| `BlogKeeper.Keeper.OnRecvUpdatePostPacket` | x/blog/keeper/update_post.go:72-93 | Invalid payload: its error, an empty ack status, no change. Unknown parsed id: status "failed", PostNotFound, no change. Otherwise status "success", no error, and the posts become `EditPost` of the old posts. Only the posts store may change, and keys stay equal to ids. |
| `BlogKeeper.EditPost` | x/blog/keeper/update_post.go:80-88 | The target post gets the new title and content. Its id and creator are unchanged, the key set is unchanged, and every other post is unchanged. |
| `BlogKeeper.Keeper.OnAcknowledgementUpdatePostPacket` | x/blog/keeper/update_post.go:97-133 | An error envelope gives nil and no change. An unrecognised envelope gives InvalidAckFormat and no change. An undecodable result gives CannotUnmarshalAck. A status other than "success" gives FailedToUpdatePost. A missing sent post gives SentPostNotFound. In those cases nothing changes. Otherwise there is no error and the sent posts become `CommitSentTitle` of the old ones. Only the sent-posts store may change. |
| `BlogKeeper.CommitSentTitle` | x/blog/keeper/update_post.go:117-123 | Only the target sent post's title changes, to the packet's title. Its id, its creator, the key set and every other sent post are unchanged. |
| `BlogKeeper.CommitSentTitleIdempotent` | x/blog/keeper/update_post.go:115-123 | Committing the same successful acknowledgement twice leaves the same sent posts as committing it once. |
| `BlogKeeper.Keeper.OnTimeoutUpdatePostPacket` | x/blog/keeper/update_post.go:136-149 | Never fails. It appends exactly one timed-out record with the payload's creator and title and the chain "destinationPort-destinationChannel". Posts and sent posts cannot change. |
| `BlogKeeper.Keeper.GetPost` | x/blog/keeper/update_post.go:80-84 | The post is found exactly when the id is a key, and the result is the stored post. |
| `BlogKeeper.Keeper.SetPost` | x/blog/keeper/update_post.go:88 | The post is stored under its own id, keeping every key equal to its record's id. |
| `BlogKeeper.Keeper.GetSentPost` | x/blog/keeper/update_post.go:117-120 | The sent post is found exactly when the id is a key, and the result is the stored sent post. |
| `BlogKeeper.Keeper.SetSentPost` | x/blog/keeper/update_post.go:123 | The sent post is stored under its own id, keeping every key equal to its record's id. |
| `BlogKeeper.Keeper.AppendTimedoutPost` | x/blog/keeper/update_post.go:139-146 | The record is appended to the end of the timed-out log. |

## Left out

- The Cosmos SDK context and the key-value store encoding behind the store
  accessors: the stores are maps and a sequence. The id and count that
  `AppendTimedoutPost` assigns are not modelled, so appending is a plain
  append and `TimedoutPost` has no id.
- The internals of ibc-go's `SendPacket`: its capability authentication,
  its timeout-height and timestamp checks, the packet commitment and the
  increment of the next send sequence. Its verdict is a parameter (`fault`),
  and an accepted packet is appended to `ChannelKeeper.sent`.
- The capability name `host.ChannelCapabilityPath(port, channel)`:
  capabilities are keyed by the port/channel pair directly.
- The fields of a channel end other than its counterparty (state, ordering,
  connection hops, version), and the fields of a sent post other than id,
  title and creator. The handlers never read them.
- The bodies of `ValidateBasic`, `GetBytes` and the JSON decoding of the
  acknowledgement. The code behind them is not part of this model, so they
  are uninterpreted functions in `BlogTypes.Codec`.
- Error wrapping and message text (`sdkerrors.Wrapf` with the port and
  channel): only the error kind is modelled.
- The IBC routing that turns an error from the receive handler into an error
  acknowledgement on the wire. That code is not part of this model.
- Go reads the id byte by byte, and the model reads it as a sequence of
  characters. A non-ASCII character is a non-digit either way, so the parsed
  value is the same.
