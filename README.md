# Player packet dispatcher (librespot-golang) in Dafny

This project models the packet dispatcher and correlation tables of the Go
`Player` in `librespot/player/player.go`. A player multiplexes many downloads
over one encrypted packet stream. It keeps:

- `channels`: open download channels, keyed by a 16-bit channel id;
- `seqChans`: pending audio-key requests, keyed by a 32-bit sequence number;
- `nextChan`: the 16-bit counter that hands out channel ids.

Inbound frames arrive at `HandleCmd` and are routed by their command byte:

- a key response (`0x0d`) goes to the pending request named by its leading big-endian sequence number;
- a chunk response (`0x09`) goes to the open channel named by its leading big-endian channel id;
- a key-error frame (`0x0e`) is only logged;
- every other command byte is ignored.

Files:

- `wrappers.dfy`: the `Option` datatype.
- `wire.dfy` (module `Wire`):
  - bytes and the 16- and 32-bit unsigned integers, as bounded integer newtypes;
  - `BigEndian`, the reference value of a byte string;
  - `ReadUint16` and `ReadUint32`, which do what Go's `binary.Read` with `binary.BigEndian` does on a full frame head;
  - `PutUint16` and `PutUint32`, their inverses.
- `player.dfy` (module `PlayerCore`):
  - the `Channel` and `Player` classes;
  - the `Slot` state of a pending key request;
  - the `Dispatch` outcome of one inbound frame;
  - the frame-head readers;
  - two routing lemmas;
  - five client methods that run the protocol end to end.

Abstractions:

- A pending key request is a `Slot`. It stands for the unbuffered Go channel stored under its sequence number:
  - `Open`: registered, and its requester will wait on it for the key;
  - `Orphaned`: the send failed, so the requester has returned and nobody will ever receive from it;
  - `Filled(key)`: the dispatcher has handed the key over.
- `loadTrackKey` is split into its three steps:
  - `RegisterKeySlot` stores the slot;
  - `SendKeyRequest` sends, and requires the slot to be registered already;
  - `AwaitKey` collects the key once it is there and removes the slot.
- A channel records the fragments it is handed, in order.
- `HandleCmd` returns a `Dispatch` value that names the branch taken:
  - `KeyUnmatched`, `KeyErrorLogged` and `ChunkUnmatched` are the branches that print a message;
  - `Ignored` prints nothing, because the `switch` has no default case;
  - `KeyBlocked` is a send to a slot that nobody will receive from.
- The sequence number and the channel id are read as Go reads them (`FrameSeqNum`, `FrameChannelId`). The error of `binary.Read` is ignored, so a frame head shorter than 4 (or 2) bytes reads as 0.
- `Player.Valid` states that each open channel sits under its own id. It holds from creation, and every method keeps it. It is what makes "only that channel receives the payload" provable.

The command-byte values come from the connection package. That package is not part of this model. The values used are those of the Spotify access-point packet protocol.

## Model

| member | source | states |
|---|---|---|
| `PlayerCore.Player.constructor` | librespot/player/player.go:25-34 | a new player has no open channels, no pending key requests and `nextChan == 0` |
| `PlayerCore.Player.AllocateChannel` | librespot/player/player.go:74-81 | the new channel is fresh, has id `old(nextChan)` and no fragments; `nextChan` becomes `old(nextChan) + 1 mod 2^16` (65535 wraps to 0); `channels` maps that id to the new channel and keeps every other key, overwriting an entry still open under the id; pending keys are untouched |
| `PlayerCore.Player.ReleaseChannel` | librespot/player/player.go:118-121 | exactly key `c.num` is removed and all other entries keep their channel and fragments; if `c.num` is absent the table is unchanged, so a second release is a no-op; whatever is registered under `c.num` is removed, even if it is not `c` |
| `PlayerCore.Player.RegisterKeySlot` | librespot/player/player.go:58 | an open slot is stored for `seqInt`, replacing any slot under it; nothing else changes |
| `PlayerCore.Player.SendKeyRequest` | librespot/player/player.go:60-65 | can only be called once the slot is registered; the send's error is returned as is; on an error the slot stays in the table, orphaned; on success nothing changes |
| `PlayerCore.Player.AwaitKey` | librespot/player/player.go:67-71 | once the slot is filled, returns exactly the delivered bytes, and `seqInt` is no longer pending; while the slot is not filled, the requester still waits and nothing changes |
| `PlayerCore.Player.HandleCmd` | librespot/player/player.go:83-116 | key response, with `s` the frame's sequence number: an open slot for `s` alone receives `data[4..20]`; an unknown `s` changes nothing; a slot nobody will receive from (orphaned, or already filled) blocks the send and changes nothing. Chunk response, with `id` the frame's channel id: the open channel under `id` alone receives `data[2..]`; an unknown `id` changes nothing. A key error and every other command byte change nothing. Only key responses touch `seqChans`, and only chunk responses touch channel contents. `channels` and `nextChan` never change here, because the release callback that a channel gets at player.go:75 is not modelled |
| `PlayerCore.FrameSeqNum` | librespot/player/player.go:87-89 | the sequence number is the big-endian value of the first four bytes, or 0 when the frame is shorter than four bytes |
| `PlayerCore.FrameChannelId` | librespot/player/player.go:104-106 | the channel id is the big-endian value of the first two bytes, or 0 when the frame is shorter than two bytes |
| `PlayerCore.Channel.constructor` | librespot/player/player.go:75 | a new channel carries the given id and has received nothing |
| `PlayerCore.Channel.HandlePacket` | librespot/player/player.go:111 | the channel receives the payload after all earlier ones |
| `PlayerCore.KeyResponseRouting` | librespot/player/player.go:85-92 | a key response made of `s`'s four bytes, a 16-byte key and any tail is at least 20 bytes long; its sequence number is exactly `s`, and its bytes 4 to 20 are exactly that key |
| `PlayerCore.ChunkResponseRouting` | librespot/player/player.go:102-111 | a chunk response made of an id's two bytes and a payload has exactly that channel id, followed by exactly that payload |
| `PlayerCore.KeyExchange` | librespot/player/player.go:55-95 | register, a successful send, dispatch of the matching response (delivered), then collect: the requester gets exactly the key from the frame, its slot is gone, and channels and counter are unchanged |
| `PlayerCore.TwoRequests` | librespot/player/player.go:55-95 | two requests with distinct sequence numbers whose responses arrive in the opposite order: each requester gets exactly the key from its own response, both slots are gone afterwards, and channels and counter are unchanged |
| `PlayerCore.ChunkDelivery` | librespot/player/player.go:74-114 | allocate, then dispatch of a chunk response for the new id (delivered): the new channel holds exactly that one payload, and pending keys are unchanged |
| `PlayerCore.FailedSendThenResponse` | librespot/player/player.go:58-92 | register, a failed send, then the response for that sequence number: the slot stays behind orphaned, and dispatching the response blocks instead of delivering |
| `PlayerCore.WrapAroundRelease` | librespot/player/player.go:74-121 | when the counter points at an id that is still open, the new channel replaces the old one under that id; releasing the old channel then removes the new one from the table |
| `Wire.ReadUint32` | librespot/player/player.go:87-89 | the decoded sequence number is the big-endian value of the first four bytes |
| `Wire.ReadUint16` | librespot/player/player.go:104-106 | the decoded channel id is the big-endian value of the first two bytes |
| `Wire.PutUint32` | librespot/player/player.go:56 | the four-byte form of a sequence number has exactly that big-endian value |
| `Wire.PutUint16` | librespot/player/player.go:104-106 | the two-byte encoding of a channel id that a sender puts at the head of a chunk response, which the read at these lines inverts: its big-endian value is exactly that id |
| `Wire.ReadPutUint32` | librespot/player/player.go:87-89 | reading a sequence number back from its encoding gives it back, whatever bytes follow |
| `Wire.ReadPutUint16` | librespot/player/player.go:104-106 | reading a channel id back from its encoding gives it back, whatever bytes follow |
| `Wire.ReadUint32Exact` | librespot/player/player.go:87-91 | a frame reads as sequence number `s` if and only if its first four bytes are `s`'s encoding, so a response never reaches another request's slot |
| `Wire.ReadUint16Exact` | librespot/player/player.go:104-110 | a frame reads as channel id `c` if and only if its first two bytes are `c`'s encoding |
| `Wire.BigEndianInjective` | librespot/player/player.go:87-89 | two byte strings of equal length with equal big-endian value are equal |

## Behaviour of the Go code that the model keeps

- **Slot left after a failed send.** `loadTrackKey` returns on a send error without deleting the slot it stored (player.go:58, 62-65). The slot stays in the table with nobody to receive from it (`SendKeyRequest`). A later response for that sequence number then blocks the dispatcher at player.go:92 (`FailedSendThenResponse`).
- **Key-error frames.** `HandleCmd` only prints a key-error frame (player.go:97-100). The waiting requester is not told, and nothing changes.
- **Channel-id collisions.** `AllocateChannel` uses the counter without checking whether that id is still open (player.go:75-78). After a wrap-around it replaces the open channel. `releaseChannel` deletes by id (player.go:119), so releasing the replaced channel later removes the new one (`WrapAroundRelease`).

## Left out

- `librespot/core/oauth.go` is not part of this model. It is HTTP token exchange and a local web server, with no dispatcher logic.
- `LoadTrack` and `LoadTrackWithIdAndFormat` (player.go:36-53) are left out. They only call `newAudioFileWithIdAndFormat`, `loadKey` and `loadChunks`, which are not part of this model.
- The transport (`stream.SendPacket`) is an input: `SendKeyRequest` takes the error that the send reports.
- The sequence provider (`mercury.NextSeqWithInt`) is an input: the key-request steps take the sequence number. `PutUint32` stands for its byte form.
- The request body built by `buildKeyRequest` is not modelled. Only the send's outcome matters to the tables.
- `NewChannel` and `Channel.handlePacket` are not part of this model. A channel only records its fragments. Left out with them:
  - the release callback the channel is given;
  - its reassembly;
  - its end-of-data handling.
- The `stream`, `mercury`, `seq` and `audioKey` fields of `Player` are left out. The dispatcher never reads `seq` or `audioKey`.
- Concurrency is left out. Go's unbuffered channels, `sync.Map` and the thread-safe map are replaced by plain maps, changed one call at a time. The blocking receive in `loadTrackKey` becomes `AwaitKey` returning `None`.
- PlayerCore.Player.HandleCmd: the model's dispatcher never blocks.
  - A hand-over to an open slot completes at once. Go's send waits for the requester's receive.
  - After `KeyBlocked`, the Go dispatch goroutine is stuck for good and handles no later frame. The model returns and goes on handling frames.
- PlayerCore.Player.HandleCmd: short frames are modelled only where Go does not panic.
  - Go slices the frame only when its sequence number or channel id matches (player.go:92, 111).
  - A matched frame shorter than 20 bytes (key response) or 2 bytes (chunk response) makes that slice panic. Preconditions that apply only to matched frames exclude these.
  - Unmatched short frames are modelled: they read as 0 or as their big-endian head, and are only logged.
  - The model treats a frame as exactly its bytes. A Go slice whose capacity reaches past its length is not modelled.
- PlayerCore.Player.AwaitKey: a missing slot makes Go panic on the nil type assertion. It is excluded by the precondition that the slot is registered.
- Logging (`fmt`, `log`) is left out. The `Dispatch` outcome names the branch that was taken.
