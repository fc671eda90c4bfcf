/**
  The packet dispatcher of the player: the table of open download channels
  keyed by 16-bit channel id, the table of pending audio-key requests keyed by
  32-bit sequence number, the counter that hands out channel ids, and the one
  inbound entry point that routes every received frame by its command byte.

  Go's channels and `sync.Map` are abstracted: a pending key request is a
  `Slot` that says whether a requester will take a key from it and whether
  the dispatcher has handed one over, and a download channel is an object
  that records the fragments it is handed.
 */
module PlayerCore {
  import opened Wrappers
  import opened Wire

  // Command bytes of the access-point packet protocol used by the player.
  const PacketStreamChunkRes: byte := 0x09
  const PacketAesKey: byte := 0x0d
  const PacketAesKeyError: byte := 0x0e

  /** Shortest key response whose key bytes can be sliced: sequence number (4) and key (16). */
  const KeyFrameLength := 20
  /** Shortest chunk response whose payload can be sliced: the channel id. */
  const ChunkHeaderLength := 2

  /** The state of one pending key request (the unbuffered Go channel stored
      for its sequence number). */
  datatype Slot =
    | Open                   // registered; its requester will wait on it for the key
    | Orphaned               // the request could not be sent; nobody will ever receive from it
    | Filled(key: seq<byte>) // the dispatcher has handed the key over

  /** What HandleCmd did with one inbound frame. */
  datatype Dispatch =
    | KeyDelivered    // the key bytes were handed to the waiting requester
    | KeyUnmatched    // no slot for this sequence number; logged
    | KeyBlocked      // nobody will receive from the slot; the unbuffered send never completes
    | KeyErrorLogged  // key-error frame; logged
    | ChunkDelivered  // the payload was handed to the open channel
    | ChunkUnmatched  // no open channel with this id; logged
    | Ignored         // a command byte this dispatcher does not handle; nothing is printed

  /** The sequence number HandleCmd reads from a key response. The error of
      the big-endian read is ignored, so a frame shorter than four bytes
      leaves it at 0. */
  function FrameSeqNum(data: seq<byte>): (r: uint32)
    ensures |data| >= 4 ==> r as int == BigEndian(data[..4])
    ensures |data| < 4 ==> r == 0
  {
    if |data| >= 4 then ReadUint32(data) else 0
  }

  /** The channel id HandleCmd reads from a chunk response; 0 when the frame
      is shorter than two bytes, for the same reason. */
  function FrameChannelId(data: seq<byte>): (r: uint16)
    ensures |data| >= 2 ==> r as int == BigEndian(data[..2])
    ensures |data| < 2 ==> r == 0
  {
    if |data| >= 2 then ReadUint16(data) else 0
  }

  /** A download channel, seen from the player: its id and what it was handed. */
  class Channel {
    const num: uint16
    var fragments: seq<seq<byte>>

    constructor (num: uint16)
      ensures this.num == num && fragments == []
    {
      this.num := num;
      fragments := [];
    }

    /** Receives one chunk payload, in arrival order. */
    method HandlePacket(data: seq<byte>)
      modifies this
      ensures fragments == old(fragments) + [data]
    {
      fragments := fragments + [data];
    }
  }

  class Player {
    var channels: map<uint16, Channel>
    var seqChans: map<uint32, Slot>
    var nextChan: uint16

    /** Every open channel is registered under its own id, so distinct ids
        name distinct channel objects. */
    ghost predicate Valid()
      reads this
    {
      forall id | id in channels :: channels[id].num == id
    }

    /** The fragments received so far by each open channel. */
    ghost function Received(): map<uint16, seq<seq<byte>>>
      reads this, channels.Values
    {
      map id | id in channels :: channels[id].fragments
    }

    /** The channel a frame is forwarded to: the open channel named by a chunk
        response, and nobody otherwise. */
    ghost function Recipients(cmd: byte, data: seq<byte>): set<Channel>
      reads this
    {
      if cmd == PacketStreamChunkRes && FrameChannelId(data) in channels
      then {channels[FrameChannelId(data)]}
      else {}
    }

    /** A fresh player: no open channels, no pending keys, ids start at 0. */
    constructor ()
      ensures Valid()
      ensures channels == map[] && seqChans == map[] && nextChan == 0
    {
      channels := map[];
      seqChans := map[];
      nextChan := 0;
    }

    /** Opens a channel under the current counter value and advances the
        counter modulo 2^16. An open channel already registered under that id
        (possible after wrap-around) is replaced, not refused. */
    method AllocateChannel() returns (c: Channel)
      requires Valid()
      modifies this
      ensures Valid() && fresh(c)
      ensures c.num == old(nextChan) && c.fragments == []
      ensures nextChan as int == (old(nextChan) as int + 1) % 0x1_0000
      ensures channels == old(channels)[c.num := c]
      ensures Received() == old(Received())[c.num := []]
      ensures seqChans == old(seqChans)
    {
      c := new Channel(nextChan);
      nextChan := if nextChan == 0xFFFF then 0 else nextChan + 1;
      channels := channels[c.num := c];
    }

    /** Removes whatever is registered under c's id; nothing else changes, and
        an id that is not registered leaves the table as it was. */
    method ReleaseChannel(c: Channel)
      requires Valid()
      modifies this
      ensures Valid()
      ensures channels == old(channels) - {c.num}
      ensures Received() == old(Received()) - {c.num}
      ensures c.num !in old(channels) ==> channels == old(channels)
      ensures seqChans == old(seqChans) && nextChan == old(nextChan)
    {
      channels := channels - {c.num};
    }

    /** Registers an open slot for seqInt, replacing any slot stored under it. */
    method RegisterKeySlot(seqInt: uint32)
      requires Valid()
      modifies this
      ensures Valid()
      ensures seqChans == old(seqChans)[seqInt := Open]
      ensures channels == old(channels) && nextChan == old(nextChan)
    {
      seqChans := seqChans[seqInt := Open];
    }

    /** Sends the key request for a registered slot; sendErr is what the
        transport reports. On an error the request returns at once, so its
        slot stays in the table with nobody left to receive from it. */
    method SendKeyRequest(seqInt: uint32, sendErr: Option<string>) returns (err: Option<string>)
      requires Valid()
      requires seqInt in seqChans
      modifies this
      ensures Valid()
      ensures err == sendErr
      ensures seqInt in seqChans
      ensures seqChans == if sendErr.Some? then old(seqChans)[seqInt := Orphaned] else old(seqChans)
      ensures channels == old(channels) && nextChan == old(nextChan)
    {
      if sendErr.Some? {
        seqChans := seqChans[seqInt := Orphaned];
      }
      err := sendErr;
    }

    /** Waits for the key after a successful send: once the dispatcher has
        filled the slot, returns exactly those bytes and removes the slot;
        until then the requester keeps waiting (None) and nothing changes. */
    method AwaitKey(seqInt: uint32) returns (key: Option<seq<byte>>)
      requires Valid()
      requires seqInt in seqChans
      modifies this
      ensures Valid()
      ensures key == if old(seqChans)[seqInt].Filled? then Some(old(seqChans)[seqInt].key) else None
      ensures seqChans == if key.Some? then old(seqChans) - {seqInt} else old(seqChans)
      ensures channels == old(channels) && nextChan == old(nextChan)
    {
      match seqChans[seqInt]
      case Filled(k) =>
        key := Some(k);
        seqChans := seqChans - {seqInt};
      case _ =>
        key := None;
    }

    /** The inbound entry point: routes one frame by its command byte. */
    method HandleCmd(cmd: byte, data: seq<byte>) returns (outcome: Dispatch)
      requires Valid()
      requires cmd == PacketAesKey && FrameSeqNum(data) in seqChans ==> |data| >= KeyFrameLength
      requires cmd == PacketStreamChunkRes && FrameChannelId(data) in channels ==> |data| >= ChunkHeaderLength
      modifies this, Recipients(cmd, data)
      ensures Valid()
      ensures channels == old(channels) && nextChan == old(nextChan)
      // key response: only the slot named by the leading sequence number receives bytes 4..20
      ensures cmd == PacketAesKey ==>
        var s := FrameSeqNum(data);
        && (outcome == KeyDelivered <==> s in old(seqChans) && old(seqChans)[s] == Open)
        && (outcome == KeyUnmatched <==> s !in old(seqChans))
        && (outcome == KeyBlocked <==> s in old(seqChans) && old(seqChans)[s] != Open)
        && seqChans == (if outcome == KeyDelivered then old(seqChans)[s := Filled(data[4..20])]
                        else old(seqChans))
      ensures cmd != PacketAesKey ==> seqChans == old(seqChans)
      // chunk response: only the channel named by the leading id receives the rest
      ensures cmd == PacketStreamChunkRes ==>
        var id := FrameChannelId(data);
        && (outcome == ChunkDelivered <==> id in old(channels))
        && (outcome == ChunkUnmatched <==> id !in old(channels))
        && Received() == (if id in old(channels) then old(Received())[id := old(Received())[id] + [data[2..]]]
                          else old(Received()))
      ensures cmd != PacketStreamChunkRes ==> Received() == old(Received())
      ensures cmd == PacketAesKeyError ==> outcome == KeyErrorLogged
      ensures cmd !in {PacketAesKey, PacketAesKeyError, PacketStreamChunkRes} ==> outcome == Ignored
    {
      if cmd == PacketAesKey {
        var seqNum := FrameSeqNum(data);
        if seqNum !in seqChans {
          outcome := KeyUnmatched;
        } else if seqChans[seqNum] != Open {
          outcome := KeyBlocked;
        } else {
          seqChans := seqChans[seqNum := Filled(data[4..20])];
          outcome := KeyDelivered;
        }
      } else if cmd == PacketAesKeyError {
        outcome := KeyErrorLogged;
      } else if cmd == PacketStreamChunkRes {
        var id := FrameChannelId(data);
        if id in channels {
          channels[id].HandlePacket(data[2..]);
          outcome := ChunkDelivered;
        } else {
          outcome := ChunkUnmatched;
        }
      } else {
        outcome := Ignored;
      }
    }
  }

  /** A key response built from sequence number s and a 16-byte key is read
      back as exactly that sequence number and exactly that key. */
  lemma KeyResponseRouting(s: uint32, key: seq<byte>, rest: seq<byte>)
    requires |key| == 16
    ensures var f := PutUint32(s) + key + rest;
      |f| >= KeyFrameLength && FrameSeqNum(f) == s && f[4..20] == key
  {
    var f := PutUint32(s) + key + rest;
    assert f == PutUint32(s) + (key + rest);
    ReadPutUint32(s, key + rest);
  }

  /** A chunk response built from channel id and a payload is read back as
      exactly that id and exactly that payload. */
  lemma ChunkResponseRouting(id: uint16, payload: seq<byte>)
    ensures var f := PutUint16(id) + payload;
      |f| >= ChunkHeaderLength && FrameChannelId(f) == id && f[2..] == payload
  {
    ReadPutUint16(id, payload);
  }

  /** A whole key exchange on one player: register, send, the dispatcher
      receives the matching response, the requester collects its key. */
  method KeyExchange(p: Player, s: uint32, key: seq<byte>, rest: seq<byte>) returns (got: Option<seq<byte>>)
    requires p.Valid() && |key| == 16
    modifies p
    ensures p.Valid()
    ensures got == Some(key)
    ensures p.seqChans == old(p.seqChans) - {s}
    ensures p.channels == old(p.channels) && p.nextChan == old(p.nextChan)
  {
    p.RegisterKeySlot(s);
    var err := p.SendKeyRequest(s, None);
    assert err == None;
    KeyResponseRouting(s, key, rest);
    var outcome := p.HandleCmd(PacketAesKey, PutUint32(s) + key + rest);
    assert outcome == KeyDelivered;
    got := p.AwaitKey(s);
  }

  /** Two requests whose responses arrive in the opposite order: each
      requester gets the key from its own response, and both slots are gone. */
  method TwoRequests(p: Player, s1: uint32, s2: uint32, k1: seq<byte>, k2: seq<byte>)
    returns (got1: Option<seq<byte>>, got2: Option<seq<byte>>)
    requires p.Valid() && s1 != s2 && |k1| == 16 && |k2| == 16
    modifies p
    ensures p.Valid()
    ensures got1 == Some(k1) && got2 == Some(k2)
    ensures p.seqChans == old(p.seqChans) - {s1, s2}
    ensures p.channels == old(p.channels) && p.nextChan == old(p.nextChan)
  {
    p.RegisterKeySlot(s1);
    var err1 := p.SendKeyRequest(s1, None);
    p.RegisterKeySlot(s2);
    var err2 := p.SendKeyRequest(s2, None);
    KeyResponseRouting(s2, k2, []);
    var out2 := p.HandleCmd(PacketAesKey, PutUint32(s2) + k2 + []);
    assert out2 == KeyDelivered;
    KeyResponseRouting(s1, k1, []);
    var out1 := p.HandleCmd(PacketAesKey, PutUint32(s1) + k1 + []);
    assert out1 == KeyDelivered;
    got1 := p.AwaitKey(s1);
    got2 := p.AwaitKey(s2);
  }

  /** A chunk download on one player: open a channel, the dispatcher receives
      a chunk response for its id, and the channel holds exactly that payload. */
  method ChunkDelivery(p: Player, payload: seq<byte>) returns (c: Channel)
    requires p.Valid()
    modifies p
    ensures p.Valid() && fresh(c)
    ensures c.num == old(p.nextChan) && p.channels == old(p.channels)[c.num := c]
    ensures c.fragments == [payload]
    ensures p.seqChans == old(p.seqChans)
  {
    c := p.AllocateChannel();
    ChunkResponseRouting(c.num, payload);
    var outcome := p.HandleCmd(PacketStreamChunkRes, PutUint16(c.num) + payload);
    assert outcome == ChunkDelivered;
  }

  /** A failed send followed by the response to that request: the slot left
      behind has nobody to receive from it, so the hand-over never happens. */
  method FailedSendThenResponse(p: Player, s: uint32, e: string, key: seq<byte>) returns (outcome: Dispatch)
    requires p.Valid() && |key| == 16
    modifies p
    ensures p.Valid()
    ensures outcome == KeyBlocked
    ensures p.seqChans == old(p.seqChans)[s := Orphaned]
  {
    p.RegisterKeySlot(s);
    var err := p.SendKeyRequest(s, Some(e));
    assert err == Some(e);
    KeyResponseRouting(s, key, []);
    outcome := p.HandleCmd(PacketAesKey, PutUint32(s) + key + []);
  }

  /** After the counter has wrapped onto an id that is still open, allocating
      replaces that channel, and releasing the replaced channel afterwards
      removes the new one. */
  method WrapAroundRelease(p: Player) returns (stale: Channel, c: Channel)
    requires p.Valid() && p.nextChan in p.channels
    modifies p
    ensures p.Valid() && fresh(c)
    ensures stale == old(p.channels[p.nextChan]) && stale != c && stale.num == c.num
    ensures c.num !in p.channels
    ensures p.channels == old(p.channels) - {c.num}
  {
    stale := p.channels[p.nextChan];
    c := p.AllocateChannel();
    p.ReleaseChannel(stale);
  }
}
