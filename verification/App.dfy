/** The mesh node: building frames and processing received ones. */
module App {
  import opened Bytes
  import opened Packet
  import opened Crypto
  import opened Router

  const HOP_LIMIT: u8 := 3
  const TEXT_MESSAGE_APP := 1
  const NODEINFO_APP := 4

  /** The application protobuf; `other` stands for the optional fields. */
  datatype Data = Data(portnum: int, payload: seq<u8>, other: seq<u8>)

  /** The generated protobuf code, as a pair of functions. */
  datatype Codec = Codec(encode: Data -> seq<u8>, decode: seq<u8> -> Option<Data>) {
    ghost predicate RoundTrips() {
      forall d: Data :: decode(encode(d)) == Some(d)
    }
  }

  /** What all members of a channel share: block cipher, codec, channel name and key. */
  datatype Channel = Channel(aes: BlockCipher, codec: Codec, name: seq<u8>, psk: Key) {
    function Hash(): u8 {
      Xor(ByteSum(name), psk[31])
    }
  }

  /** Wrapping sum of bytes. */
  function ByteSum(s: seq<u8>): u8 {
    if s == [] then 0 else (ByteSum(s[..|s| - 1]) + s[|s| - 1]) % 0x100
  }

  datatype MeshMessage = MeshMessage(from: u32, to: u32, data: Data, hopLimit: u8, selfOrigin: bool)

  datatype RxResult =
    | Done(msg: Option<MeshMessage>, fwd: Option<MeshFrame>)
    | Malformed
    | WrongChannel
    | Proto

  /** An encrypted frame from `from` with the given initial hop limit. */
  function FrameFor(ch: Channel, from: u32, to: u32, data: Data, id: u32, hops: u8): MeshFrame {
    MeshFrame(MeshHeader(to, from, id, hops, false, false, hops, ch.Hash()),
              Ctr(ch.aes, ch.psk, id, from, ch.codec.encode(data)))
  }

  function BuildFrame(ch: Channel, from: u32, to: u32, data: Data, id: u32): Option<MeshFrame> {
    if |ch.codec.encode(data)| > MAX_PAYLOAD then None
    else Some(FrameFor(ch, from, to, data, id, HOP_LIMIT))
  }

  function DecodePayload(ch: Channel, h: MeshHeader, plaintext: seq<u8>, isSelf: bool): Option<MeshMessage> {
    var data := ch.codec.decode(plaintext);
    if data.None? then None else Some(MeshMessage(h.from, h.to, data.value, h.hopLimit, isSelf))
  }

  predicate ChannelMatches(ch: Channel, h: MeshHeader) {
    h.viaMqtt || h.channelHash == ch.Hash()
  }

  /** The answer for a well-formed frame of this channel, given whether its key was in the cache. */
  function Answer(ch: Channel, nodeId: u32, f: MeshFrame, seen: bool): RxResult {
    var h := f.header;
    var plaintext := Ctr(ch.aes, ch.psk, h.id, h.from, f.payload);
    var isSelf := h.from == nodeId;
    match Decide(f, nodeId, plaintext, seen)
    case Drop => Done(None, None)
    case Forward(fwd) => Done(None, if isSelf then None else Some(fwd))
    case Deliver(plain) =>
      var msg := DecodePayload(ch, h, plain, isSelf);
      if msg.None? then Proto else Done(msg, None)
    case DeliverAndForward(plain, fwd) =>
      var msg := DecodePayload(ch, h, plain, isSelf);
      if msg.None? then Proto else Done(msg, if isSelf then None else Some(fwd))
  }

  /** Processing raw bytes: the answer and the new cache. */
  function ProcessRx(ch: Channel, nodeId: u32, cache: seq<PacketKey>, raw: seq<u8>): (RxResult, seq<PacketKey>) {
    var f := FromBytes(raw);
    if f.None? then (Malformed, cache)
    else if !ChannelMatches(ch, f.value.header) then (WrongChannel, cache)
    else
      var key := KeyOf(f.value.header);
      (Answer(ch, nodeId, f.value, key in cache), Insert(cache, key))
  }

  class MeshNode {
    const channel: Channel
    const nodeId: u32
    const dedup: DedupCache

    constructor WithId(channel: Channel, nodeId: u32)
      ensures this.channel == channel && this.nodeId == nodeId
      ensures fresh(dedup) && dedup.entries == []
    {
      this.channel := channel;
      this.nodeId := nodeId;
      this.dedup := new DedupCache();
    }

    /** `id` is the random packet id. */
    method Build(to: u32, data: Data, id: u32) returns (frame: Option<MeshFrame>)
      ensures frame == BuildFrame(channel, nodeId, to, data, id)
    {
      var plaintext := channel.codec.encode(data);
      if |plaintext| > MAX_PAYLOAD {
        return None;
      }
      var header := MeshHeader(to, nodeId, id, 3, false, false, 3, channel.Hash());
      var ciphertext := Encrypt(channel.aes, channel.psk, id, nodeId, plaintext);
      return Some(MeshFrame(header, ciphertext));
    }

    method ProcessRxFrame(raw: seq<u8>) returns (r: RxResult)
      modifies dedup
      ensures (r, dedup.entries) == ProcessRx(channel, nodeId, old(dedup.entries), raw)
    {
      var parsed := FromBytes(raw);
      if parsed.None? {
        return Malformed;
      }
      var frame := parsed.value;
      var h := frame.header;
      if !h.viaMqtt && h.channelHash != channel.Hash() {
        return WrongChannel;
      }
      var plaintext := Encrypt(channel.aes, channel.psk, h.id, h.from, frame.payload);
      var isSelf := h.from == nodeId;
      var decision := Route(frame, nodeId, plaintext, dedup);
      match decision {
        case Drop => return Done(None, None);
        case Forward(fwd) => return Done(None, if isSelf then None else Some(fwd));
        case Deliver(plain) =>
          var msg := DecodePayload(channel, h, plain, isSelf);
          return if msg.None? then Proto else Done(msg, None);
        case DeliverAndForward(plain, fwd) =>
          var msg := DecodePayload(channel, h, plain, isSelf);
          return if msg.None? then Proto else Done(msg, if isSelf then None else Some(fwd));
      }
    }
  }

  /** The bytes of a built frame: both hop fields 3, neither mark set, the body encrypted. */
  lemma BuiltBytes(ch: Channel, from: u32, to: u32, data: Data, id: u32)
    ensures var (frame, body) := (BuildFrame(ch, from, to, data, id), ch.codec.encode(data));
            && (frame.Some? <==> |body| <= 237)
            && (frame.Some? ==>
                  ToBytes(frame.value) == ToLe(to) + ToLe(from) + ToLe(id) + [0x63, Xor(ByteSum(ch.name), ch.psk[31]), 0, 0]
                                          + Ctr(ch.aes, ch.psk, id, from, body))
  {}

  /** The key of raw bytes that reach the dedup cache, that is, of well-formed frames of this channel. */
  function Heard(ch: Channel, raw: seq<u8>): Option<PacketKey> {
    var f := FromBytes(raw);
    if f.Some? && ChannelMatches(ch, f.value.header) then Some(KeyOf(f.value.header)) else None
  }

  /** The sum of some bytes. */
  function Sum(s: seq<u8>): nat {
    if s == [] then 0 else s[0] + Sum(s[1..])
  }

  lemma {:induction false} SumLast(s: seq<u8>)
    requires s != []
    ensures Sum(s) == Sum(s[..|s| - 1]) + s[|s| - 1]
  {
    if |s| > 1 {
      SumLast(s[1..]);
      assert s[1..][..|s| - 2] == s[..|s| - 1][1..];
    }
  }

  /** The hash of a channel name is the sum of its bytes modulo 256. */
  lemma {:induction false} ByteSumIsModulo(s: seq<u8>)
    ensures ByteSum(s) == Sum(s) % 0x100
  {
    if s != [] {
      ByteSumIsModulo(s[..|s| - 1]);
      SumLast(s);
    }
  }

  /** The bytes carry the channel's hash, or are marked as coming from MQTT, which exempts them. */
  predicate Admitted(ch: Channel, raw: seq<u8>) {
    |raw| >= 16 && (raw[12] / 16 % 2 == 1 || raw[13] == Xor(ByteSum(ch.name), ch.psk[31]))
  }

  /**
   The first two exits, on raw bytes: less than a header is malformed; without the MQTT mark and with
   another hash, the frame belongs to another channel. Both leave the cache alone; all other bytes
   are looked up under sender and id.
   */
  lemma RxExits(ch: Channel, nodeId: u32, cache: seq<PacketKey>, raw: seq<u8>)
    ensures var (r, cache') := ProcessRx(ch, nodeId, cache, raw);
            && (r.Malformed? <==> |raw| < 16)
            && (r.WrongChannel? <==>
                  |raw| >= 16 && raw[12] / 16 % 2 == 0 && raw[13] != Xor(ByteSum(ch.name), ch.psk[31]))
            && (r.Malformed? || r.WrongChannel? ==> cache' == cache)
    ensures Heard(ch, raw)
            == if Admitted(ch, raw) then Some((FromLe(raw[4..8]), FromLe(raw[8..12]))) else None
  {
    FieldsFromBytes(raw);
  }

  /** The body decrypts to something the codec cannot read. */
  predicate Unreadable(ch: Channel, f: MeshFrame) {
    ch.codec.decode(Ctr(ch.aes, ch.psk, f.header.id, f.header.from, f.payload)).None?
  }

  /** A frame of this channel that is addressed to the node but has an unreadable body. */
  predicate UnreadableForUs(ch: Channel, nodeId: u32, raw: seq<u8>) {
    Heard(ch, raw).Some? && ForUs(FromBytes(raw).value.header, nodeId) && Unreadable(ch, FromBytes(raw).value)
  }

  /**
   What an arbitrary byte string does to a node. The cache changes exactly for new keys of
   this channel. The answer is a codec error exactly for such a packet addressed to us with an
   unreadable body. Bytes go out exactly when such a packet has hops left, is not our own, and is
   not such an unreadable one; they are the received bytes with the hop limit lowered.
   */
  lemma RxEffect(ch: Channel, nodeId: u32, cache: seq<PacketKey>, raw: seq<u8>)
    ensures var (r, cache') := ProcessRx(ch, nodeId, cache, raw);
            var key := Heard(ch, raw);
            && (cache' != cache <==> key.Some? && key.value !in cache)
            && (key.Some? ==> key.value in cache')
            && (r.Proto? <==> key.Some? && key.value !in cache && UnreadableForUs(ch, nodeId, raw))
            && (r.Done? && r.fwd.Some? <==>
                  && key.Some? && key.value !in cache && raw[12] % 8 > 0 && key.value.0 != nodeId
                  && !UnreadableForUs(ch, nodeId, raw))
            && (r.Done? && r.fwd.Some? ==> ToBytes(r.fwd.value) == raw[12 := raw[12] - 1][14 := 0][15 := 0])
  {
    var key := Heard(ch, raw);
    if key.Some? {
      if key.value !in cache {
        var c := Insert(cache, key.value);
        assert c[|c| - 1] == key.value && key.value in c;
      }
      if raw[12] % 8 > 0 { RelayBytes(raw); }
    }
  }

  /**
   A message is handed over exactly for a new packet addressed to us or to everyone with a readable
   body; it carries sender, addressee and hop limit of the bytes and what the codec reads.
   */
  lemma RxMessage(ch: Channel, nodeId: u32, cache: seq<PacketKey>, raw: seq<u8>)
    ensures var (r, key) := (ProcessRx(ch, nodeId, cache, raw).0, Heard(ch, raw));
            && (r.Done? && r.msg.Some? <==>
                  && key.Some? && key.value !in cache
                  && (FromLe(raw[0..4]) == nodeId || FromLe(raw[0..4]) == 0xFFFF_FFFF)
                  && ch.codec.decode(Ctr(ch.aes, ch.psk, key.value.1, key.value.0, raw[16..])).Some?)
            && (r.Done? && r.msg.Some? ==>
                  r.msg.value == MeshMessage(key.value.0, FromLe(raw[0..4]),
                    ch.codec.decode(Ctr(ch.aes, ch.psk, key.value.1, key.value.0, raw[16..])).value,
                    raw[12] % 8, key.value.0 == nodeId))
  {}

  /** While the key of some bytes is cached, the same bytes are dropped without a trace. */
  lemma RxRepeated(ch: Channel, nodeId: u32, cache: seq<PacketKey>, raw: seq<u8>)
    requires Heard(ch, raw).Some? && Heard(ch, raw).value in cache
    ensures ProcessRx(ch, nodeId, cache, raw) == (Done(None, None), cache)
  {}

  /**
   An unreadable body costs the relay: a new foreign broadcast with hops left and a body the codec
   rejects is answered with a codec error, nothing goes out, and the same bytes received again are dropped.
   */
  lemma UnreadableBodyLosesRelay(ch: Channel, nodeId: u32, cache: seq<PacketKey>, from: u32, id: u32, hops: u8, body: seq<u8>)
    requires ch.codec.decode(body).None? && 0 < hops < 8 && from != nodeId && (from, id) !in cache
    ensures var h := MeshHeader(BROADCAST, from, id, hops, false, false, hops, ch.Hash());
            var raw := ToBytes(MeshFrame(h, Ctr(ch.aes, ch.psk, id, from, body)));
            var cache' := Insert(cache, (from, id));
            && ProcessRx(ch, nodeId, cache, raw) == (Proto, cache')
            && ProcessRx(ch, nodeId, cache', raw) == (Done(None, None), cache')
  {
    var h := MeshHeader(BROADCAST, from, id, hops, false, false, hops, ch.Hash());
    var f := MeshFrame(h, Ctr(ch.aes, ch.psk, id, from, body));
    RoundTripExact(f);
    CtrUndo(ch.aes, ch.psk, id, from, body);
    var c := Insert(cache, (from, id));
    assert c[|c| - 1] == (from, id);
  }

  /** The frame of `FrameFor` after some relays, with `left` hops left. */
  function Hopped(ch: Channel, from: u32, to: u32, data: Data, id: u32, hops: u8, left: u8): MeshFrame {
    var f := FrameFor(ch, from, to, data, id, hops);
    f.(header := f.header.(hopLimit := left))
  }

  lemma AnswerBuilt(ch: Channel, from: u32, to: u32, data: Data, id: u32, hops: u8, left: u8, nodeId: u32, seen: bool)
    requires ch.codec.RoundTrips()
    ensures var g := Hopped(ch, from, to, data, id, hops, left);
            Answer(ch, nodeId, g, seen) ==
            if seen then Done(None, None)
            else Done(if to == nodeId || to == BROADCAST
                      then Some(MeshMessage(from, to, data, left, from == nodeId)) else None,
                      if left > 0 && from != nodeId then Some(Relayed(g)) else None)
  {
    CtrUndo(ch.aes, ch.psk, id, from, ch.codec.encode(data));
    assert ch.codec.decode(ch.codec.encode(data)) == Some(data);
  }

  /** Every copy of a built frame, at whatever hop limit, is answered as the flooding protocol intends. */
  lemma ReceiveBuilt(ch: Channel, from: u32, to: u32, data: Data, id: u32, hops: u8, left: u8,
                     nodeId: u32, cache: seq<PacketKey>)
    requires ch.codec.RoundTrips() && hops < 8 && left < 8
    ensures var g := Hopped(ch, from, to, data, id, hops, left);
            && Heard(ch, ToBytes(g)) == Some((from, id))
            && ProcessRx(ch, nodeId, cache, ToBytes(g)) ==
               if (from, id) in cache then (Done(None, None), cache)
               else (Done(if to == nodeId || to == BROADCAST
                          then Some(MeshMessage(from, to, data, left, from == nodeId)) else None,
                          if left > 0 && from != nodeId then Some(Relayed(g)) else None),
                     Insert(cache, (from, id)))
  {
    var g := Hopped(ch, from, to, data, id, hops, left);
    RoundTripExact(g);
    AnswerBuilt(ch, from, to, data, id, hops, left, nodeId, (from, id) in cache);
  }
}
