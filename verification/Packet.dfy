/** Over-the-air framing: a 16-byte clear header followed by the encrypted body. */
module Packet {
  import opened Bytes

  const HEADER_LEN := 16
  const MAX_PAYLOAD := 237
  const BROADCAST: u32 := 0xFFFF_FFFF

  datatype MeshHeader = MeshHeader(
    to: u32, from: u32, id: u32, hopLimit: u8, wantAck: bool, viaMqtt: bool, hopStart: u8, channelHash: u8)

  datatype MeshFrame = MeshFrame(header: MeshHeader, payload: seq<u8>)

  /** The flag byte: hop_limit in bits 0-2, want_ack in 3, via_mqtt in 4, hop_start in 5-7. */
  function FlagByte(hopLimit: u8, wantAck: bool, viaMqtt: bool, hopStart: u8): u8 {
    hopLimit % 8 + (if wantAck then 8 else 0) + (if viaMqtt then 16 else 0) + hopStart % 8 * 32
  }

  function Flags(h: MeshHeader): u8 {
    FlagByte(h.hopLimit, h.wantAck, h.viaMqtt, h.hopStart)
  }

  function HeaderBytes(h: MeshHeader): (s: seq<u8>)
    ensures |s| == HEADER_LEN
  {
    ToLe(h.to) + ToLe(h.from) + ToLe(h.id) + [Flags(h), h.channelHash, 0, 0]
  }

  /** `MeshHeader::encode`: fills a zeroed 16-byte buffer field by field. */
  method Encode(h: MeshHeader) returns (buf: array<u8>)
    ensures fresh(buf) && buf[..] == HeaderBytes(h)
  {
    buf := new u8[HEADER_LEN](_ => 0);
    var to, from, id := ToLe(h.to), ToLe(h.from), ToLe(h.id);
    forall i | 0 <= i < 4 { buf[i] := to[i]; }
    forall i | 0 <= i < 4 { buf[4 + i] := from[i]; }
    forall i | 0 <= i < 4 { buf[8 + i] := id[i]; }
    buf[12] := Flags(h);
    buf[13] := h.channelHash;
  }

  function Decode(buf: seq<u8>): Option<MeshHeader> {
    if |buf| < HEADER_LEN then None
    else
      var flags := buf[12];
      Some(MeshHeader(FromLe(buf[0..4]), FromLe(buf[4..8]), FromLe(buf[8..12]),
                      flags % 8, flags / 8 % 2 != 0, flags / 16 % 2 != 0, flags / 32 % 8, buf[13]))
  }

  function ToBytes(f: MeshFrame): seq<u8> {
    HeaderBytes(f.header) + f.payload
  }

  /** `MeshFrame::to_bytes`: the header followed by the payload, appended to a growing vector. */
  method FrameBytes(f: MeshFrame) returns (out: seq<u8>)
    ensures out == ToBytes(f)
  {
    out := [];
    var header := Encode(f.header);
    out := out + header[..];
    out := out + f.payload;
  }

  function FromBytes(raw: seq<u8>): Option<MeshFrame> {
    var header := Decode(raw);
    if header.None? then None else Some(MeshFrame(header.value, raw[HEADER_LEN..]))
  }

  /** Where each field of received bytes is found. */
  lemma FieldsFromBytes(raw: seq<u8>)
    ensures FromBytes(raw).Some? <==> |raw| >= 16
    ensures |raw| >= 16 ==>
              var h := FromBytes(raw).value.header;
              && h.to == FromLe(raw[0..4]) && h.from == FromLe(raw[4..8]) && h.id == FromLe(raw[8..12])
              && h.hopLimit == raw[12] % 8 && h.hopStart == raw[12] / 32
              && (h.wantAck <==> raw[12] / 8 % 2 == 1) && (h.viaMqtt <==> raw[12] / 16 % 2 == 1)
              && h.channelHash == raw[13] && FromBytes(raw).value.payload == raw[16..]
  {}

  /** What survives the three-bit hop fields. */
  function Truncated(h: MeshHeader): MeshHeader {
    h.(hopLimit := h.hopLimit % 8, hopStart := h.hopStart % 8)
  }

  lemma FlagBits(l: nat, a: nat, m: nat, s: nat)
    requires l < 8 && a < 2 && m < 2 && s < 8
    ensures var b := l + 8 * (a + 2 * (m + 2 * s));
            b % 8 == l && b / 8 % 2 == a && b / 16 % 2 == m && b / 32 == s
  {
    var b := l + 8 * (a + 2 * (m + 2 * s));
    assert b / 8 == a + 2 * (m + 2 * s);
    assert b / 16 == m + 2 * s;
  }

  lemma FlagsRoundTrip(h: MeshHeader)
    ensures var b := Flags(h);
            && b % 8 == h.hopLimit % 8 && (b / 8 % 2 != 0) == h.wantAck && (b / 16 % 2 != 0) == h.viaMqtt
            && b / 32 % 8 == h.hopStart % 8
  {
    var (l, s) := (h.hopLimit % 8, h.hopStart % 8);
    var (a, m) := (if h.wantAck then 1 else 0, if h.viaMqtt then 1 else 0);
    FlagBits(l, a, m, s);
  }

  /** Decoding an encoded frame loses the upper five bits of the hop fields and nothing else. */
  lemma RoundTrip(f: MeshFrame)
    ensures FromBytes(ToBytes(f)) == Some(MeshFrame(Truncated(f.header), f.payload))
  {
    var h, raw := f.header, ToBytes(f);
    assert raw[0..4] == ToLe(h.to) && raw[4..8] == ToLe(h.from) && raw[8..12] == ToLe(h.id);
    assert raw[12] == Flags(h) && raw[13] == h.channelHash && raw[HEADER_LEN..] == f.payload;
    FlagsRoundTrip(h);
    LeRoundTrip(h.to);
    LeRoundTrip(h.from);
    LeRoundTrip(h.id);
  }

  /** Frames survive the wire exactly when both hop fields fit in three bits. */
  lemma RoundTripExact(f: MeshFrame)
    ensures FromBytes(ToBytes(f)) == Some(f) <==> f.header.hopLimit < 8 && f.header.hopStart < 8
  {
    RoundTrip(f);
  }

  lemma FlagsOfByte(b: u8)
    ensures FlagByte(b % 8, b / 8 % 2 != 0, b / 16 % 2 != 0, b / 32 % 8) == b
  {
    assert b == 8 * (b / 8) + b % 8 && b / 8 == 2 * (b / 16) + b / 8 % 2 && b / 16 == 2 * (b / 32) + b / 16 % 2;
  }

  /** The fields `Decode` reads determine the bytes they were read from. */
  lemma FieldsDetermineBytes(raw: seq<u8>, h: MeshHeader)
    requires |raw| >= HEADER_LEN && Decode(raw) == Some(h)
    ensures ToLe(h.to) == raw[0..4] && ToLe(h.from) == raw[4..8] && ToLe(h.id) == raw[8..12]
    ensures Flags(h) == raw[12] && h.channelHash == raw[13]
  {
    assert ToLe(h.to) == raw[0..4] && ToLe(h.from) == raw[4..8] && ToLe(h.id) == raw[8..12] by {
      LeRoundTripBytes(raw[0..4]);
      LeRoundTripBytes(raw[4..8]);
      LeRoundTripBytes(raw[8..12]);
    }
    FlagsOfByte(raw[12]);
  }

  lemma JoinHeader(raw: seq<u8>)
    requires |raw| >= HEADER_LEN
    ensures raw[0..4] + raw[4..8] + raw[8..12] + [raw[12], raw[13], 0, 0] + raw[16..] == raw[14 := 0][15 := 0]
  {}

  /** Re-encoding received bytes restores them, except that the reserved bytes become zero. */
  lemma ReencodeBytes(raw: seq<u8>)
    requires |raw| >= HEADER_LEN
    ensures FromBytes(raw).Some?
    ensures ToBytes(FromBytes(raw).value) == raw[14 := 0][15 := 0]
  {
    FieldsDetermineBytes(raw, FromBytes(raw).value.header);
    JoinHeader(raw);
  }
}
