/**
 AES-256-CTR over the packet body: the mode of section 6.5 of NIST SP 800-38A with the
 128-bit incrementing function of its Appendix B.1. The block cipher itself is a parameter.
 */
module Crypto {
  import opened Bytes

  const BLOCK_SPAN := 0x1_0000_0000_0000_0000_0000_0000_0000_0000

  type Block = s: seq<u8> | |s| == 16 witness seq(16, _ => 0)
  type Key = s: seq<u8> | |s| == 32 witness seq(32, _ => 0)
  type BlockCipher = (Key, Block) -> Block

  /** The initial counter block: packet id in bytes 0-3, sender in bytes 8-11, both little-endian. */
  function Nonce(id: u32, from: u32): Block {
    ToLe(id) + [0, 0, 0, 0] + ToLe(from) + [0, 0, 0, 0]
  }

  /** A 32-bit big-endian word. */
  function BeWord(s: seq<u8>): u32
    requires |s| == 4
  {
    FromLe([s[3], s[2], s[1], s[0]])
  }

  function WordBytes(x: u32): (s: seq<u8>)
    ensures |s| == 4 && BeWord(s) == x
  {
    var le := ToLe(x);
    LeRoundTrip(x);
    assert le == [le[0], le[1], le[2], le[3]];
    [le[3], le[2], le[1], le[0]]
  }

  /** The 128-bit number with these four 32-bit digits, most significant first. */
  function Digits(a: u32, b: u32, c: u32, d: u32): (v: nat)
    ensures v < BLOCK_SPAN
  {
    0x1_0000_0000 * (0x1_0000_0000 * (0x1_0000_0000 * a + b) + c) + d
  }

  lemma DigitsUnique(a: u32, b: u32, c: u32, d: u32, a': u32, b': u32, c': u32, d': u32)
    requires Digits(a, b, c, d) == Digits(a', b', c', d')
    ensures a == a' && b == b' && c == c' && d == d'
  {}

  function BlockValue(b: Block): (v: nat)
    ensures v < BLOCK_SPAN
  {
    Digits(BeWord(b[0..4]), BeWord(b[4..8]), BeWord(b[8..12]), BeWord(b[12..16]))
  }

  /** The big-endian block holding `v`. */
  function BlockOf(v: nat): (b: Block)
    requires v < BLOCK_SPAN
  {
    var x := v / 0x1_0000_0000;
    var y := x / 0x1_0000_0000;
    var z := y / 0x1_0000_0000;
    WordBytes(z) + WordBytes(y % 0x1_0000_0000) + WordBytes(x % 0x1_0000_0000) + WordBytes(v % 0x1_0000_0000)
  }

  /** The standard incrementing function on all 128 bits. */
  function Increment(v: nat): nat
    requires v < BLOCK_SPAN
  {
    if v + 1 == BLOCK_SPAN then 0 else v + 1
  }

  /** The counter for block `i` of a message whose first counter is `v`. */
  function Counter(v: nat, i: nat): (c: nat)
    requires v < BLOCK_SPAN
    ensures c < BLOCK_SPAN
  {
    if i == 0 then v else Increment(Counter(v, i - 1))
  }

  /** The `i`-th counter block of a message. */
  function CounterBlock(nonce: Block, i: nat): Block {
    BlockOf(Counter(BlockValue(nonce), i))
  }

  /** A key stream, one pad per 16-byte block. */
  type Pads = nat -> Block

  /** The byte string xored with the key stream. */
  function Mask(pads: Pads, s: seq<u8>): (c: seq<u8>)
    ensures |c| == |s|
  {
    seq<u8>(|s|, j requires 0 <= j < |s| => Xor(s[j], pads(j / 16)[j % 16]))
  }

  function CtrPads(aes: BlockCipher, psk: Key, nonce: Block): Pads {
    i => aes(psk, CounterBlock(nonce, i))
  }

  function Ctr(aes: BlockCipher, psk: Key, id: u32, from: u32, s: seq<u8>): (c: seq<u8>)
    ensures |c| == |s|
  {
    Mask(CtrPads(aes, psk, Nonce(id, from)), s)
  }

  /** `MeshCrypto::nonce`: slices of a zeroed 16-byte array. */
  method MakeNonce(id: u32, from: u32) returns (nonce: array<u8>)
    ensures fresh(nonce) && nonce[..] == Nonce(id, from)
  {
    nonce := new u8[16](_ => 0);
    var a, b := ToLe(id), ToLe(from);
    forall i | 0 <= i < 4 { nonce[i] := a[i]; }
    forall i | 0 <= i < 4 { nonce[8 + i] := b[i]; }
  }

  /** Xors `pad` over the sixteen bytes from `at`, or over what is left of the buffer. */
  method XorPad(buf: array<u8>, at: nat, pad: Block) returns (next: nat)
    requires at <= buf.Length
    modifies buf
    ensures next == if at + 16 <= buf.Length then at + 16 else buf.Length
    ensures forall k :: at <= k < next ==> buf[k] == Xor(old(buf[k]), pad[k - at])
    ensures forall k :: 0 <= k < at || next <= k < buf.Length ==> buf[k] == old(buf[k])
  {
    next := at;
    while next < buf.Length && next < at + 16
      invariant at <= next <= buf.Length && next <= at + 16
      invariant forall k :: at <= k < next ==> buf[k] == Xor(old(buf[k]), pad[k - at])
      invariant forall k :: 0 <= k < at || next <= k < buf.Length ==> buf[k] == old(buf[k])
    {
      buf[next] := Xor(buf[next], pad[next - at]);
      next := next + 1;
    }
  }

  /** Masking block `block` of `mid` extends the masked prefix of `was` by that block. */
  lemma BlockMasked(pads: Pads, was: seq<u8>, mid: seq<u8>, now: seq<u8>, block: nat, at: nat)
    requires |was| == |mid| == |now| && 16 * block <= at <= |was|
    requires at == if 16 * block + 16 <= |now| then 16 * block + 16 else |now|
    requires mid[..16 * block] == Mask(pads, was)[..16 * block] && mid[16 * block..] == was[16 * block..]
    requires forall k :: 16 * block <= k < at ==> now[k] == Xor(mid[k], pads(block)[k - 16 * block])
    requires forall k :: 0 <= k < 16 * block || at <= k < |now| ==> now[k] == mid[k]
    ensures now[..at] == Mask(pads, was)[..at] && now[at..] == was[at..]
  {
    forall k | 0 <= k < |now|
      ensures now[k] == if k < at then Mask(pads, was)[k] else was[k]
    {
      if k < 16 * block {
        assert now[k] == mid[..16 * block][k];
      } else {
        assert mid[k] == mid[16 * block..][k - 16 * block] == was[k];
        if k < at { assert k / 16 == block && k % 16 == k - 16 * block; }
      }
    }
  }

  /** Runs a key stream over a buffer in place, a block at a time. */
  method ApplyPads(pads: Pads, buf: array<u8>)
    modifies buf
    ensures buf[..] == Mask(pads, old(buf[..]))
  {
    var at, block := 0, 0;
    ghost var was := buf[..];
    while at < buf.Length
      invariant at <= buf.Length && (at < buf.Length ==> at == 16 * block)
      invariant buf[..at] == Mask(pads, was)[..at] && buf[at..] == was[at..]
    {
      ghost var mid := buf[..];
      at := XorPad(buf, at, pads(block));
      BlockMasked(pads, was, mid, buf[..], block, at);
      block := block + 1;
    }
    assert buf[..at] == buf[..] && Mask(pads, was)[..at] == Mask(pads, was);
  }

  /** `MeshCrypto::apply_keystream`. */
  method ApplyKeystream(aes: BlockCipher, psk: Key, id: u32, from: u32, buf: array<u8>)
    modifies buf
    ensures buf[..] == Ctr(aes, psk, id, from, old(buf[..]))
  {
    var nonce := MakeNonce(id, from);
    ApplyPads(CtrPads(aes, psk, nonce[..]), buf);
  }

  /** `MeshCrypto::encrypt`: copies the plaintext and runs the key stream over the copy. */
  method Encrypt(aes: BlockCipher, psk: Key, id: u32, from: u32, plaintext: seq<u8>) returns (out: seq<u8>)
    ensures out == Ctr(aes, psk, id, from, plaintext)
  {
    var buf := new u8[|plaintext|](i requires 0 <= i < |plaintext| => plaintext[i]);
    assert buf[..] == plaintext;
    ApplyKeystream(aes, psk, id, from, buf);
    out := buf[..];
  }

  lemma MaskUndo(pads: Pads, s: seq<u8>)
    ensures Mask(pads, Mask(pads, s)) == s
  {
    forall j | 0 <= j < |s|
      ensures Mask(pads, Mask(pads, s))[j] == s[j]
    {
      XorUndo(s[j], pads(j / 16)[j % 16]);
    }
  }

  /** Decryption is the same operation, and undoes encryption at every length and for every block cipher. */
  lemma CtrUndo(aes: BlockCipher, psk: Key, id: u32, from: u32, s: seq<u8>)
    ensures Ctr(aes, psk, id, from, Ctr(aes, psk, id, from, s)) == s
  {
    MaskUndo(CtrPads(aes, psk, Nonce(id, from)), s);
  }

  lemma WordsOf(a: seq<u8>, b: seq<u8>, c: seq<u8>, d: seq<u8>)
    requires |a| == |b| == |c| == |d| == 4
    ensures BlockValue(a + b + c + d) == Digits(BeWord(a), BeWord(b), BeWord(c), BeWord(d))
  {
    var s := a + b + c + d;
    assert s[0..4] == a && s[4..8] == b && s[8..12] == c && s[12..16] == d;
  }

  lemma DigitsOf(v: nat)
    requires v < BLOCK_SPAN
    ensures var x := v / 0x1_0000_0000; var y := x / 0x1_0000_0000; var z := y / 0x1_0000_0000;
            z < 0x1_0000_0000 && Digits(z, y % 0x1_0000_0000, x % 0x1_0000_0000, v % 0x1_0000_0000) == v
  {}

  lemma BlockOfValue(v: nat)
    requires v < BLOCK_SPAN
    ensures BlockValue(BlockOf(v)) == v
  {
    var x := v / 0x1_0000_0000;
    var y := x / 0x1_0000_0000;
    DigitsOf(v);
    WordsOf(WordBytes(y / 0x1_0000_0000), WordBytes(y % 0x1_0000_0000),
            WordBytes(x % 0x1_0000_0000), WordBytes(v % 0x1_0000_0000));
  }

  lemma NonceValue(id: u32, from: u32)
    ensures BlockValue(Nonce(id, from)) == Digits(BeWord(ToLe(id)), 0, BeWord(ToLe(from)), 0)
  {
    var n := Nonce(id, from);
    assert n[0..4] == ToLe(id) && n[4..8] == [0, 0, 0, 0] && n[8..12] == ToLe(from) && n[12..16] == [0, 0, 0, 0];
  }

  lemma BeWordInjective(s: seq<u8>, t: seq<u8>)
    requires |s| == |t| == 4 && BeWord(s) == BeWord(t)
    ensures s == t
  {
    var (a, b) := ([s[3], s[2], s[1], s[0]], [t[3], t[2], t[1], t[0]]);
    LeRoundTripBytes(a);
    LeRoundTripBytes(b);
    assert a == b;
    assert s == [a[3], a[2], a[1], a[0]] && t == [b[3], b[2], b[1], b[0]];
  }

  lemma NoCarry(a: u32, b: u32, c: u32, i: u32)
    ensures Digits(a, b, c, 0) + i == Digits(a, b, c, i)
  {}

  lemma {:induction false} CounterAdds(v: nat, i: nat)
    requires v + i < BLOCK_SPAN
    ensures Counter(v, i) == v + i
  {
    if i > 0 { CounterAdds(v, i - 1); }
  }

  lemma CounterDigits(nonce: Block, a: u32, b: u32, c: u32, i: u32)
    requires BlockValue(nonce) == Digits(a, b, c, 0)
    ensures BlockValue(CounterBlock(nonce, i)) == Digits(a, b, c, i)
  {
    NoCarry(a, b, c, i);
    CounterAdds(BlockValue(nonce), i);
    BlockOfValue(Digits(a, b, c, i));
  }

  lemma CounterValue(id: u32, from: u32, i: u32)
    ensures BlockValue(CounterBlock(Nonce(id, from), i)) == Digits(BeWord(ToLe(id)), 0, BeWord(ToLe(from)), i)
  {
    NonceValue(id, from);
    CounterDigits(Nonce(id, from), BeWord(ToLe(id)), 0, BeWord(ToLe(from)), i);
  }

  /** Two counter blocks agree only for the same packet id, sender and block index. */
  lemma CounterBlocksDistinct(id: u32, from: u32, i: u32, id': u32, from': u32, i': u32)
    ensures CounterBlock(Nonce(id, from), i) == CounterBlock(Nonce(id', from'), i')
            <==> id == id' && from == from' && i == i'
  {
    if CounterBlock(Nonce(id, from), i) == CounterBlock(Nonce(id', from'), i') {
      CounterValue(id, from, i);
      CounterValue(id', from', i');
      DigitsUnique(BeWord(ToLe(id)), 0, BeWord(ToLe(from)), i, BeWord(ToLe(id')), 0, BeWord(ToLe(from')), i');
      BeWordInjective(ToLe(id), ToLe(id'));
      BeWordInjective(ToLe(from), ToLe(from'));
      LeRoundTrip(id);
      LeRoundTrip(id');
      LeRoundTrip(from);
      LeRoundTrip(from');
    }
  }

  lemma BlockValueInjective(b: Block, c: Block)
    requires BlockValue(b) == BlockValue(c)
    ensures b == c
  {
    DigitsUnique(BeWord(b[0..4]), BeWord(b[4..8]), BeWord(b[8..12]), BeWord(b[12..16]),
                 BeWord(c[0..4]), BeWord(c[4..8]), BeWord(c[8..12]), BeWord(c[12..16]));
    BeWordInjective(b[0..4], c[0..4]);
    BeWordInjective(b[4..8], c[4..8]);
    BeWordInjective(b[8..12], c[8..12]);
    BeWordInjective(b[12..16], c[12..16]);
    Quarters(b);
    Quarters(c);
  }

  lemma Quarters(b: Block)
    ensures b == b[0..4] + b[4..8] + b[8..12] + b[12..16]
  {}

  /** The bytes of a 32-bit block index, most significant first. */
  function IndexBytes(i: u32): (s: seq<u8>)
    ensures |s| == 4
  {
    [i / 0x100_0000, i / 0x1_0000 % 0x100, i / 0x100 % 0x100, i % 0x100]
  }

  lemma IndexValue(i: u32)
    ensures BeWord(IndexBytes(i)) == i
  {
    LittleEndian(i);
    LeRoundTrip(i);
  }

  lemma CounterBytes(id: u32, from: u32, i: u32)
    ensures CounterBlock(Nonce(id, from), i) == ToLe(id) + [0, 0, 0, 0] + ToLe(from) + IndexBytes(i)
  {
    CounterValue(id, from, i);
    WordsOf(ToLe(id), [0, 0, 0, 0], ToLe(from), IndexBytes(i));
    IndexValue(i);
    BlockValueInjective(CounterBlock(Nonce(id, from), i), ToLe(id) + [0, 0, 0, 0] + ToLe(from) + IndexBytes(i));
  }

  /**
   The standard, byte by byte: byte `j` is xored with byte `j % 16` of the cipher's image of the block
   that holds packet id, sender and, most significant byte first, the block index `j / 16`.
   */
  lemma CtrBytes(aes: BlockCipher, psk: Key, id: u32, from: u32, s: seq<u8>, j: nat)
    requires j < |s| && j / 16 < 0x1_0000_0000
    ensures var i := j / 16;
            var b := ToLe(id) + [0, 0, 0, 0] + ToLe(from)
                     + [i / 0x100_0000, i / 0x1_0000 % 0x100, i / 0x100 % 0x100, i % 0x100];
            Ctr(aes, psk, id, from, s)[j] == Xor(s[j], aes(psk, b)[j % 16])
  {
    CounterBytes(id, from, j / 16);
  }
}
