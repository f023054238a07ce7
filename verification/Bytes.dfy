/** Machine integers, little-endian words and byte-wise exclusive or. */
module Bytes {
  type u8 = x: int | 0 <= x < 0x100
  type u32 = x: int | 0 <= x < 0x1_0000_0000

  datatype Option<+T> = None | Some(value: T)

  /** `u32::to_le_bytes`. */
  function ToLe(x: u32): (s: seq<u8>)
    ensures |s| == 4
  {
    var (y, z) := (x / 0x100, x / 0x100 / 0x100);
    [x % 0x100, y % 0x100, z % 0x100, z / 0x100]
  }

  /** Byte `k` is the digit of weight 256^k. */
  lemma LittleEndian(x: u32)
    ensures ToLe(x) == [x % 0x100, x / 0x100 % 0x100, x / 0x1_0000 % 0x100, x / 0x100_0000]
  {
    var (y, z) := (x / 0x100, x / 0x100 / 0x100);
    assert z == x / 0x1_0000 && z / 0x100 == x / 0x100_0000;
  }

  /** `u32::from_le_bytes`. */
  function FromLe(s: seq<u8>): u32
    requires |s| == 4
  {
    Shift(Shift(Shift(s[3], s[2]), s[1]), s[0])
  }

  /** The number whose low byte is `low` and whose other bytes are `high`. */
  function Shift(high: nat, low: u8): (x: nat)
    ensures x / 0x100 == high && x % 0x100 == low
  {
    0x100 * high + low
  }

  /** The value of four little-endian bytes. */
  lemma FromLeValue(s: seq<u8>)
    requires |s| == 4
    ensures FromLe(s) == s[0] as int + 0x100 * (s[1] as int) + 0x1_0000 * (s[2] as int) + 0x100_0000 * (s[3] as int)
  {}

  lemma ShiftHalves(x: nat)
    ensures Shift(x / 0x100, x % 0x100) == x
  {}

  lemma LeRoundTrip(x: u32)
    ensures FromLe(ToLe(x)) == x
  {
    ShiftHalves(x / 0x100 / 0x100);
    ShiftHalves(x / 0x100);
    ShiftHalves(x);
  }

  lemma LeRoundTripBytes(s: seq<u8>)
    requires |s| == 4
    ensures ToLe(FromLe(s)) == s
  {
    var z := Shift(s[3], s[2]);
    var y := Shift(z, s[1]);
    var x := Shift(y, s[0]);
    assert x / 0x100 == y && y / 0x100 == z && z / 0x100 == s[3];
  }

  /** Bitwise exclusive or, from the low bit up. */
  function XorNat(a: nat, b: nat): nat
    decreases a + b
  {
    if a == 0 && b == 0 then 0 else 2 * XorNat(a / 2, b / 2) + (a + b) % 2
  }

  function Pow2(w: nat): (p: nat)
    ensures p > 0
  {
    if w == 0 then 1 else 2 * Pow2(w - 1)
  }

  lemma {:induction false} XorSmall(a: nat, b: nat, w: nat)
    requires a < Pow2(w) && b < Pow2(w)
    ensures XorNat(a, b) < Pow2(w)
  {
    if w > 0 { XorSmall(a / 2, b / 2, w - 1); }
  }

  lemma HalfAndParity(q: nat, s: nat)
    ensures (2 * q + s % 2) / 2 == q && (2 * q + s % 2) % 2 == s % 2
  {}

  lemma ParityUndo(q: nat, a: nat, b: nat)
    ensures (2 * q + (a + b) % 2 + b) % 2 == a % 2
  {}

  lemma {:induction false} XorNatUndo(a: nat, b: nat)
    ensures XorNat(XorNat(a, b), b) == a
    decreases a + b
  {
    if a + b > 0 {
      var q, x := XorNat(a / 2, b / 2), XorNat(a, b);
      XorNatUndo(a / 2, b / 2);
      HalfAndParity(q, a + b);
      ParityUndo(q, a, b);
      assert x / 2 == q && (x + b) % 2 == a % 2;
      assert x == 0 && b == 0 ==> a == 0;
    }
  }

  /** `a ^ b` on bytes. */
  function Xor(a: u8, b: u8): u8 {
    assert Pow2(8) == 0x100 by { assert Pow2(4) == 16; }
    XorSmall(a, b, 8);
    XorNat(a, b)
  }

  /** The bit of weight 2^k. */
  function Bit(a: nat, k: nat): nat {
    if k == 0 then a % 2 else Bit(a / 2, k - 1)
  }

  lemma {:induction false} BitsOfZero(k: nat)
    ensures Bit(0, k) == 0
  {
    if k > 0 { BitsOfZero(k - 1); }
  }

  lemma {:induction false} XorNatBits(a: nat, b: nat, k: nat)
    ensures Bit(XorNat(a, b), k) == (if Bit(a, k) == Bit(b, k) then 0 else 1)
    decreases k
  {
    HalfAndParity(XorNat(a / 2, b / 2), a + b);
    if a == 0 && b == 0 {
      BitsOfZero(k);
    } else if k > 0 {
      XorNatBits(a / 2, b / 2, k - 1);
    }
  }

  /** A bit of the result is set exactly where the operands differ. */
  lemma XorBits(a: u8, b: u8, k: nat)
    ensures Bit(Xor(a, b), k) == (if Bit(a, k) == Bit(b, k) then 0 else 1)
  {
    XorNatBits(a, b, k);
  }

  /** Xoring twice with the same byte is the identity. */
  lemma XorUndo(a: u8, b: u8)
    ensures Xor(Xor(a, b), b) == a
  {
    XorNatUndo(a, b);
  }
}
