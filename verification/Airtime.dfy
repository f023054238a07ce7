/** Time on air of a LoRa packet, over the reals. */
module Airtime {
  import opened Bytes

  function Ceil(x: real): int {
    -(-x).Floor
  }

  /** Division rounded up. */
  function CeilDiv(a: nat, b: nat): nat
    requires b > 0
  {
    (a + b - 1) / b
  }

  /**
   Blocks of coded payload symbols: (8*PL - 4*SF + 28 + 16) clamped at zero, divided by 4*SF and
   rounded up. `PayloadBlocksAreCeil` shows that this is the formula over the reals.
   */
  function PayloadBlocks(sf: nat, payloadLen: nat): nat
    requires sf >= 1
  {
    var inner := 8 * payloadLen - 4 * sf + 28 + 16;
    CeilDiv(if inner >= 0 then inner else 0, 4 * sf)
  }

  function SymbolCount(sf: nat, cr: nat, payloadLen: nat, preamble: nat): real
    requires sf >= 1 && cr >= 4
  {
    var nData := PayloadBlocks(sf, payloadLen) as real * ((cr - 4) as real + 4.0);
    preamble as real + 4.25 + 8.0 + nData
  }

  /** `DutyCycle::time_on_air`, in seconds. The documentation allows sf in 7-12 and cr in 5-8. */
  function TimeOnAir(sf: nat, bwHz: real, cr: nat, payloadLen: nat, preamble: nat): real
    requires sf >= 1 && cr >= 4 && bwHz > 0.0
  {
    var tSym := Pow2(sf) as real / bwHz;
    SymbolCount(sf, cr, payloadLen, preamble) * tSym
  }

  lemma CeilDivBounds(a: nat, b: nat)
    requires b > 0
    ensures a <= b * CeilDiv(a, b) < a + b
  {}

  /** Multiples of `b` that lie less than `b` apart are in order. */
  lemma Within(b: nat, p: int, q: int)
    requires b * p < b * q + b
    ensures p <= q
  {
    if q < p {
      Scale(q + 1, p, b);
      assert false;
    }
  }

  lemma CeilDivUnique(a: nat, b: nat, q: nat)
    requires b > 0 && a <= b * q < a + b
    ensures CeilDiv(a, b) == q
  {
    CeilDivBounds(a, b);
    Within(b, CeilDiv(a, b), q);
    Within(b, q, CeilDiv(a, b));
  }

  lemma Scale(x: int, y: int, k: nat)
    requires x <= y
    ensures k * x <= k * y
  {}

  lemma RealScale(x: real, y: real, k: real)
    requires x <= y && k > 0.0
    ensures x * k <= y * k && (x < y ==> x * k < y * k)
  {}

  lemma RealOrder(x: real, y: real, k: real)
    requires k > 0.0
    ensures x * k <= y * k ==> x <= y
    ensures x * k < y * k ==> x < y
  {
    if y < x { RealScale(y, x, k); }
  }

  lemma RealQuotient(a: real, b: real, q: real)
    requires b > 0.0 && b * (q - 1.0) < a <= b * q
    ensures q - 1.0 < a / b <= q
  {
    var d := a / b;
    assert d * b == a;
    RealOrder(d, q, b);
    RealOrder(q - 1.0, d, b);
  }

  /** Rounding up the real quotient is integer division rounded up. */
  lemma CeilOfQuotient(a: nat, b: nat)
    requires b > 0
    ensures Ceil(a as real / b as real) == CeilDiv(a, b)
  {
    var q := CeilDiv(a, b);
    CeilDivBounds(a, b);
    assert b as real * q as real == (b * q) as real;
    assert b as real * (q as real - 1.0) == b as real * q as real - b as real;
    RealQuotient(a as real, b as real, q as real);
  }

  function MaxReal(x: real, y: real): real {
    if x >= y then x else y
  }

  /** The block count is the formula's own: its clamped real quotient over 4*SF, rounded up. */
  lemma PayloadBlocksAreCeil(sf: nat, payloadLen: nat)
    requires sf >= 1
    ensures var inner := 8.0 * payloadLen as real - 4.0 * sf as real + 28.0 + 16.0;
            PayloadBlocks(sf, payloadLen) == Ceil(MaxReal(inner, 0.0) / (4.0 * sf as real))
  {
    var inner := 8 * payloadLen - 4 * sf + 28 + 16;
    var clamped := if inner >= 0 then inner else 0;
    assert MaxReal(8.0 * payloadLen as real - 4.0 * sf as real + 28.0 + 16.0, 0.0) == clamped as real;
    assert 4.0 * sf as real == (4 * sf) as real;
    CeilOfQuotient(clamped, 4 * sf);
  }

  /** The payload part of the symbol count, without a clamp. */
  function DataBlocks(sf: nat, payloadLen: nat): nat
    requires sf >= 1
    ensures DataBlocks(sf, payloadLen) + 1 == CeilDiv(2 * payloadLen + 11, sf)
  {
    CeilDivBounds(2 * payloadLen + 11, sf);
    CeilDiv(2 * payloadLen + 11, sf) - 1
  }

  /** Airtime in quarters of a symbol. */
  function QuarterSymbols(sf: nat, cr: nat, payloadLen: nat, preamble: nat): nat
    requires sf >= 1
  {
    4 * preamble + 49 + 4 * cr * DataBlocks(sf, payloadLen)
  }

  /** The data-symbol count is cr * (ceil((2*PL + 11) / SF) - 1), also where the formula clamps. */
  lemma BlocksExact(sf: nat, payloadLen: nat)
    requires sf >= 1
    ensures PayloadBlocks(sf, payloadLen) == DataBlocks(sf, payloadLen)
  {
    var m := 2 * payloadLen + 11;
    var q := CeilDiv(m, sf);
    CeilDivBounds(m, sf);
    assert sf * (q - 1) == sf * q - sf;
    if m >= sf {
      assert 4 * sf * (q - 1) == 4 * (sf * (q - 1));
      CeilDivUnique(4 * m - 4 * sf, 4 * sf, q - 1);
    } else {
      CeilDivUnique(m, sf, 1);
      CeilDivUnique(0, 4 * sf, 0);
    }
  }

  lemma SymbolsInQuarters(sf: nat, cr: nat, payloadLen: nat, preamble: nat)
    requires sf >= 1 && cr >= 4
    ensures SymbolCount(sf, cr, payloadLen, preamble) == QuarterSymbols(sf, cr, payloadLen, preamble) as real / 4.0
  {
    BlocksExact(sf, payloadLen);
    var d := DataBlocks(sf, payloadLen);
    assert (cr - 4) as real + 4.0 == cr as real;
    assert d as real * cr as real == (cr * d) as real;
    assert 4 * cr * d == 4 * (cr * d);
  }

  /** Time on air is exactly the quarter-symbol count times 2^sf / (4 * bw). */
  lemma TimeOnAirExact(sf: nat, bwHz: real, cr: nat, payloadLen: nat, preamble: nat)
    requires sf >= 1 && cr >= 4 && bwHz > 0.0
    ensures TimeOnAir(sf, bwHz, cr, payloadLen, preamble)
            == (QuarterSymbols(sf, cr, payloadLen, preamble) * Pow2(sf)) as real / (4.0 * bwHz)
  {
    SymbolsInQuarters(sf, cr, payloadLen, preamble);
    CombineQuarters(SymbolCount(sf, cr, payloadLen, preamble), QuarterSymbols(sf, cr, payloadLen, preamble), Pow2(sf), bwHz);
  }

  lemma CombineQuarters(s: real, q: nat, p: nat, bw: real)
    requires bw > 0.0 && s == q as real / 4.0
    ensures s * (p as real / bw) == (q * p) as real / (4.0 * bw)
  {
    QuarterScale(q as real, p as real, bw);
    IntProduct(q, p);
  }

  lemma IntProduct(a: int, b: int)
    ensures (a * b) as real == a as real * b as real
  {}

  lemma QuarterScale(q: real, p: real, bw: real)
    requires bw > 0.0
    ensures q / 4.0 * (p / bw) == q * p / (4.0 * bw)
  {
    var x := p / bw;
    assert x * bw == p;
    var lhs := q / 4.0 * x;
    assert lhs * (4.0 * bw) == q * p by {
      assert lhs * 4.0 == q * x;
      assert q * x * bw == q * p;
      assert lhs * (4.0 * bw) == lhs * 4.0 * bw;
    }
    QuotientUnique(q * p, 4.0 * bw, lhs);
  }

  lemma QuotientUnique(a: real, b: real, q: real)
    requires b > 0.0 && q * b == a
    ensures a / b == q
  {
    assert (a / b - q) * b == 0.0;
  }

  lemma DivideMonotone(a: int, a': int, b: real)
    requires b > 0.0
    ensures a <= a' ==> a as real / b <= a' as real / b
    ensures a < a' ==> a as real / b < a' as real / b
  {
    var (x, y) := (a as real / b, a' as real / b);
    assert x * b == a as real && y * b == a' as real;
    RealOrder(x, y, b);
  }

  lemma ScaleStrict(x: int, y: int, k: nat)
    requires x < y && k > 0
    ensures x * k < y * k
  {}

  /** A longer payload never takes less time. */
  lemma MonotoneInPayload(sf: nat, bwHz: real, cr: nat, pl: nat, pl': nat, preamble: nat)
    requires sf >= 1 && cr >= 4 && bwHz > 0.0 && pl <= pl'
    ensures TimeOnAir(sf, bwHz, cr, pl, preamble) <= TimeOnAir(sf, bwHz, cr, pl', preamble)
  {
    var (d, d') := (DataBlocks(sf, pl), DataBlocks(sf, pl'));
    CeilDivMonotone(2 * pl + 11, 2 * pl' + 11, sf);
    Scale(d, d', 4 * cr);
    var (q, q') := (QuarterSymbols(sf, cr, pl, preamble), QuarterSymbols(sf, cr, pl', preamble));
    assert q * Pow2(sf) <= q' * Pow2(sf) by { Scale(q, q', Pow2(sf)); }
    TimeOnAirExact(sf, bwHz, cr, pl, preamble);
    TimeOnAirExact(sf, bwHz, cr, pl', preamble);
    DivideMonotone(q * Pow2(sf), q' * Pow2(sf), 4.0 * bwHz);
  }

  lemma CeilDivMonotone(a: nat, a': nat, b: nat)
    requires b > 0 && a <= a'
    ensures CeilDiv(a, b) <= CeilDiv(a', b)
  {
    var (p, q) := (CeilDiv(a, b), CeilDiv(a', b));
    CeilDivBounds(a, b);
    CeilDivBounds(a', b);
    Within(b, p, q);
  }

  /** A longer preamble always takes more time. */
  lemma StrictInPreamble(sf: nat, bwHz: real, cr: nat, pl: nat, preamble: nat, preamble': nat)
    requires sf >= 1 && cr >= 4 && bwHz > 0.0 && preamble < preamble'
    ensures TimeOnAir(sf, bwHz, cr, pl, preamble) < TimeOnAir(sf, bwHz, cr, pl, preamble')
  {
    var (q, q') := (QuarterSymbols(sf, cr, pl, preamble), QuarterSymbols(sf, cr, pl, preamble'));
    ScaleStrict(q, q', Pow2(sf));
    TimeOnAirExact(sf, bwHz, cr, pl, preamble);
    TimeOnAirExact(sf, bwHz, cr, pl, preamble');
    DivideMonotone(q * Pow2(sf), q' * Pow2(sf), 4.0 * bwHz);
  }

  lemma TwiceCovers(sf: nat, q: nat)
    requires sf >= 1
    ensures (sf + 1) * q <= sf * (2 * q)
  {
    Scale(1, sf, q);
    assert (sf + 1) * q == q * sf + q && sf * (2 * q) == q * sf + q * sf;
  }

  /** One more spreading step at most halves the number of data blocks, rounded up. */
  lemma BlocksHalve(sf: nat, m: nat)
    requires sf >= 1
    ensures CeilDiv(m, sf) <= 2 * CeilDiv(m, sf + 1)
  {
    var (p, q) := (CeilDiv(m, sf), CeilDiv(m, sf + 1));
    CeilDivBounds(m, sf);
    CeilDivBounds(m, sf + 1);
    TwiceCovers(sf, q);
    Within(sf, p, 2 * q);
  }

  lemma SpreadingOutweighs(sf: nat, cr: nat, pl: nat, preamble: nat)
    requires sf >= 1 && cr <= 12
    ensures QuarterSymbols(sf, cr, pl, preamble) < 2 * QuarterSymbols(sf + 1, cr, pl, preamble)
  {
    var (d, d') := (DataBlocks(sf, pl), DataBlocks(sf + 1, pl));
    BlocksHalve(sf, 2 * pl + 11);
    assert d <= 2 * d' + 1;
    assert 4 * cr * d <= 4 * cr * (2 * d' + 1) by { Scale(d, 2 * d' + 1, 4 * cr); }
    assert 4 * cr * (2 * d' + 1) == 2 * (4 * cr * d') + 4 * cr;
  }

  /**
   One more spreading step always takes more time: the symbols get twice as long, and the
   constant part outweighs what rounding saves. Coding rates up to 4/12 are covered.
   */
  lemma NextSpreadingStrict(sf: nat, bwHz: real, cr: nat, pl: nat, preamble: nat)
    requires sf >= 1 && 4 <= cr <= 12 && bwHz > 0.0
    ensures TimeOnAir(sf, bwHz, cr, pl, preamble) < TimeOnAir(sf + 1, bwHz, cr, pl, preamble)
  {
    var (q, q', p) := (QuarterSymbols(sf, cr, pl, preamble), QuarterSymbols(sf + 1, cr, pl, preamble), Pow2(sf));
    assert q * p < q' * Pow2(sf + 1) by {
      SpreadingOutweighs(sf, cr, pl, preamble);
      ScaleStrict(q, 2 * q', p);
      assert 2 * q' * p == q' * (2 * p);
    }
    TimeOnAirExact(sf, bwHz, cr, pl, preamble);
    TimeOnAirExact(sf + 1, bwHz, cr, pl, preamble);
    DivideMonotone(q * p, q' * Pow2(sf + 1), 4.0 * bwHz);
  }

  /** A higher spreading factor always takes more time. */
  lemma {:induction false} StrictInSpreading(sf: nat, sf': nat, bwHz: real, cr: nat, pl: nat, preamble: nat)
    requires 1 <= sf < sf' && 4 <= cr <= 12 && bwHz > 0.0
    ensures TimeOnAir(sf, bwHz, cr, pl, preamble) < TimeOnAir(sf', bwHz, cr, pl, preamble)
    decreases sf'
  {
    NextSpreadingStrict(sf' - 1, bwHz, cr, pl, preamble);
    if sf < sf' - 1 { StrictInSpreading(sf, sf' - 1, bwHz, cr, pl, preamble); }
  }
}
