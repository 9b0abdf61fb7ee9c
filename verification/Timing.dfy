/**
 The exact serialization delay of `simulator/src/transport/timing.cpp`: a 64-step
 shift-and-subtract multiply/divide whose intermediate values never leave 64 bits.
 */
module Timing {
  import opened Prelude

  const BIT_NANOSECONDS_PER_BYTE: nat := 8_000_000_000

  ghost function Pow2(k: nat): (p: nat)
    ensures p > 0
  {
    if k == 0 then 1 else 2 * Pow2(k - 1)
  }

  /** ceil(numerator / denominator), by its defining bounds. */
  function CeilDiv(numerator: nat, denominator: nat): (q: nat)
    requires denominator > 0
    ensures q * denominator >= numerator
    ensures q > 0 ==> (q - 1) * denominator < numerator
  {
    (numerator + denominator - 1) / denominator
  }

  lemma CeilDivUnique(numerator: nat, denominator: nat, q: nat)
    requires denominator > 0
    requires q * denominator >= numerator
    requires q > 0 ==> (q - 1) * denominator < numerator
    ensures q == CeilDiv(numerator, denominator)
  {
    var c: int := CeilDiv(numerator, denominator);
    Scale(q, c - 1, denominator);
    Scale(c, q - 1, denominator);
  }

  lemma HalveShift(m: nat, i: nat)
    requires i > 0
    ensures m / Pow2(i) == (m / Pow2(i - 1)) / 2
  {
    var p := Pow2(i - 1);
    var a, r := m / p, m % p;
    assert m == a * p + r;
    var b, s := a / 2, a % 2;
    assert m == b * (2 * p) + (s * p + r);
    assert s * p + r < 2 * p;
    QuotientIs(m, 2 * p, b, s * p + r);
  }

  lemma QuotientIs(m: nat, d: nat, q: nat, r: nat)
    requires d > 0 && m == q * d + r && r < d
    ensures m / d == q
  {
    var q' := m / d;
    assert q' * d + m % d == q * d + r;
    Scale(q' + 1, q, d);
    Scale(q + 1, q', d);
  }

  lemma BelowPower(m: nat)
    requires m <= U64_MAX
    ensures m / Pow2(64) == 0
  {
    assert Pow2(64) == 0x1_0000_0000_0000_0000 by {
      assert Pow2(8) == 256;
      PowSum(8, 8); PowSum(16, 16); PowSum(32, 32);
    }
  }

  lemma {:induction false} PowSum(a: nat, b: nat)
    ensures Pow2(a + b) == Pow2(a) * Pow2(b)
  {
    if b > 0 {
      PowSum(a, b - 1);
      assert Pow2(a + b) == 2 * Pow2(a + (b - 1));
    }
  }

  /** A fraction below one never multiplies a factor past itself. */
  lemma QuotientBound(q: nat, d: nat, r: nat, n: nat, x: nat)
    requires d > 0 && n < d && q * d + r == n * x
    ensures q <= x
  {
    Scale(n, d, x);
    Scale(x + 1, q, d);
    assert (x + 1) * d == d * x + d;
  }

  /** Doubling the multiplier's prefix doubles quotient and remainder, with one carry. */
  lemma DoubleStep(q: nat, r: nat, d: nat, n: nat, x: nat)
    requires d > 0 && n < d && r < d && q * d + r == n * x
    ensures (2 * q) * d + 2 * r == n * (2 * x)
    ensures (2 * q + 1) * d + (2 * r - d) == n * (2 * x)
    ensures q <= x
    ensures 2 * r >= d ==> 2 * q + 1 <= 2 * x
  {
    QuotientBound(q, d, r, n, x);
    assert (2 * q) * d == 2 * (q * d);
    assert n * (2 * x) == 2 * (n * x);
    assert (2 * q + 1) * d == (2 * q) * d + d;
    if 2 * r >= d {
      QuotientBound(2 * q + 1, d, 2 * r - d, n, 2 * x);
    }
  }

  /** A one bit in the multiplier adds the numerator once, with one carry. */
  lemma AddStep(q: nat, r: nat, d: nat, n: nat, x: nat)
    requires d > 0 && n < d && r < d && q * d + r == n * x
    ensures q * d + (r + n) == n * (x + 1)
    ensures (q + 1) * d + (r + n - d) == n * (x + 1)
    ensures r + n >= d ==> q + 1 <= x + 1
  {
    assert n * (x + 1) == n * x + n;
    assert (q + 1) * d == q * d + d;
    if r + n >= d {
      QuotientBound(q + 1, d, r + n - d, n, x + 1);
    }
  }

  /** One turn of the loop: shift one more bit of the multiplier into the quotient. */
  method ShiftIn(quotient: uint64, remainder: uint64, n: uint64, d: uint64, one: bool, ghost x: nat, ghost y: nat)
    returns (q: uint64, r: uint64)
    requires n < d && remainder < d && quotient as int * d as int + remainder as int == n as int * x
    requires y == 2 * x + (if one then 1 else 0) && y <= U64_MAX
    ensures r < d && q as int * d as int + r as int == n as int * y
  {
    DoubleStep(quotient as int, remainder as int, d as int, n as int, x);
    q := quotient * 2;
    if remainder >= d - remainder {
      r := remainder - (d - remainder);
      q := q + 1;
    } else {
      r := remainder * 2;
    }
    AddStep(q as int, r as int, d as int, n as int, 2 * x);
    if one {
      if r >= d - n {
        r := r - (d - n);
        q := q + 1;
      } else {
        r := r + n;
      }
    }
  }

  method MultiplyFraction(numerator: uint64, multiplier: uint64, denominator: uint64)
    returns (quotient: uint64, remainder: uint64)
    requires numerator < denominator
    ensures remainder < denominator
    ensures quotient as int * denominator as int + remainder as int
         == numerator as int * multiplier as int
  {
    quotient, remainder := 0, 0;
    var bit: int := 63;
    ghost var prefix: nat := 0;
    BelowPower(multiplier as int);
    while bit >= 0
      invariant -1 <= bit <= 63
      invariant remainder < denominator
      invariant prefix == multiplier as int / Pow2(bit + 1)
      invariant quotient as int * denominator as int + remainder as int == numerator as int * prefix
    {
      HalveShift(multiplier as int, bit + 1);
      var shifted := ShiftRight(multiplier, bit);
      quotient, remainder :=
        ShiftIn(quotient, remainder, numerator, denominator, shifted % 2 != 0, prefix, shifted as int);
      prefix := shifted as int;
      bit := bit - 1;
    }
  }

  /** `value >> bit` on a 64-bit word. */
  function ShiftRight(value: uint64, bit: nat): (r: uint64)
    requires bit < 64
    ensures r as int == value as int / Pow2(bit)
    decreases bit
  {
    if bit == 0 then value
    else
      var r := ShiftRight(value, bit - 1) / 2;
      HalveShift(value as int, bit);
      r
  }

  /** The delay every timing computation of the simulator is specified by. */
  function Delay(bytes: nat, bandwidth: nat): (d: Option<nat>)
    ensures d.Some? <==> (bytes > 0 && bandwidth > 0 &&
                          CeilDiv(bytes * BIT_NANOSECONDS_PER_BYTE, bandwidth) <= U64_MAX)
    ensures d.Some? ==> 0 < d.value <= U64_MAX
  {
    if bytes == 0 || bandwidth == 0 then None
    else
      var exact := CeilDiv(bytes * BIT_NANOSECONDS_PER_BYTE, bandwidth);
      if exact > U64_MAX then None else Some(exact)
  }

  /** Splitting whole seconds off the quotient changes nothing. */
  lemma SplitDelay(bytes: nat, bandwidth: nat, quotient: nat, remainder: nat)
    requires bandwidth > 0 && remainder < bandwidth
    requires quotient * bandwidth + remainder == (bytes % bandwidth) * BIT_NANOSECONDS_PER_BYTE
    ensures CeilDiv(bytes * BIT_NANOSECONDS_PER_BYTE, bandwidth)
         == bytes / bandwidth * BIT_NANOSECONDS_PER_BYTE + quotient + (if remainder == 0 then 0 else 1)
  {
    var k := BIT_NANOSECONDS_PER_BYTE;
    var w, f := bytes / bandwidth, bytes % bandwidth;
    assert bytes == w * bandwidth + f;
    var total := w * k + quotient;
    assert bytes * k == (w * k) * bandwidth + f * k;
    assert total * bandwidth == (w * k) * bandwidth + quotient * bandwidth;
    assert bytes * k == total * bandwidth + remainder;
    var q := total + (if remainder == 0 then 0 else 1);
    if remainder == 0 {
      assert q > 0 ==> (q - 1) * bandwidth == total * bandwidth - bandwidth;
    } else {
      assert q * bandwidth == total * bandwidth + bandwidth;
    }
    CeilDivUnique(bytes * k, bandwidth, q);
  }

  method SerializationDelay(bytes: uint64, bandwidth: uint64) returns (r: Option<uint64>)
    ensures Delay(bytes as int, bandwidth as int)
         == match r case None => None case Some(v) => Some(v as int)
  {
    if bytes == 0 || bandwidth == 0 {
      return None;
    }
    var wholeSeconds := bytes / bandwidth;
    var fractionalBytes := bytes % bandwidth;
    var maximum: uint64 := 0xFFFF_FFFF_FFFF_FFFF;
    var scale: uint64 := 8_000_000_000;
    var quotient, remainder := MultiplyFraction(fractionalBytes, scale, bandwidth);
    SplitDelay(bytes as int, bandwidth as int, quotient as int, remainder as int);
    if wholeSeconds > maximum / scale {
      return None;
    }
    var nanoseconds := wholeSeconds * scale;
    if quotient > maximum - nanoseconds {
      return None;
    }
    nanoseconds := nanoseconds + quotient;
    if remainder != 0 {
      if nanoseconds == maximum {
        return None;
      }
      nanoseconds := nanoseconds + 1;
    }
    return Some(nanoseconds);
  }
}
