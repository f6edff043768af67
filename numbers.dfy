/** JavaScript numbers as the gateway meets them: finite values (taken as exact reals), the two
    infinities and NaN, with the IEEE-754 binary32 patterns that `Buffer.readFloatBE` and
    `Buffer.writeFloatBE` convert from and to. */
module Numbers {

  /** A JavaScript number. Finite values are exact reals: double rounding is not modelled. */
  datatype Num = Finite(r: real) | Infinite(negative: bool) | NaN

  /** JavaScript `n > t` for a finite threshold `t`: false on NaN. */
  predicate Above(n: Num, t: real)
  {
    match n
    case Finite(r) => r > t
    case Infinite(neg) => !neg
    case NaN => false
  }

  /** JavaScript `n < t` for a finite threshold `t`: false on NaN. */
  predicate Below(n: Num, t: real)
  {
    match n
    case Finite(r) => r < t
    case Infinite(neg) => neg
    case NaN => false
  }

  /** JavaScript `n * scale + offset` with a non-zero finite scale. */
  function Affine(n: Num, scale: real, offset: real): (r: Num)
    requires scale != 0.0
    ensures n.Finite? <==> r.Finite?
    ensures n.NaN? <==> r.NaN?
    ensures n.Finite? ==> r.r == n.r * scale + offset
    ensures n.Infinite? ==> r == Infinite(n.negative != (scale < 0.0))
  {
    match n
    case Finite(x) => Finite(x * scale + offset)
    case Infinite(neg) => Infinite(neg != (scale < 0.0))
    case NaN => NaN
  }

  function Pow2(k: nat): (r: nat)
    ensures r >= 1
  {
    if k == 0 then 1 else 2 * Pow2(k - 1)
  }

  lemma {:induction false} Pow2Add(a: nat, b: nat)
    ensures Pow2(a + b) == Pow2(a) * Pow2(b)
  {
    if a > 0 {
      Pow2Add(a - 1, b);
      assert Pow2(a + b) == 2 * Pow2(a - 1 + b);
    }
  }

  lemma {:induction false} Pow2Monotone(a: nat, b: nat)
    requires a <= b
    ensures Pow2(a) <= Pow2(b)
  {
    if a < b {
      Pow2Monotone(a, b - 1);
    }
  }

  /** The position of the highest set bit: `2^e <= a < 2^(e+1)`. */
  function Log2(a: nat): (e: nat)
    requires a >= 1
    ensures Pow2(e) <= a < Pow2(e + 1)
  {
    if a == 1 then 0 else 1 + Log2(a / 2)
  }

  lemma Log2AtLeast(a: nat, k: nat)
    requires a >= Pow2(k)
    ensures Log2(a) >= k
  {
  }

  /** `n * 2^k` as an exact real. */
  function Times2(n: int, k: int): real
  {
    if k >= 0 then (n * Pow2(k)) as real else n as real / Pow2(-k) as real
  }

  const SignBit: nat := 0x8000_0000
  const ExponentUnit: nat := 0x80_0000   // 2^23, the weight of the lowest exponent bit

  /** The three fields of a binary32 pattern. */
  function SignOf(bits: nat): nat { bits / SignBit }
  function ExponentOf(bits: nat): nat { (bits / ExponentUnit) % 256 }
  function MantissaOf(bits: nat): nat { bits % ExponentUnit }

  /** The number a binary32 pattern denotes (what `Buffer.readFloatBE` returns). */
  function Float32Value(bits: nat): Num
    requires bits < 0x1_0000_0000
  {
    var e := ExponentOf(bits);
    var m := MantissaOf(bits);
    if e == 255 then
      (if m == 0 then Infinite(SignOf(bits) == 1) else NaN)
    else
      var significand := if e == 0 then m else m + ExponentUnit;
      var exponent := if e == 0 then -149 else e - 150;
      var magnitude := Times2(significand, exponent);
      Finite(if SignOf(bits) == 1 then -magnitude else magnitude)
  }

  /** The pattern with the given fields. */
  function Pack(negative: bool, e: nat, m: nat): (bits: nat)
    requires e < 256 && m < ExponentUnit
    ensures bits < 0x1_0000_0000
  {
    (if negative then SignBit else 0) + e * ExponentUnit + m
  }

  /** Division by a positive divisor is determined by any quotient/remainder pair. */
  lemma DivModOf(x: int, d: int, q: int, r: int)
    requires d > 0 && 0 <= r < d && x == q * d + r
    ensures x / d == q && x % d == r
  {
    var q0, r0 := x / d, x % d;
    assert x == q0 * d + r0;
    if q0 < q {
      assert (q - q0) * d >= d by { MulAtLeast(q - q0, d); }
      assert false;
    } else if q < q0 {
      assert (q0 - q) * d >= d by { MulAtLeast(q0 - q, d); }
      assert false;
    }
  }

  lemma MulAtLeast(k: int, d: int)
    requires k >= 1 && d > 0
    ensures k * d >= d
  {
  }

  /** `Pack` is undone by the field selectors that `Float32Value` uses. */
  lemma {:induction false} UnpackPack(negative: bool, e: nat, m: nat)
    requires e < 256 && m < ExponentUnit
    ensures SignOf(Pack(negative, e, m)) == (if negative then 1 else 0)
    ensures ExponentOf(Pack(negative, e, m)) == e
    ensures MantissaOf(Pack(negative, e, m)) == m
  {
    var s := if negative then 1 else 0;
    var bits := Pack(negative, e, m);
    assert bits == (s * 256 + e) * ExponentUnit + m;
    DivModOf(bits, ExponentUnit, s * 256 + e, m);
    DivModOf(s * 256 + e, 256, s, e);
    assert bits == s * SignBit + (e * ExponentUnit + m);
    DivModOf(bits, SignBit, s, e * ExponentUnit + m);
  }

  /** `lo*d <= a < hi*d` bounds the quotient `a / d`. */
  lemma DivBetween(a: nat, d: nat, lo: nat, hi: nat)
    requires d > 0 && lo * d <= a < hi * d
    ensures lo <= a / d < hi
  {
    var q := a / d;
    assert a == q * d + a % d;
    if q < lo {
      assert (lo - q) * d >= d by { MulAtLeast(lo - q, d); }
      assert false;
    }
  }

  const Two23: nat := 0x80_0000
  const Two24: nat := 0x100_0000

  lemma Pow2Values()
    ensures Pow2(8) == 256 && Pow2(23) == Two23 && Pow2(24) == Two24
  {
    assert Pow2(8) == 256;
    Pow2Add(8, 8);
    Pow2Add(16, 7);
    Pow2Add(16, 8);
  }

  lemma MulLeq(x: int, y: int, c: int)
    requires x <= y && c >= 0
    ensures x * c <= y * c
  {
  }

  lemma MulLess(x: int, y: int, c: int)
    requires x < y && c > 0
    ensures x * c < y * c
  {
  }

  /** For `2^e <= a < 2^(e+1)` with `e >= 23`, dropping the `e - 23` low bits leaves a
      24-bit significand. */
  lemma QuotientBounds(a: nat, e: nat)
    requires e >= 23 && Pow2(e) <= a < Pow2(e + 1)
    ensures Two23 <= a / Pow2(e - 23) < Two24
  {
    Pow2Values();
    Pow2Add(23, e - 23);
    Pow2Add(24, e - 23);
    DivBetween(a, Pow2(e - 23), Two23, Two24);
  }

  /** The rounded significand and exponent of a magnitude `a >= 2^24`, as
      `Buffer.writeFloatBE` rounds it: to nearest, ties to even. */
  function RoundedFields(a: nat): (fe: (nat, nat))
    requires a >= Two24
    ensures Two23 <= fe.0 < Two24 && fe.1 >= 24
  {
    Pow2Values();
    Log2AtLeast(a, 24);
    var e := Log2(a);
    QuotientBounds(a, e);
    var p := Pow2(e - 23);
    var q := a / p;
    var rem := a % p;
    var half := p / 2;
    var rounded := if rem > half || (rem == half && q % 2 == 1) then q + 1 else q;
    if rounded == Two24 then (Two23, e + 1) else (rounded, e)
  }

  /** The binary32 pattern `Buffer.writeFloatBE` stores for an integer-valued number. */
  function Float32Bits(v: int): (bits: nat)
    ensures bits < 0x1_0000_0000
  {
    if v == 0 then 0
    else
      var negative := v < 0;
      var a: nat := if v < 0 then -v else v;
      if a < Two24 then
        var e := Log2(a);
        ExactSignificand(a, e);
        Pack(negative, e + 127, a * Pow2(23 - e) - ExponentUnit)
      else
        var fe := RoundedFields(a);
        if fe.1 + 127 >= 255 then Pack(negative, 255, 0)
        else Pack(negative, fe.1 + 127, fe.0 - ExponentUnit)
  }

  /** Below `2^24` a magnitude shifted to 24 significant bits loses nothing. */
  lemma ExactSignificand(a: nat, e: nat)
    requires 1 <= a < Two24 && e == Log2(a)
    ensures e <= 23
    ensures ExponentUnit <= a * Pow2(23 - e) < 2 * ExponentUnit
  {
    Pow2Values();
    if e > 23 {
      Pow2Monotone(24, e);
      assert false;
    }
    var p := Pow2(23 - e);
    Pow2Add(e, 23 - e);
    Pow2Add(e + 1, 23 - e);
    MulLeq(Pow2(e), a, p);
    MulLess(a, Pow2(e + 1), p);
  }

  /** A normal pattern (exponent field 1..254) denotes `±(2^23 + m) * 2^(e - 150)`. */
  lemma DecodeNormal(negative: bool, e: nat, m: nat)
    requires 1 <= e < 255 && m < ExponentUnit
    ensures Float32Value(Pack(negative, e, m))
         == Finite(if negative then -Times2(m + ExponentUnit, e - 150) else Times2(m + ExponentUnit, e - 150))
  {
    UnpackPack(negative, e, m);
  }

  /** Scaling up by `2^k` and back down is exact. */
  lemma ShiftBack(a: nat, k: nat)
    ensures Times2(a * Pow2(k), -(k as int)) == a as real
  {
    var p := Pow2(k);
    if k > 0 {
      assert Times2(a * p, -(k as int)) == (a * p) as real / p as real;
      CastMul(a, p);
      RealMulDiv(a as real, p as real);
    }
  }

  lemma CastMul(x: int, y: int)
    ensures (x * y) as real == x as real * y as real
  {
  }

  lemma RealMulDiv(x: real, y: real)
    requires y != 0.0
    ensures x * y / y == x
  {
  }

  /** Writing an integer of magnitude below `2^24` as binary32 and reading it back gives it
      unchanged (the round trip of `writeFloatBE`/`readFloatBE` for such values). */
  lemma Float32RoundTrip(v: int)
    requires -0x100_0000 < v < 0x100_0000
    ensures Float32Value(Float32Bits(v)) == Finite(v as real)
  {
    if v == 0 {
      ZeroPattern();
    } else {
      var a: nat := if v < 0 then -v else v;
      SmallBits(v);
      ShiftedValue(v < 0, a, Log2(a));
    }
  }

  /** The normal pattern holding `a` shifted to 24 significant bits denotes `±a`. */
  lemma ShiftedValue(negative: bool, a: nat, e: nat)
    requires e <= 23 && ExponentUnit <= a * Pow2(23 - e) < 2 * ExponentUnit
    ensures Float32Value(Pack(negative, e + 127, a * Pow2(23 - e) - ExponentUnit))
         == Finite(if negative then -(a as real) else a as real)
  {
    var m := a * Pow2(23 - e) - ExponentUnit;
    DecodeNormal(negative, e + 127, m);
    assert (e + 127) as int - 150 == -((23 - e) as int);
    ShiftBack(a, 23 - e);
  }

  /** Zero is stored as the all-zero pattern, which reads back as zero. */
  lemma ZeroPattern()
    ensures Float32Bits(0) == 0 && Float32Value(0) == Finite(0.0)
  {
    assert ExponentOf(0) == 0 && MantissaOf(0) == 0;
    var p := Pow2(149);
    assert Times2(0, -149) == 0 as real / p as real == 0.0;
  }

  /** A non-zero integer of magnitude below `2^24` is stored as a normal pattern holding its
      exact significand. */
  lemma SmallBits(v: int)
    requires -0x100_0000 < v < 0x100_0000 && v != 0
    ensures var a: nat := if v < 0 then -v else v;
      var e := Log2(a);
      && e <= 23 && ExponentUnit <= a * Pow2(23 - e) < 2 * ExponentUnit
      && Float32Bits(v) == Pack(v < 0, e + 127, a * Pow2(23 - e) - ExponentUnit)
  {
    var a: nat := if v < 0 then -v else v;
    ExactSignificand(a, Log2(a));
  }
}
