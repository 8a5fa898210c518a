/**
  IEEE 754 binary32 words, as far as the statistics code looks inside them: what
  `int(x)` makes of a slot and what `float(n)` sends back.
*/
module Floats {
  import opened Bytes
  import opened Numbers

  const UNIT: nat := 0x80_0000

  function Exponent(w: Word): nat { w / UNIT % 0x100 }

  predicate Negative(w: Word) { w >= 0x8000_0000 }

  // The 24 bits of a normal float, the leading one included.
  function Significand(w: Word): nat { UNIT + w % UNIT }

  predicate Finite(w: Word) { Exponent(w) != 0xFF }

  predicate IsNaN(w: Word) { !Finite(w) && w % UNIT != 0 }

  // Told from the word without its sign: the infinities are 0x7F80_0000, and what is above is no number.
  lemma FiniteIff(w: Word)
    ensures Finite(w) <==> w % 0x8000_0000 < 0x7F80_0000
    ensures IsNaN(w) <==> w % 0x8000_0000 > 0x7F80_0000
  {
    var unsigned := w % 0x8000_0000;
    assert w / UNIT % 0x100 == unsigned / UNIT && w % UNIT == unsigned % UNIT;
  }

  // `int(x)`: a normal float is its significand times 2 to the exponent less 150, and whatever is below 1 in
  // size becomes 0.
  function Magnitude(w: Word): int {
    if Exponent(w) < 127 then 0
    else if Exponent(w) < 150 then Significand(w) / Pow2(150 - Exponent(w))
    else Significand(w) * Pow2(Exponent(w) - 150)
  }

  function Truncated(w: Word): int { if Negative(w) then -Magnitude(w) else Magnitude(w) }

  // A positive number as 24 bits and an exponent, cut to that length.
  function Scaled(n: nat, e: nat): (r: (nat, nat))
    requires n > 0
    ensures UNIT <= r.0 < 2 * UNIT
    decreases n < UNIT, if n < UNIT then UNIT - n else n
  {
    if n >= 2 * UNIT then Scaled(n / 2, e + 1)
    else if n >= UNIT then (n, e)
    else Scaled(2 * n, if e > 0 then e - 1 else 0)
  }

  function Unsigned(n: nat): (w: Word)
    ensures !Negative(w)
  {
    if n == 0 then 0
    else
      var (sig, e) := Scaled(n, 150);
      if e < 0xFF then e * UNIT + (sig - UNIT) else 0xFF * UNIT
  }

  // `float(n)` on the wire. Stored integers come from floats, so that none needs rounding.
  function FloatOf(n: int): Word { if n < 0 then 0x8000_0000 + Unsigned(-n) else Unsigned(n) }

  // ---- there and back ---------------------------------------------------------------------------

  lemma Fields(e: nat, sig: nat, negative: bool)
    requires e < 0xFF && UNIT <= sig < 2 * UNIT
    ensures var w := Assembled(negative, e, sig);
            Exponent(w) == e && Significand(w) == sig && Negative(w) == negative
  {
  }

  // Doubling a short number up to 24 bits undoes the division that cut it.
  lemma {:induction false} ScaledUp(n: nat, e: nat, d: nat)
    requires d <= e && UNIT <= n * Pow2(d) < 2 * UNIT
    ensures n > 0 && Scaled(n, e) == (n * Pow2(d), e - d)
    decreases d
  {
    if d > 0 {
      assert n * Pow2(d) == 2 * n * Pow2(d - 1);
      ScaledUp(2 * n, e - 1, d - 1);
      assert n < UNIT by { assert Pow2(d) >= 2; assert n * 2 <= n * Pow2(d); }
    }
  }

  lemma {:induction false} ScaledDown(sig: nat, e: nat, k: nat)
    requires UNIT <= sig < 2 * UNIT
    ensures sig * Pow2(k) > 0 && Scaled(sig * Pow2(k), e) == (sig, e + k)
    decreases k
  {
    if k > 0 {
      var half := sig * Pow2(k - 1);
      assert sig * Pow2(k) == 2 * half;
      ScaledDown(sig, e + 1, k - 1);
      assert Pow2(k - 1) >= 1 && half >= sig;
    }
  }

  lemma {:induction false} Pow2Sum(j: nat, k: nat)
    ensures Pow2(j) * Pow2(k) == Pow2(j + k)
    decreases k
  {
    if k > 0 {
      Pow2Sum(j, k - 1);
      assert Pow2(j) * Pow2(k) == 2 * (Pow2(j) * Pow2(k - 1));
    }
  }

  lemma UnitIsPower()
    ensures Pow2(23) == UNIT
  {
    assert Pow2(8) == 256;
    assert Pow2(16) == 65536 by { Pow2Sum(8, 8); }
    assert Pow2(7) == 128;
    Pow2Sum(16, 7);
  }

  lemma DivMul(n: nat, p: nat)
    requires p > 0
    ensures n * p / p == n
  {
    QuotientIs(n * p, p, n, 0);
  }

  // What division by p and multiplication by it leave of a 24-bit number.
  lemma CutDown(sig: nat, p: nat, q: nat)
    requires p > 0 && p * q == UNIT && UNIT <= sig
    ensures UNIT <= sig / p * p <= sig && sig / p > 0 && sig / p * p / p == sig / p
  {
    var n := sig / p;
    assert sig == n * p + sig % p;
    assert q * p < (n + 1) * p;
    CancelLess(q, n + 1, p);
    MulMonotone(q, n, p);
    DivMul(n, p);
  }

  predicate Whole(w: Word) {
    || w == 0
    || Exponent(w) >= 150
    || (127 <= Exponent(w) && Significand(w) % Pow2(150 - Exponent(w)) == 0)
  }

  // The word of a sign, an exponent and 24 bits.
  function Assembled(negative: bool, e: nat, sig: nat): Word
    requires e < 0xFF && UNIT <= sig < 2 * UNIT
  {
    e * UNIT + (sig - UNIT) + (if negative then 0x8000_0000 else 0)
  }

  // The integer of a float of size 1 or more, as a float: the same sign and exponent, the bits below 1 cleared.
  lemma Served(w: Word) returns (sig: nat)
    requires 127 <= Exponent(w) < 0xFF
    ensures UNIT <= sig < 2 * UNIT && FloatOf(Truncated(w)) == Assembled(Negative(w), Exponent(w), sig)
    ensures if Exponent(w) < 150 then
              var p := Pow2(150 - Exponent(w)); sig / p == Significand(w) / p && sig == Significand(w) / p * p
            else sig == Significand(w)
  {
    hide Scaled, Exponent, Significand, Negative;
    var e := Exponent(w);
    var full := Significand(w);
    assert UNIT <= full < 2 * UNIT by { SignificandSize(w); }
    if e < 150 {
      var p, q := Pow2(150 - e), Pow2(e - 127);
      UnitIsPower();
      Pow2Sum(150 - e, e - 127);
      CutDown(full, p, q);
      ScaledUp(full / p, 150, 150 - e);
      sig := full / p * p;
    } else {
      ScaledDown(full, 150, e - 150);
      sig := full;
    }
  }

  lemma SignificandSize(w: Word)
    ensures UNIT <= Significand(w) < 2 * UNIT
  {
  }

  lemma WordOfFields(w: Word)
    requires Exponent(w) < 0xFF
    ensures Assembled(Negative(w), Exponent(w), Significand(w)) == w
  {
  }

  // Words of one sign and exponent whose 24 bits agree above 1 are cut to the same integer.
  lemma SameInteger(w: Word, v: Word)
    requires Negative(v) == Negative(w) && Exponent(v) == Exponent(w) >= 127
    requires if Exponent(w) < 150 then
               Significand(v) / Pow2(150 - Exponent(w)) == Significand(w) / Pow2(150 - Exponent(w))
             else Significand(v) == Significand(w)
    ensures Truncated(v) == Truncated(w)
  {
  }

  lemma BelowOne(w: Word)
    requires Exponent(w) < 127
    ensures Truncated(w) == 0 && FloatOf(0) == 0 && Truncated(0) == 0 && Exponent(0) == 0
  {
  }

  lemma WholeUncut(w: Word)
    requires Whole(w) && 127 <= Exponent(w) < 150
    ensures Significand(w) / Pow2(150 - Exponent(w)) * Pow2(150 - Exponent(w)) == Significand(w)
  {
    hide Significand;
    var sig, p := Significand(w), Pow2(150 - Exponent(w));
    assert sig == sig / p * p + sig % p;
  }

  // A slot kept as an integer and served as a float again is the slot without its fraction: no later upload of
  // the served value changes the integer, and a slot that was whole comes back bit for bit.
  lemma TruncatedTwice(w: Word)
    requires Finite(w)
    ensures Finite(FloatOf(Truncated(w))) && Truncated(FloatOf(Truncated(w))) == Truncated(w)
    ensures Whole(w) ==> FloatOf(Truncated(w)) == w
  {
    assert Exponent(w) < 0xFF;
    hide Scaled, Pow2, Exponent, Significand, Negative, FloatOf, Truncated, Assembled;
    if Exponent(w) < 127 {
      BelowOne(w);
    } else {
      var sig := Served(w);
      var e := Exponent(w);
      Fields(e, sig, Negative(w));
      SameInteger(w, Assembled(Negative(w), e, sig));
      SignificandSize(w);
      WordOfFields(w);
      if Whole(w) && e < 150 {
        WholeUncut(w);
      }
    }
  }
}
