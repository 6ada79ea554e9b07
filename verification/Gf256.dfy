/**
 * Arithmetic of GF(2^8).  `Add` and `Mul` are the definition by polynomials:
 * addition is XOR, and multiplication is carry-less with every shift reduced
 * by 0x11d.  The coder never multiplies that way; it adds logarithms.
 * `GfMul`, `GfInv` and `GfPow` are the coder's operations, and everything the
 * rest of the project needs of the field is derived here for `Mul`.
 */
module Gf256 {
  import opened Gf256Tables

  function Add(a: byte, b: byte): byte {
    a ^ b
  }

  /** a if the lowest bit of b is set, and 0 otherwise. */
  function Masked(b: byte, a: byte): byte {
    (b & 1) * a
  }

  /** The product of two polynomials over GF(2), reduced modulo 0x11d, one bit of b at a time. */
  function Mul(a: byte, b: byte): byte
    decreases b
  {
    if b == 0 then 0 else Add(Masked(b, a), Mul(Times2(a), b >> 1))
  }

  function Power(base: byte, exp: nat): byte {
    if exp == 0 then 1 else Mul(base, Power(base, exp - 1))
  }

  // ---- Addition ----

  lemma AddComm(a: byte, b: byte)
    ensures Add(a, b) == Add(b, a)
  {
  }

  lemma AddAssoc(a: byte, b: byte, c: byte)
    ensures Add(Add(a, b), c) == Add(a, Add(b, c))
  {
    assert Add(a, b) == a ^ b && Add(b, c) == b ^ c;
  }

  lemma AddZero(a: byte)
    ensures Add(a, 0) == a && Add(0, a) == a && Add(a, a) == 0
  {
  }

  lemma AddCancel(a: byte, b: byte)
    ensures Add(a, Add(a, b)) == b && Add(Add(b, a), a) == b
    ensures Add(a, b) == 0 <==> a == b
  {
  }

  lemma AddSwap(a: byte, b: byte, c: byte, d: byte)
    ensures Add(Add(a, b), Add(c, d)) == Add(Add(a, c), Add(b, d))
  {
    hide Add;
    AddAssoc(a, b, Add(c, d)); AddAssoc(b, c, d);
    AddComm(b, c);
    AddAssoc(c, b, d); AddAssoc(a, c, Add(b, d));
  }

  // ---- Multiplication is bilinear ----

  lemma Times2Add(a: byte, b: byte)
    ensures Times2(Add(a, b)) == Add(Times2(a), Times2(b))
  {
  }

  lemma MaskedValue(b: byte, a: byte)
    ensures Masked(b, a) == 0 || Masked(b, a) == a
    ensures Masked(b, a) == if b & 1 == 1 then a else 0
  {
    assert b & 1 == 0 || b & 1 == 1;
  }

  lemma MaskedAddRight(b: byte, a: byte, c: byte)
    ensures Masked(b, Add(a, c)) == Add(Masked(b, a), Masked(b, c))
  {
    hide Masked, Add;
    MaskedValue(b, a); MaskedValue(b, c); MaskedValue(b, Add(a, c));
    AddZero(0);
  }

  lemma MaskedAddLeft(b: byte, c: byte, a: byte)
    ensures Masked(Add(b, c), a) == Add(Masked(b, a), Masked(c, a))
    ensures Add(b, c) >> 1 == Add(b >> 1, c >> 1)
  {
    assert b & 1 == 0 || b & 1 == 1;
    assert c & 1 == 0 || c & 1 == 1;
  }

  lemma Times2Masked(b: byte, a: byte)
    ensures Times2(Masked(b, a)) == Masked(b, Times2(a))
  {
  }

  lemma MulZeroRight(a: byte)
    ensures Mul(a, 0) == 0
  {
  }

  lemma {:induction false} MulZeroLeft(b: byte)
    ensures Mul(0, b) == 0
    decreases b
  {
    if b != 0 {
      MulZeroLeft(b >> 1);
    }
  }

  /** One step of the product, valid also when no bits are left. */
  lemma MulStep(a: byte, b: byte)
    ensures Mul(a, b) == Add(Masked(b, a), Mul(Times2(a), b >> 1))
  {
  }

  lemma {:induction false} MulAddLeft(a: byte, c: byte, b: byte)
    ensures Mul(Add(a, c), b) == Add(Mul(a, b), Mul(c, b))
    decreases b
  {
    hide Add, Mul, Times2, Masked;
    if b == 0 {
      MulZeroRight(a); MulZeroRight(c); MulZeroRight(Add(a, c));
      AddZero(0);
    } else {
      Times2Add(a, c);
      MulAddLeft(Times2(a), Times2(c), b >> 1);
      MaskedAddRight(b, a, c);
      MulStep(a, b); MulStep(c, b); MulStep(Add(a, c), b);
      AddSwap(Masked(b, a), Masked(b, c), Mul(Times2(a), b >> 1), Mul(Times2(c), b >> 1));
    }
  }

  lemma {:induction false} MulAddRight(a: byte, b: byte, c: byte)
    ensures Mul(a, Add(b, c)) == Add(Mul(a, b), Mul(a, c))
    decreases b | c
  {
    hide Add, Mul, Times2, Masked;
    if b | c == 0 {
      MulZeroRight(a);
      AddZero(0);
    } else {
      MulAddRight(Times2(a), b >> 1, c >> 1);
      MaskedAddLeft(b, c, a);
      MulStep(a, b); MulStep(a, c); MulStep(a, Add(b, c));
      AddSwap(Masked(b, a), Masked(c, a), Mul(Times2(a), b >> 1), Mul(Times2(a), c >> 1));
    }
  }

  // ---- Multiplying by 2 ----

  lemma {:induction false} MulTimes2Left(a: byte, b: byte)
    ensures Mul(Times2(a), b) == Times2(Mul(a, b))
    decreases b
  {
    hide Add, Mul, Times2, Masked;
    if b == 0 {
      MulZeroRight(a); MulZeroRight(Times2(a));
      Times2Zero();
    } else {
      MulTimes2Left(Times2(a), b >> 1);
      Times2Add(Masked(b, a), Mul(Times2(a), b >> 1));
      Times2Masked(b, a);
      MulStep(a, b); MulStep(Times2(a), b);
    }
  }

  lemma Times2Zero()
    ensures Times2(0) == 0
  {
  }

  /** x^8 is x^4 + x^3 + x^2 + 1. */
  lemma MulReduction(a: byte)
    ensures Mul(Times2(a), 0x80) == Mul(a, 0x1d)
  {
    var b := Times2(a);
    MulStep(b, 0x80); MulStep(Times2(b), 0x40); MulStep(Times2(Times2(b)), 0x20);
    var d := Times2(Times2(Times2(b)));
    MulStep(d, 0x10); MulStep(Times2(d), 0x08); MulStep(Times2(Times2(d)), 0x04);
    var e := Times2(Times2(Times2(d)));
    MulStep(e, 0x02); MulStep(Times2(e), 0x01); MulStep(Times2(Times2(e)), 0);
    MulStep(a, 0x1d); MulStep(b, 0x0e); MulStep(Times2(b), 0x07);
    MulStep(Times2(Times2(b)), 0x03); MulStep(d, 0x01); MulStep(Times2(d), 0);
  }

  /** Doubling b shifts its low seven bits and folds the top one back in. */
  lemma TopBit(b: byte)
    ensures b == Add(b & 0x7f, b & 0x80)
    ensures b & 0x80 == 0 || b & 0x80 == 0x80
    ensures Times2(b) == Add((b & 0x7f) << 1, if b & 0x80 == 0x80 then 0x1d else 0)
    ensures Masked((b & 0x7f) << 1, 1) == 0 && ((b & 0x7f) << 1) >> 1 == b & 0x7f
  {
  }

  lemma MaskedOne(b: byte, a: byte)
    requires Masked(b, 1) == 0
    ensures Masked(b, a) == 0
  {
  }

  lemma MulTimes2Right(a: byte, b: byte)
    ensures Mul(a, Times2(b)) == Times2(Mul(a, b))
  {
    hide Add, Mul, Times2, Masked;
    var low, shifted := b & 0x7f, (b & 0x7f) << 1;
    TopBit(b);
    MulTimes2Left(a, b);
    MulAddRight(Times2(a), low, b & 0x80);
    MulStep(a, shifted);
    MaskedOne(shifted, a);
    AddZero(Mul(Times2(a), low));
    AddZero(shifted);
    if b & 0x80 == 0x80 {
      MulAddRight(a, shifted, 0x1d);
      MulReduction(a);
    } else {
      MulZeroRight(Times2(a));
    }
  }

  // ---- The field laws ----

  lemma MulOne(a: byte)
    ensures Mul(a, 1) == a
  {
    MulStep(a, 1);
  }

  lemma MulMasked(a: byte, b: byte, c: byte)
    ensures Mul(a, Masked(c, b)) == Masked(c, Mul(a, b))
  {
    hide Mul;
    MulZeroRight(a);
    assert c & 1 == 0 || c & 1 == 1;
  }

  lemma {:induction false} MulAssoc(a: byte, b: byte, c: byte)
    ensures Mul(Mul(a, b), c) == Mul(a, Mul(b, c))
    decreases c
  {
    hide Add, Mul, Times2, Masked;
    if c == 0 {
      MulZeroRight(Mul(a, b)); MulZeroRight(b); MulZeroRight(a);
    } else {
      var rest := c >> 1;
      MulAssoc(a, Times2(b), rest);
      MulTimes2Right(a, b);
      MulStep(Mul(a, b), c); MulStep(b, c);
      MulAddRight(a, Masked(c, b), Mul(Times2(b), rest));
      MulMasked(a, b, c);
    }
  }

  /** Exponents add. */
  lemma {:induction false} MulAlpha(i: nat, j: nat)
    ensures Mul(Alpha(i), Alpha(j)) == Alpha(i + j)
    decreases j
  {
    hide Add, Mul, Times2;
    if j == 0 {
      MulOne(Alpha(i));
    } else {
      MulAlpha(i, j - 1);
      MulTimes2Right(Alpha(i), Alpha(j - 1));
    }
  }

  /** The antilog of a sum of two table logarithms, reduced into the table. */
  function AntilogOfSum(i: nat, j: nat): (product: byte)
    requires 1 <= i <= 255 && 1 <= j <= 255
    ensures product == Mul(Alpha(i), Alpha(j))
  {
    hide Antilog, Mul;
    MulAlpha(i, j);
    if i + j > 254 then
      AlphaPeriod(i + j - 255);
      AntilogAt(i + j - 255);
      Antilog(i + j - 255)
    else
      AntilogAt(i + j);
      Antilog(i + j)
  }

  /** `gf_mul`: adding table logarithms computes the product of the polynomials. */
  function GfMul(a: byte, b: byte): (product: byte)
    ensures product == Mul(a, b)
  {
    hide Log, Mul, AntilogOfSum;
    if a == 0 || b == 0 then
      MulZeroLeft(b);
      MulZeroRight(a);
      0
    else
      PowerOfLog(a);
      PowerOfLog(b);
      AntilogOfSum(Log(a), Log(b))
  }

  lemma MulComm(a: byte, b: byte)
    ensures Mul(a, b) == Mul(b, a)
  {
    hide Mul, Log, Alpha;
    if a == 0 || b == 0 {
      MulZeroLeft(a); MulZeroLeft(b); MulZeroRight(a); MulZeroRight(b);
    } else {
      PowerOfLog(a); PowerOfLog(b);
      MulAlpha(Log(a), Log(b)); MulAlpha(Log(b), Log(a));
    }
  }

  /** `gf_inv`: the inverse of every nonzero byte, and 0 for 0. */
  function GfInv(a: byte): (inverse: byte)
    ensures a == 0 ==> inverse == 0
    ensures a != 0 ==> Mul(a, inverse) == 1 && inverse != 0
  {
    hide Mul, Antilog, Log;
    if a == 0 then
      0
    else
      PowerOfLog(a);
      AntilogAt(255 - Log(a));
      MulAlpha(Log(a), 255 - Log(a));
      AlphaAt255();
      MulZeroRight(a);
      Antilog(255 - Log(a))
  }

  /** The field has no zero divisors. */
  lemma MulNonZero(a: byte, b: byte)
    ensures Mul(a, b) == 0 <==> a == 0 || b == 0
  {
    hide Mul, GfInv;
    MulZeroLeft(b);
    MulZeroRight(a);
    if a != 0 && b != 0 {
      var v := GfInv(a);
      MulComm(a, v);
      MulAssoc(v, a, b);
      MulOne(b);
      MulComm(1, b);
      MulZeroRight(v);
    }
  }

  // ---- Powers ----

  lemma {:induction false} PowerAdd(base: byte, m: nat, n: nat)
    ensures Power(base, m + n) == Mul(Power(base, m), Power(base, n))
  {
    hide Mul;
    if m == 0 {
      MulComm(1, Power(base, n));
      MulOne(Power(base, n));
    } else {
      PowerAdd(base, m - 1, n);
      MulAssoc(base, Power(base, m - 1), Power(base, n));
    }
  }

  lemma {:induction false} PowerSquare(base: byte, n: nat)
    ensures Power(Mul(base, base), n) == Power(base, 2 * n)
  {
    hide Mul;
    if n > 0 {
      PowerSquare(base, n - 1);
      MulAssoc(base, base, Power(base, 2 * n - 2));
      assert Power(base, 2 * n - 1) == Mul(base, Power(base, 2 * n - 2));
    }
  }

  /** `gf_pow`: square and multiply. */
  method GfPow(base: byte, exp: nat) returns (result: byte)
    ensures result == Power(base, exp)
  {
    hide Mul, GfMul;
    result := 1;
    var b, e := base, exp;
    MulOne(Power(b, e));
    MulComm(1, Power(b, e));
    while e > 0
      invariant Mul(result, Power(b, e)) == Power(base, exp)
    {
      ghost var rest := Power(Mul(b, b), e / 2);
      PowerSquare(b, e / 2);
      if e % 2 == 1 {
        assert Power(b, e) == Mul(b, rest);
        MulAssoc(result, b, rest);
        result := GfMul(result, b);
      }
      b := GfMul(b, b);
      e := e / 2;
    }
    MulOne(result);
  }
}
