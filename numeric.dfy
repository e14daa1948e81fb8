/**
 * Arithmetic shared by the planning engine and the calculator engine:
 * integer powers of reals, Python's truncating int() conversion, and the
 * stand-in for the fractional power operator.
 */
module Numeric {

  /** b raised to a natural exponent, by repeated multiplication. */
  function IntPow(b: real, n: nat): real
  {
    if n == 0 then 1.0 else b * IntPow(b, n - 1)
  }

  // The sign facts about IntPow are lemmas rather than postconditions, so
  // that they enter a proof only where it asks for them.

  lemma {:induction false} IntPowPositive(b: real, n: nat)
    requires b > 0.0
    ensures IntPow(b, n) > 0.0
  {
    if n > 0 {
      IntPowPositive(b, n - 1);
    }
  }

  lemma {:induction false} IntPowNonzero(b: real, n: nat)
    requires b != 0.0
    ensures IntPow(b, n) != 0.0
  {
    if n > 0 {
      IntPowNonzero(b, n - 1);
    }
  }

  lemma {:induction false} IntPowAtLeastOne(b: real, n: nat)
    requires b >= 1.0
    ensures IntPow(b, n) >= 1.0
  {
    if n > 0 {
      IntPowAtLeastOne(b, n - 1);
      assert b * IntPow(b, n - 1) >= 1.0 * IntPow(b, n - 1);
    }
  }

  /** 1 / b. */
  function Inverse(b: real): real
    requires b != 0.0
  {
    1.0 / b
  }

  /** b raised to an integer exponent: a negative exponent takes powers of 1/b. */
  function IntPowZ(b: real, e: int): real
    requires b != 0.0
  {
    if e >= 0 then IntPow(b, e) else IntPow(Inverse(b), -e)
  }

  lemma IntPowZNegated(b: real, n: nat)
    requires b != 0.0
    ensures IntPowZ(b, -(n as int)) == IntPow(Inverse(b), n)
  {
  }

  lemma IntPowUnfold(b: real, n: nat)
    requires n > 0
    ensures IntPow(b, n) == b * IntPow(b, n - 1)
  {
  }

  /** A base above one gives a power above one for every positive exponent. */
  lemma {:induction false} IntPowAboveOne(b: real, n: nat)
    requires b > 1.0 && n > 0
    ensures IntPow(b, n) > 1.0
  {
    if n > 1 {
      IntPowAboveOne(b, n - 1);
      assert IntPow(b, n) == b * IntPow(b, n - 1);
      assert b * IntPow(b, n - 1) > 1.0 * IntPow(b, n - 1);
    }
  }

  lemma DivMul(a: real, b: real)
    requires b != 0.0
    ensures (a / b) * b == a
  {
  }

  lemma DivByInverse(x: real, d: real)
    requires d != 0.0
    ensures x / d == x * Inverse(d)
    ensures Inverse(d) * d == 1.0
  {
  }

  lemma MulCancel(a: real, b: real, c: real)
    requires c != 0.0 && a * c == b * c
    ensures a == b
  {
    assert (a - b) * c == 0.0;
  }

  // Field identities behind the annuity closed forms, kept free of other
  // function symbols so that the solver sees only the algebra.

  lemma OrdinaryStep(p: real, r: real, u: real)
    requires r != 0.0
    ensures p * (u - 1.0) / r * (1.0 + r) + p == p * ((1.0 + r) * u - 1.0) / r
  {
    var prev := p * (u - 1.0) / r;
    var cur := p * ((1.0 + r) * u - 1.0) / r;
    DivMul(p * (u - 1.0), r);
    DivMul(p * ((1.0 + r) * u - 1.0), r);
    assert (prev * (1.0 + r) + p) * r == prev * r * (1.0 + r) + p * r;
    assert (prev * (1.0 + r) + p) * r == cur * r;
    MulCancel(prev * (1.0 + r) + p, cur, r);
  }

  lemma DueForm(p: real, r: real, d: real)
    requires r != 0.0
    ensures p * (d / r) * (1.0 + r) == p * d / r * (1.0 + r)
  {
    DivMul(d, r);
    DivMul(p * d, r);
    assert p * (d / r) * r == (p * d / r) * r;
    MulCancel(p * (d / r), p * d / r, r);
  }

  lemma PresentStep(a: real, r: real, v: real, w: real)
    requires r != 0.0 && v * (1.0 + r) == 1.0
    ensures (a + a * (1.0 - w) / r) * v == a * (1.0 - v * w) / r
  {
    var prev := a * (1.0 - w) / r;
    var cur := a * (1.0 - v * w) / r;
    DivMul(a * (1.0 - w), r);
    DivMul(a * (1.0 - v * w), r);
    assert (a + prev) * v * r == a * v * r + a * (1.0 - w) * v;
    assert a * v * r + a * v == a;
    assert (a + prev) * v * r == cur * r;
    MulCancel((a + prev) * v, cur, r);
  }

  lemma PaymentOrdinaryAlg(fv: real, r: real, d: real)
    requires r != 0.0 && d != 0.0
    ensures (fv * r) / d * d / r == fv
  {
    var p := (fv * r) / d;
    DivMul(fv * r, d);
    DivMul(p * d, r);
    MulCancel(p * d / r, fv, r);
  }

  lemma PaymentDueAlg(fv: real, r: real, d: real)
    requires r != 0.0 && d != 0.0 && 1.0 + r != 0.0
    ensures (fv * r) / (d * (1.0 + r)) * (d / r) * (1.0 + r) == fv
  {
    var p := (fv * r) / (d * (1.0 + r));
    var q := d / r;
    var t := p * q * (1.0 + r);
    assert p * (d * (1.0 + r)) == fv * r by {
      DivMul(fv * r, d * (1.0 + r));
    }
    assert q * r == d by {
      DivMul(d, r);
    }
    assert t * r == p * (q * r) * (1.0 + r);
    assert t * r == fv * r;
    MulCancel(t, fv, r);
  }

  /** Python's int() on a float: truncation toward zero. */
  function Trunc(x: real): (n: int)
    ensures x >= 0.0 ==> 0 <= n && n as real <= x < n as real + 1.0
    ensures x < 0.0 ==> n <= 0 && n as real - 1.0 < x <= n as real
  {
    if x >= 0.0 then x.Floor else -((-x).Floor)
  }

  /** The sum of f over xs, accumulated from the front as a loop does. */
  function SumBy<T>(xs: seq<T>, f: T -> real): real {
    if xs == [] then 0.0 else SumBy(xs[..|xs| - 1], f) + f(xs[|xs| - 1])
  }

  /** A sum of non-negative terms is non-negative. */
  lemma {:induction false} SumByNonNegative<T>(xs: seq<T>, f: T -> real)
    ensures (forall i :: 0 <= i < |xs| ==> f(xs[i]) >= 0.0) ==> SumBy(xs, f) >= 0.0
  {
    if xs != [] && (forall i :: 0 <= i < |xs| ==> f(xs[i]) >= 0.0) {
      var init := xs[..|xs| - 1];
      assert forall i :: 0 <= i < |init| ==> init[i] == xs[i];
      SumByNonNegative(init, f);
    }
  }

  lemma SumBySnoc<T>(xs: seq<T>, x: T, f: T -> real)
    ensures SumBy(xs + [x], f) == SumBy(xs, f) + f(x)
  {
    assert (xs + [x])[..|xs|] == xs;
  }

  lemma {:induction false} SumByAppend<T>(xs: seq<T>, ys: seq<T>, f: T -> real)
    ensures SumBy(xs + ys, f) == SumBy(xs, f) + SumBy(ys, f)
  {
    if ys == [] {
      assert xs + ys == xs;
    } else {
      var init := ys[..|ys| - 1];
      var last := ys[|ys| - 1];
      assert ys == init + [last];
      assert xs + ys == (xs + init) + [last];
      SumByAppend(xs, init, f);
      SumBySnoc(xs + init, last, f);
      SumBySnoc(init, last, f);
    }
  }

  function MaxR(a: real, b: real): real { if a >= b then a else b }

  function MinR(a: real, b: real): real { if a <= b then a else b }

  function MaxI(a: int, b: int): int { if a >= b then a else b }

  /**
   * A power function on reals whose fractional exponents are not modelled.
   * Where the model needs it, it only assumes that on natural exponents it is
   * the repeated product.
   */
  type PowFn = (real, real) -> real

  ghost predicate AgreesWithIntPow(pow: PowFn) {
    forall b: real, n: nat {:trigger IntPow(b, n)} :: pow(b, n as real) == IntPow(b, n)
  }
}
