/**
 * Reference definitions of the time-value-of-money quantities the engines
 * use, written as explicit period-by-period recurrences, and the closed
 * forms the source code uses proved equal to them.
 */
module Annuity {
  import opened Numeric

  /** Value after n periods of n end-of-period payments p at rate r per period. */
  function AccumulatedSum(p: real, r: real, n: nat): real {
    if n == 0 then 0.0 else AccumulatedSum(p, r, n - 1) * (1.0 + r) + p
  }

  /** Value after n periods of n start-of-period payments p. */
  function AccumulatedDueSum(p: real, r: real, n: nat): real {
    if n == 0 then 0.0 else (AccumulatedDueSum(p, r, n - 1) + p) * (1.0 + r)
  }

  /**
   * Present value of n end-of-period payments a at rate r: the first payment
   * and the value at that date of the remaining n - 1, discounted one period.
   */
  function DiscountedSum(a: real, r: real, n: nat): real
    requires r > -1.0
  {
    if n == 0 then 0.0 else (a + DiscountedSum(a, r, n - 1)) / (1.0 + r)
  }

  /** Closed form p * ((1+r)^n - 1) / r of the ordinary annuity's future value. */
  function FutureValueOrdinary(p: real, r: real, n: nat): real
    requires r != 0.0
  {
    p * (IntPow(1.0 + r, n) - 1.0) / r
  }

  /** Closed form p * ((1+r)^n - 1) / r * (1+r) of the annuity-due future value. */
  function FutureValueDue(p: real, r: real, n: nat): real
    requires r != 0.0
  {
    p * ((IntPow(1.0 + r, n) - 1.0) / r) * (1.0 + r)
  }

  /**
   * Closed form a * (1 - (1+r)^-n) / r of the annuity-immediate present
   * value, with the negative power written as (1 / (1+r))^n.
   */
  function PresentValueAnnuity(a: real, r: real, n: nat): real
    requires r > -1.0 && r != 0.0
  {
    PresentValueForm(a, r, IntPow(Inverse(1.0 + r), n))
  }

  /** a * (1 - d) / r for a discount factor d. */
  function PresentValueForm(a: real, r: real, d: real): real
    requires r != 0.0
  {
    a * (1.0 - d) / r
  }

  /** One more period of the closed form: grow by (1+r), then add p. */
  lemma FutureValueOrdinaryStep(p: real, r: real, n: nat)
    requires r != 0.0 && n > 0
    ensures FutureValueOrdinary(p, r, n) == FutureValueOrdinary(p, r, n - 1) * (1.0 + r) + p
  {
    var u := IntPow(1.0 + r, n - 1);
    assert IntPow(1.0 + r, n) == (1.0 + r) * u;
    OrdinaryStep(p, r, u);
  }

  lemma {:induction false} OrdinaryClosedForm(p: real, r: real, n: nat)
    requires r != 0.0
    ensures FutureValueOrdinary(p, r, n) == AccumulatedSum(p, r, n)
  {
    if n > 0 {
      OrdinaryClosedForm(p, r, n - 1);
      FutureValueOrdinaryStep(p, r, n);
    }
  }

  lemma {:induction false} DueIsShifted(p: real, r: real, n: nat)
    ensures AccumulatedDueSum(p, r, n) == AccumulatedSum(p, r, n) * (1.0 + r)
  {
    if n > 0 {
      DueIsShifted(p, r, n - 1);
      ShiftStep(AccumulatedSum(p, r, n - 1), AccumulatedDueSum(p, r, n - 1), p, 1.0 + r);
    }
  }

  lemma ShiftStep(before: real, due: real, p: real, g: real)
    requires due == before * g
    ensures (due + p) * g == (before * g + p) * g
  {
  }

  lemma FutureValueDueShifted(p: real, r: real, n: nat)
    requires r != 0.0
    ensures FutureValueDue(p, r, n) == FutureValueOrdinary(p, r, n) * (1.0 + r)
  {
    var d := IntPow(1.0 + r, n) - 1.0;
    assert FutureValueDue(p, r, n) == p * (d / r) * (1.0 + r);
    assert FutureValueOrdinary(p, r, n) == p * d / r;
    DueForm(p, r, d);
  }

  lemma DueClosedForm(p: real, r: real, n: nat)
    requires r != 0.0
    ensures FutureValueDue(p, r, n) == AccumulatedDueSum(p, r, n)
  {
    DueIsShifted(p, r, n);
    OrdinaryClosedForm(p, r, n);
    FutureValueDueShifted(p, r, n);
  }

  lemma PresentValueUnfold(a: real, r: real, n: nat, v: real, w: real)
    requires r > -1.0 && r != 0.0 && n > 0 && v == Inverse(1.0 + r) && w == IntPow(v, n - 1)
    ensures PresentValueAnnuity(a, r, n) == PresentValueForm(a, r, v * w)
    ensures PresentValueAnnuity(a, r, n - 1) == PresentValueForm(a, r, w)
  {
    IntPowUnfold(v, n);
  }

  lemma PresentValueRegroup(a: real, r: real, v: real, w: real, prev: real)
    requires r > -1.0 && r != 0.0 && v == Inverse(1.0 + r) && prev == PresentValueForm(a, r, w)
    ensures (a + prev) / (1.0 + r) == PresentValueForm(a, r, v * w)
  {
    DivByInverse(a + prev, 1.0 + r);
    PresentStep(a, r, v, w);
  }

  lemma PresentValueStep(a: real, r: real, n: nat)
    requires r > -1.0 && r != 0.0 && n > 0
    ensures PresentValueAnnuity(a, r, n) == (a + PresentValueAnnuity(a, r, n - 1)) / (1.0 + r)
  {
    var v := Inverse(1.0 + r);
    var w := IntPow(v, n - 1);
    PresentValueUnfold(a, r, n, v, w);
    PresentValueRegroup(a, r, v, w, PresentValueAnnuity(a, r, n - 1));
  }

  lemma {:induction false} PresentValueClosedForm(a: real, r: real, n: nat)
    requires r > -1.0 && r != 0.0
    ensures PresentValueAnnuity(a, r, n) == DiscountedSum(a, r, n)
  {
    if n > 0 {
      PresentValueClosedForm(a, r, n - 1);
      PresentValueStep(a, r, n);
    }
  }

  /** The end-of-period payment that accumulates to fv over n periods. */
  function PaymentOrdinary(fv: real, r: real, n: nat): real
    requires r > 0.0 && n > 0
  {
    IntPowAboveOne(1.0 + r, n);
    (fv * r) / (IntPow(1.0 + r, n) - 1.0)
  }

  /** The start-of-period payment that accumulates to fv over n periods. */
  function PaymentDue(fv: real, r: real, n: nat): real
    requires r > 0.0 && n > 0
  {
    IntPowAboveOne(1.0 + r, n);
    (fv * r) / ((IntPow(1.0 + r, n) - 1.0) * (1.0 + r))
  }

  lemma PaymentOrdinaryClosed(fv: real, r: real, n: nat)
    requires r > 0.0 && n > 0
    ensures FutureValueOrdinary(PaymentOrdinary(fv, r, n), r, n) == fv
  {
    IntPowAboveOne(1.0 + r, n);
    PaymentOrdinaryAlg(fv, r, IntPow(1.0 + r, n) - 1.0);
  }

  lemma PaymentOrdinaryInverts(fv: real, r: real, n: nat)
    requires r > 0.0 && n > 0
    ensures AccumulatedSum(PaymentOrdinary(fv, r, n), r, n) == fv
  {
    PaymentOrdinaryClosed(fv, r, n);
    OrdinaryClosedForm(PaymentOrdinary(fv, r, n), r, n);
  }

  lemma PaymentDueClosed(fv: real, r: real, n: nat)
    requires r > 0.0 && n > 0
    ensures FutureValueDue(PaymentDue(fv, r, n), r, n) == fv
  {
    IntPowAboveOne(1.0 + r, n);
    PaymentDueAlg(fv, r, IntPow(1.0 + r, n) - 1.0);
  }

  lemma PaymentDueInverts(fv: real, r: real, n: nat)
    requires r > 0.0 && n > 0
    ensures AccumulatedDueSum(PaymentDue(fv, r, n), r, n) == fv
  {
    PaymentDueClosed(fv, r, n);
    DueClosedForm(PaymentDue(fv, r, n), r, n);
  }

  /** At a zero rate the payments simply add up. */
  lemma {:induction false} AccumulatedSumZeroRate(p: real, n: nat)
    ensures AccumulatedSum(p, 0.0, n) == p * n as real
  {
    if n > 0 {
      AccumulatedSumZeroRate(p, n - 1);
    }
  }

  lemma {:induction false} DiscountedSumZeroRate(a: real, n: nat)
    ensures DiscountedSum(a, 0.0, n) == a * n as real
  {
    if n > 0 {
      DiscountedSumZeroRate(a, n - 1);
    }
  }

  /** Two payment streams accumulate to the sum of their values. */
  lemma {:induction false} AccumulatedDueSumAdditive(p: real, q: real, r: real, n: nat)
    ensures AccumulatedDueSum(p + q, r, n) == AccumulatedDueSum(p, r, n) + AccumulatedDueSum(q, r, n)
  {
    if n > 0 {
      AccumulatedDueSumAdditive(p, q, r, n - 1);
      var a := AccumulatedDueSum(p, r, n - 1);
      var b := AccumulatedDueSum(q, r, n - 1);
      assert (a + b + (p + q)) * (1.0 + r) == (a + p) * (1.0 + r) + (b + q) * (1.0 + r);
    }
  }
}
