/**
 * The pre-built rule engines a calculator step may name instead of an
 * expression: Indian income tax under the old and the new regime, the loan
 * EMI, the SIP future value, CAGR and the lump-sum future value, and the
 * registry that dispatches a step's keyword context to one of them.
 *
 * Each engine receives the context's values as keyword arguments. Results
 * are exact reals up to the final round(x, 2), which the supplied Math value
 * performs; powers go through the evaluator's Python power.
 */
module RuleEngines {
  import opened Wrappers
  import opened Numeric
  import opened Annuity
  import opened ExprEval

  // ------------------------------------------------------------ income tax

  /** Old regime: nil up to 2.5 lakh, then 5%, 20% and 30% slabs. */
  function TaxOld(income: real): (tax: real)
    ensures tax >= 0.0
    ensures tax == 0.0 <==> income <= 250000.0
  {
    if income <= 250000.0 then 0.0
    else if income <= 500000.0 then (income - 250000.0) * 0.05
    else if income <= 1000000.0 then 12500.0 + (income - 500000.0) * 0.20
    else 12500.0 + 100000.0 + (income - 1000000.0) * 0.30
  }

  const NewRegimeStandardDeduction: real := 75000.0

  /** New regime: a 75,000 standard deduction, then nil up to 3 lakh and 5% to 30% slabs. */
  function TaxNew(income: real): (tax: real)
    ensures tax >= 0.0
    ensures tax == 0.0 <==> income <= 375000.0
  {
    var taxable := MaxR(0.0, income - NewRegimeStandardDeduction);
    if taxable <= 300000.0 then 0.0
    else if taxable <= 700000.0 then (taxable - 300000.0) * 0.05
    else if taxable <= 1000000.0 then 20000.0 + (taxable - 700000.0) * 0.10
    else if taxable <= 1200000.0 then 20000.0 + 30000.0 + (taxable - 1000000.0) * 0.15
    else if taxable <= 1500000.0 then 20000.0 + 30000.0 + 30000.0 + (taxable - 1200000.0) * 0.20
    else 20000.0 + 30000.0 + 30000.0 + 60000.0 + (taxable - 1500000.0) * 0.30
  }

  /**
   * A tax slab: the part of the income above lower, and up to upper when
   * there is one, is taxed at rate.
   */
  datatype Slab = Slab(lower: real, upper: Option<real>, rate: real)

  function SlabPortion(income: real, s: Slab): real {
    var top := if s.upper.Some? then MinR(income, s.upper.value) else income;
    if top > s.lower then (top - s.lower) * s.rate else 0.0
  }

  /**
   * The tax as the sum, slab by slab, of each slab's share: never negative
   * under non-negative rates, and nil for an income no slab starts below.
   */
  function SlabTax(income: real, slabs: seq<Slab>): (tax: real)
    ensures (forall i :: 0 <= i < |slabs| ==> slabs[i].rate >= 0.0) ==> tax >= 0.0
    ensures (forall i :: 0 <= i < |slabs| ==> income <= slabs[i].lower) ==> tax == 0.0
  {
    if slabs == [] then 0.0 else SlabTax(income, slabs[..|slabs| - 1]) + SlabPortion(income, slabs[|slabs| - 1])
  }

  const OldRegimeSlabs: seq<Slab> := [
    Slab(250000.0, Some(500000.0), 0.05),
    Slab(500000.0, Some(1000000.0), 0.20),
    Slab(1000000.0, None, 0.30)]

  const NewRegimeSlabs: seq<Slab> := [
    Slab(300000.0, Some(700000.0), 0.05),
    Slab(700000.0, Some(1000000.0), 0.10),
    Slab(1000000.0, Some(1200000.0), 0.15),
    Slab(1200000.0, Some(1500000.0), 0.20),
    Slab(1500000.0, None, 0.30)]

  /** The old regime's cumulative constants are the sums of the lower slabs. */
  lemma TaxOldIsSlabSum(income: real)
    ensures TaxOld(income) == SlabTax(income, OldRegimeSlabs)
  {
    var s := OldRegimeSlabs;
    assert s[..2][..1] == s[..1] && s[..3] == s && s[..3][..2] == s[..2] && s[..1][..0] == [];
    assert SlabTax(income, s[..1]) == SlabPortion(income, s[0]);
    assert SlabTax(income, s[..2]) == SlabPortion(income, s[0]) + SlabPortion(income, s[1]);
    assert SlabTax(income, s) == SlabPortion(income, s[0]) + SlabPortion(income, s[1]) + SlabPortion(income, s[2]);
  }

  /** The new regime is the slab sum applied to the income less the standard deduction. */
  lemma TaxNewIsSlabSum(income: real)
    ensures TaxNew(income) == SlabTax(MaxR(0.0, income - NewRegimeStandardDeduction), NewRegimeSlabs)
  {
    var x := MaxR(0.0, income - NewRegimeStandardDeduction);
    var s := NewRegimeSlabs;
    assert s[..1][..0] == [] && s[..2][..1] == s[..1] && s[..3][..2] == s[..2];
    assert s[..4][..3] == s[..3] && s[..5][..4] == s[..4] && s[..5] == s;
    assert SlabTax(x, s[..1]) == SlabPortion(x, s[0]);
    assert SlabTax(x, s[..2]) == SlabTax(x, s[..1]) + SlabPortion(x, s[1]);
    assert SlabTax(x, s[..3]) == SlabTax(x, s[..2]) + SlabPortion(x, s[2]);
    assert SlabTax(x, s[..4]) == SlabTax(x, s[..3]) + SlabPortion(x, s[3]);
    assert SlabTax(x, s) == SlabTax(x, s[..4]) + SlabPortion(x, s[4]);
  }

  /** More income never lowers the tax, and no more than 30% of a raise goes to tax. */
  lemma TaxOldMarginal(x: real, y: real)
    requires x <= y
    ensures TaxOld(x) <= TaxOld(y) <= TaxOld(x) + 0.30 * (y - x)
  {
  }

  lemma TaxNewMarginal(x: real, y: real)
    requires x <= y
    ensures TaxNew(x) <= TaxNew(y) <= TaxNew(x) + 0.30 * (y - x)
  {
  }

  lemma TaxExamples()
    ensures TaxOld(200000.0) == 0.0
    ensures TaxOld(400000.0) == 7500.0
    ensures TaxOld(800000.0) == 72500.0
    ensures TaxOld(1500000.0) == 262500.0
    ensures TaxNew(1500000.0) == 125000.0
  {
  }

  // ------------------------------------------------------------ loans and investments

  function MonthlyRate(annualRatePercent: real): real {
    annualRatePercent / 12.0 / 100.0
  }

  /** Some argument is not a number, where the engine does arithmetic on every argument. */
  function ArgumentError(engine: string): EvalError {
    BadOperands("unsupported operand type(s) in " + engine + "()")
  }

  /**
   * emi_calculator: at a zero rate the principal split evenly over the
   * tenure; otherwise P * r * (1+r)^n / ((1+r)^n - 1) at the monthly rate,
   * rounded to two places.
   */
  function Emi(principal: Value, annualRate: Value, tenureMonths: Value, m: Math): (r: Result<Value, EvalError>)
    ensures IsNumber(principal) && PyEq(annualRate, Num(0.0)) && IsNumber(tenureMonths) ==>
      (r.Err? <==> AsReal(tenureMonths) == 0.0) && (r.Ok? ==> r.value == Num(AsReal(principal) / AsReal(tenureMonths)))
  {
    if PyEq(annualRate, Num(0.0)) then
      if !(IsNumber(principal) && IsNumber(tenureMonths)) then Err(OperandError(Div, principal, tenureMonths))
      else if AsReal(tenureMonths) == 0.0 then Err(DivisionByZero)
      else Ok(Num(AsReal(principal) / AsReal(tenureMonths)))
    else if !(IsNumber(principal) && IsNumber(annualRate) && IsNumber(tenureMonths)) then Err(ArgumentError("emi_calculator"))
    else
      var rate := MonthlyRate(AsReal(annualRate));
      var growth :- PyPow(1.0 + rate, AsReal(tenureMonths), m);
      if growth - 1.0 == 0.0 then Err(DivisionByZero)
      else Ok(Num(RoundTo(m, EmiFormula(AsReal(principal), rate, growth), Some(2))))
  }

  /** P * r * g / (g - 1), g being (1 + r)^n. */
  function EmiFormula(p: real, r: real, g: real): real
    requires g != 1.0
  {
    p * r * g / (g - 1.0)
  }

  /** What is left of a loan of principal p after k monthly payments at rate r. */
  function LoanBalance(p: real, r: real, payment: real, k: nat): real {
    if k == 0 then p else LoanBalance(p, r, payment, k - 1) * (1.0 + r) - payment
  }

  lemma {:induction false} LoanBalanceClosedForm(p: real, r: real, payment: real, k: nat)
    ensures LoanBalance(p, r, payment, k) == p * IntPow(1.0 + r, k) - AccumulatedSum(payment, r, k)
  {
    if k > 0 {
      LoanBalanceClosedForm(p, r, payment, k - 1);
      assert p * IntPow(1.0 + r, k) == p * IntPow(1.0 + r, k - 1) * (1.0 + r);
    }
  }

  /**
   * At a positive rate the EMI before rounding is the ordinary-annuity
   * payment that accumulates to the loan's value compounded over the tenure.
   */
  lemma EmiIsAnnuityPayment(principal: real, annualRate: real, n: nat, m: Math)
    requires annualRate > 0.0 && n > 0
    ensures Emi(Num(principal), Num(annualRate), Num(n as real), m)
         == Ok(Num(RoundTo(m, PaymentOrdinary(Compounded(principal, MonthlyRate(annualRate), n), MonthlyRate(annualRate), n), Some(2))))
  {
    var r := MonthlyRate(AsReal(Num(annualRate)));
    assert r == MonthlyRate(annualRate) && r > 0.0;
    var g := IntPow(1.0 + r, n);
    assert (n as real).Floor == n;
    assert PyPow(1.0 + r, AsReal(Num(n as real)), m) == Ok(g);
    CompoundedClosedForm(principal, r, n);
    var fv := Compounded(principal, r, n);
    EmiFormulaIsPayment(principal, r, n, g, fv);
    assert EmiFormula(AsReal(Num(principal)), r, g) == PaymentOrdinary(fv, r, n);
  }

  /** With g = (1 + r)^n, the EMI formula is the payment that accumulates to P * g. */
  lemma EmiFormulaIsPayment(p: real, r: real, n: nat, g: real, fv: real)
    requires r > 0.0 && n > 0 && g == IntPow(1.0 + r, n) && fv == p * g
    ensures g > 1.0 && EmiFormula(p, r, g) == PaymentOrdinary(fv, r, n)
  {
    IntPowAboveOne(1.0 + r, n);
    var a := PaymentOrdinary(fv, r, n);
    var b := EmiFormula(p, r, g);
    var c := g - 1.0;
    DivMul(fv * r, c);
    DivMul(p * r * g, c);
    assert a * c == b * c;
    MulCancel(a, b, c);
  }

  /** The unrounded EMI repays the loan exactly: nothing is left after the last payment. */
  lemma EmiRepaysLoan(principal: real, r: real, n: nat)
    requires r > 0.0 && n > 0
    ensures LoanBalance(principal, r, PaymentOrdinary(Compounded(principal, r, n), r, n), n) == 0.0
  {
    var fv := Compounded(principal, r, n);
    var payment := PaymentOrdinary(fv, r, n);
    CompoundedClosedForm(principal, r, n);
    LoanBalanceClosedForm(principal, r, payment, n);
    PaymentOrdinaryInverts(fv, r, n);
  }

  /** At a zero rate the even split repays the loan exactly. */
  lemma EvenSplitRepaysLoan(principal: real, n: nat)
    requires n > 0
    ensures LoanBalance(principal, 0.0, principal / n as real, n) == 0.0
  {
    LoanBalanceClosedForm(principal, 0.0, principal / n as real, n);
    AccumulatedSumZeroRate(principal / n as real, n);
    IntPowAtLeastOne(1.0, n);
    OnePower(n);
  }

  lemma {:induction false} OnePower(n: nat)
    ensures IntPow(1.0, n) == 1.0
  {
    if n > 0 {
      OnePower(n - 1);
    }
  }

  /**
   * sip_future_value: at a zero rate the deposits simply add up; otherwise
   * P * ((1+r)^n - 1) / r * (1+r) over n = 12 * years months, rounded.
   */
  function Sip(monthly: Value, annualRate: Value, years: Value, m: Math): (r: Result<Value, EvalError>)
    ensures IsNumber(monthly) && PyEq(annualRate, Num(0.0)) && IsNumber(years) ==>
      r == Ok(Num(AsReal(monthly) * AsReal(years) * 12.0))
  {
    if PyEq(annualRate, Num(0.0)) then
      if !(IsNumber(monthly) && IsNumber(years)) then Err(OperandError(Mult, monthly, years))
      else Ok(Num(AsReal(monthly) * AsReal(years) * 12.0))
    else if !(IsNumber(monthly) && IsNumber(annualRate) && IsNumber(years)) then Err(ArgumentError("sip_future_value"))
    else
      var rate := MonthlyRate(AsReal(annualRate));
      var growth :- PyPow(1.0 + rate, AsReal(years) * 12.0, m);
      Ok(Num(RoundTo(m, SipFormula(AsReal(monthly), rate, growth), Some(2))))
  }

  /** P * (g - 1) / r * (1 + r), g being (1 + r)^n. */
  function SipFormula(p: real, r: real, g: real): real
    requires r != 0.0
  {
    p * ((g - 1.0) / r) * (1.0 + r)
  }

  lemma {:induction false} AccumulatedDueSumZeroRate(p: real, n: nat)
    ensures AccumulatedDueSum(p, 0.0, n) == p * n as real
  {
    if n > 0 {
      AccumulatedDueSumZeroRate(p, n - 1);
    }
  }

  /**
   * Over a whole number of months the SIP value is that of the deposit
   * schedule: each month's deposit made at the start of the month and grown
   * month by month, rounded at the end.
   */
  lemma SipIsDepositSchedule(monthly: real, annualRate: real, years: real, months: nat, m: Math)
    requires annualRate != 0.0 && years * 12.0 == months as real
    ensures Sip(Num(monthly), Num(annualRate), Num(years), m)
         == Ok(Num(RoundTo(m, AccumulatedDueSum(monthly, MonthlyRate(annualRate), months), Some(2))))
  {
    var r := MonthlyRate(AsReal(Num(annualRate)));
    assert r == MonthlyRate(annualRate) && r != 0.0;
    var g := IntPow(1.0 + r, months);
    assert (months as real).Floor == months;
    assert PyPow(1.0 + r, AsReal(Num(years)) * 12.0, m) == Ok(g);
    DueClosedForm(monthly, r, months);
    assert SipFormula(AsReal(Num(monthly)), r, g) == AccumulatedDueSum(monthly, r, months);
  }

  /** At a zero rate the SIP value is the deposits added up, unrounded. */
  lemma SipZeroRateIsDepositSchedule(monthly: real, years: real, months: nat, m: Math)
    requires years * 12.0 == months as real
    ensures Sip(Num(monthly), Num(0.0), Num(years), m) == Ok(Num(AccumulatedDueSum(monthly, 0.0, months)))
  {
    AccumulatedDueSumZeroRate(monthly, months);
    assert PyEq(Num(0.0), Num(0.0));
    assert AsReal(Num(years)) * 12.0 == months as real;
    Regroup(AsReal(Num(monthly)), AsReal(Num(years)), months as real);
    assert AsReal(Num(monthly)) * AsReal(Num(years)) * 12.0 == AccumulatedDueSum(monthly, 0.0, months);
  }

  lemma Regroup(a: real, b: real, k: real)
    requires b * 12.0 == k
    ensures a * b * 12.0 == a * k
  {
  }

  /**
   * cagr_calculator: 0 when there are no years or no initial value;
   * otherwise ((final / initial) ^ (1 / years) - 1) * 100, rounded.
   */
  function Cagr(initial: Value, final: Value, years: Value, m: Math): (r: Result<Value, EvalError>)
    ensures PyEq(years, Num(0.0)) || PyEq(initial, Num(0.0)) ==> r == Ok(Num(0.0))
  {
    if PyEq(years, Num(0.0)) || PyEq(initial, Num(0.0)) then Ok(Num(0.0))
    else if !(IsNumber(initial) && IsNumber(final) && IsNumber(years)) then Err(ArgumentError("cagr_calculator"))
    else
      var growth :- PyPow(AsReal(final) / AsReal(initial), 1.0 / AsReal(years), m);
      Ok(Num(RoundTo(m, (growth - 1.0) * 100.0, Some(2))))
  }

  /** Over one year the CAGR is the plain percentage change. */
  lemma CagrOneYear(initial: real, final: real, m: Math)
    requires initial != 0.0
    ensures Cagr(Num(initial), Num(final), Num(1.0), m) == Ok(Num(RoundTo(m, (final / initial - 1.0) * 100.0, Some(2))))
  {
    assert (1.0 / 1.0).Floor == 1;
    assert IntPow(final / initial, 1) == final / initial;
  }

  /**
   * CAGR is the constant yearly rate that grows the initial value into the
   * final one: when the power returns the n-th root of final / initial,
   * compounding initial at the unrounded CAGR for n years gives final.
   */
  lemma CagrGrowsToFinal(initial: real, final: real, n: nat, growth: real, m: Math)
    requires initial != 0.0 && n > 1
    requires m.pow(final / initial, 1.0 / n as real) == Some(growth)
    requires IntPow(growth, n) == final / initial
    ensures Cagr(Num(initial), Num(final), Num(n as real), m) == Ok(Num(RoundTo(m, (growth - 1.0) * 100.0, Some(2))))
    ensures initial * IntPow(1.0 + (growth - 1.0) * 100.0 / 100.0, n) == final
  {
    var e := 1.0 / n as real;
    assert 0.0 < e < 1.0;
    assert e.Floor == 0;
    assert PyPow(final / initial, e, m) == Ok(growth);
    assert 1.0 + (growth - 1.0) * 100.0 / 100.0 == growth;
    DivMul(final, initial);
  }

  /** lumpsum_future_value: P * (1 + rate)^years, rounded. */
  function Lumpsum(principal: Value, annualRate: Value, years: Value, m: Math): (r: Result<Value, EvalError>)
    ensures r.Ok? ==> IsNumber(principal) && IsNumber(annualRate) && IsNumber(years)
  {
    if !(IsNumber(principal) && IsNumber(annualRate) && IsNumber(years)) then Err(ArgumentError("lumpsum_future_value"))
    else
      var growth :- PyPow(1.0 + AsReal(annualRate) / 100.0, AsReal(years), m);
      Ok(Num(RoundTo(m, Grown(AsReal(principal), growth), Some(2))))
  }

  function Grown(p: real, g: real): real {
    p * g
  }

  /** Year-by-year compounding of a single deposit. */
  function Compounded(p: real, r: real, years: nat): real {
    if years == 0 then p else Compounded(p, r, years - 1) * (1.0 + r)
  }

  lemma {:induction false} CompoundedClosedForm(p: real, r: real, years: nat)
    ensures Compounded(p, r, years) == p * IntPow(1.0 + r, years)
  {
    if years > 0 {
      CompoundedClosedForm(p, r, years - 1);
      assert p * IntPow(1.0 + r, years) == p * IntPow(1.0 + r, years - 1) * (1.0 + r);
    }
  }

  /** Over whole years the lump sum grows by compounding once a year. */
  lemma LumpsumIsCompounding(principal: real, annualRate: real, years: nat, m: Math)
    ensures Lumpsum(Num(principal), Num(annualRate), Num(years as real), m)
         == Ok(Num(RoundTo(m, Compounded(principal, annualRate / 100.0, years), Some(2))))
  {
    assert (years as real).Floor == years;
    var g := IntPow(1.0 + annualRate / 100.0, years);
    assert PyPow(1.0 + AsReal(Num(annualRate)) / 100.0, AsReal(Num(years as real)), m) == Ok(g);
    CompoundedClosedForm(principal, annualRate / 100.0, years);
    assert Grown(AsReal(Num(principal)), g) == Compounded(principal, annualRate / 100.0, years);
  }

  /** 100000 at 10% for 5 years is 161051 before rounding. */
  lemma LumpsumExample()
    ensures Compounded(100000.0, 10.0 / 100.0, 5) == 161051.0
  {
  }

  // ------------------------------------------------------------ registry

  datatype Rule = IncomeTaxOld | IncomeTaxNew | EmiRule | SipRule | CagrRule | LumpsumRule

  const IncomeTaxOldKey := "income_tax_slabs_india_old"
  const IncomeTaxNewKey := "income_tax_slabs_india_new"
  const EmiKey := "emi_calculator"
  const SipKey := "sip_future_value"
  const CagrKey := "cagr_calculator"
  const LumpsumKey := "lumpsum_future_value"

  /** The name an engine is registered under. */
  function RuleKey(rule: Rule): string {
    match rule
    case IncomeTaxOld => IncomeTaxOldKey
    case IncomeTaxNew => IncomeTaxNewKey
    case EmiRule => EmiKey
    case SipRule => SipKey
    case CagrRule => CagrKey
    case LumpsumRule => LumpsumKey
  }

  /** The registry: the engine registered under a name, if any. */
  function RegistryLookup(name: string): (r: Option<Rule>)
    ensures r.Some? ==> RuleKey(r.value) == name
    ensures r.None? ==> forall rule :: RuleKey(rule) != name
  {
    if name == IncomeTaxOldKey then Some(IncomeTaxOld)
    else if name == IncomeTaxNewKey then Some(IncomeTaxNew)
    else if name == EmiKey then Some(EmiRule)
    else if name == SipKey then Some(SipRule)
    else if name == CagrKey then Some(CagrRule)
    else if name == LumpsumKey then Some(LumpsumRule)
    else None
  }

  /** The engine's required parameters, in declaration order. */
  function Params(rule: Rule): (ps: seq<string>)
    ensures |ps| > 0
  {
    match rule
    case IncomeTaxOld => ["taxable_income"]
    case IncomeTaxNew => ["taxable_income"]
    case EmiRule => ["principal", "annual_rate", "tenure_months"]
    case SipRule => ["monthly_investment", "annual_rate", "years"]
    case CagrRule => ["initial_value", "final_value", "years"]
    case LumpsumRule => ["principal", "annual_rate", "years"]
  }

  /** The parameters the context does not bind, in declaration order. */
  function Missing(params: seq<string>, ctx: map<string, Value>): (r: seq<string>)
    ensures forall p :: p in r <==> p in params && p !in ctx
    ensures |r| <= |params|
  {
    if params == [] then []
    else
      var rest := Missing(params[..|params| - 1], ctx);
      var last := params[|params| - 1];
      assert params == params[..|params| - 1] + [last];
      if last in ctx then rest else rest + [last]
  }

  /** The context's values for the parameters, in order. */
  function Bound(params: seq<string>, ctx: map<string, Value>): (vs: seq<Value>)
    requires forall p :: p in params ==> p in ctx
    ensures |vs| == |params| && forall i :: 0 <= i < |params| ==> vs[i] == ctx[params[i]]
  {
    if params == [] then [] else [ctx[params[0]]] + Bound(params[1..], ctx)
  }

  /**
   * An engine called on its arguments in declaration order: every result is
   * a number, and a tax engine raises exactly when the income is not a
   * number and otherwise returns a non-negative tax.
   */
  function Apply(rule: Rule, args: seq<Value>, m: Math): (r: Result<Value, EvalError>)
    requires |args| == |Params(rule)|
    ensures r.Ok? ==> r.value.Num?
    ensures rule.IncomeTaxOld? || rule.IncomeTaxNew? ==>
              (r.Ok? <==> IsNumber(args[0])) && (r.Ok? ==> r.value.n >= 0.0)
  {
    match rule
    case IncomeTaxOld =>
      if IsNumber(args[0]) then Ok(Num(TaxOld(AsReal(args[0]))))
      else Err(BadOperands("'<=' not supported between instances of '" + TypeName(args[0]) + "' and 'int'"))
    case IncomeTaxNew =>
      if IsNumber(args[0]) then Ok(Num(TaxNew(AsReal(args[0]))))
      else Err(OperandError(Sub, args[0], Num(NewRegimeStandardDeduction)))
    case EmiRule => Emi(args[0], args[1], args[2], m)
    case SipRule => Sip(args[0], args[1], args[2], m)
    case CagrRule => Cagr(args[0], args[1], args[2], m)
    case LumpsumRule => Lumpsum(args[0], args[1], args[2], m)
  }

  /**
   * The engine called with the whole context as keyword arguments: a
   * parameter the context does not bind raises naming every missing one;
   * keys that are not parameters are absorbed.
   */
  function Invoke(rule: Rule, ctx: map<string, Value>, m: Math): (r: Result<Value, EvalError>)
    ensures Missing(Params(rule), ctx) != [] ==> r == Err(MissingArguments(RuleKey(rule), Missing(Params(rule), ctx)))
  {
    var missing := Missing(Params(rule), ctx);
    if missing != [] then Err(MissingArguments(RuleKey(rule), missing))
    else Apply(rule, Bound(Params(rule), ctx), m)
  }

  /** Only the parameters' bindings matter: any other context keys leave the result unchanged. */
  lemma InvokeReadsOnlyParameters(rule: Rule, c1: map<string, Value>, c2: map<string, Value>, m: Math)
    requires forall p :: p in Params(rule) ==> SameBinding(p, c1, c2)
    ensures Invoke(rule, c1, m) == Invoke(rule, c2, m)
  {
    var ps := Params(rule);
    assert Missing(ps, c1) == Missing(ps, c2) by {
      MissingAgrees(ps, c1, c2);
    }
    if Missing(ps, c1) == [] {
      forall i | 0 <= i < |ps|
        ensures Bound(ps, c1)[i] == Bound(ps, c2)[i]
      {
        assert ps[i] in ps;
      }
      assert Bound(ps, c1) == Bound(ps, c2);
    }
  }

  lemma {:induction false} MissingAgrees(ps: seq<string>, c1: map<string, Value>, c2: map<string, Value>)
    requires forall p :: p in ps ==> SameBinding(p, c1, c2)
    ensures Missing(ps, c1) == Missing(ps, c2)
  {
    if ps != [] {
      MissingAgrees(ps[..|ps| - 1], c1, c2);
      assert ps[|ps| - 1] in ps;
    }
  }

  /** Calling the EMI engine with only a principal raises naming the two missing parameters. */
  lemma MissingRuleExample(m: Math)
    ensures Invoke(EmiRule, map["principal" := Num(5000000.0)], m)
         == Err(MissingArguments("emi_calculator", ["annual_rate", "tenure_months"]))
  {
    var ctx := map["principal" := Num(5000000.0)];
    var ps := Params(EmiRule);
    assert ps[..1] == ["principal"] && ps[..2] == ["principal", "annual_rate"] && ps[..3] == ps;
    assert ps[..2][..1] == ps[..1] && ps[..1][..0] == [];
    assert Missing(ps[..1], ctx) == [];
    assert Missing(ps[..2], ctx) == ["annual_rate"];
    assert Missing(ps, ctx) == ["annual_rate", "tenure_months"];
  }
}
