# FinTech backend core, modelled in Dafny

This project models the deterministic calculation core of the FinTech
backend and proves properties of it. The core has five parts.

- **Household planning engine** (`FinancialEngine` in `Backend/engine.py`).
  It re-derives the linked EMI and SIP totals in place, then computes the
  following:
  - time metrics and the retirement corpus;
  - the per-goal SIP and status;
  - dashboard ratios, the retirement gap and the extra SIP that closes it;
  - the year-by-year retirement drawdown;
  - child goal plans, the contingency fund and insurance cover.
- **Calculator execution engine** (`Backend/calculator_engine.py`), in
  three parts:
  - the whitelisted expression interpreter `SafeExpressionEvaluator`;
  - the rule engines: income-tax slabs for the old and new regimes, EMI,
    SIP, CAGR and lump sum;
  - `CalculatorEngine`, which validates inputs, loads them into a context,
    runs the steps in order with a trace, and collects the outputs.
- **Fallback insights** (`generate_fallback_insights` in
  `Backend/ai_service.py`). It covers the health score and its clamp, the
  status bands, the prioritised recommendation list, the goal insights and
  the emergency-fund check.
- **Calculator generation conversation**
  (`CalculatorGenerationOrchestrator` in
  `Backend/calculator_generator_service.py`) and the structural part of
  `run_validation_agent`. The states run ELICITING → GENERATING →
  VALIDATING → AWAITING_APPROVAL → COMPLETED. Each language-model agent's
  answer is a parameter (`AgentReplies`).
- **Calculator version bookkeeping** (`Backend/calculator_crud.py`). It
  covers version numbering, approve and deprecate, active-version
  resolution, creating a calculator and appending a conversation message.
  The database is a class whose fields are maps and sequences of records.

The modules and files are:

| file | module | what it holds |
|---|---|---|
| `wrappers.dfy` | `Wrappers` | `Option` and `Result` |
| `numeric.dfy` | `Numeric` | integer powers, `int()` on floats, sums |
| `annuity.dfy` | `Annuity` | annuity sums and their closed forms |
| `text.dfy` | `Text` | lower-casing, `join`, `split`, `str(int)` and `int(str)` |
| `planning_types.dfy` | `PlanningTypes` | the planning records of `Backend/schemas.py` |
| `financial_engine.dfy` | `FinancialEngine` | the engine: class `FinancialEngine` over the state |
| `expr_eval.dfy` | `ExprEval` | the expression interpreter |
| `rule_engines.dfy` | `RuleEngines` | the six rule engines and their registry |
| `calculator_engine.dfy` | `CalculatorEngine` | class `CalculatorEngine`: validation, loading, steps, trace |
| `fallback_insights.dfy` | `FallbackInsights` | the fallback score, recommendations and insights |
| `generator_service.dfy` | `GeneratorService` | class `Orchestrator` over the conversations map |
| `calculator_crud.dfy` | `CalculatorCrud` | class `Store` over the calculator, version and conversation tables |

Some of the source depends on the outside world. Each such dependency is
a parameter in the model:

- **Dates and the power function.** "Today" is a day number, and birth
  dates and goal dates are day numbers too (`Env`). Python's `**` with a
  fractional exponent is a function-valued parameter `pow`. The lemmas that
  need it require that `pow` agrees with repeated multiplication on natural
  exponents (`AgreesWithIntPow`).
- **Calculator runtime.** The evaluator's `round`, fractional powers and the
  transcendental functions come from a `Math` value. `ast.parse`, `float()`
  of a string and number formatting come from a `Runtime` value.
- **Agent answers.** The elicitation, generator, semantic-validation and
  healer agents return their answers as an `AgentReplies` value. Conversation
  and version ids are parameters rather than fresh `uuid4` values.

## Model

| member | source | states |
|---|---|---|
| `FinancialEngine.Relinked` | Backend/engine.py:62-74 | The linked EMIs are the sum of the liabilities' EMIs and the linked investments are the sum of the investments' SIPs. Every other field of the state is unchanged. |
| `FinancialEngine.RelinkedIdempotent` | Backend/engine.py:62-74 | Re-deriving the linked totals a second time changes nothing. |
| `FinancialEngine.RelinkedForgetsStoredTotals` | Backend/engine.py:69-74 | The re-derived totals do not depend on whatever totals were stored before. |
| `FinancialEngine.SeedLinkedTotals` | Backend/seed_test_data.py:147-179 | The seeded loans and SIPs give linked totals of 53000 and 35000. |
| `FinancialEngine.FinancialEngine.constructor` | Backend/engine.py:17-18 | The engine holds the state it is given. |
| `FinancialEngine.FinancialEngine.UpdateLinkedValues` | Backend/engine.py:62-74 | The state is updated in place to `Relinked` of the old state. |
| `FinancialEngine.TimeMetricsOf` | Backend/engine.py:76-100 | The current age comes from the birth date. Years to retirement are retirement age minus age, clamped at 0. Months are the whole months in that span (truncation), so they are never negative. |
| `FinancialEngine.MonthlyExpenses` | Backend/engine.py:102-130 | The baseline is essential plus lifestyle spending. An itemised breakdown, when present, replaces its aggregate. |
| `FinancialEngine.MonthlyExpensesExcludeLinked` | Backend/engine.py:104-130 | Linked EMIs and SIPs never enter the expense baseline. |
| `FinancialEngine.DetailsOverrideAggregates` | Backend/engine.py:113-128 | With both breakdowns present, the aggregate fields have no effect. |
| `FinancialEngine.RealRate` | Backend/engine.py:157-160 | The real rate exceeds -1. It is 0 exactly when the post-retirement return equals inflation, and positive exactly when the return exceeds inflation. |
| `FinancialEngine.CorpusIsPresentValue` | Backend/engine.py:170-179 | The corpus formula equals the present value of the annual withdrawals, one per pension year, at the real rate. |
| `FinancialEngine.RetirementCorpus` | Backend/engine.py:140-179 | The expenses are the baseline. The pension years are pension-till age minus retirement age. At a zero real rate the corpus is annual expense times years. Whenever the pension years are not negative, it is the present value of the withdrawals. |
| `FinancialEngine.RetirementOf` | Backend/engine.py:132-199 | The current expenses are the baseline, which leaves out linked EMIs and SIPs. The real rate is the inflation-adjusted return. The pension years run from retirement age to pension-till age, and with no pension year the corpus is 0. Over a whole number of years to retirement, the expenses at retirement are today's expenses grown by inflation once a year. |
| `FinancialEngine.MoneyToRetireNowGrowsToCorpus` | Backend/engine.py:181-190 | With no month left the money needed now is the corpus. Otherwise it grows into the corpus at the monthly pre-retirement rate. |
| `FinancialEngine.FirstMemberAgeIsFirst` | Backend/engine.py:345-349 | The age is that of the first family member in list order who answers to the name (ignoring case) and has a birth date. It is none exactly when there is no such member. |
| `FinancialEngine.MemberAge` | Backend/engine.py:341-358 | Family members take priority over the spouse. A spouse of that name gives the spouse's age. The result is unknown exactly when neither matches. |
| `FinancialEngine.FinancialEngine.FamilyMemberAge` | Backend/engine.py:341-358 | The loop over the family members returns `MemberAge`. |
| `FinancialEngine.Surplus` | Backend/engine.py:231-232 | The surplus is inflow less every outflow, floored at 0. |
| `FinancialEngine.GoalSip` | Backend/engine.py:274-284 | With months left and a positive rate, the SIP accumulates (ordinary annuity) to the future cost. At a non-positive rate it is an even split. With no month left it is the whole cost. |
| `FinancialEngine.StatusOf` | Backend/engine.py:288-306 | PAST_DUE exactly when no month is left. ACHIEVED exactly when the SIP is not positive. CRITICAL exactly when the SIP exceeds the surplus. ON_TRACK, NEEDS_ATTENTION and AT_RISK fall in the 30%, 60% and 100% bands. |
| `FinancialEngine.StatusMonotone` | Backend/engine.py:295-306 | A larger SIP never gets a better status. |
| `FinancialEngine.AllocationPercent` | Backend/engine.py:308-309 | The share is at most 100. It is 100 when the surplus is 0, and otherwise 100 exactly when the SIP reaches the surplus. Below that it is SIP over surplus in percent. |
| `FinancialEngine.AnalyzeGoal` | Backend/engine.py:237-324 | Only an AGE target can raise. An analysed goal keeps the goal's id, name, person and current cost. Its SIP is the goal SIP for its future cost over its months. Its status, feasibility and share of the surplus follow from that SIP and the surplus. |
| `FinancialEngine.AnalyzeGoalFacts` | Backend/engine.py:237-324 | A goal fails only on an AGE target that is not an integer. Otherwise: years are never negative; months are the whole months in them; the goal is past due exactly when months are 0; the share is at most 100; with months left at a positive rate, the SIP accumulates to the inflated cost. |
| `FinancialEngine.GoalsSpecOk` | Backend/engine.py:237-324 | The goal list analyses without error exactly when every goal does. |
| `FinancialEngine.GoalsSpecValues` | Backend/engine.py:237-324 | On success the i-th analysis is that of the i-th goal. |
| `FinancialEngine.GoalsSpecFirstError` | Backend/engine.py:241-243 | The first goal whose target raises ends the whole analysis with that error. |
| `FinancialEngine.GoalsSpec` | Backend/engine.py:237-324 | On success there is one analysis per goal. |
| `FinancialEngine.SummaryOf` | Backend/engine.py:326-337 | The goals are all feasible exactly when their total SIP fits in the surplus. The total SIP plus what remains after goals is the surplus. |
| `FinancialEngine.TotalAssets` | Backend/engine.py:372-399 | Total assets are the investible assets, plus the present values of the real estate, plus the policies' maturity amounts. A household with no holdings has only its cash. |
| `FinancialEngine.TotalLiabilities` | Backend/engine.py:401-403 | The outstanding balances total 0 without liabilities. The total is never negative when no balance is. |
| `FinancialEngine.DashboardOf` | Backend/engine.py:405-515 | Net worth plus liabilities equals the assets. Leftover savings plus outflow equals the inflow, which is the sum of the income sources. The projected corpus plus the gap equals the corpus required. Without a gap, no extra SIP is asked for. |
| `FinancialEngine.FinancialEngine.GoalYears` | Backend/engine.py:238-263 | Years to the goal before clamping: from the named person's age or the user's, or from the ISO date (0 when it does not parse). A non-integer AGE target is an error. |
| `FinancialEngine.FinancialEngine.CalculateGoals` | Backend/engine.py:201-339 | The loop produces the goal analyses in order and the summary of their total SIP against the surplus (none without goals), or the first goal's error. |
| `FinancialEngine.RatiosOf` | Backend/engine.py:453-462 | With positive inflow the five ratios are the parts over inflow in percent and they sum to exactly 100. Otherwise all five are 0. |
| `FinancialEngine.SipFutureValue` | Backend/engine.py:480-486 | At a positive rate with months left it is the annuity-due accumulation of the SIP. Otherwise it is SIP times months. |
| `FinancialEngine.ExtraSip` | Backend/engine.py:491-498 | It is 0 without a gap or without a month left. Otherwise, at a positive rate it accumulates (annuity due) to the gap, and at a non-positive rate it splits the gap evenly. |
| `FinancialEngine.ExtraSipFillsGap` | Backend/engine.py:482-498 | Adding the extra SIP to the current SIP brings the lump sum plus SIP value up to the corpus. |
| `FinancialEngine.ExtraSipClosesGap` | Backend/engine.py:464-498 | With a positive gap and months left, the grown lump sum plus the current and extra SIPs reach the corpus required. |
| `FinancialEngine.CashflowPrefixAppend` | Backend/engine.py:546-562 | A row that opens with the last closing balance extends a valid drawdown prefix. |
| `FinancialEngine.CashflowBalancesNonNegative` | Backend/engine.py:557-561 | Every closing balance, and so every later opening balance, is non-negative. |
| `FinancialEngine.FinancialEngine.RetirementCashflowTable` | Backend/engine.py:521-564 | There is one row per age from retirement to pension-till age inclusive. The first row opens with the corpus and each later row with the previous closing balance. The pension grows with inflation each year, and each closing balance is the grown balance less a year of pension, floored at 0. |
| `FinancialEngine.ChildSipIsGoalSip` | Backend/engine.py:624-630 | The child planner's SIP equals the goal planner's SIP for every non-negative month count. |
| `FinancialEngine.ChildGoalPlanFacts` | Backend/engine.py:608-641 | A child's goal gets a plan exactly when its target is an integer age still ahead. The plan's months are the whole months left, and its SIP accumulates to the inflated cost. |
| `FinancialEngine.ChildGoalPlansFromLinkedGoals` | Backend/engine.py:603-643 | Every plan comes from a goal linked to the child by name. Without linked goals there are no plans. |
| `FinancialEngine.FinancialEngine.ChildGoalPlanning` | Backend/engine.py:603-643 | The loop returns the plans of the child's goals and their total SIP. |
| `FinancialEngine.ChildPlansFacts` | Backend/engine.py:590-651 | Each child plan belongs to a child with a birth date, lists that child's goal plans (never empty) and totals their SIPs. |
| `FinancialEngine.FinancialEngine.ChildPlanning` | Backend/engine.py:566-653 | The loop over the children returns `ChildPlansOf`. |
| `FinancialEngine.ContingencyMatchesRetirement` | Backend/engine.py:655-668 | The emergency fund uses the same monthly expenses as the retirement analysis, times the number of months. |
| `FinancialEngine.ContingencyFundOf` | Backend/engine.py:655-668 | The fund is the number of months times the monthly expenses. Those expenses ignore the linked EMIs and SIPs. |
| `FinancialEngine.CoverIsAccumulatedIncome` | Backend/engine.py:691-698 | Over whole years, the cover is the annual income accumulated year by year at the growth rate. |
| `FinancialEngine.SpouseRetirementAge` | Backend/engine.py:715 | The spouse's own retirement age when it is set and not 0. Otherwise the primary user's. |
| `FinancialEngine.CoverFor` | Backend/engine.py:686-708 | The cover record carries the earner's name, income and retirement age, the age from the birth date, and 5% growth. The years left are the non-negative years to retirement, truncated to whole years. The cover is the income-growth formula over the exact years left. It is 0 once retirement age is reached. |
| `FinancialEngine.CoverForWholeYears` | Backend/engine.py:689-698 | When the years left are whole, the cover is the annual income accumulated year by year at 5% growth. |
| `FinancialEngine.InsuranceCovers` | Backend/engine.py:670-736 | There is one cover for an earning primary user, first. It uses the primary user's income, birth date and retirement age. There is one for an earning spouse, last. It uses the spouse's income and birth date, and the spouse's own retirement age, or the primary user's when that is unset or 0. Years left are never negative and the growth is 5%. |
| `FinancialEngine.InsuranceCoversWholeYears` | Backend/engine.py:670-736 | Every cover whose years left are whole is the income accumulated at 5% a year until retirement. |
| `FinancialEngine.FinancialEngine.Calculate` | Backend/engine.py:20-60 | The linked totals are updated in place first. The analysis is then computed from the updated state: retirement, goals, dashboard, drawdown table, child plans, contingency fund and cover. |
| `Annuity.OrdinaryClosedForm` | Backend/engine.py:275-280 | The closed form p((1+r)^n-1)/r equals the sum of n end-of-period payments grown to the end. |
| `Annuity.DueIsShifted` | Backend/engine.py:481-484 | Start-of-period payments accumulate to (1+r) times the end-of-period accumulation. |
| `Annuity.DueClosedForm` | Backend/engine.py:481-484 | The closed form p((1+r)^n-1)/r(1+r) equals the annuity-due accumulation. |
| `Annuity.PresentValueClosedForm` | Backend/engine.py:170-178 | The closed form a(1-(1+r)^-n)/r equals the discounted sum of n payments. |
| `Annuity.PaymentOrdinaryInverts` | Backend/engine.py:279-280 | The goal SIP formula inverts the ordinary-annuity accumulation. |
| `Annuity.PaymentDueInverts` | Backend/engine.py:494-496 | The extra-SIP formula inverts the annuity-due accumulation. |
| `Annuity.PaymentOrdinaryClosed` | Backend/engine.py:279-280 | The goal SIP formula, fed back into the closed-form future value, gives the future cost. |
| `Annuity.PaymentDueClosed` | Backend/engine.py:494-496 | The extra-SIP formula, fed back into the closed-form annuity-due value, gives the gap. |
| `Annuity.AccumulatedSumZeroRate` | Backend/engine.py:281-282 | At a zero rate, n payments accumulate to p times n. |
| `Annuity.DiscountedSumZeroRate` | Backend/engine.py:172-173 | At a zero rate the present value of n payments is a times n. |
| `Annuity.AccumulatedDueSumAdditive` | Backend/engine.py:482-488 | Two SIP streams accumulate to the sum of their values. |
| `Numeric.Trunc` | Backend/engine.py:93 | `int()` of a float truncates toward zero. |
| `ExprEval.BuiltinNamed` | Backend/calculator_engine.py:55-70 | Only the fourteen whitelisted function names denote a builtin. |
| `ExprEval.Lookup` | Backend/calculator_engine.py:94-106 | A name resolves in this order: context, whitelisted function, True or False. Any other name raises "Unknown variable". |
| `ExprEval.Eval` | Backend/calculator_engine.py:83-165 | A constant is its value. A name resolves through `Lookup`. Comparisons and `and`/`or` yield booleans. Arithmetic yields a number or a string, and a call yields a number. Any other node raises "Unsupported expression". |
| `ExprEval.ApplyBinOp` | Backend/calculator_engine.py:108-114 | An operator outside the table raises. A string result comes only from `+` on two strings, and it is their concatenation. Operands of mismatched types raise. On two numbers the result is `NumericBinOp`. |
| `ExprEval.NumericBinOp` | Backend/calculator_engine.py:32-39 | On numbers, every result is a number. `/`, `//` and `%` raise exactly when the divisor is 0. The quotient of `/` times the divisor gives back the dividend. `+` and `-` are undone by each other. |
| `ExprEval.ApplyUnaryOp` | Backend/calculator_engine.py:116-121 | A unary operator succeeds exactly on a number with `-` or `+`. `-` negates and `+` keeps the value. |
| `ExprEval.CompareValues` | Backend/calculator_engine.py:45-52 | `==` and `!=` never raise and follow Python equality. Ordering two numbers is the real order. An ordering raises only when the operands are neither two numbers nor two strings. |
| `ExprEval.CallBuiltin` | Backend/calculator_engine.py:55-70 | Builtins are modelled on numbers only: a call with an argument that is not a number raises. Otherwise the result is a number: `abs` gives the magnitude, `max`/`min` an argument bounding the rest, and `floor`/`ceil` the integer at or below, or at or above. |
| `ExprEval.PyPow` | Backend/calculator_engine.py:39 | With a non-negative integral exponent, `**` is repeated multiplication. A negative integral exponent raises division by zero exactly when the base is 0. |
| `ExprEval.FloorQuotient` | Backend/calculator_engine.py:37 | `//` rounds the quotient toward minus infinity. |
| `ExprEval.Remainder` | Backend/calculator_engine.py:38 | `%` takes the divisor's sign, lies between 0 and the divisor, and recombines with `//` to the dividend. |
| `ExprEval.Extreme` | Backend/calculator_engine.py:58-59 | `max` and `min` return one of the arguments, bounding all the others. |
| `ExprEval.EvalChain` | Backend/calculator_engine.py:123-134 | A comparison chain yields a boolean. |
| `ExprEval.EvalArgs` | Backend/calculator_engine.py:138 | Arguments evaluate left to right, one value per argument. |
| `ExprEval.EvalBoolOp` | Backend/calculator_engine.py:151-162 | `and` and `or` yield booleans, not operand values. |
| `ExprEval.EvalReadsOnlyItsNames` | Backend/calculator_engine.py:83-165 | An expression reads the context only through the names in it. Contexts that agree on those names give the same value or the same error. |
| `ExprEval.BoolOpStopsAtDecidingOperand` | Backend/calculator_engine.py:151-162 | `and` and `or` stop at the first operand that settles them. The later operands are not evaluated, so an error there cannot surface. |
| `ExprEval.BoolOpWithoutDecidingOperand` | Backend/calculator_engine.py:153-162 | When no operand settles it, `and` is True and `or` is False. |
| `ExprEval.ChainIsConjunction` | Backend/calculator_engine.py:123-134 | `v0 op0 v1 op1 v2 ...` over numbers is the conjunction of its adjacent comparisons. |
| `ExprEval.PrecedenceExamples` | Backend/test_calculator_engine.py:27-43 | "2 + 3 * 4" is 14, "(2 + 3) * 4" is 20, and "x - y * 2" is 0 with x=10, y=5. |
| `ExprEval.FloorDivisionExamples` | Backend/test_calculator_engine.py:23-24 | "10 // 3" is 3 and "10 % 3" is 1. With -7 and 2 the results are -4 and 1, as in Python. |
| `ExprEval.PowerOperatorExample` | Backend/test_calculator_engine.py:25 | "2 ** 3" is 8. |
| `ExprEval.PowFunctionExample` | Backend/test_calculator_engine.py:50 | "pow(2, 3)" is 8. |
| `ExprEval.MaxExample` | Backend/test_calculator_engine.py:51 | "max(3, 7, 2)" is 7. |
| `ExprEval.MinExample` | Backend/test_calculator_engine.py:52 | "min(3, 7, 2)" is 2. |
| `ExprEval.AbsExample` | Backend/test_calculator_engine.py:45-48 | "abs(x)" with x = -5 is 5. |
| `ExprEval.FloorCeilExamples` | Backend/calculator_engine.py:65-66 | floor(3.7) is 3 and ceil(3.2) is 4. |
| `ExprEval.CallWithConstants` | Backend/calculator_engine.py:136-141 | A whitelisted function called on constants is applied to their values. |
| `ExprEval.ErrorExamples` | Backend/calculator_engine.py:94-141 | An undefined variable raises "Unknown variable" (lines 94-106). Division by zero raises from the `/` operator (lines 108-114). Calling a number raises "Not a callable" (lines 136-141). |
| `ExprEval.TernaryExamples` | Backend/test_calculator_engine.py:63-75 | The tax-regime ternary takes either branch. |
| `RuleEngines.TaxOld` | Backend/calculator_engine.py:176-188 | The old-regime tax is non-negative, and 0 exactly up to 250000. |
| `RuleEngines.TaxNew` | Backend/calculator_engine.py:191-210 | The new-regime tax is non-negative, and 0 exactly up to 375000 (the 75000 deduction plus the 300000 nil slab). |
| `RuleEngines.TaxOldIsSlabSum` | Backend/calculator_engine.py:181-188 | The old regime's cumulative constants are the sums of the lower slabs, so the tax is continuous at every slab boundary. |
| `RuleEngines.TaxNewIsSlabSum` | Backend/calculator_engine.py:196-210 | The new regime is the slab sum on the income less the standard deduction. |
| `RuleEngines.SlabTax` | Backend/calculator_engine.py:181-188 | The slab sum is never negative under non-negative rates. It is 0 for an income that no slab starts below. |
| `RuleEngines.TaxOldMarginal` | Backend/calculator_engine.py:181-188 | The old-regime tax never decreases, and it takes at most 30% of any raise. |
| `RuleEngines.TaxNewMarginal` | Backend/calculator_engine.py:196-210 | The new-regime tax never decreases, and it takes at most 30% of any raise. |
| `RuleEngines.TaxExamples` | Backend/test_calculator_engine.py:107-131 | Old regime: 200000 → 0, 400000 → 7500, 800000 → 72500, 1500000 → 262500. New regime: 1500000 → 125000. |
| `RuleEngines.Emi` | Backend/calculator_engine.py:213-223 | At a zero rate the EMI is principal over tenure, and a zero tenure raises. |
| `RuleEngines.EmiIsAnnuityPayment` | Backend/calculator_engine.py:221-223 | At a positive rate the EMI is the rounded ordinary-annuity payment that accumulates to the compounded loan. |
| `RuleEngines.EmiRepaysLoan` | Backend/calculator_engine.py:221-222 | The unrounded EMI leaves nothing owed after the last payment. |
| `RuleEngines.EvenSplitRepaysLoan` | Backend/calculator_engine.py:218-219 | At a zero rate the even split repays the loan exactly. |
| `RuleEngines.LoanBalanceClosedForm` | Backend/calculator_engine.py:221-222 | After k payments the balance owed is the compounded principal less the accumulated payments. |
| `RuleEngines.Sip` | Backend/calculator_engine.py:231-232 | At a zero rate the SIP value is monthly × years × 12. |
| `RuleEngines.SipIsDepositSchedule` | Backend/calculator_engine.py:234-237 | Over whole months the SIP value is the rounded value of start-of-month deposits grown month by month. |
| `RuleEngines.SipZeroRateIsDepositSchedule` | Backend/calculator_engine.py:231-232 | At a zero rate the SIP value is the deposits added up. |
| `RuleEngines.Cagr` | Backend/calculator_engine.py:245-246 | With zero years or a zero initial value the CAGR is 0. |
| `RuleEngines.CagrOneYear` | Backend/calculator_engine.py:248-249 | Over one year the CAGR is the plain percentage change. |
| `RuleEngines.CagrGrowsToFinal` | Backend/calculator_engine.py:240-249 | Compounding the initial value at the unrounded CAGR for n years gives the final value. |
| `RuleEngines.LumpsumIsCompounding` | Backend/calculator_engine.py:257-259 | Over whole years the lump sum is the rounded value of compounding once a year. |
| `RuleEngines.CompoundedClosedForm` | Backend/calculator_engine.py:257-258 | Compounding once a year for n years multiplies the principal by (1+r)^n. |
| `RuleEngines.LumpsumExample` | Backend/test_calculator_engine.py:172-180 | 100000 at 10% for 5 years is 161051 before rounding. |
| `RuleEngines.RegistryLookup` | Backend/calculator_engine.py:266-273 | The registry maps exactly the six engine names to their engines. |
| `RuleEngines.Missing` | Backend/calculator_engine.py:406 | The missing parameters are exactly those the context does not bind. |
| `RuleEngines.Apply` | Backend/calculator_engine.py:176-259 | Every engine returns a number. A tax engine raises exactly when the income is not a number, and its tax is never negative. |
| `RuleEngines.Invoke` | Backend/calculator_engine.py:405-406 | An engine called with the whole context raises, naming every missing parameter, when one is unbound. |
| `RuleEngines.InvokeReadsOnlyParameters` | Backend/calculator_engine.py:176-259 | Context keys that are not parameters are absorbed by `**kwargs` and do not change the result. |
| `RuleEngines.MissingRuleExample` | Backend/calculator_engine.py:213 | Calling `emi_calculator` with only a principal raises, naming `annual_rate` and `tenure_months`. |
| `CalculatorEngine.ToFloat` | Backend/calculator_engine.py:310 | `float()` of a number is that number. |
| `CalculatorEngine.Collect` | Backend/calculator_engine.py:360-364 | The outputs are exactly the listed keys the context holds, with the context's values. |
| `CalculatorEngine.RunSteps` | Backend/calculator_engine.py:355-358 | There is one trace entry per step that ran. The run has no failure exactly when every step ran. |
| `CalculatorEngine.ExecutionOf` | Backend/calculator_engine.py:324-388 | Success holds exactly when there is no error. On success the trace has one entry per step, and never more than the number of steps. |
| `CalculatorEngine.CalculatorEngine.constructor` | Backend/calculator_engine.py:286-289 | A new engine has an empty context and an empty trace. |
| `CalculatorEngine.CalculatorEngine.ValidateInputs` | Backend/calculator_engine.py:291-322 | The loop returns every field's messages, in definition order. |
| `CalculatorEngine.CalculatorEngine.CheckInput` | Backend/calculator_engine.py:296-320 | One field's messages: "Missing required" for a required field that is absent or None; nothing else for an absent value; otherwise the range checks or the option check. |
| `CalculatorEngine.ValidationErrors` | Backend/calculator_engine.py:291-322 | Without fields there is no message, and each field contributes at most two. |
| `CalculatorEngine.LoadInputs` | Backend/calculator_engine.py:345-353 | The loaded context holds only keys of defined fields, and never None. |
| `CalculatorEngine.StepResult` | Backend/calculator_engine.py:390-421 | A non-empty expression is parsed and evaluated, and a parse failure raises "Invalid expression". Otherwise a named rule engine is looked up: an unknown name raises "Unknown rule engine", and a known one is called with the context. A step with neither raises. |
| `CalculatorEngine.CalculatorEngine.ExecuteStep` | Backend/calculator_engine.py:390-421 | On success the result is stored under the step id, and the trace entry holds the context from before the step. A step that raises leaves the context unchanged. |
| `CalculatorEngine.CalculatorEngine.Execute` | Backend/calculator_engine.py:324-388 | The result is `ExecutionOf`. The engine keeps the final context, and its trace is the result's steps. |
| `CalculatorEngine.CalculatorEngine.LoadContext` | Backend/calculator_engine.py:347-353 | Loading stores each field's value, or its default when absent; None is skipped and numbers are converted. It stops at the first conversion that raises. |
| `CalculatorEngine.CalculatorEngine.RunAllSteps` | Backend/calculator_engine.py:356-358 | The step loop equals `RunSteps` from the loaded context. |
| `CalculatorEngine.CalculatorEngine.CollectOutputs` | Backend/calculator_engine.py:361-364 | The output loop equals `Collect`. |
| `CalculatorEngine.LoadFailureStays` | Backend/calculator_engine.py:345-353 | Once a conversion raises, the later fields are not loaded. |
| `CalculatorEngine.RunFailureStays` | Backend/calculator_engine.py:356-358 | Once a step raises, the later steps do not run. |
| `CalculatorEngine.ValidationErrorsEmptyIff` | Backend/calculator_engine.py:291-322 | Validation passes exactly when no field reports a message. |
| `CalculatorEngine.MissingRequiredReported` | Backend/calculator_engine.py:300-302 | Every required field that is absent or None gets its own "Missing required input" message. |
| `CalculatorEngine.NothingSuppliedReportsRequired` | Backend/calculator_engine.py:300-305 | With nothing supplied, validation reports exactly the required fields, in order. |
| `CalculatorEngine.MissingRequiredFailsExecution` | Backend/calculator_engine.py:334-343 | A missing required input fails execution before any step, with no outputs and an error mentioning "required". |
| `CalculatorEngine.RequiredInputsLoaded` | Backend/calculator_engine.py:347-353 | After validation passes and loading does not raise, every required field is in the context. |
| `CalculatorEngine.RunStepsChains` | Backend/calculator_engine.py:390-412 | The trace entries follow the steps in order. Each one snapshots the context its predecessor left, and the final context is the one the last entry left. |
| `CalculatorEngine.RunStepsComputed` | Backend/calculator_engine.py:392-420 | Each trace entry records the value its step computes in the snapshot it holds. |
| `CalculatorEngine.RunStopsAtFailure` | Backend/calculator_engine.py:378-388 | A failed run stopped at the step that raised. Its error is that step's message, and the trace holds the steps before it. |
| `CalculatorEngine.ChainKeeps` | Backend/calculator_engine.py:411-412 | A step's result stays under its id through every later step that does not reuse the id. |
| `CalculatorEngine.ExecutionTrace` | Backend/calculator_engine.py:345-388 | After loading, the trace is linked and computed. A failure carries the message of the first step that raised. On success the final context is the one the trace leaves. |
| `CalculatorEngine.RunStoresUnderId` | Backend/calculator_engine.py:411-412 | After a complete run, each step's result is in the context under its id, unless a later step reuses the id. |
| `CalculatorEngine.StoredUnderId` | Backend/calculator_engine.py:355-364 | After a successful execution, a step's result is in the final context under its id and is reported when the id is an output. |
| `FallbackInsights.Clamp` | Backend/ai_service.py:250 | The clamped score lies in [20, 95], and scores already in range are unchanged. |
| `FallbackInsights.ScoreOf` | Backend/ai_service.py:221-250 | The score lies in [25, 95]. It is the raw score whenever that is at most 95. |
| `FallbackInsights.HealthScore` | Backend/ai_service.py:221-250 | The score built up by the `+=` chains and then clamped equals `ScoreOf` and lies in [20, 95]. |
| `FallbackInsights.FindGoalSummary` | Backend/ai_service.py:213-218 | The scan returns the summary of the first goal that carries one. |
| `FallbackInsights.FirstGoalSummaryIsFirst` | Backend/ai_service.py:213-218 | The summary found is that of the first goal carrying one. With none, it is the empty record. |
| `FallbackInsights.RawScoreRange` | Backend/ai_service.py:221-250 | The adjustments keep the raw score in [25, 100], so only the upper clamp can apply. |
| `FallbackInsights.ScoreMonotoneInSavings` | Backend/ai_service.py:223-228 | A higher savings rate never lowers the score. |
| `FallbackInsights.ScoreMonotoneInEmi` | Backend/ai_service.py:230-235 | A lighter EMI burden never lowers the score. |
| `FallbackInsights.ScoreMonotoneInGap` | Backend/ai_service.py:237-242 | A smaller retirement gap never lowers the score. |
| `FallbackInsights.StatusMonotone` | Backend/ai_service.py:252-259 | The status bands are ordered, so a higher score never gets a worse status. |
| `FallbackInsights.BuildRecommendations` | Backend/ai_service.py:261-313 | The loop with its running priority counter produces `RecommendationsOf`. |
| `FallbackInsights.RecommendationsOf` | Backend/ai_service.py:261-313 | There are never more than seven recommendations, since the goal scan stops at priority 5. |
| `FallbackInsights.GoalRecsPriorities` | Backend/ai_service.py:277-288 | Goal recommendations carry consecutive priorities. |
| `FallbackInsights.GoalRecsFromAtRisk` | Backend/ai_service.py:277-278 | Every goal recommendation comes from a CRITICAL or AT_RISK goal. |
| `FallbackInsights.GoalRecsCount` | Backend/ai_service.py:277-288 | The goal loop takes the at-risk goals until the priority passes 5. |
| `FallbackInsights.PrioritiesConsecutive` | Backend/ai_service.py:262-313 | Priorities are 1, 2, 3, ... in list order. |
| `FallbackInsights.RecommendationParts` | Backend/ai_service.py:261-313 | The list is the retirement, goal, debt and savings parts in that order, each numbered on from the previous. Goal recommendations never carry the other three categories. |
| `FallbackInsights.GoalCategoriesDiffer` | Backend/ai_service.py:276-288 | Every goal recommendation allocates to a goal and has none of the retirement, debt or savings categories. |
| `FallbackInsights.RetirementRecommendation` | Backend/ai_service.py:265-274 | A retirement recommendation exists exactly when the gap is positive. It is then first, with priority 1. |
| `FallbackInsights.DebtRecommendation` | Backend/ai_service.py:290-299 | A debt recommendation exists exactly when the EMI burden exceeds 40%, even after the goal loop stops. |
| `FallbackInsights.SavingsRecommendation` | Backend/ai_service.py:301-313 | A savings recommendation exists exactly when the savings rate is below 20%. |
| `FallbackInsights.SavingsIncreaseSuggested` | Backend/ai_service.py:302-309 | The suggested increase is max(0, 0.2 × inflow − leftover). |
| `FallbackInsights.BuildGoalInsights` | Backend/ai_service.py:315-344 | There is one insight per goal, in goal order, with the status label and advice for that goal. |
| `FallbackInsights.EmergencyFundOf` | Backend/ai_service.py:346-393 | Six months of expenses are required, against a tenth of the assets taken as liquid. The status is "Adequate" exactly when that tenth covers them. |
| `FallbackInsights.InsightsOf` | Backend/ai_service.py:199-410 | The report has a score in [25, 95] with its status band, three strengths, three concerns and at most seven recommendations. It has one insight per goal in goal order, the emergency fund, and a five-item plan. |
| `FallbackInsights.GenerateFallbackInsights` | Backend/ai_service.py:199-410 | The method's result is `InsightsOf` of the data. |
| `FallbackInsights.EmergencyFundConsistent` | Backend/ai_service.py:346-401 | The fund is "Adequate" exactly when 10% of the assets covers 6 months of expenses. The action plan's emergency item makes the same call. |
| `FallbackInsights.MissingSummaryDefaults` | Backend/ai_service.py:245-381 | Without a goal summary, the score treats the goals as not all feasible (-5). The concerns list, which defaults the flag to feasible, reports no funding shortfall. |
| `GeneratorService.ValidateDefinition` | Backend/calculator_generator_service.py:245-303 | The validation method returns `ValidationOf`. |
| `GeneratorService.ValidationOf` | Backend/calculator_generator_service.py:263-298 | A definition is valid exactly when nothing is reported and the semantic check passes. A failing semantic verdict fails the definition even when it lists no issue. |
| `GeneratorService.OutputErrorsEmptyIff` | Backend/calculator_generator_service.py:264-267 | The structural check finds nothing exactly when every output names a step. |
| `GeneratorService.OutputErrorsListDangling` | Backend/calculator_generator_service.py:265-267 | An output is reported exactly when it is listed and names no step. |
| `GeneratorService.ValidationVerdict` | Backend/calculator_generator_service.py:263-298 | A definition is valid exactly when every output names a step and the semantic check finds no issue. Each dangling output is reported. The semantic check is consulted only when there is none. |
| `GeneratorService.GenerationFailureReturnsToEliciting` | Backend/calculator_generator_service.py:578-587 | A generator failure returns to ELICITING with a trouble message. The draft and the errors are unchanged. |
| `GeneratorService.GeneratedDraftAwaitsApproval` | Backend/calculator_generator_service.py:589-655 | A generated draft always ends in AWAITING_APPROVAL. The healed draft replaces it exactly when the repair passes re-validation. The preview is the last message. |
| `GeneratorService.FailedValidationRecordsErrors` | Backend/calculator_generator_service.py:596-628 | After a failed validation the recorded errors are those of the last check run, and they are announced when there are any. |
| `GeneratorService.ValidDraftKeepsEarlierErrors` | Backend/calculator_generator_service.py:589-655 | A draft that validates first time leaves the earlier validation errors in place. Only the preview is added. |
| `GeneratorService.Advanced` | Backend/calculator_generator_service.py:567-655 | The requirements are stored and the description is kept. A generated definition always ends in AWAITING_APPROVAL with a draft. A generator failure returns to ELICITING and keeps the draft and the errors. |
| `GeneratorService.AdvancedExtends` | Backend/calculator_generator_service.py:567-655 | Generation appends at least one message and leaves ELICITING or AWAITING_APPROVAL. |
| `GeneratorService.UserMessageRecordedFirst` | Backend/calculator_generator_service.py:526-531 | The user's message is appended right after the earlier ones, before any reply. |
| `GeneratorService.ApprovalCompletes` | Backend/calculator_generator_service.py:552-559 | An approving reply to a draft completes the conversation and keeps the draft. |
| `GeneratorService.FeedbackRegenerates` | Backend/calculator_generator_service.py:560-563 | Any other reply to a draft is appended to the requirements as "Additional feedback" and triggers regeneration. |
| `GeneratorService.CompletionOnlyByApproval` | Backend/calculator_generator_service.py:533-565 | A conversation completes only through an approving reply, and a completed one only records further messages. |
| `GeneratorService.ContinuedSplits` | Backend/calculator_generator_service.py:524-565 | A reply's handling splits into the updated conversation and the requirements, if any, it regenerates from. |
| `GeneratorService.Started` | Backend/calculator_generator_service.py:470-504 | A new conversation keeps its description, category and jurisdiction, and its first message is the elicitation reply. Without complete requirements it stays ELICITING with that one message, no draft and no errors. With them, the requirements are stored. |
| `GeneratorService.Continued` | Backend/calculator_generator_service.py:524-565 | A reply keeps the description. In GENERATING or VALIDATING the message is only logged. A completed conversation holds the draft and errors it had before the reply, the ones the user approved. |
| `GeneratorService.StartedSettled` | Backend/calculator_generator_service.py:470-504 | A new conversation never rests in GENERATING or VALIDATING. |
| `GeneratorService.ContinuedSettled` | Backend/calculator_generator_service.py:524-565 | A reply leaves a settled conversation settled. |
| `GeneratorService.StoreSettled` | Backend/calculator_generator_service.py:493-548 | Storing a settled conversation keeps every stored conversation settled. |
| `GeneratorService.ValidateAndHeal` | Backend/calculator_generator_service.py:592-628 | The single validate-and-repair attempt yields the definition to present, the errors to record and the announcement. |
| `GeneratorService.HandleReply` | Backend/calculator_generator_service.py:526-563 | The reply handling, followed by generation when requirements are returned, is `Continued`. |
| `GeneratorService.ResponseOf` | Backend/calculator_generator_service.py:657-681 | A response is complete exactly when the conversation is COMPLETED. It carries the conversation's state, draft and messages. |
| `GeneratorService.Orchestrator.constructor` | Backend/calculator_generator_service.py:456-457 | The orchestrator starts with no conversations. |
| `GeneratorService.Orchestrator.StartGeneration` | Backend/calculator_generator_service.py:459-504 | The new conversation is stored under its id. If the requirements are complete it goes straight to generation, otherwise the reply is the eliciting message alone. |
| `GeneratorService.Orchestrator.ContinueGeneration` | Backend/calculator_generator_service.py:506-565 | An unknown id gets a "not found" ELICITING response and creates nothing. A known one is updated to `Continued`, and the response reflects it. |
| `GeneratorService.Orchestrator.StoreAndRespond` | Backend/calculator_generator_service.py:493-548 | The conversation is stored, advanced to generation when requirements are given, and answered from the store. |
| `GeneratorService.Orchestrator.AdvanceToGeneration` | Backend/calculator_generator_service.py:567-655 | The stored conversation becomes `Advanced`, and the response reflects it. |
| `GeneratorService.Orchestrator.BuildResponse` | Backend/calculator_generator_service.py:657-681 | The response is that of the stored conversation. |
| `GeneratorService.Orchestrator.GetDraftDefinition` | Backend/calculator_generator_service.py:683-691 | The result is None for an unknown id or a missing draft, and otherwise the draft. |
| `CalculatorCrud.BumpRendered` | Backend/calculator_crud.py:137-139 | "major.minor" becomes "major.(minor+1)". |
| `CalculatorCrud.BumpDotless` | Backend/calculator_crud.py:137-139 | A dotless "N" becomes "N.1". |
| `CalculatorCrud.BumpNth` | Backend/calculator_crud.py:137-139 | Bumping 1.k gives 1.(k+1). |
| `CalculatorCrud.BumpRejectsNonNumber` | Backend/calculator_crud.py:138 | A version such as "v1.0", whose major part is not an integer, makes `int()` raise instead of renumbering. |
| `CalculatorCrud.BumpVersion` | Backend/calculator_crud.py:137-139 | Renumbering succeeds exactly when the major part, and the minor part when there is one, parse as integers. Otherwise the error names the first part that fails: the major part when it does not parse, else the minor part. |
| `CalculatorCrud.NextVersionNumber` | Backend/calculator_crud.py:131-141 | The first version is 1.0, and after 1.k comes 1.(k+1). |
| `CalculatorCrud.Latest` | Backend/calculator_crud.py:161-168 | The newest version is one of the calculator's own versions. |
| `CalculatorCrud.IndexOf` | Backend/calculator_crud.py:156-158 | The position found holds a version with that id. With none found, no version has it. |
| `CalculatorCrud.FindVersion` | Backend/calculator_crud.py:156-158 | The lookup by id finds the version with that id, or reports that none exists. |
| `CalculatorCrud.LatestNumber` | Backend/calculator_crud.py:132-136 | In a consistently numbered table, a calculator's newest version is 1.(k-1), where k counts its versions. |
| `CalculatorCrud.NextVersionContinues` | Backend/calculator_crud.py:131-141 | The next version of a calculator with k versions is 1.k. Numbers run 1.0, 1.1, ... and never repeat. |
| `CalculatorCrud.LatestApproved` | Backend/calculator_crud.py:176-179 | The version found is one of the calculator's own approved versions. |
| `CalculatorCrud.LatestApprovedIsNewest` | Backend/calculator_crud.py:176-179 | The fallback finds an approved version exactly when one exists, with none approved after it. |
| `CalculatorCrud.AppendKeepsConsistent` | Backend/calculator_crud.py:143-152 | A freshly numbered version with a fresh id keeps the tables consistent. |
| `CalculatorCrud.RestatusKeepsConsistent` | Backend/calculator_crud.py:195-216 | Changing a version's status and approver keeps the tables consistent. |
| `CalculatorCrud.MakeCurrentKeepsConsistent` | Backend/calculator_crud.py:200-202 | Making one of its own versions current keeps the tables consistent. |
| `CalculatorCrud.ActiveVersion` | Backend/calculator_crud.py:171-181 | The result is the current version when one is set, whatever its status. Otherwise it is the newest approved version, or none. |
| `CalculatorCrud.ApprovedIsActive` | Backend/calculator_crud.py:184-207 | After approval, the approved version is the calculator's active version. |
| `CalculatorCrud.DeprecatedStaysActive` | Backend/calculator_crud.py:210-219 | A deprecated version is still returned as active while it is current. |
| `CalculatorCrud.Store.constructor` | Backend/calculator_models.py:23-96 | The calculator, version and conversation tables start empty and consistent. |
| `CalculatorCrud.Store.CreateCalculator` | Backend/calculator_crud.py:19-35 | A new calculator starts inactive with no current version. The other tables are unchanged. |
| `CalculatorCrud.Store.CreateVersion` | Backend/calculator_crud.py:124-153 | The new version is numbered after the newest one (1.0 first) and stored as a draft. A newest version that is not a number raises and stores nothing. |
| `CalculatorCrud.Store.GetActiveVersion` | Backend/calculator_crud.py:171-181 | The lookup returns `ActiveVersion` on the tables. |
| `CalculatorCrud.Store.ApproveVersion` | Backend/calculator_crud.py:184-207 | The version becomes approved with its approver, and its calculator makes it current and active. An unknown id changes nothing. |
| `CalculatorCrud.Store.DeprecateVersion` | Backend/calculator_crud.py:210-219 | Only the version's status changes. A calculator using it keeps it current. |
| `CalculatorCrud.Store.AddConversationMessage` | Backend/calculator_crud.py:319-341 | Exactly one message is appended after the earlier ones. An unknown id changes nothing. |
| `Text.ParseIntRoundTrip` | Backend/calculator_crud.py:138-139 | `int(str(n))` is n. |
| `Text.Lower` | Backend/engine.py:347 | Lower-casing maps each ASCII capital to its small letter and leaves every other character as it is, one for one. |
| `Text.SplitJoin` | Backend/calculator_crud.py:137 | Joining `split('.')` with "." gives the string back. |

## Left out

- Rounding. Every `round(x, 2)` and `round(x, 1)` in `Backend/engine.py` is dropped: the engine's figures are the unrounded reals. The rule engines' `round` goes through the `Math` value.
- Floating point. Numbers are exact reals, so NaN, infinities and overflow are not modelled. Integer and float values are not distinguished (`8 == 8.0`).
- `FinancialEngine.FinancialEngine.Calculate` requires `ValidAssumptions` (inflation and post-retirement return above -1, pre-retirement return above -12). Outside that range the source divides by zero or takes powers of a negative base.
- `FinancialEngine.FinancialEngine.CalculateGoals` returns the goal summary as a separate value instead of attaching `_summary` to the first goal's record.
- `FinancialEngine.RetirementCorpus` takes `pension_till_age` as a plain field. The `life_expectancy` fallback of `getattr` is not modelled.
- `FinancialEngine.FinancialEngine.Calculate` states the drawdown table through `IsCashflowTable` rather than as a function value.
- Fractional powers (`**` with a non-integral exponent, CAGR's root) come from the `pow` parameter. `RuleEngines.CagrGrowsToFinal` therefore assumes that `pow` returns the exact n-th root.
- `ExprEval.PyPow`: when the `Math` value has no real power (a negative base and a fractional exponent), the model raises `NonRealPower`. Python returns a complex number instead, so `abs((-8) ** 0.5)` is about 2.83 in Python and an error here.
- The evaluator's exception texts are approximated by a structured `EvalError`. String repetition (`"a" * 3`), `max`/`min` over a single iterable, and list or dict input values are not modelled.
- `ExprEval.CallBuiltin` models the builtins on numbers only, with `pow` taking exactly two arguments. Python's `max` and `min` also order strings (`max("a", "b")` is "b"), and three-argument `pow` is modular exponentiation on integers (`pow(2, 3, 5)` is 3). The model raises for both. Every call result is kept a number, and integers are not told apart from floats, which decides whether Python accepts a modulus.
- `ExprEval.ApplyBinOp`: `%` with a string on the left is printf-style formatting in Python (`"%d" % 5` is "5"). The model raises `BadOperands` for it.
- `ast.parse` and `float()` of a string are oracles in `Runtime`.
- `Text.ParseInt` refuses underscores between digits, which Python's `int()` accepts: "1_0" is 10 in Python and an `int()` error in the model.
- `Text.Lower` lower-cases ASCII capitals only. Name matching (`Backend/engine.py:347`, `:353` and `:603`) and approval matching (`Backend/calculator_generator_service.py:552`) are therefore case-insensitive for ASCII only. "ZOË" does not match "Zoë", and "OK" written with the Kelvin sign does not approve, where Python's `str.lower` would match both. Python's `str.lower` can also change a string's length ('İ' becomes two characters); the model's never does. `Text.Strip` and `Text.ParseInt` likewise accept only ASCII white space and ASCII digits.
- Execution time, `created_at`/`approved_at`/`updated_at` timestamps and message timestamps are not modelled.
- Versions are ordered by their position in the table (creation order) instead of by `created_at`.
- `CalculatorCrud.Store.CreateVersion` requires the calculator to exist, which the database's foreign key guarantees in the source.
- `create_conversation`, `update_conversation` and `complete_conversation` are not modelled. Conversations in the store are created only by the conversation records it is given.
- Calculator records hold the name, category, description, active flag and current version of the `calculators` table; its timestamps are left out. The definition's help text and tags (`CalculatorDefinition` in `Backend/calculator_schemas.py`) are not modelled, since nothing in the core reads them.
- The `calculation_logs` table, `log_calculation` and `get_calculation_logs` are not modelled: they only record executions.
- `FallbackInsights.GenerateFallbackInsights`: the executive summary, the retirement insight, the long-term strategy, the emergency-fund advice sentence and the `insurance_adequacy` advice (`Backend/ai_service.py:394-396`, cover of ten times the annual inflow) are omitted. The strengths, concerns, recommendations and plan items are modelled as the choices and figures their sentences are built from.
- The language-model agents, their prompts and `run_explanation_agent` are outside the model. Their answers come in as `AgentReplies`. The semantic validation verdict is `Option<seq<string>>`, with `None` meaning valid (a failed call also reads as valid, as in the source).
- The `dict` ordering of Python contexts and outputs is not modelled: they are Dafny maps.
