/**
 * The household planning engine: from a FullState it derives the linked EMI
 * and SIP totals, the retirement horizon and corpus, a SIP and a status per
 * goal, dashboard totals and ratios, the year-by-year retirement cash-flow
 * table, child goal plans, the contingency fund and the insurance cover.
 *
 * The clock, the floating-point power with a fractional exponent and
 * date.fromisoformat come in through an Env value.
 */
module FinancialEngine {
  import opened Wrappers
  import opened Numeric
  import opened Annuity
  import opened Text
  import opened PlanningTypes

  /** Today's day number, the power operator and the ISO date parser. */
  datatype Env = Env(today: int, pow: PowFn, parseIsoDate: string -> Option<int>)

  /**
   * Rates the engine can work with: the real rate divides by 1 + inflation,
   * and the corpus and its present value take integer powers of 1 + a rate.
   */
  predicate ValidAssumptions(a: Assumptions) {
    a.inflation > -1.0 && a.postRetireRoi > -1.0 && a.preRetireRoi > -12.0
  }

  const DaysPerYear: real := 365.25

  /** Age in years on day `today` of someone born on day `dob`. */
  function AgeOn(dob: int, today: int): real {
    (today - dob) as real / DaysPerYear
  }

  // ------------------------------------------------------------ linked totals

  function EmiOf(l: Liability): real { l.emi }

  function SipOf(i: Investment): real { i.monthlySip }

  function TotalEmis(ls: seq<Liability>): real { SumBy(ls, EmiOf) }

  function TotalSips(invs: seq<Investment>): real { SumBy(invs, SipOf) }

  /**
   * The state after the interconnection rules: linked EMIs are the sum of the
   * liabilities' EMIs, linked investments the sum of the investments' SIPs,
   * and nothing else differs.
   */
  function Relinked(s: FullState): (r: FullState)
    ensures r.cashFlow.outflows.linkedEmis == TotalEmis(s.liabilities)
    ensures r.cashFlow.outflows.linkedInvestments == TotalSips(s.assets.investments)
    ensures r.userProfile == s.userProfile && r.goals == s.goals && r.assets == s.assets
    ensures r.liabilities == s.liabilities && r.assumptions == s.assumptions
    ensures r.cashFlow.inflows == s.cashFlow.inflows
    ensures r.cashFlow.outflows.essential == s.cashFlow.outflows.essential
    ensures r.cashFlow.outflows.lifestyle == s.cashFlow.outflows.lifestyle
    ensures r.cashFlow.outflows.essentialDetails == s.cashFlow.outflows.essentialDetails
    ensures r.cashFlow.outflows.lifestyleDetails == s.cashFlow.outflows.lifestyleDetails
  {
    var o := s.cashFlow.outflows;
    var o' := o.(linkedEmis := TotalEmis(s.liabilities), linkedInvestments := TotalSips(s.assets.investments));
    s.(cashFlow := s.cashFlow.(outflows := o'))
  }

  /** Re-deriving the linked totals a second time changes nothing. */
  lemma RelinkedIdempotent(s: FullState)
    ensures Relinked(Relinked(s)) == Relinked(s)
  {
  }

  /** The linked totals depend only on the lists, whatever was stored before. */
  lemma RelinkedForgetsStoredTotals(s: FullState, emis: real, sips: real)
    ensures var o := s.cashFlow.outflows.(linkedEmis := emis, linkedInvestments := sips);
            Relinked(s.(cashFlow := s.cashFlow.(outflows := o))) == Relinked(s)
  {
  }

  /** The seeded household: two loans and two SIPs. */
  lemma SeedLinkedTotals(s: FullState)
    requires s.liabilities == [Liability(3000000.0, 35000.0, 8.5, 180), Liability(400000.0, 18000.0, 9.0, 48)]
    requires s.assets.investments == [Investment(2500000.0, 25000.0), Investment(800000.0, 10000.0)]
    ensures Relinked(s).cashFlow.outflows.linkedEmis == 53000.0
    ensures Relinked(s).cashFlow.outflows.linkedInvestments == 35000.0
  {
    var ls := s.liabilities;
    SumBySnoc([], ls[0], EmiOf);
    SumBySnoc([ls[0]], ls[1], EmiOf);
    assert [] + [ls[0]] == [ls[0]] && [ls[0]] + [ls[1]] == ls;
    var invs := s.assets.investments;
    SumBySnoc([], invs[0], SipOf);
    SumBySnoc([invs[0]], invs[1], SipOf);
    assert [] + [invs[0]] == [invs[0]] && [invs[0]] + [invs[1]] == invs;
  }

  // ------------------------------------------------------------ time metrics

  /**
   * Current age, retirement age, and the horizon to retirement in years and
   * in whole months (int() of years * 12, which truncates), both clamped at 0.
   */
  function TimeMetricsOf(p: PrimaryUser, today: int): (m: TimeMetrics)
    ensures m.currentAge == AgeOn(p.dob, today) && m.retirementAge == p.retirementAge
    ensures m.yearsToRetire >= 0.0 && m.monthsToRetire >= 0
    ensures m.currentAge <= p.retirementAge as real ==> m.yearsToRetire == p.retirementAge as real - m.currentAge
    ensures m.currentAge > p.retirementAge as real ==> m.yearsToRetire == 0.0
    ensures m.monthsToRetire as real <= m.yearsToRetire * 12.0 < m.monthsToRetire as real + 1.0
  {
    var age := AgeOn(p.dob, today);
    var years := p.retirementAge as real - age;
    var months := Trunc(years * 12.0);
    TimeMetrics(age, p.retirementAge, MaxR(0.0, years), MaxI(0, months))
  }

  // ------------------------------------------------------------ expenses

  function EssentialItemised(d: EssentialExpenses): real {
    d.houseRent + d.maintenance + d.propertyTax + d.utilities + d.groceries
      + d.transportation + d.medicalExpenses + d.childrenSchoolFees
      + d.insurancePremiums + d.other
  }

  function LifestyleItemised(d: LifestyleExpenses): real {
    d.maidExpense + d.shopping + d.travel + d.diningEntertainment + d.other
  }

  /** Essential spending: the itemised total when a breakdown exists, else the aggregate. */
  function EssentialTotal(o: Outflows): real {
    match o.essentialDetails
    case Some(d) => EssentialItemised(d)
    case None => o.essential
  }

  function LifestyleTotal(o: Outflows): real {
    match o.lifestyleDetails
    case Some(d) => LifestyleItemised(d)
    case None => o.lifestyle
  }

  /** The retirement expense baseline: essential plus lifestyle spending. */
  function MonthlyExpenses(o: Outflows): (r: real)
    ensures o.essentialDetails.None? && o.lifestyleDetails.None? ==> r == o.essential + o.lifestyle
    ensures o.essentialDetails.Some? ==> r == EssentialItemised(o.essentialDetails.value) + LifestyleTotal(o)
    ensures o.lifestyleDetails.Some? ==> r == EssentialTotal(o) + LifestyleItemised(o.lifestyleDetails.value)
  {
    EssentialTotal(o) + LifestyleTotal(o)
  }

  /** EMIs and investments never enter the expense baseline. */
  lemma MonthlyExpensesExcludeLinked(o: Outflows, emis: real, sips: real)
    ensures MonthlyExpenses(o.(linkedEmis := emis, linkedInvestments := sips)) == MonthlyExpenses(o)
  {
  }

  /** An itemised breakdown overrides the aggregate it replaces. */
  lemma DetailsOverrideAggregates(o: Outflows, essential: real, lifestyle: real)
    requires o.essentialDetails.Some? && o.lifestyleDetails.Some?
    ensures MonthlyExpenses(o.(essential := essential, lifestyle := lifestyle)) == MonthlyExpenses(o)
  {
  }

  /** Everything that leaves the household each month, EMIs and SIPs included. */
  function TotalOutflow(o: Outflows): real {
    EssentialTotal(o) + LifestyleTotal(o) + o.linkedEmis + o.linkedInvestments
  }

  function TotalInflow(i: Inflows): real {
    i.primaryIncome + i.spouseIncome + i.rentalIncome + i.additionalIncome + i.other
  }

  // ------------------------------------------------------------ retirement

  /** ((1 + post-retirement return) / (1 + inflation)) - 1. */
  function RealRate(postRetireRoi: real, inflation: real): (r: real)
    requires inflation > -1.0 && postRetireRoi > -1.0
    ensures r > -1.0
    ensures r == 0.0 <==> postRetireRoi == inflation
    ensures r > 0.0 <==> postRetireRoi > inflation
  {
    DivMul(1.0 + postRetireRoi, 1.0 + inflation);
    (1.0 + postRetireRoi) / (1.0 + inflation) - 1.0
  }

  /**
   * Corpus needed at retirement for pensionYears annual withdrawals of
   * `annual` at real rate `realRate`: annual * pensionYears when the rate is
   * zero, else annual * (1 - (1 + realRate)^-pensionYears) / realRate.
   */
  function CorpusRequired(annual: real, realRate: real, pensionYears: int): real
    requires realRate > -1.0
  {
    if realRate == 0.0 then annual * pensionYears as real
    else annual * (1.0 - IntPowZ(1.0 + realRate, -pensionYears)) / realRate
  }

  /** The corpus is the present value of the withdrawals, one per pension year. */
  lemma CorpusIsPresentValue(annual: real, realRate: real, pensionYears: nat)
    requires realRate > -1.0
    ensures CorpusRequired(annual, realRate, pensionYears) == DiscountedSum(annual, realRate, pensionYears)
  {
    if realRate == 0.0 {
      DiscountedSumZeroRate(annual, pensionYears);
    } else {
      IntPowZNegated(1.0 + realRate, pensionYears);
      PresentValueClosedForm(annual, realRate, pensionYears);
    }
  }

  /**
   * Retirement figures for state s (its assumptions' rates being valid):
   * today's expense baseline, that expense inflated to retirement (year by
   * year when the years to retirement are whole), the real rate, and no
   * corpus at all when there are no pension years.
   */
  function RetirementOf(s: FullState, env: Env): (r: Retirement)
    requires ValidAssumptions(s.assumptions)
    ensures r.currentMonthlyExpenses == MonthlyExpenses(s.cashFlow.outflows)
    ensures r.realRate == RealRate(s.assumptions.postRetireRoi, s.assumptions.inflation)
    ensures r.pensionYears == s.userProfile.primary.pensionTillAge - s.userProfile.primary.retirementAge
    ensures r.pensionYears == 0 ==> r.corpusRequired == 0.0
    ensures forall k: nat {:trigger IntPow(1.0 + s.assumptions.inflation, k)} ::
              AgreesWithIntPow(env.pow) && TimeMetricsOf(s.userProfile.primary, env.today).yearsToRetire == k as real ==>
                r.expenseAtRetirementMonthly == r.currentMonthlyExpenses * IntPow(1.0 + s.assumptions.inflation, k)
  {
    var a := s.assumptions;
    var primary := s.userProfile.primary;
    var m := TimeMetricsOf(primary, env.today);
    var expense := MonthlyExpenses(s.cashFlow.outflows);
    var atRetirement := expense * env.pow(1.0 + a.inflation, m.yearsToRetire);
    var realRate := RealRate(a.postRetireRoi, a.inflation);
    var pensionYears := primary.pensionTillAge - primary.retirementAge;
    var corpus := CorpusRequired(atRetirement * 12.0, realRate, pensionYears);
    var monthlyRate := a.preRetireRoi / 12.0;
    IntPowPositive(1.0 + monthlyRate, m.monthsToRetire);
    var now := if m.monthsToRetire > 0 then corpus / IntPow(1.0 + monthlyRate, m.monthsToRetire) else corpus;
    Retirement(expense, atRetirement, realRate, pensionYears, corpus, now)
  }

  /**
   * The corpus covers pensionYears annual withdrawals of twelve months'
   * expenses at retirement: their sum when the real rate is zero (exactly
   * when the post-retirement return equals inflation), and in every case
   * their present value at the real rate.
   */
  lemma RetirementCorpus(s: FullState, env: Env)
    requires ValidAssumptions(s.assumptions)
    ensures var a := s.assumptions;
            var r := RetirementOf(s, env);
            var annual := r.expenseAtRetirementMonthly * 12.0;
            r.currentMonthlyExpenses == MonthlyExpenses(s.cashFlow.outflows)
            && r.pensionYears == s.userProfile.primary.pensionTillAge - s.userProfile.primary.retirementAge
            && (r.realRate == 0.0 <==> a.postRetireRoi == a.inflation)
            && (r.realRate == 0.0 ==> r.corpusRequired == annual * r.pensionYears as real)
            && (r.pensionYears >= 0 ==> r.corpusRequired == DiscountedSum(annual, r.realRate, r.pensionYears))
  {
    var r := RetirementOf(s, env);
    if r.pensionYears >= 0 {
      CorpusIsPresentValue(r.expenseAtRetirementMonthly * 12.0, r.realRate, r.pensionYears);
    }
  }

  /**
   * The money needed today is the corpus when retirement is not in the
   * future, and otherwise grows into the corpus at the monthly
   * pre-retirement rate over the months left.
   */
  lemma MoneyToRetireNowGrowsToCorpus(s: FullState, env: Env)
    requires ValidAssumptions(s.assumptions)
    ensures var r := RetirementOf(s, env);
            var months := TimeMetricsOf(s.userProfile.primary, env.today).monthsToRetire;
            (months == 0 ==> r.moneyToRetireNow == r.corpusRequired)
            && r.moneyToRetireNow * IntPow(1.0 + s.assumptions.preRetireRoi / 12.0, months) == r.corpusRequired
  {
    var r := RetirementOf(s, env);
    var months := TimeMetricsOf(s.userProfile.primary, env.today).monthsToRetire;
    var growth := IntPow(1.0 + s.assumptions.preRetireRoi / 12.0, months);
    IntPowPositive(1.0 + s.assumptions.preRetireRoi / 12.0, months);
    if months > 0 {
      DivMul(r.corpusRequired, growth);
    }
  }

  // ------------------------------------------------------------ people

  /** A Python string value is truthy when present and non-empty. */
  predicate Named(n: Option<string>) {
    n.Some? && n.value != ""
  }

  /** A family member answers to `name` (ignoring case) and has a birth date. */
  predicate AgeKnown(m: FamilyMember, name: string) {
    SameName(m.name, name) && m.dob.Some?
  }

  /** Age of the first family member in list order that answers to `name` and has a birth date. */
  function FirstMemberAge(members: seq<FamilyMember>, name: string, today: int): Option<real> {
    if members == [] then None
    else if AgeKnown(members[0], name) then Some(AgeOn(members[0].dob.value, today))
    else FirstMemberAge(members[1..], name, today)
  }

  lemma {:induction false} FirstMemberAgeIsFirst(members: seq<FamilyMember>, name: string, today: int)
    ensures FirstMemberAge(members, name, today).None? <==> forall i :: 0 <= i < |members| ==> !AgeKnown(members[i], name)
    ensures FirstMemberAge(members, name, today).Some? ==>
              exists i :: 0 <= i < |members| && AgeKnown(members[i], name)
                          && (forall j :: 0 <= j < i ==> !AgeKnown(members[j], name))
                          && FirstMemberAge(members, name, today).value == AgeOn(members[i].dob.value, today)
  {
    if members != [] && !AgeKnown(members[0], name) {
      FirstMemberAgeIsFirst(members[1..], name, today);
      var r := FirstMemberAge(members[1..], name, today);
      if r.Some? {
        var i :| 0 <= i < |members| - 1 && AgeKnown(members[1..][i], name)
                 && (forall j :: 0 <= j < i ==> !AgeKnown(members[1..][j], name))
                 && r.value == AgeOn(members[1..][i].dob.value, today);
        assert AgeKnown(members[i + 1], name);
        assert forall j :: 0 <= j < i + 1 ==> !AgeKnown(members[j], name) by {
          forall j | 0 <= j < i + 1 ensures !AgeKnown(members[j], name) {
            if j > 0 {
              assert members[j] == members[1..][j - 1];
            }
          }
        }
      } else {
        assert forall i :: 0 <= i < |members| ==> !AgeKnown(members[i], name) by {
          forall i | 0 <= i < |members| ensures !AgeKnown(members[i], name) {
            if i > 0 {
              assert members[i] == members[1..][i - 1];
            }
          }
        }
      }
    }
  }

  /**
   * The age of the person a goal names: the first family member of that name
   * with a birth date, else the spouse of that name, else unknown.
   */
  function MemberAge(profile: UserProfile, name: string, today: int): (r: Option<real>)
    ensures r.None? <==> FirstMemberAge(profile.familyMembers, name, today).None?
                         && !(profile.spouse.Some? && SameName(profile.spouse.value.name, name))
    ensures FirstMemberAge(profile.familyMembers, name, today).Some? ==> r == FirstMemberAge(profile.familyMembers, name, today)
    ensures FirstMemberAge(profile.familyMembers, name, today).None? && r.Some? ==>
              r == Some(AgeOn(profile.spouse.value.dob, today))
  {
    match FirstMemberAge(profile.familyMembers, name, today)
    case Some(age) => Some(age)
    case None =>
      if profile.spouse.Some? && SameName(profile.spouse.value.name, name) then
        Some(AgeOn(profile.spouse.value.dob, today))
      else None
  }

  // ------------------------------------------------------------ goals

  /** What every goal's analysis shares: ages, rates and the monthly surplus. */
  datatype GoalContext = GoalContext(
    profile: UserProfile,
    currentAge: real,
    inflation: real,
    monthlyRate: real,
    surplus: real,
    env: Env)

  /** The monthly surplus for goals: inflow less every outflow, never negative. */
  function Surplus(c: CashFlow): (r: real)
    ensures r >= 0.0
    ensures r >= TotalInflow(c.inflows) - TotalOutflow(c.outflows)
    ensures r == 0.0 || r == TotalInflow(c.inflows) - TotalOutflow(c.outflows)
  {
    MaxR(0.0, TotalInflow(c.inflows) - TotalOutflow(c.outflows))
  }

  function GoalContextOf(s: FullState, env: Env): GoalContext {
    GoalContext(
      s.userProfile,
      TimeMetricsOf(s.userProfile.primary, env.today).currentAge,
      s.assumptions.inflation,
      s.assumptions.preRetireRoi / 12.0,
      Surplus(s.cashFlow),
      env)
  }

  /** The text of the ValueError int() raises on a non-integer string. */
  function IntLiteralError(text: string): string {
    "invalid literal for int() with base 10: '" + text + "'"
  }

  /**
   * Years until the goal, before clamping. An AGE target counts from the
   * named person's age, falling back to the primary user's age when no such
   * person is known, and raises when the target is not an integer. A DATE
   * target that does not parse gives 0.
   */
  function YearsToGoal(g: Goal, ctx: GoalContext): Result<real, string> {
    match g.targetType
    case AgeTarget =>
      (match ParseInt(g.targetValue)
       case None => Err(IntLiteralError(g.targetValue))
       case Some(target) =>
         var age :=
           if Named(g.personName) then MemberAge(ctx.profile, g.personName.value, ctx.env.today).GetOr(ctx.currentAge)
           else ctx.currentAge;
         Ok(target as real - age))
    case DateTarget =>
      match ctx.env.parseIsoDate(g.targetValue)
      case Some(day) => Ok((day - ctx.env.today) as real / DaysPerYear)
      case None => Ok(0.0)
  }

  /**
   * The monthly SIP that funds futureCost: the ordinary-annuity payment when
   * there are months left and the rate is positive, an even split at a
   * non-positive rate, and the whole cost when no month is left.
   */
  function GoalSip(futureCost: real, monthlyRate: real, months: int): (sip: real)
    ensures months > 0 && monthlyRate > 0.0 ==> AccumulatedSum(sip, monthlyRate, months) == futureCost
    ensures months > 0 && monthlyRate <= 0.0 ==> sip * months as real == futureCost
    ensures months <= 0 ==> sip == futureCost
  {
    if months > 0 && monthlyRate > 0.0 then
      PaymentOrdinaryInverts(futureCost, monthlyRate, months);
      PaymentOrdinary(futureCost, monthlyRate, months)
    else if months > 0 then
      DivMul(futureCost, months as real);
      futureCost / months as real
    else futureCost
  }

  const OnTrackShare: real := 0.3
  const NeedsAttentionShare: real := 0.6

  /**
   * Goal status from the months left, the SIP it needs and the surplus:
   * past due when no month is left, achieved when nothing more is needed,
   * then by the share of the surplus the SIP takes (30%, 60%, all of it).
   */
  function StatusOf(months: int, sip: real, surplus: real): (st: GoalStatus)
    ensures st == PastDue <==> months <= 0
    ensures st == Achieved <==> months > 0 && sip <= 0.0
    ensures st == Critical <==> months > 0 && sip > 0.0 && sip > surplus
    ensures st == OnTrack ==> sip <= surplus * OnTrackShare
    ensures st == NeedsAttention ==> surplus * OnTrackShare < sip <= surplus * NeedsAttentionShare
    ensures st == AtRisk ==> surplus * NeedsAttentionShare < sip <= surplus
  {
    if months <= 0 then PastDue
    else if sip <= 0.0 then Achieved
    else if sip <= surplus * OnTrackShare then OnTrack
    else if sip <= surplus * NeedsAttentionShare then NeedsAttention
    else if sip <= surplus then AtRisk
    else Critical
  }

  /** How bad a status is, for goals that are not past due. */
  function Severity(st: GoalStatus): nat {
    match st
    case Achieved => 0
    case OnTrack => 1
    case NeedsAttention => 2
    case AtRisk => 3
    case Critical => 4
    case PastDue => 5
  }

  /** Needing a larger SIP never earns a better status. */
  lemma StatusMonotone(months: int, sip1: real, sip2: real, surplus: real)
    requires months > 0 && surplus >= 0.0 && sip1 <= sip2
    ensures Severity(StatusOf(months, sip1, surplus)) <= Severity(StatusOf(months, sip2, surplus))
  {
  }

  function Feasibility(st: GoalStatus): string {
    match st
    case PastDue => "Critical"
    case Achieved => "Excellent"
    case OnTrack => "Highly Achievable"
    case NeedsAttention => "Achievable with Focus"
    case AtRisk => "Challenging"
    case Critical => "Needs Revision"
  }

  /** The share of the surplus a goal's SIP takes, in percent, capped at 100. */
  function AllocationPercent(sip: real, surplus: real): (r: real)
    requires surplus >= 0.0
    ensures r <= 100.0
    ensures surplus == 0.0 ==> r == 100.0
    ensures surplus > 0.0 ==> (r == 100.0 <==> sip >= surplus)
    ensures surplus > 0.0 && sip < surplus ==> r * surplus == sip * 100.0
  {
    if surplus > 0.0 then
      DivMul(sip, surplus);
      ShareBelowWhole(sip, surplus);
      MinR(sip / surplus * 100.0, 100.0)
    else MinR(100.0, 100.0)
  }

  lemma ShareBelowWhole(part: real, whole: real)
    requires whole > 0.0
    ensures part / whole * 100.0 < 100.0 <==> part < whole
  {
    DivMul(part, whole);
    if part < whole {
      assert part / whole * whole < 1.0 * whole;
    } else {
      assert part / whole * whole >= 1.0 * whole;
    }
  }

  /** The analysis of a goal `rawYears` years away (negative meaning overdue). */
  function AnalysisFor(g: Goal, rawYears: real, ctx: GoalContext): GoalAnalysis
    requires ctx.surplus >= 0.0
  {
    var years := MaxR(0.0, rawYears);
    var months := Trunc(years * 12.0);
    var futureCost := g.currentCost * ctx.env.pow(1.0 + ctx.inflation, years);
    var sip := GoalSip(futureCost, ctx.monthlyRate, months);
    var status := StatusOf(months, sip, ctx.surplus);
    GoalAnalysis(g.id, g.name, g.personName, g.currentCost, years, months, futureCost,
                 sip, status, Feasibility(status), AllocationPercent(sip, ctx.surplus))
  }

  /**
   * The analysis of one goal, or the error its target raises. A record
   * carries the goal's identity and cost, and its SIP, status, feasibility
   * and share of the surplus are those of its own months and future cost.
   */
  function AnalyzeGoal(g: Goal, ctx: GoalContext): (r: Result<GoalAnalysis, string>)
    requires ctx.surplus >= 0.0
    ensures r.Err? ==> g.targetType == AgeTarget
    ensures r.Ok? ==>
              var a := r.value;
              a.id == g.id && a.name == g.name && a.personName == g.personName && a.currentCost == g.currentCost
              && a.monthlySipRequired == GoalSip(a.futureCost, ctx.monthlyRate, a.monthsToGoal)
              && a.status == StatusOf(a.monthsToGoal, a.monthlySipRequired, ctx.surplus)
              && a.feasibility == Feasibility(a.status)
              && a.surplusAllocationPercent == AllocationPercent(a.monthlySipRequired, ctx.surplus)
  {
    match YearsToGoal(g, ctx)
    case Err(e) => Err(e)
    case Ok(raw) => Ok(AnalysisFor(g, raw, ctx))
  }

  /**
   * A goal fails only on an AGE target that is not an integer. Otherwise its
   * horizon is never negative, its months are the whole months in it, it is
   * past due exactly when no month is left, and its SIP accumulates to the
   * inflated cost by the goal date.
   */
  lemma AnalyzeGoalFacts(g: Goal, ctx: GoalContext)
    requires ctx.surplus >= 0.0
    ensures AnalyzeGoal(g, ctx).Err? <==> g.targetType == AgeTarget && ParseInt(g.targetValue).None?
    ensures AnalyzeGoal(g, ctx).Ok? ==>
              var a := AnalyzeGoal(g, ctx).value;
              a.yearsToGoal >= 0.0 && a.monthsToGoal >= 0
              && a.monthsToGoal as real <= a.yearsToGoal * 12.0 < a.monthsToGoal as real + 1.0
              && (a.status == PastDue <==> a.monthsToGoal == 0)
              && a.surplusAllocationPercent <= 100.0
              && (a.monthsToGoal > 0 && ctx.monthlyRate > 0.0 ==>
                    AccumulatedSum(a.monthlySipRequired, ctx.monthlyRate, a.monthsToGoal) == a.futureCost)
  {
  }

  /** The goal analyses in goal order, or the first goal's error. */
  function GoalsSpec(goals: seq<Goal>, ctx: GoalContext): (r: Result<seq<GoalAnalysis>, string>)
    requires ctx.surplus >= 0.0
    ensures r.Ok? ==> |r.value| == |goals|
  {
    if goals == [] then Ok([])
    else
      match GoalsSpec(goals[..|goals| - 1], ctx)
      case Err(e) => Err(e)
      case Ok(prev) =>
        match AnalyzeGoal(goals[|goals| - 1], ctx)
        case Err(e) => Err(e)
        case Ok(a) => Ok(prev + [a])
  }

  /** The goal analyses succeed exactly when every goal's analysis does. */
  lemma {:induction false} GoalsSpecOk(goals: seq<Goal>, ctx: GoalContext)
    requires ctx.surplus >= 0.0
    ensures GoalsSpec(goals, ctx).Ok? <==> forall i :: 0 <= i < |goals| ==> AnalyzeGoal(goals[i], ctx).Ok?
  {
    if goals != [] {
      var init := goals[..|goals| - 1];
      GoalsSpecOk(init, ctx);
      assert forall i :: 0 <= i < |init| ==> init[i] == goals[i];
    }
  }

  /** On success, the i-th analysis is the analysis of the i-th goal. */
  lemma {:induction false} GoalsSpecValues(goals: seq<Goal>, ctx: GoalContext)
    requires ctx.surplus >= 0.0
    ensures GoalsSpec(goals, ctx).Ok? ==>
              forall i :: 0 <= i < |goals| ==>
                AnalyzeGoal(goals[i], ctx).Ok? && GoalsSpec(goals, ctx).value[i] == AnalyzeGoal(goals[i], ctx).value
  {
    if goals != [] {
      var init := goals[..|goals| - 1];
      GoalsSpecValues(init, ctx);
      assert forall i :: 0 <= i < |init| ==> init[i] == goals[i];
    }
  }

  function SipRequired(a: GoalAnalysis): real { a.monthlySipRequired }

  /** Goals are all feasible together exactly when their SIPs fit in the surplus. */
  function SummaryOf(totalSip: real, surplus: real): (r: GoalSummary)
    ensures r.allGoalsFeasible <==> totalSip <= surplus
    ensures r.totalMonthlySip + r.surplusAfterGoals == surplus
  {
    GoalSummary(totalSip, surplus, surplus - totalSip, surplus - totalSip >= 0.0)
  }

  // ------------------------------------------------------------ dashboard

  function PresentValueOf(x: RealEstate): real { x.presentValue }
  function BalanceOf(b: BankAccount): real { b.balance }
  function CurrentValueOf(i: Investment): real { i.currentValue }
  function MaturityOf(p: InsurancePolicy): real { p.maturityAmount.GetOr(0.0) }
  function OutstandingOf(l: Liability): real { l.outstanding }

  /** Every holding counts once: the investible assets plus property and policy maturities. */
  function TotalAssets(a: Assets): (r: real)
    ensures r == InvestibleAssets(a) + SumBy(a.realEstate, PresentValueOf) + SumBy(a.insurancePolicies, MaturityOf)
    ensures a.realEstate == [] && a.bankAccounts == [] && a.investments == [] && a.insurancePolicies == [] ==>
              r == a.liquidCash
  {
    SumBy(a.realEstate, PresentValueOf) + SumBy(a.bankAccounts, BalanceOf)
      + SumBy(a.investments, CurrentValueOf) + SumBy(a.insurancePolicies, MaturityOf) + a.liquidCash
  }

  /** The outstanding balances added up: none without liabilities, never negative when no balance is. */
  function TotalLiabilities(ls: seq<Liability>): (r: real)
    ensures ls == [] ==> r == 0.0
    ensures (forall i :: 0 <= i < |ls| ==> ls[i].outstanding >= 0.0) ==> r >= 0.0
  {
    SumByNonNegative(ls, OutstandingOf);
    SumBy(ls, OutstandingOf)
  }

  /** Financial assets that can be invested: investments, bank balances and cash. */
  function InvestibleAssets(a: Assets): real {
    SumBy(a.investments, CurrentValueOf) + SumBy(a.bankAccounts, BalanceOf) + a.liquidCash
  }

  /**
   * Savings, EMI, investment, essential and lifestyle spending as percentages
   * of inflow; all zero when there is no inflow.
   */
  function RatiosOf(inflow: real, essential: real, lifestyle: real, emis: real, investments: real): (r: Ratios)
    ensures inflow > 0.0 ==>
              r.savingsRate + r.emiBurden + r.investmentRate + r.essentialPercent + r.lifestylePercent == 100.0
    ensures inflow > 0.0 ==>
              r.emiBurden * inflow == emis * 100.0 && r.investmentRate * inflow == investments * 100.0
              && r.essentialPercent * inflow == essential * 100.0 && r.lifestylePercent * inflow == lifestyle * 100.0
              && r.savingsRate * inflow == (inflow - (essential + lifestyle + emis + investments)) * 100.0
    ensures inflow <= 0.0 ==> r == Ratios(0.0, 0.0, 0.0, 0.0, 0.0)
  {
    if inflow > 0.0 then
      var leftover := inflow - (essential + lifestyle + emis + investments);
      SharesSumToWhole(inflow, leftover, emis, investments, essential, lifestyle);
      Ratios(leftover / inflow * 100.0, emis / inflow * 100.0, investments / inflow * 100.0,
             essential / inflow * 100.0, lifestyle / inflow * 100.0)
    else Ratios(0.0, 0.0, 0.0, 0.0, 0.0)
  }

  lemma SharesSumToWhole(x: real, a: real, b: real, c: real, d: real, e: real)
    requires x > 0.0 && a + b + c + d + e == x
    ensures a / x * 100.0 + b / x * 100.0 + c / x * 100.0 + d / x * 100.0 + e / x * 100.0 == 100.0
    ensures a / x * 100.0 * x == a * 100.0 && b / x * 100.0 * x == b * 100.0 && c / x * 100.0 * x == c * 100.0
    ensures d / x * 100.0 * x == d * 100.0 && e / x * 100.0 * x == e * 100.0
  {
    DivMul(a, x);
    DivMul(b, x);
    DivMul(c, x);
    DivMul(d, x);
    DivMul(e, x);
    var t := a / x * 100.0 + b / x * 100.0 + c / x * 100.0 + d / x * 100.0 + e / x * 100.0;
    assert t * x == (a + b + c + d + e) * 100.0;
    MulCancel(t, 100.0, x);
  }

  /**
   * Future value of the current SIP at retirement: the annuity-due value at
   * a positive rate with months left, else the plain sum of the payments.
   */
  function SipFutureValue(sip: real, monthlyRate: real, months: int): (r: real)
    ensures monthlyRate > 0.0 && months > 0 ==> r == AccumulatedDueSum(sip, monthlyRate, months)
    ensures !(monthlyRate > 0.0 && months > 0) ==> r == sip * months as real
  {
    if monthlyRate > 0.0 && months > 0 then
      DueClosedForm(sip, monthlyRate, months);
      FutureValueDue(sip, monthlyRate, months)
    else sip * months as real
  }

  /**
   * The extra monthly SIP that closes a positive retirement gap by
   * retirement: the annuity-due payment at a positive rate, an even split
   * otherwise; none when there is no gap or no month left.
   */
  function ExtraSip(gap: real, monthlyRate: real, months: int): (x: real)
    ensures gap <= 0.0 || months <= 0 ==> x == 0.0
    ensures gap > 0.0 && months > 0 && monthlyRate > 0.0 ==> AccumulatedDueSum(x, monthlyRate, months) == gap
    ensures gap > 0.0 && months > 0 && monthlyRate <= 0.0 ==> x * months as real == gap
  {
    if gap > 0.0 && months > 0 then
      if monthlyRate > 0.0 then
        PaymentDueInverts(gap, monthlyRate, months);
        PaymentDue(gap, monthlyRate, months)
      else
        DivMul(gap, months as real);
        gap / months as real
    else 0.0
  }

  /** The monthly rate before retirement. */
  function PreRetireMonthlyRate(s: FullState): real {
    s.assumptions.preRetireRoi / 12.0
  }

  /** Months from today until the primary person retires. */
  function MonthsToRetire(s: FullState, today: int): int {
    TimeMetricsOf(s.userProfile.primary, today).monthsToRetire
  }

  /** The investible assets compounded monthly up to retirement. */
  function LumpsumAtRetirement(s: FullState, today: int): real {
    InvestibleAssets(s.assets) * IntPow(1.0 + PreRetireMonthlyRate(s), MonthsToRetire(s, today))
  }

  /** The corpus projected at retirement: the grown lumpsum plus the grown current SIP. */
  function ProjectedCorpusOf(s: FullState, today: int): real {
    LumpsumAtRetirement(s, today)
      + SipFutureValue(s.cashFlow.outflows.linkedInvestments, PreRetireMonthlyRate(s), MonthsToRetire(s, today))
  }

  /**
   * The dashboard, given the corpus the retirement analysis requires. Net
   * worth and leftover savings balance; the gap is what the projected corpus
   * falls short of the requirement; and no extra SIP is asked for without a
   * gap (ExtraSipClosesGap shows that it closes a gap exactly).
   */
  function DashboardOf(s: FullState, corpusRequired: real, today: int): (d: Dashboard)
    ensures d.netWorth + d.totalLiabilities == d.totalAssets
    ensures d.leftoverSavings + d.totalMonthlyOutflow == d.totalMonthlyInflow
    ensures d.totalMonthlyInflow == TotalInflow(s.cashFlow.inflows)
    ensures d.projectedCorpus + d.retirementGap == corpusRequired
    ensures d.retirementGap <= 0.0 ==> d.extraSipRequired == 0.0
  {
    var o := s.cashFlow.outflows;
    var inflow := TotalInflow(s.cashFlow.inflows);
    var assets := TotalAssets(s.assets);
    var liabilities := TotalLiabilities(s.liabilities);
    var essential := EssentialTotal(o);
    var lifestyle := LifestyleTotal(o);
    var outflow := essential + lifestyle + o.linkedEmis + o.linkedInvestments;
    var projected := ProjectedCorpusOf(s, today);
    var gap := corpusRequired - projected;
    Dashboard(assets, liabilities, assets - liabilities, inflow, outflow, inflow - outflow,
              RatiosOf(inflow, essential, lifestyle, o.linkedEmis, o.linkedInvestments),
              projected, gap, ExtraSip(gap, PreRetireMonthlyRate(s), MonthsToRetire(s, today)))
  }

  /** Adding the extra SIP to the current one closes the gap it was computed for. */
  lemma ExtraSipFillsGap(lumpsum: real, sip: real, monthlyRate: real, months: int, corpus: real)
    requires corpus - (lumpsum + SipFutureValue(sip, monthlyRate, months)) > 0.0 && months > 0
    ensures var gap := corpus - (lumpsum + SipFutureValue(sip, monthlyRate, months));
            lumpsum + SipFutureValue(sip + ExtraSip(gap, monthlyRate, months), monthlyRate, months) == corpus
  {
    var gap := corpus - (lumpsum + SipFutureValue(sip, monthlyRate, months));
    var extra := ExtraSip(gap, monthlyRate, months);
    if monthlyRate > 0.0 {
      AccumulatedDueSumAdditive(sip, extra, monthlyRate, months);
    } else {
      assert (sip + extra) * months as real == sip * months as real + extra * months as real;
    }
  }

  /**
   * Investing the extra SIP on top of the current one from now to retirement
   * brings the projected corpus up to the corpus required.
   */
  lemma ExtraSipClosesGap(s: FullState, corpusRequired: real, today: int)
    ensures var d := DashboardOf(s, corpusRequired, today);
            var monthlyRate := PreRetireMonthlyRate(s);
            var months := MonthsToRetire(s, today);
            d.retirementGap > 0.0 && months > 0 ==>
              LumpsumAtRetirement(s, today)
                + SipFutureValue(s.cashFlow.outflows.linkedInvestments + d.extraSipRequired, monthlyRate, months)
              == corpusRequired
  {
    var d := DashboardOf(s, corpusRequired, today);
    var months := MonthsToRetire(s, today);
    if d.retirementGap > 0.0 && months > 0 {
      ExtraSipFillsGap(LumpsumAtRetirement(s, today), s.cashFlow.outflows.linkedInvestments,
                       PreRetireMonthlyRate(s), months, corpusRequired);
    }
  }

  // ------------------------------------------------------------ children

  /** A goal belongs to the person it names, ignoring case. */
  predicate LinkedTo(g: Goal, name: string) {
    Named(g.personName) && SameName(g.personName.value, name)
  }

  /**
   * The SIP for a child's goal: the ordinary-annuity payment at a positive
   * rate with months left, else the cost spread over at least one month.
   */
  function ChildSip(cost: real, monthlyRate: real, months: int): real {
    if monthlyRate > 0.0 && months > 0 then PaymentOrdinary(cost, monthlyRate, months)
    else cost / MaxI(months, 1) as real
  }

  /**
   * The child planner's SIP agrees with the goal planner's whenever there is
   * a month left, and is the whole cost when there is none.
   */
  lemma ChildSipIsGoalSip(cost: real, monthlyRate: real, months: int)
    requires months >= 0
    ensures ChildSip(cost, monthlyRate, months) == GoalSip(cost, monthlyRate, months)
  {
    if months > 0 && monthlyRate <= 0.0 {
      DivMul(cost, months as real);
      MulCancel(ChildSip(cost, monthlyRate, months), GoalSip(cost, monthlyRate, months), months as real);
    }
  }

  /**
   * The plan for one goal of a child aged childAge: none when the target is
   * not an integer age or is not in the future.
   */
  function ChildGoalPlanOf(g: Goal, childAge: real, a: Assumptions, pow: PowFn): Option<ChildGoalPlan> {
    match ParseInt(g.targetValue)
    case None => None
    case Some(target) =>
      var yearsLeft := target as real - childAge;
      if yearsLeft <= 0.0 then None
      else
        var months := Trunc(yearsLeft * 12.0);
        var cost := g.currentCost * pow(1.0 + a.childInflation, yearsLeft);
        Some(ChildGoalPlan(g.name, g.currentCost, target, months, a.childInflation * 100.0, cost,
                           a.preRetireRoi * 100.0, ChildSip(cost, a.preRetireRoi / 12.0, months)))
  }

  /**
   * A child's goal gets a plan exactly when its target is an integer age
   * still ahead; the plan's months are the whole months left, and its SIP
   * accumulates to the inflated cost by then.
   */
  lemma ChildGoalPlanFacts(g: Goal, childAge: real, a: Assumptions, pow: PowFn)
    ensures ChildGoalPlanOf(g, childAge, a, pow).Some? <==>
              ParseInt(g.targetValue).Some? && ParseInt(g.targetValue).value as real > childAge
    ensures ChildGoalPlanOf(g, childAge, a, pow).Some? ==>
              var p := ChildGoalPlanOf(g, childAge, a, pow).value;
              var monthlyRate := a.preRetireRoi / 12.0;
              p.targetAge == ParseInt(g.targetValue).value && p.monthsLeft >= 0
              && p.monthsLeft as real <= (p.targetAge as real - childAge) * 12.0 < p.monthsLeft as real + 1.0
              && p.monthlySipRequired == GoalSip(p.costAtTarget, monthlyRate, p.monthsLeft)
              && (p.monthsLeft > 0 && monthlyRate > 0.0 ==>
                    AccumulatedSum(p.monthlySipRequired, monthlyRate, p.monthsLeft) == p.costAtTarget)
  {
    var r := ChildGoalPlanOf(g, childAge, a, pow);
    if r.Some? {
      ChildSipIsGoalSip(r.value.costAtTarget, a.preRetireRoi / 12.0, r.value.monthsLeft);
    }
  }

  /** The plans for the goals linked to the named child, in goal order. */
  function ChildGoalPlans(goals: seq<Goal>, name: string, childAge: real, a: Assumptions, pow: PowFn): seq<ChildGoalPlan> {
    if goals == [] then []
    else
      var prev := ChildGoalPlans(goals[..|goals| - 1], name, childAge, a, pow);
      var g := goals[|goals| - 1];
      if LinkedTo(g, name) && ChildGoalPlanOf(g, childAge, a, pow).Some? then
        prev + [ChildGoalPlanOf(g, childAge, a, pow).value]
      else prev
  }

  /** Every plan for a child comes from a goal linked to that child, in goal order. */
  lemma {:induction false} ChildGoalPlansFromLinkedGoals(goals: seq<Goal>, name: string, childAge: real, a: Assumptions, pow: PowFn)
    ensures |ChildGoalPlans(goals, name, childAge, a, pow)| <= |goals|
    ensures forall p :: p in ChildGoalPlans(goals, name, childAge, a, pow) ==>
              exists i :: 0 <= i < |goals| && LinkedTo(goals[i], name) && ChildGoalPlanOf(goals[i], childAge, a, pow) == Some(p)
    ensures (forall i :: 0 <= i < |goals| ==> !LinkedTo(goals[i], name)) ==> ChildGoalPlans(goals, name, childAge, a, pow) == []
  {
    if goals != [] {
      var init := goals[..|goals| - 1];
      ChildGoalPlansFromLinkedGoals(init, name, childAge, a, pow);
      assert forall i :: 0 <= i < |init| ==> init[i] == goals[i];
    }
  }

  function PlanSip(p: ChildGoalPlan): real { p.monthlySipRequired }

  /** A child in the family with a birth date. */
  predicate PlannableChild(m: FamilyMember) {
    m.relation == ChildRelation && m.dob.Some?
  }

  /** Plans for every child with a birth date and at least one planned goal, in family order. */
  function ChildPlansOf(members: seq<FamilyMember>, goals: seq<Goal>, a: Assumptions, env: Env): seq<ChildPlan> {
    if members == [] then []
    else
      var prev := ChildPlansOf(members[..|members| - 1], goals, a, env);
      var m := members[|members| - 1];
      if PlannableChild(m) then
        var age := AgeOn(m.dob.value, env.today);
        var plans := ChildGoalPlans(goals, m.name, age, a, env.pow);
        if plans != [] then prev + [ChildPlan(m.name, age, plans, SumBy(plans, PlanSip))] else prev
      else prev
  }

  /**
   * Every child plan belongs to a child with a birth date, lists the plans
   * of that child's linked goals (never none) and totals their SIPs.
   */
  lemma {:induction false} ChildPlansFacts(members: seq<FamilyMember>, goals: seq<Goal>, a: Assumptions, env: Env)
    ensures |ChildPlansOf(members, goals, a, env)| <= |members|
    ensures forall c :: c in ChildPlansOf(members, goals, a, env) ==>
              c.goals != [] && c.totalMonthlySip == SumBy(c.goals, PlanSip)
              && exists i :: 0 <= i < |members| && PlannableChild(members[i]) && members[i].name == c.childName
                             && c.childCurrentAge == AgeOn(members[i].dob.value, env.today)
                             && c.goals == ChildGoalPlans(goals, c.childName, c.childCurrentAge, a, env.pow)
  {
    if members != [] {
      var init := members[..|members| - 1];
      ChildPlansFacts(init, goals, a, env);
      assert forall i :: 0 <= i < |init| ==> init[i] == members[i];
    }
  }

  // ------------------------------------------------------------ protection

  /** The emergency fund covers six months of expenses unless told otherwise. */
  const ContingencyMonths: int := 6

  /** The fund is the months' worth of expenses, the linked EMIs and SIPs left out. */
  function ContingencyFundOf(o: Outflows, months: int): (f: ContingencyFund)
    ensures f.monthsRequired == months && f.fundRequired == f.monthlyExpenses * months as real
    ensures f.monthlyExpenses == MonthlyExpenses(o.(linkedEmis := 0.0, linkedInvestments := 0.0))
  {
    MonthlyExpensesExcludeLinked(o, 0.0, 0.0);
    var expenses := MonthlyExpenses(o);
    ContingencyFund(expenses, months, expenses * months as real)
  }

  /**
   * The emergency fund is sized on the same monthly expenses as retirement
   * (EMIs and SIPs excluded), times the number of months.
   */
  lemma ContingencyMatchesRetirement(s: FullState, env: Env, months: int)
    requires ValidAssumptions(s.assumptions)
    ensures ContingencyFundOf(s.cashFlow.outflows, months).monthlyExpenses == RetirementOf(s, env).currentMonthlyExpenses
    ensures ContingencyFundOf(s.cashFlow.outflows, months).fundRequired
              == RetirementOf(s, env).currentMonthlyExpenses * months as real
    ensures ContingencyFundOf(s.cashFlow.outflows, months).monthsRequired == months
  {
    RetirementCorpus(s, env);
  }

  /** Income is assumed to grow 5% a year until retirement. */
  const IncomeGrowth: real := 0.05

  /**
   * Life cover for a monthly income: the annual income grown at `growth` and
   * summed over the years left to retirement; a plain product when growth or
   * the years left are not positive.
   */
  function CoverAmount(monthlyIncome: real, growth: real, yearsLeft: real, pow: PowFn): real {
    var annual := monthlyIncome * 12.0;
    if growth > 0.0 && yearsLeft > 0.0 then annual * ((pow(1.0 + growth, yearsLeft) - 1.0) / growth)
    else annual * yearsLeft
  }

  /**
   * Over a whole number of years the cover is the annual income accumulated
   * year by year at the growth rate: what the income would have earned.
   */
  lemma CoverIsAccumulatedIncome(monthlyIncome: real, growth: real, years: nat, pow: PowFn)
    requires AgreesWithIntPow(pow) && growth >= 0.0
    ensures CoverAmount(monthlyIncome, growth, years as real, pow) == AccumulatedSum(monthlyIncome * 12.0, growth, years)
  {
    var annual := monthlyIncome * 12.0;
    if growth > 0.0 && years > 0 {
      assert pow(1.0 + growth, years as real) == IntPow(1.0 + growth, years);
      OrdinaryClosedForm(annual, growth, years);
      DueForm(annual, growth, IntPow(1.0 + growth, years) - 1.0);
      assert annual * ((IntPow(1.0 + growth, years) - 1.0) / growth) == FutureValueOrdinary(annual, growth, years);
    } else if growth == 0.0 {
      AccumulatedSumZeroRate(annual, years);
    }
  }

  /** The retirement age used for the spouse: their own when set and non-zero, else the primary user's. */
  function SpouseRetirementAge(spouse: SpouseInfo, primaryRetirementAge: int): (age: int)
    ensures spouse.retirementAge.Some? && spouse.retirementAge.value != 0 ==> age == spouse.retirementAge.value
    ensures !(spouse.retirementAge.Some? && spouse.retirementAge.value != 0) ==> age == primaryRetirementAge
  {
    match spouse.retirementAge
    case Some(age) => if age != 0 then age else primaryRetirementAge
    case None => primaryRetirementAge
  }

  /**
   * The cover record for one earner: the years left to retirement are never
   * negative and are reported as whole years (truncated); the cover is the
   * income-growth formula over the exact years left, and nothing is needed
   * once the earner has reached retirement age.
   */
  function CoverFor(name: string, monthlyIncome: real, dob: int, retirementAge: int, env: Env): (c: InsuranceCover)
    ensures c.memberName == name && c.monthlyIncome == monthlyIncome && c.retirementAge == retirementAge
    ensures c.currentAge == AgeOn(dob, env.today) && c.expectedGrowth == 5.0
    ensures var span := MaxR(0.0, retirementAge as real - c.currentAge);
            c.yearsLeft >= 0 && c.yearsLeft as real <= span < c.yearsLeft as real + 1.0
            && c.coverRequired == CoverAmount(monthlyIncome, IncomeGrowth, span, env.pow)
    ensures c.currentAge >= retirementAge as real ==> c.yearsLeft == 0 && c.coverRequired == 0.0
  {
    var age := AgeOn(dob, env.today);
    var yearsLeft := MaxR(0.0, retirementAge as real - age);
    InsuranceCover(name, monthlyIncome, age, retirementAge, IncomeGrowth * 100.0, Trunc(yearsLeft),
                   CoverAmount(monthlyIncome, IncomeGrowth, yearsLeft, env.pow))
  }

  /**
   * When the years left are a whole number, the cover is the annual income
   * accumulated year by year at 5% growth until retirement.
   */
  lemma CoverForWholeYears(name: string, monthlyIncome: real, dob: int, retirementAge: int, env: Env)
    requires AgreesWithIntPow(env.pow)
    ensures var c := CoverFor(name, monthlyIncome, dob, retirementAge, env);
            c.yearsLeft as real == MaxR(0.0, retirementAge as real - c.currentAge) ==>
              c.coverRequired == AccumulatedSum(monthlyIncome * 12.0, IncomeGrowth, c.yearsLeft)
  {
    var c := CoverFor(name, monthlyIncome, dob, retirementAge, env);
    if c.yearsLeft as real == MaxR(0.0, retirementAge as real - c.currentAge) {
      CoverIsAccumulatedIncome(monthlyIncome, IncomeGrowth, c.yearsLeft, env.pow);
    }
  }

  /** Cover for the primary user when they earn, then for the spouse when there is one who earns. */
  function InsuranceCovers(s: FullState, env: Env): (r: seq<InsuranceCover>)
    ensures |r| == (if s.cashFlow.inflows.primaryIncome > 0.0 then 1 else 0)
                   + (if s.userProfile.spouse.Some? && s.cashFlow.inflows.spouseIncome > 0.0 then 1 else 0)
    ensures forall c :: c in r ==> c.yearsLeft >= 0 && c.expectedGrowth == 5.0
    ensures s.cashFlow.inflows.primaryIncome > 0.0 ==>
              var p := s.userProfile.primary;
              r[0] == CoverFor(p.name, s.cashFlow.inflows.primaryIncome, p.dob, p.retirementAge, env)
    ensures s.userProfile.spouse.Some? && s.cashFlow.inflows.spouseIncome > 0.0 ==>
              var sp := s.userProfile.spouse.value;
              r[|r| - 1] == CoverFor(sp.name, s.cashFlow.inflows.spouseIncome, sp.dob,
                                     SpouseRetirementAge(sp, s.userProfile.primary.retirementAge), env)
  {
    var p := s.userProfile.primary;
    var inflows := s.cashFlow.inflows;
    var primary :=
      if inflows.primaryIncome > 0.0 then [CoverFor(p.name, inflows.primaryIncome, p.dob, p.retirementAge, env)] else [];
    var spouse :=
      if s.userProfile.spouse.Some? && inflows.spouseIncome > 0.0 then
        var sp := s.userProfile.spouse.value;
        [CoverFor(sp.name, inflows.spouseIncome, sp.dob, SpouseRetirementAge(sp, p.retirementAge), env)]
      else [];
    primary + spouse
  }

  /** Every cover whose years left are whole is the income accumulated at 5% a year until retirement. */
  lemma InsuranceCoversWholeYears(s: FullState, env: Env)
    requires AgreesWithIntPow(env.pow)
    ensures forall c :: c in InsuranceCovers(s, env) && c.yearsLeft as real == MaxR(0.0, c.retirementAge as real - c.currentAge) ==>
              c.coverRequired == AccumulatedSum(c.monthlyIncome * 12.0, IncomeGrowth, c.yearsLeft)
  {
    var p := s.userProfile.primary;
    var inflows := s.cashFlow.inflows;
    CoverForWholeYears(p.name, inflows.primaryIncome, p.dob, p.retirementAge, env);
    if s.userProfile.spouse.Some? {
      var sp := s.userProfile.spouse.value;
      CoverForWholeYears(sp.name, inflows.spouseIncome, sp.dob, SpouseRetirementAge(sp, p.retirementAge), env);
    }
  }

  // ------------------------------------------------------------ whole analysis

  /** A goal error stops the analysis at the first goal that raises. */
  lemma {:induction false} GoalsSpecFirstError(goals: seq<Goal>, k: nat, ctx: GoalContext)
    requires ctx.surplus >= 0.0 && k <= |goals| && GoalsSpec(goals[..k], ctx).Err?
    ensures GoalsSpec(goals, ctx) == GoalsSpec(goals[..k], ctx)
    decreases |goals| - k
  {
    if k < |goals| {
      var init := goals[..|goals| - 1];
      assert init[..k] == goals[..k];
      GoalsSpecFirstError(init, k, ctx);
    } else {
      assert goals[..k] == goals;
    }
  }

  /** The goal analyses with their summary (none when there are no goals), or the first goal's error. */
  function GoalsOf(s: FullState, env: Env): Result<(seq<GoalAnalysis>, Option<GoalSummary>), string> {
    var ctx := GoalContextOf(s, env);
    match GoalsSpec(s.goals, ctx)
    case Err(e) => Err(e)
    case Ok(analyses) =>
      Ok((analyses, if analyses == [] then None else Some(SummaryOf(SumBy(analyses, SipRequired), ctx.surplus))))
  }

  /**
   * Row k of the drawdown: age retirementAge + k, the pension grown k years
   * with inflation, twelve months of it paid over the year, and the balance
   * grown at the post-retirement return less that payment, floored at zero.
   */
  predicate IsCashflowRow(row: CashflowRow, k: nat, p: PrimaryUser, a: Assumptions, r: Retirement) {
    row.year == p.retirementAge + k
    && row.monthlyPension == r.expenseAtRetirementMonthly * IntPow(1.0 + a.inflation, k)
    && row.pensionPaidYearly == row.monthlyPension * 12.0
    && row.endValue == MaxR(0.0, row.beginValue * (1.0 + a.postRetireRoi) - row.pensionPaidYearly)
  }

  /** The year-by-year drawdown of the corpus from retirement to the last pension year. */
  predicate IsCashflowTable(rows: seq<CashflowRow>, p: PrimaryUser, a: Assumptions, r: Retirement) {
    |rows| == MaxI(0, p.pensionTillAge + 1 - p.retirementAge)
    && IsCashflowPrefix(rows, p, a, r)
  }

  /** The first |rows| rows of the drawdown, each opening with the previous closing balance. */
  predicate IsCashflowPrefix(rows: seq<CashflowRow>, p: PrimaryUser, a: Assumptions, r: Retirement) {
    (|rows| > 0 ==> rows[0].beginValue == r.corpusRequired)
    && (forall k :: 0 < k < |rows| ==> rows[k].beginValue == rows[k - 1].endValue)
    && (forall k: nat :: k < |rows| ==> IsCashflowRow(rows[k], k, p, a, r))
  }

  /** A row that opens with the last closing balance extends a drawdown prefix. */
  lemma CashflowPrefixAppend(rows: seq<CashflowRow>, row: CashflowRow, p: PrimaryUser, a: Assumptions, r: Retirement)
    requires IsCashflowPrefix(rows, p, a, r)
    requires row.beginValue == if rows == [] then r.corpusRequired else rows[|rows| - 1].endValue
    requires IsCashflowRow(row, |rows|, p, a, r)
    ensures IsCashflowPrefix(rows + [row], p, a, r)
  {
    var next := rows + [row];
    forall k: nat | k < |next| ensures IsCashflowRow(next[k], k, p, a, r) {
      if k < |rows| { assert next[k] == rows[k]; }
    }
  }

  /** Every end-of-year balance, and so every later opening balance, is non-negative. */
  lemma CashflowBalancesNonNegative(rows: seq<CashflowRow>, p: PrimaryUser, a: Assumptions, r: Retirement)
    requires IsCashflowTable(rows, p, a, r)
    ensures forall k :: 0 <= k < |rows| ==> rows[k].endValue >= 0.0
    ensures forall k :: 0 < k < |rows| ==> rows[k].beginValue >= 0.0
  {
    forall k | 0 <= k < |rows|
      ensures rows[k].endValue >= 0.0
    {
      assert IsCashflowRow(rows[k], k, p, a, r);
    }
    forall k | 0 < k < |rows|
      ensures rows[k].beginValue >= 0.0
    {
      assert IsCashflowRow(rows[k - 1], k - 1, p, a, r);
    }
  }

  /** The full analysis of a state whose linked totals are up to date. */
  function AnalysisOf(s: FullState, env: Env, table: seq<CashflowRow>): Result<Analysis, string>
    requires ValidAssumptions(s.assumptions)
  {
    var retirement := RetirementOf(s, env);
    match GoalsOf(s, env)
    case Err(e) => Err(e)
    case Ok(goals) =>
      Ok(Analysis(
        TimeMetricsOf(s.userProfile.primary, env.today),
        retirement,
        goals.0,
        goals.1,
        DashboardOf(s, retirement.corpusRequired, env.today),
        table,
        ChildPlansOf(s.userProfile.familyMembers, s.goals, s.assumptions, env),
        ContingencyFundOf(s.cashFlow.outflows, ContingencyMonths),
        InsuranceCovers(s, env)))
  }

  /**
   * The planning engine over one household state. Calculate first brings the
   * state's linked EMI and SIP totals up to date, in place, then derives the
   * analysis from the updated state.
   */
  class FinancialEngine {
    var state: FullState

    constructor (s: FullState)
      ensures state == s
    {
      state := s;
    }

    /** Linked EMIs and investments become the sums over the liabilities and investments. */
    method UpdateLinkedValues()
      modifies this
      ensures state == Relinked(old(state))
    {
      var totalEmi := TotalEmis(state.liabilities);
      var totalSip := TotalSips(state.assets.investments);
      var o := state.cashFlow.outflows.(linkedEmis := totalEmi, linkedInvestments := totalSip);
      state := state.(cashFlow := state.cashFlow.(outflows := o));
    }

    /** The age of the person named: family members first, then the spouse. */
    method FamilyMemberAge(name: string, today: int) returns (age: Option<real>)
      ensures age == MemberAge(state.userProfile, name, today)
    {
      var members := state.userProfile.familyMembers;
      var i := 0;
      while i < |members|
        invariant 0 <= i <= |members|
        invariant FirstMemberAge(members[i..], name, today) == FirstMemberAge(members, name, today)
      {
        if SameName(members[i].name, name) && members[i].dob.Some? {
          return Some(AgeOn(members[i].dob.value, today));
        }
        assert members[i..][1..] == members[i + 1..];
        i := i + 1;
      }
      var spouse := state.userProfile.spouse;
      if spouse.Some? && SameName(spouse.value.name, name) {
        return Some(AgeOn(spouse.value.dob, today));
      }
      return None;
    }

    /** Years until a goal, before clamping, or the error an AGE target raises. */
    method GoalYears(goal: Goal, ctx: GoalContext) returns (r: Result<real, string>)
      requires ctx.profile == state.userProfile
      ensures r == YearsToGoal(goal, ctx)
    {
      match goal.targetType {
        case AgeTarget =>
          var target := ParseInt(goal.targetValue);
          if target.None? {
            return Err(IntLiteralError(goal.targetValue));
          }
          var years := target.value as real - ctx.currentAge;
          if Named(goal.personName) {
            var memberAge := FamilyMemberAge(goal.personName.value, ctx.env.today);
            if memberAge.Some? {
              years := target.value as real - memberAge.value;
            }
          }
          return Ok(years);
        case DateTarget =>
          var day := ctx.env.parseIsoDate(goal.targetValue);
          if day.Some? {
            return Ok((day.value - ctx.env.today) as real / DaysPerYear);
          }
          return Ok(0.0);
      }
    }

    /** Every goal's analysis in order, with the summary of their SIPs against the surplus. */
    method CalculateGoals(env: Env) returns (r: Result<(seq<GoalAnalysis>, Option<GoalSummary>), string>)
      ensures r == GoalsOf(state, env)
    {
      var ctx := GoalContextOf(state, env);
      var goals := state.goals;
      var analyses: seq<GoalAnalysis> := [];
      var totalSip := 0.0;
      var i := 0;
      while i < |goals|
        invariant 0 <= i <= |goals|
        invariant GoalsSpec(goals[..i], ctx) == Ok(analyses)
        invariant totalSip == SumBy(analyses, SipRequired)
      {
        var goal := goals[i];
        assert goals[..i + 1][..i] == goals[..i];
        var raw := GoalYears(goal, ctx);
        if raw.Err? {
          GoalsSpecFirstError(goals, i + 1, ctx);
          assert goals[..|goals|] == goals;
          return Err(raw.error);
        }
        var a := AnalysisFor(goal, raw.value, ctx);
        totalSip := totalSip + a.monthlySipRequired;
        assert (analyses + [a])[..|analyses|] == analyses;
        analyses := analyses + [a];
        i := i + 1;
      }
      assert goals[..i] == goals;
      if analyses == [] {
        return Ok((analyses, None));
      }
      return Ok((analyses, Some(SummaryOf(totalSip, ctx.surplus))));
    }

    /**
     * One row per age from retirement to the last pension age: the balance
     * grows at the post-retirement return, a year of pension is paid out,
     * the balance is floored at zero, and the pension rises with inflation.
     */
    method RetirementCashflowTable(retirement: Retirement) returns (rows: seq<CashflowRow>)
      ensures IsCashflowTable(rows, state.userProfile.primary, state.assumptions, retirement)
    {
      var p := state.userProfile.primary;
      var a := state.assumptions;
      var begin := retirement.corpusRequired;
      var monthly := retirement.expenseAtRetirementMonthly;
      rows := [];
      var age := p.retirementAge;
      while age < p.pensionTillAge + 1
        invariant age - p.retirementAge == |rows| >= 0
        invariant age <= MaxI(p.retirementAge, p.pensionTillAge + 1)
        invariant begin == if rows == [] then retirement.corpusRequired else rows[|rows| - 1].endValue
        invariant monthly == retirement.expenseAtRetirementMonthly * IntPow(1.0 + a.inflation, |rows|)
        invariant IsCashflowPrefix(rows, p, a, retirement)
      {
        var yearly := monthly * 12.0;
        var end := begin * (1.0 + a.postRetireRoi) - yearly;
        var row := CashflowRow(age, begin, monthly, yearly, MaxR(0.0, end));
        NextCashflowRow(row, |rows|, p, a, retirement);
        CashflowPrefixAppend(rows, row, p, a, retirement);
        rows := rows + [row];
        begin := MaxR(0.0, end);
        InflationStep(retirement.expenseAtRetirementMonthly, 1.0 + a.inflation, |rows|);
        monthly := monthly * (1.0 + a.inflation);
        age := age + 1;
      }
    }

    /** Plans for the goals linked to one child, with the total SIP they need. */
    method ChildGoalPlanning(name: string, childAge: real, env: Env) returns (goalPlans: seq<ChildGoalPlan>, totalSip: real)
      ensures goalPlans == ChildGoalPlans(state.goals, name, childAge, state.assumptions, env.pow)
      ensures totalSip == SumBy(goalPlans, PlanSip)
    {
      var goals := state.goals;
      var a := state.assumptions;
      goalPlans := [];
      totalSip := 0.0;
      var j := 0;
      while j < |goals|
        invariant 0 <= j <= |goals|
        invariant goalPlans == ChildGoalPlans(goals[..j], name, childAge, a, env.pow)
        invariant totalSip == SumBy(goalPlans, PlanSip)
      {
        var goal := goals[j];
        assert goals[..j + 1][..j] == goals[..j];
        if LinkedTo(goal, name) {
          var target := ParseInt(goal.targetValue);
          if target.Some? {
            var yearsLeft := target.value as real - childAge;
            if yearsLeft > 0.0 {
              var months := Trunc(yearsLeft * 12.0);
              var cost := goal.currentCost * env.pow(1.0 + a.childInflation, yearsLeft);
              var sip := ChildSip(cost, a.preRetireRoi / 12.0, months);
              var plan := ChildGoalPlan(goal.name, goal.currentCost, target.value, months,
                                        a.childInflation * 100.0, cost, a.preRetireRoi * 100.0, sip);
              assert ParseInt(goal.targetValue) == Some(target.value);
              assert ChildGoalPlanOf(goal, childAge, a, env.pow).Some?;
              assert ChildGoalPlanOf(goal, childAge, a, env.pow).value.monthsLeft == months;
              assert ChildGoalPlanOf(goal, childAge, a, env.pow).value.costAtTarget == cost;
              assert ChildGoalPlanOf(goal, childAge, a, env.pow) == Some(plan);
              assert (goalPlans + [plan])[..|goalPlans|] == goalPlans;
              goalPlans := goalPlans + [plan];
              totalSip := totalSip + sip;
            }
          }
        }
        j := j + 1;
      }
      assert goals[..j] == goals;
    }

    /** Plans for each child's goals, in family order, skipping children with nothing to plan. */
    method ChildPlanning(env: Env) returns (plans: seq<ChildPlan>)
      ensures plans == ChildPlansOf(state.userProfile.familyMembers, state.goals, state.assumptions, env)
    {
      var members := state.userProfile.familyMembers;
      plans := [];
      var i := 0;
      while i < |members|
        invariant 0 <= i <= |members|
        invariant plans == ChildPlansOf(members[..i], state.goals, state.assumptions, env)
      {
        var child := members[i];
        assert members[..i + 1][..i] == members[..i];
        if child.relation == ChildRelation && child.dob.Some? {
          var childAge := AgeOn(child.dob.value, env.today);
          var goalPlans, totalSip := ChildGoalPlanning(child.name, childAge, env);
          if goalPlans != [] {
            plans := plans + [ChildPlan(child.name, childAge, goalPlans, totalSip)];
          }
        }
        i := i + 1;
      }
      assert members[..i] == members;
    }

    /**
     * The whole analysis: the linked totals are updated in place first, and
     * every figure is then derived from the updated state; a goal whose age
     * target is not an integer fails the analysis.
     */
    method Calculate(env: Env) returns (r: Result<Analysis, string>)
      requires ValidAssumptions(state.assumptions)
      modifies this
      ensures state == Relinked(old(state))
      ensures exists table :: IsCashflowTable(table, state.userProfile.primary, state.assumptions, RetirementOf(state, env))
                              && r == AnalysisOf(state, env, table)
    {
      UpdateLinkedValues();
      var metrics := TimeMetricsOf(state.userProfile.primary, env.today);
      var retirement := RetirementOf(state, env);
      var goals := CalculateGoals(env);
      var table := RetirementCashflowTable(retirement);
      if goals.Err? {
        return Err(goals.error);
      }
      var summary := DashboardOf(state, retirement.corpusRequired, env.today);
      var children := ChildPlanning(env);
      var contingency := ContingencyFundOf(state.cashFlow.outflows, ContingencyMonths);
      var insurance := InsuranceCovers(state, env);
      r := Ok(Analysis(metrics, retirement, goals.value.0, goals.value.1, summary, table, children, contingency, insurance));
    }
  }

  lemma NextCashflowRow(row: CashflowRow, k: nat, p: PrimaryUser, a: Assumptions, r: Retirement)
    requires row.year == p.retirementAge + k
    requires row.monthlyPension == r.expenseAtRetirementMonthly * IntPow(1.0 + a.inflation, k)
    requires row.pensionPaidYearly == row.monthlyPension * 12.0
    requires row.endValue == MaxR(0.0, row.beginValue * (1.0 + a.postRetireRoi) - row.pensionPaidYearly)
    ensures IsCashflowRow(row, k, p, a, r)
  {
  }

  lemma InflationStep(base: real, growth: real, n: nat)
    requires n > 0
    ensures base * IntPow(growth, n - 1) * growth == base * IntPow(growth, n)
  {
    IntPowUnfold(growth, n);
  }
}
