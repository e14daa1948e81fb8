/**
 * The rule-based financial insights produced when no language model is
 * available: a health score built from the savings rate, the EMI burden,
 * the retirement gap and goal feasibility, a status band, a prioritised
 * list of recommendations, per-goal advice and the emergency-fund check.
 *
 * The input is the analysis as a dictionary: every field may be missing,
 * and each read supplies its own default, as the source's .get calls do.
 * Formatted text is not built; each item records which variant was chosen
 * and the amounts it reports.
 */
module FallbackInsights {
  import opened Wrappers
  import opened Numeric

  datatype SummaryData = SummaryData(
    savingsRate: Option<real>,
    emiBurden: Option<real>,
    retirementGap: Option<real>,
    extraSipRequired: Option<real>,
    totalAssets: Option<real>,
    totalMonthlyInflow: Option<real>,
    totalMonthlyOutflow: Option<real>,
    leftoverSavings: Option<real>,
    netWorth: Option<real>)

  /** The goal summary the planning engine attaches to a goal under "_summary". */
  datatype GoalSummaryData = GoalSummaryData(
    allGoalsFeasible: Option<bool>,
    totalMonthlySip: Option<real>,
    monthlySurplus: Option<real>)

  datatype GoalData = GoalData(
    name: Option<string>,
    status: Option<string>,
    monthlySipRequired: Option<real>,
    futureCost: Option<real>,
    yearsToGoal: Option<real>,
    monthsToGoal: Option<int>,
    feasibility: Option<string>,
    summary: Option<GoalSummaryData>)

  datatype InsightData = InsightData(
    summary: SummaryData,
    goals: seq<GoalData>,
    contingencyMonthlyExpenses: Option<real>)

  const NoGoalSummary := GoalSummaryData(None, None, None)

  // ------------------------------------------------------------ outputs

  datatype Action =
    | StartExtraSip(monthly: real, gap: real)
    | AllocateToGoal(monthlySip: real, futureCost: real, years: real, months: int)
    | PrepayLoans(emiBurden: real)
    | IncreaseSavings(amount: real)

  datatype Recommendation = Recommendation(priority: int, category: string, action: Action)

  datatype Advice = ExceedsSurplus(sip: real) | CommitNow(sip: real) | StartSip(sip: real) | KeepGoing(sip: real)

  datatype GoalInsight = GoalInsight(
    goalName: string,
    status: string,
    monthlySipRequired: real,
    yearsToGoal: real,
    futureCost: real,
    feasibility: string,
    advice: Advice)

  datatype EmergencyFund = EmergencyFund(current: real, required: real, status: string)

  datatype Strength = NetWorthStrength(amount: real) | BuildingWealth | SavingsStrength(rate: real) | RegularIncome
                    | LowEmi(rate: real) | DebtManaged

  datatype Concern = RetirementGapConcern(gap: real) | MonitorInflation | EmiConcern(rate: real) | OptimizeExpenses
                   | GoalShortfall | ReviewInsurance

  datatype PlanItem = SetUpRetirementSip(monthly: real) | ContinueRetirementSavings | AllocateAcrossGoals(monthly: real)
                    | DefineGoals | BuildEmergencyFund(amount: real) | EmergencyFundAdequate | ReviewExpenses | MaximizeTaxSaving

  datatype Insights = Insights(
    healthScore: int,
    healthStatus: string,
    keyStrengths: seq<Strength>,
    concerns: seq<Concern>,
    recommendations: seq<Recommendation>,
    goalInsights: seq<GoalInsight>,
    emergencyFund: EmergencyFund,
    actionPlan: seq<PlanItem>)

  // ------------------------------------------------------------ reads with defaults

  function Or<T>(o: Option<T>, default: T): T {
    o.GetOr(default)
  }

  function SavingsRate(s: SummaryData): real { Or(s.savingsRate, 0.0) }
  function EmiBurden(s: SummaryData): real { Or(s.emiBurden, 0.0) }
  function RetirementGap(s: SummaryData): real { Or(s.retirementGap, 0.0) }
  function ExtraSip(s: SummaryData): real { Or(s.extraSipRequired, 0.0) }

  /** The goal summary of the first goal that carries one, else an empty record. */
  function FirstGoalSummary(goals: seq<GoalData>): GoalSummaryData {
    if goals == [] then NoGoalSummary
    else if goals[0].summary.Some? then goals[0].summary.value
    else FirstGoalSummary(goals[1..])
  }

  // ------------------------------------------------------------ health score

  function SavingsPoints(rate: real): int {
    if rate >= 30.0 then 15 else if rate >= 20.0 then 10 else if rate >= 10.0 then 5 else 0
  }

  function EmiPoints(burden: real): int {
    if burden <= 20.0 then 10 else if burden <= 30.0 then 5 else if burden > 40.0 then -10 else 0
  }

  /** A gap covered, a gap below a fifth of the assets (1 when unknown), or a larger gap. */
  function GapPoints(gap: real, assets: real): int {
    if gap <= 0.0 then 15 else if gap < assets * 0.2 then 5 else -10
  }

  function GoalPoints(allFeasible: bool): int {
    if allFeasible then 10 else -5
  }

  /** The score before clamping: base 50 plus the four adjustments. */
  function RawScore(s: SummaryData, gs: GoalSummaryData): int {
    50 + SavingsPoints(SavingsRate(s)) + EmiPoints(EmiBurden(s))
    + GapPoints(RetirementGap(s), Or(s.totalAssets, 1.0)) + GoalPoints(Or(gs.allGoalsFeasible, false))
  }

  function Clamp(score: int): (r: int)
    ensures 20 <= r <= 95
    ensures 20 <= score <= 95 ==> r == score
  {
    MaxI(20, if score <= 95 then score else 95)
  }

  /** The clamped score: the raw score when that is at most 95, and never below 25 since the raw score never is. */
  function ScoreOf(s: SummaryData, gs: GoalSummaryData): (score: int)
    ensures 25 <= score <= 95
    ensures RawScore(s, gs) <= 95 ==> score == RawScore(s, gs)
  {
    Clamp(RawScore(s, gs))
  }

  function HealthStatus(score: int): string {
    if score >= 80 then "Excellent" else if score >= 65 then "Good" else if score >= 45 then "Needs Attention" else "Critical"
  }

  /** The health score, built up adjustment by adjustment and then clamped. */
  method HealthScore(s: SummaryData, gs: GoalSummaryData) returns (score: int)
    ensures score == ScoreOf(s, gs)
    ensures 20 <= score <= 95
  {
    var savingsRate := SavingsRate(s);
    var emiBurden := EmiBurden(s);
    var gap := RetirementGap(s);
    score := 50;
    if savingsRate >= 30.0 {
      score := score + 15;
    } else if savingsRate >= 20.0 {
      score := score + 10;
    } else if savingsRate >= 10.0 {
      score := score + 5;
    }
    if emiBurden <= 20.0 {
      score := score + 10;
    } else if emiBurden <= 30.0 {
      score := score + 5;
    } else if emiBurden > 40.0 {
      score := score - 10;
    }
    if gap <= 0.0 {
      score := score + 15;
    } else if gap < Or(s.totalAssets, 1.0) * 0.2 {
      score := score + 5;
    } else {
      score := score - 10;
    }
    if Or(gs.allGoalsFeasible, false) {
      score := score + 10;
    } else {
      score := score - 5;
    }
    score := MaxI(20, if score <= 95 then score else 95);
  }

  /** The first goal summary, found by a scan that stops at the first goal carrying one. */
  method FindGoalSummary(goals: seq<GoalData>) returns (gs: GoalSummaryData)
    ensures gs == FirstGoalSummary(goals)
  {
    gs := NoGoalSummary;
    var i := 0;
    while i < |goals|
      invariant 0 <= i <= |goals|
      invariant FirstGoalSummary(goals) == FirstGoalSummary(goals[i..])
    {
      if goals[i].summary.Some? {
        gs := goals[i].summary.value;
        return;
      }
      assert goals[i..][1..] == goals[i + 1..];
      i := i + 1;
    }
  }

  // ------------------------------------------------------------ recommendations

  const RetirementCategory := "Retirement"
  const DebtCategory := "Debt Management"
  const SavingsCategory := "Savings"

  /** The three fixed categories differ from each other and from every goal category, which begins with 'G'. */
  lemma CategoryNamesDistinct()
    ensures RetirementCategory != DebtCategory && RetirementCategory != SavingsCategory && DebtCategory != SavingsCategory
    ensures RetirementCategory[0] != 'G' && DebtCategory[0] != 'G' && SavingsCategory[0] != 'G'
  {
  }

  predicate AtRisk(g: GoalData) {
    g.status == Some("CRITICAL") || g.status == Some("AT_RISK")
  }

  function GoalRec(g: GoalData, priority: int): Recommendation {
    Recommendation(priority, "Goal: " + Or(g.name, "Unknown"),
      AllocateToGoal(Or(g.monthlySipRequired, 0.0), Or(g.futureCost, 0.0), Or(g.yearsToGoal, 0.0), Or(g.monthsToGoal, 0)))
  }

  /** Goal recommendations from priority p on; the scan stops once the priority passes 5. */
  function GoalRecs(goals: seq<GoalData>, p: int): seq<Recommendation> {
    if goals == [] then []
    else if AtRisk(goals[0]) then [GoalRec(goals[0], p)] + (if p + 1 > 5 then [] else GoalRecs(goals[1..], p + 1))
    else GoalRecs(goals[1..], p)
  }

  function RetirementRecs(s: SummaryData): seq<Recommendation> {
    if RetirementGap(s) > 0.0 then [Recommendation(1, RetirementCategory, StartExtraSip(ExtraSip(s), RetirementGap(s)))] else []
  }

  function DebtRecs(s: SummaryData, p: int): seq<Recommendation> {
    if EmiBurden(s) > 40.0 then [Recommendation(p, DebtCategory, PrepayLoans(EmiBurden(s)))] else []
  }

  /** Raise savings to a fifth of the inflow: never a negative amount. */
  function SavingsIncrease(s: SummaryData): real {
    MaxR(0.0, Or(s.totalMonthlyInflow, 0.0) * 0.2 - Or(s.leftoverSavings, 0.0))
  }

  function SavingsRecs(s: SummaryData, p: int): seq<Recommendation> {
    if SavingsRate(s) < 20.0 then [Recommendation(p, SavingsCategory, IncreaseSavings(SavingsIncrease(s)))] else []
  }

  /**
   * Retirement, then at-risk goals, then debt, then savings: the goal scan
   * stops at priority 5, so there are never more than seven.
   */
  function RecommendationsOf(s: SummaryData, goals: seq<GoalData>): (recs: seq<Recommendation>)
    ensures |recs| <= 7
  {
    var retirement := RetirementRecs(s);
    GoalRecsCount(goals, 1 + |retirement|);
    var goalRecs := GoalRecs(goals, 1 + |retirement|);
    var debt := DebtRecs(s, 1 + |retirement| + |goalRecs|);
    retirement + goalRecs + debt + SavingsRecs(s, 1 + |retirement| + |goalRecs| + |debt|)
  }

  /** The recommendation list, appended to with a running priority counter. */
  method BuildRecommendations(s: SummaryData, goals: seq<GoalData>) returns (recs: seq<Recommendation>)
    ensures recs == RecommendationsOf(s, goals)
  {
    recs := [];
    var priority := 1;
    if RetirementGap(s) > 0.0 {
      recs := recs + [Recommendation(priority, RetirementCategory, StartExtraSip(ExtraSip(s), RetirementGap(s)))];
      priority := priority + 1;
    }
    ghost var before := recs;
    ghost var start := priority;
    var i := 0;
    while i < |goals|
      invariant 0 <= i <= |goals|
      invariant priority <= 5
      invariant before + GoalRecs(goals, start) == recs + GoalRecs(goals[i..], priority)
      invariant priority == start + |recs| - |before|
    {
      assert goals[i..][1..] == goals[i + 1..];
      if AtRisk(goals[i]) {
        recs := recs + [GoalRec(goals[i], priority)];
        priority := priority + 1;
        if priority > 5 {
          break;
        }
      }
      i := i + 1;
    }
    assert recs == before + GoalRecs(goals, start);
    if EmiBurden(s) > 40.0 {
      recs := recs + [Recommendation(priority, DebtCategory, PrepayLoans(EmiBurden(s)))];
      priority := priority + 1;
    }
    if SavingsRate(s) < 20.0 {
      recs := recs + [Recommendation(priority, SavingsCategory, IncreaseSavings(SavingsIncrease(s)))];
      priority := priority + 1;
    }
  }

  // ------------------------------------------------------------ goal insights, emergency fund, lists

  function StatusLabel(status: Option<string>): string {
    match status
    case Some("ON_TRACK") => "On Track"
    case Some("NEEDS_ATTENTION") => "Needs Attention"
    case Some("AT_RISK") => "At Risk"
    case Some("CRITICAL") => "Critical"
    case Some("PAST_DUE") => "Past Due"
    case Some("ACHIEVED") => "Achieved"
    case _ => "Unknown"
  }

  function AdviceFor(g: GoalData): Advice {
    var sip := Or(g.monthlySipRequired, 0.0);
    if g.status == Some("CRITICAL") || g.status == Some("PAST_DUE") then ExceedsSurplus(sip)
    else if g.status == Some("AT_RISK") then CommitNow(sip)
    else if g.status == Some("NEEDS_ATTENTION") then StartSip(sip)
    else KeepGoing(sip)
  }

  function InsightFor(g: GoalData): GoalInsight {
    GoalInsight(Or(g.name, "Unknown"), StatusLabel(g.status), Or(g.monthlySipRequired, 0.0), Or(g.yearsToGoal, 0.0),
      Or(g.futureCost, 0.0), Or(g.feasibility, "Unknown"), AdviceFor(g))
  }

  /** One insight per goal, in goal order. */
  method BuildGoalInsights(goals: seq<GoalData>) returns (out: seq<GoalInsight>)
    ensures |out| == |goals|
    ensures forall i :: 0 <= i < |goals| ==> out[i] == InsightFor(goals[i])
  {
    out := [];
    var i := 0;
    while i < |goals|
      invariant 0 <= i <= |goals|
      invariant |out| == i
      invariant forall k :: 0 <= k < i ==> out[k] == InsightFor(goals[k])
    {
      out := out + [InsightFor(goals[i])];
      i := i + 1;
    }
  }

  /** Monthly expenses from the contingency record, else the summary's outflow. */
  function MonthlyExpenses(d: InsightData): real {
    Or(d.contingencyMonthlyExpenses, Or(d.summary.totalMonthlyOutflow, 0.0))
  }

  /** Six months of expenses against a tenth of the assets taken as liquid. */
  function EmergencyFundOf(d: InsightData): (f: EmergencyFund)
    ensures f.required == MonthlyExpenses(d) * 6.0 && f.current == Or(d.summary.totalAssets, 0.0) * 0.1
    ensures f.status == "Adequate" <==> f.current >= f.required
  {
    var required := MonthlyExpenses(d) * 6.0;
    var liquid := Or(d.summary.totalAssets, 0.0) * 0.1;
    EmergencyFund(liquid, required, if liquid >= required then "Adequate" else "Needs Improvement")
  }

  function KeyStrengths(s: SummaryData): seq<Strength> {
    [ if Or(s.netWorth, 0.0) > 0.0 then NetWorthStrength(Or(s.netWorth, 0.0)) else BuildingWealth,
      if SavingsRate(s) >= 15.0 then SavingsStrength(SavingsRate(s)) else RegularIncome,
      if EmiBurden(s) <= 30.0 then LowEmi(EmiBurden(s)) else DebtManaged ]
  }

  /** Note the default: here a summary without the feasibility flag counts as feasible. */
  function Concerns(s: SummaryData, gs: GoalSummaryData): seq<Concern> {
    [ if RetirementGap(s) > 0.0 then RetirementGapConcern(RetirementGap(s)) else MonitorInflation,
      if EmiBurden(s) > 30.0 then EmiConcern(EmiBurden(s)) else OptimizeExpenses,
      if !Or(gs.allGoalsFeasible, true) then GoalShortfall else ReviewInsurance ]
  }

  function ActionPlan(d: InsightData, gs: GoalSummaryData): seq<PlanItem> {
    var fund := EmergencyFundOf(d);
    [ if ExtraSip(d.summary) > 0.0 then SetUpRetirementSip(ExtraSip(d.summary)) else ContinueRetirementSavings,
      if d.goals != [] then AllocateAcrossGoals(Or(gs.totalMonthlySip, 0.0)) else DefineGoals,
      if fund.current < fund.required then BuildEmergencyFund(fund.required) else EmergencyFundAdequate,
      ReviewExpenses,
      MaximizeTaxSaving ]
  }

  /**
   * The whole fallback report: a score in [25, 95] with its status, three
   * strengths, three concerns, at most seven recommendations, one insight
   * per goal in goal order, the emergency fund and a five-step plan.
   */
  function InsightsOf(d: InsightData): (r: Insights)
    ensures 25 <= r.healthScore <= 95 && r.healthStatus == HealthStatus(r.healthScore)
    ensures |r.keyStrengths| == 3 && |r.concerns| == 3 && |r.recommendations| <= 7 && |r.actionPlan| == 5
    ensures |r.goalInsights| == |d.goals| && forall i :: 0 <= i < |d.goals| ==> r.goalInsights[i] == InsightFor(d.goals[i])
    ensures r.emergencyFund.status == "Adequate" <==> r.emergencyFund.current >= r.emergencyFund.required
  {
    var gs := FirstGoalSummary(d.goals);
    var score := ScoreOf(d.summary, gs);
    Insights(score, HealthStatus(score), KeyStrengths(d.summary), Concerns(d.summary, gs),
      RecommendationsOf(d.summary, d.goals), seq(|d.goals|, i requires 0 <= i < |d.goals| => InsightFor(d.goals[i])),
      EmergencyFundOf(d), ActionPlan(d, gs))
  }

  /** generate_fallback_insights. */
  method GenerateFallbackInsights(d: InsightData) returns (r: Insights)
    ensures r == InsightsOf(d)
  {
    var gs := FindGoalSummary(d.goals);
    var score := HealthScore(d.summary, gs);
    var recs := BuildRecommendations(d.summary, d.goals);
    var goalInsights := BuildGoalInsights(d.goals);
    assert goalInsights == seq(|d.goals|, i requires 0 <= i < |d.goals| => InsightFor(d.goals[i]));
    r := Insights(score, HealthStatus(score), KeyStrengths(d.summary), Concerns(d.summary, gs),
      recs, goalInsights, EmergencyFundOf(d), ActionPlan(d, gs));
  }

  // ------------------------------------------------------------ properties

  /** The summary found is that of the first goal carrying one; with none, the empty record. */
  lemma {:induction false} FirstGoalSummaryIsFirst(goals: seq<GoalData>)
    ensures (forall i :: 0 <= i < |goals| ==> goals[i].summary.None?) ==> FirstGoalSummary(goals) == NoGoalSummary
    ensures forall i :: 0 <= i < |goals| && goals[i].summary.Some? && (forall j :: 0 <= j < i ==> goals[j].summary.None?) ==>
      FirstGoalSummary(goals) == goals[i].summary.value
  {
    if goals != [] {
      FirstGoalSummaryIsFirst(goals[1..]);
      assert forall i :: 1 <= i < |goals| ==> goals[1..][i - 1] == goals[i];
    }
  }

  /** The adjustments total between -25 and +50, so the score before clamping lies in [25, 100]: the floor of 20 never applies. */
  lemma RawScoreRange(s: SummaryData, gs: GoalSummaryData)
    ensures 25 <= RawScore(s, gs) <= 100
    ensures 25 <= ScoreOf(s, gs) <= 95
  {
  }

  /** A higher savings rate never lowers the score. */
  lemma ScoreMonotoneInSavings(s: SummaryData, gs: GoalSummaryData, lower: real, higher: real)
    requires lower <= higher
    ensures ScoreOf(s.(savingsRate := Some(lower)), gs) <= ScoreOf(s.(savingsRate := Some(higher)), gs)
  {
  }

  /** A lighter EMI burden never lowers the score. */
  lemma ScoreMonotoneInEmi(s: SummaryData, gs: GoalSummaryData, lighter: real, heavier: real)
    requires lighter <= heavier
    ensures ScoreOf(s.(emiBurden := Some(heavier)), gs) <= ScoreOf(s.(emiBurden := Some(lighter)), gs)
  {
  }

  /** A smaller retirement gap never lowers the score. */
  lemma ScoreMonotoneInGap(s: SummaryData, gs: GoalSummaryData, smaller: real, larger: real)
    requires smaller <= larger
    ensures ScoreOf(s.(retirementGap := Some(larger)), gs) <= ScoreOf(s.(retirementGap := Some(smaller)), gs)
  {
  }

  function StatusRank(status: string): int {
    if status == "Excellent" then 3 else if status == "Good" then 2 else if status == "Needs Attention" then 1 else 0
  }

  /** The status bands are ordered: a higher score never gets a worse status. */
  lemma StatusMonotone(a: int, b: int)
    requires a <= b
    ensures StatusRank(HealthStatus(a)) <= StatusRank(HealthStatus(b))
  {
  }

  /** Goal recommendations carry consecutive priorities from p. */
  lemma {:induction false} GoalRecsPriorities(goals: seq<GoalData>, p: int)
    ensures forall i :: 0 <= i < |GoalRecs(goals, p)| ==> GoalRecs(goals, p)[i].priority == p + i
  {
    if goals != [] {
      GoalRecsPriorities(goals[1..], p + 1);
      GoalRecsPriorities(goals[1..], p);
    }
  }

  /** Every goal recommendation comes from a CRITICAL or AT_RISK goal. */
  lemma {:induction false} GoalRecsFromAtRisk(goals: seq<GoalData>, p: int)
    ensures forall r :: r in GoalRecs(goals, p) ==> exists g :: g in goals && AtRisk(g) && r == GoalRec(g, r.priority)
  {
    if goals != [] {
      GoalRecsFromAtRisk(goals[1..], p + 1);
      GoalRecsFromAtRisk(goals[1..], p);
      assert forall g :: g in goals[1..] ==> g in goals;
    }
  }

  function CountAtRisk(goals: seq<GoalData>): nat {
    if goals == [] then 0 else (if AtRisk(goals[0]) then 1 else 0) + CountAtRisk(goals[1..])
  }

  /** Starting from priority p, the scan takes the at-risk goals until the priority would pass 5. */
  lemma {:induction false} GoalRecsCount(goals: seq<GoalData>, p: int)
    requires 1 <= p <= 5
    ensures |GoalRecs(goals, p)| == if CountAtRisk(goals) <= 6 - p then CountAtRisk(goals) else 6 - p
  {
    if goals != [] {
      if AtRisk(goals[0]) {
        if p < 5 {
          GoalRecsCount(goals[1..], p + 1);
        }
      } else {
        GoalRecsCount(goals[1..], p);
      }
    }
  }

  /** Recommendation priorities are 1, 2, 3, ... in list order. */
  lemma PrioritiesConsecutive(s: SummaryData, goals: seq<GoalData>)
    ensures var recs := RecommendationsOf(s, goals);
      forall i :: 0 <= i < |recs| ==> recs[i].priority == i + 1
  {
    var retirement := RetirementRecs(s);
    GoalRecsPriorities(goals, 1 + |retirement|);
  }

  /** Only the retirement recommendation has the "Retirement" category: goal categories begin "Goal: ". */
  lemma GoalCategoriesDiffer(s: SummaryData, goals: seq<GoalData>, p: int)
    ensures forall r :: r in GoalRecs(goals, p) ==>
      r.category != RetirementCategory && r.category != DebtCategory && r.category != SavingsCategory && r.action.AllocateToGoal?
  {
    GoalRecsFromAtRisk(goals, p);
    CategoryNamesDistinct();
    forall r | r in GoalRecs(goals, p)
      ensures r.category != RetirementCategory && r.category != DebtCategory && r.category != SavingsCategory && r.action.AllocateToGoal?
    {
      var g :| g in goals && AtRisk(g) && r == GoalRec(g, r.priority);
      assert r.category[0] == 'G';
    }
  }

  /** Some recommendation in the list has this category. */
  predicate HasCategory(recs: seq<Recommendation>, category: string) {
    exists i :: 0 <= i < |recs| && recs[i].category == category
  }

  lemma HasCategoryAppend(a: seq<Recommendation>, b: seq<Recommendation>, category: string)
    ensures HasCategory(a + b, category) <==> HasCategory(a, category) || HasCategory(b, category)
  {
    if HasCategory(a + b, category) {
      var i :| 0 <= i < |a + b| && (a + b)[i].category == category;
      if i < |a| {
        assert a[i] == (a + b)[i];
      } else {
        assert b[i - |a|] == (a + b)[i];
      }
    }
    if HasCategory(a, category) {
      var i :| 0 <= i < |a| && a[i].category == category;
      assert (a + b)[i] == a[i];
    }
    if HasCategory(b, category) {
      var i :| 0 <= i < |b| && b[i].category == category;
      assert (a + b)[|a| + i] == b[i];
    }
  }

  /** A category no goal recommendation carries is found in the list exactly when one of the other parts has it. */
  lemma CategoryInParts(retirement: seq<Recommendation>, goalRecs: seq<Recommendation>,
                        debt: seq<Recommendation>, savings: seq<Recommendation>, category: string)
    requires forall r :: r in goalRecs ==> r.category != category
    ensures HasCategory(retirement + goalRecs + debt + savings, category) <==>
      HasCategory(retirement, category) || HasCategory(debt, category) || HasCategory(savings, category)
  {
    HasCategoryAppend(retirement + goalRecs + debt, savings, category);
    HasCategoryAppend(retirement + goalRecs, debt, category);
    HasCategoryAppend(retirement, goalRecs, category);
  }

  /** The four parts of the recommendation list, with the priorities they start from. */
  lemma RecommendationParts(s: SummaryData, goals: seq<GoalData>)
    ensures var retirement := RetirementRecs(s);
      var goalRecs := GoalRecs(goals, 1 + |retirement|);
      var debt := DebtRecs(s, 1 + |retirement| + |goalRecs|);
      RecommendationsOf(s, goals) == retirement + goalRecs + debt + SavingsRecs(s, 1 + |retirement| + |goalRecs| + |debt|)
      && (forall r :: r in goalRecs ==>
            r.category != RetirementCategory && r.category != DebtCategory && r.category != SavingsCategory && r.action.AllocateToGoal?)
  {
    GoalCategoriesDiffer(s, goals, 1 + |RetirementRecs(s)|);
  }

  /** A retirement recommendation exists exactly when there is a retirement gap, and it then comes first with priority 1. */
  lemma RetirementRecommendation(s: SummaryData, goals: seq<GoalData>)
    ensures HasCategory(RecommendationsOf(s, goals), RetirementCategory) <==> RetirementGap(s) > 0.0
    ensures RetirementGap(s) > 0.0 ==>
      RecommendationsOf(s, goals)[0] == Recommendation(1, RetirementCategory, StartExtraSip(ExtraSip(s), RetirementGap(s)))
  {
    var retirement := RetirementRecs(s);
    var goalRecs := GoalRecs(goals, 1 + |retirement|);
    var debt := DebtRecs(s, 1 + |retirement| + |goalRecs|);
    var savings := SavingsRecs(s, 1 + |retirement| + |goalRecs| + |debt|);
    RecommendationParts(s, goals);
    CategoryNamesDistinct();
    CategoryInParts(retirement, goalRecs, debt, savings, RetirementCategory);
    if RetirementGap(s) > 0.0 {
      assert retirement[0].category == RetirementCategory;
      assert (retirement + goalRecs + debt + savings)[0] == retirement[0];
    }
  }

  /** A debt recommendation exists exactly when the EMI burden exceeds 40%. */
  lemma DebtRecommendation(s: SummaryData, goals: seq<GoalData>)
    ensures HasCategory(RecommendationsOf(s, goals), DebtCategory) <==> EmiBurden(s) > 40.0
  {
    var retirement := RetirementRecs(s);
    var goalRecs := GoalRecs(goals, 1 + |retirement|);
    var debt := DebtRecs(s, 1 + |retirement| + |goalRecs|);
    var savings := SavingsRecs(s, 1 + |retirement| + |goalRecs| + |debt|);
    RecommendationParts(s, goals);
    CategoryNamesDistinct();
    CategoryInParts(retirement, goalRecs, debt, savings, DebtCategory);
    if EmiBurden(s) > 40.0 {
      assert debt[0].category == DebtCategory;
    }
  }

  /** A savings recommendation exists exactly when the savings rate is below 20%. */
  lemma SavingsRecommendation(s: SummaryData, goals: seq<GoalData>)
    ensures HasCategory(RecommendationsOf(s, goals), SavingsCategory) <==> SavingsRate(s) < 20.0
  {
    var retirement := RetirementRecs(s);
    var goalRecs := GoalRecs(goals, 1 + |retirement|);
    var debt := DebtRecs(s, 1 + |retirement| + |goalRecs|);
    var savings := SavingsRecs(s, 1 + |retirement| + |goalRecs| + |debt|);
    RecommendationParts(s, goals);
    CategoryNamesDistinct();
    CategoryInParts(retirement, goalRecs, debt, savings, SavingsCategory);
    if SavingsRate(s) < 20.0 {
      assert savings[0].category == SavingsCategory;
    }
  }

  /** Every savings increase recommended is the shortfall to a fifth of the inflow, never negative. */
  lemma SavingsIncreaseSuggested(s: SummaryData, goals: seq<GoalData>)
    ensures var recs := RecommendationsOf(s, goals);
      forall i :: 0 <= i < |recs| && recs[i].action.IncreaseSavings? ==> recs[i].action.amount == SavingsIncrease(s) >= 0.0
  {
    var recs := RecommendationsOf(s, goals);
    RecommendationParts(s, goals);
    forall i | 0 <= i < |recs| && recs[i].action.IncreaseSavings?
      ensures recs[i].action.amount == SavingsIncrease(s) >= 0.0
    {
      assert recs[i] in recs;
    }
  }

  /** The emergency-fund status and the action plan's emergency item make the same call. */
  lemma EmergencyFundConsistent(d: InsightData, gs: GoalSummaryData)
    ensures EmergencyFundOf(d).status == "Adequate" <==> Or(d.summary.totalAssets, 0.0) * 0.1 >= 6.0 * MonthlyExpenses(d)
    ensures EmergencyFundOf(d).status == "Adequate" <==> ActionPlan(d, gs)[2] == EmergencyFundAdequate
  {
  }

  /**
   * Without a goal summary the two reads of the feasibility flag disagree:
   * the score counts the goals as not all feasible, while the concerns do
   * not report a funding shortfall.
   */
  lemma MissingSummaryDefaults(s: SummaryData)
    ensures RawScore(s, NoGoalSummary) == 45 + SavingsPoints(SavingsRate(s)) + EmiPoints(EmiBurden(s))
      + GapPoints(RetirementGap(s), Or(s.totalAssets, 1.0))
    ensures Concerns(s, NoGoalSummary)[2] == ReviewInsurance
  {
  }
}
