/**
 * The household state the planning engine reads (profile, goals, assets,
 * liabilities, monthly cash flow and planning assumptions) and the records it
 * produces. Dates are day numbers; amounts and rates are reals.
 */
module PlanningTypes {
  import opened Wrappers

  datatype Relation = PrimaryRelation | SpouseRelation | ChildRelation | FatherRelation | MotherRelation

  datatype FamilyMember = FamilyMember(
    id: string,
    name: string,
    dob: Option<int>,
    relation: Relation,
    expectedRetirementAge: Option<int>)

  datatype PrimaryUser = PrimaryUser(
    name: string,
    dob: int,
    retirementAge: int,
    pensionTillAge: int,
    lifeExpectancy: int)

  datatype SpouseInfo = SpouseInfo(
    name: string,
    dob: int,
    working: bool,
    retirementAge: Option<int>,
    pensionTillAge: Option<int>)

  datatype UserProfile = UserProfile(
    primary: PrimaryUser,
    spouse: Option<SpouseInfo>,
    familyMembers: seq<FamilyMember>)

  datatype TargetType = AgeTarget | DateTarget

  /** A goal; its target is text: an age ("18") or an ISO date ("2030-06-01"). */
  datatype Goal = Goal(
    id: string,
    personName: Option<string>,
    name: string,
    currentCost: real,
    targetType: TargetType,
    targetValue: string)

  datatype RealEstate = RealEstate(name: string, presentValue: real, outstandingLoan: real)

  datatype BankAccount = BankAccount(bankName: string, balance: real)

  datatype Investment = Investment(currentValue: real, monthlySip: real)

  datatype InsurancePolicy = InsurancePolicy(policyName: string, sumAssured: real, maturityAmount: Option<real>)

  datatype Assets = Assets(
    realEstate: seq<RealEstate>,
    bankAccounts: seq<BankAccount>,
    investments: seq<Investment>,
    insurancePolicies: seq<InsurancePolicy>,
    liquidCash: real)

  datatype Liability = Liability(outstanding: real, emi: real, interestRate: real, tenureMonths: int)

  datatype Inflows = Inflows(
    primaryIncome: real,
    spouseIncome: real,
    rentalIncome: real,
    additionalIncome: real,
    other: real)

  datatype EssentialExpenses = EssentialExpenses(
    houseRent: real,
    maintenance: real,
    propertyTax: real,
    utilities: real,
    groceries: real,
    transportation: real,
    medicalExpenses: real,
    childrenSchoolFees: real,
    insurancePremiums: real,
    other: real)

  datatype LifestyleExpenses = LifestyleExpenses(
    maidExpense: real,
    shopping: real,
    travel: real,
    diningEntertainment: real,
    other: real)

  /** Monthly outflows: aggregates, optional itemised breakdowns, linked totals. */
  datatype Outflows = Outflows(
    essential: real,
    lifestyle: real,
    essentialDetails: Option<EssentialExpenses>,
    lifestyleDetails: Option<LifestyleExpenses>,
    linkedEmis: real,
    linkedInvestments: real)

  datatype CashFlow = CashFlow(inflows: Inflows, outflows: Outflows)

  datatype Assumptions = Assumptions(
    inflation: real,
    childInflation: real,
    preRetireRoi: real,
    postRetireRoi: real)

  /** The defaults: 6% inflation, 10% child inflation, 12% and 8% returns. */
  const DefaultAssumptions := Assumptions(0.06, 0.10, 0.12, 0.08)

  datatype FullState = FullState(
    userProfile: UserProfile,
    goals: seq<Goal>,
    assets: Assets,
    liabilities: seq<Liability>,
    cashFlow: CashFlow,
    assumptions: Assumptions)

  // ---------------------------------------------------------------- results

  datatype TimeMetrics = TimeMetrics(
    currentAge: real,
    retirementAge: int,
    yearsToRetire: real,
    monthsToRetire: int)

  datatype Retirement = Retirement(
    currentMonthlyExpenses: real,
    expenseAtRetirementMonthly: real,
    realRate: real,
    pensionYears: int,
    corpusRequired: real,
    moneyToRetireNow: real)

  datatype GoalStatus = PastDue | Achieved | OnTrack | NeedsAttention | AtRisk | Critical

  datatype GoalAnalysis = GoalAnalysis(
    id: string,
    name: string,
    personName: Option<string>,
    currentCost: real,
    yearsToGoal: real,
    monthsToGoal: int,
    futureCost: real,
    monthlySipRequired: real,
    status: GoalStatus,
    feasibility: string,
    surplusAllocationPercent: real)

  datatype GoalSummary = GoalSummary(
    totalMonthlySip: real,
    monthlySurplus: real,
    surplusAfterGoals: real,
    allGoalsFeasible: bool)

  datatype Ratios = Ratios(
    savingsRate: real,
    emiBurden: real,
    investmentRate: real,
    essentialPercent: real,
    lifestylePercent: real)

  datatype Dashboard = Dashboard(
    totalAssets: real,
    totalLiabilities: real,
    netWorth: real,
    totalMonthlyInflow: real,
    totalMonthlyOutflow: real,
    leftoverSavings: real,
    ratios: Ratios,
    projectedCorpus: real,
    retirementGap: real,
    extraSipRequired: real)

  datatype CashflowRow = CashflowRow(
    year: int,
    beginValue: real,
    monthlyPension: real,
    pensionPaidYearly: real,
    endValue: real)

  datatype ChildGoalPlan = ChildGoalPlan(
    goalName: string,
    presentCost: real,
    targetAge: int,
    monthsLeft: int,
    inflation: real,
    costAtTarget: real,
    expectedReturn: real,
    monthlySipRequired: real)

  datatype ChildPlan = ChildPlan(
    childName: string,
    childCurrentAge: real,
    goals: seq<ChildGoalPlan>,
    totalMonthlySip: real)

  datatype ContingencyFund = ContingencyFund(
    monthlyExpenses: real,
    monthsRequired: int,
    fundRequired: real)

  datatype InsuranceCover = InsuranceCover(
    memberName: string,
    monthlyIncome: real,
    currentAge: real,
    retirementAge: int,
    expectedGrowth: real,
    yearsLeft: int,
    coverRequired: real)

  datatype Analysis = Analysis(
    timeMetrics: TimeMetrics,
    retirement: Retirement,
    goals: seq<GoalAnalysis>,
    goalSummary: Option<GoalSummary>,
    summary: Dashboard,
    cashflowTable: seq<CashflowRow>,
    childPlanning: seq<ChildPlan>,
    contingencyFund: ContingencyFund,
    insuranceCover: seq<InsuranceCover>)
}
