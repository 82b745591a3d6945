/**
 * The shared data model of the startup simulation: the single game state
 * record and the entities it holds.
 *
 * Money and rates (cash, MRR, churn, runway, multipliers) are `real`;
 * scores and counters (sanity, PMF, tech debt, leads, philosophy) are `int`.
 * Dates, ids, timestamps and flavour text are opaque strings or left out.
 */
module GameTypes {

  datatype Option<T> = None | Some(value: T)

  datatype Role = Engineer | Sales | CS | Marketer | Manager

  /** Funding phase; it only ever moves forward. */
  datatype Phase = Seed | SeriesA | SeriesB

  datatype CoFounderType = Hacker | Hustler

  datatype InvestorType = NoInvestor | Blitz | Product | Family

  datatype PricingStrategy = PricingPlg | PricingEnterprise | PricingBlitz

  datatype CultureType = Innovation | Stability

  datatype MarketTrend = Normal | SaasBoom | Recession | CompetitorFud

  datatype SalesTarget = Friends | Startup | Enterprise | Whale

  /** The kind of a major event, matched against investor preferences. */
  datatype MajorEventType = BigDeal | Brand | RandomBuzz

  /** Maturity bucket of the product, derived from the PMF score. */
  datatype ProductPhase = Prototype | Validation | EarlyPmf | PmfEstablished | Scale

  datatype NotificationType = Slack | System | News | Alert | Death | Social | FamilyDm

  datatype NotificationTone =
    | ToneNormal | Urgent | Cold | Robotic | FamilyLove | FamilyAngry | FamilySad

  datatype LogType = LogInfo | LogSuccess | LogWarning | LogCritical | LogEvent

  /** Severity of a narrative event; a critical one forces decision mode. */
  datatype Severity = SeverityNormal | SeverityCritical

  /** The narrative events the trigger evaluator can raise. */
  datatype EventId = TutSideGig | TutRecruit | MentorChoice | SeriesBRound

  /**
   * The choices of those events. A choice's effect (a function from the
   * state to a partial state) is interpreted by Scenario.ChoiceEffect.
   */
  datatype ChoiceId =
    | TutGigYes | TutGigNo
    | TutHireYes | TutHireNo
    | MentorBlitz | MentorProduct | MentorFamily
    | SeriesBGo

  datatype NarrativeEvent = NarrativeEvent(id: EventId, severity: Severity, choices: seq<ChoiceId>)

  /** An employee; `managerId` None means the employee reports to the CEO. */
  datatype Employee = Employee(
    id: string,
    name: string,
    role: Role,
    salary: int,
    isNewHire: bool,
    managerId: Option<string>,
    culture: CultureType)

  datatype CoFounder = CoFounder(kind: CoFounderType, relationship: int)

  datatype Kpi = Kpi(mrr: real, churnRate: real, cac: real, ltv: real, growthMoM: real)

  datatype Flags = Flags(
    hasReceivedSubsidy: bool,
    ctoLeft: bool,
    competitorAttacked: bool,
    pmfFrozen: bool,
    spaghettiCodeCrisis: bool,
    downRoundCount: int,
    featureCreepMonths: int,
    boiledFrogMonths: int,
    marketTrendWeeksLeft: int,
    interviewUnlocked: bool,
    sideGigUnlocked: bool,
    recruitUnlocked: bool)

  /** Per-turn outputs of the engine, overwritten every turn. */
  datatype PipelineMetrics = PipelineMetrics(
    leadsGenerated: int,
    salesCapacity: int,
    leadsProcessed: int,
    leadsLost: int,
    newDeals: int,
    csCapacity: int,
    requiredCs: int,
    activeIncidents: int,
    goldenLeadsActive: bool,
    organicGrowthFactor: real)

  /** The four hidden karma scores used to classify the ending. */
  datatype Philosophy = Philosophy(ruthlessness: int, craftsmanship: int, dishonesty: int, loneliness: int)

  datatype LogEntry = LogEntry(week: int, kind: LogType)

  datatype Notification = Notification(kind: NotificationType, message: string, tone: NotificationTone, isRead: bool)

  datatype FiredRecord = FiredRecord(name: string, role: Role, date: string)

  /** A temporary easing of deal difficulty, counted down once per turn. */
  datatype DifficultyModifier = DifficultyModifier(remainingWeeks: int, modifier: real)

  datatype InvestorState = InvestorState(kind: InvestorType, reputation: int)

  /** A phase-gated, high-stakes negotiation. */
  datatype MajorEvent = MajorEvent(
    id: string,
    kind: MajorEventType,
    phase: Phase,
    resistance: int,
    rewardMrr: real,
    rewardBuffTurns: Option<int>,
    rewardBuffModifier: Option<real>,
    eventSuccessModifier: real,
    moves: int,
    failureCostSales: Option<real>,
    failureCostDev: Option<int>,
    favoredBy: seq<InvestorType>,
    dislikedBy: seq<InvestorType>)

  datatype GameState = GameState(
    date: string,
    week: int,
    cash: real,
    runwayMonths: real,
    sanity: int,
    phase: Phase,
    pmfScore: int,
    coFounder: Option<CoFounder>,
    employees: seq<Employee>,
    kpi: Kpi,
    marketingBudget: int,
    leads: int,
    techDebt: int,
    hiringFrictionWeeks: int,
    mentorType: InvestorType,
    investorType: InvestorType,
    lastMonthMrr: real,
    pricingStrategy: PricingStrategy,
    marketTrend: MarketTrend,
    flags: Flags,
    pipelineMetrics: Option<PipelineMetrics>,
    activeEvent: Option<NarrativeEvent>,
    philosophy: Philosophy,
    familyRelationship: int,
    isMachineMode: bool,
    isDecisionMode: bool,
    isGameOver: bool,
    notifications: seq<Notification>,
    logs: seq<LogEntry>,
    whaleOpportunity: bool,
    firedEmployeesHistory: seq<FiredRecord>,
    // fields the services use beyond the declared record
    difficultyModifier: Option<DifficultyModifier>,
    investors: seq<InvestorState>,
    activeMajorEvent: Option<MajorEvent>,
    majorEventCountByPhase: map<Phase, nat>,
    productQuality: Option<int>,
    productPhase: Option<ProductPhase>,
    averageUnitPrice: Option<int>,
    lastPmfDelta: Option<int>)

  /** Position of a phase in the funding order. */
  function PhaseOrder(p: Phase): nat
  {
    match p
    case Seed => 0
    case SeriesA => 1
    case SeriesB => 2
  }

  /** Number of employees holding role `r`. */
  function CountRole(emps: seq<Employee>, r: Role): (n: nat)
    ensures n <= |emps|
    ensures n == 0 <==> forall i :: 0 <= i < |emps| ==> emps[i].role != r
  {
    if emps == [] then 0
    else (if emps[0].role == r then 1 else 0) + CountRole(emps[1..], r)
  }

  function Max(a: int, b: int): int { if a >= b then a else b }
  function Min(a: int, b: int): int { if a <= b then a else b }
  function MaxR(a: real, b: real): real { if a >= b then a else b }
  function MinR(a: real, b: real): real { if a <= b then a else b }

  /** `Math.max(lo, Math.min(hi, v))` on reals. */
  function ClampR(v: real, lo: real, hi: real): (r: real)
    requires lo <= hi
    ensures lo <= r <= hi
    ensures lo <= v <= hi ==> r == v
  {
    MaxR(lo, MinR(hi, v))
  }

  /** `Math.max(lo, Math.min(hi, v))` on integers. */
  function Clamp(v: int, lo: int, hi: int): (r: int)
    requires lo <= hi
    ensures lo <= r <= hi
    ensures lo <= v <= hi ==> r == v
  {
    Max(lo, Min(hi, v))
  }

  /** Dividing by a fixed positive number preserves order. */
  lemma DivideMonotone(x: real, y: real, d: real)
    requires d > 0.0 && x <= y
    ensures x / d <= y / d
  {
    assert y / d - x / d == (y - x) / d;
  }

  /** JavaScript's `Math.round`: halves round up. */
  function Round(x: real): int
  {
    (x + 0.5).Floor
  }
}
