/**
 * The weekly turn engine: a fixed-order pipeline over a copy of the state
 * (market trend, investor upkeep and hiring friction, the lead pipeline,
 * churn, cash and runway, the monthly review, random drift, the narrative
 * trigger and the mode transitions).
 *
 * Every `Math.random()` is an explicit roll in `TurnRolls`; the monthly burn
 * is an input because the engine reads it from the last rendered state, not
 * from the state it is updating; the next date is an input because date
 * arithmetic is not modelled.
 */
module GameEngine {
  import opened GameTypes
  import Scenario

  /** The player's clicks collected during the week. */
  datatype TurnBonuses = TurnBonuses(goldenLeadHit: bool, incidentsResolved: int)

  /** The random draws of one turn, in the order the engine takes them. */
  datatype TurnRolls = TurnRolls(trend: real, drift: real, whale: real, incident: real, golden: real)

  /** The intermediate figures of the lead pipeline. */
  datatype LeadFlow = LeadFlow(
    generated: int,
    organic: int,
    virality: real,
    capacity: int,
    processed: int,
    lost: int,
    newDeals: int,
    newMrr: real,
    customersAfterSales: int,
    csCapacity: int)

  const FounderSalary: real := 300000.0
  const ServerBaseCost: real := 10000.0
  const ServerCostPerMrr: real := 0.05
  const MinChurn: real := 0.005

  // ---------------------------------------------------------------------
  // Burn

  /** Sum of the employees' salaries. */
  function SumSalaries(emps: seq<Employee>): (total: int)
    ensures (forall i :: 0 <= i < |emps| ==> emps[i].salary >= 0) ==> total >= 0
  {
    if emps == [] then 0 else emps[0].salary + SumSalaries(emps[1..])
  }

  /** Appending an employee adds exactly that employee's salary. */
  lemma {:induction false} SumSalariesAppend(emps: seq<Employee>, e: Employee)
    ensures SumSalaries(emps + [e]) == SumSalaries(emps) + e.salary
    decreases |emps|
  {
    if emps == [] {
      assert [e][1..] == [];
    } else {
      assert (emps + [e])[1..] == emps[1..] + [e];
      SumSalariesAppend(emps[1..], e);
    }
  }

  /** Office rent per phase: none in the seed phase. */
  function OfficeRent(p: Phase): (rent: real)
    ensures p == Seed <==> rent == 0.0
  {
    match p
    case Seed => 0.0
    case SeriesA => 500000.0
    case SeriesB => 3000000.0
  }

  /** A later phase never pays less rent. */
  lemma RentFollowsPhase(p: Phase, q: Phase)
    requires PhaseOrder(p) <= PhaseOrder(q)
    ensures OfficeRent(p) <= OfficeRent(q)
  {
  }

  /** Founder salary, staff, rent, servers (10,000 plus 5% of MRR) and marketing. */
  function MonthlyBurn(s: GameState): (burn: real)
    ensures SumSalaries(s.employees) >= 0 && s.kpi.mrr >= 0.0 && s.marketingBudget >= 0 ==>
              burn >= FounderSalary + ServerBaseCost + OfficeRent(s.phase)
  {
    FounderSalary + SumSalaries(s.employees) as real + OfficeRent(s.phase)
      + (ServerBaseCost + s.kpi.mrr * ServerCostPerMrr) + s.marketingBudget as real
  }

  /** Hiring raises the burn by exactly the new salary. */
  lemma HireRaisesBurn(s: GameState, e: Employee)
    ensures MonthlyBurn(s.(employees := s.employees + [e])) == MonthlyBurn(s) + e.salary as real
  {
    SumSalariesAppend(s.employees, e);
  }

  // ---------------------------------------------------------------------
  // Conversion

  function StrategyConversionFactor(st: PricingStrategy): real
  {
    match st
    case PricingPlg => 1.5
    case PricingEnterprise => 0.5
    case PricingBlitz => 3.0
  }

  function TrendConversionFactor(t: MarketTrend): real
  {
    match t
    case SaasBoom => 1.3
    case Recession => 0.7
    case _ => 1.0
  }

  /** A product-minded investor's veto: no sales while debt is high or PMF is weak. */
  predicate ProductVeto(pmf: int, techDebt: int, investor: InvestorType)
  {
    investor == Product && (techDebt > 30 || pmf < 40)
  }

  /**
   * The share of processed leads that convert: zero under the product veto,
   * otherwise 5% of the PMF share, scaled by strategy and trend, and by 0.8
   * when tech debt is above 30.
   */
  function CalcConversionRate(pmf: int, techDebt: int, investor: InvestorType,
                              strategy: PricingStrategy, trend: MarketTrend): (rate: real)
    ensures ProductVeto(pmf, techDebt, investor) ==> rate == 0.0
    ensures pmf >= 0 ==> rate >= 0.0
    ensures 0 <= pmf <= 100 ==> rate <= 0.195
  {
    if ProductVeto(pmf, techDebt, investor) then 0.0
    else
      var base := 0.05 * (pmf as real / 100.0);
      var scaled := base * StrategyConversionFactor(strategy) * TrendConversionFactor(trend);
      var penalty := if techDebt > 30 then 0.8 else 1.0;
      ConversionBounds(pmf, StrategyConversionFactor(strategy), TrendConversionFactor(trend), penalty);
      scaled * penalty
  }

  lemma ConversionBounds(pmf: int, sf: real, tf: real, penalty: real)
    requires 0.5 <= sf <= 3.0 && 0.7 <= tf <= 1.3 && 0.8 <= penalty <= 1.0
    ensures pmf >= 0 ==> 0.05 * (pmf as real / 100.0) * sf * tf * penalty >= 0.0
    ensures 0 <= pmf <= 100 ==> 0.05 * (pmf as real / 100.0) * sf * tf * penalty <= 0.195
  {
    var b := 0.05 * (pmf as real / 100.0);
    if 0 <= pmf {
      assert b >= 0.0;
      assert b * sf >= 0.0;
      assert b * sf * tf >= 0.0;
      assert b * sf * tf * penalty >= 0.0;
      if pmf <= 100 {
        assert b <= 0.05;
        assert b * sf <= 0.05 * 3.0 by { assert b * sf <= b * 3.0; }
        assert b * sf * tf <= 0.15 * 1.3 by { assert b * sf * tf <= b * sf * 1.3; }
        assert b * sf * tf * penalty <= b * sf * tf;
      }
    }
  }

  /** Away from the product veto, high tech debt costs exactly a fifth of the conversion rate. */
  lemma DebtPenaltyIsTwentyPercent(pmf: int, techDebt: int, investor: InvestorType,
                                   strategy: PricingStrategy, trend: MarketTrend)
    requires techDebt > 30 && investor != Product
    ensures CalcConversionRate(pmf, techDebt, investor, strategy, trend)
            == 0.8 * CalcConversionRate(pmf, 0, investor, strategy, trend)
  {
  }

  // ---------------------------------------------------------------------
  // Machine mode

  /** A founder out of sanity turns into a machine: machine mode on and sanity pinned to 0. */
  function CheckMachineMode(s: GameState): (r: GameState)
    ensures s.sanity <= 0 && !s.isMachineMode ==> r == s.(isMachineMode := true, sanity := 0)
    ensures !(s.sanity <= 0 && !s.isMachineMode) ==> r == s
    ensures r.sanity <= 0 ==> r.isMachineMode
  {
    if s.sanity <= 0 && !s.isMachineMode then s.(isMachineMode := true, sanity := 0) else s
  }

  /** Checking twice is checking once. */
  lemma CheckMachineModeIdempotent(s: GameState)
    ensures CheckMachineMode(CheckMachineMode(s)) == CheckMachineMode(s)
  {
  }

  // ---------------------------------------------------------------------
  // The stages of one turn

  /** The trend and its duration that a roll picks. */
  function NewTrend(roll: real): (pick: (MarketTrend, int))
    ensures pick.1 > 0
    ensures pick.0 == SaasBoom <==> roll < 0.3
    ensures pick.0 == Recession <==> 0.3 <= roll < 0.6
    ensures pick.0 == CompetitorFud <==> 0.6 <= roll < 0.8
  {
    if roll < 0.3 then (SaasBoom, 6)
    else if roll < 0.6 then (Recession, 8)
    else if roll < 0.8 then (CompetitorFud, 4)
    else (Normal, 8)
  }

  /** Count the current trend down, or draw a new trend once it has run out. */
  method TickMarket(trend: MarketTrend, weeksLeft: int, roll: real) returns (trend': MarketTrend, weeksLeft': int)
    ensures weeksLeft <= 0 ==> (trend', weeksLeft') == NewTrend(roll) && weeksLeft' > 0
    ensures weeksLeft > 0 ==> trend' == trend && weeksLeft' == weeksLeft - 1
  {
    trend', weeksLeft' := trend, weeksLeft;
    if weeksLeft' <= 0 {
      var pick := NewTrend(roll);
      trend', weeksLeft' := pick.0, pick.1;
    } else {
      weeksLeft' := weeksLeft' - 1;
    }
  }

  /** Monthly revenue per customer for a strategy in a phase. */
  function Arpu(strategy: PricingStrategy, phase: Phase): (arpu: real)
    ensures arpu >= 0.0
    ensures arpu == 0.0 <==> strategy == PricingBlitz
  {
    var phaseMultiplier := match phase case Seed => 1.0 case SeriesA => 1.6 case SeriesB => 2.4;
    match strategy
    case PricingPlg => 12000.0 * phaseMultiplier
    case PricingEnterprise => 120000.0 * phaseMultiplier
    case PricingBlitz => 0.0
  }

  /** Word of mouth: grows with PMF above 40, scaled by investor, strategy and trend. */
  function Virality(s: GameState): (v: real)
    ensures v >= 0.0
    ensures s.pmfScore <= 40 ==> v == 0.0
  {
    var base := if s.pmfScore > 40 then (s.pmfScore - 40) as real / 600.0 else 0.0;
    var a := if s.investorType == Blitz then base * 1.2 else base;
    var b := if s.pricingStrategy == PricingPlg then a * 1.5
             else if s.pricingStrategy == PricingBlitz then a * 2.0 else a;
    if s.marketTrend == SaasBoom then b * 1.5 else b
  }

  lemma ProductNonNegative(a: real, b: real)
    requires a >= 0.0 && b >= 0.0
    ensures a * b >= 0.0
  {
  }

  /** A machine founder works twice as hard. */
  function Productivity(s: GameState): (p: real)
    ensures p == 1.0 || p == 2.0
    ensures p == 2.0 <==> s.isMachineMode
  {
    if s.isMachineMode then 2.0 else 1.0
  }

  /**
   * How hard each yen of marketing works: a blitz investor adds a fifth
   * for every 1,000,000 of budget, and competitor FUD takes 30% off.
   */
  function MarketingEfficiency(s: GameState): (e: real)
    ensures s.marketingBudget >= 0 ==> e >= 0.7
    ensures s.investorType != Blitz ==> e == (if s.marketTrend == CompetitorFud then 0.7 else 1.0)
  {
    var e := if s.investorType == Blitz then 1.0 + s.marketingBudget as real / 5000000.0 else 1.0;
    if s.marketTrend == CompetitorFud then e * 0.7 else e
  }

  /** `base` scaled by `factor` and `productivity`, rounded down: how leads and capacities are counted. */
  function ScaledFloor(base: real, factor: real, productivity: real): (n: int)
    ensures base >= 0.0 && factor >= 0.0 && productivity >= 0.0 ==> n >= 0
    ensures base == 0.0 ==> n == 0
  {
    if base >= 0.0 && factor >= 0.0 && productivity >= 0.0 then
      ProductNonNegative(base, factor);
      ProductNonNegative(base * factor, productivity);
      (base * factor * productivity).Floor
    else (base * factor * productivity).Floor
  }

  /** Leads the marketing budget buys: one per 10,000, scaled by efficiency and productivity, rounded down. */
  function BudgetLeads(s: GameState, productivity: real): (n: int)
    ensures s.marketingBudget >= 0 && productivity >= 0.0 ==> n >= 0
    ensures s.marketingBudget == 0 ==> n == 0
  {
    ScaledFloor(s.marketingBudget as real / 10000.0, MarketingEfficiency(s), productivity)
  }

  /** Current customers: MRR over the revenue per customer (1 when that is 0), rounded down, at least 1. */
  function CurrentCustomers(s: GameState): (n: int)
    ensures n >= 1
    ensures s.kpi.mrr < Arpu(s.pricingStrategy, s.phase) ==> n == 1
  {
    var arpu := Arpu(s.pricingStrategy, s.phase);
    Max(1, (s.kpi.mrr / (if arpu == 0.0 then 1.0 else arpu)).Floor)
  }

  /** Word-of-mouth leads: current customers times virality, rounded down. */
  function OrganicLeads(s: GameState): (n: int)
    ensures n >= 0
    ensures s.pmfScore <= 40 ==> n == 0
  {
    FloorShare(CurrentCustomers(s), Virality(s))
  }

  /**
   * New leads of the week: the marketing budget buys one lead per 10,000
   * (a blitz investor makes big budgets work harder, competitor FUD takes
   * 30% off, a machine founder doubles it), and current customers bring
   * word-of-mouth leads at the virality rate.
   */
  method LeadSupply(s: GameState, productivity: real) returns (budgetLeads: int, organicLeads: int, virality: real)
    requires productivity >= 0.0
    ensures budgetLeads == BudgetLeads(s, productivity)
    ensures organicLeads == OrganicLeads(s)
    ensures s.marketingBudget >= 0 ==> budgetLeads >= 0
    ensures organicLeads >= 0
    ensures virality == Virality(s)
    ensures s.pmfScore <= 40 ==> organicLeads == 0
  {
    var marketingEfficiency := 1.0;
    if s.investorType == Blitz {
      marketingEfficiency := 1.0 + s.marketingBudget as real / 5000000.0;
    }
    if s.marketTrend == CompetitorFud {
      marketingEfficiency := marketingEfficiency * 0.7;
    }
    assert marketingEfficiency == MarketingEfficiency(s);
    var budget := s.marketingBudget as real / 10000.0;
    budgetLeads := ScaledFloor(budget, marketingEfficiency, productivity);

    var arpu := Arpu(s.pricingStrategy, s.phase);
    var currentCustomers := Max(1, (s.kpi.mrr / (if arpu == 0.0 then 1.0 else arpu)).Floor);
    virality := Virality(s);
    organicLeads := FloorShare(currentCustomers, virality);
  }

  /** Hiring friction takes 10% off every capacity. */
  function Friction(frictionActive: bool): real
  {
    if frictionActive then 0.9 else 1.0
  }

  /** The founder's own selling: 5 leads in the seed phase, 2 in Series A, none later. */
  function FounderPower(phase: Phase): (p: real)
    ensures p >= 0.0
    ensures PhaseOrder(phase) > 0 ==> p < 5.0
  {
    match phase case Seed => 5.0 case SeriesA => 2.0 case SeriesB => 0.0
  }

  /** The sales team's raw weekly power: ten leads per rep, half as many again with a hustler, plus the founder's. */
  function SalesPower(salesCount: nat, hustler: bool, phase: Phase): (p: real)
    ensures p >= 0.0
  {
    ProductNonNegative(salesCount as real * 10.0, if hustler then 1.5 else 1.0);
    salesCount as real * 10.0 * (if hustler then 1.5 else 1.0) + FounderPower(phase)
  }

  /**
   * Leads processed per week: the sales power times friction and
   * productivity, rounded down; nothing while the product is frozen.
   */
  function SalesCapacity(salesCount: nat, hustler: bool, phase: Phase, pmfFrozen: bool,
                         frictionActive: bool, productivity: real): (n: int)
    ensures productivity >= 0.0 ==> n >= 0
    ensures pmfFrozen ==> n == 0
  {
    if pmfFrozen then 0 else ScaledFloor(SalesPower(salesCount, hustler, phase), Friction(frictionActive), productivity)
  }

  /** Customers served per week: twenty per CS rep, times friction and productivity, rounded down. */
  function CsCapacity(csCount: nat, frictionActive: bool, productivity: real): (n: int)
    ensures productivity >= 0.0 ==> n >= 0
    ensures csCount == 0 ==> n == 0
  {
    ScaledFloor(csCount as real * 20.0, Friction(frictionActive), productivity)
  }

  /**
   * Weekly capacities: ten leads per sales rep (half as many again with a
   * hustler co-founder) plus the founder's own 5 in the seed phase and 2 in
   * Series A, twenty customers per CS rep; hiring friction takes 10% and a
   * machine founder doubles both. A frozen product sells nothing.
   */
  method Capacities(salesCount: nat, csCount: nat, hustler: bool, phase: Phase, pmfFrozen: bool,
                    frictionActive: bool, productivity: real) returns (sales: int, cs: int)
    requires productivity >= 0.0
    ensures sales == SalesCapacity(salesCount, hustler, phase, pmfFrozen, frictionActive, productivity)
    ensures cs == CsCapacity(csCount, frictionActive, productivity)
    ensures sales >= 0 && cs >= 0
    ensures pmfFrozen ==> sales == 0
  {
    var friction := if frictionActive then 0.9 else 1.0;
    var salesBonus := if hustler then 1.5 else 1.0;
    var founderPower := match phase case Seed => 5.0 case SeriesA => 2.0 case SeriesB => 0.0;
    var salesPower := salesCount as real * 10.0 * salesBonus + founderPower;
    sales := if pmfFrozen then 0 else ScaledFloor(salesPower, friction, productivity);

    var csPower := csCount as real * 20.0;
    cs := ScaledFloor(csPower, friction, productivity);
  }

  /** The share of processed leads that convert this week: the base rate, plus 15 points for a golden lead. */
  function Conversion(s: GameState, goldenLeadHit: bool): (rate: real)
    ensures 0 <= s.pmfScore <= 100 ==> 0.0 <= rate <= 0.345
  {
    var base := CalcConversionRate(s.pmfScore, s.techDebt, s.investorType, s.pricingStrategy, s.marketTrend);
    if goldenLeadHit then base + 0.15 else base
  }

  /** The share `rate` of `count` items, rounded down: deals from processed leads, leads from customers. */
  function FloorShare(count: int, rate: real): (n: int)
    ensures count >= 0 && rate >= 0.0 ==> n >= 0
    ensures count >= 0 && 0.0 <= rate <= 1.0 ==> n <= count
  {
    if count >= 0 && rate >= 0.0 then
      ProductNonNegative(count as real, rate);
      if rate <= 1.0 then
        DealsBound(count, rate);
        (count as real * rate).Floor
      else (count as real * rate).Floor
    else (count as real * rate).Floor
  }

  /** New MRR of `deals` deals, each worth `arpu`. */
  function DealRevenue(deals: int, arpu: real): (m: real)
    ensures deals >= 0 && arpu >= 0.0 ==> m >= 0.0
    ensures deals == 0 || arpu == 0.0 ==> m == 0.0
  {
    if deals >= 0 && arpu >= 0.0 then
      ProductNonNegative(deals as real, arpu);
      deals as real * arpu
    else deals as real * arpu
  }

  /** Customers paying `mrr` at `arpu` each, rounded down. */
  function CustomerCount(mrr: real, arpu: real): (n: int)
    requires arpu > 0.0
    ensures mrr >= 0.0 ==> n >= 0
    ensures mrr < arpu ==> n < 1
  {
    QuotientBelow(mrr, arpu, 1.0);
    (mrr / arpu).Floor
  }

  /** The revenue per customer used for counting customers: 100 when the strategy charges nothing. */
  function EffectiveArpu(s: GameState): (a: real)
    ensures a > 0.0
  {
    var arpu := Arpu(s.pricingStrategy, s.phase);
    if arpu == 0.0 then 100.0 else arpu
  }

  /**
   * The lead pipeline of the opened state `s`: new leads join the waiting
   * ones, sales capacity processes as many as it can and the rest roll over;
   * processed leads convert into deals (rounded down), each worth the
   * revenue per customer; customers after sales are the new MRR total over
   * the effective revenue per customer, rounded down.
   */
  function Pipeline(s: GameState, frictionActive: bool, goldenLeadHit: bool): (f: LeadFlow)
    ensures f.processed == Min(s.leads + f.generated + f.organic, f.capacity)
    ensures f.lost == Max(0, s.leads + f.generated + f.organic - f.capacity)
    ensures f.processed + f.lost == s.leads + f.generated + f.organic
    ensures f.capacity >= 0 && f.csCapacity >= 0 && f.organic >= 0
    ensures s.flags.pmfFrozen ==> f.capacity == 0
    ensures s.marketingBudget >= 0 ==> f.generated >= 0
    ensures f.virality == Virality(s)
    ensures f.newDeals == FloorShare(f.processed, Conversion(s, goldenLeadHit))
    ensures f.newMrr == DealRevenue(f.newDeals, Arpu(s.pricingStrategy, s.phase))
    ensures f.customersAfterSales == CustomerCount(s.kpi.mrr + f.newMrr, EffectiveArpu(s))
  {
    var productivity := Productivity(s);
    var generated := BudgetLeads(s, productivity);
    var organic := OrganicLeads(s);
    var capacity := SalesCapacity(CountRole(s.employees, Sales), s.coFounder.Some? && s.coFounder.value.kind == Hustler,
                                  s.phase, s.flags.pmfFrozen, frictionActive, productivity);
    var total := s.leads + generated + organic;
    var processed := Min(total, capacity);
    var newDeals := FloorShare(processed, Conversion(s, goldenLeadHit));
    var newMrr := DealRevenue(newDeals, Arpu(s.pricingStrategy, s.phase));
    LeadFlow(generated, organic, Virality(s), capacity, processed, Max(0, total - capacity),
             newDeals, newMrr, CustomerCount(s.kpi.mrr + newMrr, EffectiveArpu(s)),
             CsCapacity(CountRole(s.employees, CS), frictionActive, productivity))
  }

  /**
   * With no negative leads or budget and PMF in [0, 100], deals are between
   * none and one per processed lead, and new MRR is never negative.
   */
  lemma DealsWithinProcessed(s: GameState, frictionActive: bool, goldenLeadHit: bool)
    requires s.leads >= 0 && s.marketingBudget >= 0 && 0 <= s.pmfScore <= 100
    ensures 0 <= Pipeline(s, frictionActive, goldenLeadHit).newDeals <= Pipeline(s, frictionActive, goldenLeadHit).processed
    ensures Pipeline(s, frictionActive, goldenLeadHit).newMrr >= 0.0
  {
    var f := Pipeline(s, frictionActive, goldenLeadHit);
    assert f.processed >= 0;
  }

  /** A share between 0 and 1 of `n` items, rounded down, lies between 0 and `n`. */
  lemma DealsBound(n: int, rate: real)
    requires n >= 0 && 0.0 <= rate <= 1.0
    ensures 0 <= (n as real * rate).Floor <= n
  {
    ProductNonNegative(n as real, rate);
    ProductNonNegative(n as real, 1.0 - rate);
  }

  /**
   * The lead pipeline: new leads join the waiting ones; sales capacity
   * processes as many as it can and the rest roll over; processed leads
   * convert into deals and new MRR.
   */
  method RunPipeline(s: GameState, frictionActive: bool, goldenLeadHit: bool) returns (f: LeadFlow)
    ensures f == Pipeline(s, frictionActive, goldenLeadHit)
  {
    var productivity := if s.isMachineMode then 2.0 else 1.0;
    var budgetLeads, organicLeads, virality := LeadSupply(s, productivity);
    var salesCapacity, csCapacity :=
      Capacities(CountRole(s.employees, Sales), CountRole(s.employees, CS),
                 s.coFounder.Some? && s.coFounder.value.kind == Hustler, s.phase, s.flags.pmfFrozen,
                 frictionActive, productivity);
    var totalLeads := s.leads + budgetLeads + organicLeads;
    var processed := Min(totalLeads, salesCapacity);
    var lost := Max(0, totalLeads - salesCapacity);

    var conversion := Conversion(s, goldenLeadHit);
    var newDeals := FloorShare(processed, conversion);
    var arpu := Arpu(s.pricingStrategy, s.phase);
    var effectiveArpu := if arpu == 0.0 then 100.0 else arpu;
    var newMrr := DealRevenue(newDeals, arpu);
    var customersAfterSales := CustomerCount(s.kpi.mrr + newMrr, effectiveArpu);

    f := LeadFlow(budgetLeads, organicLeads, virality, salesCapacity, processed, lost,
                  newDeals, newMrr, customersAfterSales, csCapacity);
  }

  /** The churn rate before the player's resolved incidents are subtracted. */
  function BaseChurn(s: GameState, customersAfterSales: int, csCapacity: int): (c: real)
    ensures s.techDebt >= 0 ==> c >= 0.012
  {
    var c0 := 0.02 + s.techDebt as real / 1000.0;
    var c1 := if s.sanity < 20 && !s.isMachineMode then c0 + 0.01 else c0;
    var c2 := if customersAfterSales > 0 && csCapacity < customersAfterSales then c1 + 0.05 else c1;
    var c3 := if s.flags.competitorAttacked then c2 * 2.0 else c2;
    var c4 := if s.pricingStrategy == PricingPlg then c3 + 0.01
              else if s.pricingStrategy == PricingBlitz then c3 + 0.03 else c3;
    var c5 := if s.marketTrend == Recession then c4 + 0.015
              else if s.marketTrend == SaasBoom then c4 - 0.005 else c4;
    if s.investorType == Family then c5 * 0.8 else c5
  }

  /**
   * Support that cannot serve every customer adds churn: with non-negative
   * tech debt, an understaffed CS team always churns more than one that
   * keeps up.
   */
  lemma UnderstaffedSupportChurnsMore(s: GameState, customers: int, cs: int, cs': int)
    requires s.techDebt >= 0 && customers > 0 && cs < customers <= cs'
    ensures BaseChurn(s, customers, cs) > BaseChurn(s, customers, cs')
  {
  }

  /** Each resolved incident takes a point off churn, but churn never drops below 0.5%. */
  function ChurnRate(s: GameState, customersAfterSales: int, csCapacity: int, incidentsResolved: int): (c: real)
    ensures c >= MinChurn
    ensures c >= BaseChurn(s, customersAfterSales, csCapacity) - incidentsResolved as real * 0.01
  {
    MaxR(MinChurn, BaseChurn(s, customersAfterSales, csCapacity) - incidentsResolved as real * 0.01)
  }

  /** Resolving more incidents never raises churn. */
  lemma MoreIncidentsLessChurn(s: GameState, customers: int, cs: int, k: int, k': int)
    requires k <= k'
    ensures ChurnRate(s, customers, cs, k') <= ChurnRate(s, customers, cs, k)
  {
  }

  /** The month's closing MRR: churn takes its share of the old MRR, new deals add theirs, never below zero. */
  function MrrAfterChurn(mrr: real, newMrr: real, churn: real): (m: real)
    ensures m >= 0.0
    ensures m >= mrr + newMrr - mrr * churn
    ensures mrr >= 0.0 && newMrr >= 0.0 && churn <= 1.0 ==> m >= newMrr
  {
    if mrr >= 0.0 && churn <= 1.0 then
      ProductNonNegative(mrr, 1.0 - churn);
      MaxR(0.0, mrr + newMrr - mrr * churn)
    else MaxR(0.0, mrr + newMrr - mrr * churn)
  }

  /**
   * Churn takes its share of the old MRR, new deals add theirs, and MRR
   * never goes below zero; a week's cash is a quarter of the monthly burn
   * out and a quarter of the new MRR in; runway is cash over the monthly
   * net burn, or 99.9 when revenue covers the burn.
   */
  method CloseBooks(mrr: real, newMrr: real, churn: real, cash: real, monthlyBurn: real)
    returns (finalMrr: real, newCash: real, runway: real)
    ensures finalMrr == MrrAfterChurn(mrr, newMrr, churn)
    ensures newCash == cash - monthlyBurn / 4.0 + finalMrr / 4.0
    ensures runway == (if monthlyBurn - finalMrr > 0.0 then newCash / (monthlyBurn - finalMrr) else 99.9)
  {
    finalMrr := MrrAfterChurn(mrr, newMrr, churn);
    var weeklyBurn := monthlyBurn / 4.0;
    newCash := cash - weeklyBurn + finalMrr / 4.0;
    var netBurn := weeklyBurn * 4.0 - finalMrr;
    runway := if netBurn > 0.0 then newCash / netBurn else 99.9;
  }

  lemma QuotientBelow(x: real, d: real, c: real)
    requires d > 0.0
    ensures x / d < c <==> x < c * d
  {
    assert x / d * d == x;
    if x / d < c {
      assert x / d * d < c * d;
    } else {
      assert x / d * d >= c * d;
    }
  }

  /** Last month's MRR as the growth baseline, or 1 when there is none. */
  function GrowthBaseline(s: GameState): (base: real)
    ensures base != 0.0
    ensures s.lastMonthMrr >= 0.0 ==> base > 0.0
  {
    if s.lastMonthMrr != 0.0 then s.lastMonthMrr else 1.0
  }

  /**
   * Every fourth week: record month-on-month growth (against 1 when there
   * is no previous month), let a blitz investor take 10 sanity for growth
   * under 20%, and let a family investor count the months of net burn.
   */
  method MonthlyReview(s: GameState, finalMrr: real, netBurn: real) returns (growth: real, sanity: int, frogMonths: int)
    ensures growth == (finalMrr - GrowthBaseline(s)) / GrowthBaseline(s)
    ensures s.lastMonthMrr == 0.0 ==> growth == finalMrr - 1.0
    ensures s.lastMonthMrr > 0.0 ==> (growth < 0.20 <==> finalMrr < 1.2 * s.lastMonthMrr)
    ensures sanity == (if s.investorType == Blitz && growth < 0.20 && !s.isMachineMode then s.sanity - 10 else s.sanity)
    ensures s.investorType == Family && netBurn > 0.0 ==> frogMonths == s.flags.boiledFrogMonths + 1
    ensures s.investorType == Family && netBurn <= 0.0 ==> frogMonths == 0
    ensures s.investorType != Family ==> frogMonths == s.flags.boiledFrogMonths
  {
    var prevMrr := if s.lastMonthMrr != 0.0 then s.lastMonthMrr else 1.0;
    growth := (finalMrr - prevMrr) / prevMrr;
    if prevMrr > 0.0 {
      QuotientBelow(finalMrr - prevMrr, prevMrr, 0.20);
    }
    sanity := s.sanity;
    if s.investorType == Blitz && growth < 0.20 && !s.isMachineMode {
      sanity := sanity - 10;
    }
    frogMonths := s.flags.boiledFrogMonths;
    if s.investorType == Family {
      if netBurn > 0.0 {
        frogMonths := frogMonths + 1;
      } else {
        frogMonths := 0;
      }
    }
  }

  /**
   * Random drift: after the seed phase a staffed, unfrozen product gains a
   * point of tech debt on a roll above 0.7, and a whale may appear on a roll
   * above 0.98.
   */
  method Drift(s: GameState, driftRoll: real, whaleRoll: real) returns (techDebt: int, whale: bool)
    ensures techDebt == s.techDebt + (if !s.flags.pmfFrozen && |s.employees| > 0 && s.phase != Seed && driftRoll > 0.7
                                      then 1 else 0)
    ensures whale == (s.whaleOpportunity || (s.phase != Seed && whaleRoll > 0.98))
  {
    techDebt := s.techDebt;
    if !s.flags.pmfFrozen && |s.employees| > 0 {
      if s.phase != Seed && driftRoll > 0.7 {
        techDebt := techDebt + 1;
      }
    }
    whale := s.whaleOpportunity;
    if s.phase != Seed && !whale {
      if whaleRoll > 0.98 {
        whale := true;
      }
    }
  }

  /** A critical narrative event for this state. */
  predicate CriticalEventRaised(s: GameState)
  {
    Scenario.CheckTriggers(s).Some? && Scenario.CheckTriggers(s).value.severity == SeverityCritical
  }

  /**
   * The closing checks: raise the narrative event, enter decision mode for a
   * critical event, a short runway or low sanity, turn an exhausted founder
   * into a machine, leave decision mode when nothing is pending and runway
   * and sanity are comfortable, and end the game when cash is negative.
   */
  method SettleModes(s: GameState) returns (r: GameState)
    ensures Scenario.CheckTriggers(s).Some? ==> r.activeEvent == Scenario.CheckTriggers(s)
    ensures Scenario.CheckTriggers(s).None? ==> r.activeEvent == s.activeEvent
    ensures r.sanity == (if s.sanity <= 0 then 0 else s.sanity)
    ensures r.isMachineMode == (s.isMachineMode || s.sanity <= 0)
    ensures r.isGameOver == (s.isGameOver || s.cash < 0.0)
    ensures r.sanity <= 0 ==> r.isMachineMode
    ensures CriticalEventRaised(s) ==> r.isDecisionMode
    ensures 0 < r.sanity < 20 ==> r.isDecisionMode
    ensures r.activeEvent.None? && s.runwayMonths > 2.0 && r.sanity > 30 ==> !r.isDecisionMode
    ensures !(r.activeEvent.None? && s.runwayMonths > 2.0 && r.sanity > 30) ==>
              (r.isDecisionMode <==> s.isDecisionMode || CriticalEventRaised(s) ||
                                     (s.runwayMonths < 1.5 && s.cash > 0.0) || (0 < r.sanity < 20))
    ensures r == s.(activeEvent := r.activeEvent, isDecisionMode := r.isDecisionMode,
                    isMachineMode := r.isMachineMode, sanity := r.sanity, isGameOver := r.isGameOver)
  {
    var activeEvent := s.activeEvent;
    var decision := s.isDecisionMode;
    var triggered := Scenario.CheckTriggers(s);
    if triggered.Some? {
      activeEvent := triggered;
      if triggered.value.severity == SeverityCritical {
        decision := true;
      }
    }
    if s.runwayMonths < 1.5 && s.cash > 0.0 && !decision {
      decision := true;
    }
    var machine := s.isMachineMode;
    var sanity := s.sanity;
    if sanity <= 0 {
      machine, sanity := true, 0;
    }
    if sanity < 20 && sanity > 0 && !decision {
      decision := true;
    }
    if activeEvent.None? && s.runwayMonths > 2.0 && sanity > 30 {
      decision := false;
    }
    var gameOver := s.isGameOver;
    if s.cash < 0.0 {
      gameOver := true;
    }
    r := s.(activeEvent := activeEvent, isDecisionMode := decision, isMachineMode := machine,
            sanity := sanity, isGameOver := gameOver);
  }

  // ---------------------------------------------------------------------
  // One turn

  /** The figures a week's operations produce, before they are written back into the state. */
  datatype WeekFigures = WeekFigures(
    flow: LeadFlow,
    churn: real,
    mrr: real,
    cash: real,
    runway: real,
    growth: real,
    lastMonthMrr: real,
    sanity: int,
    frogMonths: int,
    techDebt: int,
    whale: bool,
    metrics: PipelineMetrics)

  /**
   * The state a turn opens on: the machine-mode check (a founder at 0
   * sanity becomes a machine), the market clock, a family investor's 2
   * sanity (capped at 100, not for a machine) and one week off the hiring
   * friction.
   */
  function OpenWeek(prev: GameState, trendRoll: real): (ns: GameState)
    ensures ns.isMachineMode == (prev.isMachineMode || prev.sanity <= 0)
    ensures prev.sanity <= 100 ==> ns.sanity <= 100
    ensures ns.sanity <= 0 ==> ns.isMachineMode
    ensures prev.flags.marketTrendWeeksLeft <= 0 ==>
              (ns.marketTrend, ns.flags.marketTrendWeeksLeft) == NewTrend(trendRoll) && ns.flags.marketTrendWeeksLeft > 0
    ensures prev.flags.marketTrendWeeksLeft > 0 ==>
              ns.marketTrend == prev.marketTrend && ns.flags.marketTrendWeeksLeft == prev.flags.marketTrendWeeksLeft - 1
    ensures ns.kpi == prev.kpi && ns.lastMonthMrr == prev.lastMonthMrr && ns.cash == prev.cash
    ensures ns.hiringFrictionWeeks <= Max(0, prev.hiringFrictionWeeks)
    ensures prev.investorType == Family && !ns.isMachineMode ==> ns.sanity == Min(100, prev.sanity + 2)
    ensures prev.investorType != Family && prev.sanity > 0 ==> ns.sanity == prev.sanity
  {
    var machine := prev.isMachineMode || prev.sanity <= 0;
    var sanity := if !prev.isMachineMode && prev.sanity <= 0 then 0
                  else if prev.investorType == Family && !machine then Min(100, prev.sanity + 2)
                  else prev.sanity;
    var market := if prev.flags.marketTrendWeeksLeft <= 0 then NewTrend(trendRoll)
                  else (prev.marketTrend, prev.flags.marketTrendWeeksLeft - 1);
    prev.(sanity := sanity, isMachineMode := machine, marketTrend := market.0,
          flags := prev.flags.(marketTrendWeeksLeft := market.1),
          hiringFrictionWeeks := if prev.hiringFrictionWeeks > 0 then prev.hiringFrictionWeeks - 1
                                 else prev.hiringFrictionWeeks)
  }

  /**
   * The opening of a turn: the machine-mode check, the market clock, a
   * family investor's 2 sanity (capped at 100, not for a machine) and one
   * week off the hiring friction; nothing else changes.
   */
  method StartWeek(prev: GameState, trendRoll: real) returns (ns: GameState)
    ensures ns == OpenWeek(prev, trendRoll)
  {
    var checked := CheckMachineMode(prev);
    var sanity, machine := checked.sanity, checked.isMachineMode;
    var trend, weeksLeft := TickMarket(prev.marketTrend, prev.flags.marketTrendWeeksLeft, trendRoll);
    if prev.investorType == Family && !machine {
      sanity := Min(100, sanity + 2);
    }
    var frictionWeeks := prev.hiringFrictionWeeks;
    if frictionWeeks > 0 {
      frictionWeeks := frictionWeeks - 1;
    }
    ghost var target := OpenWeek(prev, trendRoll);
    assert sanity == target.sanity && machine == target.isMachineMode;
    assert trend == target.marketTrend && weeksLeft == target.flags.marketTrendWeeksLeft;
    ns := prev.(sanity := sanity, isMachineMode := machine, marketTrend := trend,
                flags := prev.flags.(marketTrendWeeksLeft := weeksLeft),
                hiringFrictionWeeks := frictionWeeks);
  }

  /**
   * The operations of a turn on the opened state `ns`: the lead pipeline,
   * churn, cash and runway, the review at the end of every fourth week and
   * the random drift.
   */
  method Operate(ns: GameState, frictionActive: bool, bonuses: TurnBonuses, monthlyBurn: real, rolls: TurnRolls)
    returns (fig: WeekFigures)
    ensures fig.flow == Pipeline(ns, frictionActive, bonuses.goldenLeadHit)
    ensures fig.churn == ChurnRate(ns, fig.flow.customersAfterSales, fig.flow.csCapacity, bonuses.incidentsResolved)
    ensures fig.mrr == MrrAfterChurn(ns.kpi.mrr, fig.flow.newMrr, fig.churn)
    ensures (ns.week + 1) % 4 == 0 ==>
              && fig.growth == (fig.mrr - GrowthBaseline(ns)) / GrowthBaseline(ns)
              && fig.sanity == (if ns.investorType == Blitz && fig.growth < 0.20 && !ns.isMachineMode
                                then ns.sanity - 10 else ns.sanity)
              && fig.frogMonths == (if ns.investorType != Family then ns.flags.boiledFrogMonths
                                    else if monthlyBurn - fig.mrr > 0.0 then ns.flags.boiledFrogMonths + 1
                                    else 0)
    ensures fig.techDebt == ns.techDebt + (if !ns.flags.pmfFrozen && |ns.employees| > 0 && ns.phase != Seed &&
                                              rolls.drift > 0.7 then 1 else 0)
    ensures fig.whale == (ns.whaleOpportunity || (ns.phase != Seed && rolls.whale > 0.98))
    ensures fig.metrics == PipelineMetrics(
              fig.flow.generated, fig.flow.capacity, fig.flow.processed, fig.flow.lost, fig.flow.newDeals,
              fig.flow.csCapacity, fig.flow.customersAfterSales, if rolls.incident > 0.8 then 1 else 0,
              rolls.golden > 0.85, fig.flow.virality)
    ensures fig.metrics.leadsLost == fig.flow.lost
    ensures fig.metrics.leadsProcessed <= fig.metrics.salesCapacity
    ensures fig.metrics.leadsLost > 0 ==> fig.metrics.leadsProcessed == fig.metrics.salesCapacity
    ensures ns.flags.pmfFrozen ==> fig.metrics.salesCapacity == 0
    ensures ns.marketingBudget >= 0 ==> fig.metrics.leadsProcessed + fig.metrics.leadsLost >= ns.leads
    ensures fig.churn >= MinChurn && fig.mrr >= 0.0
    ensures fig.cash == ns.cash - monthlyBurn / 4.0 + fig.mrr / 4.0
    ensures fig.runway == (if monthlyBurn - fig.mrr > 0.0 then fig.cash / (monthlyBurn - fig.mrr) else 99.9)
    ensures (ns.week + 1) % 4 != 0 ==>
              fig.growth == ns.kpi.growthMoM && fig.lastMonthMrr == ns.lastMonthMrr &&
              fig.sanity == ns.sanity && fig.frogMonths == ns.flags.boiledFrogMonths
    ensures (ns.week + 1) % 4 == 0 ==> fig.lastMonthMrr == fig.mrr
    ensures fig.sanity == ns.sanity || (fig.sanity == ns.sanity - 10 && ns.investorType == Blitz)
    ensures fig.techDebt == ns.techDebt || (fig.techDebt == ns.techDebt + 1 && ns.phase != Seed)
    ensures ns.whaleOpportunity ==> fig.whale
  {
    var flow := RunPipeline(ns, frictionActive, bonuses.goldenLeadHit);
    var churn := ChurnRate(ns, flow.customersAfterSales, flow.csCapacity, bonuses.incidentsResolved);
    var finalMrr, newCash, runway := CloseBooks(ns.kpi.mrr, flow.newMrr, churn, ns.cash, monthlyBurn);

    var growth, lastMonthMrr, sanity, frogMonths := ns.kpi.growthMoM, ns.lastMonthMrr, ns.sanity, ns.flags.boiledFrogMonths;
    if (ns.week + 1) % 4 == 0 {
      growth, sanity, frogMonths := MonthlyReview(ns, finalMrr, monthlyBurn - finalMrr);
      lastMonthMrr := finalMrr;
    }
    var techDebt, whale := Drift(ns, rolls.drift, rolls.whale);

    var metrics := PipelineMetrics(
      flow.generated, flow.capacity, flow.processed, flow.lost, flow.newDeals,
      flow.csCapacity, flow.customersAfterSales,
      if rolls.incident > 0.8 then 1 else 0,
      rolls.golden > 0.85,
      flow.virality);
    fig := WeekFigures(flow, churn, finalMrr, newCash, runway, growth, lastMonthMrr, sanity, frogMonths,
                       techDebt, whale, metrics);
  }

  /**
   * Sanity after the review of the opened state `ns`: in a review week a
   * human founder under a blitz investor loses 10 for growth under 20%.
   */
  function ReviewedSanity(ns: GameState, growth: real): (sanity: int)
    ensures sanity == ns.sanity || sanity == ns.sanity - 10
    ensures sanity < ns.sanity <==>
              (ns.week + 1) % 4 == 0 && ns.investorType == Blitz && growth < 0.20 && !ns.isMachineMode
  {
    if (ns.week + 1) % 4 == 0 && ns.investorType == Blitz && growth < 0.20 && !ns.isMachineMode
    then ns.sanity - 10 else ns.sanity
  }

  /**
   * The arithmetic of a week, as it reaches the state `w`: the rolled-over
   * leads are those the pipeline of the opened state lost, churn is the
   * churn rate of that pipeline, MRR is the old MRR less churn plus new
   * deals (never below zero), month-on-month growth is measured against
   * last month's MRR (or 1) every fourth week, and tech debt and the whale
   * follow the drift rolls.
   */
  predicate WeekArithmetic(prev: GameState, bonuses: TurnBonuses, monthlyBurn: real, rolls: TurnRolls, w: GameState)
  {
    var ns := OpenWeek(prev, rolls.trend);
    var flow := Pipeline(ns, prev.hiringFrictionWeeks > 0, bonuses.goldenLeadHit);
    && w.leads == flow.lost
    && w.kpi.churnRate == ChurnRate(ns, flow.customersAfterSales, flow.csCapacity, bonuses.incidentsResolved)
    && w.kpi.mrr == MrrAfterChurn(prev.kpi.mrr, flow.newMrr, w.kpi.churnRate)
    && (w.week % 4 == 0 ==> w.kpi.growthMoM == (w.kpi.mrr - GrowthBaseline(prev)) / GrowthBaseline(prev))
    && (w.week % 4 != 0 ==> w.kpi.growthMoM == prev.kpi.growthMoM)
    && w.lastMonthMrr == (if w.week % 4 == 0 then w.kpi.mrr else prev.lastMonthMrr)
    && w.flags.boiledFrogMonths ==
         (if w.week % 4 == 0 && prev.investorType == Family
          then (if monthlyBurn - w.kpi.mrr > 0.0 then prev.flags.boiledFrogMonths + 1 else 0)
          else prev.flags.boiledFrogMonths)
    && w.techDebt == prev.techDebt + (if !prev.flags.pmfFrozen && |prev.employees| > 0 && prev.phase != Seed &&
                                         rolls.drift > 0.7 then 1 else 0)
    && w.whaleOpportunity == (prev.whaleOpportunity || (prev.phase != Seed && rolls.whale > 0.98))
  }

  /** The week's arithmetic reads only the figures, so a state with the same figures satisfies it too. */
  lemma WeekArithmeticDependsOnFigures(prev: GameState, bonuses: TurnBonuses, monthlyBurn: real, rolls: TurnRolls,
                                       w: GameState, w': GameState)
    requires WeekArithmetic(prev, bonuses, monthlyBurn, rolls, w)
    requires w'.leads == w.leads && w'.kpi == w.kpi && w'.week == w.week && w'.lastMonthMrr == w.lastMonthMrr
    requires w'.flags.boiledFrogMonths == w.flags.boiledFrogMonths && w'.techDebt == w.techDebt
    requires w'.whaleOpportunity == w.whaleOpportunity
    ensures WeekArithmetic(prev, bonuses, monthlyBurn, rolls, w')
  {
  }

  /**
   * The closing checks change only the modes, the event and the sanity
   * floor, so the settled week is still the opened week with the week's
   * figures, and its sanity is the reviewed sanity floored at 0.
   */
  lemma SettlingKeepsWeek(prev: GameState, bonuses: TurnBonuses, monthlyBurn: real, nextDate: string,
                          rolls: TurnRolls, w: GameState, next: GameState)
    requires WeekArithmetic(prev, bonuses, monthlyBurn, rolls, w)
    requires w.sanity == ReviewedSanity(OpenWeek(prev, rolls.trend), w.kpi.growthMoM)
    requires var ns := OpenWeek(prev, rolls.trend);
             w == ns.(kpi := ns.kpi.(mrr := w.kpi.mrr, churnRate := w.kpi.churnRate, growthMoM := w.kpi.growthMoM),
                      cash := w.cash, leads := w.leads, week := prev.week + 1, date := nextDate,
                      runwayMonths := w.runwayMonths, lastMonthMrr := w.lastMonthMrr, sanity := w.sanity,
                      flags := ns.flags.(boiledFrogMonths := w.flags.boiledFrogMonths, pmfFrozen := false),
                      techDebt := w.techDebt, whaleOpportunity := w.whaleOpportunity,
                      pipelineMetrics := w.pipelineMetrics)
    requires next.sanity == (if w.sanity <= 0 then 0 else w.sanity)
    requires next.isMachineMode == (w.isMachineMode || w.sanity <= 0)
    requires next == w.(activeEvent := next.activeEvent, isDecisionMode := next.isDecisionMode,
                        isMachineMode := next.isMachineMode, sanity := next.sanity, isGameOver := next.isGameOver)
    ensures WeekArithmetic(prev, bonuses, monthlyBurn, rolls, next)
    ensures next.sanity == Max(0, ReviewedSanity(OpenWeek(prev, rolls.trend), next.kpi.growthMoM))
    ensures next.isMachineMode == (OpenWeek(prev, rolls.trend).isMachineMode ||
                                   ReviewedSanity(OpenWeek(prev, rolls.trend), next.kpi.growthMoM) <= 0)
    ensures next == OpenWeek(prev, rolls.trend).(
                      kpi := prev.kpi.(mrr := next.kpi.mrr, churnRate := next.kpi.churnRate, growthMoM := next.kpi.growthMoM),
                      cash := next.cash, leads := next.leads, week := prev.week + 1, date := nextDate,
                      runwayMonths := next.runwayMonths, lastMonthMrr := next.lastMonthMrr, sanity := next.sanity,
                      flags := OpenWeek(prev, rolls.trend).flags.(boiledFrogMonths := next.flags.boiledFrogMonths,
                                                                  pmfFrozen := false),
                      techDebt := next.techDebt, whaleOpportunity := next.whaleOpportunity,
                      pipelineMetrics := next.pipelineMetrics, activeEvent := next.activeEvent,
                      isDecisionMode := next.isDecisionMode, isMachineMode := next.isMachineMode,
                      isGameOver := next.isGameOver)
  {
    WeekArithmeticDependsOnFigures(prev, bonuses, monthlyBurn, rolls, w, next);
  }

  /**
   * The body of a turn up to the closing checks: the week advances by one,
   * leads roll over, churn keeps its floor, MRR stays non-negative, cash
   * moves by a quarter of the monthly burn and a quarter of the new MRR, and
   * the runway is cash over net burn; events and modes are left to
   * `SettleModes`.
   */
  method PlayWeek(prev: GameState, bonuses: TurnBonuses, monthlyBurn: real, nextDate: string, rolls: TurnRolls)
    returns (w: GameState)
    ensures w.week == prev.week + 1 && w.date == nextDate
    ensures w.phase == prev.phase && w.employees == prev.employees && w.investorType == prev.investorType
    ensures w.mentorType == prev.mentorType && w.activeEvent == prev.activeEvent
    ensures w.isDecisionMode == prev.isDecisionMode && w.isGameOver == prev.isGameOver
    ensures w.pipelineMetrics.Some?
    ensures w.leads == w.pipelineMetrics.value.leadsLost
    ensures w.pipelineMetrics.value.leadsProcessed <= w.pipelineMetrics.value.salesCapacity
    ensures w.pipelineMetrics.value.leadsLost > 0 ==>
              w.pipelineMetrics.value.leadsProcessed == w.pipelineMetrics.value.salesCapacity
    ensures prev.flags.pmfFrozen ==> w.pipelineMetrics.value.salesCapacity == 0
    ensures prev.marketingBudget >= 0 ==>
              w.pipelineMetrics.value.leadsProcessed + w.pipelineMetrics.value.leadsLost >= prev.leads
    ensures !w.flags.pmfFrozen
    ensures w.kpi.churnRate >= MinChurn && w.kpi.mrr >= 0.0
    ensures w.cash == prev.cash - monthlyBurn / 4.0 + w.kpi.mrr / 4.0
    ensures w.runwayMonths == (if monthlyBurn - w.kpi.mrr > 0.0 then w.cash / (monthlyBurn - w.kpi.mrr) else 99.9)
    ensures w.week % 4 == 0 ==> w.lastMonthMrr == w.kpi.mrr
    ensures prev.isMachineMode ==> w.isMachineMode
    ensures prev.sanity <= 0 ==> w.isMachineMode
    ensures prev.sanity <= 100 ==> w.sanity <= 100
    ensures prev.flags.marketTrendWeeksLeft <= 0 ==>
              (w.marketTrend, w.flags.marketTrendWeeksLeft) == NewTrend(rolls.trend)
    ensures prev.flags.marketTrendWeeksLeft > 0 ==>
              w.marketTrend == prev.marketTrend && w.flags.marketTrendWeeksLeft == prev.flags.marketTrendWeeksLeft - 1
    ensures w.hiringFrictionWeeks == (if prev.hiringFrictionWeeks > 0 then prev.hiringFrictionWeeks - 1
                                      else prev.hiringFrictionWeeks)
    ensures w.techDebt == prev.techDebt || (w.techDebt == prev.techDebt + 1 && prev.phase != Seed)
    ensures prev.whaleOpportunity ==> w.whaleOpportunity
    ensures w.flags.sideGigUnlocked == prev.flags.sideGigUnlocked
    ensures w.flags.recruitUnlocked == prev.flags.recruitUnlocked
    ensures WeekArithmetic(prev, bonuses, monthlyBurn, rolls, w)
    ensures w.sanity == ReviewedSanity(OpenWeek(prev, rolls.trend), w.kpi.growthMoM)
    ensures var ns := OpenWeek(prev, rolls.trend);
            w == ns.(kpi := ns.kpi.(mrr := w.kpi.mrr, churnRate := w.kpi.churnRate, growthMoM := w.kpi.growthMoM),
                     cash := w.cash, leads := w.leads, week := prev.week + 1, date := nextDate,
                     runwayMonths := w.runwayMonths, lastMonthMrr := w.lastMonthMrr, sanity := w.sanity,
                     flags := ns.flags.(boiledFrogMonths := w.flags.boiledFrogMonths, pmfFrozen := false),
                     techDebt := w.techDebt, whaleOpportunity := w.whaleOpportunity,
                     pipelineMetrics := w.pipelineMetrics)
  {
    var ns := StartWeek(prev, rolls.trend);
    var fig := Operate(ns, prev.hiringFrictionWeeks > 0, bonuses, monthlyBurn, rolls);
    w := ns.(kpi := ns.kpi.(mrr := fig.mrr, churnRate := fig.churn, growthMoM := fig.growth),
             cash := fig.cash, leads := fig.flow.lost, week := ns.week + 1, date := nextDate,
             runwayMonths := fig.runway, lastMonthMrr := fig.lastMonthMrr, sanity := fig.sanity,
             flags := ns.flags.(boiledFrogMonths := fig.frogMonths, pmfFrozen := false),
             techDebt := fig.techDebt, whaleOpportunity := fig.whale,
             pipelineMetrics := Some(fig.metrics));
    assert WeekArithmetic(prev, bonuses, monthlyBurn, rolls, w) by {
      assert ns.kpi == prev.kpi && ns.lastMonthMrr == prev.lastMonthMrr;
    }
  }

  /**
   * One week of the company. A finished game is returned unchanged.
   * Otherwise the week is `OpenWeek` followed by the figures of
   * `WeekArithmetic`, and every other field is left as `OpenWeek` put it,
   * except the ones the closing checks set: sanity is the reviewed sanity
   * (family +2 in `OpenWeek`, blitz -10 in `ReviewedSanity`) floored at 0,
   * a founder at 0 sanity becomes a machine, the game is over exactly when
   * cash went negative, a triggered scenario becomes the active event, and
   * decision mode is cleared when nothing is pending and runway and sanity
   * are comfortable, and otherwise is on exactly when it was already on or
   * a critical event, short runway or low sanity calls for it.
   */
  method NextTurn(prev: GameState, bonuses: TurnBonuses, monthlyBurn: real, nextDate: string, rolls: TurnRolls)
    returns (next: GameState)
    ensures prev.isGameOver ==> next == prev
    ensures !prev.isGameOver ==>
      && next.week == prev.week + 1
      && next.phase == prev.phase
      && next.employees == prev.employees
      && next.pipelineMetrics.Some?
      && next.leads == next.pipelineMetrics.value.leadsLost
      && !next.flags.pmfFrozen
      && next.kpi.churnRate >= MinChurn
      && next.kpi.mrr >= 0.0
      && next.cash == prev.cash - monthlyBurn / 4.0 + next.kpi.mrr / 4.0
      && (prev.isMachineMode ==> next.isMachineMode)
      && (prev.sanity <= 0 ==> next.isMachineMode)
      && (next.isGameOver <==> next.cash < 0.0)
      && 0 <= next.sanity
      && (prev.sanity <= 100 ==> next.sanity <= 100)
      && (next.sanity <= 0 ==> next.isMachineMode)
      && (CriticalEventRaised(next) ==> next.isDecisionMode)
      && (0 < next.sanity < 20 ==> next.isDecisionMode)
      && (Scenario.CheckTriggers(next).Some? ==> next.activeEvent == Scenario.CheckTriggers(next))
      && (Scenario.CheckTriggers(next).None? ==> next.activeEvent == prev.activeEvent)
      && next.flags.sideGigUnlocked == prev.flags.sideGigUnlocked
      && next.flags.recruitUnlocked == prev.flags.recruitUnlocked
      && WeekArithmetic(prev, bonuses, monthlyBurn, rolls, next)
      && next.sanity == Max(0, ReviewedSanity(OpenWeek(prev, rolls.trend), next.kpi.growthMoM))
      && next.isMachineMode == (OpenWeek(prev, rolls.trend).isMachineMode ||
                                ReviewedSanity(OpenWeek(prev, rolls.trend), next.kpi.growthMoM) <= 0)
      && (!(next.activeEvent.None? && next.runwayMonths > 2.0 && next.sanity > 30) ==>
            (next.isDecisionMode <==> prev.isDecisionMode || CriticalEventRaised(next) ||
                                      (next.runwayMonths < 1.5 && next.cash > 0.0) || (0 < next.sanity < 20)))
      && next == OpenWeek(prev, rolls.trend).(
                   kpi := prev.kpi.(mrr := next.kpi.mrr, churnRate := next.kpi.churnRate, growthMoM := next.kpi.growthMoM),
                   cash := next.cash, leads := next.leads, week := prev.week + 1, date := nextDate,
                   runwayMonths := next.runwayMonths, lastMonthMrr := next.lastMonthMrr, sanity := next.sanity,
                   flags := OpenWeek(prev, rolls.trend).flags.(boiledFrogMonths := next.flags.boiledFrogMonths,
                                                               pmfFrozen := false),
                   techDebt := next.techDebt, whaleOpportunity := next.whaleOpportunity,
                   pipelineMetrics := next.pipelineMetrics, activeEvent := next.activeEvent,
                   isDecisionMode := next.isDecisionMode, isMachineMode := next.isMachineMode,
                   isGameOver := next.isGameOver)
      && next.runwayMonths == (if monthlyBurn - next.kpi.mrr > 0.0 then next.cash / (monthlyBurn - next.kpi.mrr)
                               else 99.9)
      && (next.runwayMonths < 1.5 && next.cash > 0.0 ==> next.isDecisionMode)
      && (next.activeEvent.None? && next.runwayMonths > 2.0 && next.sanity > 30 ==> !next.isDecisionMode)
  {
    if prev.isGameOver {
      return prev;
    }
    var w := PlayWeek(prev, bonuses, monthlyBurn, nextDate, rolls);
    next := SettleModes(w);
    assert Scenario.CheckTriggers(next) == Scenario.CheckTriggers(w);
    SettlingKeepsWeek(prev, bonuses, monthlyBurn, nextDate, rolls, w, next);
  }
}
