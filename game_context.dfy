/**
 * The player's actions on the single game-state cell: the weekly wrapper
 * that runs after the engine, the customer interview, hiring and firing,
 * event resolution, the sales-pitch payout, private time, the command
 * gates, and the org chart's manager assignment with its walk-up cycle
 * check.
 *
 * Each action is the updater it hands to the state cell, applied to the
 * state it receives. Guards that read the rendered state are evaluated on
 * that same state. Log messages are reduced to their week and kind;
 * notifications queued by an action are separate updates and are not
 * composed in here.
 */
module GameContext {
  import opened GameTypes
  import Scenario
  import GameEngine

  // ---------------------------------------------------------------------
  // The weekly wrapper

  /** Weekly loss of family relationship: 3 in Series B, else 5 for a machine, else 2. */
  function RelationshipDecay(s: GameState): (decay: int)
    ensures 2 <= decay <= 5
    ensures s.phase == SeriesB ==> decay == 3
    ensures s.phase != SeriesB ==> (decay == 5 <==> s.isMachineMode) && (decay == 2 <==> !s.isMachineMode)
  {
    var decay := if s.isMachineMode then 5 else 2;
    if s.phase == SeriesB then 3 else decay
  }

  /**
   * The wrapper's part of a turn, for the week it believes is starting:
   * week 3 unlocks the side gig and week 6 recruiting, each with a success
   * log; family relationship decays (floored at 0); a turn log closes the
   * list. Nothing else changes.
   */
  method WeeklyUpkeep(prev: GameState, week: int) returns (r: GameState)
    ensures r.flags.sideGigUnlocked == (prev.flags.sideGigUnlocked || week == 3)
    ensures r.flags.recruitUnlocked == (prev.flags.recruitUnlocked || week == 6)
    ensures r.familyRelationship == Max(0, prev.familyRelationship - RelationshipDecay(prev))
    ensures 0 <= r.familyRelationship && (r.familyRelationship < prev.familyRelationship || r.familyRelationship == 0)
    ensures |r.logs| == |prev.logs| + (if week == 3 || week == 6 then 2 else 1)
    ensures r.logs[..|prev.logs|] == prev.logs
    ensures r.logs[|r.logs| - 1] == LogEntry(week, LogInfo)
    ensures week == 3 || week == 6 ==> r.logs[|prev.logs|] == LogEntry(week, LogSuccess)
    ensures forall c :: CanUseCommand(prev, c) ==> CanUseCommand(r, c)
    ensures r == prev.(flags := prev.flags.(sideGigUnlocked := r.flags.sideGigUnlocked,
                                            recruitUnlocked := r.flags.recruitUnlocked),
                       familyRelationship := r.familyRelationship, logs := r.logs)
  {
    var logs := prev.logs;
    var flags := prev.flags;
    if week == 3 {
      flags := flags.(sideGigUnlocked := true);
      logs := logs + [LogEntry(week, LogSuccess)];
    }
    if week == 6 {
      flags := flags.(recruitUnlocked := true);
      logs := logs + [LogEntry(week, LogSuccess)];
    }
    var decay := 2;
    if prev.isMachineMode {
      decay := 5;
    }
    if prev.phase == SeriesB {
      decay := 3;
    }
    var newRel := Max(0, prev.familyRelationship - decay);
    logs := logs + [LogEntry(week, LogInfo)];
    r := prev.(flags := flags, familyRelationship := newRel, logs := logs);
  }

  /**
   * A click on "next turn": the engine's update runs first and the
   * wrapper's second, so the wrapper sees the engine's result and counts
   * one week further than the week the state has reached. The side gig is
   * therefore unlocked when the state reaches week 2, and the turn log
   * names the week after the state's.
   */
  method Turn(prev: GameState, bonuses: GameEngine.TurnBonuses, monthlyBurn: real, nextDate: string,
              rolls: GameEngine.TurnRolls) returns (r: GameState)
    ensures r.week == (if prev.isGameOver then prev.week else prev.week + 1)
    ensures r.flags.sideGigUnlocked <==> prev.flags.sideGigUnlocked || r.week == 2
    ensures r.flags.recruitUnlocked <==> prev.flags.recruitUnlocked || r.week == 5
    ensures |r.logs| > 0 && r.logs[|r.logs| - 1] == LogEntry(r.week + 1, LogInfo)
    ensures !prev.isGameOver ==> (r.isGameOver <==> r.cash < 0.0)
    ensures prev.isMachineMode ==> r.isMachineMode
    ensures r.familyRelationship == Max(0, prev.familyRelationship - RelationshipDecay(r))
    ensures !prev.isGameOver && prev.sanity <= 0 && prev.phase != SeriesB && prev.familyRelationship >= 5 ==>
              r.familyRelationship == prev.familyRelationship - 5
  {
    var next := GameEngine.NextTurn(prev, bonuses, monthlyBurn, nextDate, rolls);
    r := WeeklyUpkeep(next, next.week + 1);
  }

  /**
   * The turn as the wrapper means it: the week it unlocks and logs is the
   * week the engine has just started, so the side gig unlocks together with
   * the week-3 side-gig event and the turn log names the current week.
   */
  method IntendedTurn(prev: GameState, bonuses: GameEngine.TurnBonuses, monthlyBurn: real, nextDate: string,
                      rolls: GameEngine.TurnRolls) returns (r: GameState)
    ensures r.week == (if prev.isGameOver then prev.week else prev.week + 1)
    ensures r.flags.sideGigUnlocked <==> prev.flags.sideGigUnlocked || r.week == 3
    ensures r.flags.recruitUnlocked <==> prev.flags.recruitUnlocked || r.week == 6
    ensures |r.logs| > 0 && r.logs[|r.logs| - 1] == LogEntry(r.week, LogInfo)
    ensures !prev.isGameOver && prev.phase == Seed && r.week == 3 ==>
              r.flags.sideGigUnlocked && r.activeEvent == Some(Scenario.SideGigEvent)
    ensures !prev.isGameOver && prev.phase == Seed && r.week == 6 ==>
              r.flags.recruitUnlocked && r.activeEvent == Some(Scenario.RecruitEvent)
    ensures r.familyRelationship == Max(0, prev.familyRelationship - RelationshipDecay(r))
  {
    var next := GameEngine.NextTurn(prev, bonuses, monthlyBurn, nextDate, rolls);
    r := WeeklyUpkeep(next, next.week);
  }

  // ---------------------------------------------------------------------
  // Simple actions

  const InterviewCost: real := 50000.0

  /**
   * A customer interview: refused below 50,000 cash; otherwise it costs
   * 50,000 and brings 5 PMF and 5 sanity (each capped at 100) and 2
   * craftsmanship.
   */
  function CustomerInterview(s: GameState): (r: GameState)
    ensures s.cash < InterviewCost ==> r == s
    ensures s.cash >= InterviewCost ==>
      && r.cash == s.cash - InterviewCost
      && r.pmfScore == Min(100, s.pmfScore + 5)
      && r.sanity == Min(100, s.sanity + 5)
      && r.philosophy == s.philosophy.(craftsmanship := s.philosophy.craftsmanship + 2)
      && r.logs == s.logs + [LogEntry(s.week, LogSuccess)]
      && r == s.(cash := r.cash, pmfScore := r.pmfScore, sanity := r.sanity, philosophy := r.philosophy,
                 logs := r.logs)
  {
    if s.cash < InterviewCost then s
    else
      s.(cash := s.cash - InterviewCost,
         pmfScore := Min(100, s.pmfScore + 5),
         sanity := Min(100, s.sanity + 5),
         philosophy := s.philosophy.(craftsmanship := s.philosophy.craftsmanship + 2),
         logs := s.logs + [LogEntry(s.week, LogSuccess)])
  }

  /** An interview never overdraws, never lowers PMF or sanity, and keeps both within [0, 100]. */
  lemma InterviewKeepsRanges(s: GameState)
    requires s.cash >= 0.0 && 0 <= s.pmfScore <= 100 && 0 <= s.sanity <= 100
    ensures CustomerInterview(s).cash >= 0.0
    ensures s.pmfScore <= CustomerInterview(s).pmfScore <= 100
    ensures s.sanity <= CustomerInterview(s).sanity <= 100
  {
  }

  /** A marketing-budget change, never below zero. */
  function AdjustMarketingBudget(s: GameState, amount: int): (r: GameState)
    ensures r.marketingBudget >= 0
    ensures s.marketingBudget + amount >= 0 ==> r.marketingBudget == s.marketingBudget + amount
    ensures r.marketingBudget == Max(0, s.marketingBudget + amount)
    ensures r == s.(marketingBudget := r.marketingBudget)
  {
    s.(marketingBudget := Max(0, s.marketingBudget + amount))
  }

  /**
   * Client work: 600,000 cash and 5 tech debt, the product frozen for the
   * next turn, 10 sanity (floored at 0), craftsmanship traded for
   * dishonesty, then the machine-mode check.
   */
  function ClientWork(s: GameState): (r: GameState)
    ensures r.cash == s.cash + 600000.0 && r.techDebt == s.techDebt + 5
    ensures r.flags == s.flags.(pmfFrozen := true)
    ensures r.sanity == Max(0, s.sanity - 10)
    ensures r.isMachineMode == (s.isMachineMode || s.sanity <= 10)
    ensures r.philosophy == s.philosophy.(craftsmanship := s.philosophy.craftsmanship - 2,
                                          dishonesty := s.philosophy.dishonesty + 2)
    ensures r == s.(cash := r.cash, techDebt := r.techDebt, flags := r.flags, sanity := r.sanity,
                    isMachineMode := r.isMachineMode, philosophy := r.philosophy,
                    logs := s.logs + [LogEntry(s.week, LogWarning)])
  {
    var updated := GameEngine.CheckMachineMode(
      s.(cash := s.cash + 600000.0, techDebt := s.techDebt + 5,
         flags := s.flags.(pmfFrozen := true),
         sanity := Max(0, s.sanity - 10),
         philosophy := s.philosophy.(craftsmanship := s.philosophy.craftsmanship - 2,
                                     dishonesty := s.philosophy.dishonesty + 2)));
    updated.(logs := updated.logs + [LogEntry(updated.week, LogWarning)])
  }

  // ---------------------------------------------------------------------
  // Staff

  /** `Array.prototype.find` by id: the first employee with that id. */
  function FindEmployee(emps: seq<Employee>, id: string): (r: Option<Employee>)
    ensures r.Some? ==> r.value in emps && r.value.id == id
    ensures r.None? <==> forall i :: 0 <= i < |emps| ==> emps[i].id != id
    ensures r.Some? ==> exists i :: 0 <= i < |emps| && emps[i] == r.value && forall j :: 0 <= j < i ==> emps[j].id != id
  {
    if emps == [] then None
    else if emps[0].id == id then Some(emps[0])
    else FindEmployee(emps[1..], id)
  }

  /** `filter(e => e.id !== id)`. */
  function RemoveById(emps: seq<Employee>, id: string): (r: seq<Employee>)
    ensures |r| <= |emps|
    ensures forall e :: e in r <==> e in emps && e.id != id
    ensures FindEmployee(emps, id).None? ==> r == emps
    ensures FindEmployee(emps, id).Some? ==> |r| < |emps|
    ensures forall e :: multiset(r)[e] == (if e.id == id then 0 else multiset(emps)[e])
  {
    if emps == [] then []
    else
      var rest := RemoveById(emps[1..], id);
      assert emps == [emps[0]] + emps[1..];
      assert multiset(emps) == multiset{emps[0]} + multiset(emps[1..]);
      if emps[0].id == id then rest
      else
        assert multiset([emps[0]] + rest) == multiset{emps[0]} + multiset(rest);
        [emps[0]] + rest
  }

  /** The filter keeps the order: removing from a concatenation removes from each part. */
  lemma {:induction false} RemoveByIdDistributes(a: seq<Employee>, b: seq<Employee>, id: string)
    ensures RemoveById(a + b, id) == RemoveById(a, id) + RemoveById(b, id)
  {
    if a == [] {
      assert a + b == b;
    } else {
      assert (a + b)[0] == a[0] && (a + b)[1..] == a[1..] + b;
      RemoveByIdDistributes(a[1..], b, id);
      if a[0].id == id {
        assert RemoveById(a + b, id) == RemoveById(a[1..] + b, id);
      } else {
        assert RemoveById(a + b, id) == [a[0]] + RemoveById(a[1..] + b, id);
        assert RemoveById(a, id) == [a[0]] + RemoveById(a[1..], id);
        ConsAppend(a[0], RemoveById(a[1..], id), RemoveById(b, id));
      }
    }
  }

  lemma ConsAppend<T>(x: T, p: seq<T>, q: seq<T>)
    ensures [x] + (p + q) == ([x] + p) + q
  {
  }

  const HireCashGuard: real := 500000.0
  const SigningCost: real := 300000.0
  const HiringFrictionWeeks: int := 4

  /** Salary of a new hire: 800,000 for a manager, else 900,000 under a blitz investor, else 600,000. */
  function HireSalary(investor: InvestorType, role: Role): (salary: int)
    ensures salary >= 600000
    ensures role == Manager ==> salary == 800000
    ensures role != Manager ==> (salary == 900000 <==> investor == Blitz) && (salary == 600000 <==> investor != Blitz)
  {
    if role == Manager then 800000 else if investor == Blitz then 900000 else 600000
  }

  /** Culture of a new hire: CS and managers lean to stability (roll above 0.3), others to innovation. */
  function HireCulture(role: Role, roll: real): (culture: CultureType)
    ensures roll > 0.7 ==> culture == Stability
    ensures roll <= 0.3 ==> culture == Innovation
    ensures role == CS || role == Manager ==> (culture == Stability <==> roll > 0.3)
    ensures role != CS && role != Manager ==> (culture == Stability <==> roll > 0.7)
  {
    if role == CS || role == Manager then (if roll > 0.3 then Stability else Innovation)
    else (if roll > 0.7 then Stability else Innovation)
  }

  /**
   * Hiring: refused below 500,000 cash; otherwise one new employee reporting
   * to the CEO joins at the end of the list, 300,000 is paid and hiring
   * friction is set to 4 weeks.
   */
  function HireEmployee(s: GameState, role: Role, cultureRoll: real, newId: string): (r: GameState)
    ensures s.cash < HireCashGuard ==> r == s
    ensures s.cash >= HireCashGuard ==>
      && |r.employees| == |s.employees| + 1
      && r.employees[..|s.employees|] == s.employees
      && r.employees[|s.employees|].role == role
      && r.employees[|s.employees|].managerId.None?
      && r.employees[|s.employees|].isNewHire
      && r.employees[|s.employees|].salary == HireSalary(s.investorType, role)
      && r.cash == s.cash - SigningCost
      && r.hiringFrictionWeeks == HiringFrictionWeeks
      && r == s.(employees := r.employees, cash := r.cash, hiringFrictionWeeks := HiringFrictionWeeks,
                 logs := s.logs + [LogEntry(s.week, LogInfo)])
  {
    if s.cash < HireCashGuard then s
    else
      var e := Employee(newId, "New Hire", role, HireSalary(s.investorType, role), true, None,
                        HireCulture(role, cultureRoll));
      s.(employees := s.employees + [e], cash := s.cash - SigningCost,
         hiringFrictionWeeks := HiringFrictionWeeks,
         logs := s.logs + [LogEntry(s.week, LogInfo)])
  }

  lemma {:induction false} CountRoleAppend(emps: seq<Employee>, e: Employee, role: Role)
    ensures CountRole(emps + [e], role) == CountRole(emps, role) + (if e.role == role then 1 else 0)
    decreases |emps|
  {
    if emps == [] {
      assert [e][1..] == [];
    } else {
      assert (emps + [e])[1..] == emps[1..] + [e];
      CountRoleAppend(emps[1..], e, role);
    }
  }

  /**
   * A hire adds one to its role's headcount, raises the monthly burn by
   * exactly its salary and leaves at least 200,000 cash.
   */
  lemma HireEffects(s: GameState, role: Role, cultureRoll: real, newId: string)
    requires s.cash >= HireCashGuard
    ensures CountRole(HireEmployee(s, role, cultureRoll, newId).employees, role) == CountRole(s.employees, role) + 1
    ensures GameEngine.MonthlyBurn(HireEmployee(s, role, cultureRoll, newId))
            == GameEngine.MonthlyBurn(s) + HireSalary(s.investorType, role) as real
    ensures HireEmployee(s, role, cultureRoll, newId).cash >= HireCashGuard - SigningCost
  {
    var r := HireEmployee(s, role, cultureRoll, newId);
    var e := r.employees[|s.employees|];
    assert r.employees == s.employees + [e];
    CountRoleAppend(s.employees, e, role);
    GameEngine.HireRaisesBurn(s, e);
    assert r == s.(employees := s.employees + [e]).(cash := r.cash, hiringFrictionWeeks := HiringFrictionWeeks,
                                                    logs := r.logs);
  }

  const SeverancePay: real := 1000000.0

  /**
   * Firing: every employee with the id leaves (the first is recorded in the
   * history with the current date); whether or not one matched, the
   * founder pays 1,000,000, loses 15 sanity (floored at 0) and gains 10
   * ruthlessness and 5 loneliness; then the machine-mode check.
   */
  function FireEmployee(s: GameState, id: string): (r: GameState)
    ensures r.employees == RemoveById(s.employees, id)
    ensures r.cash == s.cash - SeverancePay
    ensures r.sanity == Max(0, s.sanity - 15)
    ensures r.isMachineMode == (s.isMachineMode || s.sanity <= 15)
    ensures r.philosophy == s.philosophy.(ruthlessness := s.philosophy.ruthlessness + 10,
                                          loneliness := s.philosophy.loneliness + 5)
    ensures r == s.(employees := r.employees, sanity := r.sanity, isMachineMode := r.isMachineMode, cash := r.cash,
                    philosophy := r.philosophy, firedEmployeesHistory := r.firedEmployeesHistory,
                    logs := s.logs + [LogEntry(s.week, LogCritical)])
  {
    var fired := FindEmployee(s.employees, id);
    var history := if fired.Some? then s.firedEmployeesHistory + [FiredRecord(fired.value.name, fired.value.role, s.date)]
                   else s.firedEmployeesHistory;
    var next := GameEngine.CheckMachineMode(
      s.(employees := RemoveById(s.employees, id),
         sanity := Max(0, s.sanity - 15),
         cash := s.cash - SeverancePay,
         philosophy := s.philosophy.(ruthlessness := s.philosophy.ruthlessness + 10,
                                     loneliness := s.philosophy.loneliness + 5),
         firedEmployeesHistory := history));
    next.(logs := next.logs + [LogEntry(next.week, LogCritical)])
  }

  /**
   * Firing an id removes everyone holding it and records the first of them;
   * firing an unknown id keeps staff and history but costs the same.
   */
  lemma FireRecordsHistory(s: GameState, id: string)
    ensures forall i :: 0 <= i < |FireEmployee(s, id).employees| ==> FireEmployee(s, id).employees[i].id != id
    ensures FindEmployee(s.employees, id).Some? ==>
              |FireEmployee(s, id).employees| < |s.employees| &&
              FireEmployee(s, id).firedEmployeesHistory == s.firedEmployeesHistory +
                [FiredRecord(FindEmployee(s.employees, id).value.name, FindEmployee(s.employees, id).value.role, s.date)]
    ensures FindEmployee(s.employees, id).None? ==>
              FireEmployee(s, id).firedEmployeesHistory == s.firedEmployeesHistory &&
              FireEmployee(s, id).employees == s.employees
  {
    var r := FireEmployee(s, id);
    forall i | 0 <= i < |r.employees|
      ensures r.employees[i].id != id
    {
      assert r.employees[i] in RemoveById(s.employees, id);
    }
  }

  // ---------------------------------------------------------------------
  // Events and sales

  function AddKarma(p: Philosophy, d: Philosophy): Philosophy
  {
    Philosophy(p.ruthlessness + d.ruthlessness, p.craftsmanship + d.craftsmanship,
               p.dishonesty + d.dishonesty, p.loneliness + d.loneliness)
  }

  /**
   * Resolving the active event with a choice: no-op without an active event
   * or when the choice is not one of its options. Otherwise the choice's
   * partial state is spread over the state, its karma is added, the event is
   * cleared, decision mode stays on exactly when the choice set cash to a
   * negative value, and the machine-mode check runs.
   */
  function ResolveEvent(s: GameState, c: ChoiceId): (r: GameState)
    ensures s.activeEvent.None? || c !in s.activeEvent.value.choices ==> r == s
    ensures s.activeEvent.Some? && c in s.activeEvent.value.choices ==>
      var d := Scenario.ChoiceEffect(c, s);
      && r.activeEvent.None?
      && (r.isDecisionMode <==> d.cash.Some? && d.cash.value < 0.0)
      && r.philosophy == AddKarma(s.philosophy, Scenario.ChoiceKarma(c))
      && r.logs == s.logs + [LogEntry(s.week, LogWarning)]
      && (r.sanity <= 0 ==> r.isMachineMode)
      && r.sanity == (if Scenario.ApplyDelta(s, d).sanity <= 0 && !s.isMachineMode then 0
                      else Scenario.ApplyDelta(s, d).sanity)
      && r.isMachineMode == (s.isMachineMode || Scenario.ApplyDelta(s, d).sanity <= 0)
      && r == Scenario.ApplyDelta(s, d).(philosophy := r.philosophy, activeEvent := None,
                                         isDecisionMode := r.isDecisionMode, logs := r.logs,
                                         isMachineMode := r.isMachineMode, sanity := r.sanity)
  {
    if s.activeEvent.None? || c !in s.activeEvent.value.choices then s
    else
      var d := Scenario.ChoiceEffect(c, s);
      var stillCritical := d.cash.Some? && d.cash.value < 0.0;
      GameEngine.CheckMachineMode(
        Scenario.ApplyDelta(s, d).(philosophy := AddKarma(s.philosophy, Scenario.ChoiceKarma(c)),
                                   activeEvent := None, isDecisionMode := stillCritical,
                                   logs := s.logs + [LogEntry(s.week, LogWarning)]))
  }

  /**
   * Resolving the mentor choice from a solvent seed company enters Series A
   * with the chosen investor, leaves decision mode, and closes the command
   * that investor forbids.
   */
  lemma MentorResolution(s: GameState, c: ChoiceId)
    requires s.activeEvent == Some(Scenario.MentorEvent) && Scenario.EventOf(c) == MentorChoice
    requires s.cash >= 0.0
    ensures ResolveEvent(s, c).phase == SeriesA
    ensures ResolveEvent(s, c).investorType ==
              (if c == MentorBlitz then Blitz else if c == MentorProduct then Product else Family)
    ensures !ResolveEvent(s, c).isDecisionMode
    ensures ResolveEvent(s, c).activeEvent.None?
    ensures c == MentorProduct ==> !CanUseCommand(ResolveEvent(s, c), SalesCommand)
    ensures c == MentorFamily ==> !CanUseCommand(ResolveEvent(s, c), FireCommand)
  {
    Scenario.MentorChoiceFunding(s, c);
  }

  /** The MRR a closed deal adds, by target. */
  function BaseReward(t: SalesTarget): (reward: int)
    ensures 10000 <= reward <= 1500000
    ensures reward == 10000 <==> t == Friends
    ensures reward == 1500000 <==> t == Whale
    ensures t == Startup ==> reward == 50000
    ensures t == Enterprise ==> reward == 200000
  {
    match t
    case Friends => 10000
    case Startup => 50000
    case Enterprise => 200000
    case Whale => 1500000
  }

  /**
   * The MRR a pitch earns: nothing for a loss; for a win the target's
   * reward, cut to a tenth (rounded down) below 30 PMF except for friends
   * and whales.
   */
  function PitchReward(t: SalesTarget, win: bool, pmf: int): (gain: int)
    ensures !win ==> gain == 0
    ensures 0 <= gain <= BaseReward(t)
    ensures win && (pmf >= 30 || t == Friends || t == Whale) ==> gain == BaseReward(t)
    ensures win && pmf < 30 && t == Startup ==> gain == 5000
    ensures win && pmf < 30 && t == Enterprise ==> gain == 20000
  {
    if !win then 0
    else if pmf < 30 && t != Whale && t != Friends then (BaseReward(t) as real * 0.1).Floor
    else BaseReward(t)
  }

  /**
   * More PMF never pays less; from 30 PMF on a bigger target never pays
   * less, while below it a startup deal pays less than a friends deal.
   */
  lemma PitchRewardMonotone(t: SalesTarget, win: bool, pmf: int, pmf': int)
    requires pmf <= pmf'
    ensures PitchReward(t, win, pmf) <= PitchReward(t, win, pmf')
    ensures pmf >= 30 ==> PitchReward(Friends, true, pmf) <= PitchReward(Startup, true, pmf)
                          <= PitchReward(Enterprise, true, pmf) <= PitchReward(Whale, true, pmf)
    ensures pmf < 30 ==> PitchReward(Startup, true, pmf) < PitchReward(Friends, true, pmf)
  {
  }

  /**
   * The end of a pitch: MRR grows by the reward, the mini-game's costs are
   * charged (tech debt, cash, sanity floored at 0), and the machine-mode
   * check runs.
   */
  function CompleteSalesPitch(s: GameState, t: SalesTarget, win: bool,
                              techDebt: int, sanityCost: int, cashCost: real): (r: GameState)
    ensures r.kpi == s.kpi.(mrr := s.kpi.mrr + PitchReward(t, win, s.pmfScore) as real)
    ensures r.kpi.mrr >= s.kpi.mrr
    ensures !win ==> r.kpi.mrr == s.kpi.mrr
    ensures r.techDebt == s.techDebt + techDebt && r.cash == s.cash - cashCost
    ensures r.sanity == Max(0, s.sanity - sanityCost)
    ensures r.isMachineMode == (s.isMachineMode || s.sanity - sanityCost <= 0)
    ensures r == s.(kpi := r.kpi, techDebt := r.techDebt, cash := r.cash, sanity := r.sanity,
                    isMachineMode := r.isMachineMode,
                    logs := s.logs + [LogEntry(s.week, if win then LogSuccess else LogWarning)])
  {
    var gain := PitchReward(t, win, s.pmfScore);
    GameEngine.CheckMachineMode(
      s.(kpi := s.kpi.(mrr := s.kpi.mrr + gain as real),
         techDebt := s.techDebt + techDebt,
         cash := s.cash - cashCost,
         sanity := Max(0, s.sanity - sanityCost),
         logs := s.logs + [LogEntry(s.week, if win then LogSuccess else LogWarning)]))
  }

  // ---------------------------------------------------------------------
  // Private time and command gates

  datatype PrivateAction = WorkWeekend | FamilyTime

  /**
   * Private time: a machine cannot spend time with family (no-op). Working
   * the weekend costs 10 sanity (floored at 0) and 2 loneliness for 5 leads,
   * then the machine-mode check; family time restores 20 sanity and 15
   * relationship (both capped at 100) and takes 5 loneliness off (floored
   * at 0).
   */
  function HandlePrivateAction(s: GameState, a: PrivateAction): (r: GameState)
    ensures s.isMachineMode && a == FamilyTime ==> r == s
    ensures a == WorkWeekend ==>
      && r.sanity == Max(0, s.sanity - 10) && r.leads == s.leads + 5
      && r.isMachineMode == (s.isMachineMode || s.sanity <= 10)
      && r == s.(sanity := r.sanity, leads := r.leads, isMachineMode := r.isMachineMode,
                 philosophy := s.philosophy.(loneliness := s.philosophy.loneliness + 2),
                 logs := s.logs + [LogEntry(s.week, LogInfo)])
    ensures a == FamilyTime && !s.isMachineMode ==>
      && r.sanity == Min(100, s.sanity + 20)
      && r.familyRelationship == Min(100, s.familyRelationship + 15)
      && r.philosophy.loneliness == Max(0, s.philosophy.loneliness - 5)
      && r == s.(sanity := r.sanity, familyRelationship := r.familyRelationship,
                 philosophy := s.philosophy.(loneliness := r.philosophy.loneliness),
                 logs := s.logs + [LogEntry(s.week, LogInfo)])
  {
    if s.isMachineMode && a == FamilyTime then s
    else if a == WorkWeekend then
      GameEngine.CheckMachineMode(
        s.(sanity := Max(0, s.sanity - 10), leads := s.leads + 5,
           philosophy := s.philosophy.(loneliness := s.philosophy.loneliness + 2),
           logs := s.logs + [LogEntry(s.week, LogInfo)]))
    else
      s.(sanity := Min(100, s.sanity + 20),
         familyRelationship := Min(100, s.familyRelationship + 15),
         philosophy := s.philosophy.(loneliness := Max(0, s.philosophy.loneliness - 5)),
         logs := s.logs + [LogEntry(s.week, LogInfo)])
  }

  /** Family time moves sanity and relationship up to, never past, 100, and never lowers them. */
  lemma FamilyTimeRestores(s: GameState)
    requires !s.isMachineMode && s.sanity <= 100 && s.familyRelationship <= 100
    ensures s.sanity <= HandlePrivateAction(s, FamilyTime).sanity <= 100
    ensures s.familyRelationship <= HandlePrivateAction(s, FamilyTime).familyRelationship <= 100
    ensures HandlePrivateAction(s, FamilyTime).philosophy.loneliness <= Max(0, s.philosophy.loneliness)
  {
  }

  datatype Command = SalesCommand | FireCommand | PivotCommand | RecruitCommand | SideGigCommand

  /**
   * Command gates: recruiting and the side gig need their unlock flags; a
   * product investor forbids sales and a family investor forbids firing.
   */
  function CanUseCommand(s: GameState, c: Command): (ok: bool)
    ensures c == PivotCommand ==> ok
    ensures c == RecruitCommand ==> (ok <==> s.flags.recruitUnlocked)
    ensures c == SideGigCommand ==> (ok <==> s.flags.sideGigUnlocked)
    ensures c == SalesCommand ==> (ok <==> s.investorType != Product)
    ensures c == FireCommand ==> (ok <==> s.investorType != Family)
  {
    if c == RecruitCommand && !s.flags.recruitUnlocked then false
    else if c == SideGigCommand && !s.flags.sideGigUnlocked then false
    else if s.investorType == Product && c == SalesCommand then false
    else if s.investorType == Family && c == FireCommand then false
    else true
  }

  // ---------------------------------------------------------------------
  // The org chart

  /** JavaScript truthiness of a manager reference: null and the empty id end a walk. */
  predicate IsId(c: Option<string>)
  {
    c.Some? && c.value != ""
  }

  /** The manager of the first employee with the id; none when no employee has it. */
  function ManagerOf(emps: seq<Employee>, id: string): Option<string>
  {
    var e := FindEmployee(emps, id);
    if e.Some? then e.value.managerId else None
  }

  /** Where the walk up the manager chain from `c` stands after `n` steps. */
  function Walk(emps: seq<Employee>, c: Option<string>, n: nat): Option<string>
    decreases n
  {
    if n == 0 || !IsId(c) then c else Walk(emps, ManagerOf(emps, c.value), n - 1)
  }

  /** The walk up from `c` ends. */
  ghost predicate ChainEnds(emps: seq<Employee>, c: Option<string>)
  {
    exists n: nat :: !IsId(Walk(emps, c, n))
  }

  /** A number of steps after which the walk from `c` has ended. */
  ghost function EndFuel(emps: seq<Employee>, c: Option<string>): (n: nat)
    requires ChainEnds(emps, c)
    ensures !IsId(Walk(emps, c, n))
  {
    var n: nat :| !IsId(Walk(emps, c, n)); n
  }

  /** `x` is met within the first `n` steps of the walk from `c`. */
  function OnChain(emps: seq<Employee>, x: string, c: Option<string>, n: nat): bool
    decreases n
  {
    if n == 0 || !IsId(c) then false
    else c.value == x || OnChain(emps, x, ManagerOf(emps, c.value), n - 1)
  }

  /** Every employee's walk up the org chart ends: the reporting lines hold no cycle. */
  ghost predicate Acyclic(emps: seq<Employee>)
  {
    forall i :: 0 <= i < |emps| ==> ChainEnds(emps, Some(emps[i].id))
  }

  /** `OnChain` says what it means: `x` is one of the ids the walk visits. */
  lemma {:induction false} OnChainVisits(emps: seq<Employee>, x: string, c: Option<string>, n: nat)
    ensures OnChain(emps, x, c, n) ==> x != "" && exists k :: 0 <= k < n && Walk(emps, c, k) == Some(x)
    ensures forall k :: 0 <= k < n && Walk(emps, c, k) == Some(x) && x != "" ==> OnChain(emps, x, c, n)
    decreases n
  {
    if n != 0 && IsId(c) {
      var p := ManagerOf(emps, c.value);
      OnChainVisits(emps, x, p, n - 1);
      if OnChain(emps, x, c, n) {
        if c.value == x {
          assert Walk(emps, c, 0) == Some(x);
        } else {
          var k :| 0 <= k < n - 1 && Walk(emps, p, k) == Some(x);
          assert Walk(emps, c, k + 1) == Some(x);
        }
      }
      forall k | 0 <= k < n && Walk(emps, c, k) == Some(x) && x != ""
        ensures OnChain(emps, x, c, n)
      {
        if k != 0 {
          assert Walk(emps, c, k) == Walk(emps, p, k - 1);
        }
      }
    }
  }

  /**
   * The walk-up cycle check: follow manager references from the proposed
   * manager until they run out, answering true as soon as the employee
   * itself is met.
   */
  method WouldCreateCycle(employeeId: string, newManagerId: Option<string>, emps: seq<Employee>)
    returns (cycle: bool)
    requires ChainEnds(emps, newManagerId)
    ensures cycle == OnChain(emps, employeeId, newManagerId, EndFuel(emps, newManagerId))
  {
    ghost var fuel := EndFuel(emps, newManagerId);
    var cursor := newManagerId;
    while IsId(cursor)
      invariant !IsId(Walk(emps, cursor, fuel))
      invariant OnChain(emps, employeeId, newManagerId, EndFuel(emps, newManagerId))
                == OnChain(emps, employeeId, cursor, fuel)
      decreases fuel
    {
      if cursor.value == employeeId {
        return true;
      }
      cursor := ManagerOf(emps, cursor.value);
      fuel := fuel - 1;
    }
    return false;
  }

  /** Every reporting line of `manager` set to `m`. */
  function SetManager(emps: seq<Employee>, id: string, m: Option<string>): (r: seq<Employee>)
    ensures |r| == |emps|
    ensures forall i :: 0 <= i < |emps| ==> r[i].id == emps[i].id
    ensures forall i :: 0 <= i < |emps| ==>
              r[i] == (if emps[i].id == id then emps[i].(managerId := m) else emps[i])
  {
    if emps == [] then []
    else [if emps[0].id == id then emps[0].(managerId := m) else emps[0]] + SetManager(emps[1..], id, m)
  }

  lemma {:induction false} ManagerOfAfterSet(emps: seq<Employee>, id: string, m: Option<string>, c: string)
    ensures ManagerOf(SetManager(emps, id, m), c) ==
            (if c == id && FindEmployee(emps, id).Some? then m else ManagerOf(emps, c))
    decreases |emps|
  {
    if emps != [] {
      var r := SetManager(emps, id, m);
      assert r[1..] == SetManager(emps[1..], id, m);
      ManagerOfAfterSet(emps[1..], id, m, c);
    }
  }

  lemma {:induction false} ManagerOfAfterRemove(emps: seq<Employee>, id: string, c: string)
    ensures ManagerOf(RemoveById(emps, id), c) == (if c == id then None else ManagerOf(emps, c))
    decreases |emps|
  {
    if emps != [] {
      ManagerOfAfterRemove(emps[1..], id, c);
      if emps[0].id != id {
        var r := RemoveById(emps, id);
        assert r[0] == emps[0] && r[1..] == RemoveById(emps[1..], id);
      }
    }
  }

  lemma {:induction false} ManagerOfAfterAppend(emps: seq<Employee>, e: Employee, c: string)
    requires e.managerId.None?
    ensures ManagerOf(emps + [e], c) == ManagerOf(emps, c)
    decreases |emps|
  {
    if emps == [] {
    } else {
      assert (emps + [e])[0] == emps[0];
      assert (emps + [e])[1..] == emps[1..] + [e];
      ManagerOfAfterAppend(emps[1..], e, c);
    }
  }

  /** In an acyclic org chart the walk from any reference ends. */
  lemma AcyclicChainsEnd(emps: seq<Employee>, c: Option<string>)
    requires Acyclic(emps)
    ensures ChainEnds(emps, c)
  {
    if !IsId(c) {
      assert !IsId(Walk(emps, c, 0));
    } else {
      var f := FindEmployee(emps, c.value);
      if f.None? {
        assert !IsId(Walk(emps, c, 1));
      } else {
        var i :| 0 <= i < |emps| && emps[i] == f.value;
        assert ChainEnds(emps, Some(emps[i].id));
      }
    }
  }

  /**
   * A chart whose reporting lines agree with an old one except that some
   * were cut has walks that end wherever the old ones did.
   */
  lemma {:induction false} CutChainsEnd(emps: seq<Employee>, emps': seq<Employee>, c: Option<string>, n: nat)
    requires forall d :: ManagerOf(emps', d) == ManagerOf(emps, d) || ManagerOf(emps', d).None?
    requires !IsId(Walk(emps, c, n))
    ensures ChainEnds(emps', c)
    decreases n
  {
    if !IsId(c) {
      assert !IsId(Walk(emps', c, 0));
    } else {
      var p' := ManagerOf(emps', c.value);
      if p'.None? {
        assert !IsId(Walk(emps', c, 1));
      } else {
        CutChainsEnd(emps, emps', p', n - 1);
        var k: nat :| !IsId(Walk(emps', p', k));
        assert Walk(emps', c, k + 1) == Walk(emps', p', k);
      }
    }
  }

  lemma CutChartStaysAcyclic(emps: seq<Employee>, emps': seq<Employee>)
    requires Acyclic(emps)
    requires forall d :: ManagerOf(emps', d) == ManagerOf(emps, d) || ManagerOf(emps', d).None?
    ensures Acyclic(emps')
  {
    forall i | 0 <= i < |emps'|
      ensures ChainEnds(emps', Some(emps'[i].id))
    {
      AcyclicChainsEnd(emps, Some(emps'[i].id));
      CutChainsEnd(emps, emps', Some(emps'[i].id), EndFuel(emps, Some(emps'[i].id)));
    }
  }

  /** Hiring keeps the org chart acyclic: the new hire reports to the CEO. */
  lemma HireKeepsAcyclic(s: GameState, role: Role, cultureRoll: real, newId: string)
    requires Acyclic(s.employees)
    ensures Acyclic(HireEmployee(s, role, cultureRoll, newId).employees)
  {
    var r := HireEmployee(s, role, cultureRoll, newId);
    if s.cash >= HireCashGuard {
      var e := r.employees[|s.employees|];
      assert r.employees == s.employees + [e];
      forall d {
        ManagerOfAfterAppend(s.employees, e, d);
      }
      CutChartStaysAcyclic(s.employees, r.employees);
    }
  }

  /** Firing keeps the org chart acyclic: reports of a fired manager end their walk there. */
  lemma FireKeepsAcyclic(s: GameState, id: string)
    requires Acyclic(s.employees)
    ensures Acyclic(FireEmployee(s, id).employees)
  {
    forall d {
      ManagerOfAfterRemove(s.employees, id, d);
    }
    CutChartStaysAcyclic(s.employees, FireEmployee(s, id).employees);
  }

  /**
   * Resolving an event keeps the org chart acyclic: the only choice that
   * touches the staff appends the star engineer, who reports to the CEO.
   */
  lemma ResolveKeepsAcyclic(s: GameState, c: ChoiceId)
    requires Acyclic(s.employees)
    ensures Acyclic(ResolveEvent(s, c).employees)
  {
    if s.activeEvent.Some? && c in s.activeEvent.value.choices {
      var d := Scenario.ChoiceEffect(c, s);
      assert ResolveEvent(s, c).employees == Scenario.ApplyDelta(s, d).employees;
      if d.employees.Some? {
        forall m {
          ManagerOfAfterAppend(s.employees, Scenario.StarEngineer, m);
        }
        CutChartStaysAcyclic(s.employees, d.employees.value);
      }
    }
  }

  /** Two charts that agree on every reporting line except, possibly, `id`'s. */
  ghost predicate AgreeExcept(emps: seq<Employee>, emps': seq<Employee>, id: string)
  {
    forall d :: d != id ==> ManagerOf(emps', d) == ManagerOf(emps, d)
  }

  /** A walk that never meets `id` ends in the same number of steps after `id`'s manager changes. */
  lemma {:induction false} AvoidingWalkUnchanged(emps: seq<Employee>, emps': seq<Employee>, id: string,
                                                 c: Option<string>, n: nat)
    requires AgreeExcept(emps, emps', id)
    requires !OnChain(emps, id, c, n) && !IsId(Walk(emps, c, n))
    ensures !IsId(Walk(emps', c, n))
    decreases n
  {
    if n != 0 && IsId(c) {
      var p := ManagerOf(emps, c.value);
      assert ManagerOf(emps', c.value) == p;
      AvoidingWalkUnchanged(emps, emps', id, p, n - 1);
      assert Walk(emps', c, n) == Walk(emps', p, n - 1);
    }
  }

  /**
   * After `id` is moved under `m`, whose old chain ends without meeting
   * `id`, every walk that used to end still ends.
   */
  lemma {:induction false} ReassignedChainsEnd(emps: seq<Employee>, emps': seq<Employee>, id: string,
                                               m: Option<string>, c: Option<string>, n: nat)
    requires AgreeExcept(emps, emps', id)
    requires ManagerOf(emps', id) == m || ManagerOf(emps', id).None?
    requires ChainEnds(emps, m) && !OnChain(emps, id, m, EndFuel(emps, m))
    requires !IsId(Walk(emps, c, n))
    ensures ChainEnds(emps', c)
    decreases n
  {
    if !IsId(c) {
      assert !IsId(Walk(emps', c, 0));
    } else if c.value == id {
      var p' := ManagerOf(emps', id);
      if p'.None? {
        assert !IsId(Walk(emps', c, 1));
      } else {
        var fm := EndFuel(emps, m);
        AvoidingWalkUnchanged(emps, emps', id, m, fm);
        assert Walk(emps', c, fm + 1) == Walk(emps', m, fm);
      }
    } else {
      var p := ManagerOf(emps, c.value);
      assert ManagerOf(emps', c.value) == p;
      ReassignedChainsEnd(emps, emps', id, m, p, n - 1);
      var k: nat :| !IsId(Walk(emps', p, k));
      assert Walk(emps', c, k + 1) == Walk(emps', p, k);
    }
  }

  /**
   * Manager assignment: no-op when an employee would manage itself, when no
   * employee has the id, or when the employee is on the new manager's chain
   * (the change would close a cycle). Otherwise every employee with the id
   * reports to the new manager and a log is added; an acyclic org chart
   * stays acyclic.
   */
  method AssignManager(s: GameState, employeeId: string, managerId: Option<string>) returns (r: GameState)
    requires ChainEnds(s.employees, managerId)
    ensures managerId == Some(employeeId) ==> r == s
    ensures FindEmployee(s.employees, employeeId).None? ==> r == s
    ensures OnChain(s.employees, employeeId, managerId, EndFuel(s.employees, managerId)) ==> r == s
    ensures r != s ==>
              r == s.(employees := SetManager(s.employees, employeeId, managerId),
                      logs := s.logs + [LogEntry(s.week, LogInfo)])
    ensures managerId != Some(employeeId) && FindEmployee(s.employees, employeeId).Some? &&
            !OnChain(s.employees, employeeId, managerId, EndFuel(s.employees, managerId)) ==>
              r == s.(employees := SetManager(s.employees, employeeId, managerId),
                      logs := s.logs + [LogEntry(s.week, LogInfo)])
    ensures |r.employees| == |s.employees|
    ensures forall d :: d != employeeId ==> ManagerOf(r.employees, d) == ManagerOf(s.employees, d)
    ensures Acyclic(s.employees) ==> Acyclic(r.employees)
  {
    if managerId == Some(employeeId) {
      return s;
    }
    var target := FindEmployee(s.employees, employeeId);
    if target.None? {
      return s;
    }
    var cycle := WouldCreateCycle(employeeId, managerId, s.employees);
    if cycle {
      return s;
    }
    var emps := SetManager(s.employees, employeeId, managerId);
    forall d | d != employeeId
      ensures ManagerOf(emps, d) == ManagerOf(s.employees, d)
    {
      ManagerOfAfterSet(s.employees, employeeId, managerId, d);
    }
    ManagerOfAfterSet(s.employees, employeeId, managerId, employeeId);
    if Acyclic(s.employees) {
      forall i | 0 <= i < |emps|
        ensures ChainEnds(emps, Some(emps[i].id))
      {
        AcyclicChainsEnd(s.employees, Some(emps[i].id));
        ReassignedChainsEnd(s.employees, emps, employeeId, managerId, Some(emps[i].id),
                            EndFuel(s.employees, Some(emps[i].id)));
      }
    }
    r := s.(employees := emps, logs := s.logs + [LogEntry(s.week, LogInfo)]);
  }
}
