/**
 * Major events: per-phase pools of high-stakes negotiations, the capped
 * trigger that offers one, their success chance, and how an outcome
 * changes the state (revenue, a difficulty buff, penalties, reputations).
 */
module MajorEvents {
  import opened GameTypes
  import SalesLogic
  import DifficultyModifierStore
  import Investors

  /** Most major events a phase may produce. */
  function MaxEvents(p: Phase): nat
  {
    match p
    case Seed => 1
    case SeriesA => 1
    case SeriesB => 2
  }

  /** Events a phase must have produced before an unforced trigger is possible. */
  function MinEvents(p: Phase): nat
  {
    1
  }

  function SeedEvents(): seq<MajorEvent>
  {
    [ MajorEvent("seed_collab", Brand, Seed, 70, 60000.0, Some(3), Some(0.15), 1.05, 4, None, None,
                 [Product, Family], []),
      MajorEvent("seed_bigdeal", BigDeal, Seed, 90, 90000.0, Some(2), Some(0.12), 1.0, 4, None, None,
                 [], [Family]) ]
  }

  function SeriesAEvents(): seq<MajorEvent>
  {
    [ MajorEvent("seriesA_brand", Brand, SeriesA, 130, 220000.0, Some(4), Some(0.18), 0.9, 5, None, None,
                 [Product, Family], []),
      MajorEvent("seriesA_deal", BigDeal, SeriesA, 150, 320000.0, Some(3), Some(0.15), 0.85, 5, None, None,
                 [], [Product]) ]
  }

  function SeriesBEvents(): seq<MajorEvent>
  {
    [ MajorEvent("seriesB_whale", BigDeal, SeriesB, 210, 650000.0, Some(4), Some(0.2), 0.75, 5, None, None,
                 [Blitz], []),
      MajorEvent("seriesB_brand", Brand, SeriesB, 180, 400000.0, Some(5), Some(0.22), 0.85, 5, None, None,
                 [Product, Family], []),
      MajorEvent("seriesB_random", RandomBuzz, SeriesB, 190, 360000.0, Some(3), Some(0.18), 0.9, 5,
                 Some(200000.0), Some(8), [], [Family]) ]
  }

  function PoolForPhase(p: Phase): (pool: seq<MajorEvent>)
    ensures |pool| > 0
    ensures forall i :: 0 <= i < |pool| ==> pool[i].phase == p
  {
    match p
    case Seed => SeedEvents()
    case SeriesA => SeriesAEvents()
    case SeriesB => SeriesBEvents()
  }

  /** Number of events the phase has produced; a missing entry counts as 0. */
  function CountFor(counts: map<Phase, nat>, p: Phase): nat
  {
    if p in counts then counts[p] else 0
  }

  /**
   * Offer a major event for `phase`, or None. `gateRoll` and `pickRoll` are
   * the two draws of the random source, each in [0, 1); `pickRoll` chooses
   * uniformly from the phase's pool.
   */
  function TriggerMajorEvent(phase: Phase, s: GameState, force: bool, gateRoll: real, pickRoll: real): (r: Option<MajorEvent>)
    requires 0.0 <= pickRoll < 1.0
    ensures s.activeMajorEvent.Some? ==> r.None?
    ensures CountFor(s.majorEventCountByPhase, phase) >= MaxEvents(phase) ==> r.None?
    ensures r.Some? ==> r.value in PoolForPhase(phase) && r.value.phase == phase
    ensures !force ==>
      (r.Some? <==>
        && s.activeMajorEvent.None?
        && phase == SeriesB
        && CountFor(s.majorEventCountByPhase, phase) == 1
        && gateRoll >= 0.5)
    ensures force && s.activeMajorEvent.None? && CountFor(s.majorEventCountByPhase, phase) < MaxEvents(phase) ==> r.Some?
  {
    if s.activeMajorEvent.Some? then None
    else
      var currentCount := CountFor(s.majorEventCountByPhase, phase);
      if currentCount >= MaxEvents(phase) then None
      else if !force && currentCount < MinEvents(phase) then None
      else if !force && !(phase == SeriesB && currentCount == 1) then None
      else if !force && gateRoll < 0.5 then None
      else Some(PickEvent(PoolForPhase(phase), pickRoll))
  }

  /** `events[Math.floor(roll * events.length)]`. */
  function PickEvent(events: seq<MajorEvent>, roll: real): (e: MajorEvent)
    requires |events| > 0 && 0.0 <= roll < 1.0
    ensures e in events
  {
    var n := |events| as real;
    assert roll * n < n by { assert (1.0 - roll) * n > 0.0; }
    var i := (roll * n).Floor;
    events[i]
  }

  /** The clamped deal chance scaled by the event's own modifier, clamped again. */
  function CalculateMajorEventSuccess(event: MajorEvent, pmf: real, salesCount: real, productQuality: real, cardEffects: real): (r: real)
    ensures SalesLogic.MinChance <= r <= SalesLogic.MaxChance
    ensures r == SalesLogic.ClampChance(
      SalesLogic.CalculateDealSuccess(pmf, salesCount, productQuality, cardEffects, event.resistance as real)
      * event.eventSuccessModifier)
  {
    var chance := SalesLogic.CalculateDealSuccess(pmf, salesCount, productQuality, cardEffects, event.resistance as real);
    SalesLogic.ClampChance(chance * event.eventSuccessModifier)
  }

  /** A JavaScript-truthy optional number: present and not zero. */
  predicate Truthy(o: Option<real>) { o.Some? && o.value != 0.0 }
  predicate TruthyInt(o: Option<int>) { o.Some? && o.value != 0 }

  /** Every investor's reputation after the event, in list order. */
  function UpdateAllInvestors(investors: seq<InvestorState>, kind: MajorEventType, success: bool): (r: seq<InvestorState>)
    ensures |r| == |investors|
    ensures forall i :: 0 <= i < |r| ==> r[i] == Investors.UpdateInvestorReputation(kind, success, investors[i])
  {
    seq(|investors|, i requires 0 <= i < |investors| => Investors.UpdateInvestorReputation(kind, success, investors[i]))
  }

  /** The success branch: revenue, then the buff when both of its numbers are given. */
  function ApplySuccess(event: MajorEvent, s: GameState): (r: GameState)
    ensures r.kpi == s.kpi.(mrr := s.kpi.mrr + event.rewardMrr)
    ensures r.difficultyModifier ==
      if Truthy(event.rewardBuffModifier) && TruthyInt(event.rewardBuffTurns)
      then Some(DifficultyModifier(event.rewardBuffTurns.value, event.rewardBuffModifier.value))
      else s.difficultyModifier
    ensures r == s.(kpi := r.kpi, difficultyModifier := r.difficultyModifier)
  {
    var withMrr := if event.rewardMrr != 0.0 then s.(kpi := s.kpi.(mrr := s.kpi.mrr + event.rewardMrr)) else s;
    if TruthyInt(event.rewardBuffTurns) && Truthy(event.rewardBuffModifier) then
      DifficultyModifierStore.ApplyTemporaryDifficultyModifier(withMrr, event.rewardBuffTurns.value, event.rewardBuffModifier.value)
    else withMrr
  }

  /** The failure branch: the sales cost (never below zero cash), then the development cost. */
  function ApplyFailure(event: MajorEvent, s: GameState): (r: GameState)
    ensures r.cash == if Truthy(event.failureCostSales) then MaxR(0.0, s.cash - event.failureCostSales.value) else s.cash
    ensures r.techDebt == s.techDebt + if TruthyInt(event.failureCostDev) then event.failureCostDev.value else 0
    ensures r == s.(cash := r.cash, techDebt := r.techDebt)
  {
    var withCash := if Truthy(event.failureCostSales) then s.(cash := MaxR(0.0, s.cash - event.failureCostSales.value)) else s;
    if TruthyInt(event.failureCostDev) then withCash.(techDebt := withCash.techDebt + event.failureCostDev.value) else withCash
  }

  function ApplyMajorEventOutcome(event: MajorEvent, success: bool, s: GameState): (r: GameState)
    ensures success ==> r.kpi.mrr == s.kpi.mrr + event.rewardMrr && r.cash == s.cash && r.techDebt == s.techDebt
    ensures success && Truthy(event.rewardBuffModifier) && TruthyInt(event.rewardBuffTurns) ==>
      r.difficultyModifier == Some(DifficultyModifier(event.rewardBuffTurns.value, event.rewardBuffModifier.value))
    ensures !success ==> r.kpi == s.kpi && r.difficultyModifier == s.difficultyModifier
    ensures !success ==> r.cash >= MinR(0.0, s.cash)
    ensures |r.investors| == |s.investors|
    ensures forall i :: 0 <= i < |s.investors| ==>
      r.investors[i] == Investors.UpdateInvestorReputation(event.kind, success, s.investors[i])
    ensures r == (if success then ApplySuccess(event, s) else ApplyFailure(event, s)).(investors := r.investors)
  {
    var next := if success then ApplySuccess(event, s) else ApplyFailure(event, s);
    next.(investors := UpdateAllInvestors(next.investors, event.kind, success))
  }
}
