/**
 * The negotiation mini-game: a deck built from the team, a battle opened
 * against a deal profile, and cards that wear the client's resistance
 * down while spending moves, cash, sanity and tech debt.
 */
module SalesMinigame {
  import opened GameTypes
  import DealProfiles

  datatype CardId = Base1 | Base2 | Co1 | Co2 | Sales1 | Sales2 | Eng1 | Cs1 | Gen1

  /** What a card costs besides moves; `costAmount` 0 means no amount. */
  datatype CostType = NoCost | CashCost | SanityCost

  datatype RiskType = NoRisk | TechDebtRisk | ChurnRisk

  datatype SalesCard = SalesCard(
    id: CardId,
    cost: int,
    damage: int,
    costType: CostType,
    costAmount: int,
    riskType: RiskType,
    riskAmount: int)

  const Enthusiasm: SalesCard := SalesCard(Base1, 1, 20, NoCost, 0, NoRisk, 0)
  const Kowtow: SalesCard := SalesCard(Base2, 1, 40, SanityCost, 10, NoRisk, 0)
  const HardPush: SalesCard := SalesCard(Co1, 1, 35, NoCost, 0, NoRisk, 0)
  const Prototype: SalesCard := SalesCard(Co2, 1, 30, NoCost, 0, NoRisk, 0)
  const Wining: SalesCard := SalesCard(Sales1, 1, 50, CashCost, 50000, NoRisk, 0)
  const Overpromise: SalesCard := SalesCard(Sales2, 1, 80, NoCost, 0, TechDebtRisk, 10)
  const Facade: SalesCard := SalesCard(Eng1, 1, 60, NoCost, 0, TechDebtRisk, 5)
  const Reassurance: SalesCard := SalesCard(Cs1, 2, 40, NoCost, 0, NoRisk, 0)
  const Discount: SalesCard := SalesCard(Gen1, 1, 15, NoCost, 0, NoRisk, 0)

  /** Every card of a deck costs at least one move and has no negative amount. */
  predicate WellFormedCard(c: SalesCard)
  {
    c.cost >= 1 && c.damage >= 0 && c.costAmount >= 0 && c.riskAmount >= 0
  }

  /** One of the nine cards of the game. */
  predicate KnownCard(c: SalesCard)
  {
    c in {Enthusiasm, Kowtow, HardPush, Prototype, Wining, Overpromise, Facade, Reassurance, Discount}
  }

  /** No card appears twice. */
  predicate Distinct(cards: seq<SalesCard>)
  {
    forall i, j :: 0 <= i < j < |cards| ==> cards[i] != cards[j]
  }

  predicate HasRole(emps: seq<Employee>, r: Role)
  {
    CountRole(emps, r) > 0
  }

  /**
   * The two founder cards, the co-founder's card, the team's cards, and the
   * discount card when fewer than four are present.
   */
  method BuildDeck(employees: seq<Employee>, coFounder: Option<CoFounder>) returns (cards: seq<SalesCard>)
    ensures 3 <= |cards| <= 7
    ensures cards[0] == Enthusiasm && cards[1] == Kowtow
    ensures HardPush in cards <==> coFounder.Some? && coFounder.value.kind == Hustler
    ensures Prototype in cards <==> coFounder.Some? && coFounder.value.kind == Hacker
    ensures !(HardPush in cards && Prototype in cards)
    ensures (Wining in cards <==> HasRole(employees, Sales)) && (Overpromise in cards <==> HasRole(employees, Sales))
    ensures Facade in cards <==> HasRole(employees, Engineer)
    ensures Reassurance in cards <==> HasRole(employees, CS)
    ensures Discount in cards <==>
              (!HasRole(employees, Sales) &&
               (if coFounder.Some? then 1 else 0) + (if HasRole(employees, Engineer) then 1 else 0)
                 + (if HasRole(employees, CS) then 1 else 0) <= 1)
    ensures forall i :: 0 <= i < |cards| ==> WellFormedCard(cards[i]) && KnownCard(cards[i])
    ensures Distinct(cards)
    ensures |cards| == 2 + (if coFounder.Some? then 1 else 0) + (if HasRole(employees, Sales) then 2 else 0)
                        + (if HasRole(employees, Engineer) then 1 else 0) + (if HasRole(employees, CS) then 1 else 0)
                        + (if Discount in cards then 1 else 0)
  {
    cards := FounderCards(coFounder);
    cards := PushEmployeeCards(cards, employees, coFounder);
    if |cards| < 4 {
      cards := cards + [Discount];
    }
  }

  /** The founder's two base cards, then the co-founder's card if any. */
  method FounderCards(coFounder: Option<CoFounder>) returns (cards: seq<SalesCard>)
    ensures Stage(cards, 2 + (if coFounder.Some? then 1 else 0),
                  coFounder.Some? && coFounder.value.kind == Hustler,
                  coFounder.Some? && coFounder.value.kind == Hacker, false, false, false)
  {
    cards := [];
    cards := cards + [Enthusiasm];
    cards := cards + [Kowtow];
    if coFounder.Some? && coFounder.value.kind == Hustler {
      cards := cards + [HardPush];
    } else if coFounder.Some? && coFounder.value.kind == Hacker {
      cards := cards + [Prototype];
    }
  }

  /** The cards the team brings: two for a sales member, one for an engineer, one for CS. */
  method PushEmployeeCards(founders: seq<SalesCard>, employees: seq<Employee>, ghost coFounder: Option<CoFounder>)
    returns (cards: seq<SalesCard>)
    requires Stage(founders, 2 + (if coFounder.Some? then 1 else 0),
                   coFounder.Some? && coFounder.value.kind == Hustler,
                   coFounder.Some? && coFounder.value.kind == Hacker, false, false, false)
    ensures Stage(cards, 2 + (if coFounder.Some? then 1 else 0) + (if HasRole(employees, Sales) then 2 else 0)
                         + (if HasRole(employees, Engineer) then 1 else 0) + (if HasRole(employees, CS) then 1 else 0),
                  coFounder.Some? && coFounder.value.kind == Hustler,
                  coFounder.Some? && coFounder.value.kind == Hacker,
                  HasRole(employees, Sales), HasRole(employees, Engineer), HasRole(employees, CS))
  {
    cards := founders;
    var hasSalesMember := HasRole(employees, Sales);
    var hasEngineer := HasRole(employees, Engineer);
    var hasCs := HasRole(employees, CS);
    if hasSalesMember {
      PushFresh(cards, Wining);
      cards := cards + [Wining];
      PushFresh(cards, Overpromise);
      cards := cards + [Overpromise];
    }
    ghost var n := 2 + (if coFounder.Some? then 1 else 0) + (if hasSalesMember then 2 else 0);
    assert Stage(cards, n, coFounder.Some? && coFounder.value.kind == Hustler,
                 coFounder.Some? && coFounder.value.kind == Hacker, hasSalesMember, false, false);
    if hasEngineer {
      PushFresh(cards, Facade);
      cards := cards + [Facade];
    }
    if hasCs {
      PushFresh(cards, Reassurance);
      cards := cards + [Reassurance];
    }
  }

  /** Pushing a known card the deck does not hold yet keeps the deck's cards known and distinct. */
  lemma PushFresh(cards: seq<SalesCard>, c: SalesCard)
    requires Distinct(cards) && c !in cards && WellFormedCard(c) && KnownCard(c)
    requires forall i :: 0 <= i < |cards| ==> WellFormedCard(cards[i]) && KnownCard(cards[i])
    ensures Distinct(cards + [c])
    ensures forall i :: 0 <= i < |cards + [c]| ==> WellFormedCard((cards + [c])[i]) && KnownCard((cards + [c])[i])
  {
    assert forall i :: 0 <= i < |cards| ==> (cards + [c])[i] == cards[i];
  }

  /** What the deck holds once the conditional pushes before the discount card are done. */
  ghost predicate Stage(cards: seq<SalesCard>, n: int, hustler: bool, hacker: bool,
                        sales: bool, engineer: bool, cs: bool)
  {
    |cards| == n && 2 <= n && cards[0] == Enthusiasm && cards[1] == Kowtow
    && (HardPush in cards <==> hustler) && (Prototype in cards <==> hacker)
    && (Wining in cards <==> sales) && (Overpromise in cards <==> sales)
    && (Facade in cards <==> engineer) && (Reassurance in cards <==> cs)
    && Discount !in cards
    && (forall i :: 0 <= i < |cards| ==> WellFormedCard(cards[i]) && KnownCard(cards[i]))
    && Distinct(cards)
  }

  datatype Step = Select | Battle

  /** What a battle entry in the log says; the text itself is left out. */
  datatype BattleLog = Locked(target: SalesTarget) | Gated(gate: DealProfiles.GateMessage)
                     | Started(target: SalesTarget) | Played(card: CardId) | NoCash | NoSanity

  /** The report handed to the caller when a battle ends. */
  datatype Completion = Completion(target: Option<SalesTarget>, win: bool, techDebt: int, sanityCost: int, cashCost: int)

  /** The component's state cells. */
  class Negotiation {
    var step: Step
    var selectedTarget: Option<SalesTarget>
    var clientResistance: int
    var maxResistance: int
    var moves: int
    var activeDealMrr: int
    var accumulatedDebt: int
    var accumulatedSanityCost: int
    var accumulatedCashCost: int
    var log: seq<BattleLog>

    ghost predicate Valid()
      reads this
    {
      0 <= clientResistance <= maxResistance && 0 <= moves
      && 0 <= accumulatedDebt && 0 <= accumulatedSanityCost && 0 <= accumulatedCashCost
      && (step == Battle ==> selectedTarget.Some?)
    }

    constructor ()
      ensures Valid()
      ensures step == Select && selectedTarget == None && log == []
      ensures clientResistance == 100 && maxResistance == 100 && moves == 3 && activeDealMrr == 0
      ensures accumulatedDebt == 0 && accumulatedSanityCost == 0 && accumulatedCashCost == 0
    {
      step := Select;
      selectedTarget := None;
      clientResistance := 100;
      maxResistance := 100;
      moves := 3;
      activeDealMrr := 0;
      accumulatedDebt := 0;
      accumulatedSanityCost := 0;
      accumulatedCashCost := 0;
      log := [];
    }

    /**
     * Open a battle against `target`: a target not offered in the phase, or
     * one whose gate is closed, only replaces the log; otherwise the
     * profile's resistance and moves are loaded and the costs reset.
     */
    method StartBattle(target: SalesTarget, phase: Phase, pmfScore: int, employees: seq<Employee>)
      requires Valid()
      modifies this
      ensures Valid()
      ensures DealProfiles.GetDealProfile(target, phase).None? ==>
                log == [Locked(target)] && unchanged(this`step, this`selectedTarget, this`clientResistance,
                  this`maxResistance, this`moves, this`activeDealMrr, this`accumulatedDebt,
                  this`accumulatedSanityCost, this`accumulatedCashCost)
      ensures DealProfiles.GetDealProfile(target, phase).Some? &&
              DealProfiles.GetDealGateMessage(target, phase, pmfScore, HasRole(employees, Sales)) != DealProfiles.Open ==>
                log == [Gated(DealProfiles.GetDealGateMessage(target, phase, pmfScore, HasRole(employees, Sales)))] &&
                unchanged(this`step, this`selectedTarget, this`clientResistance,
                  this`maxResistance, this`moves, this`activeDealMrr, this`accumulatedDebt,
                  this`accumulatedSanityCost, this`accumulatedCashCost)
      ensures DealProfiles.GetDealGateMessage(target, phase, pmfScore, HasRole(employees, Sales)) == DealProfiles.Open ==>
                var p := DealProfiles.GetDealProfile(target, phase).value;
                step == Battle && selectedTarget == Some(target) && log == [Started(target)]
                && clientResistance == p.resistance && maxResistance == p.resistance
                && moves == p.moves && activeDealMrr == p.mrr
                && accumulatedDebt == 0 && accumulatedSanityCost == 0 && accumulatedCashCost == 0
    {
      var gate := DealProfiles.GetDealGateMessage(target, phase, pmfScore, HasRole(employees, Sales));
      var profile := DealProfiles.GetDealProfile(target, phase);
      if profile.None? {
        log := [Locked(target)];
        return;
      }
      if gate != DealProfiles.Open {
        log := [Gated(gate)];
        return;
      }
      selectedTarget := Some(target);
      activeDealMrr := profile.value.mrr;
      clientResistance := profile.value.resistance;
      maxResistance := profile.value.resistance;
      moves := profile.value.moves;
      log := [Started(target)];
      step := Battle;
      accumulatedDebt := 0;
      accumulatedSanityCost := 0;
      accumulatedCashCost := 0;
    }

    /**
     * Play `card` with the founder's current cash and sanity. It is refused,
     * changing nothing but the log, when too few moves are left or a set
     * cash or sanity cost exceeds what the founder has. Otherwise resistance
     * falls by the damage (not below 0), the moves and costs are spent, and
     * the battle ends: won at resistance 0, else lost with no moves left,
     * the loss adding 10 to the sanity cost.
     */
    method PlayCard(card: SalesCard, cash: real, sanity: int) returns (done: Option<Completion>)
      requires Valid() && WellFormedCard(card)
      modifies this
      ensures Valid()
      ensures step == old(step) && selectedTarget == old(selectedTarget)
      ensures maxResistance == old(maxResistance) && activeDealMrr == old(activeDealMrr)
      ensures clientResistance <= old(clientResistance)
      ensures !Accepted(card, old(moves), cash, sanity) ==>
                done.None? && clientResistance == old(clientResistance) && moves == old(moves) &&
                accumulatedDebt == old(accumulatedDebt) && accumulatedSanityCost == old(accumulatedSanityCost) &&
                accumulatedCashCost == old(accumulatedCashCost)
      ensures old(moves) < card.cost ==> log == old(log)
      ensures old(moves) >= card.cost && CashShort(card, cash) ==> log == [NoCash] + old(log)
      ensures old(moves) >= card.cost && SanityShort(card, sanity) ==> log == [NoSanity] + old(log)
      ensures Accepted(card, old(moves), cash, sanity) ==>
                clientResistance == Max(0, old(clientResistance) - card.damage)
                && moves == old(moves) - card.cost
                && accumulatedCashCost == old(accumulatedCashCost) + CashPart(card)
                && accumulatedSanityCost == old(accumulatedSanityCost) + SanityPart(card)
                && accumulatedDebt == old(accumulatedDebt) + DebtPart(card)
                && log == [Played(card.id)] + old(log)
      ensures Accepted(card, old(moves), cash, sanity) && clientResistance == 0 ==>
                done == Some(Report(selectedTarget, true, card, old(accumulatedDebt),
                                    old(accumulatedSanityCost), old(accumulatedCashCost)))
      ensures Accepted(card, old(moves), cash, sanity) && clientResistance > 0 && moves == 0 ==>
                done == Some(Report(selectedTarget, false, card, old(accumulatedDebt),
                                    old(accumulatedSanityCost), old(accumulatedCashCost)))
      ensures Accepted(card, old(moves), cash, sanity) && clientResistance > 0 && moves > 0 ==> done.None?
    {
      done := None;
      if moves < card.cost {
        return;
      }
      if CashShort(card, cash) {
        log := [NoCash] + log;
        return;
      }
      if SanityShort(card, sanity) {
        log := [NoSanity] + log;
        return;
      }
      done := Spend(card);
    }

    /** Spend a card that passed every check, and end the battle if it is decided. */
    method Spend(card: SalesCard) returns (done: Option<Completion>)
      requires Valid() && WellFormedCard(card) && moves >= card.cost
      modifies this
      ensures Valid()
      ensures step == old(step) && selectedTarget == old(selectedTarget)
      ensures maxResistance == old(maxResistance) && activeDealMrr == old(activeDealMrr)
      ensures clientResistance == Max(0, old(clientResistance) - card.damage)
      ensures moves == old(moves) - card.cost
      ensures accumulatedCashCost == old(accumulatedCashCost) + CashPart(card)
      ensures accumulatedSanityCost == old(accumulatedSanityCost) + SanityPart(card)
      ensures accumulatedDebt == old(accumulatedDebt) + DebtPart(card)
      ensures log == [Played(card.id)] + old(log)
      ensures clientResistance == 0 ==>
                done == Some(Report(selectedTarget, true, card, old(accumulatedDebt),
                                    old(accumulatedSanityCost), old(accumulatedCashCost)))
      ensures clientResistance > 0 && moves == 0 ==>
                done == Some(Report(selectedTarget, false, card, old(accumulatedDebt),
                                    old(accumulatedSanityCost), old(accumulatedCashCost)))
      ensures clientResistance > 0 && moves > 0 ==> done.None?
    {
      var debtBefore, sanityBefore, cashBefore, movesBefore := accumulatedDebt, accumulatedSanityCost, accumulatedCashCost, moves;
      if card.costType == CashCost {
        accumulatedCashCost := accumulatedCashCost + card.costAmount;
      }
      if card.costType == SanityCost {
        accumulatedSanityCost := accumulatedSanityCost + card.costAmount;
      }
      if card.riskType == TechDebtRisk {
        accumulatedDebt := accumulatedDebt + card.riskAmount;
      }
      var newResistance := Max(0, clientResistance - card.damage);
      clientResistance := newResistance;
      moves := moves - card.cost;
      log := [Played(card.id)] + log;
      done := None;
      if newResistance == 0 {
        done := Some(Report(selectedTarget, true, card, debtBefore, sanityBefore, cashBefore));
      } else if movesBefore - card.cost <= 0 {
        done := Some(Report(selectedTarget, false, card, debtBefore, sanityBefore, cashBefore));
      }
    }
  }

  /** A set cash cost the founder cannot pay. */
  predicate CashShort(card: SalesCard, cash: real)
  {
    card.costType == CashCost && card.costAmount != 0 && cash < card.costAmount as real
  }

  /** A set sanity cost the founder cannot pay. */
  predicate SanityShort(card: SalesCard, sanity: int)
  {
    card.costType == SanityCost && card.costAmount != 0 && sanity < card.costAmount
  }

  /** A card is played rather than refused. */
  predicate Accepted(card: SalesCard, moves: int, cash: real, sanity: int)
  {
    moves >= card.cost && !CashShort(card, cash) && !SanityShort(card, sanity)
  }

  function CashPart(card: SalesCard): int { if card.costType == CashCost then card.costAmount else 0 }
  function SanityPart(card: SalesCard): int { if card.costType == SanityCost then card.costAmount else 0 }
  function DebtPart(card: SalesCard): int { if card.riskType == TechDebtRisk then card.riskAmount else 0 }

  /**
   * The report of a battle ended by `card`: the costs so far plus this
   * card's, and 10 more sanity lost on a defeat. The reported tech debt
   * adds the card's risk amount whatever its risk type.
   */
  function Report(target: Option<SalesTarget>, win: bool, card: SalesCard,
                  debt: int, sanityCost: int, cashCost: int): (c: Completion)
    requires WellFormedCard(card) && 0 <= debt && 0 <= sanityCost && 0 <= cashCost
    ensures c.target == target && c.win == win
    ensures c.techDebt >= debt + DebtPart(card) && c.cashCost == cashCost + CashPart(card)
    ensures c.sanityCost == sanityCost + SanityPart(card) + (if win then 0 else 10)
    ensures c.techDebt >= 0 && c.sanityCost >= 0 && c.cashCost >= 0
  {
    Completion(target, win, debt + card.riskAmount,
               sanityCost + SanityPart(card) + (if win then 0 else 10), cashCost + CashPart(card))
  }

  /** A defeat costs exactly 10 sanity more than a win ended by the same card. */
  lemma DefeatCostsTenSanity(target: Option<SalesTarget>, card: SalesCard, debt: int, sanityCost: int, cashCost: int)
    requires WellFormedCard(card) && 0 <= debt && 0 <= sanityCost && 0 <= cashCost
    ensures Report(target, false, card, debt, sanityCost, cashCost).sanityCost ==
              Report(target, true, card, debt, sanityCost, cashCost).sanityCost + 10
    ensures Report(target, false, card, debt, sanityCost, cashCost).cashCost ==
              Report(target, true, card, debt, sanityCost, cashCost).cashCost
  {
  }

  /**
   * No card of a deck carries a churn risk, so for every deck card the
   * reported tech debt and the accumulated one agree.
   */
  lemma DeckRiskIsTechDebt(c: SalesCard)
    requires c in [Enthusiasm, Kowtow, HardPush, Prototype, Wining, Overpromise, Facade, Reassurance, Discount]
    ensures DebtPart(c) == c.riskAmount
  {
  }
}
