/**
 * Narrative triggers: an ordered, first-match chain of conditions on the
 * state, each raising one event whose choices carry a partial-state delta
 * and, for the mentor choice, a change to the hidden karma scores.
 */
module Scenario {
  import opened GameTypes

  /** A partial state: the fields a choice's effect sets; None leaves a field as it is. */
  datatype Delta = Delta(
    cash: Option<real>,
    techDebt: Option<int>,
    sanity: Option<int>,
    pmfScore: Option<int>,
    employees: Option<seq<Employee>>,
    investorType: Option<InvestorType>,
    phase: Option<Phase>,
    marketingBudget: Option<int>)

  const NoChange: Delta := Delta(None, None, None, None, None, None, None, None)

  const SideGigEvent: NarrativeEvent := NarrativeEvent(TutSideGig, SeverityNormal, [TutGigYes, TutGigNo])
  const RecruitEvent: NarrativeEvent := NarrativeEvent(TutRecruit, SeverityNormal, [TutHireYes, TutHireNo])
  const MentorEvent: NarrativeEvent :=
    NarrativeEvent(MentorChoice, SeverityCritical, [MentorBlitz, MentorProduct, MentorFamily])
  const SeriesBEvent: NarrativeEvent := NarrativeEvent(SeriesBRound, SeverityCritical, [SeriesBGo])

  const SeriesBMrrThreshold: real := 5000000.0

  /** The engineer the recruiting tutorial offers. */
  const StarEngineer: Employee :=
    Employee("star_eng", "Star Engineer", Engineer, 800000, false, None, Innovation)

  /**
   * The event raised for a state, if any: week 3 and week 6 of the seed
   * tutorial, the week-8 mentor choice while no mentor is set, and the
   * Series B round once a Series A company reaches 5,000,000 MRR; the first
   * matching rule wins.
   */
  function CheckTriggers(s: GameState): (r: Option<NarrativeEvent>)
    ensures s.week == 3 && s.phase == Seed ==> r == Some(SideGigEvent)
    ensures s.week == 6 && s.phase == Seed ==> r == Some(RecruitEvent)
    ensures s.week == 8 && s.phase == Seed && s.mentorType == NoInvestor ==> r == Some(MentorEvent)
    ensures s.phase == SeriesA && s.kpi.mrr >= SeriesBMrrThreshold ==> r == Some(SeriesBEvent)
    ensures r.None? <==>
      !((s.phase == Seed && (s.week == 3 || s.week == 6 || (s.week == 8 && s.mentorType == NoInvestor))) ||
        (s.phase == SeriesA && s.kpi.mrr >= SeriesBMrrThreshold))
  {
    if s.week == 3 && s.phase == Seed then Some(SideGigEvent)
    else if s.week == 6 && s.phase == Seed then Some(RecruitEvent)
    else if s.week == 8 && s.phase == Seed && s.mentorType == NoInvestor then Some(MentorEvent)
    else if s.phase == SeriesA && s.kpi.mrr >= SeriesBMrrThreshold then Some(SeriesBEvent)
    else None
  }

  /** The event a choice belongs to. */
  function EventOf(c: ChoiceId): EventId
  {
    match c
    case TutGigYes => TutSideGig
    case TutGigNo => TutSideGig
    case TutHireYes => TutRecruit
    case TutHireNo => TutRecruit
    case MentorBlitz => MentorChoice
    case MentorProduct => MentorChoice
    case MentorFamily => MentorChoice
    case SeriesBGo => SeriesBRound
  }

  /** Every raised event offers exactly the choices that belong to it, and is critical iff it changes funding. */
  lemma TriggeredChoicesBelong(s: GameState)
    requires CheckTriggers(s).Some?
    ensures forall c :: c in CheckTriggers(s).value.choices <==> EventOf(c) == CheckTriggers(s).value.id
    ensures CheckTriggers(s).value.severity == SeverityCritical <==>
              CheckTriggers(s).value.id in {MentorChoice, SeriesBRound}
  {
  }

  /** Nothing fires once the company is in Series B. */
  lemma NoEventInSeriesB(s: GameState)
    requires s.phase == SeriesB
    ensures CheckTriggers(s).None?
  {
  }

  /** The partial state a choice's effect produces from `s`. */
  function ChoiceEffect(c: ChoiceId, s: GameState): (d: Delta)
    ensures d.phase.Some? ==> d.phase.value != Seed
    ensures d.phase == Some(SeriesA) <==> EventOf(c) == MentorChoice
    ensures d.phase == Some(SeriesB) <==> c == SeriesBGo
    ensures d.employees.Some? <==> c == TutHireYes
    ensures d.employees.Some? ==> d.employees.value == s.employees + [StarEngineer]
  {
    match c
    case TutGigYes =>
      NoChange.(cash := Some(s.cash + 600000.0), techDebt := Some(s.techDebt + 20), sanity := Some(s.sanity - 5))
    case TutGigNo =>
      NoChange.(sanity := Some(s.sanity + 5), pmfScore := Some(s.pmfScore + 2))
    case TutHireYes =>
      NoChange.(employees := Some(s.employees + [StarEngineer]), cash := Some(s.cash - 500000.0),
                pmfScore := Some(s.pmfScore + 20))
    case TutHireNo =>
      NoChange.(sanity := Some(s.sanity - 5))
    case MentorBlitz =>
      NoChange.(investorType := Some(Blitz), phase := Some(SeriesA), cash := Some(s.cash + 300000000.0),
                marketingBudget := Some(s.marketingBudget + 1000000), sanity := Some(s.sanity - 10))
    case MentorProduct =>
      NoChange.(investorType := Some(Product), phase := Some(SeriesA), cash := Some(s.cash + 200000000.0),
                techDebt := Some(0), pmfScore := Some(s.pmfScore + 10))
    case MentorFamily =>
      NoChange.(investorType := Some(Family), phase := Some(SeriesA), cash := Some(s.cash + 100000000.0),
                sanity := Some(100))
    case SeriesBGo =>
      NoChange.(phase := Some(SeriesB), cash := Some(s.cash + 500000000.0), sanity := Some(s.sanity - 20))
  }

  /** The karma change a choice carries; only the mentor choices carry one. */
  function ChoiceKarma(c: ChoiceId): (k: Philosophy)
    ensures EventOf(c) != MentorChoice ==> k == Philosophy(0, 0, 0, 0)
    ensures k.dishonesty == 0
  {
    match c
    case MentorBlitz => Philosophy(10, 0, 0, 5)
    case MentorProduct => Philosophy(-5, 15, 0, 0)
    case MentorFamily => Philosophy(-10, -5, 0, 0)
    case _ => Philosophy(0, 0, 0, 0)
  }

  /** Object spread of a partial state over `s`: each set field replaces the old value. */
  function ApplyDelta(s: GameState, d: Delta): (r: GameState)
    ensures d == NoChange ==> r == s
    ensures d.cash.Some? ==> r.cash == d.cash.value
    ensures d.cash.None? ==> r.cash == s.cash
    ensures d.phase.Some? ==> r.phase == d.phase.value
    ensures d.phase.None? ==> r.phase == s.phase
    ensures d.techDebt.Some? ==> r.techDebt == d.techDebt.value
    ensures d.techDebt.None? ==> r.techDebt == s.techDebt
    ensures d.sanity.Some? ==> r.sanity == d.sanity.value
    ensures d.sanity.None? ==> r.sanity == s.sanity
    ensures d.pmfScore.Some? ==> r.pmfScore == d.pmfScore.value
    ensures d.pmfScore.None? ==> r.pmfScore == s.pmfScore
    ensures d.employees.Some? ==> r.employees == d.employees.value
    ensures d.employees.None? ==> r.employees == s.employees
    ensures d.investorType.Some? ==> r.investorType == d.investorType.value
    ensures d.investorType.None? ==> r.investorType == s.investorType
    ensures d.marketingBudget.Some? ==> r.marketingBudget == d.marketingBudget.value
    ensures d.marketingBudget.None? ==> r.marketingBudget == s.marketingBudget
    ensures r == s.(cash := r.cash, techDebt := r.techDebt, sanity := r.sanity, pmfScore := r.pmfScore,
                    employees := r.employees, investorType := r.investorType, phase := r.phase,
                    marketingBudget := r.marketingBudget)
  {
    s.(cash := if d.cash.Some? then d.cash.value else s.cash,
       techDebt := if d.techDebt.Some? then d.techDebt.value else s.techDebt,
       sanity := if d.sanity.Some? then d.sanity.value else s.sanity,
       pmfScore := if d.pmfScore.Some? then d.pmfScore.value else s.pmfScore,
       employees := if d.employees.Some? then d.employees.value else s.employees,
       investorType := if d.investorType.Some? then d.investorType.value else s.investorType,
       phase := if d.phase.Some? then d.phase.value else s.phase,
       marketingBudget := if d.marketingBudget.Some? then d.marketingBudget.value else s.marketingBudget)
  }

  /** A choice of an event raised for `s`, applied to `s`, never moves the phase backward. */
  lemma ChoicesNeverRegressPhase(s: GameState, c: ChoiceId)
    requires CheckTriggers(s).Some? && c in CheckTriggers(s).value.choices
    ensures PhaseOrder(ApplyDelta(s, ChoiceEffect(c, s)).phase) >= PhaseOrder(s.phase)
  {
  }

  /**
   * Each mentor choice enters Series A with its investor type and its
   * funding: 300M for BLITZ, 200M for PRODUCT, 100M for FAMILY.
   */
  lemma MentorChoiceFunding(s: GameState, c: ChoiceId)
    requires EventOf(c) == MentorChoice
    ensures ApplyDelta(s, ChoiceEffect(c, s)).phase == SeriesA
    ensures ApplyDelta(s, ChoiceEffect(c, s)).investorType ==
              (if c == MentorBlitz then Blitz else if c == MentorProduct then Product else Family)
    ensures ApplyDelta(s, ChoiceEffect(c, s)).cash ==
              s.cash + (if c == MentorBlitz then 300000000.0 else if c == MentorProduct then 200000000.0
                        else 100000000.0)
  {
  }

  /** Going for Series B enters Series B with 500M more cash and 20 less sanity. */
  lemma SeriesBGoEffect(s: GameState)
    ensures ApplyDelta(s, ChoiceEffect(SeriesBGo, s)) ==
              s.(phase := SeriesB, cash := s.cash + 500000000.0, sanity := s.sanity - 20)
  {
  }
}
