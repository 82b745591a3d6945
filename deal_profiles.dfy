/**
 * The negotiation catalogue: a per-phase table of deal targets and the
 * ordered gate check that explains why a target cannot be pitched.
 */
module DealProfiles {
  import opened GameTypes

  datatype DealProfile = DealProfile(
    target: SalesTarget,
    resistance: int,
    moves: int,
    mrr: int,
    minPhase: Phase,
    minPmf: int,
    requiresSales: bool)

  /** Why a target is locked; `Open` is the empty message. */
  datatype GateMessage = Open | NotOffered | PhaseTooEarly | PmfBelow(minPmf: int) | SalesRequired

  /** The phase `current` has not yet reached `required`. */
  predicate IsPhaseLocked(current: Phase, required: Phase)
  {
    PhaseOrder(current) < PhaseOrder(required)
  }

  function PickByPhase(phase: Phase, seed: int, seriesA: int, seriesB: int): int
  {
    match phase
    case Seed => seed
    case SeriesA => seriesA
    case SeriesB => seriesB
  }

  function GetDealProfile(target: SalesTarget, phase: Phase): (r: Option<DealProfile>)
    ensures r.Some? ==> r.value.target == target
    ensures r.Some? ==> !IsPhaseLocked(phase, r.value.minPhase)
    ensures r.Some? ==> r.value.resistance > 0 && r.value.moves > 0
    ensures (target == Friends || target == Startup) ==> r.Some?
    ensures target == Enterprise ==> (r.None? <==> phase == Seed)
    ensures target == Whale ==> (r.None? <==> phase != SeriesB)
  {
    match target
    case Friends =>
      Some(DealProfile(target, PickByPhase(phase, 30, 40, 50), 3,
                       PickByPhase(phase, 10000, 20000, 40000), Seed, 0, false))
    case Startup =>
      Some(DealProfile(target, PickByPhase(phase, 60, 70, 80), 3,
                       PickByPhase(phase, 50000, 100000, 150000), Seed, 25, false))
    case Enterprise =>
      if IsPhaseLocked(phase, SeriesA) then None
      else Some(DealProfile(target, PickByPhase(phase, 200, 140, 120), 4,
                            PickByPhase(phase, 0, 350000, 700000), SeriesA, 50, true))
    case Whale =>
      if IsPhaseLocked(phase, SeriesB) then None
      else Some(DealProfile(target, 220, 5, 2500000, SeriesB, 70, true))
  }

  /**
   * The first failing gate wins: offered, phase, PMF, sales headcount.
   * The phase gate never fires, because every offered profile already
   * satisfies its own minimum phase; so the message is empty exactly when
   * the profile exists, PMF reaches its minimum and the sales requirement
   * is met.
   */
  function GetDealGateMessage(target: SalesTarget, phase: Phase, pmfScore: int, hasSales: bool): (r: GateMessage)
    ensures r != PhaseTooEarly
    ensures GetDealProfile(target, phase).None? <==> r == NotOffered
    ensures r == Open <==>
      var p := GetDealProfile(target, phase);
      p.Some? && pmfScore >= p.value.minPmf && (!p.value.requiresSales || hasSales)
    ensures r.PmfBelow? <==>
      var p := GetDealProfile(target, phase);
      p.Some? && pmfScore < p.value.minPmf
    ensures r.PmfBelow? ==> r.minPmf == GetDealProfile(target, phase).value.minPmf
  {
    var profile := GetDealProfile(target, phase);
    if profile.None? then NotOffered
    else if PhaseOrder(phase) < PhaseOrder(profile.value.minPhase) then PhaseTooEarly
    else if pmfScore < profile.value.minPmf then PmfBelow(profile.value.minPmf)
    else if profile.value.requiresSales && !hasSales then SalesRequired
    else Open
  }

  lemma PhaseLockedIsOrder(current: Phase, required: Phase)
    ensures IsPhaseLocked(current, required) <==>
      (current == Seed && required != Seed) || (current == SeriesA && required == SeriesB)
  {
  }

  /** The sample rows of the table: WHALE in SERIES_B, FRIENDS in every phase. */
  lemma TableRows()
    ensures GetDealProfile(Whale, SeriesB) == Some(DealProfile(Whale, 220, 5, 2500000, SeriesB, 70, true))
    ensures GetDealProfile(Whale, Seed).None?
    ensures GetDealProfile(Friends, Seed).value.resistance == 30
    ensures GetDealProfile(Friends, SeriesA).value.resistance == 40
    ensures GetDealProfile(Friends, SeriesB).value.resistance == 50
  {
  }
}
