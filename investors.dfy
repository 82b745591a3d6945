/**
 * Investor reputation: each investor archetype favours some major-event
 * types and dislikes others; a resolved major event moves its reputation by
 * a fixed delta, clamped to [-100, 100].
 */
module Investors {
  import opened GameTypes

  const ReputationMax: int := 100
  const ReputationMin: int := -100
  const FavorBonus: int := 6
  const NeutralBonus: int := 2
  const DislikePenalty: int := 4

  datatype InvestorPreference = InvestorPreference(favored: seq<MajorEventType>, disliked: seq<MajorEventType>)

  function InvestorPreferences(t: InvestorType): InvestorPreference
  {
    match t
    case NoInvestor => InvestorPreference([], [])
    case Blitz => InvestorPreference([BigDeal], [RandomBuzz])
    case Product => InvestorPreference([Brand], [BigDeal])
    case Family => InvestorPreference([Brand], [RandomBuzz])
  }

  function ClampReputation(value: int): (r: int)
    ensures ReputationMin <= r <= ReputationMax
    ensures ReputationMin <= value <= ReputationMax ==> r == value
    ensures value > ReputationMax ==> r == ReputationMax
    ensures value < ReputationMin ==> r == ReputationMin
  {
    Clamp(value, ReputationMin, ReputationMax)
  }

  /** The delta before clamping. */
  function ReputationDelta(eventType: MajorEventType, success: bool, t: InvestorType): (d: int)
    ensures var pref := InvestorPreferences(t);
      var favored := eventType in pref.favored;
      var disliked := eventType in pref.disliked;
      && (success && favored ==> d == FavorBonus)
      && (success && !favored && !disliked ==> d == NeutralBonus)
      && (success && disliked ==> d == 0)
      && (!success && favored ==> d == -FavorBonus)
      && (!success && disliked ==> d == -DislikePenalty)
      && (!success && !favored && !disliked ==> d == -NeutralBonus)
  {
    var pref := InvestorPreferences(t);
    var isFavored := eventType in pref.favored;
    var isDisliked := eventType in pref.disliked;
    if success then
      (if isFavored then FavorBonus else if !isDisliked then NeutralBonus else 0)
    else
      (if isFavored then -FavorBonus else if isDisliked then -DislikePenalty else -NeutralBonus)
  }

  function UpdateInvestorReputation(eventType: MajorEventType, success: bool, investor: InvestorState): (r: InvestorState)
    ensures r.kind == investor.kind
    ensures ReputationMin <= r.reputation <= ReputationMax
    ensures r.reputation == ClampReputation(investor.reputation + ReputationDelta(eventType, success, investor.kind))
    ensures success ==> r.reputation >= Min(investor.reputation, ReputationMax)
    ensures !success ==> r.reputation <= Max(investor.reputation, ReputationMin)
  {
    investor.(reputation := ClampReputation(investor.reputation + ReputationDelta(eventType, success, investor.kind)))
  }

  /** No archetype both favours and dislikes the same event type. */
  lemma PreferencesDisjoint(t: InvestorType, e: MajorEventType)
    ensures !(e in InvestorPreferences(t).favored && e in InvestorPreferences(t).disliked)
  {
  }

  /** An investor without an archetype moves by +2 on success and -2 on failure (before clamping). */
  lemma NoInvestorIsNeutral(e: MajorEventType, success: bool)
    ensures ReputationDelta(e, success, NoInvestor) == (if success then NeutralBonus else -NeutralBonus)
  {
  }

  /** A BLITZ investor at 0 moves to +6 on a BIG_DEAL success and to -6 on a failure. */
  lemma BlitzBigDealSwing()
    ensures UpdateInvestorReputation(BigDeal, true, InvestorState(Blitz, 0)).reputation == 6
    ensures UpdateInvestorReputation(BigDeal, false, InvestorState(Blitz, 0)).reputation == -6
  {
  }
}
