/**
 * The ending screen's verdict: four traits read off the final state pick
 * one archetype through an ordered chain, the first match winning.
 */
module Ending {
  import opened GameTypes

  datatype Archetype = TyrantKing | Fraud | Dreamer | Saint | Unknown

  /** Rich: more than 50,000,000 in cash or more than 5,000,000 MRR. */
  predicate IsRich(s: GameState) { s.cash > 50000000.0 || s.kpi.mrr > 5000000.0 }
  predicate IsRuthless(s: GameState) { s.philosophy.ruthlessness > 30 }
  predicate IsCraftsman(s: GameState) { s.philosophy.craftsmanship > 30 }
  predicate IsDishonest(s: GameState) { s.philosophy.dishonesty > 30 }
  predicate IsLonely(s: GameState) { s.philosophy.loneliness > 40 }

  /**
   * Rich and ruthless is the Tyrant King; rich and dishonest the Fraud;
   * poor and a craftsman the Dreamer; poor, kind and not lonely the
   * Saint; everyone else stays unknown.
   */
  function Classify(s: GameState): (a: Archetype)
    ensures a == TyrantKing <==> IsRich(s) && IsRuthless(s)
    ensures a == Fraud <==> IsRich(s) && IsDishonest(s) && !IsRuthless(s)
    ensures a == Dreamer <==> !IsRich(s) && IsCraftsman(s)
    ensures a == Saint <==> !IsRich(s) && !IsCraftsman(s) && !IsRuthless(s) && !IsLonely(s)
    ensures IsRich(s) ==> a in {TyrantKing, Fraud, Unknown}
    ensures !IsRich(s) ==> a in {Dreamer, Saint, Unknown}
  {
    if IsRich(s) && IsRuthless(s) then TyrantKing
    else if IsRich(s) && IsDishonest(s) then Fraud
    else if !IsRich(s) && IsCraftsman(s) then Dreamer
    else if !IsRich(s) && !IsRuthless(s) && !IsLonely(s) then Saint
    else Unknown
  }

  /**
   * The unknown founder is exactly one who matched no rule: rich with
   * neither ruthlessness nor dishonesty, or poor, no craftsman, and
   * ruthless or lonely.
   */
  lemma UnknownIsTheRest(s: GameState)
    ensures Classify(s) == Unknown <==>
              (IsRich(s) && !IsRuthless(s) && !IsDishonest(s)) ||
              (!IsRich(s) && !IsCraftsman(s) && (IsRuthless(s) || IsLonely(s)))
  {
  }

  /** The verdict reads only wealth and the four karma scores. */
  lemma ClassifyReadsOnlyTraits(s: GameState, t: GameState)
    requires IsRich(s) == IsRich(t) && s.philosophy == t.philosophy
    ensures Classify(s) == Classify(t)
  {
  }
}
