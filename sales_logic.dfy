/**
 * Deal success probability: a linear score divided by the opponent's
 * resistance, clamped so that no deal is ever certain to win or to lose.
 */
module SalesLogic {
  import opened GameTypes

  const SalesCoefficient: real := 8.0
  const ProductQualityCoefficient: real := 0.4
  const MinChance: real := 0.05
  const MaxChance: real := 0.95

  /** Clamp a probability into [0.05, 0.95]. */
  function ClampChance(value: real): (r: real)
    ensures MinChance <= r <= MaxChance
    ensures MinChance <= value <= MaxChance ==> r == value
    ensures value < MinChance ==> r == MinChance
    ensures value > MaxChance ==> r == MaxChance
  {
    ClampR(value, MinChance, MaxChance)
  }

  /** The unclamped score that the chance is derived from. */
  function Numerator(pmf: real, salesCount: real, productQuality: real, cardEffects: real): real
  {
    pmf + salesCount * SalesCoefficient + productQuality * ProductQualityCoefficient + cardEffects
  }

  function CalculateDealSuccess(pmf: real, salesCount: real, productQuality: real, cardEffects: real, resistance: real): (r: real)
    ensures MinChance <= r <= MaxChance
    ensures resistance <= 0.0 ==> r == MaxChance
    ensures resistance > 0.0 ==>
      var raw := Numerator(pmf, salesCount, productQuality, cardEffects) / resistance;
      && (MinChance <= raw <= MaxChance ==> r == raw)
      && (raw < MinChance ==> r == MinChance)
      && (raw > MaxChance ==> r == MaxChance)
  {
    if resistance <= 0.0 then MaxChance
    else ClampChance(Numerator(pmf, salesCount, productQuality, cardEffects) / resistance)
  }

  /**
   * For a fixed positive resistance the chance never decreases when any of
   * PMF, sales headcount, product quality or card effects grows.
   */
  lemma DealSuccessMonotone(
    pmf: real, salesCount: real, quality: real, cards: real,
    pmf': real, salesCount': real, quality': real, cards': real,
    resistance: real)
    requires resistance > 0.0
    requires pmf <= pmf' && salesCount <= salesCount' && quality <= quality' && cards <= cards'
    ensures CalculateDealSuccess(pmf, salesCount, quality, cards, resistance)
         <= CalculateDealSuccess(pmf', salesCount', quality', cards', resistance)
  {
    var n := Numerator(pmf, salesCount, quality, cards);
    var n' := Numerator(pmf', salesCount', quality', cards');
    assert n <= n';
    DivideMonotone(n, n', resistance);
  }
}
