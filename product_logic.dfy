/**
 * Product maturity and pricing: the PMF score picks one of five contiguous
 * buckets, and the average unit price is a base price scaled by the
 * bucket's multiplier and by clamped quality, sales and CS factors.
 */
module ProductLogic {
  import opened GameTypes

  datatype PhaseMeta = PhaseMeta(id: ProductPhase, min: int, max: int, priceMultiplier: real)

  function ProductPhases(): seq<PhaseMeta>
  {
    [ PhaseMeta(Prototype, 0, 20, 0.65),
      PhaseMeta(Validation, 20, 40, 0.85),
      PhaseMeta(EarlyPmf, 40, 60, 1.1),
      PhaseMeta(PmfEstablished, 60, 80, 1.4),
      PhaseMeta(Scale, 80, 101, 1.9) ]
  }

  /** Rank of a bucket in the maturity order. */
  function PhaseRank(p: ProductPhase): nat
  {
    match p
    case Prototype => 0
    case Validation => 1
    case EarlyPmf => 2
    case PmfEstablished => 3
    case Scale => 4
  }

  predicate Contains(b: PhaseMeta, score: int) { b.min <= score < b.max }

  /** `Array.prototype.find`: the first bucket whose range contains `score`. */
  function FindBucket(table: seq<PhaseMeta>, score: int): (r: Option<PhaseMeta>)
    ensures r.Some? ==> r.value in table && Contains(r.value, score)
    ensures r.None? <==> forall i :: 0 <= i < |table| ==> !Contains(table[i], score)
    ensures r.Some? ==> exists i :: 0 <= i < |table| && table[i] == r.value &&
                                (forall j :: 0 <= j < i ==> !Contains(table[j], score))
  {
    if table == [] then None
    else if Contains(table[0], score) then Some(table[0])
    else
      var rest := FindBucket(table[1..], score);
      assert forall i :: 1 <= i < |table| ==> table[i] == table[1..][i - 1];
      rest
  }

  /** Clamp PMF to [0, 100] and take the first bucket that contains it. */
  function DetermineProductPhase(pmf: int): (r: PhaseMeta)
    ensures r in ProductPhases()
    ensures Contains(r, Clamp(pmf, 0, 100))
    ensures pmf < 20 ==> r.id == Prototype
    ensures 20 <= pmf < 40 ==> r.id == Validation
    ensures 40 <= pmf < 60 ==> r.id == EarlyPmf
    ensures 60 <= pmf < 80 ==> r.id == PmfEstablished
    ensures 80 <= pmf ==> r.id == Scale
  {
    var score := Clamp(pmf, 0, 100);
    var found := FindBucket(ProductPhases(), score);
    if found.Some? then found.value else ProductPhases()[|ProductPhases()| - 1]
  }

  /** The buckets are contiguous: every score in [0, 100] lies in exactly one of them. */
  lemma BucketsPartition(score: int)
    requires 0 <= score <= 100
    ensures exists i :: 0 <= i < |ProductPhases()| && Contains(ProductPhases()[i], score)
    ensures forall i, j ::
      (0 <= i < |ProductPhases()| && 0 <= j < |ProductPhases()| &&
       Contains(ProductPhases()[i], score) && Contains(ProductPhases()[j], score)) ==> i == j
  {
    var t := ProductPhases();
    var k := if score < 20 then 0 else if score < 40 then 1 else if score < 60 then 2 else if score < 80 then 3 else 4;
    assert Contains(t[k], score);
  }

  /** A higher PMF never yields an earlier bucket. */
  lemma ProductPhaseMonotone(pmf: int, pmf': int)
    requires pmf <= pmf'
    ensures PhaseRank(DetermineProductPhase(pmf).id) <= PhaseRank(DetermineProductPhase(pmf').id)
  {
  }

  /** Quality when none was recorded: 100 minus tech debt, floored at 0. */
  function EffectiveQuality(s: GameState): (q: int)
    ensures s.productQuality.None? ==> q == Max(0, 100 - s.techDebt) && q >= 0
    ensures s.productQuality.Some? ==> q == s.productQuality.value
  {
    if s.productQuality.Some? then s.productQuality.value else Max(0, 100 - s.techDebt)
  }

  function QualityFactor(quality: int): (f: real)
    ensures 0.6 <= f <= 1.5
  {
    ClampR(0.6 + quality as real / 100.0, 0.6, 1.5)
  }

  function SalesFactor(salesCount: nat): (f: real)
    ensures 1.0 <= f <= 1.35
  {
    ClampR(1.0 + salesCount as real * 0.06, 1.0, 1.35)
  }

  /** CS headcount needed at one CS per 80,000 of MRR; none when MRR is not positive. */
  function RequiredCs(mrr: real): (r: real)
    ensures mrr <= 0.0 ==> r == 0.0
    ensures r >= 0.0
  {
    if mrr > 0.0 then mrr / 80000.0 else 0.0
  }

  function ShortageRatio(requiredCs: real, csCount: nat): (r: real)
    ensures 0.0 <= r <= 1.0
    ensures requiredCs <= 0.0 ==> r == 0.0
  {
    if requiredCs > 0.0 then ClampR((requiredCs - csCount as real) / requiredCs, 0.0, 1.0) else 0.0
  }

  /** The CS discount: at most 25% off when every required CS seat is unfilled. */
  function CsFactor(shortage: real): (f: real)
    ensures 0.6 <= f <= 1.0
    ensures shortage == 0.0 ==> f == 1.0
    ensures 0.0 <= shortage <= 1.0 ==> f == 1.0 - 0.25 * shortage && 0.75 <= f
  {
    ClampR(1.0 - 0.25 * shortage, 0.6, 1.0)
  }

  const BasePrice: real := 50000.0

  /** Multiplying by a non-negative factor keeps the order. */
  lemma MulMonotone(a: real, a': real, b: real)
    requires a <= a' && 0.0 <= b
    ensures a * b <= a' * b && b * a <= b * a'
  {
    assert 0.0 <= (a' - a) * b;
    assert a' * b - a * b == (a' - a) * b;
  }

  lemma MulBounds(a: real, b: real, lo: real, hi: real, blo: real, bhi: real)
    requires 0.0 <= lo <= a <= hi && 0.0 <= blo <= b <= bhi
    ensures lo * blo <= a * b <= hi * bhi
  {
    MulMonotone(lo, a, blo);
    MulMonotone(blo, b, a);
    MulMonotone(a, hi, b);
    MulMonotone(b, bhi, hi);
  }

  /** The unrounded price from its four factors. */
  function UnitPrice(m: real, qf: real, sf: real, cf: real): (p: real)
    requires 0.65 <= m <= 1.9 && 0.6 <= qf <= 1.5 && 1.0 <= sf <= 1.35 && 0.75 <= cf <= 1.0
    ensures 14625.0 <= p <= 192375.0
  {
    MulBounds(m, qf, 0.65, 1.9, 0.6, 1.5);
    MulBounds(m * qf, sf, 0.39, 2.85, 1.0, 1.35);
    MulBounds(m * qf * sf, cf, 0.39, 3.8475, 0.75, 1.0);
    BasePrice * (m * qf * sf * cf)
  }

  lemma MultiplierRange(pmf: int)
    ensures 0.65 <= DetermineProductPhase(pmf).priceMultiplier <= 1.9
  {
    var t := ProductPhases();
    assert forall i :: 0 <= i < |t| ==> 0.65 <= t[i].priceMultiplier <= 1.9;
  }

  /** Rounding keeps a value between two integers between them. */
  lemma RoundBetween(x: real, lo: int, hi: int)
    requires lo as real <= x <= hi as real
    ensures lo <= Round(x) <= hi
  {
  }

  /**
   * The average unit price: always between 14,625 and 192,375; with no MRR
   * there is no CS shortage, so no discount applies.
   */
  function CalculateAverageUnitPrice(s: GameState): (price: int)
    ensures 14625 <= price <= 192375
    ensures s.kpi.mrr <= 0.0 ==>
      price == Round(UnitPrice(DetermineProductPhase(s.pmfScore).priceMultiplier,
                               QualityFactor(EffectiveQuality(s)),
                               SalesFactor(CountRole(s.employees, Sales)), 1.0))
  {
    MultiplierRange(s.pmfScore);
    var m := DetermineProductPhase(s.pmfScore).priceMultiplier;
    var qf := QualityFactor(EffectiveQuality(s));
    var sf := SalesFactor(CountRole(s.employees, Sales));
    var cf := CsFactor(ShortageRatio(RequiredCs(s.kpi.mrr), CountRole(s.employees, CS)));
    var p := UnitPrice(m, qf, sf, cf);
    RoundBetween(p, 14625, 192375);
    Round(p)
  }

  /**
   * Record quality (defaulted as above), the PMF bucket, the unit price and
   * the PMF change since `pmfBaseline`; nothing else changes.
   */
  function UpdateProductSnapshot(s: GameState, pmfBaseline: int): (r: GameState)
    ensures r.productQuality == Some(EffectiveQuality(s))
    ensures r.productPhase == Some(DetermineProductPhase(s.pmfScore).id)
    ensures r.lastPmfDelta == Some(s.pmfScore - pmfBaseline)
    ensures r.averageUnitPrice.Some? && 14625 <= r.averageUnitPrice.value <= 192375
    ensures r.averageUnitPrice == Some(CalculateAverageUnitPrice(s.(productQuality := Some(EffectiveQuality(s)))))
    ensures r.averageUnitPrice == Some(CalculateAverageUnitPrice(r))
    ensures r == s.(productQuality := r.productQuality, productPhase := r.productPhase,
                    averageUnitPrice := r.averageUnitPrice, lastPmfDelta := r.lastPmfDelta)
  {
    var productQuality := EffectiveQuality(s);
    var phaseMeta := DetermineProductPhase(s.pmfScore);
    var averageUnitPrice := CalculateAverageUnitPrice(s.(productQuality := Some(productQuality)));
    s.(productQuality := Some(productQuality), productPhase := Some(phaseMeta.id),
       averageUnitPrice := Some(averageUnitPrice), lastPmfDelta := Some(s.pmfScore - pmfBaseline))
  }
}
