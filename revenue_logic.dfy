/**
 * The monthly MRR update: engineers and sales grow MRR, marketers add a
 * quality-scaled referral bonus, and a shortage of CS staff (one per
 * 80,000 of MRR) costs up to 1.5% of MRR.
 */
module RevenueLogic {
  import opened GameTypes
  import ProductLogic

  const EngineerGrowthPerDev: real := 1000.0
  const SalesGrowthPerSales: real := 5000.0
  const ReferralBasePerMarketing: real := 50.0
  const ChurnBaseRate: real := 0.015
  const MrrPerCs: real := 80000.0

  /** The MRR lost to a CS shortage, given MRR and the CS headcount. */
  function CsPenalty(mrr: real, numCs: nat): (p: real)
    ensures mrr <= 0.0 ==> p == 0.0
    ensures numCs as real >= mrr / MrrPerCs ==> p == 0.0
    ensures 0.0 <= p
    ensures mrr > 0.0 ==> p <= ChurnBaseRate * mrr
    ensures mrr > 0.0 && (numCs as real) < mrr / MrrPerCs ==> p > 0.0
  {
    var requiredCs := mrr / MrrPerCs;
    if requiredCs <= 0.0 || numCs as real >= requiredCs then 0.0
    else
      var shortage := ClampR((requiredCs - numCs as real) / requiredCs, 0.0, 1.0);
      assert shortage > 0.0;
      ShareBound(mrr, shortage);
      mrr * ChurnBaseRate * shortage
  }

  lemma ShareBound(mrr: real, shortage: real)
    requires mrr > 0.0 && 0.0 <= shortage <= 1.0
    ensures 0.0 <= mrr * ChurnBaseRate * shortage <= ChurnBaseRate * mrr
    ensures shortage > 0.0 ==> mrr * ChurnBaseRate * shortage > 0.0
  {
    assert mrr * ChurnBaseRate * (1.0 - shortage) >= 0.0;
  }

  /** `calculateCSPenalty` on the state. */
  function CalculateCsPenalty(s: GameState): (p: real)
    ensures 0.0 <= p
    ensures s.kpi.mrr > 0.0 ==> p <= ChurnBaseRate * s.kpi.mrr
    ensures CountRole(s.employees, CS) as real >= s.kpi.mrr / MrrPerCs ==> p == 0.0
    ensures s.kpi.mrr <= 0.0 ==> p == 0.0
    ensures s.kpi.mrr > 0.0 && (CountRole(s.employees, CS) as real) < s.kpi.mrr / MrrPerCs ==> p > 0.0
  {
    CsPenalty(s.kpi.mrr, CountRole(s.employees, CS))
  }

  /** Hiring more CS staff never increases the penalty. */
  lemma CsPenaltyAntitone(mrr: real, n: nat, n': nat)
    requires n <= n'
    ensures CsPenalty(mrr, n') <= CsPenalty(mrr, n)
  {
    var req := mrr / MrrPerCs;
    if req > 0.0 && (n' as real) < req {
      var a := (req - n as real) / req;
      var b := (req - n' as real) / req;
      assert b <= a by {
        assert req - n' as real <= req - n as real;
        DivideMonotone(req - n' as real, req - n as real, req);
      }
      var sa := ClampR(a, 0.0, 1.0);
      var sb := ClampR(b, 0.0, 1.0);
      assert sb <= sa;
      assert mrr * ChurnBaseRate * sb <= mrr * ChurnBaseRate * sa by {
        assert mrr * ChurnBaseRate * (sa - sb) >= 0.0;
      }
    }
  }

  /** `k * n` grows with `n` when `k` is non-negative. */
  lemma ScaleMonotone(k: real, n: nat, n': nat)
    requires k >= 0.0 && n <= n'
    ensures k * n as real <= k * n' as real
  {
    assert k * n' as real - k * n as real == k * (n' - n) as real;
  }

  lemma ScaleSign(k: real, n: nat)
    ensures k >= 0.0 ==> k * n as real >= 0.0
  {
    if k >= 0.0 {
      ScaleMonotone(k, 0, n);
    }
  }

  /** The growth `engineers` engineers bring at product quality `quality`. */
  function EngineerGrowth(engineers: nat, quality: int): (g: real)
    ensures quality >= 0 ==> g >= 0.0
  {
    ScaleSign(EngineerGrowthPerDev * (quality as real / 100.0), engineers);
    EngineerGrowthPerDev * (quality as real / 100.0) * engineers as real
  }

  /** The referral bonus of `marketers` marketers at product quality `quality`. */
  function ReferralBonus(marketers: nat, quality: int): (b: real)
    ensures marketers == 0 ==> b == 0.0
    ensures quality >= 0 ==> b >= 0.0
  {
    ScaleSign(ReferralBasePerMarketing * (quality as real / 100.0), marketers);
    ReferralBasePerMarketing * (quality as real / 100.0) * marketers as real
  }

  /** `calculateMarketingReferralBonus` on the state, with quality defaulted from tech debt. */
  function CalculateMarketingReferralBonus(s: GameState): (b: real)
    ensures CountRole(s.employees, Marketer) == 0 ==> b == 0.0
    ensures ProductLogic.EffectiveQuality(s) >= 0 ==> b >= 0.0
  {
    ReferralBonus(CountRole(s.employees, Marketer), ProductLogic.EffectiveQuality(s))
  }

  /** The unclamped new MRR from the current MRR, quality and headcounts. */
  function MrrFormula(mrr: real, quality: int, engineers: nat, sales: nat, marketers: nat, cs: nat): real
  {
    mrr + EngineerGrowth(engineers, quality) + SalesGrowthPerSales * sales as real
      + ReferralBonus(marketers, quality) - CsPenalty(mrr, cs)
  }

  /** The unclamped new MRR of a state. */
  function MrrTarget(s: GameState): real
  {
    MrrFormula(s.kpi.mrr, ProductLogic.EffectiveQuality(s),
               CountRole(s.employees, Engineer), CountRole(s.employees, Sales),
               CountRole(s.employees, Marketer), CountRole(s.employees, CS))
  }

  /**
   * Record the effective quality and move MRR to its new value, floored at
   * zero; nothing else changes.
   */
  function ApplyMrrUpdate(s: GameState): (r: GameState)
    ensures r.kpi.mrr >= 0.0
    ensures r.kpi.mrr >= MrrTarget(s)
    ensures MrrTarget(s) >= 0.0 ==> r.kpi.mrr == MrrTarget(s)
    ensures MrrTarget(s) < 0.0 ==> r.kpi.mrr == 0.0
    ensures r.productQuality == Some(ProductLogic.EffectiveQuality(s))
    ensures r == s.(productQuality := r.productQuality, kpi := s.kpi.(mrr := r.kpi.mrr))
  {
    s.(productQuality := Some(ProductLogic.EffectiveQuality(s)),
       kpi := s.kpi.(mrr := MaxR(0.0, MrrTarget(s))))
  }

  /**
   * With non-negative quality, one update loses at most 1.5% of a positive
   * MRR, and loses nothing when the CS team covers the MRR.
   */
  lemma MrrUpdateBoundedLoss(s: GameState)
    requires ProductLogic.EffectiveQuality(s) >= 0
    ensures ApplyMrrUpdate(s).kpi.mrr >= s.kpi.mrr - ChurnBaseRate * MaxR(0.0, s.kpi.mrr)
    ensures CountRole(s.employees, CS) as real >= s.kpi.mrr / MrrPerCs ==>
              ApplyMrrUpdate(s).kpi.mrr >= s.kpi.mrr
  {
    assert SalesGrowthPerSales * CountRole(s.employees, Sales) as real >= 0.0;
  }

  /**
   * At non-negative quality, more engineers, sales, marketers or CS staff
   * never lower the new MRR.
   */
  lemma MrrFormulaMonotone(mrr: real, quality: int, e: nat, e': nat, sa: nat, sa': nat,
                           m: nat, m': nat, c: nat, c': nat)
    requires quality >= 0 && e <= e' && sa <= sa' && m <= m' && c <= c'
    ensures MrrFormula(mrr, quality, e, sa, m, c) <= MrrFormula(mrr, quality, e', sa', m', c')
  {
    var q := quality as real / 100.0;
    ScaleMonotone(EngineerGrowthPerDev * q, e, e');
    ScaleMonotone(SalesGrowthPerSales, sa, sa');
    ScaleMonotone(ReferralBasePerMarketing * q, m, m');
    CsPenaltyAntitone(mrr, c, c');
  }
}
