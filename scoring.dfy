/**
 * The default composite score of a company: dividend growth and free-cash-flow
 * yield count for it, the payout ratio against it, each first normalised to
 * [0, 1], and the result clamped to [0, 1].
 */
module Scoring {
  import opened Wrappers
  import opened Company

  function Min(a: real, b: real): real { if a <= b then a else b }
  function Max(a: real, b: real): real { if a >= b then a else b }

  /** `min(max(x / scale, 0.0), 1.0)`. */
  function Normalise(x: real, scale: real): (r: real)
    requires scale > 0.0
    ensures 0.0 <= r <= 1.0
    ensures 0.0 <= x <= scale ==> r == x / scale
    ensures x <= 0.0 ==> r == 0.0
    ensures x >= scale ==> r == 1.0
  {
    DivideBounds(x, scale);
    Min(Max(x / scale, 0.0), 1.0)
  }

  lemma DivideBounds(x: real, scale: real)
    requires scale > 0.0
    ensures x <= scale <==> x / scale <= 1.0
    ensures x <= 0.0 <==> x / scale <= 0.0
  {
    var q := x / scale;
    assert q * scale == x;
    if q > 1.0 { assert q * scale > 1.0 * scale; }
    if q <= 1.0 { assert q * scale <= 1.0 * scale; }
    if q > 0.0 { assert q * scale > 0.0; }
    if q <= 0.0 { assert q * scale <= 0.0; }
  }

  const CagrScale: real := 20.0
  const FcfScale: real := 20.0
  const PayoutScale: real := 100.0

  function CagrNorm(c: CompanyData): real { Normalise(c.dividendCagr, CagrScale) }
  function FcfNorm(c: CompanyData): real { Normalise(c.fcfYield, FcfScale) }
  function PayoutNorm(c: CompanyData): real { Normalise(c.payout, PayoutScale) }

  /** `DefaultScoring.score`: `(cagr_norm + fcf_norm - payout_norm) / 3`, clamped to [0, 1]. */
  function DefaultScore(c: CompanyData): (s: real)
    ensures 0.0 <= s <= 1.0
  {
    var composite := (CagrNorm(c) + FcfNorm(c) - PayoutNorm(c)) / 3.0;
    Max(0.0, Min(composite, 1.0))
  }

  /** The two rewarded terms are at most 1 each and the payout term is never negative. */
  lemma DefaultScoreAtMostTwoThirds(c: CompanyData)
    ensures DefaultScore(c) <= 2.0 / 3.0
  {
  }

  /** The score is the clamped composite exactly: `max(0, (cagr + fcf - payout) / 3)`. */
  lemma DefaultScoreFormula(c: CompanyData)
    ensures var composite := (CagrNorm(c) + FcfNorm(c) - PayoutNorm(c)) / 3.0;
      DefaultScore(c) == if composite <= 0.0 then 0.0 else composite
  {
  }

  /** cagr 10, fcf 10 and payout 50 normalise to 0.5 each and score 1/6. */
  lemma DefaultScoreExample(c: CompanyData)
    requires c.dividendCagr == 10.0 && c.fcfYield == 10.0 && c.payout == 50.0
    ensures DefaultScore(c) == 1.0 / 6.0
  {
  }

  /** More growth, more free cash flow or a lower payout never lowers the score. */
  lemma DefaultScoreMonotone(a: CompanyData, b: CompanyData)
    requires a.dividendCagr <= b.dividendCagr && a.fcfYield <= b.fcfYield && a.payout >= b.payout
    ensures DefaultScore(a) <= DefaultScore(b)
  {
  }

  /** The score is 0 exactly when the payout term outweighs the two rewarded terms. */
  lemma DefaultScoreZeroIff(c: CompanyData)
    ensures DefaultScore(c) == 0.0 <==> PayoutNorm(c) >= CagrNorm(c) + FcfNorm(c)
  {
  }

  /** Only growth, free cash flow and payout matter: the dividend yield and the text fields do not. */
  lemma DefaultScoreDependsOnThreeFields(a: CompanyData, b: CompanyData)
    requires a.dividendCagr == b.dividendCagr && a.fcfYield == b.fcfYield && a.payout == b.payout
    ensures DefaultScore(a) == DefaultScore(b)
  {
  }

  /**
   * A scoring strategy: the default one, or one supplied by the caller, where
   * `None` stands for a strategy that raised.
   */
  datatype ScoringStrategy =
    | DefaultScoring
    | CustomScoring(score: CompanyData -> Option<real>)

  function Score(strategy: ScoringStrategy, c: CompanyData): (r: Option<real>)
    ensures strategy.DefaultScoring? ==> r == Some(DefaultScore(c))
  {
    match strategy
    case DefaultScoring => Some(DefaultScore(c))
    case CustomScoring(f) => f(c)
  }
}
