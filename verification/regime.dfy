/** The market-regime classifier: an annualised growth rate is placed in one
    of six categories by a chain of five cut points, tested in order. */
module Regime {

  datatype Category =
    | ExtremeBearish
    | Bearish
    | SidewaysBearish
    | Neutral
    | Bullish
    | ExtremeBullish

  /** The five cut points, in the order the chain tests them. */
  datatype Thresholds = Thresholds(
    extremeBearish: real,
    bearish: real,
    sidewaysBearish: real,
    neutral: real,
    bullish: real)

  /** The cut points used when the form leaves them empty. */
  const DefaultThresholds := Thresholds(0.0, 0.06, 0.10, 0.12, 0.15)

  /** Position of a category in the chain (and in the bearish-to-bullish order). */
  function Rank(c: Category): (k: nat)
    ensures k < 6
  {
    match c
    case ExtremeBearish => 0
    case Bearish => 1
    case SidewaysBearish => 2
    case Neutral => 3
    case Bullish => 4
    case ExtremeBullish => 5
  }

  /** The left-closed, right-open interval that names category `c`:
      below the first cut point, between two neighbouring cut points,
      or at or above the last one. */
  predicate InBucket(rate: real, c: Category, t: Thresholds) {
    match c
    case ExtremeBearish => rate < t.extremeBearish
    case Bearish => t.extremeBearish <= rate < t.bearish
    case SidewaysBearish => t.bearish <= rate < t.sidewaysBearish
    case Neutral => t.sidewaysBearish <= rate < t.neutral
    case Bullish => t.neutral <= rate < t.bullish
    case ExtremeBullish => t.bullish <= rate
  }

  predicate Ascending(t: Thresholds) {
    t.extremeBearish <= t.bearish <= t.sidewaysBearish <= t.neutral <= t.bullish
  }

  predicate StrictlyAscending(t: Thresholds) {
    t.extremeBearish < t.bearish < t.sidewaysBearish < t.neutral < t.bullish
  }

  /** The lower cut point of every category but the first. */
  function LowerCut(c: Category, t: Thresholds): real
    requires c != ExtremeBearish
  {
    match c
    case Bearish => t.extremeBearish
    case SidewaysBearish => t.bearish
    case Neutral => t.sidewaysBearish
    case Bullish => t.neutral
    case ExtremeBullish => t.bullish
  }

  /** The category of a rate: the first category, in chain order, whose
      interval holds the rate; Extreme Bullish when no earlier one does,
      whatever the order of the cut points. */
  function Categorize(rate: real, t: Thresholds): (c: Category)
    ensures c != ExtremeBullish ==> InBucket(rate, c, t)
    ensures forall d :: Rank(d) < Rank(c) ==> !InBucket(rate, d, t)
  {
    if rate < t.extremeBearish then ExtremeBearish
    else if t.extremeBearish <= rate < t.bearish then Bearish
    else if t.bearish <= rate < t.sidewaysBearish then SidewaysBearish
    else if t.sidewaysBearish <= rate < t.neutral then Neutral
    else if t.neutral <= rate < t.bullish then Bullish
    else ExtremeBullish
  }

  /** With cut points in ascending order the six intervals partition the
      reals: a rate gets category `c` exactly when it lies in `c`'s interval. */
  lemma CategorizeMatchesInterval(rate: real, t: Thresholds, c: Category)
    requires Ascending(t)
    ensures Categorize(rate, t) == c <==> InBucket(rate, c, t)
  {
  }

  /** Intervals are closed on the left: a rate equal to a cut point goes to
      the category above that cut point. */
  lemma CutPointGoesUp(t: Thresholds, c: Category)
    requires StrictlyAscending(t)
    requires c != ExtremeBearish
    ensures Categorize(LowerCut(c, t), t) == c
  {
    CategorizeMatchesInterval(LowerCut(c, t), t, c);
  }

  /** Out-of-order cut points: the chain order decides. The rate 0.07 lies
      in the Sideways Bearish interval [0.05, 0.20), but it is also below the
      first cut point 0.10, and that test comes first. */
  lemma FirstTestWins()
    ensures InBucket(0.07, SidewaysBearish, Thresholds(0.10, 0.05, 0.20, 0.30, 0.40))
    ensures Categorize(0.07, Thresholds(0.10, 0.05, 0.20, 0.30, 0.40)) == ExtremeBearish
  {
  }

  /** With the default cut points a flat price (rate 0) is Bearish and a
      doubling over one year (rate 1) is Extreme Bullish. */
  lemma DefaultExamples()
    ensures Categorize(0.0, DefaultThresholds) == Bearish
    ensures Categorize(1.0, DefaultThresholds) == ExtremeBullish
  {
  }
}
