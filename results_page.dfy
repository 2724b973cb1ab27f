/**
 * The classifications on the results page (app/results/page.tsx): the
 * trend, percentile and risk bands chosen by chains of comparisons on the
 * fetched metrics, the sign of the peer deltas, and which screen the page
 * shows for its `user` parameter and the state of the metrics query.
 */
module ResultsPage {
  import opened Wrappers

  /**
   * A metric as the page reads it through `playerData?.metrics?.x`: absent
   * (`undefined`), `null`, or a number.
   */
  datatype Metric = Missing | Null | Number(x: real)

  /** JavaScript's numeric conversion before a comparison: `undefined` is NaN (None), `null` is 0. */
  function ToNumber(m: Metric): Option<real> {
    match m
    case Missing => None
    case Null => Some(0.0)
    case Number(x) => Some(x)
  }

  /** `m < c`: false when `m` converts to NaN. */
  predicate Lt(m: Metric, c: real) {
    ToNumber(m).Some? && ToNumber(m).value < c
  }

  /** `m > c`: false when `m` converts to NaN. */
  predicate Gt(m: Metric, c: real) {
    ToNumber(m).Some? && ToNumber(m).value > c
  }

  /** `m >= c`: false when `m` converts to NaN. */
  predicate Ge(m: Metric, c: real) {
    ToNumber(m).Some? && ToNumber(m).value >= c
  }

  // ------------------------------------------------------------------
  // Trends
  // ------------------------------------------------------------------

  datatype AcplTrend = SignificantImprovement | GradualImprovement | StableAcpl | Worsening

  /** The caption under the ACPL trend, by bands `< -50`, `< 0`, `< 50`. */
  function AcplTrendOf(trendAcpl: Metric): (t: AcplTrend)
    ensures t == SignificantImprovement <==> Lt(trendAcpl, -50.0)
    ensures t == GradualImprovement <==> !Lt(trendAcpl, -50.0) && Lt(trendAcpl, 0.0)
    ensures t == StableAcpl <==> !Lt(trendAcpl, 0.0) && Lt(trendAcpl, 50.0)
    ensures t == Worsening <==> !Lt(trendAcpl, 50.0)
  {
    if Lt(trendAcpl, -50.0) then SignificantImprovement
    else if Lt(trendAcpl, 0.0) then GradualImprovement
    else if Lt(trendAcpl, 50.0) then StableAcpl
    else Worsening
  }

  function AcplTrendCaption(t: AcplTrend): string {
    match t
    case SignificantImprovement => "Mejora significativa"
    case GradualImprovement => "Mejora gradual"
    case StableAcpl => "Estable"
    case Worsening => "Empeoramiento"
  }

  /** How good a trend caption is: 0 for significant improvement up to 3 for worsening. */
  function AcplTrendRank(t: AcplTrend): nat {
    match t
    case SignificantImprovement => 0
    case GradualImprovement => 1
    case StableAcpl => 2
    case Worsening => 3
  }

  /**
   * A larger ACPL trend never gets a better caption; a missing trend reads
   * as worsening, while a `null` one counts as 0 and reads as stable.
   */
  lemma AcplTrendMonotone(x: real, y: real)
    requires x <= y
    ensures AcplTrendRank(AcplTrendOf(Number(x))) <= AcplTrendRank(AcplTrendOf(Number(y)))
    ensures AcplTrendOf(Missing) == Worsening && AcplTrendOf(Null) == StableAcpl
  {
  }

  datatype MatchTrend = SignificantIncrease | GradualIncrease | StableMatch | Decrease

  /** The caption under the match-rate trend, by bands `> 0.05`, `> 0`, `> -0.05`. */
  function MatchTrendOf(trendMatch: Metric): (t: MatchTrend)
    ensures t == SignificantIncrease <==> Gt(trendMatch, 0.05)
    ensures t == GradualIncrease <==> !Gt(trendMatch, 0.05) && Gt(trendMatch, 0.0)
    ensures t == StableMatch <==> !Gt(trendMatch, 0.0) && Gt(trendMatch, -0.05)
    ensures t == Decrease <==> !Gt(trendMatch, -0.05)
  {
    if Gt(trendMatch, 0.05) then SignificantIncrease
    else if Gt(trendMatch, 0.0) then GradualIncrease
    else if Gt(trendMatch, -0.05) then StableMatch
    else Decrease
  }

  function MatchTrendCaption(t: MatchTrend): string {
    match t
    case SignificantIncrease => "Aumento significativo"
    case GradualIncrease => "Aumento gradual"
    case StableMatch => "Estable"
    case Decrease => "Disminución"
  }

  function MatchTrendRank(t: MatchTrend): nat {
    match t
    case SignificantIncrease => 3
    case GradualIncrease => 2
    case StableMatch => 1
    case Decrease => 0
  }

  /** A larger match-rate trend never gets a lower caption; a missing one reads as a decrease. */
  lemma MatchTrendMonotone(x: real, y: real)
    requires x <= y
    ensures MatchTrendRank(MatchTrendOf(Number(x))) <= MatchTrendRank(MatchTrendOf(Number(y)))
    ensures MatchTrendOf(Missing) == Decrease && MatchTrendOf(Null) == StableMatch
  {
  }

  datatype Verdict = Suspicious | Improving | NormalTrend

  /** The trend evaluation's label. */
  function TrendVerdict(trendAcpl: Metric, trendMatch: Metric): (v: Verdict)
    ensures v == Suspicious <==> Lt(trendAcpl, -100.0) && Gt(trendMatch, 0.02)
    ensures v == Improving <==> !(Lt(trendAcpl, -100.0) && Gt(trendMatch, 0.02)) && Lt(trendAcpl, -50.0)
    ensures v == NormalTrend <==> !Lt(trendAcpl, -50.0)
  {
    if Lt(trendAcpl, -100.0) && Gt(trendMatch, 0.02) then Suspicious
    else if Lt(trendAcpl, -50.0) then Improving
    else NormalTrend
  }

  function VerdictCaption(v: Verdict): string {
    match v
    case Suspicious => "⚠️ Sospechoso"
    case Improving => "📈 Mejorando"
    case NormalTrend => "✅ Normal"
  }

  datatype Colour = Red | Orange | Green

  /** The trend evaluation's colour, chosen by its own copy of the label's conditions. */
  function TrendColour(trendAcpl: Metric, trendMatch: Metric): (c: Colour)
    ensures c == Red <==> Lt(trendAcpl, -100.0) && Gt(trendMatch, 0.02)
    ensures c == Green <==> !Lt(trendAcpl, -50.0)
  {
    if Lt(trendAcpl, -100.0) && Gt(trendMatch, 0.02) then Red
    else if Lt(trendAcpl, -50.0) then Orange
    else Green
  }

  function VerdictColour(v: Verdict): Colour {
    match v
    case Suspicious => Red
    case Improving => Orange
    case NormalTrend => Green
  }

  /**
   * The colour and the label always agree, and a suspicious or improving
   * verdict always comes with the "significant improvement" ACPL caption.
   */
  lemma VerdictAgreesWithColour(trendAcpl: Metric, trendMatch: Metric)
    ensures TrendColour(trendAcpl, trendMatch) == VerdictColour(TrendVerdict(trendAcpl, trendMatch))
    ensures TrendVerdict(trendAcpl, trendMatch) != NormalTrend ==> AcplTrendOf(trendAcpl) == SignificantImprovement
    ensures TrendVerdict(trendAcpl, trendMatch) == Suspicious ==> MatchTrendOf(trendMatch) != Decrease
  {
  }

  // ------------------------------------------------------------------
  // Percentiles and the final verdict
  // ------------------------------------------------------------------

  /** The ACPL percentile's interpretation, by bands `>= 90`, `>= 75`, `>= 25`. */
  datatype AcplPercentileBand = ExceptionallyLowAcpl | AboveAverageAcpl | NormalAcpl | BelowAverageAcpl

  function AcplPercentileBandOf(p: Metric): (b: AcplPercentileBand)
    ensures b == ExceptionallyLowAcpl <==> Ge(p, 90.0)
    ensures b == AboveAverageAcpl <==> !Ge(p, 90.0) && Ge(p, 75.0)
    ensures b == NormalAcpl <==> !Ge(p, 75.0) && Ge(p, 25.0)
    ensures b == BelowAverageAcpl <==> !Ge(p, 25.0)
  {
    if Ge(p, 90.0) then ExceptionallyLowAcpl
    else if Ge(p, 75.0) then AboveAverageAcpl
    else if Ge(p, 25.0) then NormalAcpl
    else BelowAverageAcpl
  }

  /** The entropy percentile's interpretation, by bands `>= 75`, `>= 25`. */
  datatype EntropyBand = VeryDiverse | NormalDiversity | LimitedRepertoire

  function EntropyBandOf(p: Metric): (b: EntropyBand)
    ensures b == VeryDiverse <==> Ge(p, 75.0)
    ensures b == NormalDiversity <==> !Ge(p, 75.0) && Ge(p, 25.0)
    ensures b == LimitedRepertoire <==> !Ge(p, 25.0)
  {
    if Ge(p, 75.0) then VeryDiverse
    else if Ge(p, 25.0) then NormalDiversity
    else LimitedRepertoire
  }

  /** The conclusion's risk level, by bands `>= 75`, `>= 50`, `>= 25`. */
  datatype RiskLevel = VeryLow | Low | Moderate | High

  function RiskConclusion(riskScore: Metric): (r: RiskLevel)
    ensures r == High <==> Ge(riskScore, 75.0)
    ensures r == Moderate <==> !Ge(riskScore, 75.0) && Ge(riskScore, 50.0)
    ensures r == Low <==> !Ge(riskScore, 50.0) && Ge(riskScore, 25.0)
    ensures r == VeryLow <==> !Ge(riskScore, 25.0)
  {
    if Ge(riskScore, 75.0) then High
    else if Ge(riskScore, 50.0) then Moderate
    else if Ge(riskScore, 25.0) then Low
    else VeryLow
  }

  function RiskRank(r: RiskLevel): nat {
    match r
    case VeryLow => 0
    case Low => 1
    case Moderate => 2
    case High => 3
  }

  /** A higher score never gets a lower risk level, and a missing or null score gets the lowest. */
  lemma RiskConclusionMonotone(x: real, y: real)
    requires x <= y
    ensures RiskRank(RiskConclusion(Number(x))) <= RiskRank(RiskConclusion(Number(y)))
    ensures RiskConclusion(Missing) == VeryLow && RiskConclusion(Null) == VeryLow
  {
  }

  /** The two percentile interpretations never reorder two percentiles either. */
  lemma PercentileBandsMonotone(x: real, y: real)
    requires x <= y
    ensures AcplPercentileBandOf(Number(y)) == BelowAverageAcpl ==> AcplPercentileBandOf(Number(x)) == BelowAverageAcpl
    ensures AcplPercentileBandOf(Number(x)) == ExceptionallyLowAcpl ==> AcplPercentileBandOf(Number(y)) == ExceptionallyLowAcpl
    ensures EntropyBandOf(Number(y)) == LimitedRepertoire ==> EntropyBandOf(Number(x)) == LimitedRepertoire
    ensures EntropyBandOf(Number(x)) == VeryDiverse ==> EntropyBandOf(Number(y)) == VeryDiverse
  {
  }

  // ------------------------------------------------------------------
  // Peer deltas
  // ------------------------------------------------------------------

  /** How a peer delta is shown, apart from the formatted number: with a "+" or not, and its qualifier. */
  datatype DeltaDisplay = DeltaDisplay(plusSign: bool, qualifier: string)

  /**
   * A peer delta's sign and qualifier: "+" and `above` when the player is
   * above the peers, no sign and `atOrBelow` otherwise. The ACPL delta uses
   * "(peor)"/"(mejor)", the match-rate delta "(mayor)"/"(menor)".
   */
  function PeerDeltaDisplay(delta: Metric, above: string, atOrBelow: string): (d: DeltaDisplay)
    ensures d.plusSign <==> Gt(delta, 0.0)
    ensures d.qualifier == (if Gt(delta, 0.0) then above else atOrBelow)
  {
    if Gt(delta, 0.0) then DeltaDisplay(true, above) else DeltaDisplay(false, atOrBelow)
  }

  /** A zero, missing or null delta is shown as no worse than the peers, for both deltas. */
  lemma NonPositiveDeltaIsFavourable(delta: Metric)
    requires delta == Missing || delta == Null || (delta.Number? && delta.x <= 0.0)
    ensures PeerDeltaDisplay(delta, "(peor)", "(mejor)") == DeltaDisplay(false, "(mejor)")
    ensures PeerDeltaDisplay(delta, "(mayor)", "(menor)") == DeltaDisplay(false, "(menor)")
  {
  }

  // ------------------------------------------------------------------
  // The screen
  // ------------------------------------------------------------------

  /** `enabled: !!username`: the metrics query runs only for a non-empty `user` parameter. */
  predicate MetricsQueryEnabled(user: Option<string>) {
    user.Some? && user.value != ""
  }

  datatype QueryState = QueryLoading | QueryFailed(message: string) | QuerySucceeded

  datatype Screen = NoPlayerSelected | LoadingScreen | ErrorScreen(message: string) | ResultsScreen

  /**
   * The screen rendered: "No Player Selected" exactly when the query is
   * disabled, then the loading skeleton, then the error's message, then
   * the results.
   */
  function ScreenOf(user: Option<string>, q: QueryState): (s: Screen)
    ensures s == NoPlayerSelected <==> !MetricsQueryEnabled(user)
    ensures MetricsQueryEnabled(user) && q == QueryLoading ==> s == LoadingScreen
    ensures MetricsQueryEnabled(user) && q.QueryFailed? ==> s == ErrorScreen(q.message)
    ensures s == ResultsScreen <==> MetricsQueryEnabled(user) && q == QuerySucceeded
  {
    if user.None? || user.value == "" then NoPlayerSelected
    else
      match q
      case QueryLoading => LoadingScreen
      case QueryFailed(m) => ErrorScreen(m)
      case QuerySucceeded => ResultsScreen
  }
}
