/** Market scoring and creator filtering (the `MarketAnalyzer` class).
    Every score is a pure function of one market; the clock is the parameter
    `now`, in seconds since the epoch. */
module MarketAnalyzer {
  import opened Common
  import opened Markets

  datatype Analyzer = Analyzer(targetCreator: string, minLiquidity: real)

  /** `MarketAnalyzer(target_creator, min_liquidity=50.0)` */
  function NewAnalyzer(targetCreator: string, minLiquidity: Option<real>): (a: Analyzer)
    ensures a.targetCreator == targetCreator
    ensures minLiquidity.None? ==> a.minLiquidity == 50.0
    ensures minLiquidity.Some? ==> a.minLiquidity == minLiquidity.value
  {
    Analyzer(targetCreator, minLiquidity.GetOr(50.0))
  }

  datatype Scores = Scores(
    liquidity: real,
    time: real,
    volatility: real,
    volume: real,
    overall: real)

  // ---------------------------------------------------------------------------
  // Creator filter

  /** `market.get("creatorUsername") or market.get("creatorId")`: the username
      when it is truthy, otherwise whatever the id key holds. */
  function Creator(m: Market): (c: Option<string>)
    ensures TruthyText(m.creatorUsername) ==> c == m.creatorUsername
    ensures !TruthyText(m.creatorUsername) ==> c == m.creatorId
  {
    if TruthyText(m.creatorUsername) then m.creatorUsername else m.creatorId
  }

  predicate IsTargetMarket(a: Analyzer, m: Market) {
    Creator(m) == Some(a.targetCreator)
  }

  /** `a` can be obtained from `b` by deleting elements. */
  ghost predicate IsSubsequence<T>(a: seq<T>, b: seq<T>)
    decreases |b|
  {
    |a| == 0 ||
    (|b| > 0 && ((a[0] == b[0] && IsSubsequence(a[1..], b[1..])) || IsSubsequence(a, b[1..])))
  }

  /** The target-creator markets, in input order, each as often as it occurs. */
  function FilterTargetMarkets(a: Analyzer, ms: seq<Market>): (r: seq<Market>)
    ensures IsSubsequence(r, ms)
    ensures forall i :: 0 <= i < |r| ==> IsTargetMarket(a, r[i])
    ensures forall m :: multiset(r)[m] == if IsTargetMarket(a, m) then multiset(ms)[m] else 0
  {
    if |ms| == 0 then []
    else
      var rest := FilterTargetMarkets(a, ms[1..]);
      assert ms == [ms[0]] + ms[1..];
      if IsTargetMarket(a, ms[0]) then [ms[0]] + rest else rest
  }

  // ---------------------------------------------------------------------------
  // Sub-scores

  /** Zero below the liquidity floor, otherwise a linear ramp saturating at 200. */
  function LiquidityScore(a: Analyzer, m: Market): (r: real)
    ensures r <= 1.0
    ensures m.totalLiquidity.GetOr(0.0) < a.minLiquidity ==> r == 0.0
    ensures m.totalLiquidity.GetOr(0.0) >= a.minLiquidity && m.totalLiquidity.GetOr(0.0) >= 0.0 ==> r >= 0.0
    ensures m.totalLiquidity.GetOr(0.0) >= a.minLiquidity && m.totalLiquidity.GetOr(0.0) >= 200.0 ==> r == 1.0
    ensures a.minLiquidity <= m.totalLiquidity.GetOr(0.0) <= 200.0 ==> r * 200.0 == m.totalLiquidity.GetOr(0.0)
  {
    var liquidity := m.totalLiquidity.GetOr(0.0);
    if liquidity < a.minLiquidity then 0.0 else Min(1.0, liquidity / 200.0)
  }

  const Day: real := 86400.0
  const Week: real := 604800.0
  const Month: real := 2592000.0

  /** The score for `remaining` seconds until close; each band includes its
      lower bound. */
  function TimeBand(remaining: real): (r: real)
    ensures remaining < 0.0 <==> r == 0.0
    ensures 0.0 <= remaining < Day <==> r == 0.3
    ensures Day <= remaining < Week <==> r == 1.0
    ensures Week <= remaining < Month <==> r == 0.7
    ensures Month <= remaining <==> r == 0.4
  {
    if remaining < 0.0 then 0.0
    else if remaining < Day then 0.3
    else if remaining < Week then 1.0
    else if remaining < Month then 0.7
    else 0.4
  }

  /** A falsy `closeTime` (absent or 0) is neutral; otherwise the band of the
      seconds left at `now`. */
  function TimeScore(m: Market, now: real): (r: real)
    ensures 0.0 <= r <= 1.0
    ensures (m.closeTime.None? || m.closeTime.value == 0) ==> r == 0.5
    ensures m.closeTime.Some? && m.closeTime.value != 0 ==>
              r == TimeBand(m.closeTime.value as real / 1000.0 - now)
  {
    if m.closeTime.None? || m.closeTime.value == 0 then 0.5
    else TimeBand(m.closeTime.value as real / 1000.0 - now)
  }

  /** 24h volume over liquidity, doubled; the turnover is 0 when the liquidity
      is not positive, and an absent liquidity counts as 1. */
  function VolatilityScore(m: Market): (r: real)
    ensures r <= 1.0
    ensures WellFormed(m) ==> r >= 0.0
    ensures m.totalLiquidity.Some? && m.totalLiquidity.value <= 0.0 ==> r == 0.0
    ensures m.totalLiquidity.None? ==> r == Min(1.0, 2.0 * m.volume24Hours.GetOr(0.0))
    ensures m.totalLiquidity.Some? && m.totalLiquidity.value > 0.0 ==>
              r == Min(1.0, 2.0 * (m.volume24Hours.GetOr(0.0) / m.totalLiquidity.value))
  {
    var volume := m.volume24Hours.GetOr(0.0);
    var liquidity := m.totalLiquidity.GetOr(1.0);
    var turnover := if liquidity > 0.0 then volume / liquidity else 0.0;
    Min(1.0, turnover * 2.0)
  }

  /** 24h volume, saturating at 100. */
  function VolumeScore(m: Market): (r: real)
    ensures r <= 1.0
    ensures WellFormed(m) ==> r >= 0.0
    ensures m.volume24Hours.GetOr(0.0) >= 100.0 ==> r == 1.0
    ensures m.volume24Hours.GetOr(0.0) <= 100.0 ==> r * 100.0 == m.volume24Hours.GetOr(0.0)
  {
    Min(1.0, m.volume24Hours.GetOr(0.0) / 100.0)
  }

  const LiquidityWeight: real := 0.3
  const TimeWeight: real := 0.25
  const VolatilityWeight: real := 0.25
  const VolumeWeight: real := 0.2

  /** The four sub-scores and their fixed weighted sum. */
  function EvaluateMarket(a: Analyzer, m: Market, now: real): (s: Scores)
    ensures s.liquidity == LiquidityScore(a, m) && s.time == TimeScore(m, now)
    ensures s.volatility == VolatilityScore(m) && s.volume == VolumeScore(m)
    ensures s.overall == LiquidityWeight * s.liquidity + TimeWeight * s.time
                         + VolatilityWeight * s.volatility + VolumeWeight * s.volume
  {
    var liquidity := LiquidityScore(a, m);
    var time := TimeScore(m, now);
    var volatility := VolatilityScore(m);
    var volume := VolumeScore(m);
    Scores(liquidity, time, volatility, volume,
           liquidity * LiquidityWeight + time * TimeWeight
           + volatility * VolatilityWeight + volume * VolumeWeight)
  }

  predicate InUnit(x: real) {
    0.0 <= x <= 1.0
  }

  lemma WeightsSumToOne()
    ensures LiquidityWeight + TimeWeight + VolatilityWeight + VolumeWeight == 1.0
  {
  }

  /** On a well-formed market every score, and the overall score, lies in [0, 1]. */
  lemma EvaluateMarketInRange(a: Analyzer, m: Market, now: real)
    requires WellFormed(m)
    ensures var s := EvaluateMarket(a, m, now);
      InUnit(s.liquidity) && InUnit(s.time) && InUnit(s.volatility)
      && InUnit(s.volume) && InUnit(s.overall)
  {
  }

  // ---------------------------------------------------------------------------
  // Metadata

  datatype Metadata = Metadata(
    id: string,
    question: Option<string>,
    creator: Option<string>,
    probability: Option<real>,
    liquidity: real,
    volume24h: real,
    isResolved: bool,
    closeTime: Option<int>,
    url: Option<string>)

  /** A projection of the market; liquidity and volume default to 0, and the
      creator is the username key only. */
  function GetMarketMetadata(m: Market): (r: Metadata)
    ensures r.id == m.id && r.question == m.question && r.url == m.url
    ensures r.creator == m.creatorUsername && r.probability == m.probability
    ensures r.liquidity == m.totalLiquidity.GetOr(0.0) && r.volume24h == m.volume24Hours.GetOr(0.0)
    ensures r.isResolved == m.isResolved && r.closeTime == m.closeTime
  {
    Metadata(m.id, m.question, m.creatorUsername, m.probability,
             m.totalLiquidity.GetOr(0.0), m.volume24Hours.GetOr(0.0),
             m.isResolved, m.closeTime, m.url)
  }

  // ---------------------------------------------------------------------------
  // Scenarios

  function MarketWith(liquidity: real, volume: real, closeTime: Option<int>): Market {
    Market("m", None, Some("MikhailTal"), None, Some(0.35), Some(liquidity), Some(volume),
           closeTime, false, Unresolved, None)
  }

  lemma LiquidityScenarios()
    ensures LiquidityScore(Analyzer("MikhailTal", 50.0), MarketWith(150.0, 50.0, None)) == 0.75
    ensures LiquidityScore(Analyzer("MikhailTal", 50.0), MarketWith(10.0, 50.0, None)) == 0.0
  {
  }

  /** Closing in three days scores 1.0, closing in twelve hours 0.3. */
  lemma TimeScenarios(now: nat)
    ensures TimeScore(MarketWith(150.0, 50.0, Some((now + 3 * 86400) * 1000)), now as real) == 1.0
    ensures TimeScore(MarketWith(150.0, 50.0, Some((now + 12 * 3600) * 1000)), now as real) == 0.3
  {
  }
}
