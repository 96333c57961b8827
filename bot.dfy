/** The bot's orchestration: the creator filter applied to fetched markets,
    the per-market decision sequence (`process_market`) and the cycle over
    the target markets on one balance snapshot (`process_markets`).

    What the network and the language model answer is handed in through
    `Observations`: the balance of the cycle, the clock, the forecast the
    LLM analyzer returns for a market, whether the venue accepts a bet, and
    the timestamp written in the trade log. */
module PredictionBot {
  import opened Common
  import opened Markets
  import opened MarketAnalyzer
  import opened Strategies
  import opened RiskManagement
  import opened PerformanceTracking
  import opened Configuration
  import LlmAnalyzer

  // ---------------------------------------------------------------------------
  // Fetching and betting

  /** The markets whose `creatorUsername` is exactly the target, in order. */
  function CreatedBy(target: string, ms: seq<Market>): (r: seq<Market>)
    ensures IsSubsequence(r, ms)
    ensures forall i :: 0 <= i < |r| ==> r[i].creatorUsername == Some(target)
    ensures forall m :: multiset(r)[m] == if m.creatorUsername == Some(target) then multiset(ms)[m] else 0
  {
    if |ms| == 0 then []
    else
      var rest := CreatedBy(target, ms[1..]);
      assert ms == [ms[0]] + ms[1..];
      CreatedByCounts(target, ms[0], rest, ms[1..]);
      if ms[0].creatorUsername == Some(target) then [ms[0]] + rest else rest
  }

  /** The multiplicities after one more market is kept or dropped. */
  lemma CreatedByCounts(target: string, x: Market, rest: seq<Market>, tail: seq<Market>)
    requires forall m :: multiset(rest)[m] == if m.creatorUsername == Some(target) then multiset(tail)[m] else 0
    ensures forall m :: multiset(if x.creatorUsername == Some(target) then [x] + rest else rest)[m] ==
                        if m.creatorUsername == Some(target) then multiset([x] + tail)[m] else 0
  {
    assert multiset([x] + rest) == multiset{x} + multiset(rest);
    assert multiset([x] + tail) == multiset{x} + multiset(tail);
  }

  /** `get_markets`: a failed fetch (`None`) yields no markets. */
  function GetMarkets(fetched: Option<seq<Market>>, target: string): (r: seq<Market>)
    ensures fetched.None? ==> r == []
    ensures fetched.Some? ==> IsSubsequence(r, fetched.value)
    ensures forall i :: 0 <= i < |r| ==> r[i].creatorUsername == Some(target)
    // Every fetched market of the target creator is kept, as often as fetched.
    ensures fetched.Some? ==>
              forall m :: multiset(r)[m] == if m.creatorUsername == Some(target) then multiset(fetched.value)[m] else 0
  {
    if fetched.Some? then CreatedBy(target, fetched.value) else []
  }

  /** For a non-empty target the analyzer's creator filter keeps every market
      `get_markets` returned: the second filter changes nothing. */
  lemma {:induction false} SecondFilterKeepsAll(a: Analyzer, ms: seq<Market>)
    requires a.targetCreator != ""
    ensures FilterTargetMarkets(a, CreatedBy(a.targetCreator, ms)) == CreatedBy(a.targetCreator, ms)
    decreases |ms|
  {
    if |ms| > 0 {
      SecondFilterKeepsAll(a, ms[1..]);
      var rest := CreatedBy(a.targetCreator, ms[1..]);
      if ms[0].creatorUsername == Some(a.targetCreator) {
        assert IsTargetMarket(a, ms[0]);
        assert ([ms[0]] + rest)[1..] == rest;
      }
    }
  }

  /** `place_bet`'s outcome: "YES" for the side "YES", "NO" for anything else. */
  function Outcome(side: string): (outcome: string)
    ensures outcome == "YES" <==> side == "YES"
    ensures outcome != "YES" ==> outcome == "NO"
  {
    if side == "YES" then "YES" else "NO"
  }

  /** Every side the strategies produce reaches the venue unchanged. */
  lemma OutcomeOfSide(s: Side)
    ensures Outcome(SideName(s)) == SideName(s)
  {
  }

  // ---------------------------------------------------------------------------
  // The decision for one market

  /** Bets below this amount are not placed. */
  const MinimumBet: real := 1.0

  /** Why `process_market` returns without recording anything. */
  datatype Skip =
    | AlreadyResolved
    | PositionOpen
    | StrategyDeclines
    | RiskDenied(reason: DenyReason)
    | BelowMinimumBet

  /** The outcome of the decision sequence: a skip, or a bet to place. */
  datatype Plan = Pass(why: Skip) | Bet(amount: real, side: Side)

  /** What the bot is built from: its limits, analyzer, strategy and whether
      an LLM client is available. */
  datatype Setup = Setup(limits: Limits, analyzer: Analyzer, strategy: Strategy, hasLlmClient: bool)

  /** The answers of the outside world during one cycle. `placeBet` takes the
      market id, the amount and the outcome, and says whether the bet went
      through. */
  datatype Observations = Observations(
    balance: real,
    now: real,
    forecast: Market -> Prediction,
    placeBet: (string, real, string) -> bool,
    stamp: Market -> string)

  /** The state `process_market` changes: the risk ledger and the trade log. */
  datatype Books = Books(positions: map<string, Position>, trades: seq<Trade>)

  /** The prediction is asked for only when there is an LLM client. */
  function PredictionFor(setup: Setup, obs: Observations, m: Market): Option<Prediction> {
    if setup.hasLlmClient then Some(obs.forecast(m)) else None
  }

  /** The reasoning written to the trade log. */
  function ReasoningFor(setup: Setup, obs: Observations, m: Market): string {
    if setup.hasLlmClient then obs.forecast(m).reasoning else "Strategy-based"
  }

  /** The early-return steps of `process_market`, in their order. */
  ghost function Decide(setup: Setup, positions: map<string, Position>, m: Market, obs: Observations): Plan {
    if m.isResolved then Pass(AlreadyResolved)
    else if m.id in positions then Pass(PositionOpen)
    else
      var rec := ShouldTrade(setup.strategy, m, EvaluateMarket(setup.analyzer, m, obs.now),
                             PredictionFor(setup, obs, m));
      if !rec.trade then Pass(StrategyDeclines)
      else
        match Gate(setup.limits, positions, m.id, rec.amount, obs.balance)
        case Some(reason) => Pass(RiskDenied(reason))
        case None =>
          var amount := Adjusted(setup.limits, positions, rec.amount, obs.balance);
          if amount < MinimumBet then Pass(BelowMinimumBet) else Bet(amount, rec.side)
  }

  /** The trade logged for a bet of `amount` on `side`. */
  function TradeFor(setup: Setup, obs: Observations, m: Market, amount: real, side: Side): Trade {
    Trade(obs.stamp(m), m.id, m.question.GetOr("Unknown"), side, amount,
          ProbabilityOrDefault(m), ReasoningFor(setup, obs, m))
  }

  /** The books after `process_market`: a planned bet the venue accepts is
      recorded in the ledger and the log; anything else changes nothing. */
  ghost function Step(setup: Setup, books: Books, m: Market, obs: Observations): Books {
    match Decide(setup, books.positions, m, obs)
    case Pass(_) => books
    case Bet(amount, side) =>
      if obs.placeBet(m.id, amount, Outcome(SideName(side))) then
        Books(books.positions[m.id := Position(amount, side, ProbabilityOrDefault(m))],
              books.trades + [TradeFor(setup, obs, m, amount, side)])
      else books
  }

  /** The books after processing `ms` in order, each market seeing the ledger
      its predecessors left. */
  ghost function Cycle(setup: Setup, books: Books, ms: seq<Market>, obs: Observations): Books
    decreases |ms|
  {
    if |ms| == 0 then books
    else Step(setup, Cycle(setup, books, ms[..|ms| - 1], obs), ms[|ms| - 1], obs)
  }

  /** A planned bet is on a fresh, unresolved market; it follows the
      strategy's side; it is at least the minimum, at most what passed the
      risk gate and at most the position limit; and recording it keeps the
      ledger within the portfolio and open-position limits. */
  lemma DecideBet(setup: Setup, positions: map<string, Position>, m: Market, obs: Observations)
    requires Decide(setup, positions, m, obs).Bet?
    ensures !m.isResolved && m.id !in positions
    ensures var plan := Decide(setup, positions, m, obs);
      var rec := ShouldTrade(setup.strategy, m, EvaluateMarket(setup.analyzer, m, obs.now),
                             PredictionFor(setup, obs, m));
      rec.trade && plan.side == rec.side
      && Gate(setup.limits, positions, m.id, rec.amount, obs.balance).None?
      && MinimumBet <= plan.amount <= rec.amount
      && plan.amount <= setup.limits.maxPositionSize
      && WithinBudget(setup.limits, positions[m.id := Position(plan.amount, plan.side, ProbabilityOrDefault(m))],
                      obs.balance)
  {
    var plan := Decide(setup, positions, m, obs);
    var rec := ShouldTrade(setup.strategy, m, EvaluateMarket(setup.analyzer, m, obs.now),
                           PredictionFor(setup, obs, m));
    AdjustedBounds(setup.limits, positions, rec.amount, obs.balance);
    AdmissionKeepsBudget(setup.limits, positions, m.id, rec.amount, obs.balance,
                         Position(plan.amount, plan.side, ProbabilityOrDefault(m)));
  }

  /** Only a bet the venue accepts changes the books, and it adds exactly one
      position under the market's id and one trade. */
  lemma StepEffect(setup: Setup, books: Books, m: Market, obs: Observations)
    ensures var after := Step(setup, books, m, obs);
      var plan := Decide(setup, books.positions, m, obs);
      var recorded := plan.Bet? && obs.placeBet(m.id, plan.amount, Outcome(SideName(plan.side)));
      (!recorded ==> after == books)
      && (recorded ==>
            m.id !in books.positions
            && after.positions == books.positions[m.id := Position(plan.amount, plan.side, ProbabilityOrDefault(m))]
            && after.trades == books.trades + [TradeFor(setup, obs, m, plan.amount, plan.side)]
            && |after.positions| == |books.positions| + 1)
  {
    var plan := Decide(setup, books.positions, m, obs);
    if plan.Bet? {
      DecideBet(setup, books.positions, m, obs);
    }
  }

  /** A resolved market, or one with an open position, leaves the books as they are. */
  lemma SkippedMarkets(setup: Setup, books: Books, m: Market, obs: Observations)
    requires m.isResolved || m.id in books.positions
    ensures Step(setup, books, m, obs) == books
  {
  }

  /** Every recommendation in `results` declines, so none survives. */
  lemma {:induction false} NoRecommendations(results: seq<(Recommendation, real)>)
    requires forall i :: 0 <= i < |results| ==> !results[i].0.trade
    ensures Recommendations(results) == []
    decreases |results|
  {
    if |results| > 0 {
      NoRecommendations(results[..|results| - 1]);
    }
  }

  /** Without an LLM client a composite of LLM and Kelly strategies never
      trades: both need a prediction. */
  lemma NoClientNoBet(setup: Setup, positions: map<string, Position>, m: Market, obs: Observations)
    requires !setup.hasLlmClient && setup.strategy.CompositeStrategy?
    requires forall i :: 0 <= i < |setup.strategy.strategies| ==>
               setup.strategy.strategies[i].LlmStrategy? || setup.strategy.strategies[i].KellyStrategy?
    ensures Decide(setup, positions, m, obs).Pass?
  {
    var s := setup.strategy;
    var analysis := EvaluateMarket(setup.analyzer, m, obs.now);
    var n := ZipLength(s.strategies, s.weights);
    var results := seq(n, i requires 0 <= i < n => (ShouldTrade(s.strategies[i], m, analysis, None), s.weights[i]));
    forall i | 0 <= i < n
      ensures !results[i].0.trade
    {
      assert s.strategies[i].LlmStrategy? || s.strategies[i].KellyStrategy?;
    }
    NoRecommendations(results);
    assert CompositeDecision(s, m, analysis, None) == Aggregate(Recommendations(results));
  }

  /** A failed model call still leads to a bet: the failure answer
      (0.5, 0.0, ...) is a prediction like any other, and the Kelly half of
      the composite ignores its confidence. At market probability 0.35 and
      with room under the limits, the bot bets 75/26 on YES. */
  lemma FailureStillBets(setup: Setup, m: Market, obs: Observations, f: LlmAnalyzer.Failure)
    requires setup.hasLlmClient
    requires setup.strategy == CompositeStrategy([LlmStrategy(0.6, 50.0), KellyStrategy(50.0, 0.25)], EqualWeights(2))
    requires !m.isResolved && m.probability == Some(0.35)
    requires obs.forecast(m) == LlmAnalyzer.ClassifyFailure(f)
    requires 75.0 / 26.0 <= setup.limits.maxPositionSize && 1 <= setup.limits.maxMarketsOpen
    requires obs.balance > 0.0 && 75.0 / 26.0 <= obs.balance * setup.limits.maxPortfolioRisk
    ensures Decide(setup, map[], m, obs) == Bet(75.0 / 26.0, Yes)
  {
    var failure := LlmAnalyzer.ClassifyFailure(f);
    assert failure == Prediction(0.5, 0.0, failure.reasoning);
    FailureCompositeDemo(m, EvaluateMarket(setup.analyzer, m, obs.now), failure.reasoning);
    EmptyLedgerAdmits(setup.limits, m.id, 75.0 / 26.0, obs.balance);
  }

  /** With no open positions, a bet within every limit passes the checks and
      is not cut down. */
  lemma EmptyLedgerAdmits(lim: Limits, id: string, bet: real, balance: real)
    requires 0.0 <= bet <= lim.maxPositionSize && 1 <= lim.maxMarketsOpen
    requires balance > 0.0 && bet <= balance * lim.maxPortfolioRisk
    ensures Gate(lim, map[], id, bet, balance).None?
    ensures Adjusted(lim, map[], bet, balance) == bet
  {
    assert TotalAtRisk(map[]) == 0.0;
    assert (0.0 + bet) / balance <= lim.maxPortfolioRisk by {
      assert (0.0 + bet) / balance * balance == bet;
    }
  }

  /** A cycle on one balance snapshot keeps the ledger within budget. */
  lemma {:induction false} CycleKeepsBudget(setup: Setup, books: Books, ms: seq<Market>, obs: Observations)
    requires WithinBudget(setup.limits, books.positions, obs.balance)
    ensures WithinBudget(setup.limits, Cycle(setup, books, ms, obs).positions, obs.balance)
    decreases |ms|
  {
    if |ms| > 0 {
      var prefix := ms[..|ms| - 1];
      CycleKeepsBudget(setup, books, prefix, obs);
      var mid := Cycle(setup, books, prefix, obs);
      var m := ms[|ms| - 1];
      if Decide(setup, mid.positions, m, obs).Bet? {
        DecideBet(setup, mid.positions, m, obs);
      }
    }
  }

  /** A cycle only adds: earlier positions and trades are kept, every new
      position belongs to a processed market, and each new position comes
      with exactly one new trade. */
  lemma {:induction false} CycleOnlyAdds(setup: Setup, books: Books, ms: seq<Market>, obs: Observations)
    ensures var after := Cycle(setup, books, ms, obs);
      (forall k :: k in books.positions ==> k in after.positions && after.positions[k] == books.positions[k])
      && (forall k :: k in after.positions && k !in books.positions ==> exists i :: 0 <= i < |ms| && ms[i].id == k)
      && books.trades <= after.trades
      && |after.trades| - |books.trades| == |after.positions| - |books.positions|
    decreases |ms|
  {
    if |ms| > 0 {
      var prefix := ms[..|ms| - 1];
      CycleOnlyAdds(setup, books, prefix, obs);
      var mid := Cycle(setup, books, prefix, obs);
      var m := ms[|ms| - 1];
      StepEffect(setup, mid, m, obs);
      var after := Step(setup, mid, m, obs);
      forall k | k in after.positions && k !in books.positions
        ensures exists i :: 0 <= i < |ms| && ms[i].id == k
      {
        if k in mid.positions {
          var i :| 0 <= i < |prefix| && prefix[i].id == k;
          assert ms[i] == prefix[i];
        } else {
          assert ms[|ms| - 1].id == k;
        }
      }
    }
  }

  // ---------------------------------------------------------------------------
  // The bot

  class JudgmentalPredictionBot {
    const config: Config
    const analyzer: Analyzer
    const subStrategies: seq<Strategy>
    const weights: seq<real>
    const hasLlmClient: bool
    const riskManager: RiskManager
    const performanceTracker: PerformanceTracker
    var running: bool

    function SetupOf(): Setup {
      Setup(riskManager.LimitsOf(), analyzer, CompositeStrategy(subStrategies, weights), hasLlmClient)
    }

    ghost function BooksOf(): Books
      reads riskManager, performanceTracker
    {
      Books(riskManager.openPositions, performanceTracker.trades)
    }

    /** The components built from a validated configuration: an LLM and a
        Kelly strategy with equal weights, fresh books and a stopped bot.
        Whether an LLM client could be created is the parameter `hasLlmClient`. */
    constructor(config: Config, hasLlmClient: bool)
      requires Validate(config).None?
      ensures this.config == config && this.hasLlmClient == hasLlmClient
      ensures analyzer == NewAnalyzer(config.targetCreator, Some(config.minMarketLiquidity))
      ensures subStrategies == [NewLlmStrategy(Some(config.minConfidence), Some(config.maxBetAmount)),
                                NewKellyStrategy(Some(config.maxBetAmount), None)]
      ensures NewCompositeStrategy(subStrategies, None) == Ok(CompositeStrategy(subStrategies, weights))
      ensures weights == [0.5, 0.5]
      ensures riskManager.LimitsOf() == Limits(config.maxPositionSize, config.maxPortfolioRisk, config.maxMarketsOpen)
      ensures fresh(riskManager) && fresh(performanceTracker)
      ensures riskManager.openPositions == map[] && performanceTracker.trades == []
      ensures performanceTracker.startingBalance.None? && performanceTracker.currentBalance.None?
      ensures !running
    {
      this.config := config;
      this.hasLlmClient := hasLlmClient;
      analyzer := NewAnalyzer(config.targetCreator, Some(config.minMarketLiquidity));
      var strategies := [NewLlmStrategy(Some(config.minConfidence), Some(config.maxBetAmount)),
                         NewKellyStrategy(Some(config.maxBetAmount), None)];
      subStrategies := strategies;
      weights := EqualWeights(2);
      assert EqualWeights(2) == [0.5, 0.5];
      riskManager := new RiskManager(config.maxPositionSize, config.maxPortfolioRisk, config.maxMarketsOpen);
      performanceTracker := new PerformanceTracker();
      running := false;
    }

    /** `self.running = True` as `run` sets it before its first cycle. */
    method Start()
      modifies this
      ensures running
    {
      running := true;
    }

    method Stop()
      modifies this
      ensures !running
    {
      running := false;
    }

    /** `process_market` on the cycle's balance: the books become `Step`
        of the old books; the balances are untouched. */
    method ProcessMarket(market: Market, obs: Observations)
      modifies riskManager, performanceTracker
      ensures BooksOf() == Step(SetupOf(), old(BooksOf()), market, obs)
      ensures performanceTracker.startingBalance == old(performanceTracker.startingBalance)
      ensures performanceTracker.currentBalance == old(performanceTracker.currentBalance)
    {
      if market.isResolved {
        return;
      }
      if market.id in riskManager.openPositions {
        return;
      }
      var analysis := EvaluateMarket(analyzer, market, obs.now);
      var prediction: Option<Prediction> := None;
      if hasLlmClient {
        prediction := Some(obs.forecast(market));
      }
      var shouldTrade, betAmount, side := CompositeShouldTrade(subStrategies, weights, market, analysis, prediction);
      assert Recommendation(shouldTrade, betAmount, side)
          == ShouldTrade(CompositeStrategy(subStrategies, weights), market, analysis, prediction);
      if !shouldTrade {
        return;
      }
      var canTrade, reason := riskManager.CanTrade(market.id, betAmount, obs.balance);
      if !canTrade {
        return;
      }
      betAmount := riskManager.AdjustBetSize(betAmount, obs.balance, market.id);
      if betAmount < MinimumBet {
        return;
      }
      var success := obs.placeBet(market.id, betAmount, Outcome(SideName(side)));
      if success {
        var currentProb := ProbabilityOrDefault(market);
        riskManager.RecordPosition(market.id, betAmount, side, currentProb);
        var reasoning := if prediction.Some? then prediction.value.reasoning else "Strategy-based";
        performanceTracker.RecordTrade(obs.stamp(market), market.id, market.question.GetOr("Unknown"),
                                       side, betAmount, currentProb, reasoning);
      }
    }

    /** `process_markets` on the markets `get_markets` returned: nothing
        happens without target markets; otherwise the balance snapshot is
        recorded and, while the bot is running, the target markets are
        processed in order. */
    method ProcessMarkets(markets: seq<Market>, obs: Observations)
      modifies riskManager, performanceTracker
      ensures var targets := FilterTargetMarkets(analyzer, markets);
        if |markets| == 0 || |targets| == 0 then
          BooksOf() == old(BooksOf())
          && performanceTracker.startingBalance == old(performanceTracker.startingBalance)
          && performanceTracker.currentBalance == old(performanceTracker.currentBalance)
        else
          BooksOf() == (if running then Cycle(SetupOf(), old(BooksOf()), targets, obs) else old(BooksOf()))
          && performanceTracker.currentBalance == Some(obs.balance)
          && performanceTracker.startingBalance ==
               if old(performanceTracker.startingBalance).None? then Some(obs.balance)
               else old(performanceTracker.startingBalance)
    {
      if |markets| == 0 {
        return;
      }
      var targets := FilterTargetMarkets(analyzer, markets);
      if |targets| == 0 {
        return;
      }
      performanceTracker.UpdateBalance(obs.balance);
      ProcessTargets(targets, obs);
    }

    /** The `for market in target_markets` loop: while the bot is running,
        each market is processed in order on the same balance snapshot. */
    method ProcessTargets(targets: seq<Market>, obs: Observations)
      modifies riskManager, performanceTracker
      ensures BooksOf() == if running then Cycle(SetupOf(), old(BooksOf()), targets, obs) else old(BooksOf())
      ensures performanceTracker.startingBalance == old(performanceTracker.startingBalance)
      ensures performanceTracker.currentBalance == old(performanceTracker.currentBalance)
    {
      ghost var start := BooksOf();
      var i := 0;
      while i < |targets|
        invariant 0 <= i <= |targets|
        invariant !running ==> i == 0
        invariant BooksOf() == Cycle(SetupOf(), start, targets[..i], obs)
        invariant performanceTracker.startingBalance == old(performanceTracker.startingBalance)
        invariant performanceTracker.currentBalance == old(performanceTracker.currentBalance)
      {
        if !running {
          break;
        }
        ProcessMarket(targets[i], obs);
        assert targets[..i + 1][..i] == targets[..i];
        i := i + 1;
      }
      assert running ==> targets[..i] == targets;
    }
  }

  /** `JudgmentalPredictionBot(config)`: validation comes first and its
      error is the only way construction fails. */
  method NewBot(config: Config, hasLlmClient: bool) returns (r: Result<JudgmentalPredictionBot, string>)
    ensures r.Err? <==> Validate(config).Some?
    ensures r.Err? ==> r.error == Validate(config).value
    ensures r.Ok? ==> fresh(r.value) && r.value.config == config && !r.value.running
                      && fresh(r.value.riskManager) && r.value.riskManager.openPositions == map[]
  {
    var failure := Validate(config);
    if failure.Some? {
      return Err(failure.value);
    }
    var bot := new JudgmentalPredictionBot(config, hasLlmClient);
    return Ok(bot);
  }
}
