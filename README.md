# Judgmental prediction bot — decision core in Dafny

This project models the decision core of a bot that trades on Manifold
Markets. It covers only markets created by one target user. For each market
the bot does the following:

- scores how tradable the market is from its raw attributes;
- asks a language model for a forecast and parses the reply, which is
  untrusted text;
- turns the forecast into a bet with an edge-threshold strategy and a
  fractional-Kelly strategy, combined by weighted vote;
- passes the bet through a risk ledger, which refuses it, or clamps it to the
  per-position, portfolio and open-position limits;
- records the bet, when the venue accepts it, in the ledger and in a trade
  log.

A separate tracker settles positions when their markets resolve and reports
profit and loss.

Modules follow the source files:

| module | file | source |
|---|---|---|
| `Common`, `Sums` | common.dfy, sums.dfy | shared values; order-independent sums over a dict's values |
| `Markets` | markets.dfy | the market dictionary returned by the venue |
| `MarketAnalyzer` | market_analyzer.dfy | market_analyzer.py |
| `LlmAnalyzer` | llm_analyzer.dfy | llm_analyzer.py: reply parsing and error classification |
| `Strategies` | strategies.dfy | strategies.py |
| `RiskManagement` | risk_manager.dfy | risk_manager.py |
| `ResolutionTracking` | market_resolution_tracker.dfy | market_resolution_tracker.py |
| `PerformanceTracking` | performance_tracker.dfy | performance_tracker.py |
| `PredictionBot` | bot.dfy | bot.py |
| `Configuration` | config.dfy | config.py |

Each source file keeps its own form in the model:

- **Scoring, parsing, strategies and validation** are pure code in the
  source. They are modelled as functions and lemmas.
- **The stateful objects** are classes whose methods update fields:
  `RiskManager`, `MarketResolutionTracker`, `PerformanceTracker` and
  `JudgmentalPredictionBot`.
  - Each method is proved against a specification function of the old
    state, such as `Gate`, `Adjusted`, `MetricsOf`, `Step` or `Cycle`.
  - Every sum over a dictionary's values is a loop over the key set,
    `Sums.SumValues` or `Sums.CountValues`. It is proved equal to the ghost
    sum `Sums.Sum` or count `Sums.Count`.
- **The composite strategy's loop** is a method,
  `Strategies.CollectRecommendations`, called by
  `Strategies.CompositeShouldTrade`. Both are proved against the pure
  `CompositeDecision`.

Amounts and probabilities are `real`. Dictionaries are `map`s. A market key
that is absent is `None`.

The outside world becomes parameters:

- the clock (`now`, and the timestamps in the logs, which are opaque text);
- the balance;
- the language model's reply or failure;
- `json.loads` and `float()` on JSON strings;
- whether the venue accepted a bet.

Where the design description and the code disagree, the model follows the
code:

- **The fallback scan does not clamp.** The design says a parsed
  probability and confidence are always clamped to [0,1]. In the code
  (llm_analyzer.py:236-245), only the JSON branch clamps. The fallback scan
  of `probability: x` returns `x` as found. `LlmAnalyzer.FallbackNotClamped`
  shows the reply "probability: 7" giving probability 7.
- **The fallback never uses the neutral default.** The design says a
  fallback that finds nothing returns (0.5, 0.0, "unavailable"). The code
  returns 0.5 for each missing field, with confidence 0.5, and the first 200
  characters of the reply as reasoning.

## Model

| member | source | states |
|---|---|---|
| Sums.SumValues | market_resolution_tracker.py:119-120 | the loop over the keys, in any order, computes the sum of a function of the values |
| Sums.CountValues | market_resolution_tracker.py:117 | the loop over the keys, in any order, counts the values that satisfy a predicate |
| Configuration.DefaultConfig | config.py:16-41 | only the two credentials are required; every other setting takes its default (target MikhailTal, provider gemini, limits 100 / 0.3 / 10, liquidity 50, confidence 0.6, bet 50, interval 300, logging INFO to bot.log) |
| Configuration.Validate | config.py:65-76 | an empty API key is refused first, then an empty username; the configuration is accepted exactly when both are present and the chosen provider, if it is gemini, openai or anthropic, has a non-empty key of its own |
| Configuration.ProviderKeys | config.py:71-76 | each of the three providers is refused exactly when its own key is missing; any other provider name passes the key checks |
| Configuration.DefaultsNeedGeminiKey | config.py:71-72 | the default configuration is refused for lack of a Gemini key and accepted once one is given |
| MarketAnalyzer.NewAnalyzer | market_analyzer.py:15-24 | the target creator is kept and the liquidity floor defaults to 50 |
| MarketAnalyzer.Creator | market_analyzer.py:45 | the creator is the username when it is non-empty, otherwise the creator id |
| MarketAnalyzer.FilterTargetMarkets | market_analyzer.py:26-46 | the result is a subsequence of the input, holds only target-creator markets, and holds each of them as often as the input does |
| MarketAnalyzer.LiquidityScore | market_analyzer.py:78-86 | 0 below the floor; liquidity / 200 from the floor up to 200; 1 from 200; never above 1 |
| MarketAnalyzer.TimeBand | market_analyzer.py:99-109 | each band of remaining time (closed, under a day, under a week, under thirty days, beyond) maps to its score 0, 0.3, 1, 0.7, 0.4, and each score to its band |
| MarketAnalyzer.TimeScore | market_analyzer.py:88-112 | 0.5 without a close time (absent or 0); otherwise the band of close time / 1000 − now; always in [0,1] |
| MarketAnalyzer.VolatilityScore | market_analyzer.py:114-125 | twice the 24-hour turnover over liquidity, capped at 1; 0 when liquidity is not positive; liquidity 1 when absent |
| MarketAnalyzer.VolumeScore | market_analyzer.py:127-132 | volume / 100 capped at 1 |
| MarketAnalyzer.EvaluateMarket | market_analyzer.py:48-76 | the four sub-scores, and an overall score that is their 0.3 / 0.25 / 0.25 / 0.2 weighted sum |
| MarketAnalyzer.WeightsSumToOne | market_analyzer.py:66-71 | the score weights add up to 1 |
| MarketAnalyzer.EvaluateMarketInRange | market_analyzer.py:58-76 | for non-negative liquidity and volume every score, the overall one included, lies in [0,1] |
| MarketAnalyzer.GetMarketMetadata | market_analyzer.py:134-146 | the metadata copies each market key, with liquidity and volume defaulting to 0 |
| MarketAnalyzer.LiquidityScenarios | market_analyzer.py:78-86 | liquidity 150 with floor 50 scores 0.75; liquidity 10 scores 0 |
| MarketAnalyzer.TimeScenarios | market_analyzer.py:99-105 | a market closing in three days scores 1; one closing in twelve hours scores 0.3 |
| LlmAnalyzer.Contains | llm_analyzer.py:130 | `t in s` holds exactly when `t` occurs at some position of `s` |
| LlmAnalyzer.ContainsFrom | llm_analyzer.py:130 | the search from a position finds `t` exactly when it occurs at or after that position |
| LlmAnalyzer.Lower | llm_analyzer.py:130 | lower-casing keeps the length and maps every character |
| LlmAnalyzer.RunEnd | llm_analyzer.py:238 | a greedy run of matching characters: everything before its end matches, the character at its end does not |
| LlmAnalyzer.BraceMatchAt | llm_analyzer.py:223 | the `{[^}]+}` match starting at a position, when there is one, and none when there is none |
| LlmAnalyzer.BraceSearch | llm_analyzer.py:223 | the first `{[^}]+}` match at or after a position, with no match starting earlier |
| LlmAnalyzer.FindBraceSpan | llm_analyzer.py:223 | `re.search` for `{[^}]+}`: the leftmost match, or none when no position starts one |
| LlmAnalyzer.LabelMatchAt | llm_analyzer.py:238-239 | a label, an optional quote, spaces, a colon, spaces and a non-empty `[0-9.]` token match at a position; the token is returned |
| LlmAnalyzer.FindLabel | llm_analyzer.py:238-239 | the leftmost position where the labelled number matches, or none when it matches nowhere |
| LlmAnalyzer.ParseDecimal | llm_analyzer.py:241-242 | `float()` of a `[0-9.]+` token succeeds exactly when it has at most one dot and some digit; the value is non-negative; otherwise the `ValueError` text |
| LlmAnalyzer.DigitsAppend | llm_analyzer.py:241-242 | the decimal value of two digit strings written one after the other is the first shifted by the second's length plus the second |
| LlmAnalyzer.UndottedValue | llm_analyzer.py:241-242 | a token of digits only converts to the integer those digits write |
| LlmAnalyzer.DottedValue | llm_analyzer.py:241-242 | a token with a dot that converts has the value of its digits without the dot divided by ten to the number of digits after the dot ("12.25" is 1225/100) |
| LlmAnalyzer.JsonFloat | llm_analyzer.py:226-227 | `float()` of a JSON value: numbers as they are, booleans as 1 and 0, strings through the float parser, anything else a `TypeError` |
| LlmAnalyzer.FieldFloat | llm_analyzer.py:226-227 | an absent field reads 0.5, a present one is converted |
| LlmAnalyzer.JsonOutcome | llm_analyzer.py:225-234 | a decode error propagates; after a decode, the result succeeds exactly when both fields convert, a probability error is reported before a confidence error, and a success holds both converted values clamped to [0,1] with the reasoning field or "No reasoning provided" |
| LlmAnalyzer.FallbackField | llm_analyzer.py:238-242 | a field with no labelled number reads 0.5; otherwise the leftmost token is converted; a parsed value is non-negative |
| LlmAnalyzer.FallbackOutcome | llm_analyzer.py:236-245 | succeeds exactly when both fields convert; a probability error is reported before a confidence error; the probability is the scanned value, unclamped; the reasoning is the first 200 characters of the reply |
| LlmAnalyzer.ParseOutcome | llm_analyzer.py:222-245 | with a brace span the outcome is the JSON branch on exactly the span's text; without one it is the fallback scan of the whole reply |
| LlmAnalyzer.ParseResponse | llm_analyzer.py:218-248 | a successful outcome is returned as it is; any failure gives (0.5, 0, "Parse error: " + message); with a brace span both values are in [0,1]; without one both are non-negative, and a successful scan's reasoning is the reply's first 200 characters |
| LlmAnalyzer.ClassifyFailure | llm_analyzer.py:127-138 | a failure gives probability 0.5 and confidence 0; a quota, 429 or rate-limit message comes first, then a ResourceExhausted type, then "Analysis error: " with the message's first 100 characters |
| LlmAnalyzer.AnalyzeMarket | llm_analyzer.py:108-138 | without a client the fixed "not available" answer; with a reply its parse; with a failure its classification |
| LlmAnalyzer.FailuresHaveNoConfidence | llm_analyzer.py:108-138 | every path that has no usable reply answers probability 0.5 and confidence 0 |
| LlmAnalyzer.ObjectReplyIsSpan | llm_analyzer.py:223 | a reply that is one brace-delimited object without `}` inside is its own match |
| LlmAnalyzer.ObjectReplyClamped | llm_analyzer.py:230-232 | an object with only a probability yields that probability clamped to [0,1], confidence 0.5 and the default reasoning |
| LlmAnalyzer.FallbackNotClamped | llm_analyzer.py:236-245 | the reply "probability: 7" yields probability 7, confidence 0.5, and the reply as reasoning |
| LlmAnalyzer.DotsAreParseError | llm_analyzer.py:241-248 | "confidence: ..." matches the scan, fails conversion, and so yields the parse-error default |
| LlmAnalyzer.PointSixFive | llm_analyzer.py:241-242 | "0.65" converts to 0.65 |
| LlmAnalyzer.TrailingDot | llm_analyzer.py:241-242 | "12." converts to 12 |
| LlmAnalyzer.LeadingDot | llm_analyzer.py:241-242 | ".5" converts to 0.5 |
| LlmAnalyzer.MalformedDecimals | llm_analyzer.py:241-242 | "1.2.3" (two dots) and "." (no digit) do not convert |
| LlmAnalyzer.QuotaScenarios | llm_analyzer.py:129-131 | case-insensitive "quota" and "rate limit" messages and "429" give the quota answer, even for a ResourceExhausted type |
| LlmAnalyzer.ExhaustedScenario | llm_analyzer.py:132-134 | without a quota message, a ResourceExhausted type gives its own answer |
| LlmAnalyzer.GenericScenario | llm_analyzer.py:135-137 | any other error keeps the first 100 characters of its message |
| Strategies.NewLlmStrategy | strategies.py:35-44 | defaults: minimum confidence 0.6, maximum bet 50 |
| Strategies.NewMarketMakerStrategy | strategies.py:83-92 | defaults: maximum bet 50, minimum edge 0.1 |
| Strategies.NewKellyStrategy | strategies.py:130-139 | defaults: maximum bet 50, Kelly fraction 0.25 |
| Strategies.NewCompositeStrategy | strategies.py:187-196 | given non-empty weights are kept; otherwise each of the n strategies gets weight 1/n; no strategies and no weights is a division by zero |
| Strategies.EqualWeights | strategies.py:196 | one weight per strategy |
| Strategies.EqualWeightsSumToOne | strategies.py:196 | the default weights add up to 1 |
| Strategies.LlmDecision | strategies.py:46-77 | trades exactly when there is a prediction whose confidence reaches the threshold and whose edge is at least 0.05; the side is YES exactly when the forecast is above the market; the amount is edge × confidence × 100 capped at the maximum bet |
| Strategies.MarketMakerDecision | strategies.py:94-124 | the fair value is the prediction, or the overall score; trades exactly when the edge reaches the minimum; the amount is edge × 200 capped |
| Strategies.KellyBet | strategies.py:159-171 | the Kelly fraction is positive for a positive edge when the side's market probability is below 1 |
| Strategies.KellyDecision | strategies.py:141-181 | no prediction declines; with one, the side is YES exactly when the forecast is above the market, and the strategy trades exactly when that side's edge is positive and the capped amount min(max bet, Kelly × fraction × 100) is at least 1, betting that amount on that side |
| Strategies.Recommendations | strategies.py:201-206 | there are exactly as many entries as trading sub-recommendations |
| Strategies.RecommendationEntries | strategies.py:201-206 | each trading sub-recommendation contributes (amount × weight, side), in the order of the sub-strategies |
| Strategies.Aggregate | strategies.py:208-220 | trades exactly when the per-side weighted totals differ, on the larger side with its total; a tie or nothing declines as (false, 0, NO) |
| Strategies.ShouldTrade | strategies.py:14-29 | every strategy's declining answer is exactly (false, 0, NO) |
| Strategies.CompositeDecision | strategies.py:198-220 | the composite declines only as (false, 0, NO) |
| Strategies.CompositeShouldTrade | strategies.py:198-220 | the collected recommendations, summed per side, give exactly the composite decision |
| Strategies.CollectRecommendations | strategies.py:201-209 | the loop over the zipped strategies and weights keeps the weighted trading recommendations, whose aggregate is the composite decision |
| Strategies.Zip | strategies.py:203 | `zip` pairs the i-th strategy with the i-th weight, up to the shorter list |
| Strategies.SideTotalOfPairs | strategies.py:203-213 | a side's total is the sum, over the strategy/weight pairs, of each pair's weighted contribution |
| Strategies.CompositePermutationInvariant | strategies.py:198-220 | reordering the strategy/weight pairs together does not change the composite decision |
| Strategies.SideTotalOfTwo | strategies.py:212-213 | the per-side total of two recommendations |
| Strategies.LlmDemo | demo_mode.py:83-88 | the demonstration prediction (0.65, 0.75) at market 0.35 makes the LLM strategy bet 22.5 on YES |
| Strategies.KellyDemo | demo_mode.py:83-88 | the same prediction makes the Kelly strategy bet 150/13 on YES |
| Strategies.CompositeDemo | demo_mode.py:83-92 | the equal-weight composite bets 885/52 on YES |
| Strategies.FailureCompositeDemo | strategies.py:141-220 | on the failure answer (0.5, confidence 0) at market 0.35 the LLM strategy declines, Kelly bets 75/13 on YES, and the equal-weight composite bets 75/26 on YES |
| RiskManagement.RiskManager.constructor | risk_manager.py:14-27 | the limits are kept and the ledger starts empty |
| RiskManagement.RiskManager.ComputeTotalAtRisk | risk_manager.py:53 | the sum of the open stakes in the ledger |
| RiskManagement.RiskManager.CanTrade | risk_manager.py:29-67 | the answer is the first failing check of the gate, and the bet is allowed exactly when none fails |
| RiskManagement.RiskManager.AdjustBetSize | risk_manager.py:69-101 | the step-by-step clamp computes the specified adjusted amount |
| RiskManagement.RiskManager.RecordPosition | risk_manager.py:103-111 | the ledger maps the market to the new position; nothing else changes |
| RiskManagement.RiskManager.RemovePosition | risk_manager.py:114-118 | the entry is deleted when present; otherwise nothing changes |
| RiskManagement.RiskManager.GetPortfolioSummary | risk_manager.py:120-127 | the count, the total at risk and a copy of the ledger |
| RiskManagement.GateOrder | risk_manager.py:42-67 | each refusal happens exactly when its check fails and every earlier check passes: existing position, then size, then portfolio ratio, then open-position count |
| RiskManagement.RatioAboveLimit | risk_manager.py:56-60 | for a positive balance the ratio exceeds the limit exactly when the stake exceeds balance × limit |
| RiskManagement.SizeLimitInclusive | risk_manager.py:48 | a bet of exactly the position limit passes the size check |
| RiskManagement.NoBalanceNoRiskCheck | risk_manager.py:56 | with a balance that is not positive the portfolio check never refuses |
| RiskManagement.GateAdmits | risk_manager.py:29-67 | a bet the gate admits is on a market without a position, within the position size, below the open-market limit, and within balance × risk when the balance is positive |
| RiskManagement.AdmissionKeepsBudget | risk_manager.py:52-65 | recording an admitted bet, or any smaller amount in its place, keeps the total within balance × risk and the count within the limit |
| RiskManagement.AdjustedBounds | risk_manager.py:82-96 | the adjusted bet is non-negative, at most the proposal and the position limit, fits the head-room when positive, and is the proposal itself when that already fits |
| RiskManagement.AdjustScenario | risk_manager.py:86-96 | a proposal of 90 against an open 80, balance 500 and risk 0.3 is cut to 70 |
| RiskManagement.RecordTotal | risk_manager.py:106-111 | recording replaces the market's old stake, if any, by the new one in the total and the count |
| RiskManagement.RemoveTotal | risk_manager.py:114-117 | removing a present market takes its stake off the total and one off the count |
| ResolutionTracking.Pnl | market_resolution_tracker.py:71-80 | a loss costs the stake; a win earns stake × (1/p − 1), so that pnl × p = stake × (1 − p), and nothing when p is not positive |
| ResolutionTracking.WinRules | market_resolution_tracker.py:57-69 | YES wins on "YES" and on numbers above 0.5; NO wins on "NO" and on numbers up to 0.5; "MKT" and "CANCEL" are losses for both |
| ResolutionTracking.OneSideWins | market_resolution_tracker.py:57-69 | on YES, NO and numeric resolutions exactly one side wins |
| ResolutionTracking.PnlScenarios | market_resolution_tracker.py:74-80 | a winning 10 at 0.25 earns 30, at 1 earns 0; a losing 10 costs 10 |
| ResolutionTracking.PnlSign | market_resolution_tracker.py:74-80 | a win at an entry probability strictly between 0 and 1 is a profit; no outcome loses more than the stake |
| ResolutionTracking.MetricsConsistent | market_resolution_tracker.py:102-132 | wins and losses partition the resolved markets, the win rate is a percentage, and the return is the profit over the stake |
| ResolutionTracking.MarketResolutionTracker.constructor | market_resolution_tracker.py:15-18 | both ledgers start empty |
| ResolutionTracking.MarketResolutionTracker.TrackPosition | market_resolution_tracker.py:20-30 | the pending entry of the market is inserted or overwritten |
| ResolutionTracking.MarketResolutionTracker.CheckResolution | market_resolution_tracker.py:32-100 | nothing changes unless the market is resolved with a truthy resolution and has a pending position; then the record with the win and the profit moves to the resolved ledger, and the pending count drops by one |
| ResolutionTracking.MarketResolutionTracker.GetPerformanceMetrics | market_resolution_tracker.py:102-132 | the count of wins and the two sums give the metrics of the resolved ledger, all zero when it is empty |
| ResolutionTracking.MarketResolutionTracker.GetPendingCount | market_resolution_tracker.py:134-136 | the number of pending positions |
| PerformanceTracking.RecentTrades | performance_tracker.py:102-104 | `trades[-n:]`: the last min(n, len) trades for positive n, every trade for n = 0, and the trades after the first −n for negative n |
| PerformanceTracking.RecentTradesSuffix | performance_tracker.py:102-104 | the recent trades are always a suffix of the log, of length n when there are enough |
| PerformanceTracking.Roi | performance_tracker.py:90 | the return × the starting balance is the profit × 100 when that balance is non-zero, else 0 |
| PerformanceTracking.PerformanceTracker.constructor | performance_tracker.py:16-27 | the log is empty and no balance is known (no history file) |
| PerformanceTracking.PerformanceTracker.RecordTrade | performance_tracker.py:56-70 | exactly one trade is appended; the balances are kept |
| PerformanceTracking.PerformanceTracker.UpdateBalance | performance_tracker.py:72-77 | the first balance becomes the starting one and stays; every balance becomes the current one |
| PerformanceTracking.PerformanceTracker.GetStatistics | performance_tracker.py:79-100 | the trade count, the sum of amounts, a win rate of 0, the balance change as profit when both balances are known, and its return |
| PerformanceTracking.PerformanceTracker.GetRecentTrades | performance_tracker.py:102-104 | the recent trades of the log |
| PerformanceTracking.InvestedGrows | performance_tracker.py:82 | recording a trade adds its amount to the total invested |
| PerformanceTracking.StatisticsScenario | performance_tracker.py:86-90 | from 1000 to 1100 is a 10% return |
| PredictionBot.CreatedBy | bot.py:99-102 | the result is a subsequence of the fetched markets holding exactly those whose username equals the target, each as often as fetched |
| PredictionBot.GetMarkets | bot.py:88-106 | a failed fetch gives no markets; otherwise only markets whose username is the target, in order, and every such market as often as it was fetched |
| PredictionBot.SecondFilterKeepsAll | bot.py:155-162 | for a non-empty target the analyzer's creator filter keeps every market the fetch returned |
| PredictionBot.Outcome | bot.py:136 | the outcome is YES exactly for the side YES, and NO otherwise |
| PredictionBot.OutcomeOfSide | bot.py:136 | every side a strategy produces reaches the venue unchanged |
| PredictionBot.DecideBet | bot.py:189-240 | a planned bet is on an unresolved market without a position, on the strategy's side, at least 1, at most what passed `can_trade` and the position limit, and recording it keeps the ledger within budget |
| PredictionBot.StepEffect | bot.py:234-250 | the books change only when a bet is planned and placed; then exactly one position, under the market's id, and one trade are added |
| PredictionBot.SkippedMarkets | bot.py:192-198 | a resolved market, or one with an open position, leaves the books as they are |
| PredictionBot.NoRecommendations | strategies.py:201-209 | when every sub-strategy declines there is no recommendation |
| PredictionBot.NoClientNoBet | bot.py:205-214 | without an LLM client the LLM-and-Kelly composite never bets |
| PredictionBot.FailureStillBets | bot.py:192-231 | when the model call fails, the classified failure answer still leads the bot to bet 75/26 on YES at market 0.35 with an empty ledger and room under the limits |
| PredictionBot.CycleKeepsBudget | bot.py:171-179 | a cycle on one balance snapshot keeps the total at risk within balance × risk and the count within the limit |
| PredictionBot.CycleOnlyAdds | bot.py:174-179 | a cycle keeps every earlier position and trade, adds positions only for processed markets, and one trade for each new position |
| PredictionBot.JudgmentalPredictionBot.constructor | bot.py:22-65 | an analyzer, the LLM and Kelly strategies with equal weights, a risk manager with the configured limits, an empty log, and a stopped bot |
| PredictionBot.JudgmentalPredictionBot.Start | bot.py:265 | the bot is running |
| PredictionBot.JudgmentalPredictionBot.Stop | bot.py:285-287 | the bot is stopped |
| PredictionBot.JudgmentalPredictionBot.ProcessMarket | bot.py:181-250 | the early-return steps leave the books as the decision says: unchanged on every skip or failed placement, one position and one trade on a placed bet |
| PredictionBot.JudgmentalPredictionBot.ProcessMarkets | bot.py:152-179 | nothing without target markets; otherwise the balance is recorded and, while running, the target markets are processed in order on that balance |
| PredictionBot.JudgmentalPredictionBot.ProcessTargets | bot.py:174-179 | while running, the books become the cycle over the target markets in order; a stopped bot changes nothing; the balances are kept |
| PredictionBot.NewBot | bot.py:29-30 | construction fails exactly when validation does, with its message |

## Left out

- Network I/O is not modelled: the HTTP client and its contract-id retry, fetching markets and the user, and placing a bet. The fetch result, the balance and the bet's success are inputs.
- `get_user_balance` is not modelled. Its value is the cycle's `balance`.
- Client initialisation of the language-model SDKs, the model-fallback list, prompt building and the `_analyze_with_*` calls are foreign SDK code. The reply, or the failure with its message and type name, is an input.
- `json.loads` is the parameter `decode`. `float()` applied to a JSON string is the parameter `floatOfText`. JSON reasoning values that are not strings are not modelled.
- `LlmAnalyzer.Lower`: lower-cases ASCII only. This is exact for the tests made with it ("quota", "rate limit"): no other character lower-cases into those letters except the Kelvin sign and the dotted capital I, and neither can complete those words.
- `MarketAnalyzer.TimeScore`: does not model the exception path of `datetime.fromtimestamp` (a score of 0.5). An out-of-range timestamp is not distinguished.
- `MarketAnalyzer.TimeScore`: `now` stands for the local wall-clock reading in seconds. The source subtracts naive local datetimes, so across a change of UTC offset (daylight saving) its remaining time differs from close time / 1000 − now by that change; offset changes are not modelled.
- The clock (`datetime.now()`) is the parameter `now`, in seconds. ISO timestamps in the logs are opaque text handed in by the caller.
- Floating point is not modelled: amounts and probabilities are exact reals, with no rounding, NaN or infinities.
- `RiskManagement.RiskManager.CanTrade`: the refusal reason is an enumeration. The formatted number inside the source's reason text is not modelled.
- Reading and writing `performance.json`, `print_summary`, the Rich display, logging, and the `.env` setup and check scripts are I/O only. The tracker starts as it does without a history file.
- `Config.from_env` is not modelled: it reads environment variables. Its defaults are those of `Configuration.DefaultConfig`.
- The asyncio run loop, `run_once`, `run_in_executor` and `sleep` are not modelled. There is no concurrency: markets are processed one after another, and `running` changes only through `Start` and `Stop`.
- The demonstration and example drivers are used only as scenario values.
