/** The sizing strategies: one closed sum type over the source's strategy
    classes, each evaluated by a pure function of (market, scores, optional
    prediction). Every variant answers with a `Recommendation` whose declining
    form is always `(false, 0.0, "NO")`. */
module Strategies {
  import opened Common
  import opened Sums
  import opened Markets
  import opened MarketAnalyzer

  datatype Recommendation = Recommendation(trade: bool, amount: real, side: Side)

  const Decline := Recommendation(false, 0.0, No)

  datatype Strategy =
    | LlmStrategy(minConfidence: real, maxBet: real)
    | MarketMakerStrategy(maxBet: real, minEdge: real)
    | KellyStrategy(maxBet: real, kellyFraction: real)
    | CompositeStrategy(strategies: seq<Strategy>, weights: seq<real>)

  /** The minimum edge of the LLM strategy (5 percentage points). */
  const LlmMinEdge: real := 0.05

  /** Kelly recommendations below this amount are declined. */
  const KellyMinBet: real := 1.0

  // ---------------------------------------------------------------------------
  // Constructors and their defaults

  function NewLlmStrategy(minConfidence: Option<real>, maxBet: Option<real>): (s: Strategy)
    ensures s.LlmStrategy?
    ensures s.minConfidence == minConfidence.GetOr(0.6) && s.maxBet == maxBet.GetOr(50.0)
  {
    LlmStrategy(minConfidence.GetOr(0.6), maxBet.GetOr(50.0))
  }

  function NewMarketMakerStrategy(maxBet: Option<real>, minEdge: Option<real>): (s: Strategy)
    ensures s.MarketMakerStrategy?
    ensures s.maxBet == maxBet.GetOr(50.0) && s.minEdge == minEdge.GetOr(0.1)
  {
    MarketMakerStrategy(maxBet.GetOr(50.0), minEdge.GetOr(0.1))
  }

  function NewKellyStrategy(maxBet: Option<real>, kellyFraction: Option<real>): (s: Strategy)
    ensures s.KellyStrategy?
    ensures s.maxBet == maxBet.GetOr(50.0) && s.kellyFraction == kellyFraction.GetOr(0.25)
  {
    KellyStrategy(maxBet.GetOr(50.0), kellyFraction.GetOr(0.25))
  }

  datatype ConstructionError = ZeroDivision

  /** `weights or [1.0 / n] * n`: absent or empty weights are replaced by equal
      weights, which divides by zero when there are no strategies. */
  function NewCompositeStrategy(strategies: seq<Strategy>, weights: Option<seq<real>>)
    : (r: Result<Strategy, ConstructionError>)
    ensures r.Err? <==> (weights.None? || weights.value == []) && strategies == []
    ensures weights.Some? && weights.value != [] ==>
              r == Ok(CompositeStrategy(strategies, weights.value))
    ensures r.Ok? && (weights.None? || weights.value == []) ==>
              r.value.CompositeStrategy? && r.value.strategies == strategies &&
              |r.value.weights| == |strategies| &&
              forall i :: 0 <= i < |strategies| ==> r.value.weights[i] * |strategies| as real == 1.0
  {
    if weights.Some? && weights.value != [] then Ok(CompositeStrategy(strategies, weights.value))
    else if |strategies| == 0 then Err(ZeroDivision)
    else Ok(CompositeStrategy(strategies, EqualWeights(|strategies|)))
  }

  function EqualWeights(n: nat): (w: seq<real>)
    requires n > 0
    ensures |w| == n
  {
    seq(n, _ => 1.0 / n as real)
  }

  /** The default weights add up to one. */
  lemma EqualWeightsSumToOne(n: nat)
    requires n > 0
    ensures SumSeq(EqualWeights(n), x => x) == 1.0
  {
    var w := EqualWeights(n);
    var c := 1.0 / n as real;
    assert forall i :: 0 <= i < |w| ==> w[i] == c;
    SumSeqEqualElements(w, c);
  }

  lemma {:induction false} SumSeqEqualElements(w: seq<real>, c: real)
    requires forall i :: 0 <= i < |w| ==> w[i] == c
    ensures SumSeq(w, x => x) == |w| as real * c
    decreases |w|
  {
    if |w| != 0 {
      SumSeqEqualElements(w[..|w| - 1], c);
    }
  }

  // ---------------------------------------------------------------------------
  // The LLM strategy

  /** Trade only with a prediction whose confidence reaches the threshold and
      whose probability is at least 5 points from the market's. */
  function LlmDecision(minConfidence: real, maxBet: real, marketProb: real, prediction: Option<Prediction>)
    : (r: Recommendation)
    ensures !r.trade ==> r == Decline
    ensures r.trade <==>
              prediction.Some? && prediction.value.confidence >= minConfidence &&
              Abs(prediction.value.probability - marketProb) >= LlmMinEdge
    ensures r.trade ==> (r.side == Yes <==> prediction.value.probability > marketProb)
    ensures r.trade ==> r.amount <= maxBet
    ensures r.trade ==> r.amount == Min(maxBet, Abs(prediction.value.probability - marketProb)
                                                  * prediction.value.confidence * 100.0)
  {
    match prediction
    case None => Decline
    case Some(Prediction(p, confidence, _)) =>
      if confidence < minConfidence then Decline
      else
        var edge := Abs(p - marketProb);
        if edge < LlmMinEdge then Decline
        else
          var side := if p > marketProb then Yes else No;
          Recommendation(true, Min(maxBet, edge * confidence * 100.0), side)
  }

  // ---------------------------------------------------------------------------
  // The market-maker strategy

  /** The prediction's probability, or the overall score when there is none. */
  function FairProbability(analysis: Scores, prediction: Option<Prediction>): real {
    if prediction.Some? then prediction.value.probability else analysis.overall
  }

  function MarketMakerDecision(maxBet: real, minEdge: real, marketProb: real, analysis: Scores,
                               prediction: Option<Prediction>): (r: Recommendation)
    ensures !r.trade ==> r == Decline
    ensures r.trade <==> Abs(FairProbability(analysis, prediction) - marketProb) >= minEdge
    ensures r.trade ==> (r.side == Yes <==> FairProbability(analysis, prediction) > marketProb)
    ensures r.trade ==> r.amount == Min(maxBet, Abs(FairProbability(analysis, prediction) - marketProb) * 200.0)
  {
    var fair := FairProbability(analysis, prediction);
    var edge := Abs(fair - marketProb);
    if edge < minEdge then Decline
    else
      var side := if fair > marketProb then Yes else No;
      Recommendation(true, Min(maxBet, edge * 200.0), side)
  }

  // ---------------------------------------------------------------------------
  // The Kelly strategy

  /** The edge of betting `side` at market probability `q` with forecast `p`,
      reframed onto that side. */
  function SideEdge(side: Side, p: real, q: real): real {
    match side
    case Yes => p - q
    case No => (1.0 - p) - (1.0 - q)
  }

  /** `edge / (1 - q)` for the side's own market probability `q`, and 0 when
      `q` is not below one. */
  function KellyBet(edge: real, q: real): (k: real)
    ensures edge > 0.0 && q < 1.0 ==> k > 0.0
  {
    if q < 1.0 then
      QuotientSign(edge, 1.0 - q);
      edge / (1.0 - q)
    else 0.0
  }

  lemma QuotientSign(a: real, b: real)
    requires b > 0.0
    ensures a > 0.0 ==> a / b > 0.0
  {
  }

  /** The Kelly strategy bets on the side its forecast favours exactly when
      that side's edge is positive and the capped fractional Kelly amount
      reaches the minimum bet; the bet is that amount. */
  function KellyDecision(maxBet: real, kellyFraction: real, marketProb: real, prediction: Option<Prediction>)
    : (r: Recommendation)
    ensures !r.trade ==> r == Decline
    ensures prediction.Some? ==>
              var p := prediction.value.probability;
              var side := if p > marketProb then Yes else No;
              var q := if side == Yes then marketProb else 1.0 - marketProb;
              var edge := SideEdge(side, p, marketProb);
              var amount := Min(maxBet, KellyBet(edge, q) * kellyFraction * 100.0);
              (r.trade <==> edge > 0.0 && amount >= KellyMinBet)
              && (r.trade ==> r.side == side && r.amount == amount)
    ensures prediction.None? ==> !r.trade
    ensures prediction.Some? && prediction.value.probability == marketProb ==> !r.trade
    ensures r.trade ==> KellyMinBet <= r.amount <= maxBet
    ensures r.trade ==> (r.side == Yes <==> prediction.value.probability > marketProb)
    ensures r.trade ==> SideEdge(r.side, prediction.value.probability, marketProb) > 0.0
  {
    match prediction
    case None => Decline
    case Some(Prediction(llmProb, _, _)) =>
      var side := if llmProb > marketProb then Yes else No;
      var p := if side == Yes then llmProb else 1.0 - llmProb;
      var q := if side == Yes then marketProb else 1.0 - marketProb;
      var edge := p - q;
      assert edge == SideEdge(side, llmProb, marketProb);
      if edge <= 0.0 then Decline
      else
        var amount := Min(maxBet, KellyBet(edge, q) * kellyFraction * 100.0);
        if amount < KellyMinBet then Decline
        else Recommendation(true, amount, side)
  }

  // ---------------------------------------------------------------------------
  // The composite strategy and the single entry point

  /** Only recommendations that trade contribute, as `(amount * weight, side)`:
      one entry for each trading result (see `RecommendationEntries`). */
  function Recommendations(results: seq<(Recommendation, real)>): (recs: seq<(real, Side)>)
    ensures |recs| == TradingCount(results) <= |results|
  {
    if |results| == 0 then []
    else Recommendations(results[..|results| - 1]) + Weighted(results[|results| - 1])
  }

  /** One more result extends the recommendations by its weighted entry,
      when it trades. */
  lemma RecommendationsStep(results: seq<(Recommendation, real)>, i: nat, rec: Recommendation, w: real)
    requires i < |results| && results[i] == (rec, w)
    ensures Recommendations(results[..i + 1]) ==
            Recommendations(results[..i]) + (if rec.trade then [(rec.amount * w, rec.side)] else [])
  {
    assert results[..i + 1] == results[..i] + [(rec, w)];
    RecommendationsSnoc(results[..i], (rec, w));
    WeightedPair(rec, w);
  }

  /** The number of results that trade. */
  function TradingCount(results: seq<(Recommendation, real)>): (n: nat)
    ensures n <= |results|
  {
    if |results| == 0 then 0
    else TradingCount(results[..|results| - 1]) + (if results[|results| - 1].0.trade then 1 else 0)
  }

  /** The trading result at position `i` supplies the entry after those of
      the trading results before it, so the entries keep the results' order. */
  lemma RecommendationEntries(results: seq<(Recommendation, real)>)
    ensures forall i :: 0 <= i < |results| && results[i].0.trade ==>
              TradingCount(results[..i]) < |Recommendations(results)|
              && Recommendations(results)[TradingCount(results[..i])] == (results[i].0.amount * results[i].1, results[i].0.side)
  {
    forall i | 0 <= i < |results| && results[i].0.trade
      ensures TradingCount(results[..i]) < |Recommendations(results)|
      ensures Recommendations(results)[TradingCount(results[..i])] == (results[i].0.amount * results[i].1, results[i].0.side)
    {
      RecommendationEntry(results, i);
    }
  }

  lemma {:induction false} RecommendationEntry(results: seq<(Recommendation, real)>, i: nat)
    requires i < |results| && results[i].0.trade
    ensures TradingCount(results[..i]) < |Recommendations(results)|
    ensures Recommendations(results)[TradingCount(results[..i])] == (results[i].0.amount * results[i].1, results[i].0.side)
  {
    var pre := results[..|results| - 1];
    if i < |pre| {
      assert results[..i] == pre[..i] && results[i] == pre[i];
      RecommendationEntry(pre, i);
      var k := TradingCount(results[..i]);
      var e := (results[i].0.amount * results[i].1, results[i].0.side);
      EarlierEntry(results, k);
      assert Recommendations(results)[k].0 == e.0 && Recommendations(results)[k].1 == e.1;
    } else {
      assert results[..i] == pre;
      LastEntry(results);
      var k := TradingCount(pre);
      var e := (results[i].0.amount * results[i].1, results[i].0.side);
      assert Recommendations(results)[k].0 == e.0 && Recommendations(results)[k].1 == e.1;
    }
  }

  /** Dropping the last result keeps the entries before it. */
  lemma EarlierEntry(results: seq<(Recommendation, real)>, k: nat)
    requires |results| > 0 && k < |Recommendations(results[..|results| - 1])|
    ensures k < |Recommendations(results)|
    ensures Recommendations(results)[k] == Recommendations(results[..|results| - 1])[k]
  {
  }

  /** A trading last result supplies the last entry. */
  lemma LastEntry(results: seq<(Recommendation, real)>)
    requires |results| > 0 && results[|results| - 1].0.trade
    ensures TradingCount(results[..|results| - 1]) < |Recommendations(results)|
    ensures Recommendations(results)[TradingCount(results[..|results| - 1])] ==
            (results[|results| - 1].0.amount * results[|results| - 1].1, results[|results| - 1].0.side)
  {
    var k := TradingCount(results[..|results| - 1]);
    var e := (results[|results| - 1].0.amount * results[|results| - 1].1, results[|results| - 1].0.side);
    assert Recommendations(results) == Recommendations(results[..|results| - 1]) + Weighted(results[|results| - 1]);
    assert Recommendations(results)[k] == Weighted(results[|results| - 1])[0];
    assert Recommendations(results)[k].0 == e.0 && Recommendations(results)[k].1 == e.1;
  }

  function Weighted(x: (Recommendation, real)): seq<(real, Side)> {
    if x.0.trade then [(x.0.amount * x.1, x.0.side)] else []
  }

  /** `Weighted` on an explicit pair, in the form the loop appends. */
  lemma WeightedPair(rec: Recommendation, w: real)
    ensures rec.trade ==> Weighted((rec, w)) == [(rec.amount * w, rec.side)]
    ensures !rec.trade ==> Weighted((rec, w)) == []
  {
    if rec.trade {
      var e := (rec.amount * w, rec.side);
      var x := Weighted((rec, w))[0];
      assert x.0 == e.0 && x.1 == e.1;
    }
  }

  lemma RecommendationsSnoc(results: seq<(Recommendation, real)>, x: (Recommendation, real))
    ensures Recommendations(results + [x]) == Recommendations(results) + Weighted(x)
  {
    assert (results + [x])[..|results|] == results;
  }

  /** The weighted total recommended for one side. */
  function SideTotal(recs: seq<(real, Side)>, side: Side): real {
    SumSeq(recs, (r: (real, Side)) => if r.1 == side then r.0 else 0.0)
  }

  /** The strictly larger side wins with its total; a tie, including the empty
      case, declines. */
  function Aggregate(recs: seq<(real, Side)>): (r: Recommendation)
    ensures !r.trade ==> r == Decline
    ensures r.trade <==> SideTotal(recs, Yes) != SideTotal(recs, No)
    ensures r.trade ==> r.amount == SideTotal(recs, r.side)
    ensures r.trade && r.side == Yes ==> SideTotal(recs, Yes) > SideTotal(recs, No)
    ensures r.trade && r.side == No ==> SideTotal(recs, No) > SideTotal(recs, Yes)
  {
    if |recs| == 0 then
      assert SideTotal(recs, Yes) == 0.0 == SideTotal(recs, No);
      Decline
    else
      var yesBets := SideTotal(recs, Yes);
      var noBets := SideTotal(recs, No);
      if yesBets > noBets then Recommendation(true, yesBets, Yes)
      else if noBets > yesBets then Recommendation(true, noBets, No)
      else Decline
  }

  /** `zip(strategies, weights)` stops at the shorter list. */
  function ZipLength(strategies: seq<Strategy>, weights: seq<real>): nat {
    if |strategies| <= |weights| then |strategies| else |weights|
  }

  function ShouldTrade(s: Strategy, market: Market, analysis: Scores, prediction: Option<Prediction>)
    : (r: Recommendation)
    ensures !r.trade ==> r == Decline
    decreases s, 1
  {
    var marketProb := ProbabilityOrDefault(market);
    match s
    case LlmStrategy(minConfidence, maxBet) => LlmDecision(minConfidence, maxBet, marketProb, prediction)
    case MarketMakerStrategy(maxBet, minEdge) => MarketMakerDecision(maxBet, minEdge, marketProb, analysis, prediction)
    case KellyStrategy(maxBet, kellyFraction) => KellyDecision(maxBet, kellyFraction, marketProb, prediction)
    case CompositeStrategy(_, _) => CompositeDecision(s, market, analysis, prediction)
  }

  /** Every sub-strategy, paired with its weight, is asked with the same inputs. */
  function CompositeDecision(s: Strategy, market: Market, analysis: Scores, prediction: Option<Prediction>)
    : (r: Recommendation)
    requires s.CompositeStrategy?
    ensures !r.trade ==> r == Decline
    decreases s, 0
  {
    var n := ZipLength(s.strategies, s.weights);
    var results := seq(n, i requires 0 <= i < n =>
                         (ShouldTrade(s.strategies[i], market, analysis, prediction), s.weights[i]));
    Aggregate(Recommendations(results))
  }

  /** `CompositeStrategy.should_trade`: the trading sub-recommendations are
      collected, then the per-side sums decide. */
  method CompositeShouldTrade(strategies: seq<Strategy>, weights: seq<real>, market: Market,
                              analysis: Scores, prediction: Option<Prediction>)
    returns (trade: bool, amount: real, side: Side)
    ensures Recommendation(trade, amount, side) ==
            CompositeDecision(CompositeStrategy(strategies, weights), market, analysis, prediction)
  {
    ghost var c := CompositeStrategy(strategies, weights);
    ghost var n := ZipLength(c.strategies, c.weights);
    ghost var results := seq(n, i requires 0 <= i < n =>
                               (ShouldTrade(c.strategies[i], market, analysis, prediction), c.weights[i]));
    var recommendations := CollectRecommendations(strategies, weights, market, analysis, prediction, results);
    assert CompositeDecision(c, market, analysis, prediction) == Aggregate(recommendations);
    if |recommendations| == 0 {
      return false, 0.0, No;
    }
    var yesBets := SideTotal(recommendations, Yes);
    var noBets := SideTotal(recommendations, No);
    if yesBets > noBets {
      return true, yesBets, Yes;
    } else if noBets > yesBets {
      return true, noBets, No;
    } else {
      return false, 0.0, No;
    }
  }

  /** The loop over `zip(self.strategies, self.weights)` that keeps each
      trading recommendation as its weighted amount and side; `results` are
      the sub-strategies' answers paired with their weights. */
  method CollectRecommendations(strategies: seq<Strategy>, weights: seq<real>, market: Market,
                                analysis: Scores, prediction: Option<Prediction>,
                                ghost results: seq<(Recommendation, real)>)
    returns (recommendations: seq<(real, Side)>)
    requires |results| == ZipLength(strategies, weights)
    requires forall i :: 0 <= i < |results| ==>
               results[i] == (ShouldTrade(strategies[i], market, analysis, prediction), weights[i])
    ensures recommendations == Recommendations(results)
  {
    var n := ZipLength(strategies, weights);
    recommendations := [];
    var i := 0;
    while i < n
      invariant 0 <= i <= n
      invariant recommendations == Recommendations(results[..i])
    {
      var rec := ShouldTrade(strategies[i], market, analysis, prediction);
      var weight := weights[i];
      RecommendationsStep(results, i, rec, weight);
      if rec.trade {
        recommendations := recommendations + [(rec.amount * weight, rec.side)];
      }
      i := i + 1;
    }
    assert results[..n] == results;
  }

  /** The pairs `zip(strategies, weights)` produces. */
  function Zip(strategies: seq<Strategy>, weights: seq<real>): (z: seq<(Strategy, real)>)
    ensures |z| == ZipLength(strategies, weights)
    ensures forall i :: 0 <= i < |z| ==> z[i] == (strategies[i], weights[i])
  {
    var n := ZipLength(strategies, weights);
    seq(n, i requires 0 <= i < n => (strategies[i], weights[i]))
  }

  /** What one (strategy, weight) pair adds to `side`'s total, when each
      strategy is evaluated by `eval`. */
  function PairContribution(side: Side, eval: Strategy -> Recommendation): ((Strategy, real)) -> real {
    (pair: (Strategy, real)) =>
      var rec := eval(pair.0);
      if rec.trade && rec.side == side then rec.amount * pair.1 else 0.0
  }

  /** A side's total is the sum, over the pairs, of what each contributes. */
  lemma {:induction false} SideTotalOfPairs(results: seq<(Recommendation, real)>, z: seq<(Strategy, real)>,
                                            side: Side, eval: Strategy -> Recommendation)
    requires |results| == |z|
    requires forall i :: 0 <= i < |z| ==> results[i] == (eval(z[i].0), z[i].1)
    ensures SideTotal(Recommendations(results), side) == SumSeq(z, PairContribution(side, eval))
    decreases |z|
  {
    if |z| != 0 {
      var k := |z| - 1;
      var pre, zpre := results[..k], z[..k];
      var f := (r: (real, Side)) => if r.1 == side then r.0 else 0.0;
      assert results == pre + [results[k]];
      RecommendationsSnoc(pre, results[k]);
      SideTotalOfPairs(pre, zpre, side, eval);
      SumSeqAppend(Recommendations(pre), Weighted(results[k]), f);
      WeightedContribution(results[k], z[k], side, eval);
    }
  }

  /** What one result adds to a side's total is its pair's contribution. */
  lemma WeightedContribution(x: (Recommendation, real), pair: (Strategy, real), side: Side,
                             eval: Strategy -> Recommendation)
    requires x == (eval(pair.0), pair.1)
    ensures SideTotal(Weighted(x), side) == PairContribution(side, eval)(pair)
  {
    var tail := Weighted(x);
    var rec := eval(pair.0);
    assert rec == x.0 && pair.1 == x.1;
    WeightedPair(x.0, x.1);
    if x.0.trade {
      var f := (r: (real, Side)) => if r.1 == side then r.0 else 0.0;
      assert tail == [tail[0]];
      SumSeqSingle(tail[0], f);
      assert tail[0].0 == rec.amount * pair.1 && tail[0].1 == rec.side;
    } else {
      assert tail == [];
    }
  }

  /** The composite decision depends only on the multiset of (strategy, weight)
      pairs: permuting them, together, changes nothing. */
  lemma CompositePermutationInvariant(s1: seq<Strategy>, w1: seq<real>, s2: seq<Strategy>, w2: seq<real>,
                                      market: Market, analysis: Scores, prediction: Option<Prediction>)
    requires multiset(Zip(s1, w1)) == multiset(Zip(s2, w2))
    ensures ShouldTrade(CompositeStrategy(s1, w1), market, analysis, prediction) ==
            ShouldTrade(CompositeStrategy(s2, w2), market, analysis, prediction)
  {
    var eval := (c: Strategy) => ShouldTrade(c, market, analysis, prediction);
    var n1, n2 := ZipLength(s1, w1), ZipLength(s2, w2);
    var results1 := seq(n1, i requires 0 <= i < n1 => (ShouldTrade(s1[i], market, analysis, prediction), w1[i]));
    var results2 := seq(n2, i requires 0 <= i < n2 => (ShouldTrade(s2[i], market, analysis, prediction), w2[i]));
    forall side: Side
      ensures SideTotal(Recommendations(results1), side) == SideTotal(Recommendations(results2), side)
    {
      SideTotalOfPairs(results1, Zip(s1, w1), side, eval);
      SideTotalOfPairs(results2, Zip(s2, w2), side, eval);
      SumSeqPermutation(Zip(s1, w1), Zip(s2, w2), PairContribution(side, eval));
    }
  }

  /** A side's total over two recommendations. */
  lemma SideTotalOfTwo(recs: seq<(real, Side)>, side: Side)
    requires |recs| == 2
    ensures SideTotal(recs, side) == (if recs[0].1 == side then recs[0].0 else 0.0)
                                     + (if recs[1].1 == side then recs[1].0 else 0.0)
  {
    var f := (r: (real, Side)) => if r.1 == side then r.0 else 0.0;
    var first := recs[..1];
    assert first[..0] == [];
    assert SumSeq(first, f) == f(recs[0]);
    assert SumSeq(recs, f) == SumSeq(first, f) + f(recs[1]);
  }

  // ---------------------------------------------------------------------------
  // The demonstration market: probability 0.35, prediction (0.65, 0.75)

  const DemoPrediction := Prediction(0.65, 0.75, "Market appears undervalued based on current trends")

  lemma LlmDemo()
    ensures LlmDecision(0.6, 50.0, 0.35, Some(DemoPrediction)) == Recommendation(true, 22.5, Yes)
  {
  }

  /** Kelly: edge 0.3 at q = 0.35 gives 0.3 / 0.65 * 0.25 * 100 = 150/13. */
  lemma KellyDemo()
    ensures KellyDecision(50.0, 0.25, 0.35, Some(DemoPrediction)) == Recommendation(true, 150.0 / 13.0, Yes)
  {
  }

  /** The bot's composite of the LLM and Kelly strategies with equal weights
      bets YES with half of each: 11.25 + 75/13 = 885/52. */
  lemma CompositeDemo(market: Market, analysis: Scores)
    requires market.probability == Some(0.35)
    ensures ShouldTrade(CompositeStrategy([LlmStrategy(0.6, 50.0), KellyStrategy(50.0, 0.25)], EqualWeights(2)),
                        market, analysis, Some(DemoPrediction))
            == Recommendation(true, 885.0 / 52.0, Yes)
  {
    var c := CompositeStrategy([LlmStrategy(0.6, 50.0), KellyStrategy(50.0, 0.25)], EqualWeights(2));
    var prediction := Some(DemoPrediction);
    LlmDemo();
    KellyDemo();
    assert EqualWeights(2)[0] == 0.5 && EqualWeights(2)[1] == 0.5;
    var results := seq(2, i requires 0 <= i < 2 =>
                         (ShouldTrade(c.strategies[i], market, analysis, prediction), c.weights[i]));
    assert results[0] == (Recommendation(true, 22.5, Yes), 0.5);
    assert results[1] == (Recommendation(true, 150.0 / 13.0, Yes), 0.5);
    var first := results[..1];
    assert first[..0] == [];
    assert results[..|results| - 1] == first;
    WeightedPair(results[0].0, 0.5);
    WeightedPair(results[1].0, 0.5);
    var recs := Recommendations(results);
    assert Recommendations(first) == Weighted(results[0]);
    assert recs == Weighted(results[0]) + Weighted(results[1]);
    assert |recs| == 2;
    assert recs[0].0 == 11.25 && recs[0].1 == Yes;
    assert recs[1].0 == 75.0 / 13.0 && recs[1].1 == Yes;
    SideTotalOfTwo(recs, Yes);
    SideTotalOfTwo(recs, No);
  }

  /** A failed model call is answered with probability 0.5 and confidence 0.
      The LLM strategy declines it, but Kelly ignores the confidence: edge
      0.15 at q = 0.35 gives 0.15 / 0.65 * 0.25 * 100 = 75/13, half of which
      is the composite's bet on YES. */
  lemma FailureCompositeDemo(market: Market, analysis: Scores, reasoning: string)
    requires market.probability == Some(0.35)
    ensures ShouldTrade(CompositeStrategy([LlmStrategy(0.6, 50.0), KellyStrategy(50.0, 0.25)], EqualWeights(2)),
                        market, analysis, Some(Prediction(0.5, 0.0, reasoning)))
            == Recommendation(true, 75.0 / 26.0, Yes)
  {
    var c := CompositeStrategy([LlmStrategy(0.6, 50.0), KellyStrategy(50.0, 0.25)], EqualWeights(2));
    var prediction := Some(Prediction(0.5, 0.0, reasoning));
    assert LlmDecision(0.6, 50.0, 0.35, prediction) == Decline;
    assert KellyDecision(50.0, 0.25, 0.35, prediction) == Recommendation(true, 75.0 / 13.0, Yes);
    assert EqualWeights(2)[0] == 0.5 && EqualWeights(2)[1] == 0.5;
    var results := seq(2, i requires 0 <= i < 2 =>
                         (ShouldTrade(c.strategies[i], market, analysis, prediction), c.weights[i]));
    assert results[0] == (Decline, 0.5);
    assert results[1] == (Recommendation(true, 75.0 / 13.0, Yes), 0.5);
    var first := results[..1];
    assert first[..0] == [];
    assert results[..|results| - 1] == first;
    WeightedPair(results[0].0, 0.5);
    WeightedPair(results[1].0, 0.5);
    var recs := Recommendations(results);
    assert Recommendations(first) == [];
    assert recs == Weighted(results[1]);
    assert |recs| == 1;
    assert recs[0].0 == 75.0 / 26.0 && recs[0].1 == Yes;
    SideTotalOfOne(recs, Yes);
    SideTotalOfOne(recs, No);
  }

  lemma SideTotalOfOne(recs: seq<(real, Side)>, side: Side)
    requires |recs| == 1
    ensures SideTotal(recs, side) == (if recs[0].1 == side then recs[0].0 else 0.0)
  {
    var f := (r: (real, Side)) => if r.1 == side then r.0 else 0.0;
    assert recs[..0] == [];
    assert SumSeq(recs, f) == SumSeq(recs[..0], f) + f(recs[0]);
  }
}
