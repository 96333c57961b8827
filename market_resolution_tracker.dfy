/** Positions waiting for their market to resolve, the move of a position to
    the resolved ledger with its profit or loss, and the metrics over what has
    resolved. Clock readings (`entryTime`, `resolvedAt`) are opaque texts
    handed in by the caller. */
module ResolutionTracking {
  import opened Common
  import opened Sums
  import opened Markets

  datatype PendingPosition = PendingPosition(
    side: Side,
    amount: real,
    entryProb: real,
    marketQuestion: string,
    entryTime: string)

  datatype ResolutionRecord = ResolutionRecord(
    marketId: string,
    marketQuestion: string,
    side: Side,
    amount: real,
    entryProb: real,
    resolution: Resolution,
    won: bool,
    pnl: real,
    resolvedAt: string)

  /** A side wins on its own label, or on a numeric resolution above 0.5
      (YES) or at most 0.5 (NO); every other resolution loses. */
  predicate Won(side: Side, resolution: Resolution) {
    match resolution
    case Label(text) => (text == "YES" && side == Yes) || (text == "NO" && side == No)
    case Numeric(v) => (side == Yes && v > 0.5) || (side == No && v <= 0.5)
    case Unresolved => false
  }

  /** A win pays the stake times the odds `1/entryProb - 1` (nothing when the
      entry probability is not positive); a loss costs the stake. */
  function Pnl(won: bool, amount: real, entryProb: real): (pnl: real)
    ensures !won ==> pnl == -amount
    ensures won && entryProb <= 0.0 ==> pnl == 0.0
    ensures won && entryProb > 0.0 ==> pnl * entryProb == amount * (1.0 - entryProb)
  {
    if won then (if entryProb > 0.0 then amount * (1.0 / entryProb - 1.0) else 0.0)
    else -amount
  }

  lemma WinRules()
    ensures Won(Yes, Label("YES")) && Won(No, Label("NO"))
    ensures !Won(Yes, Label("NO")) && !Won(No, Label("YES"))
    ensures !Won(Yes, Label("MKT")) && !Won(No, Label("MKT"))
    ensures !Won(Yes, Label("CANCEL")) && !Won(No, Label("CANCEL"))
    ensures Won(Yes, Numeric(0.75)) && !Won(No, Numeric(0.75))
    ensures !Won(Yes, Numeric(0.5)) && Won(No, Numeric(0.5))
  {
  }

  /** On every resolution exactly one side wins, except on labels other
      than "YES" and "NO", where both lose. */
  lemma OneSideWins(resolution: Resolution)
    requires resolution.Numeric? || resolution == Label("YES") || resolution == Label("NO")
    ensures Won(Yes, resolution) != Won(No, resolution)
  {
  }

  /** A winning stake of 10 at entry probability 0.25 earns 30; at
      probability 1 it earns nothing. */
  lemma PnlScenarios()
    ensures Pnl(true, 10.0, 0.25) == 30.0
    ensures Pnl(true, 10.0, 1.0) == 0.0
    ensures Pnl(false, 10.0, 0.25) == -10.0
  {
  }

  /** A win with a positive entry probability below 1 is a profit for a
      positive stake, and a loss never costs more than the stake. */
  lemma PnlSign(won: bool, amount: real, entryProb: real)
    requires amount > 0.0
    ensures won && 0.0 < entryProb < 1.0 ==> Pnl(won, amount, entryProb) > 0.0
    ensures Pnl(won, amount, entryProb) >= -amount
  {
    if won && entryProb > 0.0 {
      var pnl := Pnl(won, amount, entryProb);
      assert pnl * entryProb == amount * (1.0 - entryProb);
      if entryProb < 1.0 {
        assert amount * (1.0 - entryProb) > 0.0;
      }
      assert (pnl + amount) * entryProb == amount;
    }
  }

  datatype Metrics = Metrics(
    totalResolved: nat,
    wins: nat,
    losses: int,
    winRate: real,
    totalPnl: real,
    totalInvested: real,
    roi: real)

  predicate IsWin(r: ResolutionRecord) {
    r.won
  }

  function PnlOf(r: ResolutionRecord): real {
    r.pnl
  }

  function StakeOf(r: ResolutionRecord): real {
    r.amount
  }

  /** The metrics over the resolved ledger; all zeros when it is empty. */
  ghost function MetricsOf(resolved: map<string, ResolutionRecord>): Metrics {
    if |resolved| == 0 then Metrics(0, 0, 0, 0.0, 0.0, 0.0, 0.0)
    else
      var wins := Count(resolved, IsWin);
      var totalPnl := Sum(resolved, PnlOf);
      var totalInvested := Sum(resolved, StakeOf);
      Metrics(|resolved|, wins, |resolved| - wins, wins as real / |resolved| as real * 100.0,
              totalPnl, totalInvested,
              if totalInvested > 0.0 then totalPnl / totalInvested * 100.0 else 0.0)
  }

  /** Wins and losses partition the resolved markets; the win rate is a
      percentage; the return is relative to what was staked. */
  lemma MetricsConsistent(resolved: map<string, ResolutionRecord>)
    ensures var m := MetricsOf(resolved);
      m.totalResolved == |resolved| && m.wins + m.losses == m.totalResolved
      && m.losses >= 0 && 0.0 <= m.winRate <= 100.0
      && (m.totalInvested > 0.0 ==> m.roi * m.totalInvested == m.totalPnl * 100.0)
      && (m.totalInvested <= 0.0 ==> m.roi == 0.0)
  {
    if |resolved| != 0 {
      CountAtMostSize(resolved, IsWin);
      var m := MetricsOf(resolved);
      var n := |resolved| as real;
      assert m.wins as real <= n;
      assert m.wins as real / n <= 1.0;
    }
  }

  class MarketResolutionTracker {
    var resolvedMarkets: map<string, ResolutionRecord>
    var pendingPositions: map<string, PendingPosition>

    constructor()
      ensures resolvedMarkets == map[] && pendingPositions == map[]
    {
      resolvedMarkets := map[];
      pendingPositions := map[];
    }

    /** Inserts or overwrites the pending entry of `marketId`. */
    method TrackPosition(marketId: string, side: Side, amount: real, entryProb: real,
                         marketQuestion: string, entryTime: string)
      modifies this
      ensures pendingPositions == old(pendingPositions)[marketId := PendingPosition(side, amount, entryProb, marketQuestion, entryTime)]
      ensures resolvedMarkets == old(resolvedMarkets)
    {
      pendingPositions := pendingPositions[marketId := PendingPosition(side, amount, entryProb, marketQuestion, entryTime)];
    }

    /** Nothing happens unless the market is resolved with a truthy resolution
      and has a pending position; then the entry moves to the resolved ledger
      under the same key, with the win and the profit or loss. */
    method CheckResolution(market: Market, resolvedAt: string) returns (result: Option<ResolutionRecord>)
      modifies this
      ensures !market.isResolved || !TruthyResolution(market.resolution) || market.id !in old(pendingPositions) ==>
                result.None? && pendingPositions == old(pendingPositions) && resolvedMarkets == old(resolvedMarkets)
      ensures market.isResolved && TruthyResolution(market.resolution) && market.id in old(pendingPositions) ==>
                var p := old(pendingPositions)[market.id];
                var won := Won(p.side, market.resolution);
                result == Some(ResolutionRecord(market.id, p.marketQuestion, p.side, p.amount, p.entryProb,
                                                market.resolution, won, Pnl(won, p.amount, p.entryProb), resolvedAt))
                && pendingPositions == old(pendingPositions) - {market.id}
                && |pendingPositions| == |old(pendingPositions)| - 1
                && resolvedMarkets == old(resolvedMarkets)[market.id := result.value]
    {
      var marketId := market.id;
      if !market.isResolved || !TruthyResolution(market.resolution) {
        return None;
      }
      if marketId !in pendingPositions {
        return None;
      }
      var position := pendingPositions[marketId];
      var won := false;
      match market.resolution {
        case Label(text) =>
          if text == "YES" && position.side == Yes {
            won := true;
          } else if text == "NO" && position.side == No {
            won := true;
          }
        case Numeric(v) =>
          if position.side == Yes && v > 0.5 {
            won := true;
          } else if position.side == No && v <= 0.5 {
            won := true;
          }
        case Unresolved =>
      }
      assert won == Won(position.side, market.resolution);
      var pnl;
      if won {
        pnl := if position.entryProb > 0.0 then position.amount * (1.0 / position.entryProb - 1.0) else 0.0;
      } else {
        pnl := -position.amount;
      }
      assert pnl == Pnl(won, position.amount, position.entryProb);
      var record := ResolutionRecord(marketId, position.marketQuestion, position.side, position.amount,
                                     position.entryProb, market.resolution, won, pnl, resolvedAt);
      resolvedMarkets := resolvedMarkets[marketId := record];
      pendingPositions := pendingPositions - {marketId};
      return Some(record);
    }

    method GetPerformanceMetrics() returns (metrics: Metrics)
      ensures metrics == MetricsOf(resolvedMarkets)
    {
      if |resolvedMarkets| == 0 {
        return Metrics(0, 0, 0, 0.0, 0.0, 0.0, 0.0);
      }
      var wins := CountValues(resolvedMarkets, IsWin);
      var totalPnl := SumValues(resolvedMarkets, PnlOf);
      var totalInvested := SumValues(resolvedMarkets, StakeOf);
      var total := |resolvedMarkets|;
      var winRate := wins as real / total as real * 100.0;
      var roi := if totalInvested > 0.0 then totalPnl / totalInvested * 100.0 else 0.0;
      metrics := Metrics(total, wins, total - wins, winRate, totalPnl, totalInvested, roi);
    }

    function GetPendingCount(): (n: nat)
      reads this
      ensures n == |pendingPositions|
    {
      |pendingPositions|
    }
  }
}
