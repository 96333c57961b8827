/** The risk ledger: open positions keyed by market id, the admission gate
    for a new bet, the clamp that fits a bet inside the limits, and the
    bookkeeping that inserts and deletes positions.

    The gate and the clamp are specified by functions of the limits, the
    ledger and the inputs (`Gate`, `Adjusted`); the `RiskManager` class holds
    the ledger and its methods are proved equal to those functions. */
module RiskManagement {
  import opened Common
  import opened Sums

  /** One open position: the stake, its side and the market probability at entry. */
  datatype Position = Position(amount: real, side: Side, marketProb: real)

  datatype Limits = Limits(maxPositionSize: real, maxPortfolioRisk: real, maxMarketsOpen: int)

  /** Why `can_trade` refuses a bet. */
  datatype DenyReason =
    | AlreadyHavePosition
    | ExceedsMaxPositionSize
    | ExceedsPortfolioRisk
    | AtMaxOpenPositions

  function AmountOf(p: Position): real {
    p.amount
  }

  /** The sum of the open stakes. */
  ghost function TotalAtRisk(positions: map<string, Position>): real {
    Sum(positions, AmountOf)
  }

  /** The checks of `can_trade`, in order; the first that fails is the answer.
      The portfolio check is made only when the balance is positive. */
  ghost function Gate(lim: Limits, positions: map<string, Position>, marketId: string,
                      proposedBet: real, balance: real): Option<DenyReason>
  {
    if marketId in positions then Some(AlreadyHavePosition)
    else if proposedBet > lim.maxPositionSize then Some(ExceedsMaxPositionSize)
    else if balance > 0.0 && (TotalAtRisk(positions) + proposedBet) / balance > lim.maxPortfolioRisk
    then Some(ExceedsPortfolioRisk)
    else if |positions| >= lim.maxMarketsOpen then Some(AtMaxOpenPositions)
    else None
  }

  /** `adjust_bet_size`: at most the position limit, and, when the balance is
      positive, at most the head-room left under the portfolio limit; never
      negative. */
  ghost function Adjusted(lim: Limits, positions: map<string, Position>, proposedBet: real, balance: real): real {
    var capped := Min(proposedBet, lim.maxPositionSize);
    var fitted := if balance > 0.0 then Min(capped, balance * lim.maxPortfolioRisk - TotalAtRisk(positions))
                  else capped;
    Max(0.0, fitted)
  }

  /** What the ledger promises across one cycle on one balance snapshot. */
  ghost predicate WithinBudget(lim: Limits, positions: map<string, Position>, balance: real) {
    (balance > 0.0 ==> TotalAtRisk(positions) <= balance * lim.maxPortfolioRisk)
    && |positions| <= lim.maxMarketsOpen
  }

  datatype PortfolioSummary = PortfolioSummary(numPositions: nat, totalAtRisk: real, positions: map<string, Position>)

  class RiskManager {
    const maxPositionSize: real
    const maxPortfolioRisk: real
    const maxMarketsOpen: int
    var openPositions: map<string, Position>

    function LimitsOf(): Limits {
      Limits(maxPositionSize, maxPortfolioRisk, maxMarketsOpen)
    }

    constructor(maxPositionSize: real, maxPortfolioRisk: real, maxMarketsOpen: int)
      ensures this.maxPositionSize == maxPositionSize && this.maxPortfolioRisk == maxPortfolioRisk
      ensures this.maxMarketsOpen == maxMarketsOpen
      ensures openPositions == map[]
    {
      this.maxPositionSize := maxPositionSize;
      this.maxPortfolioRisk := maxPortfolioRisk;
      this.maxMarketsOpen := maxMarketsOpen;
      openPositions := map[];
    }

    /** `sum(pos["amount"] for pos in open_positions.values())` */
    method ComputeTotalAtRisk() returns (total: real)
      ensures total == TotalAtRisk(openPositions)
    {
      total := SumValues(openPositions, AmountOf);
    }

    method CanTrade(marketId: string, proposedBet: real, currentBalance: real)
      returns (allowed: bool, reason: Option<DenyReason>)
      ensures reason == Gate(LimitsOf(), openPositions, marketId, proposedBet, currentBalance)
      ensures allowed <==> reason.None?
    {
      if marketId in openPositions {
        return false, Some(AlreadyHavePosition);
      }
      if proposedBet > maxPositionSize {
        return false, Some(ExceedsMaxPositionSize);
      }
      var totalAtRisk := ComputeTotalAtRisk();
      totalAtRisk := totalAtRisk + proposedBet;
      if currentBalance > 0.0 {
        var riskRatio := totalAtRisk / currentBalance;
        if riskRatio > maxPortfolioRisk {
          return false, Some(ExceedsPortfolioRisk);
        }
      }
      if |openPositions| >= maxMarketsOpen {
        return false, Some(AtMaxOpenPositions);
      }
      return true, None;
    }

    method AdjustBetSize(proposedBet: real, currentBalance: real, marketId: string) returns (adjusted: real)
      ensures adjusted == Adjusted(LimitsOf(), openPositions, proposedBet, currentBalance)
    {
      adjusted := proposedBet;
      adjusted := Min(adjusted, maxPositionSize);
      var totalAtRisk := ComputeTotalAtRisk();
      if currentBalance > 0.0 {
        var maxTotalRisk := currentBalance * maxPortfolioRisk;
        var maxBet := maxTotalRisk - totalAtRisk;
        adjusted := Min(adjusted, maxBet);
      }
      adjusted := Max(0.0, adjusted);
    }

    /** Inserts or overwrites the entry of `marketId`; nothing else changes. */
    method RecordPosition(marketId: string, amount: real, side: Side, marketProb: real)
      modifies this
      ensures openPositions == old(openPositions)[marketId := Position(amount, side, marketProb)]
    {
      openPositions := openPositions[marketId := Position(amount, side, marketProb)];
    }

    /** Deletes the entry of `marketId` when there is one. */
    method RemovePosition(marketId: string)
      modifies this
      ensures openPositions == old(openPositions) - {marketId}
    {
      if marketId in openPositions {
        openPositions := openPositions - {marketId};
      }
    }

    method GetPortfolioSummary() returns (summary: PortfolioSummary)
      ensures summary.numPositions == |openPositions|
      ensures summary.totalAtRisk == TotalAtRisk(openPositions)
      ensures summary.positions == openPositions
    {
      var totalAtRisk := ComputeTotalAtRisk();
      summary := PortfolioSummary(|openPositions|, totalAtRisk, openPositions);
    }
  }

  // ---------------------------------------------------------------------------
  // The gate

  /** The first failing check decides: an existing position, then the size,
      then the portfolio risk, then the number of open positions. */
  lemma GateOrder(lim: Limits, positions: map<string, Position>, marketId: string, bet: real, balance: real)
    ensures Gate(lim, positions, marketId, bet, balance) == Some(AlreadyHavePosition) <==> marketId in positions
    ensures Gate(lim, positions, marketId, bet, balance) == Some(ExceedsMaxPositionSize) <==>
              marketId !in positions && bet > lim.maxPositionSize
    ensures Gate(lim, positions, marketId, bet, balance) == Some(ExceedsPortfolioRisk) <==>
              marketId !in positions && bet <= lim.maxPositionSize
              && balance > 0.0 && TotalAtRisk(positions) + bet > balance * lim.maxPortfolioRisk
    ensures Gate(lim, positions, marketId, bet, balance) == Some(AtMaxOpenPositions) <==>
              marketId !in positions && bet <= lim.maxPositionSize
              && (balance > 0.0 ==> TotalAtRisk(positions) + bet <= balance * lim.maxPortfolioRisk)
              && |positions| >= lim.maxMarketsOpen
  {
    if balance > 0.0 {
      RatioAboveLimit(TotalAtRisk(positions) + bet, balance, lim.maxPortfolioRisk);
    }
  }

  /** For a positive balance, the ratio exceeds the limit exactly when the
      stake exceeds the balance times the limit. */
  lemma RatioAboveLimit(stake: real, balance: real, limit: real)
    requires balance > 0.0
    ensures stake / balance > limit <==> stake > balance * limit
  {
    if stake / balance > limit {
      assert stake == (stake / balance) * balance;
      assert (stake / balance) * balance > limit * balance;
    } else {
      assert stake == (stake / balance) * balance;
      assert (stake / balance) * balance <= limit * balance;
    }
  }

  /** A bet of exactly the position limit passes the size check. */
  lemma SizeLimitInclusive(lim: Limits, positions: map<string, Position>, marketId: string, balance: real)
    ensures Gate(lim, positions, marketId, lim.maxPositionSize, balance) != Some(ExceedsMaxPositionSize)
  {
  }

  /** With no positive balance the portfolio check is skipped. */
  lemma NoBalanceNoRiskCheck(lim: Limits, positions: map<string, Position>, marketId: string, bet: real, balance: real)
    requires balance <= 0.0
    ensures Gate(lim, positions, marketId, bet, balance) != Some(ExceedsPortfolioRisk)
  {
  }

  /** An admitted bet, or any smaller amount recorded in its place, keeps the
      ledger within budget for the same balance. */
  lemma AdmissionKeepsBudget(lim: Limits, positions: map<string, Position>, marketId: string,
                             bet: real, balance: real, recorded: Position)
    requires Gate(lim, positions, marketId, bet, balance).None?
    requires recorded.amount <= bet
    ensures WithinBudget(lim, positions[marketId := recorded], balance)
    ensures TotalAtRisk(positions[marketId := recorded]) == TotalAtRisk(positions) + recorded.amount
  {
    GateAdmits(lim, positions, marketId, bet, balance);
    SumUpdate(positions, AmountOf, marketId, recorded);
  }

  /** What an admission guarantees, without the division. */
  lemma GateAdmits(lim: Limits, positions: map<string, Position>, marketId: string, bet: real, balance: real)
    requires Gate(lim, positions, marketId, bet, balance).None?
    ensures marketId !in positions && bet <= lim.maxPositionSize && |positions| < lim.maxMarketsOpen
    ensures balance > 0.0 ==> TotalAtRisk(positions) + bet <= balance * lim.maxPortfolioRisk
  {
    if balance > 0.0 {
      RatioAboveLimit(TotalAtRisk(positions) + bet, balance, lim.maxPortfolioRisk);
    }
  }


  // ---------------------------------------------------------------------------
  // The clamp

  /** The adjusted bet is never negative and never above the proposal or the
      position limit, unless it is 0; with a positive balance a positive
      adjusted bet fits under the portfolio limit. */
  lemma AdjustedBounds(lim: Limits, positions: map<string, Position>, bet: real, balance: real)
    ensures Adjusted(lim, positions, bet, balance) >= 0.0
    ensures Adjusted(lim, positions, bet, balance) <= Max(0.0, bet)
    ensures Adjusted(lim, positions, bet, balance) <= Max(0.0, lim.maxPositionSize)
    ensures balance > 0.0 && Adjusted(lim, positions, bet, balance) > 0.0 ==>
              TotalAtRisk(positions) + Adjusted(lim, positions, bet, balance) <= balance * lim.maxPortfolioRisk
    ensures (0.0 <= bet <= lim.maxPositionSize
             && (balance > 0.0 ==> TotalAtRisk(positions) + bet <= balance * lim.maxPortfolioRisk))
            ==> Adjusted(lim, positions, bet, balance) == bet
  {
  }

  /** Position limit 100, one open stake of 80, risk 0.3, balance 500: a
      proposal of 90 is cut to 500 * 0.3 - 80 = 70. */
  lemma AdjustScenario()
    ensures Adjusted(Limits(100.0, 0.3, 10), map["m1" := Position(80.0, Yes, 0.5)], 90.0, 500.0) == 70.0
  {
    var m := map["m1" := Position(80.0, Yes, 0.5)];
    SumRemove(m, AmountOf, "m1");
    assert m - {"m1"} == map[];
  }

  // ---------------------------------------------------------------------------
  // Insertion and deletion

  /** Recording replaces the stake of that market, if any, and adds the new one. */
  lemma RecordTotal(positions: map<string, Position>, marketId: string, p: Position)
    ensures TotalAtRisk(positions[marketId := p]) ==
            TotalAtRisk(positions) - (if marketId in positions then positions[marketId].amount else 0.0) + p.amount
    ensures |positions[marketId := p]| == if marketId in positions then |positions| else |positions| + 1
  {
    SumUpdate(positions, AmountOf, marketId, p);
  }

  /** Removing a present market takes its stake off the total; removing an
      absent one changes nothing. */
  lemma RemoveTotal(positions: map<string, Position>, marketId: string)
    ensures marketId in positions ==>
              TotalAtRisk(positions - {marketId}) == TotalAtRisk(positions) - positions[marketId].amount
              && |positions - {marketId}| == |positions| - 1
    ensures marketId !in positions ==> positions - {marketId} == positions
  {
    if marketId in positions {
      SumRemove(positions, AmountOf, marketId);
    }
  }
}
