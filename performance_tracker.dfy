/** The in-memory trade log and balance record of `PerformanceTracker`.
    The tracker starts as it does when no history file exists; reading and
    writing that file are not part of this model. */
module PerformanceTracking {
  import opened Common
  import opened Sums

  datatype Trade = Trade(
    timestamp: string,
    marketId: string,
    marketQuestion: string,
    side: Side,
    amount: real,
    probability: real,
    reasoning: string)

  datatype Statistics = Statistics(
    totalTrades: nat,
    totalInvested: real,
    winRate: real,
    totalPnl: real,
    roi: real,
    currentBalance: Option<real>,
    startingBalance: Option<real>)

  function TradeAmount(t: Trade): real {
    t.amount
  }

  /** `trades[-n:]` with Python's slice rules: a positive `n` keeps the last
      `n` trades (all of them when there are fewer), `n == 0` keeps every
      trade (since `-0 == 0`), and a negative `n` drops the first `-n`. */
  function RecentTrades(trades: seq<Trade>, n: int): (r: seq<Trade>)
    ensures n >= 1 ==> |r| == if n < |trades| then n else |trades|
    ensures n >= 1 ==> r == trades[|trades| - |r|..]
    ensures n == 0 ==> r == trades
    ensures n < 0 ==> r == trades[(if -n < |trades| then -n else |trades|)..]
  {
    if |trades| == 0 then []
    else if n > 0 then trades[(if n < |trades| then |trades| - n else 0)..]
    else trades[(if -n < |trades| then -n else |trades|)..]
  }

  /** The recent trades are a suffix of the log, in the log's order. */
  lemma RecentTradesSuffix(trades: seq<Trade>, n: int)
    ensures exists k :: 0 <= k <= |trades| && RecentTrades(trades, n) == trades[k..]
    ensures n >= 1 && n <= |trades| ==> |RecentTrades(trades, n)| == n
  {
    var r := RecentTrades(trades, n);
    assert r == trades[|trades| - |r|..];
  }

  /** The return over the starting balance, when that balance is truthy. */
  function Roi(totalPnl: real, startingBalance: Option<real>): (roi: real)
    ensures startingBalance.None? || startingBalance.value == 0.0 ==> roi == 0.0
    ensures startingBalance.Some? && startingBalance.value != 0.0 ==>
              roi * startingBalance.value == totalPnl * 100.0
  {
    if startingBalance.Some? && startingBalance.value != 0.0
    then totalPnl / startingBalance.value * 100.0 else 0.0
  }

  class PerformanceTracker {
    var trades: seq<Trade>
    var startingBalance: Option<real>
    var currentBalance: Option<real>

    constructor()
      ensures trades == [] && startingBalance == None && currentBalance == None
    {
      trades := [];
      startingBalance := None;
      currentBalance := None;
    }

    /** Appends exactly one trade; earlier trades and the balances are kept. */
    method RecordTrade(timestamp: string, marketId: string, marketQuestion: string, side: Side,
                       amount: real, probability: real, reasoning: string)
      modifies this
      ensures trades == old(trades) + [Trade(timestamp, marketId, marketQuestion, side, amount, probability, reasoning)]
      ensures startingBalance == old(startingBalance) && currentBalance == old(currentBalance)
    {
      trades := trades + [Trade(timestamp, marketId, marketQuestion, side, amount, probability, reasoning)];
    }

    /** The first balance seen becomes the starting balance; every balance
        becomes the current one. */
    method UpdateBalance(balance: real)
      modifies this
      ensures startingBalance == if old(startingBalance).None? then Some(balance) else old(startingBalance)
      ensures currentBalance == Some(balance)
      ensures trades == old(trades)
    {
      if startingBalance.None? {
        startingBalance := Some(balance);
      }
      currentBalance := Some(balance);
    }

    /** The profit is the balance change when both balances are known; the win
        rate is not computed and is always 0. */
    function GetStatistics(): (s: Statistics)
      reads this
      ensures s.totalTrades == |trades| && s.totalInvested == SumSeq(trades, TradeAmount)
      ensures s.winRate == 0.0
      ensures startingBalance.Some? && currentBalance.Some? ==>
                s.totalPnl == currentBalance.value - startingBalance.value
      ensures startingBalance.None? || currentBalance.None? ==> s.totalPnl == 0.0
      ensures s.roi == Roi(s.totalPnl, startingBalance)
      ensures s.currentBalance == currentBalance && s.startingBalance == startingBalance
    {
      var totalTrades := if |trades| > 0 then |trades| else 0;
      var totalInvested := if |trades| > 0 then SumSeq(trades, TradeAmount) else 0.0;
      var totalPnl := if startingBalance.Some? && currentBalance.Some?
                      then currentBalance.value - startingBalance.value else 0.0;
      Statistics(totalTrades, totalInvested, 0.0, totalPnl, Roi(totalPnl, startingBalance),
                 currentBalance, startingBalance)
    }

    /** `get_recent_trades`; the source's default `n = 10` is left to the caller. */
    function GetRecentTrades(n: int): (r: seq<Trade>)
      reads this
      ensures r == RecentTrades(trades, n)
    {
      if |trades| > 0 then RecentTrades(trades, n) else []
    }
  }

  /** Recording a trade adds its stake to the total invested. */
  lemma InvestedGrows(trades: seq<Trade>, t: Trade)
    ensures SumSeq(trades + [t], TradeAmount) == SumSeq(trades, TradeAmount) + t.amount
  {
    assert (trades + [t])[..|trades|] == trades;
  }

  /** Starting at 1000 and ending at 1100 is a profit of 100, a 10% return. */
  lemma StatisticsScenario()
    ensures Roi(1100.0 - 1000.0, Some(1000.0)) == 10.0
  {
  }
}
