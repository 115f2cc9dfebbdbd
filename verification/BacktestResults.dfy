/** How the totals that a backtest reports hang together. */
module BacktestResults {
  import opened Backtest
  import opened BacktestAccounting
  import opened BacktestProperties
  import opened Candles
  import opened Drawdown
  import opened Reals
  import opened Rounding
  import opened Wrappers

  predicate AllOnGrid(s: seq<real>) {
    forall i :: 0 <= i < |s| ==> OnGrid(s[i])
  }

  lemma ExecuteKeepsGrid(cfg: Config, book: Book, candle: Candle)
    requires AllOnGrid(book.realized) && Execute(cfg, book, candle).Ok?
    ensures AllOnGrid(Execute(cfg, book, candle).value.realized)
  {
    hide Quantize, OnGrid, FillPrice, Spendable, FeeOn, QuantityFor, Notional;
    if book.pending.Some? && book.pending.value.action == GoFlat && book.quantity > 0.0 {
      var gross := Notional(book.quantity, FillPrice(candle.open, Sell, cfg.slippageBps));
      QuantizeNearest(Quantize(gross - FeeOn(gross, cfg.feeRate)) - book.openCost);
    }
  }

  lemma {:induction false} RealizedOnGrid(strategy: Strategy, cfg: Config, ordered: seq<Candle>, n: nat)
    requires n <= |ordered| && Simulate(strategy, cfg, ordered, n).Ok?
    ensures AllOnGrid(Simulate(strategy, cfg, ordered, n).value.realized)
  {
    hide OnGrid, Execute;
    if n > 0 {
      RealizedOnGrid(strategy, cfg, ordered, n - 1);
      ExecuteKeepsGrid(cfg, Simulate(strategy, cfg, ordered, n - 1).value, ordered[n - 1]);
    }
  }

  lemma {:induction false} GainsMinusLosses(results: seq<real>)
    requires AllOnGrid(results)
    ensures OnGrid(Gained(results)) && OnGrid(Lost(results))
    ensures Gained(results) >= 0.0 && Lost(results) >= 0.0
    ensures Gained(results) - Lost(results) == Sum(results)
    ensures CountWins(results) + CountLosses(results) <= |results|
  {
    hide OnGrid;
    QuantizeZero();
    if |results| > 0 {
      var init, last := results[..|results| - 1], results[|results| - 1];
      GainsMinusLosses(init);
      assert OnGrid(last);
      GridClosed(Gained(init), last);
      GridClosed(Lost(init), last);
    }
  }

  lemma {:induction false} SidesOfAlternating(trades: seq<Trade>)
    requires Alternating(trades)
    ensures CountSide(trades, Sell) == |trades| / 2 && CountSide(trades, Buy) == (|trades| + 1) / 2
  {
    if |trades| > 0 {
      SidesOfAlternating(trades[..|trades| - 1]);
    }
  }

  /**
    The reported totals agree: gross profit minus gross loss is exactly the sum of the
    realized results although both were rounded, every exit realizes one result, and there
    is at most one entry more than exits.
   */
  lemma ReportedTotalsAgree(strategy: Strategy, cfg: Config, ordered: seq<Candle>, book: Book, report: Report)
    requires |ordered| > 0
    requires Simulate(strategy, cfg, ordered, |ordered|) == Ok(book)
    requires Reports(report, cfg, book, ordered)
    ensures report.grossProfit - report.grossLoss == Sum(report.realized)
    ensures report.grossProfit >= 0.0 && report.grossLoss >= 0.0
    ensures report.completed == report.exits == |report.realized| && report.wins + report.losses <= report.completed
    ensures report.exits <= report.entries <= report.exits + 1
  {
    RealizedOnGrid(strategy, cfg, ordered, |ordered|);
    GainsMinusLosses(book.realized);
    QuantizeNearest(Gained(book.realized));
    QuantizeNearest(Lost(book.realized));
    BookIsWellFormed(strategy, cfg, ordered, |ordered|);
    SidesOfAlternating(book.trades);
    hide Simulate, Quantize, OnGrid, Gained, Lost, Sum, CountSide, CountWins, CountLosses, Alternating, Positioned,
      Equity;
  }

  // ---------- the report, told by the trades ----------

  function FeesOf(trades: seq<Trade>): seq<real> {
    seq(|trades|, i requires 0 <= i < |trades| => trades[i].fee)
  }

  /** Every fee is a stored amount, and the total is their sum. */
  predicate FeesAdded(book: Book) {
    AllOnGrid(FeesOf(book.trades)) && book.totalFees == Sum(FeesOf(book.trades))
  }

  lemma FeesAppend(trades: seq<Trade>, t: Trade)
    ensures FeesOf(trades + [t]) == FeesOf(trades) + [t.fee]
  {}

  lemma ExecuteAddsFees(cfg: Config, book: Book, candle: Candle)
    requires FeesAdded(book) && Execute(cfg, book, candle).Ok?
    ensures FeesAdded(Execute(cfg, book, candle).value)
  {
    hide Quantize, OnGrid, FillPrice, Spendable, FeeOn, QuantityFor, Notional, Sum, FeesOf;
    var after := Execute(cfg, book, candle).value;
    if after.trades != book.trades {
      var t := after.trades[|book.trades|];
      FeesAppend(book.trades, t);
      SumAppend(FeesOf(book.trades), t.fee);
      FeeNear(Spendable(book.cash, cfg.feeRate), cfg.feeRate);
      FeeNear(Notional(book.quantity, FillPrice(candle.open, Sell, cfg.slippageBps)), cfg.feeRate);
    }
  }

  lemma {:induction false} TotalIsAdded(strategy: Strategy, cfg: Config, ordered: seq<Candle>, n: nat)
    requires n <= |ordered| && Simulate(strategy, cfg, ordered, n).Ok?
    ensures FeesAdded(Simulate(strategy, cfg, ordered, n).value)
  {
    hide Execute, AllOnGrid, Equity;
    if n == 0 {
      NoFees(cfg);
    } else {
      TotalIsAdded(strategy, cfg, ordered, n - 1);
      ExecuteAddsFees(cfg, Simulate(strategy, cfg, ordered, n - 1).value, ordered[n - 1]);
    }
  }

  lemma NoFees(cfg: Config)
    ensures FeesAdded(OpeningBook(cfg))
  {}

  lemma {:induction false} SumOnGrid(s: seq<real>)
    requires AllOnGrid(s)
    ensures OnGrid(Sum(s))
  {
    hide OnGrid;
    QuantizeZero();
    if |s| > 0 {
      SumOnGrid(s[..|s| - 1]);
      GridClosed(Sum(s[..|s| - 1]), s[|s| - 1]);
    }
  }

  /** The gains of a list of results, and the losses, entry by entry. */
  function GainParts(results: seq<real>): seq<real> {
    seq(|results|, i requires 0 <= i < |results| => if results[i] > 0.0 then results[i] else 0.0)
  }

  function LossParts(results: seq<real>): seq<real> {
    seq(|results|, i requires 0 <= i < |results| => if results[i] < 0.0 then 0.0 - results[i] else 0.0)
  }

  lemma {:induction false} PartsAddUp(results: seq<real>)
    ensures Gained(results) == Sum(GainParts(results)) && Lost(results) == Sum(LossParts(results))
  {
    if |results| > 0 {
      var n := |results| - 1;
      PartsAddUp(results[..n]);
      assert GainParts(results)[..n] == GainParts(results[..n]);
      assert LossParts(results)[..n] == LossParts(results[..n]);
    }
  }

  /** The indices of the gains, of the losses, and of the trades on a side. */
  ghost function Gaining(results: seq<real>): set<int> {
    set i | 0 <= i < |results| && results[i] > 0.0
  }

  ghost function Losing(results: seq<real>): set<int> {
    set i | 0 <= i < |results| && results[i] < 0.0
  }

  ghost function OnSide(trades: seq<Trade>, side: Side): set<int> {
    set i | 0 <= i < |trades| && trades[i].side == side
  }

  lemma {:induction false} GainsAreCounted(results: seq<real>)
    ensures CountWins(results) == |Gaining(results)|
  {
    if |results| > 0 {
      var n := |results| - 1;
      GainsAreCounted(results[..n]);
      assert Gaining(results) == Gaining(results[..n]) + if results[n] > 0.0 then {n} else {};
      hide Gaining;
    }
  }

  lemma {:induction false} LossesAreCounted(results: seq<real>)
    ensures CountLosses(results) == |Losing(results)|
  {
    if |results| > 0 {
      var n := |results| - 1;
      LossesAreCounted(results[..n]);
      assert Losing(results) == Losing(results[..n]) + if results[n] < 0.0 then {n} else {};
    }
  }

  lemma {:induction false} SidesAreCounted(trades: seq<Trade>, side: Side)
    ensures CountSide(trades, side) == |OnSide(trades, side)|
  {
    if |trades| > 0 {
      var n := |trades| - 1;
      SidesAreCounted(trades[..n], side);
      assert OnSide(trades, side) == OnSide(trades[..n], side) + if trades[n].side == side then {n} else {};
    }
  }

  /** Equity and profits to the nearest stored amount. */
  predicate AmountsReported(capital: real, book: Book, close: real, ending: real, absolute: real, unrealized: real) {
    && Near(ending, book.cash + book.quantity * close)
    && Near(absolute, ending - capital)
    && if book.quantity > 0.0 then Near(unrealized, book.quantity * close - book.openCost) else unrealized == 0.0
  }

  /**
    What is reported, told by the final book, the last close and the trades: equity and profits
    are the exact ones to the nearest stored amount, the fees are exactly those of the trades,
    gross profit and loss are exactly the sums of the gains and of the losses, and the counts
    count entries, exits, gains and losses.
   */
  lemma ReportMeans(strategy: Strategy, cfg: Config, ordered: seq<Candle>, book: Book, report: Report)
    requires |ordered| > 0
    requires Simulate(strategy, cfg, ordered, |ordered|) == Ok(book)
    requires Reports(report, cfg, book, ordered)
    ensures AmountsReported(cfg.initialCapital, book, ordered[|ordered| - 1].close,
                            report.endingEquity, report.absolutePnl, report.unrealizedPnl)
    ensures report.totalFees == Sum(FeesOf(report.trades))
    ensures report.grossProfit == Sum(GainParts(report.realized)) && report.grossLoss == Sum(LossParts(report.realized))
    ensures report.entries == |OnSide(report.trades, Buy)| && report.exits == |OnSide(report.trades, Sell)|
    ensures report.wins == |Gaining(report.realized)| && report.losses == |Losing(report.realized)|
  {
    hide Simulate, Quantize, OnGrid, Gained, Lost, Sum, CountSide, CountWins, CountLosses, Equity, Unrealized,
      FeesOf, GainParts, LossParts, Alternating, RealizedBySells, AmountsReported, Gaining, Losing, OnSide, AllOnGrid,
      WorstFall, WorstFallPct, EquityLike;
    TotalIsAdded(strategy, cfg, ordered, |ordered|);
    SumOnGrid(FeesOf(book.trades));
    RealizedOnGrid(strategy, cfg, ordered, |ordered|);
    GainsMinusLosses(book.realized);
    PartsAddUp(book.realized);
    QuantizeNearest(Gained(book.realized));
    QuantizeNearest(Lost(book.realized));
    QuantizeNearest(book.totalFees);
    GainsAreCounted(book.realized);
    LossesAreCounted(book.realized);
    SidesAreCounted(book.trades, Buy);
    SidesAreCounted(book.trades, Sell);
    BookIsWellFormed(strategy, cfg, ordered, |ordered|);
    ReportedAmounts(cfg, book, ordered[|ordered| - 1].close);
  }

  lemma ReportedAmounts(cfg: Config, book: Book, close: real)
    requires book.quantity >= 0.0
    ensures var ending := Equity(book.cash, book.quantity, close);
            AmountsReported(cfg.initialCapital, book, close, ending, Quantize(ending - cfg.initialCapital),
                            Quantize(Unrealized(book.quantity, book.openCost, close)))
  {
    hide Quantize, OnGrid;
    var ending := Equity(book.cash, book.quantity, close);
    EquityNear(book.cash, book.quantity, close);
    QuantizeNearest(ending - cfg.initialCapital);
    QuantizeZero();
    if book.quantity > 0.0 {
      UnrealizedNear(book.quantity, book.openCost, close);
    }
  }
}
