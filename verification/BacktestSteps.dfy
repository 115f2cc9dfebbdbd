/** What one candle does to the book of a backtest, told by amounts, signals and prices alone. */
module BacktestSteps {
  import opened Backtest
  import opened BacktestAccounting
  import opened BacktestProperties
  import opened Candles
  import opened Reals
  import opened Rounding
  import opened Wrappers

  /** The strategy's answer to the candles before index `k` is this action, and it was asked. */
  predicate Signals(strategy: Strategy, ordered: seq<Candle>, k: nat, action: Action)
    requires k <= |ordered|
  {
    && k >= 1 && k >= strategy.requiredHistory
    && strategy.evaluate(ordered[..k]).Ok? && strategy.evaluate(ordered[..k]).value.action == action
  }

  /** The signal that is carried out at index `k` was given at this candle time. */
  function SignalTime(strategy: Strategy, ordered: seq<Candle>, k: nat): int
    requires k <= |ordered| && strategy.evaluate(ordered[..k]).Ok?
  {
    strategy.evaluate(ordered[..k]).value.candleTimestamp
  }

  /** All the cash becomes a position at the open of candle `k`. */
  predicate Bought(strategy: Strategy, cfg: Config, ordered: seq<Candle>, k: nat, before: Book, after: Book)
    requires k < |ordered| && strategy.evaluate(ordered[..k]).Ok?
  {
    && |after.trades| == |before.trades| + 1
    && var t := after.trades[|before.trades|];
    && PurchaseAmounts(cfg, before.cash, ordered[k].open, t.price, after.openCost - t.fee, t.fee, t.quantity)
    && t == Trade(|before.trades| + 1, Buy, SignalTime(strategy, ordered, k), ordered[k].timestamp,
                  t.price, t.quantity, t.fee, None)
    && after.trades == before.trades + [t] && after.realized == before.realized
    && after.cash == 0.0 && after.quantity == t.quantity && after.totalFees == before.totalFees + t.fee
  }

  /** The whole position becomes cash at the open of candle `k`. */
  predicate Sold(strategy: Strategy, cfg: Config, ordered: seq<Candle>, k: nat, before: Book, after: Book)
    requires k < |ordered| && strategy.evaluate(ordered[..k]).Ok?
  {
    && |after.trades| == |before.trades| + 1
    && var t, result := after.trades[|before.trades|], after.cash - before.openCost;
    && SaleAmounts(cfg, before.quantity, ordered[k].open, t.price, after.cash + t.fee, t.fee)
    && t == Trade(|before.trades| + 1, Sell, SignalTime(strategy, ordered, k), ordered[k].timestamp,
                  t.price, before.quantity, t.fee, Some(result))
    && after.trades == before.trades + [t] && after.realized == before.realized + [result]
    && after.quantity == 0.0 && after.openCost == 0.0 && after.totalFees == before.totalFees + t.fee
  }

  predicate NotTraded(before: Book, after: Book) {
    && after.trades == before.trades && after.realized == before.realized && after.totalFees == before.totalFees
    && after.cash == before.cash && after.quantity == before.quantity && after.openCost == before.openCost
  }

  /** The close marks the book, and counts the candle if a position is held. */
  predicate Marked(close: real, before: Book, after: Book) {
    && |after.curve| == |before.curve| + 1 && after.curve[..|before.curve|] == before.curve
    && Near(after.curve[|before.curve|], after.cash + after.quantity * close)
    && OnGrid(after.curve[|before.curve|])
    && after.exposed == before.exposed + if after.quantity > 0.0 then 1 else 0
  }

  /** A cost on the books is a stored amount. */
  predicate CostOnGrid(book: Book) {
    book.quantity > 0.0 ==> OnGrid(book.openCost)
  }

  lemma {:induction false} CostIsOnGrid(strategy: Strategy, cfg: Config, ordered: seq<Candle>, n: nat)
    requires n <= |ordered| && Simulate(strategy, cfg, ordered, n).Ok?
    ensures CostOnGrid(Simulate(strategy, cfg, ordered, n).value)
  {
    hide Accounted, Simulate, OnGrid;
    BookIsAccounted(strategy, cfg, ordered, n);
    HeldOnGrid(cfg, Simulate(strategy, cfg, ordered, n).value);
  }

  lemma HeldOnGrid(cfg: Config, book: Book)
    requires Accounted(cfg, book)
    ensures CostOnGrid(book)
  {
    hide OnGrid, Slack, Sum, CountSide;
  }

  lemma ExecuteMeans(cfg: Config, before: Book, candle: Candle)
    requires Positioned(before) && CostOnGrid(before) && Execute(cfg, before, candle).Ok?
    ensures var after := Execute(cfg, before, candle).value;
            && after.pending == before.pending && after.curve == before.curve && after.exposed == before.exposed
            && if before.pending.Some? && before.pending.value.action == GoLong && before.quantity == 0.0 then
                 Execute(cfg, before, candle) == BuyAllIn(cfg, before, candle, before.pending.value)
               else if before.pending.Some? && before.pending.value.action == GoFlat && before.quantity > 0.0 then
                 Execute(cfg, before, candle) == SellAll(cfg, before, candle, before.pending.value)
               else after == before
  {
    hide Quantize, FillPrice, Spendable, FeeOn, QuantityFor, Notional, OnGrid;
  }

  lemma ObserveMarks(strategy: Strategy, traded: Book, seen: seq<Candle>)
    requires |seen| > 0 && Observe(strategy, traded, seen).Ok?
    ensures var after := Observe(strategy, traded, seen).value;
            NotTraded(traded, after) && Marked(seen[|seen| - 1].close, traded, after)
  {
    hide Equity, OnGrid;
    var close := seen[|seen| - 1].close;
    EquityNear(traded.cash, traded.quantity, close);
    NearMeans(Equity(traded.cash, traded.quantity, close), traded.cash + traded.quantity * close);
  }

  lemma MarkedFrame(close: real, traded: Book, before: Book, after: Book)
    requires Marked(close, traded, after) && traded.curve == before.curve && traded.exposed == before.exposed
    ensures Marked(close, before, after)
  {
    hide Near, OnGrid;
  }

  /**
    What is pending at candle `k` is exactly the strategy's answer to the candles before it.
   */
  lemma {:induction false} PendingMeans(strategy: Strategy, cfg: Config, ordered: seq<Candle>, k: nat)
    requires k <= |ordered| && Simulate(strategy, cfg, ordered, k).Ok?
    ensures var pending := Simulate(strategy, cfg, ordered, k).value.pending;
            if k >= 1 && k >= strategy.requiredHistory then
              strategy.evaluate(ordered[..k]).Ok? && pending == Some(strategy.evaluate(ordered[..k]).value)
            else pending == None
  {
    hide Execute, Equity;
  }

  /**
    One candle of a backtest. A BUY given on the candles before it, while everything is cash,
    buys all in at its open; a SELL while a position is held sells it all; nothing else trades.
    Then its close marks the book. All amounts are the exact ones to the nearest stored amount.
   */
  lemma CandleMeans(strategy: Strategy, cfg: Config, ordered: seq<Candle>, k: nat)
    requires k < |ordered| && Simulate(strategy, cfg, ordered, k + 1).Ok?
    ensures Simulate(strategy, cfg, ordered, k).Ok?
    ensures var before := Simulate(strategy, cfg, ordered, k).value;
            var after := Simulate(strategy, cfg, ordered, k + 1).value;
            && Marked(ordered[k].close, before, after)
            && if Signals(strategy, ordered, k, GoLong) && before.quantity == 0.0 then
                 Bought(strategy, cfg, ordered, k, before, after)
               else if Signals(strategy, ordered, k, GoFlat) && before.quantity > 0.0 then
                 Sold(strategy, cfg, ordered, k, before, after)
               else NotTraded(before, after)
  {
    hide Quantize, Execute, Observe, BuyAllIn, SellAll, PurchaseAmounts, SaleAmounts, OnGrid, Near, Alternating,
      RealizedBySells, Marked;
    var before := Simulate(strategy, cfg, ordered, k).value;
    BookIsWellFormed(strategy, cfg, ordered, k);
    CostIsOnGrid(strategy, cfg, ordered, k);
    PendingMeans(strategy, cfg, ordered, k);
    ExecuteMeans(cfg, before, ordered[k]);
    var traded := Execute(cfg, before, ordered[k]).value;
    ObserveMarks(strategy, traded, ordered[..k + 1]);
    MarkedFrame(ordered[k].close, traded, before, Simulate(strategy, cfg, ordered, k + 1).value);
    if Signals(strategy, ordered, k, GoLong) && before.quantity == 0.0 {
      PurchaseTrade(cfg, before, ordered[k], before.pending.value);
    } else if Signals(strategy, ordered, k, GoFlat) && before.quantity > 0.0 {
      SaleTrade(cfg, before, ordered[k], before.pending.value);
    }
  }

  /** A backtest starts with the capital as cash, nothing held and the capital as its first equity. */
  lemma StartMeans(strategy: Strategy, cfg: Config, ordered: seq<Candle>)
    ensures Simulate(strategy, cfg, ordered, 0) ==
            Ok(Book(cfg.initialCapital, 0.0, 0.0, 0.0, None, [], [], [cfg.initialCapital], 0))
  {}
}
