/**
  How far the reported profit can drift from the profit of the individual trades when
  every amount is rounded to 18 places (application/backtest.py).
 */
module BacktestAccounting {
  import opened Backtest
  import opened BacktestProperties
  import opened Candles
  import opened Drawdown
  import opened Reals
  import opened Rounding
  import opened Wrappers

  /** One and a half quanta per unit: what one entry can add to the drift. */
  function Slack(units: nat): real {
    1.5 * (units as real) / SCALE
  }

  lemma SlackAdds(units: nat)
    ensures Slack(units + 1) == Slack(units) + 1.5 * QUANTUM
  {}

  /** Cash that must be on the books: the cost of an open position, else the cash. */
  function Held(book: Book): real {
    if book.quantity > 0.0 then book.openCost else book.cash
  }

  /** Capital plus realized results accounts for what is held, within the slack of the entries. */
  ghost predicate Accounted(cfg: Config, book: Book) {
    var entries := CountSide(book.trades, Buy);
    var drift := Held(book) - cfg.initialCapital - Sum(book.realized);
    && -Slack(entries) <= drift <= Slack(entries)
    && (entries > 0 ==> OnGrid(Held(book)))
    && (book.quantity > 0.0 ==> entries > 0)
  }

  /** Spending all the cash books a cost within 3/2 quanta of the cash spent. */
  lemma BuyCostNearCash(cash: real, feeRate: real)
    requires cash >= 0.0 && 0.0 <= feeRate < 1.0
    ensures var gross := Spendable(cash, feeRate);
            var cost := Quantize(gross + FeeOn(gross, feeRate));
            OnGrid(cost) && -1.5 * QUANTUM <= cost - cash <= 1.5 * QUANTUM
  {
    hide Quantize, OnGrid, Spendable, FeeOn;
    var gross := Spendable(cash, feeRate);
    var fee := FeeOn(gross, feeRate);
    SpendableNear(cash, feeRate);
    FeeNear(gross, feeRate);
    MissesAddUp(cash, feeRate, gross, fee, QUANTUM / 2.0);
    GridClosed(gross, fee);
  }

  lemma QuantityNear(gross: real, price: real)
    requires price > 0.0
    ensures -QUANTUM / 2.0 <= QuantityFor(gross, price) - gross / price <= QUANTUM / 2.0
  {
    hide Quantize;
    QuantizeNearest(gross / price);
  }

  /** Within half a unit of the eighteenth place. */
  predicate Near(x: real, exact: real) {
    -0.5 <= (x - exact) * 1_000_000_000_000_000_000.0 <= 0.5
  }

  lemma NearMeans(x: real, exact: real)
    ensures Near(x, exact) <==> -QUANTUM / 2.0 <= x - exact <= QUANTUM / 2.0
  {}

  /** The open plus the slippage in basis points. */
  predicate BoughtAt(price: real, open: real, slippageBps: real) {
    Near(price, open * (10000.0 + slippageBps) / 10000.0)
  }

  /** The open minus the slippage in basis points. */
  predicate SoldAt(price: real, open: real, slippageBps: real) {
    Near(price, open * (10000.0 - slippageBps) / 10000.0)
  }

  /** The price of a fill is the open, moved by the slippage in basis points against the trader, and rounded. */
  lemma FillPriceNear(open: real, slippageBps: real)
    ensures BoughtAt(FillPrice(open, Buy, slippageBps), open, slippageBps)
    ensures SoldAt(FillPrice(open, Sell, slippageBps), open, slippageBps)
    ensures OnGrid(FillPrice(open, Buy, slippageBps)) && OnGrid(FillPrice(open, Sell, slippageBps))
  {
    hide Quantize, OnGrid, Near;
    QuantizeNearest(ExecutionPrice(open, Buy, slippageBps));
    QuantizeNearest(ExecutionPrice(open, Sell, slippageBps));
    Slipped(open, slippageBps);
    NearMeans(FillPrice(open, Buy, slippageBps), open * (10000.0 + slippageBps) / 10000.0);
    NearMeans(FillPrice(open, Sell, slippageBps), open * (10000.0 - slippageBps) / 10000.0);
  }

  lemma Slipped(open: real, slippageBps: real)
    ensures ExecutionPrice(open, Buy, slippageBps) == open * (10000.0 + slippageBps) / 10000.0
    ensures ExecutionPrice(open, Sell, slippageBps) == open * (10000.0 - slippageBps) / 10000.0
  {}

  lemma NotionalNear(quantity: real, price: real)
    ensures -QUANTUM / 2.0 <= Notional(quantity, price) - quantity * price <= QUANTUM / 2.0
  {
    hide Quantize;
    QuantizeNearest(quantity * price);
  }

  lemma QuantityOnGrid(gross: real, price: real)
    requires price > 0.0
    ensures OnGrid(QuantityFor(gross, price))
  {
    hide Quantize, OnGrid;
    QuantizeNearest(gross / price);
  }

  /** The amounts of a purchase: price, gross, fee and quantity are each the nearest stored amount. */
  predicate PurchaseAmounts(
      cfg: Config, cash: real, open: real, price: real, gross: real, fee: real, quantity: real) {
    && price > 0.0 && quantity > 0.0
    && BoughtAt(price, open, cfg.slippageBps)
    && Near(gross, cash / (1.0 + cfg.feeRate))
    && Near(fee, gross * cfg.feeRate)
    && Near(quantity, gross / price)
    && OnGrid(price) && OnGrid(gross) && OnGrid(fee) && OnGrid(quantity)
  }

  lemma PurchaseAmountsNear(cfg: Config, cash: real, open: real)
    requires cash >= 0.0
    ensures var price, gross := FillPrice(open, Buy, cfg.slippageBps), Spendable(cash, cfg.feeRate);
            var fee := FeeOn(gross, cfg.feeRate);
            price > 0.0 && QuantityFor(gross, price) > 0.0 ==>
              PurchaseAmounts(cfg, cash, open, price, gross, fee, QuantityFor(gross, price)) &&
              Quantize(gross + fee) == gross + fee
  {
    hide Quantize, OnGrid, FillPrice, Spendable, FeeOn, QuantityFor, BoughtAt;
    var price, gross := FillPrice(open, Buy, cfg.slippageBps), Spendable(cash, cfg.feeRate);
    var fee := FeeOn(gross, cfg.feeRate);
    FillPriceNear(open, cfg.slippageBps);
    SpendableNear(cash, cfg.feeRate);
    NearMeans(gross, cash / (1.0 + cfg.feeRate));
    FeeNear(gross, cfg.feeRate);
    NearMeans(fee, gross * cfg.feeRate);
    GridClosed(gross, fee);
    if price > 0.0 {
      QuantityNear(gross, price);
      QuantityOnGrid(gross, price);
      NearMeans(QuantityFor(gross, price), gross / price);
    }
  }

  /**
    The trade that a purchase adds, told by its own fields: the adverse price, all the cash
    less the fee, the fee and the quantity are each the nearest stored amount.
   */
  lemma PurchaseTrade(cfg: Config, book: Book, candle: Candle, signal: Signal)
    requires book.cash >= 0.0 && BuyAllIn(cfg, book, candle, signal).Ok?
    ensures var after := BuyAllIn(cfg, book, candle, signal).value;
            && |after.trades| == |book.trades| + 1
            && var t := after.trades[|book.trades|];
            && PurchaseAmounts(cfg, book.cash, candle.open, t.price, after.openCost - t.fee, t.fee, t.quantity)
            && t == Trade(|book.trades| + 1, Buy, signal.candleTimestamp, candle.timestamp,
                          t.price, t.quantity, t.fee, None)
            && after == book.(cash := 0.0, quantity := t.quantity, openCost := after.openCost,
                              totalFees := book.totalFees + t.fee, trades := book.trades + [t])
  {
    hide Quantize, FillPrice, Spendable, FeeOn, QuantityFor, PurchaseAmounts;
    PurchaseAmountsNear(cfg, book.cash, candle.open);
  }

  /** The amounts of a sale: price, gross and fee are each the nearest stored amount. */
  predicate SaleAmounts(cfg: Config, quantity: real, open: real, price: real, gross: real, fee: real) {
    && price > 0.0
    && SoldAt(price, open, cfg.slippageBps)
    && Near(gross, quantity * price)
    && Near(fee, gross * cfg.feeRate)
    && OnGrid(price) && OnGrid(gross) && OnGrid(fee)
  }

  lemma SaleAmountsNear(cfg: Config, quantity: real, open: real, cost: real)
    requires quantity > 0.0 && OnGrid(cost)
    ensures var price := FillPrice(open, Sell, cfg.slippageBps);
            var gross := Notional(quantity, price);
            var fee := FeeOn(gross, cfg.feeRate);
            price > 0.0 ==>
              && SaleAmounts(cfg, quantity, open, price, gross, fee)
              && Quantize(gross - fee) == gross - fee && Quantize(gross - fee - cost) == gross - fee - cost
  {
    hide Quantize, OnGrid, FillPrice, FeeOn, Notional, SoldAt;
    var price := FillPrice(open, Sell, cfg.slippageBps);
    var gross := Notional(quantity, price);
    FillPriceNear(open, cfg.slippageBps);
    if price > 0.0 {
      ProceedsNonNegative(quantity, price, cfg.feeRate);
      NotionalNear(quantity, price);
      NearMeans(gross, quantity * price);
      FeeNear(gross, cfg.feeRate);
      NearMeans(FeeOn(gross, cfg.feeRate), gross * cfg.feeRate);
      GridClosed(gross, FeeOn(gross, cfg.feeRate));
      GridClosed(gross - FeeOn(gross, cfg.feeRate), cost);
    }
  }

  /**
    The trade that a sale adds, told by its own fields: the adverse price, the whole position,
    the fee nearest to its rate of the gross, and as its result the proceeds less the cost.
   */
  lemma SaleTrade(cfg: Config, book: Book, candle: Candle, signal: Signal)
    requires book.quantity > 0.0 && OnGrid(book.openCost) && SellAll(cfg, book, candle, signal).Ok?
    ensures var after := SellAll(cfg, book, candle, signal).value;
            && |after.trades| == |book.trades| + 1
            && var t := after.trades[|book.trades|];
            && SaleAmounts(cfg, book.quantity, candle.open, t.price, after.cash + t.fee, t.fee)
            && t == Trade(|book.trades| + 1, Sell, signal.candleTimestamp, candle.timestamp,
                          t.price, book.quantity, t.fee, Some(after.cash - book.openCost))
            && after == book.(cash := after.cash, quantity := 0.0, openCost := 0.0,
                              totalFees := book.totalFees + t.fee, trades := book.trades + [t],
                              realized := book.realized + [after.cash - book.openCost])
  {
    hide Quantize, OnGrid, FillPrice, FeeOn, Notional, SaleAmounts;
    SaleAmountsNear(cfg, book.quantity, candle.open, book.openCost);
  }

  /**
    What a purchase does: it spends all the cash, books gross plus fee without a further
    rounding loss and within 3/2 quanta of that cash, and buys the gross divided by the
    price, up to half a quantum. It fails exactly when price or quantity round to nothing.
   */
  lemma PurchaseBooks(cfg: Config, book: Book, candle: Candle, signal: Signal)
    requires book.cash >= 0.0
    ensures var price, gross := FillPrice(candle.open, Buy, cfg.slippageBps), Spendable(book.cash, cfg.feeRate);
            var fee, r := FeeOn(gross, cfg.feeRate), BuyAllIn(cfg, book, candle, signal);
            && (r.Ok? <==> price > 0.0 && QuantityFor(gross, price) > 0.0)
            && (r.Ok? ==>
                  var after := r.value;
                  && after.cash == 0.0 && after.openCost == gross + fee && 0.0 <= fee <= gross
                  && -1.5 * QUANTUM <= after.openCost - book.cash <= 1.5 * QUANTUM
                  && after.quantity > 0.0
                  && -QUANTUM / 2.0 <= after.quantity - gross / price <= QUANTUM / 2.0
                  && after.totalFees == book.totalFees + fee && after.realized == book.realized
                  && after.trades == book.trades + [after.trades[|book.trades|]])
  {
    hide Quantize, OnGrid, FillPrice, Spendable, FeeOn, QuantityFor;
    var price, gross := FillPrice(candle.open, Buy, cfg.slippageBps), Spendable(book.cash, cfg.feeRate);
    GrossNonNegative(book.cash, cfg.feeRate);
    SpendableNear(book.cash, cfg.feeRate);
    FeeBelowGross(gross, cfg.feeRate);
    FeeNear(gross, cfg.feeRate);
    GridClosed(gross, FeeOn(gross, cfg.feeRate));
    BuyCostNearCash(book.cash, cfg.feeRate);
    if price > 0.0 {
      QuantityNear(gross, price);
    }
  }

  lemma GrossNonNegative(cash: real, feeRate: real)
    requires cash >= 0.0 && feeRate >= 0.0
    ensures Spendable(cash, feeRate) >= 0.0
  {
    hide Quantize;
    QuantizeNonNegative(cash / (1.0 + feeRate));
  }

  /**
    What a sale does: the whole position goes, the proceeds are gross minus fee and the
    realized result is proceeds minus cost, both without a further rounding loss, and the
    gross is the value of the position up to half a quantum. It fails exactly when the price
    rounds to nothing.
   */
  lemma SaleBooks(cfg: Config, book: Book, candle: Candle, signal: Signal)
    requires book.quantity > 0.0 && OnGrid(book.openCost)
    ensures var price := FillPrice(candle.open, Sell, cfg.slippageBps);
            var gross, r := Notional(book.quantity, price), SellAll(cfg, book, candle, signal);
            && (r.Ok? <==> price > 0.0)
            && (r.Ok? ==>
                  var after, fee := r.value, FeeOn(gross, cfg.feeRate);
                  && after.quantity == 0.0 && after.openCost == 0.0 && 0.0 <= fee <= gross
                  && after.cash == gross - fee
                  && after.realized == book.realized + [after.cash - book.openCost]
                  && -QUANTUM / 2.0 <= gross - book.quantity * price <= QUANTUM / 2.0
                  && after.totalFees == book.totalFees + fee
                  && after.trades == book.trades + [after.trades[|book.trades|]])
  {
    hide Quantize, OnGrid, FillPrice, FeeOn, Notional;
    var price := FillPrice(candle.open, Sell, cfg.slippageBps);
    if price > 0.0 {
      var gross := Notional(book.quantity, price);
      ProceedsNonNegative(book.quantity, price, cfg.feeRate);
      FeeBelowGross(gross, cfg.feeRate);
      GridClosed(gross, FeeOn(gross, cfg.feeRate));
      GridClosed(gross - FeeOn(gross, cfg.feeRate), book.openCost);
      NotionalNear(book.quantity, price);
    }
  }

  /** The rounding miss of the gross is scaled by 1 + fee rate, then the fee's own miss is added. */
  lemma MissesAddUp(cash: real, feeRate: real, gross: real, fee: real, half: real)
    requires 0.0 <= feeRate < 1.0
    requires -half <= gross - cash / (1.0 + feeRate) <= half
    requires -half <= fee - gross * feeRate <= half
    ensures -3.0 * half <= gross + fee - cash <= 3.0 * half
  {
    var d := 1.0 + feeRate;
    var x := cash / d;
    assert x * d == cash;
    ScaledWithin(gross - x, half, d);
    Distribute(gross, x, d);
    Distribute(1.0, feeRate, gross);
  }

  lemma SumAppend(s: seq<real>, x: real)
    ensures Sum(s + [x]) == Sum(s) + x
  {
    assert (s + [x])[..|s|] == s;
  }

  lemma CountAppend(trades: seq<Trade>, t: Trade, side: Side)
    ensures CountSide(trades + [t], side) == CountSide(trades, side) + if t.side == side then 1 else 0
  {
    assert (trades + [t])[..|trades|] == trades;
  }

  lemma BuyKeepsAccounts(cfg: Config, book: Book, candle: Candle, signal: Signal)
    requires Accounted(cfg, book) && book.cash >= 0.0 && book.quantity == 0.0
    requires BuyAllIn(cfg, book, candle, signal).Ok?
    ensures Accounted(cfg, BuyAllIn(cfg, book, candle, signal).value)
  {
    hide Quantize, FillPrice, Spendable, FeeOn, QuantityFor, Notional, CountSide, Sum, OnGrid, Slack;
    var after := BuyAllIn(cfg, book, candle, signal).value;
    BuyCostNearCash(book.cash, cfg.feeRate);
    CountAppend(book.trades, after.trades[|book.trades|], Buy);
    SlackAdds(CountSide(book.trades, Buy));
  }

  lemma SellKeepsAccounts(cfg: Config, book: Book, candle: Candle, signal: Signal)
    requires Accounted(cfg, book) && book.quantity > 0.0
    requires SellAll(cfg, book, candle, signal).Ok?
    ensures Accounted(cfg, SellAll(cfg, book, candle, signal).value)
  {
    hide Quantize, FillPrice, Spendable, FeeOn, QuantityFor, Notional, CountSide, Sum, OnGrid, Slack;
    var after := SellAll(cfg, book, candle, signal).value;
    var price := FillPrice(candle.open, Sell, cfg.slippageBps);
    ProceedsNonNegative(book.quantity, price, cfg.feeRate);
    var gross := Notional(book.quantity, price);
    GridClosed(gross, FeeOn(gross, cfg.feeRate));
    GridClosed(after.cash, book.openCost);
    SumAppend(book.realized, after.realized[|book.realized|]);
    CountAppend(book.trades, after.trades[|book.trades|], Buy);
  }

  lemma ExecuteKeepsAccounts(cfg: Config, book: Book, candle: Candle)
    requires WellFormed(book) && Accounted(cfg, book) && Execute(cfg, book, candle).Ok?
    ensures Accounted(cfg, Execute(cfg, book, candle).value)
  {
    hide BuyAllIn, SellAll, Accounted, Alternating, RealizedBySells;
    if book.pending.Some? {
      var signal := book.pending.value;
      if signal.action == GoLong && book.quantity == 0.0 {
        BuyKeepsAccounts(cfg, book, candle, signal);
      } else if signal.action == GoFlat && book.quantity > 0.0 {
        SellKeepsAccounts(cfg, book, candle, signal);
      }
    }
  }

  lemma ObserveKeepsAccounts(strategy: Strategy, cfg: Config, book: Book, seen: seq<Candle>)
    requires |seen| > 0 && Accounted(cfg, book) && Observe(strategy, book, seen).Ok?
    ensures Accounted(cfg, Observe(strategy, book, seen).value)
  {
    hide OnGrid, Sum, CountSide, Slack, Equity;
  }

  lemma {:induction false} BookIsAccounted(strategy: Strategy, cfg: Config, ordered: seq<Candle>, n: nat)
    requires n <= |ordered| && Simulate(strategy, cfg, ordered, n).Ok?
    ensures Accounted(cfg, Simulate(strategy, cfg, ordered, n).value)
  {
    if n == 0 {
      OpeningIsAccounted(cfg);
    } else {
      hide Accounted, WellFormed, Execute, Observe;
      var before := Simulate(strategy, cfg, ordered, n - 1).value;
      BookIsAccounted(strategy, cfg, ordered, n - 1);
      BookIsWellFormed(strategy, cfg, ordered, n - 1);
      ExecuteKeepsAccounts(cfg, before, ordered[n - 1]);
      ObserveKeepsAccounts(strategy, cfg, Execute(cfg, before, ordered[n - 1]).value, ordered[..n]);
    }
  }

  lemma OpeningIsAccounted(cfg: Config)
    ensures Accounted(cfg, OpeningBook(cfg))
  {}

  /** With an open position worth `value`, three roundings stand between the report and the books. */
  lemma OpenDriftAdds(
      value: real, capital: real, cost: real, realized: real,
      ending: real, absolute: real, unrealized: real, slack: real)
    requires -slack <= cost - capital - realized <= slack
    requires -QUANTUM / 2.0 <= ending - value <= QUANTUM / 2.0
    requires -QUANTUM / 2.0 <= absolute - (ending - capital) <= QUANTUM / 2.0
    requires -QUANTUM / 2.0 <= unrealized - (value - cost) <= QUANTUM / 2.0
    ensures -(slack + 1.5 * QUANTUM) <= absolute - (realized + unrealized) <= slack + 1.5 * QUANTUM
  {}

  /**
    The reported profit and the sum of the realized results and the unrealized
    profit differ by at most 3/2 quanta per entry, plus one entry's worth.
   */
  lemma ReportedProfitBound(strategy: Strategy, cfg: Config, ordered: seq<Candle>, book: Book, report: Report)
    requires |ordered| > 0
    requires Simulate(strategy, cfg, ordered, |ordered|) == Ok(book)
    requires Reports(report, cfg, book, ordered)
    ensures var drift := report.absolutePnl - (Sum(report.realized) + report.unrealizedPnl);
            -Slack(report.entries + 1) <= drift <= Slack(report.entries + 1)
  {
    hide Quantize, OnGrid, Equity, Unrealized, Simulate, CountSide, Sum, Slack, Accounted, Positioned, Alternating,
      RealizedBySells,
      WorstFall, WorstFallPct, EquityLike, CountWins, CountLosses, Gained, Lost;
    BookIsAccounted(strategy, cfg, ordered, |ordered|);
    BookIsWellFormed(strategy, cfg, ordered, |ordered|);
    BookProfitBound(cfg, book, ordered[|ordered| - 1].close, report.absolutePnl, report.unrealizedPnl);
  }

  lemma BookProfitBound(cfg: Config, book: Book, close: real, absolute: real, unrealized: real)
    requires Accounted(cfg, book) && Positioned(book)
    requires absolute == Quantize(Equity(book.cash, book.quantity, close) - cfg.initialCapital)
    requires unrealized == Quantize(Unrealized(book.quantity, book.openCost, close))
    ensures var drift, entries := absolute - (Sum(book.realized) + unrealized), CountSide(book.trades, Buy);
            -Slack(entries + 1) <= drift <= Slack(entries + 1)
  {
    hide Quantize, OnGrid, Equity, CountSide, Sum, Slack;
    var entries, ending := CountSide(book.trades, Buy), Equity(book.cash, book.quantity, close);
    SlackAdds(entries);
    EquityNear(book.cash, book.quantity, close);
    QuantizeNearest(ending - cfg.initialCapital);
    if book.quantity > 0.0 {
      UnrealizedNear(book.quantity, book.openCost, close);
      OpenDriftAdds(book.quantity * close, cfg.initialCapital, book.openCost, Sum(book.realized),
                    ending, absolute, unrealized, Slack(entries));
    } else {
      QuantizeZero();
    }
  }
}
