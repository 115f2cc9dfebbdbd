/**
  Dearer trading never pays: raising the fee rate or the slippage never raises the
  equity of a backtest, through every rounding step (application/backtest.py).
 */
module BacktestCosts {
  import opened Backtest
  import opened BacktestProperties
  import opened Candles
  import opened Reals
  import opened Rounding
  import opened Wrappers

  /** The same backtest with costs at least as high. */
  predicate DearerCosts(cheap: Config, dear: Config) {
    && dear == cheap.(feeRate := dear.feeRate, slippageBps := dear.slippageBps)
    && cheap.feeRate <= dear.feeRate && cheap.slippageBps <= dear.slippageBps
  }

  /** `hi` is at least as rich as `lo`, in the same position, at every point so far. */
  ghost predicate Dominates(hi: Book, lo: Book) {
    && hi.cash >= lo.cash && hi.quantity >= lo.quantity
    && (hi.quantity > 0.0 <==> lo.quantity > 0.0)
    && hi.pending == lo.pending
    && |hi.curve| == |lo.curve|
    && forall i :: 0 <= i < |hi.curve| ==> hi.curve[i] >= lo.curve[i]
  }

  lemma FillPricesWorsen(open: real, cheapBps: real, dearBps: real)
    requires open > 0.0 && cheapBps <= dearBps
    ensures FillPrice(open, Buy, cheapBps) <= FillPrice(open, Buy, dearBps)
    ensures FillPrice(open, Sell, cheapBps) >= FillPrice(open, Sell, dearBps)
  {
    hide Quantize;
    ProductMonotone(1.0 + cheapBps / 10000.0, 1.0 + dearBps / 10000.0, open);
    ProductMonotone(1.0 - dearBps / 10000.0, 1.0 - cheapBps / 10000.0, open);
    QuantizeMonotone(ExecutionPrice(open, Buy, cheapBps), ExecutionPrice(open, Buy, dearBps));
    QuantizeMonotone(ExecutionPrice(open, Sell, dearBps), ExecutionPrice(open, Sell, cheapBps));
  }

  lemma BoughtQuantityShrinks(
      hiCash: real, loCash: real, cheapFee: real, dearFee: real, cheapPrice: real, dearPrice: real)
    requires hiCash >= loCash >= 0.0 && 0.0 <= cheapFee <= dearFee
    requires 0.0 < cheapPrice <= dearPrice
    ensures QuantityFor(Spendable(hiCash, cheapFee), cheapPrice) >= QuantityFor(Spendable(loCash, dearFee), dearPrice)
  {
    QuotientMonotone(loCash, hiCash, 1.0 + cheapFee, 1.0 + dearFee);
    QuantizeMonotone(loCash / (1.0 + dearFee), hiCash / (1.0 + cheapFee));
    QuantizeNonNegative(loCash / (1.0 + dearFee));
    var hi, lo := Spendable(hiCash, cheapFee), Spendable(loCash, dearFee);
    QuotientMonotone(lo, hi, cheapPrice, dearPrice);
    QuantizeMonotone(lo / dearPrice, hi / cheapPrice);
  }

  /** Each extra quantum of gross costs at most one quantum of fee, because the rate is strictly below one. */
  lemma FeeGrowsSlowerThanGross(hi: real, lo: real, feeRate: real)
    requires hi > lo && OnGrid(hi) && OnGrid(lo)
    requires 0.0 <= feeRate < 1.0
    ensures FeeOn(hi, feeRate) <= FeeOn(lo, feeRate) + (hi - lo)
  {
    hide Quantize, OnGrid;
    GridClosed(hi, lo);
    ProductStrict(feeRate, 1.0, hi - lo);
    Distribute(hi, lo, feeRate);
    QuantizeShift(lo * feeRate, hi * feeRate, hi - lo);
  }

  lemma FeeGrowsWithRate(gross: real, cheapFee: real, dearFee: real)
    requires gross >= 0.0 && cheapFee <= dearFee
    ensures FeeOn(gross, cheapFee) <= FeeOn(gross, dearFee)
  {
    hide Quantize;
    ProductMonotone(cheapFee, dearFee, gross);
    QuantizeMonotone(gross * cheapFee, gross * dearFee);
  }

  /** Selling for more at a lower fee rate brings in at least as much, although the fee itself is rounded. */
  lemma ProceedsShrink(hi: real, lo: real, cheapFee: real, dearFee: real)
    requires hi >= lo >= 0.0 && OnGrid(hi) && OnGrid(lo)
    requires 0.0 <= cheapFee <= dearFee < 1.0
    ensures hi - FeeOn(hi, cheapFee) >= lo - FeeOn(lo, dearFee)
  {
    hide FeeOn, OnGrid;
    FeeGrowsWithRate(lo, cheapFee, dearFee);
    if hi > lo {
      FeeGrowsSlowerThanGross(hi, lo, cheapFee);
    }
  }

  lemma SoldProceedsShrink(hi: real, lo: real, cheapPrice: real, dearPrice: real, cheapFee: real, dearFee: real)
    requires hi >= lo >= 0.0 && cheapPrice >= dearPrice > 0.0
    requires 0.0 <= cheapFee <= dearFee < 1.0
    ensures var g, h := Notional(hi, cheapPrice), Notional(lo, dearPrice);
            Quantize(g - FeeOn(g, cheapFee)) >= Quantize(h - FeeOn(h, dearFee))
  {
    hide Quantize, FeeOn;
    ProductsMonotone(lo, hi, dearPrice, cheapPrice);
    QuantizeMonotone(lo * dearPrice, hi * cheapPrice);
    ProceedsNonNegative(hi, cheapPrice, cheapFee);
    ProceedsNonNegative(lo, dearPrice, dearFee);
    ProceedsShrink(Notional(hi, cheapPrice), Notional(lo, dearPrice), cheapFee, dearFee);
  }

  lemma ExecuteKeepsDominance(cheap: Config, dear: Config, hi: Book, lo: Book, candle: Candle)
    requires DearerCosts(cheap, dear) && Dominates(hi, lo)
    requires WellFormed(hi) && WellFormed(lo)
    requires Execute(cheap, hi, candle).Ok? && Execute(dear, lo, candle).Ok?
    ensures Dominates(Execute(cheap, hi, candle).value, Execute(dear, lo, candle).value)
  {
    hide Quantize, FillPrice, Spendable, FeeOn, QuantityFor, Notional, Alternating, RealizedBySells;
    FillPricesWorsen(candle.open, cheap.slippageBps, dear.slippageBps);
    if hi.pending.Some? {
      var action := hi.pending.value.action;
      if action == GoLong && hi.quantity == 0.0 {
        BoughtQuantityShrinks(hi.cash, lo.cash, cheap.feeRate, dear.feeRate,
                              FillPrice(candle.open, Buy, cheap.slippageBps),
                              FillPrice(candle.open, Buy, dear.slippageBps));
      } else if action == GoFlat && hi.quantity > 0.0 {
        SoldProceedsShrink(hi.quantity, lo.quantity,
                           FillPrice(candle.open, Sell, cheap.slippageBps),
                           FillPrice(candle.open, Sell, dear.slippageBps),
                           cheap.feeRate, dear.feeRate);
      }
    }
  }

  lemma EquityMonotone(hiCash: real, hiQuantity: real, loCash: real, loQuantity: real, price: real)
    requires hiCash >= loCash && hiQuantity >= loQuantity && price > 0.0
    ensures Equity(hiCash, hiQuantity, price) >= Equity(loCash, loQuantity, price)
  {
    hide Quantize;
    ProductMonotone(loQuantity, hiQuantity, price);
    QuantizeMonotone(loCash + loQuantity * price, hiCash + hiQuantity * price);
  }

  lemma ObserveKeepsDominance(strategy: Strategy, hi: Book, lo: Book, seen: seq<Candle>)
    requires |seen| > 0 && Dominates(hi, lo)
    requires Observe(strategy, hi, seen).Ok? && Observe(strategy, lo, seen).Ok?
    ensures Dominates(Observe(strategy, hi, seen).value, Observe(strategy, lo, seen).value)
  {
    hide Equity;
    EquityMonotone(hi.cash, hi.quantity, lo.cash, lo.quantity, seen[|seen| - 1].close);
  }

  /** The two runs move in lockstep: same position at every candle, the dearer one never richer. */
  lemma {:induction false} RunsStayOrdered(
      strategy: Strategy, cheap: Config, dear: Config, ordered: seq<Candle>, n: nat)
    requires n <= |ordered| && DearerCosts(cheap, dear)
    requires Simulate(strategy, cheap, ordered, n).Ok? && Simulate(strategy, dear, ordered, n).Ok?
    ensures Dominates(Simulate(strategy, cheap, ordered, n).value, Simulate(strategy, dear, ordered, n).value)
  {
    hide Execute, Observe, WellFormed, Dominates;
    if n == 0 {
      OpeningBooksOrdered(cheap, dear);
    } else {
      RunsStayOrdered(strategy, cheap, dear, ordered, n - 1);
      BookIsWellFormed(strategy, cheap, ordered, n - 1);
      BookIsWellFormed(strategy, dear, ordered, n - 1);
      var hi, lo := Simulate(strategy, cheap, ordered, n - 1).value, Simulate(strategy, dear, ordered, n - 1).value;
      ExecuteKeepsDominance(cheap, dear, hi, lo, ordered[n - 1]);
      ObserveKeepsDominance(strategy, Execute(cheap, hi, ordered[n - 1]).value, Execute(dear, lo, ordered[n - 1]).value,
                            ordered[..n]);
    }
  }

  lemma OpeningBooksOrdered(cheap: Config, dear: Config)
    requires DearerCosts(cheap, dear)
    ensures Dominates(OpeningBook(cheap), OpeningBook(dear))
  {}

  /** Raising fees and slippage never raises the ending equity, nor any point of the equity curve. */
  lemma CostsNeverHelp(strategy: Strategy, cheap: Config, dear: Config, ordered: seq<Candle>, hi: Book, lo: Book)
    requires |ordered| > 0 && DearerCosts(cheap, dear)
    requires Simulate(strategy, cheap, ordered, |ordered|) == Ok(hi)
    requires Simulate(strategy, dear, ordered, |ordered|) == Ok(lo)
    ensures var close := ordered[|ordered| - 1].close;
            Equity(hi.cash, hi.quantity, close) >= Equity(lo.cash, lo.quantity, close)
    ensures |hi.curve| == |lo.curve| && forall i :: 0 <= i < |hi.curve| ==> hi.curve[i] >= lo.curve[i]
  {
    RunsStayOrdered(strategy, cheap, dear, ordered, |ordered|);
    EquityMonotone(hi.cash, hi.quantity, lo.cash, lo.quantity, ordered[|ordered| - 1].close);
  }
}
