/** Whole-run properties of the backtest: what every completed run satisfies. */
module BacktestProperties {
  import opened Backtest
  import opened Candles
  import opened Drawdown
  import opened Reals
  import opened Rounding
  import opened Sorting
  import opened Wrappers

  // ---------- the shape of the trade list ----------

  /** Trades alternate BUY, SELL, BUY, ...; each SELL sells exactly what the BUY before it bought. */
  predicate Alternating(trades: seq<Trade>) {
    forall i :: 0 <= i < |trades| ==>
      && trades[i].sequence == i + 1
      && trades[i].side == (if i % 2 == 0 then Buy else Sell)
      && trades[i].price > 0.0 && trades[i].quantity > 0.0
      && (trades[i].side == Buy <==> trades[i].realizedPnl.None?)
      && (i % 2 == 1 ==> trades[i].quantity == trades[i - 1].quantity)
  }

  /** Either all cash or all position, and the trade list says which. */
  predicate Positioned(book: Book) {
    && book.cash >= 0.0 && book.quantity >= 0.0
    && (book.quantity > 0.0 <==> |book.trades| % 2 == 1)
    && (book.quantity > 0.0 ==> book.cash == 0.0 && book.quantity == book.trades[|book.trades| - 1].quantity)
    && (book.quantity == 0.0 ==> book.openCost == 0.0)
  }

  /** The realized results are, in order, those of the SELL trades. */
  predicate RealizedBySells(book: Book) {
    && |book.realized| == |book.trades| / 2
    && forall k :: 0 <= k < |book.realized| ==> book.trades[2 * k + 1].realizedPnl == Some(book.realized[k])
  }

  predicate WellFormed(book: Book) {
    Alternating(book.trades) && Positioned(book) && RealizedBySells(book)
  }

  lemma SpendableNear(cash: real, feeRate: real)
    requires feeRate >= 0.0
    ensures OnGrid(Spendable(cash, feeRate))
    ensures -QUANTUM / 2.0 <= Spendable(cash, feeRate) - cash / (1.0 + feeRate) <= QUANTUM / 2.0
  {
    hide Quantize, OnGrid;
    QuantizeNearest(cash / (1.0 + feeRate));
  }

  lemma FeeNear(gross: real, feeRate: real)
    ensures OnGrid(FeeOn(gross, feeRate))
    ensures -QUANTUM / 2.0 <= FeeOn(gross, feeRate) - gross * feeRate <= QUANTUM / 2.0
  {
    hide Quantize, OnGrid;
    QuantizeNearest(gross * feeRate);
  }

  lemma EquityNear(cash: real, quantity: real, price: real)
    ensures OnGrid(Equity(cash, quantity, price))
    ensures -QUANTUM / 2.0 <= Equity(cash, quantity, price) - (cash + quantity * price) <= QUANTUM / 2.0
    ensures OnGrid(cash) && quantity == 0.0 ==> Equity(cash, quantity, price) == cash
  {
    hide Quantize, OnGrid;
    QuantizeNearest(cash + quantity * price);
    if quantity == 0.0 {
      assert cash + quantity * price == cash;
    }
  }

  lemma UnrealizedNear(quantity: real, openCost: real, price: real)
    requires quantity > 0.0
    ensures Quantize(Unrealized(quantity, openCost, price)) == Unrealized(quantity, openCost, price)
    ensures -QUANTUM / 2.0 <= Unrealized(quantity, openCost, price) - (quantity * price - openCost) <= QUANTUM / 2.0
  {
    hide Quantize, OnGrid;
    QuantizeNearest(quantity * price - openCost);
    QuantizeNearest(Quantize(quantity * price - openCost));
  }

  lemma FeeBelowGross(gross: real, feeRate: real)
    requires gross >= 0.0 && OnGrid(gross) && 0.0 <= feeRate < 1.0
    ensures 0.0 <= FeeOn(gross, feeRate) <= gross
  {
    hide Quantize, OnGrid;
    var exact := gross * feeRate;
    ProductNonNegative(gross, feeRate);
    ProductMonotone(feeRate, 1.0, gross);
    assert exact <= gross;
    QuantizeNonNegative(exact);
    QuantizeMonotone(exact, gross);
    QuantizeNearest(gross);
    assert FeeOn(gross, feeRate) == Quantize(exact);
  }

  lemma ProceedsNonNegative(quantity: real, price: real, feeRate: real)
    requires quantity >= 0.0 && price >= 0.0 && 0.0 <= feeRate < 1.0
    ensures var gross := Notional(quantity, price);
            gross >= 0.0 && OnGrid(gross) && OnGrid(FeeOn(gross, feeRate)) &&
            Quantize(gross - FeeOn(gross, feeRate)) == gross - FeeOn(gross, feeRate) >= 0.0
  {
    ProductNonNegative(quantity, price);
    QuantizeNonNegative(quantity * price);
    QuantizeNearest(quantity * price);
    var gross := Notional(quantity, price);
    QuantizeNearest(gross * feeRate);
    FeeBelowGross(gross, feeRate);
    GridClosed(gross, FeeOn(gross, feeRate));
  }

  lemma ExecuteKeepsShape(cfg: Config, book: Book, candle: Candle)
    requires WellFormed(book) && Execute(cfg, book, candle).Ok?
    ensures WellFormed(Execute(cfg, book, candle).value)
  {
    hide Quantize, FillPrice, Spendable, FeeOn, QuantityFor, Notional;
    if book.pending.Some? && book.pending.value.action == GoFlat && book.quantity > 0.0 {
      ProceedsNonNegative(book.quantity, FillPrice(candle.open, Sell, cfg.slippageBps), cfg.feeRate);
    }
  }

  lemma ObserveKeepsShape(strategy: Strategy, book: Book, seen: seq<Candle>)
    requires |seen| > 0 && WellFormed(book) && Observe(strategy, book, seen).Ok?
    ensures WellFormed(Observe(strategy, book, seen).value)
  {}

  /** Every book the engine reaches is well formed. */
  lemma {:induction false} BookIsWellFormed(strategy: Strategy, cfg: Config, ordered: seq<Candle>, n: nat)
    requires n <= |ordered| && Simulate(strategy, cfg, ordered, n).Ok?
    ensures WellFormed(Simulate(strategy, cfg, ordered, n).value)
  {
    hide Quantize, WellFormed, Execute, Observe;
    if n == 0 {
      OpeningIsWellFormed(cfg);
    } else {
      BookIsWellFormed(strategy, cfg, ordered, n - 1);
      var before := Simulate(strategy, cfg, ordered, n - 1).value;
      ExecuteKeepsShape(cfg, before, ordered[n - 1]);
      ObserveKeepsShape(strategy, Execute(cfg, before, ordered[n - 1]).value, ordered[..n]);
    }
  }

  lemma OpeningIsWellFormed(cfg: Config)
    ensures WellFormed(OpeningBook(cfg))
  {}

  lemma EquityNonNegative(cash: real, quantity: real, price: real)
    requires cash >= 0.0 && quantity >= 0.0 && price > 0.0
    ensures Equity(cash, quantity, price) >= 0.0
  {
    hide Quantize;
    ProductNonNegative(quantity, price);
    QuantizeNonNegative(cash + quantity * price);
  }

  lemma ObserveKeepsEquityLike(strategy: Strategy, book: Book, seen: seq<Candle>)
    requires |seen| > 0 && Positioned(book) && EquityLike(book.curve) && Observe(strategy, book, seen).Ok?
    ensures EquityLike(Observe(strategy, book, seen).value.curve)
  {
    hide Equity;
    EquityNonNegative(book.cash, book.quantity, seen[|seen| - 1].close);
  }

  /** The equity curve starts at the capital and never goes negative, so its drawdown is at most 100%. */
  lemma {:induction false} CurveIsEquityLike(strategy: Strategy, cfg: Config, ordered: seq<Candle>, n: nat)
    requires n <= |ordered| && Simulate(strategy, cfg, ordered, n).Ok?
    ensures EquityLike(Simulate(strategy, cfg, ordered, n).value.curve)
  {
    hide Execute, Observe, Alternating, RealizedBySells, Positioned;
    if n > 0 {
      hide EquityLike;
      CurveIsEquityLike(strategy, cfg, ordered, n - 1);
      BookIsWellFormed(strategy, cfg, ordered, n - 1);
      var before := Simulate(strategy, cfg, ordered, n - 1).value;
      ExecuteKeepsShape(cfg, before, ordered[n - 1]);
      ExecuteKeepsCurve(cfg, before, ordered[n - 1]);
      ObserveKeepsEquityLike(strategy, Execute(cfg, before, ordered[n - 1]).value, ordered[..n]);
    }
  }

  lemma ExecuteKeepsCurve(cfg: Config, book: Book, candle: Candle)
    requires Execute(cfg, book, candle).Ok?
    ensures Execute(cfg, book, candle).value.curve == book.curve
  {
    hide Quantize, FillPrice, Spendable, FeeOn, QuantityFor, Notional;
  }

  // ---------- a signal executes on the very next candle ----------

  /** `t` carries out the signal the strategy gave for the candles before index `k`, at candle `k`. */
  ghost predicate ExecutedAt(strategy: Strategy, ordered: seq<Candle>, t: Trade, k: int) {
    && 1 <= k < |ordered| && k >= strategy.requiredHistory
    && t.executionTime == ordered[k].timestamp
    && strategy.evaluate(ordered[..k]) == Ok(Signal(if t.side == Buy then GoLong else GoFlat, t.signalTime))
  }

  ghost predicate ExecutionIndices(strategy: Strategy, ordered: seq<Candle>, trades: seq<Trade>, ks: seq<int>, n: int) {
    && |ks| == |trades|
    && (forall i :: 0 <= i < |ks| ==> ks[i] < n && ExecutedAt(strategy, ordered, trades[i], ks[i]))
    && (forall i, j :: 0 <= i < j < |ks| ==> ks[i] < ks[j])
  }

  lemma {:induction false} PendingIsLatestSignal(strategy: Strategy, cfg: Config, ordered: seq<Candle>, n: nat)
    requires n <= |ordered| && Simulate(strategy, cfg, ordered, n).Ok?
    ensures var pending := Simulate(strategy, cfg, ordered, n).value.pending;
            pending.Some? ==> 1 <= n && n >= strategy.requiredHistory &&
                              strategy.evaluate(ordered[..n]) == Ok(pending.value)
  {
    hide Quantize, Execute;
  }

  lemma ExecuteAddsTrade(cfg: Config, book: Book, candle: Candle)
    requires Execute(cfg, book, candle).Ok?
    ensures var after := Execute(cfg, book, candle).value;
            after.trades == book.trades ||
            (book.pending.Some? && |after.trades| == |book.trades| + 1 &&
             after.trades[..|book.trades|] == book.trades &&
             var t := after.trades[|book.trades|];
             t.executionTime == candle.timestamp && t.signalTime == book.pending.value.candleTimestamp &&
             book.pending.value.action == if t.side == Buy then GoLong else GoFlat)
  {
    hide Quantize, FillPrice, Spendable, FeeOn, QuantityFor, Notional;
  }

  lemma {:induction false} FindExecutionIndices(strategy: Strategy, cfg: Config, ordered: seq<Candle>, n: nat)
    returns (ks: seq<int>)
    requires n <= |ordered| && Simulate(strategy, cfg, ordered, n).Ok?
    ensures ExecutionIndices(strategy, ordered, Simulate(strategy, cfg, ordered, n).value.trades, ks, n)
  {
    hide Quantize, Execute;
    ks := [];
    if n > 0 {
      var before := Simulate(strategy, cfg, ordered, n - 1).value;
      ks := FindExecutionIndices(strategy, cfg, ordered, n - 1);
      PendingIsLatestSignal(strategy, cfg, ordered, n - 1);
      ExecuteAddsTrade(cfg, before, ordered[n - 1]);
      if Execute(cfg, before, ordered[n - 1]).value.trades != before.trades {
        ks := ks + [n - 1];
      }
    }
  }

  /**
    Every trade carries out a signal evaluated on exactly the candles before it, at
    the candle right after them, and at most one trade happens per candle.
   */
  lemma TradesExecuteOnNextCandle(strategy: Strategy, cfg: Config, ordered: seq<Candle>)
    requires Simulate(strategy, cfg, ordered, |ordered|).Ok?
    ensures exists ks :: ExecutionIndices(strategy, ordered,
                                          Simulate(strategy, cfg, ordered, |ordered|).value.trades, ks, |ordered|)
  {
    var ks := FindExecutionIndices(strategy, cfg, ordered, |ordered|);
  }

  // ---------- no look-ahead ----------

  /** The book after `n` candles depends on those `n` candles only. */
  lemma {:induction false} SimulateSeesOnlyPrefix(
      strategy: Strategy, cfg: Config, a: seq<Candle>, b: seq<Candle>, n: nat)
    requires n <= |a| && n <= |b| && a[..n] == b[..n]
    ensures Simulate(strategy, cfg, a, n) == Simulate(strategy, cfg, b, n)
  {
    hide Quantize, Execute, Observe;
    if n > 0 {
      assert a[..n - 1] == a[..n][..n - 1] && b[..n - 1] == b[..n][..n - 1];
      assert a[n - 1] == a[..n][n - 1] && b[n - 1] == b[..n][n - 1];
      SimulateSeesOnlyPrefix(strategy, cfg, a, b, n - 1);
    }
  }

  /** How many candles at the front are no later than `cutoff`. */
  function PrefixUpTo(ordered: seq<Candle>, cutoff: int): (n: nat)
    ensures n <= |ordered|
    ensures forall i :: 0 <= i < n ==> ordered[i].timestamp <= cutoff
  {
    if |ordered| == 0 || ordered[0].timestamp > cutoff then 0
    else 1 + PrefixUpTo(ordered[1..], cutoff)
  }

  lemma {:induction false} AfterPrefixIsLater(ordered: seq<Candle>, cutoff: int)
    requires SortedBy(OpenTime, ordered)
    ensures forall i :: PrefixUpTo(ordered, cutoff) <= i < |ordered| ==> ordered[i].timestamp > cutoff
  {
    if |ordered| > 0 && ordered[0].timestamp <= cutoff {
      AfterPrefixIsLater(ordered[1..], cutoff);
    } else if |ordered| > 0 {
      forall i | 0 < i < |ordered| ensures ordered[i].timestamp > cutoff {
        assert KeyLeq(OpenTime(ordered[0]), OpenTime(ordered[i]));
      }
    }
  }

  lemma {:induction false} InPeriodCounts(candles: seq<Candle>, cfg: Config, c: Candle)
    ensures multiset(InPeriod(candles, cfg))[c] ==
            if cfg.startTime <= c.timestamp <= cfg.endTime then multiset(candles)[c] else 0
  {
    if |candles| > 0 {
      assert candles == [candles[0]] + candles[1..];
      InPeriodCounts(candles[1..], cfg, c);
    }
  }

  lemma PrefixCounts(ordered: seq<Candle>, cutoff: int, c: Candle)
    requires SortedBy(OpenTime, ordered)
    ensures multiset(ordered[..PrefixUpTo(ordered, cutoff)])[c] ==
            if c.timestamp <= cutoff then multiset(ordered)[c] else 0
  {
    var n := PrefixUpTo(ordered, cutoff);
    AfterPrefixIsLater(ordered, cutoff);
    assert ordered == ordered[..n] + ordered[n..];
    if c.timestamp <= cutoff {
      assert c !in ordered[n..];
    } else {
      assert c !in ordered[..n];
    }
  }

  /** The two datasets hold the same candles up to and including `cutoff`; later ones may differ freely. */
  ghost predicate AgreeUpTo(a: seq<Candle>, b: seq<Candle>, cutoff: int) {
    forall c: Candle :: c.timestamp <= cutoff ==> multiset(a)[c] == multiset(b)[c]
  }

  lemma PreparedPrefixesAgree(a: seq<Candle>, b: seq<Candle>, cfg: Config, cutoff: int)
    requires AgreeUpTo(a, b, cutoff)
    requires Prepare(a, cfg).Ok? && Prepare(b, cfg).Ok?
    ensures var oa, ob := Prepare(a, cfg).value, Prepare(b, cfg).value;
            oa[..PrefixUpTo(oa, cutoff)] == ob[..PrefixUpTo(ob, cutoff)]
  {
    hide Sort, InPeriod, PrefixUpTo, SortedBy, StrictlySortedBy;
    var oa, ob := Prepare(a, cfg).value, Prepare(b, cfg).value;
    SortSorts(OpenTime, InPeriod(a, cfg));
    SortSorts(OpenTime, InPeriod(b, cfg));
    var pa: seq<Candle> := oa[..PrefixUpTo(oa, cutoff)];
    var pb: seq<Candle> := ob[..PrefixUpTo(ob, cutoff)];
    forall c: Candle ensures multiset(pa)[c] == multiset(pb)[c] {
      PrefixCounts(oa, cutoff, c);
      PrefixCounts(ob, cutoff, c);
      InPeriodCounts(a, cfg, c);
      InPeriodCounts(b, cfg, c);
    }
    assert multiset(pa) == multiset(pb);
    SortedDistinctIsStrict(OpenTime, oa);
    PrefixesSorted(OpenTime, oa, PrefixUpTo(oa, cutoff), ob, PrefixUpTo(ob, cutoff));
    SortedUnique(OpenTime, pa, pb);
  }

  function TradesUpTo(trades: seq<Trade>, cutoff: int): seq<Trade> {
    if |trades| == 0 then []
    else TradesUpTo(trades[..|trades| - 1], cutoff)
         + (if trades[|trades| - 1].executionTime <= cutoff then [trades[|trades| - 1]] else [])
  }

  /** Trades at or before the cutoff are exactly those of the run stopped at the cutoff. */
  lemma {:induction false} TradesUpToStopAtPrefix(
      strategy: Strategy, cfg: Config, ordered: seq<Candle>, cutoff: int, n: nat)
    requires SortedBy(OpenTime, ordered) && n <= |ordered|
    requires Simulate(strategy, cfg, ordered, n).Ok?
    ensures var p := PrefixUpTo(ordered, cutoff);
            var stop := if p <= n then p else n;
            Simulate(strategy, cfg, ordered, stop).Ok? &&
            TradesUpTo(Simulate(strategy, cfg, ordered, n).value.trades, cutoff) ==
            Simulate(strategy, cfg, ordered, stop).value.trades
  {
    hide Quantize, Execute, SortedBy;
    if n > 0 {
      TradesUpToStopAtPrefix(strategy, cfg, ordered, cutoff, n - 1);
      var before := Simulate(strategy, cfg, ordered, n - 1).value;
      ExecuteAddsTrade(cfg, before, ordered[n - 1]);
      AfterPrefixIsLater(ordered, cutoff);
      var after := Simulate(strategy, cfg, ordered, n).value;
      if after.trades != before.trades {
        assert after.trades[..|after.trades| - 1] == before.trades;
      }
    }
  }

  /**
    No look-ahead: if two datasets hold the same candles up to a cutoff, then two
    completed runs trade identically up to that cutoff, whatever comes later and
    in whatever order the candles were supplied.
   */
  lemma NoLookAhead(strategy: Strategy, cfg: Config, a: seq<Candle>, b: seq<Candle>, cutoff: int)
    requires AgreeUpTo(a, b, cutoff)
    requires Prepare(a, cfg).Ok? && Prepare(b, cfg).Ok?
    requires Simulate(strategy, cfg, Prepare(a, cfg).value, |Prepare(a, cfg).value|).Ok?
    requires Simulate(strategy, cfg, Prepare(b, cfg).value, |Prepare(b, cfg).value|).Ok?
    ensures TradesUpTo(Simulate(strategy, cfg, Prepare(a, cfg).value, |Prepare(a, cfg).value|).value.trades, cutoff) ==
            TradesUpTo(Simulate(strategy, cfg, Prepare(b, cfg).value, |Prepare(b, cfg).value|).value.trades, cutoff)
  {
    hide Quantize, Simulate, TradesUpTo, Sort;
    var oa, ob := Prepare(a, cfg).value, Prepare(b, cfg).value;
    SortSorts(OpenTime, InPeriod(a, cfg));
    SortSorts(OpenTime, InPeriod(b, cfg));
    PreparedPrefixesAgree(a, b, cfg, cutoff);
    TradesUpToStopAtPrefix(strategy, cfg, oa, cutoff, |oa|);
    TradesUpToStopAtPrefix(strategy, cfg, ob, cutoff, |ob|);
    SimulateSeesOnlyPrefix(strategy, cfg, oa, ob, PrefixUpTo(oa, cutoff));
  }

  /** The order in which the candles are supplied does not matter, for errors either. */
  lemma InputOrderIrrelevant(cfg: Config, a: seq<Candle>, b: seq<Candle>)
    requires multiset(a) == multiset(b)
    ensures Prepare(a, cfg) == Prepare(b, cfg)
  {
    hide Sort, InPeriod;
    var pa: seq<Candle> := InPeriod(a, cfg);
    var pb: seq<Candle> := InPeriod(b, cfg);
    forall c: Candle ensures multiset(pa)[c] == multiset(pb)[c] {
      InPeriodCounts(a, cfg, c);
      InPeriodCounts(b, cfg, c);
    }
    assert multiset(pa) == multiset(pb);
    var sa, sb := Sort(OpenTime, pa), Sort(OpenTime, pb);
    SortSorts(OpenTime, pa);
    SortSorts(OpenTime, pb);
    if DistinctKeys(OpenTime, sa) {
      DistinctKeysOfPermutation(OpenTime, sa, pa);
      SortIgnoresInputOrder(OpenTime, pa, pb);
    } else if DistinctKeys(OpenTime, sb) {
      DistinctKeysOfPermutation(OpenTime, sb, sa);
    }
  }
}
