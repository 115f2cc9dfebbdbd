/** The EMA-crossover strategy (strategies/ema_atr.py, `EmaAtrStrategy`). */
module EmaAtrStrategy {
  import opened Candles
  import opened Indicators
  import opened Reals
  import opened Sorting
  import opened Wrappers
  import Backtest

  datatype ParameterRecord = ParameterRecord(fastPeriod: int, slowPeriod: int, atrPeriod: int, stopMultiple: real)

  /** What the constructor accepts. */
  type Parameters = p: ParameterRecord |
      p.fastPeriod >= 1 && p.slowPeriod >= 2 && p.atrPeriod >= 1 && p.fastPeriod < p.slowPeriod && p.stopMultiple > 0.0
    witness ParameterRecord(12, 26, 14, 2.0)

  datatype Error = TooShort | MixedMarkets | DuplicateTimestamps | NoWarmUp

  datatype Evaluation = Evaluation(
    action: Backtest.Action, candleTimestamp: int, score: real, referencePrice: real, stopPrice: Option<real>,
    fastEma: real, slowEma: real, atr: real)

  function RequiredHistory(p: Parameters): int {
    if p.slowPeriod + 1 >= p.atrPeriod + 1 then p.slowPeriod + 1 else p.atrPeriod + 1
  }

  function Closes(candles: seq<Candle>): seq<real> {
    seq(|candles|, i requires 0 <= i < |candles| => candles[i].close)
  }

  predicate OneMarket(candles: seq<Candle>) {
    forall i, j :: 0 <= i < j < |candles| ==>
      candles[i].exchange == candles[j].exchange && candles[i].symbol == candles[j].symbol &&
      candles[i].timeframe == candles[j].timeframe
  }

  function FastAt(p: Parameters, candles: seq<Candle>, i: nat): Option<real>
    requires i < |candles|
  {
    SmoothedAt(Exponential, Closes(candles), p.fastPeriod, i)
  }

  function SlowAt(p: Parameters, candles: seq<Candle>, i: nat): Option<real>
    requires i < |candles|
  {
    SmoothedAt(Exponential, Closes(candles), p.slowPeriod, i)
  }

  function AtrAt(p: Parameters, candles: seq<Candle>, i: nat): Option<real>
    requires i < |candles|
  {
    SmoothedAt(Wilder, TrueRanges(candles), p.atrPeriod, i)
  }

  /** BUY when the fast average crosses above the slow one, SELL when it crosses below. */
  function Crossover(fastPrevious: real, slowPrevious: real, fast: real, slow: real): Backtest.Action {
    if fastPrevious <= slowPrevious && fast > slow then Backtest.GoLong
    else if fastPrevious >= slowPrevious && fast < slow then Backtest.GoFlat
    else Backtest.Hold
  }

  function Score(fast: real, slow: real, close: real): real
    requires close > 0.0
  {
    (fast - slow) / close
  }

  function StopPrice(action: Backtest.Action, close: real, atr: real, multiple: real): Option<real> {
    var distance := atr * multiple;
    match action
    case GoLong => if close - distance > 0.0 then Some(close - distance) else None
    case GoFlat => Some(close + distance)
    case Hold => None
  }

  /** The decision on candles already in time order. */
  function EvaluateOrdered(p: Parameters, ordered: seq<Candle>): Result<Evaluation, Error>
    requires |ordered| >= RequiredHistory(p)
  {
    var n := |ordered|;
    var fastPrevious, fast := FastAt(p, ordered, n - 2), FastAt(p, ordered, n - 1);
    var slowPrevious, slow := SlowAt(p, ordered, n - 2), SlowAt(p, ordered, n - 1);
    var atr := AtrAt(p, ordered, n - 1);
    if fastPrevious.None? || fast.None? || slowPrevious.None? || slow.None? || atr.None? then Err(NoWarmUp)
    else
      var latest := ordered[n - 1];
      var action := Crossover(fastPrevious.value, slowPrevious.value, fast.value, slow.value);
      Ok(Evaluation(action, latest.timestamp, Score(fast.value, slow.value, latest.close), latest.close,
                    StopPrice(action, latest.close, atr.value, p.stopMultiple),
                    fast.value, slow.value, atr.value))
  }

  function Evaluate(p: Parameters, candles: seq<Candle>): Result<Evaluation, Error> {
    var ordered := Sort(OpenTime, candles);
    if |ordered| < RequiredHistory(p) then Err(TooShort)
    else if !OneMarket(ordered) then Err(MixedMarkets)
    else if !DistinctKeys(OpenTime, ordered) then Err(DuplicateTimestamps)
    else EvaluateOrdered(p, ordered)
  }

  /** The strategy as written: compute the three series, then read their last entries. */
  method RunEvaluation(p: Parameters, candles: seq<Candle>) returns (r: Result<Evaluation, Error>)
    ensures r == Evaluate(p, candles)
  {
    hide Sort, SmoothedAt, Crossover, Score, StopPrice, TrueRange;
    var ordered := Sort(OpenTime, candles);
    if |ordered| < RequiredHistory(p) {
      return Err(TooShort);
    }
    if !OneMarket(ordered) {
      return Err(MixedMarkets);
    }
    if !DistinctKeys(OpenTime, ordered) {
      return Err(DuplicateTimestamps);
    }
    var n := |ordered|;
    var fastValues := Ema(Closes(ordered), p.fastPeriod);
    var slowValues := Ema(Closes(ordered), p.slowPeriod);
    var atrValues := Atr(ordered, p.atrPeriod);
    var fastPrevious, fast := fastValues.value[n - 2], fastValues.value[n - 1];
    var slowPrevious, slow := slowValues.value[n - 2], slowValues.value[n - 1];
    var atr := atrValues.value[n - 1];
    if fastPrevious.None? || fast.None? || slowPrevious.None? || slow.None? || atr.None? {
      return Err(NoWarmUp);
    }
    var latest := ordered[n - 1];
    var action := Crossover(fastPrevious.value, slowPrevious.value, fast.value, slow.value);
    var stopPrice := StopPrice(action, latest.close, atr.value, p.stopMultiple);
    r := Ok(Evaluation(action, latest.timestamp, Score(fast.value, slow.value, latest.close), latest.close,
                       stopPrice, fast.value, slow.value, atr.value));
  }

  /** The required history is exactly enough: the warm-up error can never be raised. */
  lemma FailsOnlyOnBadInput(p: Parameters, candles: seq<Candle>)
    ensures Evaluate(p, candles).Err? <==>
            |candles| < RequiredHistory(p) || !OneMarket(Sort(OpenTime, candles)) || !DistinctKeys(OpenTime, candles)
    ensures Evaluate(p, candles) != Err(NoWarmUp)
    ensures Evaluate(p, candles) == Err(TooShort) <==> |candles| <= p.slowPeriod || |candles| <= p.atrPeriod
    ensures Evaluate(p, candles) == Err(MixedMarkets) <==>
            |candles| > p.slowPeriod && |candles| > p.atrPeriod && !OneMarket(Sort(OpenTime, candles))
  {
    hide Sort, Crossover, StopPrice, TrueRange, SmoothedAt;
    SortSorts(OpenTime, candles);
    var ordered := Sort(OpenTime, candles);
    var n := |ordered|;
    if DistinctKeys(OpenTime, candles) {
      DistinctKeysOfPermutation(OpenTime, candles, ordered);
    } else if DistinctKeys(OpenTime, ordered) {
      DistinctKeysOfPermutation(OpenTime, ordered, candles);
    }
    if n >= RequiredHistory(p) {
      DefinedAfterWarmUp(Exponential, Closes(ordered), p.fastPeriod, n - 2);
      DefinedAfterWarmUp(Exponential, Closes(ordered), p.fastPeriod, n - 1);
      DefinedAfterWarmUp(Exponential, Closes(ordered), p.slowPeriod, n - 2);
      DefinedAfterWarmUp(Exponential, Closes(ordered), p.slowPeriod, n - 1);
      DefinedAfterWarmUp(Wilder, TrueRanges(ordered), p.atrPeriod, n - 1);
    }
  }

  /** The score is the lead of the fast average relative to the price, and its sign is that of the action. */
  lemma ScoreAgreesWithAction(p: Parameters, candles: seq<Candle>)
    requires Evaluate(p, candles).Ok?
    ensures var e := Evaluate(p, candles).value;
            && e.referencePrice > 0.0 && e.score * e.referencePrice == e.fastEma - e.slowEma
            && (e.action == Backtest.GoLong ==> e.score > 0.0)
            && (e.action == Backtest.GoFlat ==> e.score < 0.0)
  {
    hide Sort, SmoothedAt, TrueRange, Closes;
    var e := Evaluate(p, candles).value;
    RatioSign(e.fastEma - e.slowEma, e.referencePrice);
  }

  lemma RatioSign(x: real, y: real)
    requires y > 0.0
    ensures (x / y) * y == x
    ensures (x > 0.0 ==> x / y > 0.0) && (x < 0.0 ==> x / y < 0.0)
  {}

  /** The stop is on the losing side of the price, and never a price the signal model would refuse. */
  lemma StopOnLosingSide(p: Parameters, candles: seq<Candle>)
    requires Evaluate(p, candles).Ok?
    ensures var e := Evaluate(p, candles).value;
            e.atr >= 0.0 &&
            (e.stopPrice.Some? ==> e.stopPrice.value > 0.0) &&
            (e.stopPrice.Some? && e.action == Backtest.GoLong ==> e.stopPrice.value <= e.referencePrice) &&
            (e.action == Backtest.GoFlat ==> e.stopPrice.Some? && e.stopPrice.value >= e.referencePrice)
    ensures var e := Evaluate(p, candles).value;
            && (e.action == Backtest.Hold ==> e.stopPrice == None)
            && (e.action == Backtest.GoLong ==>
                  (e.stopPrice.Some? <==> e.atr * p.stopMultiple < e.referencePrice) &&
                  (e.stopPrice.Some? ==> e.referencePrice - e.stopPrice.value == e.atr * p.stopMultiple))
            && (e.action == Backtest.GoFlat ==> e.stopPrice.value - e.referencePrice == e.atr * p.stopMultiple)
  {
    hide Sort, Crossover, SmoothedAt, TrueRange;
    var ordered := Sort(OpenTime, candles);
    var n := |ordered|;
    var ranges := TrueRanges(ordered);
    var top := TrueRangesBounded(ordered);
    SmoothedWithin(Wilder, ranges, p.atrPeriod, n - 1, 0.0, top);
    ProductNonNegative(AtrAt(p, ordered, n - 1).value, p.stopMultiple);
  }

  lemma {:induction false} TrueRangesBounded(candles: seq<Candle>) returns (top: real)
    ensures Within(TrueRanges(candles), 0.0, top)
  {
    top := 0.0;
    if |candles| > 0 {
      var n := |candles| - 1;
      var before := TrueRangesBounded(candles[..n]);
      TrueRangesPrefix(candles, n);
      var last := TrueRange(candles, n);
      top := if last > before then last else before;
      assert forall k :: 0 <= k < n ==> TrueRanges(candles)[k] == TrueRanges(candles)[..n][k];
    }
  }

  // ---------- one signal per prefix ----------

  /** A dataset the engine would hand over: in time order, one market, distinct times. */
  predicate Dataset(ordered: seq<Candle>) {
    SortedBy(OpenTime, ordered) && OneMarket(ordered) && DistinctKeys(OpenTime, ordered)
  }

  /**
    Evaluating a prefix reads the entries that one pass over the whole series computes: the
    averages, the range and so the stop.
   */
  lemma PrefixEvaluation(p: Parameters, ordered: seq<Candle>, n: nat)
    requires Dataset(ordered) && RequiredHistory(p) <= n <= |ordered|
    ensures FastAt(p, ordered, n - 2).Some? && FastAt(p, ordered, n - 1).Some?
    ensures SlowAt(p, ordered, n - 2).Some? && SlowAt(p, ordered, n - 1).Some?
    ensures AtrAt(p, ordered, n - 1).Some? && Evaluate(p, ordered[..n]).Ok?
    ensures var e := Evaluate(p, ordered[..n]).value;
            && e.fastEma == FastAt(p, ordered, n - 1).value && e.slowEma == SlowAt(p, ordered, n - 1).value
            && e.atr == AtrAt(p, ordered, n - 1).value && e.referencePrice == ordered[n - 1].close
            && e.candleTimestamp == ordered[n - 1].timestamp
            && e.action ==
               Crossover(FastAt(p, ordered, n - 2).value, SlowAt(p, ordered, n - 2).value, e.fastEma, e.slowEma)
            && e.stopPrice == StopPrice(e.action, ordered[n - 1].close, AtrAt(p, ordered, n - 1).value, p.stopMultiple)
  {
    hide Sort, Crossover, StopPrice, SmoothedAt, TrueRange, TrueRanges;
    var prefix := ordered[..n];
    SortOfSorted(OpenTime, prefix);
    FailsOnlyOnBadInput(p, prefix);
    var short, long := Closes(prefix), Closes(ordered);
    assert forall k :: 0 <= k <= n ==> short[..k] == long[..k];
    PrefixStable(Exponential, short, long, p.fastPeriod, n - 2);
    PrefixStable(Exponential, short, long, p.fastPeriod, n - 1);
    PrefixStable(Exponential, short, long, p.slowPeriod, n - 2);
    PrefixStable(Exponential, short, long, p.slowPeriod, n - 1);
    PrefixAtr(p, ordered, n);
  }

  lemma PrefixAtr(p: Parameters, ordered: seq<Candle>, n: nat)
    requires 0 < n <= |ordered|
    ensures AtrAt(p, ordered[..n], n - 1) == AtrAt(p, ordered, n - 1)
  {
    hide SmoothedAt, TrueRange;
    TrueRangesPrefix(ordered, n);
    var short, long := TrueRanges(ordered[..n]), TrueRanges(ordered);
    assert short[..n] == long[..n];
    PrefixStable(Wilder, short, long, p.atrPeriod, n - 1);
  }

  /** The action signalled on the first `n` candles of a dataset. */
  function ActionOn(p: Parameters, ordered: seq<Candle>, n: nat): Option<Backtest.Action>
    requires n <= |ordered|
  {
    var e := Evaluate(p, ordered[..n]);
    if e.Ok? then Some(e.value.action) else None
  }

  predicate AveragesTouch(p: Parameters, ordered: seq<Candle>, i: nat)
    requires i < |ordered|
  {
    FastAt(p, ordered, i) == SlowAt(p, ordered, i)
  }

  /**
    The action on a prefix is a crossing of the two averages at its last candle: BUY if and only
    if the fast average lay at or below the slow one at the candle before and lies above it now,
    SELL if and only if it lay at or above and lies below.
   */
  lemma ActionIsCrossing(p: Parameters, ordered: seq<Candle>, n: nat)
    requires Dataset(ordered) && n <= |ordered|
    ensures ActionOn(p, ordered, n).Some? <==> n > p.slowPeriod && n > p.atrPeriod
    ensures n > p.slowPeriod && n > p.atrPeriod ==>
              && FastAt(p, ordered, n - 2).Some? && FastAt(p, ordered, n - 1).Some?
              && SlowAt(p, ordered, n - 2).Some? && SlowAt(p, ordered, n - 1).Some?
              && var fastBefore, slowBefore := FastAt(p, ordered, n - 2).value, SlowAt(p, ordered, n - 2).value;
              var fast, slow := FastAt(p, ordered, n - 1).value, SlowAt(p, ordered, n - 1).value;
              && (ActionOn(p, ordered, n) == Some(Backtest.GoLong) <==> fastBefore <= slowBefore && fast > slow)
              && (ActionOn(p, ordered, n) == Some(Backtest.GoFlat) <==> fastBefore >= slowBefore && fast < slow)
  {
    hide SmoothedAt, Closes, TrueRange, Sort, Dataset;
    FailsOnlyOnBadInput(p, ordered[..n]);
    hide Evaluate;
    if n >= RequiredHistory(p) {
      PrefixEvaluation(p, ordered, n);
    }
  }

  /**
    What the averages and the range are, on the candles themselves: means of the first closes
    and true ranges, and from then on the weighted recurrences.
   */
  lemma SeriesOfCandles(p: Parameters, ordered: seq<Candle>)
    ensures var n := |ordered|;
            var closes := seq(n, i requires 0 <= i < n => ordered[i].close);
            && EmaSeries(closes, p.fastPeriod, seq(n, i requires 0 <= i < n => FastAt(p, ordered, i)))
            && EmaSeries(closes, p.slowPeriod, seq(n, i requires 0 <= i < n => SlowAt(p, ordered, i)))
            && WilderSeries(TrueRanges(ordered), p.atrPeriod, seq(n, i requires 0 <= i < n => AtrAt(p, ordered, i)))
  {
    hide SmoothedAt, TrueRange, EmaSeries, WilderSeries, TrueRanges;
    var n := |ordered|;
    var closes := seq(n, i requires 0 <= i < n => ordered[i].close);
    assert closes == Closes(ordered);
    ListedRanges(ordered);
    IsEmaSeries(closes, p.fastPeriod, seq(n, i requires 0 <= i < n => FastAt(p, ordered, i)));
    IsEmaSeries(closes, p.slowPeriod, seq(n, i requires 0 <= i < n => SlowAt(p, ordered, i)));
    IsWilderSeries(TrueRanges(ordered), p.atrPeriod, seq(n, i requires 0 <= i < n => AtrAt(p, ordered, i)));
  }

  lemma ListedRanges(ordered: seq<Candle>)
    ensures |TrueRanges(ordered)| == |ordered|
  {}

  /** From a strict lead of the fast average to its loss, some index is a SELL or a touch. */
  lemma {:induction false} LeadIsLostBySellOrTouch(p: Parameters, ordered: seq<Candle>, m: nat, n: nat)
    returns (k: nat)
    requires Dataset(ordered) && RequiredHistory(p) <= m < n <= |ordered|
    requires FastAt(p, ordered, m - 1).Some? && SlowAt(p, ordered, m - 1).Some?
    requires FastAt(p, ordered, m - 1).value > SlowAt(p, ordered, m - 1).value
    requires FastAt(p, ordered, n - 1).Some? && SlowAt(p, ordered, n - 1).Some?
    requires FastAt(p, ordered, n - 1).value <= SlowAt(p, ordered, n - 1).value
    ensures m < k <= n
    ensures ActionOn(p, ordered, k) == Some(Backtest.GoFlat) || AveragesTouch(p, ordered, k - 1)
    decreases n - m
  {
    hide SmoothedAt, Evaluate, Closes, TrueRange;
    PrefixEvaluation(p, ordered, m + 1);
    if FastAt(p, ordered, m).value > SlowAt(p, ordered, m).value {
      k := LeadIsLostBySellOrTouch(p, ordered, m + 1, n);
    } else {
      k := m + 1;
    }
  }

  /**
    Two BUY signals never follow each other directly: strictly between them the
    strategy signals a SELL or the two averages are exactly equal.
   */
  lemma BuysAreSeparated(p: Parameters, ordered: seq<Candle>, m: nat, n: nat)
    requires Dataset(ordered) && m < n <= |ordered|
    requires ActionOn(p, ordered, m) == Some(Backtest.GoLong) && ActionOn(p, ordered, n) == Some(Backtest.GoLong)
    ensures exists k :: m < k < n &&
                        (ActionOn(p, ordered, k) == Some(Backtest.GoFlat) || AveragesTouch(p, ordered, k - 1))
  {
    hide SmoothedAt, Closes, TrueRange, Sort, Dataset;
    FailsOnlyOnBadInput(p, ordered[..m]);
    FailsOnlyOnBadInput(p, ordered[..n]);
    hide Evaluate;
    PrefixEvaluation(p, ordered, m);
    PrefixEvaluation(p, ordered, n);
    assert n - 1 > m;
    var k := LeadIsLostBySellOrTouch(p, ordered, m, n - 1);
  }

  /** From a strict lead of the slow average to its loss, some index is a BUY or a touch. */
  lemma {:induction false} LeadIsWonByBuyOrTouch(p: Parameters, ordered: seq<Candle>, m: nat, n: nat)
    returns (k: nat)
    requires Dataset(ordered) && RequiredHistory(p) <= m < n <= |ordered|
    requires FastAt(p, ordered, m - 1).Some? && SlowAt(p, ordered, m - 1).Some?
    requires FastAt(p, ordered, m - 1).value < SlowAt(p, ordered, m - 1).value
    requires FastAt(p, ordered, n - 1).Some? && SlowAt(p, ordered, n - 1).Some?
    requires FastAt(p, ordered, n - 1).value >= SlowAt(p, ordered, n - 1).value
    ensures m < k <= n
    ensures ActionOn(p, ordered, k) == Some(Backtest.GoLong) || AveragesTouch(p, ordered, k - 1)
    decreases n - m
  {
    hide SmoothedAt, Evaluate, Closes, TrueRange;
    PrefixEvaluation(p, ordered, m + 1);
    if FastAt(p, ordered, m).value < SlowAt(p, ordered, m).value {
      k := LeadIsWonByBuyOrTouch(p, ordered, m + 1, n);
    } else {
      k := m + 1;
    }
  }

  /** Two SELL signals never follow each other directly: strictly between them there is a BUY or a touch. */
  lemma SellsAreSeparated(p: Parameters, ordered: seq<Candle>, m: nat, n: nat)
    requires Dataset(ordered) && m < n <= |ordered|
    requires ActionOn(p, ordered, m) == Some(Backtest.GoFlat) && ActionOn(p, ordered, n) == Some(Backtest.GoFlat)
    ensures exists k :: m < k < n &&
                        (ActionOn(p, ordered, k) == Some(Backtest.GoLong) || AveragesTouch(p, ordered, k - 1))
  {
    hide SmoothedAt, Closes, TrueRange, Sort, Dataset;
    FailsOnlyOnBadInput(p, ordered[..m]);
    FailsOnlyOnBadInput(p, ordered[..n]);
    hide Evaluate;
    PrefixEvaluation(p, ordered, m);
    PrefixEvaluation(p, ordered, n);
    assert n - 1 > m;
    var k := LeadIsWonByBuyOrTouch(p, ordered, m, n - 1);
  }

  // ---------- the strategy inside the backtest ----------

  function AsStrategy(p: Parameters): Backtest.Strategy {
    Backtest.Strategy(RequiredHistory(p), candles =>
                        match Evaluate(p, candles)
                        case Err(e) => Err("strategy error")
                        case Ok(e) => Ok(Backtest.Signal(e.action, e.candleTimestamp)))
  }

  lemma PreparedIsDataset(cfg: Backtest.Config, candles: seq<Candle>)
    requires Backtest.Prepare(candles, cfg).Ok?
    ensures Dataset(Backtest.Prepare(candles, cfg).value)
  {
    hide Sort;
    var ordered := Backtest.Prepare(candles, cfg).value;
    SortSorts(OpenTime, Backtest.InPeriod(candles, cfg));
    assert forall i :: 0 <= i < |ordered| ==> Backtest.OfMarket(ordered[i], cfg);
  }

  /** Inside a validated backtest the strategy never raises. */
  lemma {:induction false} NeverFailsInBacktest(p: Parameters, cfg: Backtest.Config, candles: seq<Candle>, n: nat)
    requires Backtest.Prepare(candles, cfg).Ok? && n <= |Backtest.Prepare(candles, cfg).value|
    ensures var r := Backtest.Simulate(AsStrategy(p), cfg, Backtest.Prepare(candles, cfg).value, n);
            r.Err? ==> r.error == Backtest.UnpriceableTrade
  {
    hide Backtest.Prepare, Evaluate, Dataset, Backtest.FillPrice, Backtest.Spendable, Backtest.FeeOn,
      Backtest.QuantityFor,
      Backtest.Notional, Backtest.Equity, SmoothedAt;
    var ordered := Backtest.Prepare(candles, cfg).value;
    PreparedIsDataset(cfg, candles);
    if n > 0 {
      NeverFailsInBacktest(p, cfg, candles, n - 1);
      if n >= RequiredHistory(p) {
        PrefixEvaluation(p, ordered, n);
      }
    }
  }
}
