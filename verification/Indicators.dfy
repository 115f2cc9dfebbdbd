/**
  The running averages of the strategy (strategies/ema_atr.py, `ema` and `atr`): each
  fills an output list in one pass. `SmoothedAt` says what each entry is.
 */
module Indicators {
  import opened Candles
  import opened Reals
  import opened Wrappers

  function Mean(s: seq<real>): real
    requires |s| > 0
  {
    Sum(s) / |s| as real
  }

  /** Exponential smoothing step with weight 2 / (period + 1). */
  function EmaStep(current: real, value: real, period: int): real
    requires period >= 1
  {
    (value - current) * (2.0 / (period + 1) as real) + current
  }

  /** Wilder smoothing step. */
  function WilderStep(current: real, value: real, period: int): real
    requires period >= 1
  {
    (current * (period - 1) as real + value) / period as real
  }

  datatype Smoothing = Exponential | Wilder

  function Step(kind: Smoothing, current: real, value: real, period: int): real
    requires period >= 1
  {
    if kind == Exponential then EmaStep(current, value, period) else WilderStep(current, value, period)
  }

  /** The smoothed value at index `i`: nothing before the warm-up, the mean at its end, then one step per value. */
  function SmoothedAt(kind: Smoothing, values: seq<real>, period: int, i: nat): Option<real>
    requires period >= 1 && i < |values|
  {
    if i < period - 1 then None
    else if i == period - 1 then Some(Mean(values[..period]))
    else
      var previous := SmoothedAt(kind, values, period, i - 1);
      if previous.None? then None else Some(Step(kind, previous.value, values[i], period))
  }

  ghost predicate IsSeries(kind: Smoothing, values: seq<real>, period: int, output: seq<Option<real>>)
    requires period >= 1
  {
    |output| == |values| &&
    forall i :: 0 <= i < |values| ==> output[i] == SmoothedAt(kind, values, period, i)
  }

  function TrueRange(candles: seq<Candle>, i: nat): real
    requires i < |candles|
  {
    var c := candles[i];
    if i == 0 then c.high - c.low
    else
      var p := candles[i - 1].close;
      Max(Max(c.high - c.low, Abs(c.high - p)), Abs(c.low - p))
  }

  function Max(x: real, y: real): real { if y > x then y else x }

  function Abs(x: real): real { if x < 0.0 then -x else x }

  function TrueRanges(candles: seq<Candle>): seq<real> {
    seq(|candles|, i requires 0 <= i < |candles| => TrueRange(candles, i))
  }

  /** Nothing before the warm-up, the mean at its end. */
  lemma SmoothedSeed(kind: Smoothing, values: seq<real>, period: int)
    requires period >= 1
    ensures forall i :: 0 <= i < |values| && i < period - 1 ==> SmoothedAt(kind, values, period, i) == None
    ensures period <= |values| ==> SmoothedAt(kind, values, period, period - 1) == Some(Mean(values[..period]))
  {
    hide Mean, Step;
  }

  /** One step per later value. */
  lemma SmoothedNext(kind: Smoothing, values: seq<real>, period: int, i: nat)
    requires period >= 1 && period <= i < |values| && SmoothedAt(kind, values, period, i - 1).Some?
    ensures SmoothedAt(kind, values, period, i) ==
            Some(Step(kind, SmoothedAt(kind, values, period, i - 1).value, values[i], period))
  {
    hide Mean, Step;
  }

  /** A value exists exactly from the end of the warm-up on. */
  lemma {:induction false} DefinedAfterWarmUp(kind: Smoothing, values: seq<real>, period: int, i: nat)
    requires period >= 1 && i < |values|
    ensures SmoothedAt(kind, values, period, i).Some? <==> i >= period - 1
  {
    if i > period - 1 {
      DefinedAfterWarmUp(kind, values, period, i - 1);
    }
  }

  // ---------- what the entries satisfy ----------

  /** A value exactly from the end of the warm-up on, and there the mean of the first inputs. */
  predicate Seeded(values: seq<real>, period: int, output: seq<Option<real>>) {
    && period >= 1 && |output| == |values|
    && (forall i :: 0 <= i < |output| ==> (output[i].Some? <==> i >= period - 1))
    && (period <= |values| ==> output[period - 1].value * period as real == Sum(values[..period]))
  }

  /** Each later entry weighs the new input twice against `period - 1` times the entry before it. */
  predicate EmaSeries(values: seq<real>, period: int, output: seq<Option<real>>) {
    && Seeded(values, period, output)
    && forall i :: period <= i < |values| ==>
         output[i].value * (period + 1) as real == output[i - 1].value * (period - 1) as real + 2.0 * values[i]
  }

  /** Each later entry weighs the new input once against `period - 1` times the entry before it. */
  predicate WilderSeries(values: seq<real>, period: int, output: seq<Option<real>>) {
    && Seeded(values, period, output)
    && forall i :: period <= i < |values| ==>
         output[i].value * period as real == output[i - 1].value * (period - 1) as real + values[i]
  }

  lemma EmaStepMeans(current: real, value: real, period: int)
    requires period >= 1
    ensures EmaStep(current, value, period) * (period + 1) as real == current * (period - 1) as real + 2.0 * value
  {
    var n := (period + 1) as real;
    var w := 2.0 / n;
    assert w * n == 2.0;
    assert (value - current) * w * n == (value - current) * (w * n);
    Distribute((value - current) * w, current, n);
    Distribute(n, 2.0, current);
  }

  lemma WilderStepMeans(current: real, value: real, period: int)
    requires period >= 1
    ensures WilderStep(current, value, period) * period as real == current * (period - 1) as real + value
  {}

  lemma MeanTimesCount(s: seq<real>)
    requires |s| > 0
    ensures Mean(s) * |s| as real == Sum(s)
  {}

  lemma SeriesSeeded(kind: Smoothing, values: seq<real>, period: int, output: seq<Option<real>>)
    requires period >= 1 && IsSeries(kind, values, period, output)
    ensures Seeded(values, period, output)
  {
    hide Mean, Step, SmoothedAt;
    forall i | 0 <= i < |output| ensures output[i].Some? <==> i >= period - 1 {
      DefinedAfterWarmUp(kind, values, period, i);
    }
    SmoothedSeed(kind, values, period);
    if period <= |values| {
      MeanTimesCount(values[..period]);
    }
  }

  lemma IsEmaSeries(values: seq<real>, period: int, output: seq<Option<real>>)
    requires period >= 1 && IsSeries(Exponential, values, period, output)
    ensures EmaSeries(values, period, output)
  {
    hide Mean, EmaStep, SmoothedAt;
    SeriesSeeded(Exponential, values, period, output);
    forall i | period <= i < |values|
      ensures output[i].value * (period + 1) as real == output[i - 1].value * (period - 1) as real + 2.0 * values[i]
    {
      assert output[i - 1] == SmoothedAt(Exponential, values, period, i - 1);
      SmoothedNext(Exponential, values, period, i);
      EmaStepMeans(output[i - 1].value, values[i], period);
    }
  }

  lemma IsWilderSeries(values: seq<real>, period: int, output: seq<Option<real>>)
    requires period >= 1 && IsSeries(Wilder, values, period, output)
    ensures WilderSeries(values, period, output)
  {
    hide Mean, WilderStep, SmoothedAt;
    SeriesSeeded(Wilder, values, period, output);
    forall i | period <= i < |values|
      ensures output[i].value * period as real == output[i - 1].value * (period - 1) as real + values[i]
    {
      assert output[i - 1] == SmoothedAt(Wilder, values, period, i - 1);
      SmoothedNext(Wilder, values, period, i);
      WilderStepMeans(output[i - 1].value, values[i], period);
    }
  }

  /** Entries that satisfy the recurrence are the only ones. */
  lemma {:induction false} EmaSeriesUnique(
      values: seq<real>, period: int, a: seq<Option<real>>, b: seq<Option<real>>, i: nat)
    requires EmaSeries(values, period, a) && EmaSeries(values, period, b) && i < |values|
    ensures a[i] == b[i]
  {
    hide Sum;
    if i == period - 1 {
      SameQuotient(a[i].value, b[i].value, period as real, Sum(values[..period]));
    } else if i >= period {
      EmaSeriesUnique(values, period, a, b, i - 1);
      var total := a[i - 1].value * (period - 1) as real + 2.0 * values[i];
      SameQuotient(a[i].value, b[i].value, (period + 1) as real, total);
    }
  }

  lemma SameQuotient(x: real, y: real, n: real, total: real)
    requires n > 0.0 && x * n == total && y * n == total
    ensures x == y
  {
    CancelPositive(x, y, n);
    CancelPositive(y, x, n);
  }

  /**
    The true range is the distance between the higher of high and previous close and the lower
    of low and previous close; for the first candle it is high minus low.
   */
  lemma TrueRangeMeans(candles: seq<Candle>, i: nat)
    requires i < |candles|
    ensures i == 0 ==> TrueRanges(candles)[i] == candles[i].high - candles[i].low
    ensures i > 0 ==>
              var c, p := candles[i], candles[i - 1].close;
              TrueRanges(candles)[i] == (if p > c.high then p else c.high) - (if p < c.low then p else c.low)
  {}

  // ---------- the loops ----------

  /** Mean seeding and one smoothing step per later value, written into a preallocated list. */
  method Ema(values: seq<real>, period: int) returns (r: Result<seq<Option<real>>, string>)
    ensures r.Err? <==> period < 1
    ensures r.Ok? ==> IsSeries(Exponential, values, period, r.value) && EmaSeries(values, period, r.value)
  {
    hide SmoothedAt, EmaStep, WilderStep, Mean, EmaSeries;
    if period < 1 {
      return Err("EMA period must be positive");
    }
    SmoothedSeed(Exponential, values, period);
    var output := new Option<real>[|values|](_ => None);
    if |values| < period {
      IsEmaSeries(values, period, output[..]);
      return Ok(output[..]);
    }
    var current := Mean(values[..period]);
    output[period - 1] := Some(current);
    var index := period;
    while index < |values|
      invariant period <= index <= |values|
      invariant SmoothedAt(Exponential, values, period, index - 1) == Some(current)
      invariant forall i :: 0 <= i < index ==> output[i] == SmoothedAt(Exponential, values, period, i)
    {
      SmoothedNext(Exponential, values, period, index);
      current := EmaStep(current, values[index], period);
      output[index] := Some(current);
      index := index + 1;
    }
    r := Ok(output[..]);
    IsEmaSeries(values, period, r.value);
  }

  method ListTrueRanges(candles: seq<Candle>) returns (trueRanges: seq<real>)
    ensures trueRanges == TrueRanges(candles) && |trueRanges| == |candles|
  {
    hide Max, Abs;
    trueRanges := [];
    var index := 0;
    while index < |candles|
      invariant 0 <= index <= |candles|
      invariant trueRanges == TrueRanges(candles)[..index]
    {
      var candle := candles[index];
      if index == 0 {
        trueRanges := trueRanges + [candle.high - candle.low];
      } else {
        var previousClose := candles[index - 1].close;
        trueRanges := trueRanges +
          [Max(Max(candle.high - candle.low, Abs(candle.high - previousClose)), Abs(candle.low - previousClose))];
      }
      index := index + 1;
    }
  }

  method Atr(candles: seq<Candle>, period: int) returns (r: Result<seq<Option<real>>, string>)
    ensures r.Err? <==> period < 1
    ensures r.Ok? ==>
              IsSeries(Wilder, TrueRanges(candles), period, r.value) &&
              WilderSeries(TrueRanges(candles), period, r.value)
  {
    hide IsSeries, TrueRanges, WilderSeries;
    if period < 1 {
      return Err("ATR period must be positive");
    }
    var trueRanges := ListTrueRanges(candles);
    var output := WilderAverages(trueRanges, period);
    IsWilderSeries(trueRanges, period, output);
    r := Ok(output);
  }

  /** The second half of `atr`: the running average of the true ranges. */
  method WilderAverages(trueRanges: seq<real>, period: int) returns (series: seq<Option<real>>)
    requires period >= 1
    ensures IsSeries(Wilder, trueRanges, period, series)
  {
    hide SmoothedAt, EmaStep, WilderStep, Mean;
    SmoothedSeed(Wilder, trueRanges, period);
    var output := new Option<real>[|trueRanges|](_ => None);
    if |trueRanges| < period {
      return output[..];
    }
    var current := Mean(trueRanges[..period]);
    output[period - 1] := Some(current);
    var index := period;
    while index < |trueRanges|
      invariant period <= index <= |trueRanges|
      invariant SmoothedAt(Wilder, trueRanges, period, index - 1) == Some(current)
      invariant forall i :: 0 <= i < index ==> output[i] == SmoothedAt(Wilder, trueRanges, period, i)
    {
      SmoothedNext(Wilder, trueRanges, period, index);
      current := WilderStep(current, trueRanges[index], period);
      output[index] := Some(current);
      index := index + 1;
    }
    series := output[..];
  }

  // ---------- what the series are ----------

  /** Each entry depends on the values up to its own index, so re-running on a prefix changes nothing. */
  lemma {:induction false} PrefixStable(kind: Smoothing, a: seq<real>, b: seq<real>, period: int, i: nat)
    requires period >= 1 && i < |a| && i < |b| && a[..i + 1] == b[..i + 1]
    ensures SmoothedAt(kind, a, period, i) == SmoothedAt(kind, b, period, i)
  {
    assert a[i] == a[..i + 1][i] && b[i] == b[..i + 1][i];
    if i == period - 1 {
      assert a[..period] == b[..period];
    } else if i > period - 1 {
      assert a[..i] == a[..i + 1][..i] && b[..i] == b[..i + 1][..i];
      PrefixStable(kind, a, b, period, i - 1);
    }
  }

  lemma TrueRangesPrefix(candles: seq<Candle>, n: nat)
    requires n <= |candles|
    ensures TrueRanges(candles[..n]) == TrueRanges(candles)[..n]
  {}

  predicate Within(values: seq<real>, low: real, high: real) {
    forall k :: 0 <= k < |values| ==> low <= values[k] <= high
  }

  lemma {:induction false} SumWithin(s: seq<real>, low: real, high: real)
    requires Within(s, low, high)
    ensures low * |s| as real <= Sum(s) <= high * |s| as real
  {
    if |s| > 0 {
      var n := |s| - 1;
      SumWithin(s[..n], low, high);
      assert |s| as real == n as real + 1.0 && low <= s[n] <= high;
      OneMore(n as real, low);
      OneMore(n as real, high);
      assert Sum(s) == Sum(s[..n]) + s[n];
    }
  }

  lemma OneMore(n: real, bound: real)
    ensures bound * (n + 1.0) == bound * n + bound
  {
    Distribute(n, 1.0, bound);
  }

  lemma MeanWithin(s: seq<real>, low: real, high: real)
    requires |s| > 0 && Within(s, low, high)
    ensures low <= Mean(s) <= high
  {
    SumWithin(s, low, high);
    QuotientWithin(Sum(s), |s| as real, low, high);
  }

  lemma QuotientWithin(total: real, n: real, low: real, high: real)
    requires n > 0.0 && low * n <= total <= high * n
    ensures low <= total / n <= high
  {
    var m := total / n;
    assert m * n == total;
    CancelPositive(low, m, n);
    CancelPositive(m, high, n);
  }

  /** A point a fraction of the way from one value to another lies between them. */
  lemma BetweenWithin(x: real, y: real, w: real, low: real, high: real)
    requires low <= x <= high && low <= y <= high && 0.0 <= w <= 1.0
    ensures low <= (y - x) * w + x <= high
  {
    var gap := if y >= x then y - x else x - y;
    var part := gap * w;
    ProductNonNegative(gap, w);
    ProductMonotone(w, 1.0, gap);
    assert part <= gap;
    Distribute(0.0, gap, w);
    assert (y - x) * w == if y >= x then part else -part;
  }

  lemma WeightInUnit(period: int)
    requires period >= 1
    ensures 0.0 < 2.0 / (period + 1) as real <= 1.0
    ensures 0.0 < 1.0 / period as real <= 1.0
  {
    QuotientMonotone(2.0, (period + 1) as real, (period + 1) as real, (period + 1) as real);
    QuotientUnique((period + 1) as real, (period + 1) as real, 1.0);
    QuotientMonotone(1.0, period as real, period as real, period as real);
    QuotientUnique(period as real, period as real, 1.0);
  }

  /** Wilder's step is exponential smoothing with weight 1 / period. */
  lemma WilderIsExponential(current: real, value: real, period: int)
    requires period >= 1
    ensures WilderStep(current, value, period) == (value - current) * (1.0 / period as real) + current
  {
    var p := period as real;
    var w := 1.0 / p;
    assert w * p == 1.0;
    var q := (value - current) * w + current;
    Distribute((value - current) * w, current, p);
    assert (value - current) * w * p == (value - current) * (w * p);
    Distribute(p, 1.0, current);
    QuotientUnique(current * (period - 1) as real + value, p, q);
  }

  lemma StepWithin(kind: Smoothing, current: real, value: real, period: int, low: real, high: real)
    requires period >= 1 && low <= current <= high && low <= value <= high
    ensures low <= Step(kind, current, value, period) <= high
  {
    WeightInUnit(period);
    if kind == Exponential {
      BetweenWithin(current, value, 2.0 / (period + 1) as real, low, high);
    } else {
      WilderIsExponential(current, value, period);
      BetweenWithin(current, value, 1.0 / period as real, low, high);
    }
  }

  /** Every EMA and ATR value lies between the smallest and the largest input seen so far. */
  lemma {:induction false} SmoothedWithin(
      kind: Smoothing, values: seq<real>, period: int, i: nat, low: real, high: real)
    requires period >= 1 && period - 1 <= i < |values|
    requires Within(values[..i + 1], low, high)
    ensures SmoothedAt(kind, values, period, i).Some?
    ensures low <= SmoothedAt(kind, values, period, i).value <= high
  {
    hide Step, Mean;
    DefinedAfterWarmUp(kind, values, period, i);
    if i == period - 1 {
      MeanWithin(values[..period], low, high);
    } else {
      assert Within(values[..i], low, high) by {
        assert forall k :: 0 <= k < i ==> values[..i][k] == values[..i + 1][k];
      }
      assert values[i] == values[..i + 1][i];
      SmoothedWithin(kind, values, period, i - 1, low, high);
      DefinedAfterWarmUp(kind, values, period, i - 1);
      StepWithin(kind, SmoothedAt(kind, values, period, i - 1).value, values[i], period, low, high);
    }
  }
}
