/** Maximum drawdown of an equity curve (application/backtest.py, `_drawdown`). */
module Drawdown {
  import opened Reals
  import opened Rounding

  predicate Falls(curve: seq<real>, i: int, j: int) {
    0 <= i <= j < |curve|
  }

  /** The fall from point `i` to the later point `j`. */
  function Fall(curve: seq<real>, i: int, j: int): real
    requires Falls(curve, i, j)
  {
    curve[i] - curve[j]
  }

  function FallPct(curve: seq<real>, i: int, j: int): real
    requires Falls(curve, i, j) && curve[i] > 0.0
  {
    (curve[i] - curve[j]) / curve[i] * 100.0
  }

  lemma FallPctMeans(curve: seq<real>, i: int, j: int)
    requires Falls(curve, i, j) && curve[i] > 0.0
    ensures FallPct(curve, i, j) * curve[i] == 100.0 * (curve[i] - curve[j])
  {
    assert (curve[i] - curve[j]) / curve[i] * curve[i] == curve[i] - curve[j];
  }

  /** No fall between any two points is larger than the one from `i` to `j`. */
  ghost predicate WorstFall(curve: seq<real>, i: int, j: int) {
    Falls(curve, i, j) &&
    forall p, q :: Falls(curve, p, q) ==> Fall(curve, p, q) <= Fall(curve, i, j)
  }

  ghost predicate WorstFallPct(curve: seq<real>, i: int, j: int) {
    Falls(curve, i, j) && curve[i] > 0.0 &&
    forall p, q :: Falls(curve, p, q) && curve[p] > 0.0 ==> FallPct(curve, p, q) <= FallPct(curve, i, j)
  }

  /** What a backtest's equity curve always is: it starts positive and never goes below zero. */
  predicate EquityLike(curve: seq<real>) {
    |curve| > 0 && curve[0] > 0.0 && forall k :: 0 <= k < |curve| ==> curve[k] >= 0.0
  }

  /** A higher starting point makes the relative fall to the same value larger. */
  lemma FallPctGrowsWithPeak(low: real, high: real, bottom: real)
    requires 0.0 < low <= high && bottom >= 0.0
    ensures (low - bottom) / low * 100.0 <= (high - bottom) / high * 100.0
  {
    var r, s := bottom / low, bottom / high;
    QuotientMonotone(bottom, bottom, low, high);
    QuotientUnique(low - bottom, low, 1.0 - r);
    QuotientUnique(high - bottom, high, 1.0 - s);
  }

  lemma FallPctAtMostHundred(top: real, bottom: real)
    requires top > 0.0 && bottom >= 0.0
    ensures (top - bottom) / top * 100.0 <= 100.0
  {
    if bottom <= top {
      QuotientMonotone(top - bottom, top, top, top);
      QuotientUnique(top, top, 1.0);
    } else {
      QuotientMonotone(0.0, bottom - top, top, top);
      QuotientUnique(top - bottom, top, -((bottom - top) / top));
    }
  }

  lemma HundredIsOnGrid()
    ensures Quantize(100.0) == 100.0
  {
    assert (100.0 * SCALE).Floor as real == 100.0 * SCALE;
    QuantizeNearest(100.0);
  }

  /**
    The single pass with a running peak finds the worst fall over every pair of
    points, in amount and in percent of the earlier point.
   */
  method MaximumDrawdown(curve: seq<real>) returns (amount: real, pct: real)
    requires |curve| > 0
    ensures exists i, j :: WorstFall(curve, i, j) && amount == Quantize(Fall(curve, i, j))
    ensures EquityLike(curve) ==> exists i, j :: WorstFallPct(curve, i, j) && pct == Quantize(FallPct(curve, i, j))
    ensures EquityLike(curve) ==> 0.0 <= pct <= 100.0
  {
    var peak := curve[0];
    var maximumAmount, maximumPct := 0.0, 0.0;
    ghost var top, i0, j0, i1, j1 := 0, 0, 0, 0, 0;
    var k := 0;
    while k < |curve|
      invariant 0 <= k <= |curve|
      invariant 0 <= top < |curve| && (k == 0 ==> top == 0) && (k > 0 ==> top < k) && peak == curve[top]
      invariant forall p :: 0 <= p < k ==> curve[p] <= peak
      invariant curve[0] <= peak
      invariant Falls(curve, i0, j0) && maximumAmount == Fall(curve, i0, j0)
      invariant forall p, q :: Falls(curve, p, q) && q < k ==> Fall(curve, p, q) <= maximumAmount
      invariant Falls(curve, i1, j1)
      invariant EquityLike(curve) ==> curve[i1] > 0.0 && maximumPct == FallPct(curve, i1, j1)
      invariant EquityLike(curve) ==> 0.0 <= maximumPct <= 100.0
      invariant EquityLike(curve) ==>
                  forall p, q :: Falls(curve, p, q) && q < k && curve[p] > 0.0 ==> FallPct(curve, p, q) <= maximumPct
    {
      var equity := curve[k];
      if equity > peak {
        peak, top := equity, k;
      }
      var drawdown := peak - equity;
      var drawdownPct := if peak > 0.0 then drawdown / peak * 100.0 else 0.0;
      if EquityLike(curve) {
        FallPctAtMostHundred(peak, equity);
        forall p | Falls(curve, p, k) && curve[p] > 0.0
          ensures FallPct(curve, p, k) <= drawdownPct
        {
          FallPctGrowsWithPeak(curve[p], peak, equity);
        }
      }
      if drawdown > maximumAmount {
        maximumAmount, i0, j0 := drawdown, top, k;
      }
      if drawdownPct > maximumPct {
        maximumPct, i1, j1 := drawdownPct, top, k;
      }
      k := k + 1;
    }
    amount, pct := Quantize(maximumAmount), Quantize(maximumPct);
    assert WorstFall(curve, i0, j0);
    if EquityLike(curve) {
      assert WorstFallPct(curve, i1, j1);
      QuantizeNonNegative(maximumPct);
      QuantizeMonotone(maximumPct, 100.0);
      HundredIsOnGrid();
    }
  }
}
