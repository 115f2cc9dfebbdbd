/**
  The 18-place rounding that every backtest amount passes through
  (application/backtest.py, `persisted_decimal`): half-even on the grid of
  multiples of 10^-18, over exact reals.
 */
module Rounding {
  const SCALE: real := 1000000000000000000.0
  const QUANTUM: real := 1.0 / SCALE

  /** Nearest integer, ties to the even neighbour. */
  function HalfEven(y: real): int {
    var below := y.Floor;
    var rest := y - below as real;
    if rest < 0.5 then below
    else if rest > 0.5 then below + 1
    else if below % 2 == 0 then below
    else below + 1
  }

  function Quantize(x: real): real {
    HalfEven(x * SCALE) as real / SCALE
  }

  /** `x` is a whole number of quanta. */
  predicate OnGrid(x: real) {
    (x * SCALE).Floor as real == x * SCALE
  }

  lemma HalfEvenNearest(y: real)
    ensures -0.5 <= HalfEven(y) as real - y <= 0.5
    ensures y.Floor as real == y ==> HalfEven(y) as real == y
  {}

  lemma HalfEvenMonotone(x: real, y: real)
    requires x <= y
    ensures HalfEven(x) <= HalfEven(y)
  {
    assert x.Floor <= y.Floor;
  }

  /** The rounding moves a value by at most half a quantum, and lands on the grid. */
  lemma QuantizeNearest(x: real)
    ensures -QUANTUM / 2.0 <= Quantize(x) - x <= QUANTUM / 2.0
    ensures OnGrid(Quantize(x))
    ensures OnGrid(x) ==> Quantize(x) == x
  {
    HalfEvenNearest(x * SCALE);
    var n := HalfEven(x * SCALE) as real;
    assert Quantize(x) * SCALE == n;
    assert n.Floor as real == n;
  }

  /** Eighteen places: the result is a whole number of units of 10^-18, the nearest one, and at a tie the even one. */
  lemma QuantizeTies(x: real) returns (units: int)
    ensures Quantize(x) * 1_000_000_000_000_000_000.0 == units as real
    ensures -0.5 <= units as real - x * 1_000_000_000_000_000_000.0 <= 0.5
    ensures units as real - x * 1_000_000_000_000_000_000.0 == 0.5 ==> units % 2 == 0
    ensures units as real - x * 1_000_000_000_000_000_000.0 == -0.5 ==> units % 2 == 0
  {
    units := HalfEven(x * SCALE);
    HalfEvenNearest(x * SCALE);
  }

  lemma QuantizeMonotone(x: real, y: real)
    requires x <= y
    ensures Quantize(x) <= Quantize(y)
  {
    HalfEvenMonotone(x * SCALE, y * SCALE);
  }

  lemma QuantizeZero()
    ensures Quantize(0.0) == 0.0
    ensures OnGrid(0.0)
  {}

  lemma QuantizeNonNegative(x: real)
    requires x >= 0.0
    ensures Quantize(x) >= 0.0
  {
    QuantizeMonotone(0.0, x);
    QuantizeZero();
  }

  lemma WholeIsOnGrid(z: real, n: int)
    requires z * SCALE == n as real
    ensures OnGrid(z)
  {}

  lemma GridClosed(x: real, y: real)
    requires OnGrid(x) && OnGrid(y)
    ensures OnGrid(x + y) && OnGrid(x - y)
    ensures Quantize(x + y) == x + y && Quantize(x - y) == x - y
  {
    var i, j := (x * SCALE).Floor, (y * SCALE).Floor;
    assert x * SCALE == i as real && y * SCALE == j as real;
    hide Quantize, OnGrid;
    assert (x + y) * SCALE == (i + j) as real;
    assert (x - y) * SCALE == (i - j) as real;
    WholeIsOnGrid(x + y, i + j);
    WholeIsOnGrid(x - y, i - j);
    QuantizeNearest(x + y);
    QuantizeNearest(x - y);
  }

  /**
    Rounding is almost translation-invariant: a value that gained strictly less
    than a whole number of quanta rounds to at most that many quanta more. With
    "at most" instead of "strictly less" this fails at ties (0.5 rounds to 0,
    1.5 rounds to 2).
   */
  lemma QuantizeShift(x: real, y: real, step: real)
    requires OnGrid(step) && step > 0.0
    requires y < x + step
    ensures Quantize(y) <= Quantize(x) + step
  {
    var m := (step * SCALE).Floor;
    HalfEvenNearest(x * SCALE);
    HalfEvenNearest(y * SCALE);
    assert y * SCALE < x * SCALE + m as real;
    assert HalfEven(y * SCALE) < HalfEven(x * SCALE) + m + 1;
  }

  /** Why `QuantizeShift` needs a strict hypothesis: at a tie the gain is two quanta for one. */
  lemma QuantizeShiftTie()
    ensures var x := 0.5 / SCALE; Quantize(x + QUANTUM) == Quantize(x) + 2.0 * QUANTUM
  {
    var x := 0.5 / SCALE;
    assert x * SCALE == 0.5 && (x + QUANTUM) * SCALE == 1.5;
    assert HalfEven(0.5) == 0 && HalfEven(1.5) == 2;
  }
}
