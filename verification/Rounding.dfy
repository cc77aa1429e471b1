/** Python's `round` on exact reals: the nearest multiple of a decimal unit, ties
    going to the even multiple.  `scale` is the number of units in 1.0, so that
    `round(x, 5)` is `Round(x, 100000.0)`. */
module Rounding {

  function Abs(x: real): (r: real)
    ensures r >= 0.0 && (r == x || r == -x)
  {
    if x < 0.0 then -x else x
  }

  function Min(x: real, y: real): real { if x < y then x else y }

  function Max(x: real, y: real): real { if x < y then y else x }

  /** A product under a name of its own, so that equal factors give one and the same term. */
  function Times(x: real, y: real): real { x * y }

  function RoundInt(x: real): int {
    var f := x.Floor;
    var d := x - f as real;
    if d < 0.5 then f
    else if d > 0.5 then f + 1
    else if f % 2 == 0 then f
    else f + 1
  }

  function Round(x: real, scale: real): real
    requires scale > 0.0
  {
    RoundInt(x * scale) as real / scale
  }

  /** The result is a nearest integer, and the even one of the two when x is halfway. */
  lemma RoundIntNearest(x: real, n: int)
    ensures Abs(RoundInt(x) as real - x) <= 0.5
    ensures Abs(RoundInt(x) as real - x) <= Abs(n as real - x)
    ensures n != RoundInt(x) && Abs(n as real - x) == Abs(RoundInt(x) as real - x) ==> RoundInt(x) % 2 == 0
  {
    var f := x.Floor;
    if n < f {
      assert n as real <= f as real - 1.0;
    } else if n > f + 1 {
      assert n as real >= f as real + 2.0;
    }
  }

  lemma RoundIntOdd(x: real)
    ensures RoundInt(-x) == -RoundInt(x)
  {
    var f := x.Floor;
    var d := x - f as real;
    if d == 0.0 {
      assert (-x).Floor == -f;
    } else {
      assert (-x).Floor == -f - 1;
    }
  }

  /** Rounding commutes with negation: half-even has no preferred direction. */
  lemma RoundOdd(x: real, scale: real)
    requires scale > 0.0
    ensures Round(-x, scale) == -Round(x, scale)
  {
    assert (-x) * scale == -(x * scale);
    RoundIntOdd(x * scale);
    var n := RoundInt(x * scale);
    assert (-n) as real / scale == -(n as real / scale);
  }

  /** Rounding moves a value by at most half a unit. */
  lemma RoundNear(x: real, scale: real)
    requires scale > 0.0
    ensures Abs(Round(x, scale) - x) * scale <= 0.5
  {
    var n := RoundInt(x * scale);
    RoundIntNearest(x * scale, n);
    assert Round(x, scale) * scale == n as real;
    assert (Round(x, scale) - x) * scale == n as real - x * scale;
    AbsScale(Round(x, scale) - x, scale);
  }

  /** A whole number of units of size 1 / `scale`. */
  predicate OnGrid(x: real, scale: real) { (x * scale).Floor as real == x * scale }

  /** Rounding yields whole units. */
  lemma RoundOnGrid(x: real, scale: real)
    requires scale > 0.0
    ensures OnGrid(Round(x, scale), scale)
  {
    var n := RoundInt(x * scale);
    Units(Round(x, scale), scale, n);
  }

  lemma Units(y: real, scale: real, n: int)
    requires scale > 0.0 && y == n as real / scale
    ensures OnGrid(y, scale)
  {
    assert y * scale == n as real;
    assert (n as real).Floor == n;
  }

  lemma AbsScale(x: real, s: real)
    requires s > 0.0
    ensures Abs(x) * s == Abs(x * s)
  {
    if x < 0.0 {
      assert x * s < 0.0;
    } else {
      assert x * s >= 0.0;
    }
  }

  lemma RoundIntMonotone(x: real, y: real)
    requires x <= y
    ensures RoundInt(x) <= RoundInt(y)
  {
    if x.Floor < y.Floor {
      assert RoundInt(x) <= x.Floor + 1 <= y.Floor <= RoundInt(y);
    } else {
      assert x.Floor == y.Floor;
    }
  }

  lemma RoundMonotone(x: real, y: real, scale: real)
    requires scale > 0.0 && x <= y
    ensures Round(x, scale) <= Round(y, scale)
  {
    assert x * scale <= y * scale;
    RoundIntMonotone(x * scale, y * scale);
    DivMonotone(RoundInt(x * scale) as real, RoundInt(y * scale) as real, scale);
  }

  lemma DivMonotone(x: real, y: real, s: real)
    requires s > 0.0 && x <= y
    ensures x / s <= y / s
  {
  }
}
