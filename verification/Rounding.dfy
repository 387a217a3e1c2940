/** math.Round and its fixed-point uses, over exact reals. */
module Rounding {

  /** Nearest integer, halves away from zero. */
  function Round(x: real): (n: int)
    ensures x - 0.5 <= n as real <= x + 0.5
    ensures x >= 0.0 ==> n >= 0
  {
    if x >= 0.0 then (x + 0.5).Floor else -((0.5 - x).Floor)
  }

  /** n is the integer nearest to x, the one further from zero if there are two. */
  predicate Nearest(n: int, x: real) {
    if x >= 0.0 then n as real - 0.5 <= x < n as real + 0.5 else n as real - 0.5 < x <= n as real + 0.5
  }

  /** Round yields it, and nothing else. */
  lemma RoundIff(x: real, n: int)
    ensures Round(x) == n <==> Nearest(n, x)
  {
    if x >= 0.0 {
      FloorIff(x + 0.5, n);
    } else {
      FloorIff(0.5 - x, -n);
    }
  }

  lemma FloorIff(x: real, n: int)
    ensures x.Floor == n <==> n as real <= x < n as real + 1.0
  {
  }

  /** Rounding to multiples of 1/f. */
  function RoundTo(x: real, f: real): real
    requires f > 0.0
  {
    Round(x * f) as real / f
  }

  function Abs(x: real): real {
    if x < 0.0 then -x else x
  }

  /** A rounded value is off by half a step at most. */
  lemma RoundToIsClose(x: real, f: real)
    requires f > 0.0
    ensures Abs(RoundTo(x, f) - x) <= 0.5 / f
  {
    var n := Round(x * f) as real;
    assert (n - x * f) / f == n / f - x by {
      assert (x * f) / f == x;
    }
    DivideBetween(n - x * f, f);
  }

  /** y is the multiple of 1/f nearest to x, the one further from zero if there are two. */
  ghost predicate IsNearest(y: real, x: real, f: real) {
    exists n :: IsStep(n, y, x, f)
  }

  predicate IsStep(n: int, y: real, x: real, f: real) {
    Nearest(n, x * f) && y * f == n as real
  }

  lemma RoundToIsNearest(x: real, f: real)
    requires f > 0.0
    ensures IsNearest(RoundTo(x, f), x, f)
  {
    var n := Round(x * f);
    RoundIff(x * f, n);
    assert RoundTo(x, f) * f == n as real;
    assert IsStep(n, RoundTo(x, f), x, f);
  }

  lemma DivideBetween(d: real, f: real)
    requires f > 0.0 && -0.5 <= d <= 0.5
    ensures -(0.5 / f) <= d / f <= 0.5 / f
  {
    DivideOrder(d, 0.5, f);
    DivideOrder(-0.5, d, f);
    assert (-0.5) / f == -(0.5 / f);
  }

  lemma DivideOrder(x: real, y: real, f: real)
    requires f > 0.0 && x <= y
    ensures x / f <= y / f
  {
  }

  lemma {:induction false} RoundIsMonotone(x: real, y: real)
    requires x <= y
    ensures Round(x) <= Round(y)
  {
    if x < 0.0 <= y {
      assert Round(x) as real <= x + 0.5 < 0.5 + 0.5;
      assert Round(x) <= 0;
    }
  }
}
