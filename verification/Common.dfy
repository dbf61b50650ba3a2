/** Shared vocabulary: an optional value, trade direction, and decimal rounding
    as Python's built-in `round` performs it, on exact reals. */
module Common {

  datatype Option<+T> = None | Some(value: T)

  datatype Side = LONG | SHORT

  function Abs(x: real): real {
    if x < 0.0 then -x else x
  }

  function Max(x: real, y: real): real {
    if x < y then y else x
  }

  function Min(x: real, y: real): real {
    if y < x then y else x
  }

  function Sum(xs: seq<real>): real {
    if xs == [] then 0.0 else Sum(xs[..|xs| - 1]) + xs[|xs| - 1]
  }

  /** Truncation toward zero: Python's `int`, Decimal's ROUND_DOWN. */
  function TowardZero(x: real): int {
    if x >= 0.0 then x.Floor else -((-x).Floor)
  }

  /** Nearest integer; an exact half goes to the even neighbour. */
  function Nearest(x: real): (n: int)
    ensures x - 0.5 <= n as real <= x + 0.5
  {
    var f := x.Floor;
    var d := x - f as real;
    if d < 0.5 || (d == 0.5 && f % 2 == 0) then f else f + 1
  }

  /** `round(x, k)` with scale == 10^k. */
  function Round(x: real, scale: real): real
    requires scale > 0.0
  {
    Nearest(x * scale) as real / scale
  }

  const MILLI: real := 1000.0

  /** x has at most three decimal places. */
  ghost predicate IsMilli(x: real) {
    x * 1000.0 == (x * 1000.0).Floor as real
  }

  lemma NearestMonotone(x: real, y: real)
    requires x <= y
    ensures Nearest(x) <= Nearest(y)
  {
  }

  predicate RoundsTo(n: int, y: real) {
    Abs(n as real - y) <= 0.5 && (Abs(n as real - y) == 0.5 ==> n % 2 == 0)
  }

  /** What rounding to a grid of 1 / scale means: r is a point of the grid, none is nearer to x, and
      of two equally near the even one is taken. */
  ghost predicate IsRounded(r: real, x: real, scale: real) {
    var n := (r * scale).Floor;
    r * scale == n as real && RoundsTo(n, x * scale)
  }

  lemma RoundIs(x: real, scale: real)
    requires scale > 0.0
    ensures IsRounded(Round(x, scale), x, scale)
  {
    var n := Nearest(x * scale);
    assert RoundsTo(n, x * scale);
    assert Round(x, scale) * scale == n as real;
  }

  lemma DivMonotone(a: real, b: real, s: real)
    requires s > 0.0 && a <= b
    ensures a / s <= b / s
  {
  }

  /** Rounding is monotone and moves a value by at most half a unit. */
  lemma RoundMonotone(x: real, y: real, scale: real)
    requires scale > 0.0 && x <= y
    ensures Round(x, scale) <= Round(y, scale)
  {
    assert x * scale <= y * scale;
    NearestMonotone(x * scale, y * scale);
    DivMonotone(Nearest(x * scale) as real, Nearest(y * scale) as real, scale);
  }

  lemma ScaledDifference(n: real, y: real, s: real)
    requires s > 0.0 && y - 0.5 <= n <= y + 0.5
    ensures Abs(n / s - y / s) <= 0.5 / s
  {
    DivMonotone(y - 0.5, n, s);
    DivMonotone(n, y + 0.5, s);
    assert (y - 0.5) / s == y / s - 0.5 / s;
    assert (y + 0.5) / s == y / s + 0.5 / s;
  }

  lemma RoundWithin(x: real, scale: real)
    requires scale > 0.0
    ensures Abs(Round(x, scale) - x) <= 0.5 / scale
  {
    var y := x * scale;
    var n := Nearest(y) as real;
    ScaledDifference(n, y, scale);
    assert y / scale == x;
  }

  /** A value already on the grid is unchanged. */
  lemma RoundExact(x: real, scale: real, n: int)
    requires scale > 0.0 && x * scale == n as real
    ensures Round(x, scale) == x
  {
  }

  /** Rounding to three places always yields a three-place value, and leaves one alone. */
  lemma RoundMilli(x: real)
    ensures IsMilli(Round(x, MILLI))
    ensures IsMilli(x) ==> Round(x, MILLI) == x
  {
    assert Round(x, MILLI) * 1000.0 == Nearest(x * 1000.0) as real;
    if IsMilli(x) {
      RoundExact(x, MILLI, (x * 1000.0).Floor);
    }
  }

  lemma MilliIntro(x: real, n: int)
    requires x * 1000.0 == n as real
    ensures IsMilli(x)
  {
  }

  lemma MilliAdd(x: real, y: real)
    requires IsMilli(x) && IsMilli(y)
    ensures IsMilli(x + y) && IsMilli(x - y)
  {
    var n, m := (x * 1000.0).Floor, (y * 1000.0).Floor;
    MilliIntro(x + y, n + m);
    MilliIntro(x - y, n - m);
  }
}
