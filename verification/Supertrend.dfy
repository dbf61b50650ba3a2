/** The Supertrend recurrence (app/indicators/ta.py, supertrend). The basic bands
    hl2 +- mult * ATR are inputs; a cell without a value is numpy's NaN. */
module Supertrend {
  import opened Common

  type Cell = Option<real>

  datatype Direction = UP | DOWN

  /** Final upper band at bar i: it may only fall while the close stays under it. */
  function UpperAt(ub: seq<Cell>, close: seq<real>, i: nat): Cell
    requires i < |ub| == |close|
  {
    if i > 0 && UpperAt(ub, close, i - 1).Some? && ub[i].Some?
       && close[i - 1] <= UpperAt(ub, close, i - 1).value
    then Some(Min(ub[i].value, UpperAt(ub, close, i - 1).value))
    else ub[i]
  }

  /** Final lower band at bar i: it may only rise while the close stays above it. */
  function LowerAt(lb: seq<Cell>, close: seq<real>, i: nat): Cell
    requires i < |lb| == |close|
  {
    if i > 0 && LowerAt(lb, close, i - 1).Some? && lb[i].Some?
       && close[i - 1] >= LowerAt(lb, close, i - 1).value
    then Some(Max(lb[i].value, LowerAt(lb, close, i - 1).value))
    else lb[i]
  }

  /** Direction carried into bar i; a stretch with no history counts as up. */
  function Carried(ub: seq<Cell>, lb: seq<Cell>, close: seq<real>, i: nat): Direction
    requires 0 < i < |ub| == |lb| == |close|
    decreases i, 0
  {
    match DirectionAt(ub, lb, close, i - 1)
    case None => UP
    case Some(d) => d
  }

  function DirectionAt(ub: seq<Cell>, lb: seq<Cell>, close: seq<real>, i: nat): Option<Direction>
    requires i < |ub| == |lb| == |close|
    decreases i, 1
  {
    if i == 0 then None
    else
      var d := Carried(ub, lb, close, i);
      var upper, lower := UpperAt(ub, close, i), LowerAt(lb, close, i);
      if d == UP && lower.Some? && close[i] < lower.value then Some(DOWN)
      else if d == DOWN && upper.Some? && close[i] > upper.value then Some(UP)
      else Some(d)
  }

  function LineAt(ub: seq<Cell>, lb: seq<Cell>, close: seq<real>, i: nat): Cell
    requires i < |ub| == |lb| == |close|
  {
    match DirectionAt(ub, lb, close, i)
    case None => None
    case Some(UP) => LowerAt(lb, close, i)
    case Some(DOWN) => UpperAt(ub, close, i)
  }

  /** One bar of the upper band, in place. */
  method TightenUpper(upper: array<Cell>, ub: seq<Cell>, close: seq<real>, i: nat)
    requires 0 < i < |ub| == |close| == upper.Length
    requires upper[i - 1] == UpperAt(ub, close, i - 1) && upper[i] == ub[i]
    modifies upper
    ensures upper[i] == UpperAt(ub, close, i)
    ensures forall j :: 0 <= j < upper.Length && j != i ==> upper[j] == old(upper[j])
  {
    if upper[i - 1].Some? && ub[i].Some? {
      if close[i - 1] <= upper[i - 1].value {
        upper[i] := Some(Min(ub[i].value, upper[i - 1].value));
      }
    }
  }

  /** One bar of the lower band, in place. */
  method TightenLower(lower: array<Cell>, lb: seq<Cell>, close: seq<real>, i: nat)
    requires 0 < i < |lb| == |close| == lower.Length
    requires lower[i - 1] == LowerAt(lb, close, i - 1) && lower[i] == lb[i]
    modifies lower
    ensures lower[i] == LowerAt(lb, close, i)
    ensures forall j :: 0 <= j < lower.Length && j != i ==> lower[j] == old(lower[j])
  {
    if lower[i - 1].Some? && lb[i].Some? {
      if close[i - 1] >= lower[i - 1].value {
        lower[i] := Some(Max(lb[i].value, lower[i - 1].value));
      }
    }
  }

  /** One bar of the direction, in place. */
  method Turn(direction: array<Option<Direction>>, upper: Cell, lower: Cell,
              ub: seq<Cell>, lb: seq<Cell>, close: seq<real>, i: nat)
    requires 0 < i < |ub| == |lb| == |close| == direction.Length
    requires upper == UpperAt(ub, close, i) && lower == LowerAt(lb, close, i)
    requires direction[i - 1] == DirectionAt(ub, lb, close, i - 1)
    modifies direction
    ensures direction[i] == DirectionAt(ub, lb, close, i)
    ensures forall j :: 0 <= j < direction.Length && j != i ==> direction[j] == old(direction[j])
  {
    direction[i] := if direction[i - 1].Some? then direction[i - 1] else Some(UP);
    if direction[i] == Some(UP) && lower.Some? && close[i] < lower.value {
      direction[i] := Some(DOWN);
    } else if direction[i] == Some(DOWN) && upper.Some? && close[i] > upper.value {
      direction[i] := Some(UP);
    }
  }

  /** The in-place loop over the band, direction and line arrays. */
  method Run(ub: seq<Cell>, lb: seq<Cell>, close: seq<real>)
    returns (st: array<Cell>, direction: array<Option<Direction>>)
    requires |ub| == |lb| == |close|
    ensures st.Length == direction.Length == |close|
    ensures forall i :: 0 <= i < |close| ==> st[i] == LineAt(ub, lb, close, i)
    ensures forall i :: 0 <= i < |close| ==> direction[i] == DirectionAt(ub, lb, close, i)
  {
    var n := |close|;
    var upper := new Cell[n](i requires 0 <= i < n => ub[i]);
    var lower := new Cell[n](i requires 0 <= i < n => lb[i]);
    direction := new Option<Direction>[n](_ => None);
    st := new Cell[n](_ => None);
    var i := 1;
    while i < n
      invariant 1 <= i
      invariant n > 0 ==>
                  i <= n && upper[i - 1] == UpperAt(ub, close, i - 1) && lower[i - 1] == LowerAt(lb, close, i - 1)
      invariant forall j {:trigger upper[j]} :: i <= j < n ==> upper[j] == ub[j]
      invariant forall j {:trigger lower[j]} :: i <= j < n ==> lower[j] == lb[j]
      invariant forall j {:trigger direction[j]} ::
                  0 <= j < i && j < n ==> direction[j] == DirectionAt(ub, lb, close, j)
      invariant forall j {:trigger st[j]} :: 0 <= j < i && j < n ==> st[j] == LineAt(ub, lb, close, j)
    {
      TightenUpper(upper, ub, close, i);
      TightenLower(lower, lb, close, i);
      Turn(direction, upper[i], lower[i], ub, lb, close, i);
      st[i] := if direction[i] == Some(UP) then lower[i] else upper[i];
      i := i + 1;
    }
  }

  // ---- closed form of the bands ----

  /** The upper band starts afresh at bar i: first bar, a hole in the data, or the
      previous close broke through it. */
  ghost predicate UpperRestarts(ub: seq<Cell>, close: seq<real>, i: nat)
    requires i < |ub| == |close|
  {
    i == 0 || ub[i].None? || UpperAt(ub, close, i - 1).None? || close[i - 1] > UpperAt(ub, close, i - 1).value
  }

  ghost predicate LowerRestarts(lb: seq<Cell>, close: seq<real>, i: nat)
    requires i < |lb| == |close|
  {
    i == 0 || lb[i].None? || LowerAt(lb, close, i - 1).None? || close[i - 1] < LowerAt(lb, close, i - 1).value
  }

  /** k is the last restart at or before i. */
  ghost predicate UpperSince(ub: seq<Cell>, close: seq<real>, k: nat, i: nat)
    requires i < |ub| == |close|
  {
    k <= i && UpperRestarts(ub, close, k) && forall j :: k < j <= i ==> !UpperRestarts(ub, close, j)
  }

  ghost predicate LowerSince(lb: seq<Cell>, close: seq<real>, k: nat, i: nat)
    requires i < |lb| == |close|
  {
    k <= i && LowerRestarts(lb, close, k) && forall j :: k < j <= i ==> !LowerRestarts(lb, close, j)
  }

  /** x is the least value of cells[k..i]. */
  ghost predicate IsMinimum(x: real, cells: seq<Cell>, k: nat, i: nat)
    requires k <= i < |cells|
  {
    && (forall j :: k <= j <= i ==> cells[j].Some? && x <= cells[j].value)
    && (exists j :: k <= j <= i && cells[j] == Some(x))
  }

  ghost predicate IsMaximum(x: real, cells: seq<Cell>, k: nat, i: nat)
    requires k <= i < |cells|
  {
    && (forall j :: k <= j <= i ==> cells[j].Some? && x >= cells[j].value)
    && (exists j :: k <= j <= i && cells[j] == Some(x))
  }

  lemma {:induction false} UpperPresent(ub: seq<Cell>, close: seq<real>, i: nat)
    requires i < |ub| == |close|
    ensures UpperAt(ub, close, i).Some? <==> ub[i].Some?
  {
  }

  lemma {:induction false} LowerPresent(lb: seq<Cell>, close: seq<real>, i: nat)
    requires i < |lb| == |close|
    ensures LowerAt(lb, close, i).Some? <==> lb[i].Some?
  {
  }

  /** The upper band is the minimum of the basic upper band since the last bar whose
      previous close broke it. */
  lemma {:induction false} UpperIsMinimumSinceBreak(ub: seq<Cell>, close: seq<real>, k: nat, i: nat)
    requires i < |ub| == |close| && ub[i].Some? && UpperSince(ub, close, k, i)
    ensures UpperAt(ub, close, i).Some? && IsMinimum(UpperAt(ub, close, i).value, ub, k, i)
    decreases i
  {
    if k < i {
      assert !UpperRestarts(ub, close, i);
      UpperPresent(ub, close, i - 1);
      UpperIsMinimumSinceBreak(ub, close, k, i - 1);
    } else {
      assert ub[i] == Some(ub[i].value);
    }
  }

  /** Dually, the lower band is the maximum of the basic lower band since its last break. */
  lemma {:induction false} LowerIsMaximumSinceBreak(lb: seq<Cell>, close: seq<real>, k: nat, i: nat)
    requires i < |lb| == |close| && lb[i].Some? && LowerSince(lb, close, k, i)
    ensures LowerAt(lb, close, i).Some? && IsMaximum(LowerAt(lb, close, i).value, lb, k, i)
    decreases i
  {
    if k < i {
      assert !LowerRestarts(lb, close, i);
      LowerPresent(lb, close, i - 1);
      LowerIsMaximumSinceBreak(lb, close, k, i - 1);
    } else {
      assert lb[i] == Some(lb[i].value);
    }
  }

  // ---- the line within a trend ----

  /** Bars a..b carry one direction, and no band value is missing after a. */
  ghost predicate Stretch(ub: seq<Cell>, lb: seq<Cell>, close: seq<real>, d: Direction, a: nat, b: nat)
    requires |ub| == |lb| == |close|
  {
    && 0 < a <= b < |close|
    && (forall j :: a <= j <= b ==> DirectionAt(ub, lb, close, j) == Some(d))
    && (forall j :: a < j <= b ==> ub[j].Some? && lb[j].Some?)
  }

  ghost predicate RightSide(d: Direction, line: real, close: real) {
    if d == UP then line <= close else close <= line
  }

  /** From the bar after the flip on, the close is never on the wrong side of the line. */
  lemma LineOnRightSide(ub: seq<Cell>, lb: seq<Cell>, close: seq<real>, d: Direction, a: nat, b: nat, m: nat)
    requires |ub| == |lb| == |close| && Stretch(ub, lb, close, d, a, b) && a < m <= b
    ensures LineAt(ub, lb, close, m).Some? && RightSide(d, LineAt(ub, lb, close, m).value, close[m])
  {
    UpperPresent(ub, close, m);
    LowerPresent(lb, close, m);
    assert DirectionAt(ub, lb, close, m - 1) == Some(d) == DirectionAt(ub, lb, close, m);
  }

  /** ... and the line moves only in the direction of the trend. */
  lemma {:induction false} LineFollowsTrend(
    ub: seq<Cell>, lb: seq<Cell>, close: seq<real>, d: Direction, a: nat, b: nat, m: nat, n: nat)
    requires |ub| == |lb| == |close| && Stretch(ub, lb, close, d, a, b) && a < m <= n <= b
    ensures LineAt(ub, lb, close, m).Some? && LineAt(ub, lb, close, n).Some?
    ensures var before, after := LineAt(ub, lb, close, m).value, LineAt(ub, lb, close, n).value;
            if d == UP then before <= after else before >= after
    decreases n
  {
    LineOnRightSide(ub, lb, close, d, a, b, m);
    if m < n {
      LineFollowsTrend(ub, lb, close, d, a, b, m, n - 1);
      LineOnRightSide(ub, lb, close, d, a, b, n - 1);
      LineOnRightSide(ub, lb, close, d, a, b, n);
    }
  }

  ghost predicate FlipsAt(ub: seq<Cell>, lb: seq<Cell>, close: seq<real>, i: nat)
    requires 0 < i < |ub| == |lb| == |close|
  {
    DirectionAt(ub, lb, close, i) != Some(Carried(ub, lb, close, i))
  }

  /** Bands and carried direction at bar i are settled before its own close is known. */
  lemma {:induction false} BandsIgnoreOwnClose(ub: seq<Cell>, lb: seq<Cell>, close: seq<real>, n: nat, c: real, i: nat)
    requires i <= n < |ub| == |lb| == |close|
    ensures UpperAt(ub, close[n := c], i) == UpperAt(ub, close, i)
    ensures LowerAt(lb, close[n := c], i) == LowerAt(lb, close, i)
    ensures i < n ==> DirectionAt(ub, lb, close[n := c], i) == DirectionAt(ub, lb, close, i)
  {
    if i > 0 {
      BandsIgnoreOwnClose(ub, lb, close, n, c, i - 1);
    }
  }

  ghost predicate RightSideAt(ub: seq<Cell>, lb: seq<Cell>, close: seq<real>, i: nat)
    requires i < |ub| == |lb| == |close|
  {
    var d, line := DirectionAt(ub, lb, close, i), LineAt(ub, lb, close, i);
    d.Some? && line.Some? && RightSide(d.value, line.value, close[i])
  }

  /** If closing at c flips the direction at bar i, then c is on the right side of the line. */
  ghost predicate SafeClose(ub: seq<Cell>, lb: seq<Cell>, close: seq<real>, i: nat, c: real)
    requires 0 < i < |ub| == |lb| == |close|
  {
    FlipsAt(ub, lb, close[i := c], i) ==> RightSideAt(ub, lb, close[i := c], i)
  }

  /** Whatever the close of bar i turns out to be, a flip there puts it on the right side of the line. */
  ghost predicate FlipIsSafe(ub: seq<Cell>, lb: seq<Cell>, close: seq<real>, i: nat)
    requires 0 < i < |ub| == |lb| == |close|
  {
    forall c: real :: SafeClose(ub, lb, close, i, c)
  }

  /** On the flip bar itself the side is right for every possible close exactly when the two
      bands have not crossed. */
  lemma FlipIsSafeIff(ub: seq<Cell>, lb: seq<Cell>, close: seq<real>, i: nat)
    requires 0 < i < |ub| == |lb| == |close| && ub[i].Some? && lb[i].Some?
    ensures UpperAt(ub, close, i).Some? && LowerAt(lb, close, i).Some?
    ensures FlipIsSafe(ub, lb, close, i) <==> LowerAt(lb, close, i).value <= UpperAt(ub, close, i).value
  {
    UpperPresent(ub, close, i);
    LowerPresent(lb, close, i);
    var upper, lower := UpperAt(ub, close, i).value, LowerAt(lb, close, i).value;
    if lower <= upper {
      forall c: real
        ensures SafeClose(ub, lb, close, i, c)
      {
        BandsIgnoreOwnClose(ub, lb, close, i, c, i);
      }
    } else {
      var between := (lower + upper) / 2.0;
      BandsIgnoreOwnClose(ub, lb, close, i, between, i);
      assert !SafeClose(ub, lb, close, i, between);
    }
  }

  // ---- the flip bar, told from the basic bands ----

  /** Bar a is where the unbroken run of values ending at bar i begins. */
  ghost predicate RunStarts(cells: seq<Cell>, a: nat, i: nat) {
    && a <= i < |cells| && (forall j :: a <= j <= i ==> cells[j].Some?)
    && (a == 0 || cells[a - 1].None?)
  }

  /** The upper band is one of the basic values of its run. */
  lemma {:induction false} UpperAmong(ub: seq<Cell>, close: seq<real>, a: nat, i: nat) returns (j: nat)
    requires |ub| == |close| && RunStarts(ub, a, i)
    ensures a <= j <= i && UpperAt(ub, close, i) == ub[j]
    decreases i
  {
    j := i;
    if UpperAt(ub, close, i) != ub[i] {
      UpperPresent(ub, close, i - 1);
      j := UpperAmong(ub, close, a, i - 1);
    }
  }

  lemma {:induction false} LowerAmong(lb: seq<Cell>, close: seq<real>, a: nat, i: nat) returns (j: nat)
    requires |lb| == |close| && RunStarts(lb, a, i)
    ensures a <= j <= i && LowerAt(lb, close, i) == lb[j]
    decreases i
  {
    j := i;
    if LowerAt(lb, close, i) != lb[i] {
      LowerPresent(lb, close, i - 1);
      j := LowerAmong(lb, close, a, i - 1);
    }
  }

  /** Every basic band at bar i clears the opposite basic bands of its run. */
  ghost predicate BasicBandsClear(ub: seq<Cell>, lb: seq<Cell>, a: nat, b: nat, i: nat)
    requires |ub| == |lb| && RunStarts(ub, a, i) && RunStarts(lb, b, i)
  {
    && (forall j :: a <= j <= i ==> lb[i].value <= ub[j].value)
    && (forall j :: b <= j <= i ==> lb[j].value <= ub[i].value)
  }

  /** Then the final bands cannot have crossed: bands both held from the bar before have its
      close between them. */
  lemma ClearBandsDoNotCross(ub: seq<Cell>, lb: seq<Cell>, close: seq<real>, a: nat, b: nat, i: nat)
    requires |ub| == |lb| == |close| && RunStarts(ub, a, i) && RunStarts(lb, b, i)
    requires BasicBandsClear(ub, lb, a, b, i)
    ensures UpperAt(ub, close, i).Some? && LowerAt(lb, close, i).Some?
    ensures LowerAt(lb, close, i).value <= UpperAt(ub, close, i).value
  {
    var j := UpperAmong(ub, close, a, i);
    var k := LowerAmong(lb, close, b, i);
    if UpperAt(ub, close, i) != ub[i] && LowerAt(lb, close, i) != lb[i] {
      assert UpperAt(ub, close, i) == UpperAt(ub, close, i - 1);
      assert LowerAt(lb, close, i) == LowerAt(lb, close, i - 1);
    }
  }

  /** c is below every value of these cells, or above. */
  ghost predicate Under(c: real, cells: seq<Cell>) {
    forall j :: 0 <= j < |cells| && cells[j].Some? ==> c < cells[j].value
  }

  ghost predicate Over(c: real, cells: seq<Cell>) {
    forall j :: 0 <= j < |cells| && cells[j].Some? ==> c > cells[j].value
  }

  lemma {:induction false} SomeUnder(cells: seq<Cell>) returns (c: real)
    ensures Under(c, cells)
  {
    c := 0.0;
    if cells != [] {
      var n := |cells| - 1;
      c := SomeUnder(cells[..n]);
      assert forall j :: 0 <= j < n ==> cells[..n][j] == cells[j];
      if cells[n].Some? && cells[n].value <= c {
        c := cells[n].value - 1.0;
      }
    }
  }

  lemma {:induction false} SomeOver(cells: seq<Cell>) returns (c: real)
    ensures Over(c, cells)
  {
    c := 0.0;
    if cells != [] {
      var n := |cells| - 1;
      c := SomeOver(cells[..n]);
      assert forall j :: 0 <= j < n ==> cells[..n][j] == cells[j];
      if cells[n].Some? && cells[n].value >= c {
        c := cells[n].value + 1.0;
      }
    }
  }

  ghost predicate Constant(close: seq<real>, c: real) {
    forall j :: 0 <= j < |close| ==> close[j] == c
  }

  /** A low close throughout holds the upper band at the least of its run and breaks the lower
      band at every bar. */
  lemma {:induction false} LowCloseUpper(ub: seq<Cell>, close: seq<real>, c: real, a: nat, i: nat)
    requires |ub| == |close| && Constant(close, c) && Under(c, ub) && RunStarts(ub, a, i)
    ensures UpperAt(ub, close, i).Some? && UpperAt(ub, close, i).value > c
    ensures forall j :: a <= j <= i ==> UpperAt(ub, close, i).value <= ub[j].value
    decreases i
  {
    if a < i {
      LowCloseUpper(ub, close, c, a, i - 1);
    } else if i > 0 {
      UpperPresent(ub, close, i - 1);
    }
  }

  lemma {:induction false} LowCloseLower(lb: seq<Cell>, close: seq<real>, c: real, i: nat)
    requires i < |lb| == |close| && Constant(close, c) && Under(c, lb)
    ensures LowerAt(lb, close, i) == lb[i]
  {
    if i > 0 {
      LowCloseLower(lb, close, c, i - 1);
    }
  }

  lemma {:induction false} HighCloseLower(lb: seq<Cell>, close: seq<real>, c: real, a: nat, i: nat)
    requires |lb| == |close| && Constant(close, c) && Over(c, lb) && RunStarts(lb, a, i)
    ensures LowerAt(lb, close, i).Some? && LowerAt(lb, close, i).value < c
    ensures forall j :: a <= j <= i ==> LowerAt(lb, close, i).value >= lb[j].value
    decreases i
  {
    if a < i {
      HighCloseLower(lb, close, c, a, i - 1);
    } else if i > 0 {
      LowerPresent(lb, close, i - 1);
    }
  }

  lemma {:induction false} HighCloseUpper(ub: seq<Cell>, close: seq<real>, c: real, i: nat)
    requires i < |ub| == |close| && Constant(close, c) && Over(c, ub)
    ensures UpperAt(ub, close, i) == ub[i]
  {
    if i > 0 {
      HighCloseUpper(ub, close, c, i - 1);
    }
  }

  /** Under any closing prices whatever, a flip at bar i is safe. */
  ghost predicate AlwaysSafe(ub: seq<Cell>, lb: seq<Cell>, i: nat)
    requires 0 < i < |ub| == |lb|
  {
    forall close: seq<real> :: |close| == |ub| ==> FlipIsSafe(ub, lb, close, i)
  }

  lemma SafeBandsClearBelow(ub: seq<Cell>, lb: seq<Cell>, a: nat, b: nat, i: nat)
    requires 0 < i < |ub| == |lb| && RunStarts(ub, a, i) && RunStarts(lb, b, i) && AlwaysSafe(ub, lb, i)
    ensures forall j :: a <= j <= i ==> lb[i].value <= ub[j].value
  {
    var p := SomeUnder(ub);
    var q := SomeUnder(lb);
    var c := Min(p, q);
    var close := seq(|ub|, _ => c);
    LowCloseUpper(ub, close, c, a, i);
    LowCloseLower(lb, close, c, i);
    assert FlipIsSafe(ub, lb, close, i);
    FlipIsSafeIff(ub, lb, close, i);
  }

  lemma SafeBandsClearAbove(ub: seq<Cell>, lb: seq<Cell>, a: nat, b: nat, i: nat)
    requires 0 < i < |ub| == |lb| && RunStarts(ub, a, i) && RunStarts(lb, b, i) && AlwaysSafe(ub, lb, i)
    ensures forall j :: b <= j <= i ==> lb[j].value <= ub[i].value
  {
    var p := SomeOver(ub);
    var q := SomeOver(lb);
    var c := Max(p, q);
    var close := seq(|ub|, _ => c);
    HighCloseLower(lb, close, c, b, i);
    HighCloseUpper(ub, close, c, i);
    assert FlipIsSafe(ub, lb, close, i);
    FlipIsSafeIff(ub, lb, close, i);
  }

  /** The exact line on the inputs: whatever the market closes at, a flip at bar i puts the close
      on the right side, if and only if the bar's basic bands clear the opposite basic bands of
      the unbroken runs that end there. */
  lemma AlwaysSafeIff(ub: seq<Cell>, lb: seq<Cell>, a: nat, b: nat, i: nat)
    requires 0 < i < |ub| == |lb| && RunStarts(ub, a, i) && RunStarts(lb, b, i)
    ensures AlwaysSafe(ub, lb, i) <==> BasicBandsClear(ub, lb, a, b, i)
  {
    if AlwaysSafe(ub, lb, i) {
      SafeBandsClearBelow(ub, lb, a, b, i);
      SafeBandsClearAbove(ub, lb, a, b, i);
    } else if BasicBandsClear(ub, lb, a, b, i) {
      forall close: seq<real> | |close| == |ub|
        ensures FlipIsSafe(ub, lb, close, i)
      {
        ClearBandsDoNotCross(ub, lb, close, a, b, i);
        FlipIsSafeIff(ub, lb, close, i);
      }
    }
  }

  /** Bands can cross, and then the flip bar can have its close on the wrong side: a fall
      of the mid price below the held lower band does it in two bars. */
  lemma FlipBarCanBeOnWrongSide()
    ensures var ub, lb, close := [Some(12.0), Some(5.0)], [Some(10.0), Some(3.0)], [11.0, 7.0];
            && FlipsAt(ub, lb, close, 1)
            && LineAt(ub, lb, close, 1) == Some(5.0)
            && DirectionAt(ub, lb, close, 1) == Some(DOWN)
            && !RightSide(DOWN, 5.0, close[1])
  {
  }

  // ---- when the direction turns ----

  /** The first bar has no direction, the second starts from up. A direction turns down exactly on a close
      strictly below the lower band, and up exactly on one strictly above the upper. */
  lemma DirectionMeans(ub: seq<Cell>, lb: seq<Cell>, close: seq<real>, i: nat)
    requires i < |ub| == |lb| == |close|
    ensures DirectionAt(ub, lb, close, i) == None <==> i == 0
    ensures i > 0 ==>
              var was := if i == 1 then Some(UP) else DirectionAt(ub, lb, close, i - 1);
              var now := DirectionAt(ub, lb, close, i);
              && (was == Some(UP) ==>
                    (now == Some(DOWN) <==> exists x :: LowerAt(lb, close, i) == Some(x) && close[i] < x))
              && (was == Some(DOWN) ==>
                    (now == Some(UP) <==> exists x :: UpperAt(ub, close, i) == Some(x) && close[i] > x))
  {
  }

  /** The line is the lower band in an up stretch and the upper band in a down stretch. */
  lemma LineIsBand(ub: seq<Cell>, lb: seq<Cell>, close: seq<real>, i: nat)
    requires i < |ub| == |lb| == |close|
    ensures LineAt(ub, lb, close, i)
            == if DirectionAt(ub, lb, close, i) == Some(UP) then LowerAt(lb, close, i)
               else if DirectionAt(ub, lb, close, i) == Some(DOWN) then UpperAt(ub, close, i)
               else None
  {
  }
}
