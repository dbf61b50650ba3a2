/** Exchange-valid order sizes (app/exchange_vault/binance_preflight.py), in exact
    arithmetic. */
module OrderSizing {
  import opened Common

  datatype Filters = Filters(
    found: bool, trading: bool,
    stepSize: real, minQty: real, tickSize: real, minNotional: real)

  datatype Reason = OK | NOT_FOUND | NOT_TRADING | NOT_POSITIVE | ZERO_QUANTITY | BELOW_NOTIONAL

  datatype OrderPlan = OrderPlan(ok: bool, qty: real, notional: real, reason: Reason)

  datatype OrderType = MARKET | LIMIT | STOP | TAKE_PROFIT | OTHER_TYPE

  datatype Precision = Precision(ok: bool, qty: real, price: Option<real>)

  /** Decimal's ROUND_UP: away from zero. */
  function AwayFromZero(x: real): int {
    if x >= 0.0 then -((-x).Floor) else x.Floor
  }

  /** Decimal's ROUND_HALF_UP: to nearest, halves away from zero. */
  function HalfUp(x: real): int {
    if x >= 0.0 then (x + 0.5).Floor else -((-x + 0.5).Floor)
  }

  function RoundStepDown(value: real, step: real): real {
    if step <= 0.0 then value else TowardZero(value / step) as real * step
  }

  function RoundStepUp(value: real, step: real): real {
    if step <= 0.0 then value else AwayFromZero(value / step) as real * step
  }

  function RoundPrice(value: real, tick: real): real {
    if tick <= 0.0 then value else HalfUp(value / tick) as real * tick
  }

  /** The minimum-quantity bump. */
  function Raise(q: real, least: real, step: real): real {
    if least != 0.0 && q < least then RoundStepUp(least, step) else q
  }

  predicate MinNotionalPasses(qty: real, price: real, minNotional: real) {
    minNotional <= 0.0 || qty * price >= minNotional
  }

  /** Rounded-down target, bumped to the minimum quantity. */
  function Sized(f: Filters, price: real, target: real): real
    requires price > 0.0
  {
    Raise(RoundStepDown(target / price, f.stepSize), f.minQty, f.stepSize)
  }

  /** The minimum-notional bump, followed by a second minimum-quantity bump. */
  function NotionalBump(sized: real, minQty: real, minNotional: real, price: real, step: real): real
    requires price > 0.0
  {
    if minNotional != 0.0 && sized * price < minNotional then
      Raise(RoundStepUp(minNotional / price, step), minQty, step)
    else sized
  }

  /** The quantity before the final checks. */
  function BumpedQuantity(f: Filters, price: real, target: real): real
    requires price > 0.0
  {
    NotionalBump(Sized(f, price, target), f.minQty, f.minNotional, price, f.stepSize)
  }

  /** The final checks on a quantity. */
  function Checked(qty: real, price: real, minNotional: real): OrderPlan {
    if qty <= 0.0 then OrderPlan(false, 0.0, 0.0, ZERO_QUANTITY)
    else if !MinNotionalPasses(qty, price, minNotional) then OrderPlan(false, qty, qty * price, BELOW_NOTIONAL)
    else OrderPlan(true, qty, qty * price, OK)
  }

  function PlanOrderQuantity(f: Filters, price: real, target: real): OrderPlan {
    if !f.found then OrderPlan(false, 0.0, 0.0, NOT_FOUND)
    else if !f.trading then OrderPlan(false, 0.0, 0.0, NOT_TRADING)
    else if price <= 0.0 || target <= 0.0 then OrderPlan(false, 0.0, 0.0, NOT_POSITIVE)
    else Checked(BumpedQuantity(f, price, target), price, f.minNotional)
  }

  function EnforceOrderPrecision(f: Filters, qty: real, price: Option<real>, kind: OrderType): Precision {
    if !f.found then Precision(true, qty, price)
    else
      var rounded := RoundStepDown(qty, f.stepSize);
      if rounded <= 0.0 || (f.minQty != 0.0 && rounded < f.minQty) then Precision(false, rounded, price)
      else if kind in {LIMIT, STOP, TAKE_PROFIT} && price.Some? && price.value != 0.0 then
        Precision(true, rounded, Some(RoundPrice(price.value, f.tickSize)))
      else Precision(true, rounded, price)
  }

  // ---- what the rounding means ----

  function Steps(n: int, step: real): real { n as real * step }

  /** q is a whole number of steps (any quantity is, when the exchange names no step). */
  ghost predicate OnStep(q: real, step: real) {
    step <= 0.0 || exists n: int :: q == Steps(n, step)
  }

  /** q is the least on-step quantity that is at least v. */
  ghost predicate IsCeiling(q: real, v: real, step: real) {
    OnStep(q, step) && q >= v && forall r: real :: OnStep(r, step) && r >= v ==> q <= r
  }

  ghost predicate IsFloor(q: real, v: real, step: real) {
    OnStep(q, step) && q <= v && forall r: real :: OnStep(r, step) && r <= v ==> r <= q
  }

  lemma MultipleOrder(n: int, m: int, step: real)
    requires step > 0.0
    ensures n <= m <==> n as real * step <= m as real * step
  {
    if n < m {
      assert (m - n) as real * step > 0.0;
    } else if m < n {
      assert (n - m) as real * step > 0.0;
    }
  }

  /** Scaling by the step keeps comparisons with v / step. */
  lemma ScaledOrder(n: int, v: real, step: real)
    requires step > 0.0
    ensures n as real <= v / step <==> n as real * step <= v
    ensures n as real >= v / step <==> n as real * step >= v
  {
    var x := v / step;
    assert x * step == v;
    if n as real < x {
      assert (x - n as real) * step > 0.0;
    } else if n as real > x {
      assert (n as real - x) * step > 0.0;
    }
  }

  /** The ceiling in steps is below every whole number of steps that reaches v. */
  lemma CeilingIsLeast(v: real, step: real, m: int)
    requires v >= 0.0 && step > 0.0 && Steps(m, step) >= v
    ensures RoundStepUp(v, step) <= Steps(m, step)
  {
    var n := AwayFromZero(v / step);
    assert v / step >= 0.0;
    ScaledOrder(m, v, step);
    assert m as real >= v / step;
    assert n <= m;
    MultipleOrder(n, m, step);
  }

  lemma FloorIsGreatest(v: real, step: real, m: int)
    requires v >= 0.0 && step > 0.0 && Steps(m, step) <= v
    ensures Steps(m, step) <= RoundStepDown(v, step)
  {
    var n := TowardZero(v / step);
    assert v / step >= 0.0;
    ScaledOrder(m, v, step);
    assert m as real <= v / step;
    assert m <= n;
    MultipleOrder(m, n, step);
  }

  lemma CeilingMeaning(v: real, step: real)
    requires v >= 0.0
    ensures IsCeiling(RoundStepUp(v, step), v, step)
  {
    if step > 0.0 {
      var n := AwayFromZero(v / step);
      assert v / step >= 0.0;
      ScaledOrder(n, v, step);
      assert RoundStepUp(v, step) == Steps(n, step);
      forall r: real | OnStep(r, step) && r >= v
        ensures RoundStepUp(v, step) <= r
      {
        var m: int :| r == Steps(m, step);
        CeilingIsLeast(v, step, m);
      }
    }
  }

  lemma FloorMeaning(v: real, step: real)
    requires v >= 0.0
    ensures IsFloor(RoundStepDown(v, step), v, step) && RoundStepDown(v, step) >= 0.0
  {
    if step > 0.0 {
      var n := TowardZero(v / step);
      assert v / step >= 0.0;
      ScaledOrder(n, v, step);
      MultipleOrder(0, n, step);
      assert RoundStepDown(v, step) == Steps(n, step);
      forall r: real | OnStep(r, step) && r <= v
        ensures r <= RoundStepDown(v, step)
      {
        var m: int :| r == Steps(m, step);
        FloorIsGreatest(v, step, m);
      }
    }
  }

  lemma NonPositiveCeiling(v: real, step: real)
    requires v <= 0.0
    ensures RoundStepUp(v, step) <= 0.0
  {
    if step > 0.0 {
      var x := v / step;
      assert x * step == v;
      assert x <= 0.0;
      MultipleOrder(AwayFromZero(x), 0, step);
    }
  }

  /** A whole number of steps is left alone. */
  lemma OnStepUnchanged(q: real, step: real)
    requires q >= 0.0 && OnStep(q, step)
    ensures RoundStepDown(q, step) == q
  {
    FloorMeaning(q, step);
  }

  // ---- the planned quantity ----

  /** Raising an on-step quantity to the ceiling of v when it falls short of v is taking a maximum. */
  lemma RaiseIsMax(q: real, v: real, step: real)
    requires q >= 0.0 && OnStep(q, step)
    ensures Raise(q, v, step) == Max(q, RoundStepUp(v, step))
    ensures OnStep(Max(q, RoundStepUp(v, step)), step)
    ensures Max(q, RoundStepUp(v, step)) >= v
  {
    if v > 0.0 {
      CeilingMeaning(v, step);
    } else {
      NonPositiveCeiling(v, step);
    }
  }

  lemma NotionalOrder(q: real, n: real, price: real)
    requires price > 0.0
    ensures q * price < n <==> q < n / price
    ensures n / price == 0.0 <==> n == 0.0
  {
    var x := n / price;
    assert x * price == n;
    if q < x {
      assert (x - q) * price > 0.0;
    } else {
      assert (q - x) * price >= 0.0;
    }
  }

  /** When the notional bump is taken, its result exceeds what was sized, so it meets the
      minimum quantity too: the second bump is dead code. */
  lemma SecondBumpIsDead(sized: real, minQty: real, minNotional: real, price: real, step: real)
    requires price > 0.0 && sized >= 0.0 && OnStep(sized, step) && sized >= minQty
    requires minNotional != 0.0 && sized * price < minNotional
    ensures var need := RoundStepUp(minNotional / price, step);
            need > sized && Raise(need, minQty, step) == need
  {
    NotionalOrder(sized, minNotional, price);
    RaiseIsMax(sized, minNotional / price, step);
  }

  lemma NotionalBumpIsMax(sized: real, minQty: real, minNotional: real, price: real, step: real)
    requires price > 0.0 && sized >= 0.0 && OnStep(sized, step) && sized >= minQty
    ensures var q := NotionalBump(sized, minQty, minNotional, price, step);
            && q == Max(sized, RoundStepUp(minNotional / price, step))
            && OnStep(q, step) && q * price >= minNotional
  {
    var least := minNotional / price;
    NotionalOrder(sized, minNotional, price);
    RaiseIsMax(sized, least, step);
    if minNotional != 0.0 && sized * price < minNotional {
      SecondBumpIsDead(sized, minQty, minNotional, price, step);
    }
    NotionalOrder(Max(sized, RoundStepUp(least, step)), minNotional, price);
  }

  lemma SizedIsMax(f: Filters, price: real, target: real)
    requires price > 0.0 && target > 0.0
    ensures var base := RoundStepDown(target / price, f.stepSize);
            && Sized(f, price, target) == Max(base, RoundStepUp(f.minQty, f.stepSize))
            && base >= 0.0 && OnStep(Sized(f, price, target), f.stepSize)
            && Sized(f, price, target) >= f.minQty
  {
    assert target / price > 0.0;
    FloorMeaning(target / price, f.stepSize);
    RaiseIsMax(RoundStepDown(target / price, f.stepSize), f.minQty, f.stepSize);
  }

  lemma BumpFromSized(f: Filters, price: real, target: real, sized: real, qty: real)
    requires price > 0.0 && sized == Sized(f, price, target) && qty == BumpedQuantity(f, price, target)
    requires sized >= 0.0 && OnStep(sized, f.stepSize) && sized >= f.minQty
    ensures qty == Max(sized, RoundStepUp(f.minNotional / price, f.stepSize))
    ensures OnStep(qty, f.stepSize)
  {
    NotionalBumpIsMax(sized, f.minQty, f.minNotional, price, f.stepSize);
  }

  lemma QuantityMeetsNotional(f: Filters, price: real, target: real)
    requires price > 0.0 && target > 0.0
    ensures BumpedQuantity(f, price, target) * price >= f.minNotional
  {
    SizedIsMax(f, price, target);
    NotionalBumpIsMax(Sized(f, price, target), f.minQty, f.minNotional, price, f.stepSize);
  }

  /** The branchy computation is a plain maximum of three roundings; in particular the
      second minimum-quantity bump changes nothing. */
  lemma QuantityIsMaximum(f: Filters, price: real, target: real)
    requires price > 0.0 && target > 0.0
    ensures var base := RoundStepDown(target / price, f.stepSize);
            var qty := BumpedQuantity(f, price, target);
            && qty == Max(Max(base, RoundStepUp(f.minQty, f.stepSize)), RoundStepUp(f.minNotional / price, f.stepSize))
            && qty >= base >= 0.0 && OnStep(qty, f.stepSize)
            && qty >= f.minQty && qty * price >= f.minNotional
  {
    SizedIsMax(f, price, target);
    BumpFromSized(f, price, target, Sized(f, price, target), BumpedQuantity(f, price, target));
    QuantityMeetsNotional(f, price, target);
  }

  lemma ChecksPass(qty: real, price: real, minNotional: real)
    requires qty * price >= minNotional
    ensures Checked(qty, price, minNotional)
            == if qty > 0.0 then OrderPlan(true, qty, qty * price, OK) else OrderPlan(false, 0.0, 0.0, ZERO_QUANTITY)
  {
  }

  /** So is the final minimum-notional failure. */
  lemma NotionalFailureIsDead(f: Filters, price: real, target: real)
    ensures PlanOrderQuantity(f, price, target).reason != BELOW_NOTIONAL
  {
    if price > 0.0 && target > 0.0 {
      QuantityMeetsNotional(f, price, target);
      ChecksPass(BumpedQuantity(f, price, target), price, f.minNotional);
    }
  }

  /** A quantity the exchange would take, no smaller than the rounded-down target. */
  ghost predicate Admissible(f: Filters, price: real, target: real, q: real)
    requires price > 0.0
  {
    && OnStep(q, f.stepSize) && q >= 0.0
    && q >= RoundStepDown(target / price, f.stepSize)
    && q >= f.minQty && q * price >= f.minNotional
  }

  lemma CeilingBelow(v: real, q: real, step: real)
    requires OnStep(q, step) && q >= 0.0 && q >= v
    ensures RoundStepUp(v, step) <= q
  {
    if v > 0.0 {
      CeilingMeaning(v, step);
    } else {
      NonPositiveCeiling(v, step);
    }
  }

  /** The bumped quantity is admissible, and no admissible quantity is smaller: the bumps
      never buy more than the filters force. */
  lemma QuantityIsLeastAdmissible(f: Filters, price: real, target: real, q: real)
    requires price > 0.0 && target > 0.0
    ensures Admissible(f, price, target, BumpedQuantity(f, price, target))
    ensures Admissible(f, price, target, q) ==> BumpedQuantity(f, price, target) <= q
  {
    QuantityIsMaximum(f, price, target);
    if Admissible(f, price, target, q) {
      CeilingBelow(f.minQty, q, f.stepSize);
      NotionalOrder(q, f.minNotional, price);
      CeilingBelow(f.minNotional / price, q, f.stepSize);
    }
  }

  /** The plan is ok exactly when the least admissible quantity is positive, and then it is
      that quantity. */
  lemma PlanIsOkIffPositive(f: Filters, price: real, target: real)
    requires f.found && f.trading && price > 0.0 && target > 0.0
    ensures var qty := BumpedQuantity(f, price, target);
            PlanOrderQuantity(f, price, target)
            == if qty > 0.0 then OrderPlan(true, qty, qty * price, OK) else OrderPlan(false, 0.0, 0.0, ZERO_QUANTITY)
  {
    QuantityMeetsNotional(f, price, target);
    ChecksPass(BumpedQuantity(f, price, target), price, f.minNotional);
  }

  lemma FloorIsZero(v: real, step: real)
    requires v > 0.0
    ensures RoundStepDown(v, step) <= 0.0 <==> step > 0.0 && v < step
  {
    FloorMeaning(v, step);
    if step > 0.0 {
      var n := TowardZero(v / step);
      ScaledOrder(1, v, step);
      assert Steps(1, step) == step;
      MultipleOrder(1, n, step);
      MultipleOrder(n, 0, step);
    }
  }

  lemma CeilingIsPositive(v: real, step: real)
    ensures RoundStepUp(v, step) > 0.0 <==> v > 0.0
  {
    if v > 0.0 {
      CeilingMeaning(v, step);
    } else {
      NonPositiveCeiling(v, step);
    }
  }

  /** Exactly when a tradable symbol yields no order: the target is below one step and no
      minimum lifts it. */
  lemma PlanFailsOnlyOnZero(f: Filters, price: real, target: real)
    requires f.found && f.trading && price > 0.0 && target > 0.0
    ensures !PlanOrderQuantity(f, price, target).ok
            <==> f.stepSize > 0.0 && target / price < f.stepSize && f.minQty <= 0.0 && f.minNotional <= 0.0
  {
    QuantityIsMaximum(f, price, target);
    assert target / price > 0.0;
    FloorIsZero(target / price, f.stepSize);
    CeilingIsPositive(f.minQty, f.stepSize);
    CeilingIsPositive(f.minNotional / price, f.stepSize);
    NotionalOrder(0.0, f.minNotional, price);
  }

  /** A planned quantity passes order precision untouched, for every order type. */
  lemma PlannedQuantityIsPrecise(f: Filters, price: real, target: real, limit: Option<real>, kind: OrderType)
    ensures var plan := PlanOrderQuantity(f, price, target);
            var p := EnforceOrderPrecision(f, plan.qty, limit, kind);
            plan.ok ==> p.ok && p.qty == plan.qty
  {
    if PlanOrderQuantity(f, price, target).ok {
      QuantityIsMaximum(f, price, target);
      OnStepUnchanged(PlanOrderQuantity(f, price, target).qty, f.stepSize);
    }
  }

  lemma FloorIsOdd(v: real, step: real)
    requires v < 0.0
    ensures RoundStepDown(v, step) == -RoundStepDown(-v, step)
  {
    if step > 0.0 {
      assert (-v) / step == -(v / step);
      assert v / step < 0.0;
    }
  }

  /** A negative quantity rounds toward zero too, so it never becomes positive. */
  lemma NegativeFloor(v: real, step: real)
    requires v < 0.0
    ensures v <= RoundStepDown(v, step) <= 0.0
  {
    if step > 0.0 {
      FloorMeaning(-v, step);
      assert (-v) / step == -(v / step);
      assert v / step < 0.0;
      assert RoundStepDown(v, step) == -RoundStepDown(-v, step);
    }
  }

  /** Enforcing precision never increases a position: what passes is at most what was asked,
      and nothing grows in size or changes sign, whatever the quantity. Enforcing it twice
      changes nothing more. */
  lemma PrecisionNeverBuysMore(f: Filters, qty: real, price: Option<real>, kind: OrderType)
    ensures var p := EnforceOrderPrecision(f, qty, price, kind);
            && (p.ok ==> p.qty <= qty)
            && Abs(p.qty) <= Abs(qty) && (p.qty > 0.0 ==> qty > 0.0) && (p.qty < 0.0 ==> qty < 0.0)
            && (p.ok ==> EnforceOrderPrecision(f, p.qty, p.price, kind).qty == p.qty)
            && (p.ok ==> EnforceOrderPrecision(f, p.qty, p.price, kind).ok)
  {
    if f.found {
      if qty >= 0.0 {
        FloorMeaning(qty, f.stepSize);
        OnStepUnchanged(RoundStepDown(qty, f.stepSize), f.stepSize);
      } else {
        NegativeFloor(qty, f.stepSize);
      }
    }
  }

  lemma HalfUpIsNearest(x: real, m: int)
    ensures Abs(HalfUp(x) as real - x) <= Abs(m as real - x)
  {
    var n := HalfUp(x);
    assert Abs(n as real - x) <= 0.5;
    if m < n {
      assert m <= n - 1;
    } else if m > n {
      assert m >= n + 1;
    }
  }

  lemma AbsTimes(d: real, tick: real)
    requires tick > 0.0
    ensures Abs(d * tick) == Abs(d) * tick
  {
  }

  lemma ScaledDistance(n: int, x: real, tick: real, value: real)
    requires tick > 0.0 && x * tick == value
    ensures Abs(Steps(n, tick) - value) == Abs(n as real - x) * tick
  {
    assert Steps(n, tick) - value == (n as real - x) * tick;
    AbsTimes(n as real - x, tick);
  }

  lemma ScaleUp(a: real, b: real, tick: real)
    requires a <= b && tick > 0.0
    ensures a * tick <= b * tick
  {
  }

  lemma NearestTick(price: real, x: real, tick: real, n: int, m: int)
    requires tick > 0.0 && x * tick == price && Abs(n as real - x) <= Abs(m as real - x)
    ensures Abs(Steps(n, tick) - price) <= Abs(Steps(m, tick) - price)
  {
    ScaledDistance(n, x, tick, price);
    ScaledDistance(m, x, tick, price);
    ScaleUp(Abs(n as real - x), Abs(m as real - x), tick);
  }

  /** Of two equally near integers the one farther from zero is taken. */
  lemma HalfUpBreaksTies(x: real, m: int)
    requires Abs(HalfUp(x) as real - x) == Abs(m as real - x)
    ensures Abs(m as real) <= Abs(HalfUp(x) as real)
  {
    var n := HalfUp(x);
    if x >= 0.0 {
      assert x - 0.5 < n as real <= x + 0.5 && n >= 0;
      assert m <= n;
    } else {
      assert x - 0.5 <= n as real < x + 0.5 && n <= 0;
      assert m >= n;
    }
  }

  lemma Cancel(a: real, b: real, k: real)
    requires a * k == b * k && k > 0.0
    ensures a == b
  {
  }

  lemma TickTies(price: real, x: real, tick: real, n: int, m: int)
    requires tick > 0.0 && x * tick == price && Abs(Steps(n, tick) - price) == Abs(Steps(m, tick) - price)
    ensures Abs(n as real - x) == Abs(m as real - x)
  {
    ScaledDistance(n, x, tick, price);
    ScaledDistance(m, x, tick, price);
    Cancel(Abs(n as real - x), Abs(m as real - x), tick);
  }

  lemma LargerTimes(a: real, b: real, tick: real)
    requires tick > 0.0 && Abs(b) <= Abs(a)
    ensures Abs(b * tick) <= Abs(a * tick)
  {
    AbsTimes(a, tick);
    AbsTimes(b, tick);
    ScaleUp(Abs(b), Abs(a), tick);
  }

  lemma StepsSize(n: int, m: int, tick: real)
    requires tick > 0.0 && Abs(m as real) <= Abs(n as real)
    ensures Abs(Steps(m, tick)) <= Abs(Steps(n, tick))
  {
    LargerTimes(n as real, m as real, tick);
  }

  /** A limit price goes to the nearest tick: no multiple of the tick is closer, and one as close is
      not farther from zero. */
  lemma PriceIsNearestTick(price: real, tick: real, r: real)
    requires tick > 0.0 && OnStep(r, tick)
    ensures OnStep(RoundPrice(price, tick), tick)
    ensures Abs(RoundPrice(price, tick) - price) <= Abs(r - price)
    ensures Abs(RoundPrice(price, tick) - price) == Abs(r - price) ==> Abs(r) <= Abs(RoundPrice(price, tick))
  {
    var x := price / tick;
    var n := HalfUp(x);
    var m: int :| r == Steps(m, tick);
    assert RoundPrice(price, tick) == Steps(n, tick);
    HalfUpIsNearest(x, m);
    NearestTick(price, x, tick, n, m);
    if Abs(Steps(n, tick) - price) == Abs(Steps(m, tick) - price) {
      TickTies(price, x, tick, n, m);
      HalfUpBreaksTies(x, m);
      StepsSize(n, m, tick);
    }
  }

  /** y is the point of the tick grid that x goes to. */
  ghost predicate IsTickOf(y: real, x: real, tick: real) {
    if tick <= 0.0 then y == x
    else
      && OnStep(y, tick)
      && forall r: real :: OnStep(r, tick) ==>
           Abs(y - x) <= Abs(r - x) && (Abs(y - x) == Abs(r - x) ==> Abs(r) <= Abs(y))
  }

  lemma RoundPriceIsTick(price: real, tick: real)
    ensures IsTickOf(RoundPrice(price, tick), price, tick)
  {
    if tick > 0.0 {
      forall r: real | OnStep(r, tick)
        ensures OnStep(RoundPrice(price, tick), tick)
        ensures Abs(RoundPrice(price, tick) - price) <= Abs(r - price)
        ensures Abs(RoundPrice(price, tick) - price) == Abs(r - price) ==> Abs(r) <= Abs(RoundPrice(price, tick))
      {
        PriceIsNearestTick(price, tick, r);
      }
      assert Steps(0, tick) == 0.0;
      PriceIsNearestTick(price, tick, Steps(0, tick));
    }
  }

  /** What enforcing precision does to an order: without filters nothing; with them the quantity goes
      down to the step grid, toward zero, the order passes if what is left is positive and not below a
      minimum quantity, and a given price of an order that passes goes to the tick grid where the order
      is of a priced kind. */
  lemma PrecisionMeans(f: Filters, qty: real, price: Option<real>, kind: OrderType)
    ensures var p := EnforceOrderPrecision(f, qty, price, kind);
            if !f.found then p == Precision(true, qty, price)
            else
              && (if qty >= 0.0 then IsFloor(p.qty, qty, f.stepSize) else IsFloor(-p.qty, -qty, f.stepSize))
              && (p.ok <==> p.qty > 0.0 && (f.minQty == 0.0 || p.qty >= f.minQty))
              && if p.ok && kind !in {MARKET, OTHER_TYPE} && price.Some? && price.value != 0.0 then
                   p.price.Some? && IsTickOf(p.price.value, price.value, f.tickSize)
                 else p.price == price
  {
    if qty >= 0.0 {
      FloorMeaning(qty, f.stepSize);
    } else {
      FloorMeaning(-qty, f.stepSize);
      NegativeFloor(qty, f.stepSize);
      FloorIsOdd(qty, f.stepSize);
    }
    if price.Some? {
      RoundPriceIsTick(price.value, f.tickSize);
    }
  }

  /** What the final checks make of a quantity: refused at zero where it is not positive; refused as it
      is where a positive minimum notional is not met; otherwise passed. */
  lemma FinalChecks(qty: real, price: real, minNotional: real)
    ensures var plan := Checked(qty, price, minNotional);
            if qty <= 0.0 then plan == OrderPlan(false, 0.0, 0.0, ZERO_QUANTITY)
            else
              && plan.qty == qty && plan.notional == price * qty
              && (plan.ok <==> minNotional <= 0.0 || price * qty >= minNotional)
              && plan.reason == if plan.ok then OK else BELOW_NOTIONAL
  {
  }

  /** An unknown or suspended symbol, or a price or a target that is not positive, yields no order, in
      this order of reasons, and no amount. */
  lemma PlanRefuses(f: Filters, price: real, target: real)
    ensures !f.found ==> PlanOrderQuantity(f, price, target) == OrderPlan(false, 0.0, 0.0, NOT_FOUND)
    ensures f.found && !f.trading ==> PlanOrderQuantity(f, price, target) == OrderPlan(false, 0.0, 0.0, NOT_TRADING)
    ensures f.found && f.trading && (price <= 0.0 || target <= 0.0) ==>
              PlanOrderQuantity(f, price, target) == OrderPlan(false, 0.0, 0.0, NOT_POSITIVE)
  {
  }
}
