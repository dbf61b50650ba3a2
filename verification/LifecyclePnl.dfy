/** Blended realized profit of a finished trade (app/analytics/lifecycle_pnl.py), and its
    agreement with the win-rate classification. */
module LifecyclePnl {
  import opened Common
  import T = TradeOutcome

  function PricePct(side: Side, entry: real, price: real): real {
    if entry <= 0.0 then 0.0
    else if side == LONG then (price - entry) / entry * 100.0
    else (entry - price) / entry * 100.0
  }

  datatype Signal = Signal(side: Side, entry: real, tp1: real, tp2: real, tp3: real, stopLoss: real)

  datatype Plan = Plan(tp1Frac: real, tp2Frac: real, stopToBreakEven: bool)

  datatype Final = TP3 | SL | NON_TERMINAL

  function Frac1(p: Plan): real { Max(0.0, Min(1.0, p.tp1Frac)) }
  function Frac2(p: Plan): real { Max(0.0, Min(1.0 - Frac1(p), p.tp2Frac)) }
  function Remainder(p: Plan): real { Max(0.0, 1.0 - Frac1(p) - Frac2(p)) }

  /** Percentage moves from the entry to the four exit prices. */
  datatype Returns = Returns(tp1: real, tp2: real, tp3: real, stop: real)

  function ReturnsOf(s: Signal): Returns {
    Returns(PricePct(s.side, s.entry, s.tp1), PricePct(s.side, s.entry, s.tp2),
            PricePct(s.side, s.entry, s.tp3), PricePct(s.side, s.entry, s.stopLoss))
  }

  /** blended_realized_pnl before the final rounding. */
  function Blend(r: Returns, p: Plan, maxTp: int, final: Final): real {
    var f1, f2 := Frac1(p), Frac2(p);
    var booked := (if maxTp >= 1 then f1 * r.tp1 else 0.0) + (if maxTp >= 2 then f2 * r.tp2 else 0.0);
    if final == TP3 || maxTp >= 3 then booked + Remainder(p) * r.tp3
    else if final == SL then
      var open := Max(0.0, 1.0 - (if maxTp >= 1 then f1 else 0.0) - (if maxTp >= 2 then f2 else 0.0));
      booked + open * (if maxTp >= 1 && p.stopToBreakEven then 0.0 else r.stop)
    else booked
  }

  function BlendedRealizedPnl(s: Signal, p: Plan, maxTp: int, final: Final): real {
    Round(Blend(ReturnsOf(s), p, maxTp, final), MILLI)
  }

  // ---- what is booked, told from prices and settings ----

  /** f1 of the position leaves at TP1 and f2 at TP2: the settings, cut to what is there. */
  ghost predicate Splits(p: Plan, f1: real, f2: real) {
    && (p.tp1Frac <= 0.0 ==> f1 == 0.0) && (0.0 <= p.tp1Frac <= 1.0 ==> f1 == p.tp1Frac)
    && (p.tp1Frac >= 1.0 ==> f1 == 1.0)
    && (p.tp2Frac <= 0.0 ==> f2 == 0.0) && (0.0 <= p.tp2Frac <= 1.0 - f1 ==> f2 == p.tp2Frac)
    && (p.tp2Frac >= 1.0 - f1 ==> f2 == 1.0 - f1)
  }

  /** Percent gained from the entry to a price. */
  ghost function Gained(s: Signal, price: real): real
    requires s.entry != 0.0
  {
    (if s.side == LONG then price - s.entry else s.entry - price) / s.entry * 100.0
  }

  /** y is what a run that reached `rank` and then stopped, or TP3, makes of the gains at the targets
      and the stop: the shares f1 and f2 at their targets if reached, the rest at TP3, at the entry
      under break-even, or at the stop. */
  ghost predicate IsShared(p: Plan, rank: int, g: Returns, f1: real, f2: real, y: real) {
    var stop := if p.stopToBreakEven then 0.0 else g.stop;
    && Splits(p, f1, f2)
    && y == (if rank == 0 then g.stop
             else if rank == 1 then f1 * g.tp1 + (1.0 - f1) * stop
             else if rank == 2 then f1 * g.tp1 + f2 * g.tp2 + (1.0 - f1 - f2) * stop
             else f1 * g.tp1 + f2 * g.tp2 + (1.0 - f1 - f2) * g.tp3)
  }

  ghost predicate IsBlend(s: Signal, p: Plan, rank: int, x: real)
    requires s.entry > 0.0
  {
    var gains := Returns(Gained(s, s.tp1), Gained(s, s.tp2), Gained(s, s.tp3), Gained(s, s.stopLoss));
    exists f1, f2, y :: IsShared(p, rank, gains, f1, f2, y) && IsRounded(x, y, 1000.0)
  }

  /** A finished run: it ended at TP3 having reached rank 3, or at the stop. */
  predicate Finished(maxTp: int, final: Final) {
    0 <= maxTp <= 3 && (final == SL || (final == TP3 && maxTp == 3))
  }

  // ---- the position is booked exactly once ----

  /** Shares of the position leaving at each of the five possible exits. */
  datatype Booking = Booking(tp1: real, tp2: real, tp3: real, breakEven: real, stop: real)

  ghost predicate Convex(b: Booking) {
    && b.tp1 >= 0.0 && b.tp2 >= 0.0 && b.tp3 >= 0.0 && b.breakEven >= 0.0 && b.stop >= 0.0
    && b.tp1 + b.tp2 + b.tp3 + b.breakEven + b.stop == 1.0
  }

  ghost function Combine(r: Returns, b: Booking): real {
    b.tp1 * r.tp1 + b.tp2 * r.tp2 + b.tp3 * r.tp3 + b.stop * r.stop
  }

  function BookingOf(p: Plan, maxTp: int, final: Final): Booking
    requires Finished(maxTp, final)
  {
    var f1, f2 := Frac1(p), Frac2(p);
    if maxTp == 3 then Booking(f1, f2, 1.0 - f1 - f2, 0.0, 0.0)
    else
      var b1, b2 := (if maxTp >= 1 then f1 else 0.0), (if maxTp >= 2 then f2 else 0.0);
      if maxTp >= 1 && p.stopToBreakEven then Booking(b1, b2, 0.0, 1.0 - b1 - b2, 0.0)
      else Booking(b1, b2, 0.0, 0.0, 1.0 - b1 - b2)
  }

  lemma FractionsFit(p: Plan)
    ensures Frac1(p) >= 0.0 && Frac2(p) >= 0.0 && Frac1(p) + Frac2(p) <= 1.0
    ensures Remainder(p) == 1.0 - Frac1(p) - Frac2(p)
  {
  }

  /** Every finished run's profit is a convex combination of the returns of its legs. */
  lemma BlendIsConvex(r: Returns, p: Plan, maxTp: int, final: Final)
    requires Finished(maxTp, final)
    ensures Convex(BookingOf(p, maxTp, final))
    ensures Blend(r, p, maxTp, final) == Combine(r, BookingOf(p, maxTp, final))
  {
    FractionsFit(p);
  }

  /** What the position books when every leg returns one: the share of it that is booked at all. */
  function BookedShare(p: Plan, maxTp: int, final: Final): real {
    Blend(Returns(1.0, 1.0, 1.0, 1.0), p, maxTp, final)
  }

  /** A TP3 claimed with a lower max_tp_hit loses the legs below it: the profit falls short of
      that of a full TP3 by exactly their contribution, and the whole position is booked only
      if they carry no share. */
  lemma UnderReportedTp3LosesShares(r: Returns, p: Plan, maxTp: int)
    requires 0 <= maxTp < 3
    ensures Blend(r, p, maxTp, TP3)
            == Blend(r, p, 3, TP3) - (if maxTp < 1 then Frac1(p) * r.tp1 else 0.0)
                                   - (if maxTp < 2 then Frac2(p) * r.tp2 else 0.0)
    ensures BookedShare(p, 3, TP3) == 1.0
    ensures BookedShare(p, maxTp, TP3) == 1.0 <==> (maxTp < 1 ==> Frac1(p) == 0.0) && (maxTp < 2 ==> Frac2(p) == 0.0)
  {
    FractionsFit(p);
  }

  // ---- well-formed ladders ----

  /** Stop, entry and targets in the order a valid signal has them. */
  predicate Ladder(s: Signal) {
    && s.entry > 0.0
    && if s.side == LONG then s.stopLoss <= s.entry <= s.tp1 <= s.tp2 <= s.tp3
       else s.stopLoss >= s.entry >= s.tp1 >= s.tp2 >= s.tp3
  }

  lemma PctMonotone(side: Side, entry: real, a: real, b: real)
    requires entry > 0.0 && if side == LONG then a <= b else a >= b
    ensures PricePct(side, entry, a) <= PricePct(side, entry, b)
    ensures PricePct(side, entry, entry) == 0.0
  {
    var inv := 100.0 / entry;
    assert inv > 0.0;
    DivMonotone(if side == LONG then a - entry else entry - a, if side == LONG then b - entry else entry - b, entry);
  }

  ghost predicate Ranked(r: Returns) {
    r.stop <= 0.0 <= r.tp1 <= r.tp2 <= r.tp3
  }

  lemma LadderReturns(s: Signal)
    requires Ladder(s)
    ensures Ranked(ReturnsOf(s))
  {
    PctMonotone(s.side, s.entry, s.stopLoss, s.entry);
    PctMonotone(s.side, s.entry, s.entry, s.tp1);
    PctMonotone(s.side, s.entry, s.tp1, s.tp2);
    PctMonotone(s.side, s.entry, s.tp2, s.tp3);
  }

  lemma Weigh(w: real, a: real, b: real)
    requires w >= 0.0 && a <= b
    ensures w * a <= w * b
  {
  }

  /** The blend of one position in shares f1, f2, rest, by the rank reached; `stop` is the
      return of a stop after TP1. */
  ghost function ByRank(f1: real, f2: real, rest: real, r: Returns, stop: real, rank: nat): real {
    if rank == 0 then r.stop
    else if rank == 1 then f1 * r.tp1 + (f2 + rest) * stop
    else if rank == 2 then f1 * r.tp1 + f2 * r.tp2 + rest * stop
    else f1 * r.tp1 + f2 * r.tp2 + rest * r.tp3
  }

  ghost function StopReturn(r: Returns, p: Plan): real {
    if p.stopToBreakEven then 0.0 else r.stop
  }

  lemma BlendByRank(r: Returns, p: Plan, maxTp: nat, final: Final)
    requires Finished(maxTp, final)
    ensures Blend(r, p, maxTp, final)
            == ByRank(Frac1(p), Frac2(p), Remainder(p), r, StopReturn(r, p), maxTp)
  {
    FractionsFit(p);
  }

  lemma FractionsSplit(p: Plan)
    ensures Splits(p, Frac1(p), Frac2(p))
  {
  }

  lemma ByRankIsShared(p: Plan, rank: int, r: Returns, f1: real, f2: real, rest: real)
    requires Splits(p, f1, f2) && rest == 1.0 - f1 - f2 && 0 <= rank <= 3
    ensures IsShared(p, rank, r, f1, f2, ByRank(f1, f2, rest, r, StopReturn(r, p), rank))
  {
    assert f2 + rest == 1.0 - f1;
  }

  lemma BlendIsShared(r: Returns, p: Plan, maxTp: int, final: Final)
    requires Finished(maxTp, final)
    ensures IsShared(p, maxTp, r, Frac1(p), Frac2(p), Blend(r, p, maxTp, final))
  {
    FractionsFit(p);
    FractionsSplit(p);
    BlendByRank(r, p, maxTp, final);
    ByRankIsShared(p, maxTp, r, Frac1(p), Frac2(p), Remainder(p));
  }

  lemma ReturnsAreGained(s: Signal)
    requires s.entry > 0.0
    ensures ReturnsOf(s) == Returns(Gained(s, s.tp1), Gained(s, s.tp2), Gained(s, s.tp3), Gained(s, s.stopLoss))
  {
  }

  /** Without a positive entry price nothing is gained or lost. */
  lemma NoEntryNoGain(s: Signal, p: Plan, maxTp: int, final: Final)
    requires s.entry <= 0.0
    ensures BlendedRealizedPnl(s, p, maxTp, final) == 0.0
  {
    assert ReturnsOf(s) == Returns(0.0, 0.0, 0.0, 0.0);
    assert Blend(ReturnsOf(s), p, maxTp, final) == 0.0;
    RoundMilli(0.0);
  }

  lemma BlendedIs(s: Signal, p: Plan, maxTp: int, final: Final)
    requires s.entry > 0.0 && Finished(maxTp, final)
    ensures IsBlend(s, p, maxTp, BlendedRealizedPnl(s, p, maxTp, final))
  {
    var r := ReturnsOf(s);
    var y := Blend(r, p, maxTp, final);
    ReturnsAreGained(s);
    BlendIsShared(r, p, maxTp, final);
    RoundIs(y, 1000.0);
    assert IsShared(p, maxTp, r, Frac1(p), Frac2(p), y) && IsRounded(Round(y, MILLI), y, 1000.0);
  }

  /** Moving share w from the stop to a target above it. */
  lemma BetterThanStop(w: real, rest: real, target: real, stop: real)
    requires w >= 0.0 && stop <= target
    ensures (w + rest) * stop <= w * target + rest * stop
  {
    Weigh(w, stop, target);
    assert (w + rest) * stop == w * stop + rest * stop;
  }

  lemma WholePosition(w: real, stop: real)
    requires w == 1.0
    ensures w * stop == stop
  {
  }

  lemma FirstTargetHelps(f1: real, open: real, target: real, stop: real)
    requires f1 >= 0.0 && stop <= target && f1 + open == 1.0
    ensures stop <= f1 * target + open * stop
  {
    BetterThanStop(f1, open, target, stop);
    WholePosition(f1 + open, stop);
  }

  /** Each further target replaces some of the stop by something better. */
  lemma RankClimbs(f1: real, f2: real, rest: real, r: Returns, stop: real, rank: nat)
    requires f1 >= 0.0 && f2 >= 0.0 && rest >= 0.0
    requires stop <= f1 * r.tp1 + (f2 + rest) * stop
    requires Ranked(r) && r.stop <= stop <= 0.0 && rank < 3
    ensures ByRank(f1, f2, rest, r, stop, rank) <= ByRank(f1, f2, rest, r, stop, rank + 1)
  {
    if rank == 1 {
      BetterThanStop(f2, rest, r.tp2, stop);
    } else if rank == 2 {
      Weigh(rest, stop, r.tp3);
    }
  }

  lemma PlanRankClimbs(r: Returns, p: Plan, rank: nat)
    requires Ranked(r) && rank < 3
    ensures ByRank(Frac1(p), Frac2(p), Remainder(p), r, StopReturn(r, p), rank)
            <= ByRank(Frac1(p), Frac2(p), Remainder(p), r, StopReturn(r, p), rank + 1)
  {
    FractionsFit(p);
    FirstTargetHelps(Frac1(p), Frac2(p) + Remainder(p), r.tp1, StopReturn(r, p));
    RankClimbs(Frac1(p), Frac2(p), Remainder(p), r, StopReturn(r, p), rank);
  }

  /** Reaching one more target never hurts: the share leaving there earns at least what it
      would have earned at the stop or at break-even. */
  lemma OneMoreTargetHelps(r: Returns, p: Plan, maxTp: nat, final: Final)
    requires Ranked(r) && maxTp < 3 && Finished(maxTp + 1, final)
    ensures Blend(r, p, maxTp, SL) <= Blend(r, p, maxTp + 1, final)
  {
    BlendByRank(r, p, maxTp, SL);
    BlendByRank(r, p, maxTp + 1, final);
    PlanRankClimbs(r, p, maxTp);
  }

  /** Realized profit is non-decreasing in the highest target reached, break-even or not. */
  lemma {:induction false} PnlMonotone(s: Signal, p: Plan, lo: nat, hi: nat, final: Final)
    requires Ladder(s) && lo < hi <= 3 && Finished(hi, final)
    ensures BlendedRealizedPnl(s, p, lo, SL) <= BlendedRealizedPnl(s, p, hi, final)
    decreases hi
  {
    LadderReturns(s);
    OneMoreTargetHelps(ReturnsOf(s), p, hi - 1, final);
    RoundMonotone(Blend(ReturnsOf(s), p, hi - 1, SL), Blend(ReturnsOf(s), p, hi, final), MILLI);
    if lo < hi - 1 {
      PnlMonotone(s, p, lo, hi - 1, SL);
    }
  }

  lemma Gain(w: real, x: real)
    requires w >= 0.0 && x >= 0.0
    ensures w * x >= 0.0
  {
  }

  lemma PartOfStop(share: real, stop: real)
    requires 0.0 <= share <= 1.0 && stop <= 0.0
    ensures share * stop >= stop
  {
    Gain(1.0 - share, -stop);
  }

  lemma CombineAbove(r: Returns, b: Booking)
    requires Convex(b) && Ranked(r)
    ensures Combine(r, b) >= b.stop * r.stop >= r.stop
  {
    Gain(b.tp1, r.tp1);
    Gain(b.tp2, r.tp2);
    Gain(b.tp3, r.tp3);
    PartOfStop(b.stop, r.stop);
  }

  lemma SharesBelow(b1: real, b2: real, b3: real, r1: real, r2: real, r3: real)
    requires b1 >= 0.0 && b2 >= 0.0 && b3 >= 0.0 && b1 + b2 + b3 <= 1.0
    requires 0.0 <= r1 <= r2 <= r3
    ensures b1 * r1 + b2 * r2 + b3 * r3 <= r3
  {
    Weigh(b1, r1, r3);
    Weigh(b2, r2, r3);
    Weigh(r3, b1 + b2 + b3, 1.0);
    assert b1 * r3 + b2 * r3 + b3 * r3 == r3 * (b1 + b2 + b3);
  }

  lemma CombineBelow(r: Returns, b: Booking)
    requires Convex(b) && Ranked(r)
    ensures Combine(r, b) <= r.tp3
  {
    SharesBelow(b.tp1, b.tp2, b.tp3, r.tp1, r.tp2, r.tp3);
    Gain(b.stop, -r.stop);
  }

  /** No run earns more than the furthest target or loses more than the full stop. */
  lemma PnlBounded(s: Signal, p: Plan, maxTp: int, final: Final)
    requires Ladder(s) && Finished(maxTp, final)
    ensures Round(ReturnsOf(s).stop, MILLI) <= BlendedRealizedPnl(s, p, maxTp, final) <= Round(ReturnsOf(s).tp3, MILLI)
  {
    var r, b := ReturnsOf(s), BookingOf(p, maxTp, final);
    LadderReturns(s);
    BlendIsConvex(r, p, maxTp, final);
    CombineBelow(r, b);
    CombineAbove(r, b);
    RoundMonotone(r.stop, Combine(r, b), MILLI);
    RoundMonotone(Combine(r, b), r.tp3, MILLI);
  }

  // ---- profit and win-rate agree ----

  function FinalOf(t: T.Tag): Final {
    if t == T.TP3 then TP3 else if t == T.SL then SL else NON_TERMINAL
  }

  /** The profit the tracker books for a run of exit events. */
  function RunPnl(s: Signal, p: Plan, es: seq<T.Exit>): real
    requires es != []
  {
    BlendedRealizedPnl(s, p, T.MaxRank(es), FinalOf(es[|es| - 1].tag))
  }

  /** A run that ended at TP3 or at the stop. */
  ghost predicate Ended(es: seq<T.Exit>) {
    T.Lifecycle(es) && es[|es| - 1].tag in {T.TP3, T.SL}
  }

  lemma EndedIsFinished(es: seq<T.Exit>)
    requires Ended(es)
    ensures Finished(T.MaxRank(es), FinalOf(es[|es| - 1].tag))
  {
    T.MaxRankIsMax(es);
  }

  /** Settings under which nothing of the position can meet the full stop once TP1 is reached. */
  predicate Protected(p: Plan) {
    p.stopToBreakEven || p.tp1Frac >= 1.0
  }

  lemma WinPnl(s: Signal, p: Plan, maxTp: int, final: Final)
    requires Ladder(s) && Finished(maxTp, final) && maxTp >= 1 && Protected(p)
    ensures BlendedRealizedPnl(s, p, maxTp, final) >= 0.0
  {
    var r, b := ReturnsOf(s), BookingOf(p, maxTp, final);
    LadderReturns(s);
    BlendIsConvex(r, p, maxTp, final);
    CombineAbove(r, b);
    assert b.stop == 0.0;
    RoundMonotone(0.0, Blend(r, p, maxTp, final), MILLI);
    RoundMilli(0.0);
  }

  lemma LossPnl(s: Signal, p: Plan)
    requires Ladder(s)
    ensures BlendedRealizedPnl(s, p, 0, SL) == Round(ReturnsOf(s).stop, MILLI) <= 0.0
  {
    LadderReturns(s);
    var r := ReturnsOf(s);
    assert Blend(r, p, 0, SL) == r.stop;
    RoundMonotone(r.stop, 0.0, MILLI);
    RoundMilli(0.0);
  }

  /** Profit and win-rate tell one story of a run: a stored win is not booked as a loss, and a
      stored loss is booked at exactly the full stop. */
  ghost predicate Agree(s: Signal, p: Plan, es: seq<T.Exit>, other: map<string, string>)
    requires es != []
  {
    var stored := T.StoredBucket(T.Fold(T.Diagnostics(None, other), es));
    && (stored == Some(T.WinBucket) ==> RunPnl(s, p, es) >= 0.0)
    && (stored == Some(T.LossBucket) ==> RunPnl(s, p, es) == Round(ReturnsOf(s).stop, MILLI) <= 0.0)
  }

  /** No finished run is anything but a win or a loss. */
  lemma EndedBucket(es: seq<T.Exit>, other: map<string, string>)
    requires Ended(es)
    ensures T.StoredBucket(T.Fold(T.Diagnostics(None, other), es))
            == Some(if T.MaxRank(es) >= 1 then T.WinBucket else T.LossBucket)
  {
    T.StoredVerdict(es, other);
    EndedIsFinished(es);
  }

  /** The repair this module exists for: under protecting settings, in particular with the
      stop moved to break-even after TP1, profit and win-rate agree on every finished run. */
  lemma PnlAgreesWithWinRate(s: Signal, p: Plan, es: seq<T.Exit>, other: map<string, string>)
    requires Ladder(s) && Ended(es) && Protected(p)
    ensures Agree(s, p, es, other)
  {
    EndedBucket(es, other);
    EndedIsFinished(es);
    if T.MaxRank(es) >= 1 {
      WinPnl(s, p, T.MaxRank(es), FinalOf(es[|es| - 1].tag));
    } else {
      LossPnl(s, p);
    }
  }

  /** Strictly ordered positive prices, as a published signal has them. */
  predicate Proper(s: Signal) {
    if s.side == LONG then 0.0 < s.stopLoss < s.entry < s.tp1 < s.tp2 < s.tp3
    else s.stopLoss > s.entry > s.tp1 > s.tp2 > s.tp3 > 0.0
  }

  /** Profit and win-rate agree on every ladder, every finished run and all other diagnostics. */
  ghost predicate AlwaysAgree(p: Plan) {
    forall s: Signal, es: seq<T.Exit>, other: map<string, string> ::
      Ladder(s) && Ended(es) ==> Agree(s, p, es, other)
  }

  ghost predicate AgreeOnProper(p: Plan) {
    forall s: Signal, es: seq<T.Exit>, other: map<string, string> ::
      Proper(s) && Ended(es) ==> Agree(s, p, es, other)
  }

  /** TP1, then the stop. */
  const TP1_THEN_STOP: seq<T.Exit> := [T.Exit(T.TP1, "t", None), T.Exit(T.SL, "t", None)]

  lemma Tp1ThenStop()
    ensures Ended(TP1_THEN_STOP) && T.MaxRank(TP1_THEN_STOP) == 1
  {
    var es := TP1_THEN_STOP;
    assert es[..1] == [es[0]] && es[..1][..0] == [];
    assert T.MaxRank(es[..1]) == 1;
  }

  /** A ladder with a stop so far away that the open share loses the whole entry price. */
  function FarStop(open: real): Signal
    requires open > 0.0
  {
    Signal(SHORT, 1.0, 0.9, 0.8, 0.7, 1.0 + 1.0 / open)
  }

  lemma FarStopBooksALoss(p: Plan)
    requires !Protected(p)
    ensures 1.0 - Frac1(p) > 0.0 && Proper(FarStop(1.0 - Frac1(p)))
    ensures BlendedRealizedPnl(FarStop(1.0 - Frac1(p)), p, 1, SL) <= -90.0
  {
    var open := 1.0 - Frac1(p);
    var s := FarStop(open);
    assert 1.0 / open > 0.0 && open * (1.0 / open) == 1.0;
    assert ReturnsOf(s).tp1 == 10.0;
    assert ReturnsOf(s).stop == -100.0 * (1.0 / open);
    assert Blend(ReturnsOf(s), p, 1, SL) == Frac1(p) * 10.0 + open * ReturnsOf(s).stop;
    assert open * ReturnsOf(s).stop == -100.0;
    RoundMonotone(Blend(ReturnsOf(s), p, 1, SL), -90.0, MILLI);
    RoundExact(-90.0, MILLI, -90000);
  }

  /** Exactly when the promise holds, on all ladders and on those of published signals alike: when
      the settings move the stop to break-even, or book the whole position at TP1. Under any
      others some win is booked as a loss. */
  lemma AgreementIff(p: Plan)
    ensures AlwaysAgree(p) <==> p.stopToBreakEven || p.tp1Frac >= 1.0
    ensures AgreeOnProper(p) <==> p.stopToBreakEven || p.tp1Frac >= 1.0
  {
    if Protected(p) {
      forall s: Signal, es: seq<T.Exit>, other: map<string, string> | Ladder(s) && Ended(es)
        ensures Agree(s, p, es, other)
      {
        PnlAgreesWithWinRate(s, p, es, other);
      }
    } else {
      Tp1ThenStop();
      FarStopBooksALoss(p);
      EndedBucket(TP1_THEN_STOP, map[]);
      assert !Agree(FarStop(1.0 - Frac1(p)), p, TP1_THEN_STOP, map[]);
    }
  }

  // ---- what a reward-to-risk floor buys ----

  /** TP1 is at least k times as far from the entry as the stop. */
  predicate Rewarding(s: Signal, k: real) {
    ReturnsOf(s).tp1 >= k * -ReturnsOf(s).stop
  }

  /** No run that reached a target books less than nothing, before the final rounding. */
  ghost predicate WinsNeverLose(p: Plan, k: real) {
    forall s: Signal, maxTp: int, final: Final ::
      Proper(s) && Rewarding(s, k) && Finished(maxTp, final) && maxTp >= 1 ==>
        Blend(ReturnsOf(s), p, maxTp, final) >= 0.0
  }

  lemma RewardCovers(f1: real, open: real, k: real, reward: real, risk: real)
    requires f1 >= 0.0 && open == 1.0 - f1 && risk >= 0.0 && k >= 0.0
    requires f1 * (1.0 + k) >= 1.0 && reward >= k * risk
    ensures f1 * reward - open * risk >= 0.0
  {
    Weigh(f1, k * risk, reward);
    Gain(f1 * (1.0 + k) - 1.0, risk);
    assert f1 * (k * risk) - open * risk == (f1 * (1.0 + k) - 1.0) * risk;
  }

  /** The first target with the stop after it is the least a win can book. */
  lemma WinIsAtLeastFirst(r: Returns, p: Plan, maxTp: int, final: Final)
    requires Ranked(r) && Finished(maxTp, final) && maxTp >= 1
    ensures Blend(r, p, 1, SL) <= Blend(r, p, maxTp, final)
  {
    if maxTp >= 2 {
      OneMoreTargetHelps(r, p, 1, SL);
      if maxTp == 2 {
        assert Blend(r, p, 1, SL) <= Blend(r, p, 2, final);
      } else {
        OneMoreTargetHelps(r, p, 2, final);
      }
    }
  }

  lemma FirstThenStop(r: Returns, p: Plan)
    ensures Blend(r, p, 1, SL) == Frac1(p) * r.tp1 + (1.0 - Frac1(p)) * StopReturn(r, p)
  {
    FractionsFit(p);
  }

  lemma FirstThenStopCovered(r: Returns, p: Plan, k: real)
    requires Ranked(r) && k >= 0.0 && r.tp1 >= k * -r.stop
    requires p.stopToBreakEven || Frac1(p) * (1.0 + k) >= 1.0
    ensures Blend(r, p, 1, SL) >= 0.0
  {
    FirstThenStop(r, p);
    FractionsFit(p);
    if p.stopToBreakEven {
      Gain(Frac1(p), r.tp1);
    } else {
      RewardCovers(Frac1(p), 1.0 - Frac1(p), k, r.tp1, -r.stop);
    }
  }

  lemma CoveredWinsNeverLose(s: Signal, p: Plan, k: real, maxTp: int, final: Final)
    requires Proper(s) && Rewarding(s, k) && k >= 0.0 && Finished(maxTp, final) && maxTp >= 1
    requires p.stopToBreakEven || Frac1(p) * (1.0 + k) >= 1.0
    ensures Blend(ReturnsOf(s), p, maxTp, final) >= 0.0
  {
    LadderReturns(s);
    WinIsAtLeastFirst(ReturnsOf(s), p, maxTp, final);
    FirstThenStopCovered(ReturnsOf(s), p, k);
  }

  /** A risk of half the entry, a reward just above k times that. */
  function Thin(k: real, extra: real): Signal {
    Signal(LONG, 1.0, 1.0 + k / 2.0 + extra, 2.0 + k / 2.0 + extra, 3.0 + k / 2.0 + extra, 0.5)
  }

  lemma ThinArithmetic(f1: real, k: real, gap: real)
    requires 0.0 <= f1 <= 1.0 && gap == 1.0 - f1 * (1.0 + k) && gap > 0.0
    ensures f1 * (50.0 * k + 25.0 * gap) + (1.0 - f1) * -50.0 < 0.0
  {
    Weigh(gap, f1, 1.0);
    assert f1 * (50.0 * k + 25.0 * gap) == 50.0 * (f1 * k) + 25.0 * (gap * f1);
  }

  lemma ThinReturns(k: real, extra: real)
    requires k >= 0.0 && extra > 0.0
    ensures Proper(Thin(k, extra)) && ReturnsOf(Thin(k, extra)).stop == -50.0
    ensures ReturnsOf(Thin(k, extra)).tp1 == 50.0 * k + 100.0 * extra
  {
  }

  lemma ThinLoses(p: Plan, k: real)
    requires k >= 0.0 && !p.stopToBreakEven && Frac1(p) * (1.0 + k) < 1.0
    ensures var s := Thin(k, (1.0 - Frac1(p) * (1.0 + k)) / 4.0);
            Proper(s) && Rewarding(s, k) && Blend(ReturnsOf(s), p, 1, SL) < 0.0
  {
    var gap := 1.0 - Frac1(p) * (1.0 + k);
    FractionsFit(p);
    ThinReturns(k, gap / 4.0);
    FirstThenStop(ReturnsOf(Thin(k, gap / 4.0)), p);
    ThinArithmetic(Frac1(p), k, gap);
  }

  /** With a floor k on reward to risk at TP1 the line moves: without break-even, wins never lose
      exactly when TP1 books at least 1 / (1 + k) of the position. */
  lemma WinsNeverLoseIff(p: Plan, k: real)
    requires k >= 0.0
    ensures WinsNeverLose(p, k) <==> p.stopToBreakEven || Frac1(p) * (1.0 + k) >= 1.0
  {
    if p.stopToBreakEven || Frac1(p) * (1.0 + k) >= 1.0 {
      forall s: Signal, maxTp: int, final: Final |
        Proper(s) && Rewarding(s, k) && Finished(maxTp, final) && maxTp >= 1
        ensures Blend(ReturnsOf(s), p, maxTp, final) >= 0.0
      {
        CoveredWinsNeverLose(s, p, k, maxTp, final);
      }
    } else {
      ThinLoses(p, k);
      assert Finished(1, SL);
    }
  }

  /** The default fractions with break-even off: a TP1-then-stop run on a +2 / -2 ladder is a
      win booked at -0.8. */
  lemma WithoutBreakEvenTheyDisagree()
    ensures var s, p := Signal(LONG, 100.0, 102.0, 104.0, 107.0, 98.0), Plan(0.3, 0.3, false);
            Ladder(s) && BlendedRealizedPnl(s, p, 1, SL) == -0.8
            && T.BucketOf(T.Verdict(1, T.SL)) == T.WinBucket
  {
    var s, p := Signal(LONG, 100.0, 102.0, 104.0, 107.0, 98.0), Plan(0.3, 0.3, false);
    assert ReturnsOf(s) == Returns(2.0, 4.0, 7.0, -2.0);
    assert Blend(ReturnsOf(s), p, 1, SL) == -0.8;
    RoundExact(-0.8, MILLI, -800);
  }
}
