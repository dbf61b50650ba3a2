/** The forward exit scan of the backtester (app/backtesting/historical.py, _simulate_exit). */
module ExitScan {
  import opened Common
  import opened MarketBars

  const MAX_HOLD: nat := 200

  datatype Levels = Levels(tp1: real, tp2: real, tp3: real, stopLoss: real, riskReward: real)

  datatype Status = OPEN | TP1 | TP2 | TP3 | SL | EXPIRED

  datatype Exit = Exit(index: nat, status: Status, price: real)

  /** The level one candle reaches, the stop first. */
  function Touch(side: Side, lv: Levels, bar: Bar): Option<(Status, real)> {
    if side == LONG then
      if bar.low <= lv.stopLoss then Some((SL, lv.stopLoss))
      else if bar.high >= lv.tp3 then Some((TP3, lv.tp3))
      else if bar.high >= lv.tp2 then Some((TP2, lv.tp2))
      else if bar.high >= lv.tp1 then Some((TP1, lv.tp1))
      else None
    else
      if bar.high >= lv.stopLoss then Some((SL, lv.stopLoss))
      else if bar.low <= lv.tp3 then Some((TP3, lv.tp3))
      else if bar.low <= lv.tp2 then Some((TP2, lv.tp2))
      else if bar.low <= lv.tp1 then Some((TP1, lv.tp1))
      else None
  }

  function ScanEnd(start: nat, n: nat): nat {
    if start + MAX_HOLD < n then start + MAX_HOLD else n
  }

  function FirstTouch(side: Side, lv: Levels, bars: seq<Bar>, j: nat, end: nat): (r: nat)
    requires j <= end <= |bars|
    ensures j <= r <= end
    ensures forall m :: j <= m < r ==> Touch(side, lv, bars[m]).None?
    ensures r < end ==> Touch(side, lv, bars[r]).Some?
    decreases end - j
  {
    if j == end || Touch(side, lv, bars[j]).Some? then j
    else FirstTouch(side, lv, bars, j + 1, end)
  }

  function ExitOf(start: nat, side: Side, lv: Levels, bars: seq<Bar>): Exit
    requires 0 < |bars| && start <= |bars|
  {
    var end := ScanEnd(start, |bars|);
    var j := FirstTouch(side, lv, bars, start, end);
    if j < end then
      var (status, price) := Touch(side, lv, bars[j]).value;
      Exit(j, status, price)
    else
      var last := if end < |bars| then end else |bars| - 1;
      Exit(last, EXPIRED, bars[last].close)
  }

  /** The scan loop. */
  method SimulateExit(start: nat, side: Side, lv: Levels, bars: seq<Bar>) returns (exit: Exit)
    requires 0 < |bars| && start <= |bars|
    ensures exit == ExitOf(start, side, lv, bars)
  {
    var end := ScanEnd(start, |bars|);
    for j := start to end
      invariant FirstTouch(side, lv, bars, start, end) == FirstTouch(side, lv, bars, j, end)
    {
      var h, lo := bars[j].high, bars[j].low;
      if side == LONG {
        if lo <= lv.stopLoss { return Exit(j, SL, lv.stopLoss); }
        if h >= lv.tp3 { return Exit(j, TP3, lv.tp3); }
        if h >= lv.tp2 { return Exit(j, TP2, lv.tp2); }
        if h >= lv.tp1 { return Exit(j, TP1, lv.tp1); }
      } else {
        if h >= lv.stopLoss { return Exit(j, SL, lv.stopLoss); }
        if lo <= lv.tp3 { return Exit(j, TP3, lv.tp3); }
        if lo <= lv.tp2 { return Exit(j, TP2, lv.tp2); }
        if lo <= lv.tp1 { return Exit(j, TP1, lv.tp1); }
      }
    }
    var last := if end < |bars| - 1 then end else |bars| - 1;
    return Exit(last, EXPIRED, bars[last].close);
  }

  // ---- independent reading of the scan ----

  /** Targets lie beyond one another in the trade's favour. */
  predicate Ordered(side: Side, lv: Levels) {
    if side == LONG then lv.tp1 <= lv.tp2 <= lv.tp3 else lv.tp1 >= lv.tp2 >= lv.tp3
  }

  predicate Stopped(side: Side, lv: Levels, bar: Bar) {
    if side == LONG then bar.low <= lv.stopLoss else bar.high >= lv.stopLoss
  }

  predicate Reaches(side: Side, target: real, bar: Bar) {
    if side == LONG then bar.high >= target else bar.low <= target
  }

  /** The stop or some target. */
  predicate Reached(side: Side, lv: Levels, bar: Bar) {
    Stopped(side, lv, bar) || Reaches(side, lv.tp1, bar) || Reaches(side, lv.tp2, bar) || Reaches(side, lv.tp3, bar)
  }

  /** What the documentation promises of an exit, without mentioning the scan: within the next 200
      candles the first that reaches anything, the stop before any target and a higher target
      before a lower; otherwise expiry at the close of the candle after them. */
  ghost predicate IsExit(start: nat, side: Side, lv: Levels, bars: seq<Bar>, e: Exit)
    requires 0 < |bars| && start <= |bars|
  {
    if e.status == EXPIRED then
      && (forall m :: start <= m < start + 200 && m < |bars| ==> !Reached(side, lv, bars[m]))
      && e.index == (if start + 200 < |bars| then start + 200 else |bars| - 1)
      && e.price == bars[e.index].close
    else
      && start <= e.index < start + 200 && e.index < |bars|
      && (forall m :: start <= m < e.index ==> !Reached(side, lv, bars[m]))
      && (e.status == SL <==> Stopped(side, lv, bars[e.index]))
      && match e.status
         case SL => e.price == lv.stopLoss
         case TP3 => e.price == lv.tp3 && Reaches(side, lv.tp3, bars[e.index])
         case TP2 => e.price == lv.tp2 && Reaches(side, lv.tp2, bars[e.index])
                     && !Reaches(side, lv.tp3, bars[e.index])
         case TP1 => e.price == lv.tp1 && Reaches(side, lv.tp1, bars[e.index])
                     && !Reaches(side, lv.tp2, bars[e.index]) && !Reaches(side, lv.tp3, bars[e.index])
         case _ => false
  }

  /** The scan's exit is the one and only exit so described, for any levels whatever. */
  lemma ExitIsTheScans(start: nat, side: Side, lv: Levels, bars: seq<Bar>, e: Exit)
    requires 0 < |bars| && start <= |bars|
    ensures IsExit(start, side, lv, bars, e) <==> e == ExitOf(start, side, lv, bars)
  {
    var end := ScanEnd(start, |bars|);
    var j := FirstTouch(side, lv, bars, start, end);
    forall m | start <= m < end
      ensures Touch(side, lv, bars[m]).Some? <==> Reached(side, lv, bars[m])
    {
    }
    if IsExit(start, side, lv, bars, e) && e.status != EXPIRED {
      assert Touch(side, lv, bars[e.index]).Some?;
      assert e.index == j;
    }
  }

  /** For ordered levels that is the least candle touching the stop or TP1, the stop winning a
      tie, otherwise the highest target reached, otherwise expiry. */
  lemma ExitCharacterised(start: nat, side: Side, lv: Levels, bars: seq<Bar>)
    requires 0 < |bars| && start <= |bars| && Ordered(side, lv)
    ensures var e := ExitOf(start, side, lv, bars);
            && (forall m :: start <= m < e.index ==> !Stopped(side, lv, bars[m]) && !Reaches(side, lv.tp1, bars[m]))
            && (e.status == EXPIRED
                <==> forall m :: start <= m < start + 200 && m < |bars| ==>
                       !Stopped(side, lv, bars[m]) && !Reaches(side, lv.tp1, bars[m]))
            && (e.status == SL ==> Stopped(side, lv, bars[e.index]))
            && (e.status in {TP1, TP2, TP3} ==>
                  Reaches(side, lv.tp1, bars[e.index]) && !Stopped(side, lv, bars[e.index])
                  && (e.status == TP3 <==> Reaches(side, lv.tp3, bars[e.index]))
                  && (e.status == TP1 <==> !Reaches(side, lv.tp2, bars[e.index])))
  {
    ExitIsTheScans(start, side, lv, bars, ExitOf(start, side, lv, bars));
  }

  lemma ExitRange(start: nat, side: Side, lv: Levels, bars: seq<Bar>)
    requires 0 < start <= |bars|
    ensures var e := ExitOf(start, side, lv, bars);
            start - 1 <= e.index < |bars| && e.index - (start - 1) <= 201
            && e.status != OPEN
  {
  }

  function MirrorBar(b: Bar): Bar {
    b.(open := -b.open, high := -b.low, low := -b.high, close := -b.close)
  }

  function MirrorBars(bars: seq<Bar>): (r: seq<Bar>)
    ensures |r| == |bars| && forall i :: 0 <= i < |bars| ==> r[i] == MirrorBar(bars[i])
  {
    seq(|bars|, i requires 0 <= i < |bars| => MirrorBar(bars[i]))
  }

  function MirrorLevels(lv: Levels): Levels {
    lv.(tp1 := -lv.tp1, tp2 := -lv.tp2, tp3 := -lv.tp3, stopLoss := -lv.stopLoss)
  }

  lemma {:induction false} ShortTouchesMirrored(j: nat, end: nat, lv: Levels, bars: seq<Bar>)
    requires j <= end <= |bars|
    ensures FirstTouch(LONG, MirrorLevels(lv), MirrorBars(bars), j, end) == FirstTouch(SHORT, lv, bars, j, end)
    decreases end - j
  {
  }

  /** A SHORT scan is a LONG scan of the price-negated chart. */
  lemma ShortIsMirroredLong(start: nat, lv: Levels, bars: seq<Bar>)
    requires 0 < |bars| && start <= |bars|
    ensures var short := ExitOf(start, SHORT, lv, bars);
            ExitOf(start, LONG, MirrorLevels(lv), MirrorBars(bars)) == short.(price := -short.price)
  {
    ShortTouchesMirrored(start, ScanEnd(start, |bars|), lv, bars);
  }
}
