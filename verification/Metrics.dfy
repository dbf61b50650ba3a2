/** Aggregation of closed trades: funnel counts, equity curve, drawdown and the monthly
    breakdown (app/backtesting/historical.py, _compute_metrics). */
module Metrics {
  import opened Common
  import opened ExitScan
  import opened Replay

  datatype MonthRow = MonthRow(month: int, signals: nat, wins: nat, losses: nat, totalPnl: real)

  datatype Metrics = Metrics(
    total: nat, wins: nat, losses: nat, expired: nat,
    totalPnl: real, curve: seq<real>, maxDrawdown: real, monthly: seq<MonthRow>)

  predicate IsClosed(t: Trade) { t.exit.status != OPEN }
  predicate IsWin(t: Trade) { t.exit.status in {TP1, TP2, TP3} }
  predicate IsLoss(t: Trade) { t.exit.status == SL }
  predicate IsExpired(t: Trade) { t.exit.status == EXPIRED }

  function InMonth(monthOf: int -> int, month: int): Trade -> bool {
    (t: Trade) => monthOf(t.entry.time) == month
  }

  /** A list comprehension with a filter. */
  function Where(ts: seq<Trade>, p: Trade -> bool): (r: seq<Trade>)
    ensures |r| <= |ts|
  {
    if ts == [] then []
    else
      var rest, last := Where(ts[..|ts| - 1], p), ts[|ts| - 1];
      if p(last) then rest + [last] else rest
  }

  lemma {:induction false} WhereMembers(ts: seq<Trade>, p: Trade -> bool)
    ensures forall t :: t in Where(ts, p) <==> t in ts && p(t)
  {
    if ts != [] {
      WhereMembers(ts[..|ts| - 1], p);
      assert ts == ts[..|ts| - 1] + [ts[|ts| - 1]];
    }
  }

  lemma {:induction false} WhereAll(ts: seq<Trade>, p: Trade -> bool)
    requires forall i :: 0 <= i < |ts| ==> p(ts[i])
    ensures Where(ts, p) == ts
  {
    if ts != [] {
      WhereAll(ts[..|ts| - 1], p);
    }
  }

  function Pnls(ts: seq<Trade>): (r: seq<real>)
    ensures |r| == |ts| && forall i :: 0 <= i < |ts| ==> r[i] == ts[i].pnlPct
  {
    seq(|ts|, i requires 0 <= i < |ts| => ts[i].pnlPct)
  }

  // ---- equity curve and drawdown ----

  function Curve(pnls: seq<real>): (c: seq<real>)
    ensures |c| == |pnls| + 1 && c[0] == 0.0
  {
    if pnls == [] then [0.0]
    else
      var c := Curve(pnls[..|pnls| - 1]);
      c + [Round(c[|c| - 1] + pnls[|pnls| - 1], MILLI)]
  }

  /** The textbook definition: the deepest fall from any point to any later one. */
  ghost predicate IsMaxDrawdown(curve: seq<real>, dd: real) {
    && (exists i, j :: 0 <= i <= j < |curve| && dd == curve[i] - curve[j])
    && (forall i, j :: 0 <= i <= j < |curve| ==> curve[i] - curve[j] <= dd)
  }

  /** The one-pass loop with a running peak. */
  method EquityAndDrawdown(pnls: seq<real>) returns (curve: seq<real>, maxDd: real)
    ensures curve == Curve(pnls)
    ensures IsMaxDrawdown(curve, maxDd)
  {
    var cum, peak := 0.0, 0.0;
    maxDd := 0.0;
    curve := [0.0];
    ghost var top, from, to := 0, 0, 0;
    for k := 0 to |pnls|
      invariant curve == Curve(pnls[..k]) && cum == curve[k]
      invariant 0 <= top <= k && peak == curve[top] && forall i :: 0 <= i <= k ==> curve[i] <= peak
      invariant 0 <= from <= to <= k && maxDd == curve[from] - curve[to]
      invariant forall i, j :: 0 <= i <= j <= k ==> curve[i] - curve[j] <= maxDd
    {
      assert pnls[..k + 1][..k] == pnls[..k];
      cum := Round(cum + pnls[k], MILLI);
      curve := curve + [cum];
      if cum > peak {
        peak, top := cum, k + 1;
      }
      var dd := peak - cum;
      if dd > maxDd {
        maxDd, from, to := dd, top, k + 1;
      }
    }
    assert pnls[..|pnls|] == pnls;
  }

  /** On three-place profits the rounding inside the loop is exact: every point of the
      curve is the plain running total. */
  lemma {:induction false} CurveIsRunningTotal(pnls: seq<real>, j: nat)
    requires j <= |pnls| && forall i :: 0 <= i < |pnls| ==> IsMilli(pnls[i])
    ensures Curve(pnls)[j] == Sum(pnls[..j]) && IsMilli(Curve(pnls)[j])
  {
    if pnls == [] {
    } else {
      var init := pnls[..|pnls| - 1];
      if j < |pnls| {
        CurveIsRunningTotal(init, j);
        assert init[..j] == pnls[..j];
      } else {
        CurveIsRunningTotal(init, j - 1);
        assert init[..j - 1] == init && pnls[..j] == pnls;
        MilliAdd(Sum(init), pnls[j - 1]);
        RoundMilli(Sum(init) + pnls[j - 1]);
      }
    }
  }

  lemma DropOnGrid(c: seq<real>, dd: real)
    requires IsMaxDrawdown(c, dd) && forall i :: 0 <= i < |c| ==> IsMilli(c[i])
    ensures IsMilli(dd)
  {
    var i, j :| 0 <= i <= j < |c| && dd == c[i] - c[j];
    MilliAdd(c[i], c[j]);
  }

  lemma DrawdownOnGrid(pnls: seq<real>, dd: real)
    requires forall i :: 0 <= i < |pnls| ==> IsMilli(pnls[i])
    requires IsMaxDrawdown(Curve(pnls), dd)
    ensures Round(dd, MILLI) == dd
  {
    forall i | 0 <= i <= |pnls|
      ensures IsMilli(Curve(pnls)[i])
    {
      CurveIsRunningTotal(pnls, i);
    }
    DropOnGrid(Curve(pnls), dd);
    RoundMilli(dd);
  }

  // ---- the monthly partition ----

  function RowOf(month: int, g: seq<Trade>): MonthRow {
    MonthRow(month, |g|, |Where(g, IsWin)|, |Where(g, IsLoss)|, Round(Sum(Pnls(g)), MILLI))
  }

  function InsertKey(keys: seq<int>, key: int): seq<int> {
    if keys == [] || key < keys[0] then [key] + keys
    else if key == keys[0] then keys
    else [keys[0]] + InsertKey(keys[1..], key)
  }

  ghost predicate Ascending(keys: seq<int>) {
    forall i, j :: 0 <= i < j < |keys| ==> keys[i] < keys[j]
  }

  lemma {:induction false} InsertKeyMembers(keys: seq<int>, key: int)
    ensures forall k :: k in InsertKey(keys, key) <==> k in keys || k == key
  {
    if keys != [] {
      InsertKeyMembers(keys[1..], key);
      assert keys == [keys[0]] + keys[1..];
    }
  }

  lemma AscendingBehind(first: int, rest: seq<int>)
    requires Ascending(rest) && forall k :: k in rest ==> first < k
    ensures Ascending([first] + rest)
  {
    assert forall i :: 0 <= i < |rest| ==> rest[i] in rest;
  }

  lemma {:induction false} InsertKeyAscending(keys: seq<int>, key: int)
    requires Ascending(keys)
    ensures Ascending(InsertKey(keys, key))
  {
    if keys == [] || key == keys[0] {
    } else if key < keys[0] {
      AscendingBehind(key, keys);
    } else {
      InsertKeyAscending(keys[1..], key);
      InsertKeyMembers(keys[1..], key);
      AscendingBehind(keys[0], InsertKey(keys[1..], key));
    }
  }

  ghost predicate Grouped(ts: seq<Trade>, monthOf: int -> int, months: seq<int>, groups: map<int, seq<Trade>>) {
    && Ascending(months)
    && (forall m :: m in months <==> m in groups)
    && (forall i :: 0 <= i < |ts| ==> monthOf(ts[i].entry.time) in months)
    && (forall m :: m in groups ==> groups[m] == Where(ts, InMonth(monthOf, m)))
  }

  function GroupOf(groups: map<int, seq<Trade>>, month: int): seq<Trade> {
    if month in groups then groups[month] else []
  }

  lemma WhereAppend(ts: seq<Trade>, t: Trade, p: Trade -> bool)
    ensures Where(ts + [t], p) == if p(t) then Where(ts, p) + [t] else Where(ts, p)
  {
  }

  lemma {:induction false} WhereNone(ts: seq<Trade>, p: Trade -> bool)
    requires forall i :: 0 <= i < |ts| ==> !p(ts[i])
    ensures Where(ts, p) == []
  {
    if ts != [] {
      WhereNone(ts[..|ts| - 1], p);
    }
  }

  lemma GroupAfter(
    ts: seq<Trade>, t: Trade, monthOf: int -> int, months: seq<int>, groups: map<int, seq<Trade>>, k: int)
    requires Grouped(ts, monthOf, months, groups)
    ensures Where(ts + [t], InMonth(monthOf, k))
            == if k == monthOf(t.entry.time) then GroupOf(groups, k) + [t] else GroupOf(groups, k)
  {
    if k !in groups {
      WhereNone(ts, InMonth(monthOf, k));
    }
    WhereAppend(ts, t, InMonth(monthOf, k));
  }

  lemma MonthsAfter(ts: seq<Trade>, t: Trade, monthOf: int -> int, months: seq<int>)
    requires Ascending(months) && forall i :: 0 <= i < |ts| ==> monthOf(ts[i].entry.time) in months
    ensures var months' := InsertKey(months, monthOf(t.entry.time));
            && Ascending(months')
            && (forall m :: m in months' <==> m in months || m == monthOf(t.entry.time))
            && (forall i :: 0 <= i < |ts + [t]| ==> monthOf((ts + [t])[i].entry.time) in months')
  {
    InsertKeyAscending(months, monthOf(t.entry.time));
    InsertKeyMembers(months, monthOf(t.entry.time));
  }

  lemma GroupStep(ts: seq<Trade>, t: Trade, monthOf: int -> int, months: seq<int>, groups: map<int, seq<Trade>>)
    requires Grouped(ts, monthOf, months, groups)
    ensures var m := monthOf(t.entry.time);
            Grouped(ts + [t], monthOf, InsertKey(months, m), groups[m := GroupOf(groups, m) + [t]])
  {
    var m := monthOf(t.entry.time);
    MonthsAfter(ts, t, monthOf, months);
    var groups' := groups[m := GroupOf(groups, m) + [t]];
    forall k | k in groups'
      ensures groups'[k] == Where(ts + [t], InMonth(monthOf, k))
    {
      GroupAfter(ts, t, monthOf, months, groups, k);
    }
  }

  /** `mo_map` and its sorted keys. */
  method GroupByMonth(closed: seq<Trade>, monthOf: int -> int)
    returns (months: seq<int>, groups: map<int, seq<Trade>>)
    ensures Grouped(closed, monthOf, months, groups)
  {
    months, groups := [], map[];
    for k := 0 to |closed|
      invariant Grouped(closed[..k], monthOf, months, groups)
    {
      var t := closed[k];
      var m := monthOf(t.entry.time);
      GroupStep(closed[..k], t, monthOf, months, groups);
      assert closed[..k + 1] == closed[..k] + [t];
      groups := groups[m := GroupOf(groups, m) + [t]];
      months := InsertKey(months, m);
    }
    assert closed[..|closed|] == closed;
  }

  /** Weighted size of a group of trades. */
  ghost function Total(ts: seq<Trade>, w: Trade -> real): real {
    if ts == [] then 0.0 else Total(ts[..|ts| - 1], w) + w(ts[|ts| - 1])
  }

  ghost function TotalByMonth(months: seq<int>, ts: seq<Trade>, monthOf: int -> int, w: Trade -> real): real {
    if months == [] then 0.0
    else
      var m := months[|months| - 1];
      TotalByMonth(months[..|months| - 1], ts, monthOf, w) + Total(Where(ts, InMonth(monthOf, m)), w)
  }

  lemma TotalAppend(ts: seq<Trade>, t: Trade, w: Trade -> real)
    ensures Total(ts + [t], w) == Total(ts, w) + w(t)
  {
  }

  lemma {:induction false} TotalByMonthAppend(
    months: seq<int>, ts: seq<Trade>, t: Trade, monthOf: int -> int, w: Trade -> real)
    requires Ascending(months)
    ensures TotalByMonth(months, ts + [t], monthOf, w)
            == TotalByMonth(months, ts, monthOf, w)
               + (if monthOf(t.entry.time) in months then w(t) else 0.0)
  {
    if months != [] {
      var init, m := months[..|months| - 1], months[|months| - 1];
      TotalByMonthAppend(init, ts, t, monthOf, w);
      assert (ts + [t])[..|ts|] == ts;
      TotalAppend(Where(ts, InMonth(monthOf, m)), t, w);
      assert months == init + [m];
      assert m !in init;
    }
  }

  lemma {:induction false} NoTradesNoTotal(months: seq<int>, monthOf: int -> int, w: Trade -> real)
    ensures TotalByMonth(months, [], monthOf, w) == 0.0
  {
    if months != [] {
      NoTradesNoTotal(months[..|months| - 1], monthOf, w);
    }
  }

  /** Whatever is weighed, the months' weights add up to the whole. */
  lemma {:induction false} MonthsPartition(months: seq<int>, ts: seq<Trade>, monthOf: int -> int, w: Trade -> real)
    requires Ascending(months) && forall i :: 0 <= i < |ts| ==> monthOf(ts[i].entry.time) in months
    ensures TotalByMonth(months, ts, monthOf, w) == Total(ts, w)
  {
    if ts == [] {
      NoTradesNoTotal(months, monthOf, w);
    } else {
      var init, t := ts[..|ts| - 1], ts[|ts| - 1];
      MonthsPartition(months, init, monthOf, w);
      TotalByMonthAppend(months, init, t, monthOf, w);
      assert ts == init + [t];
    }
  }

  ghost function Indicator(p: Trade -> bool): Trade -> real {
    (t: Trade) => if p(t) then 1.0 else 0.0
  }

  ghost function PnlWeight(): Trade -> real { (t: Trade) => t.pnlPct }

  predicate Always(t: Trade) { true }

  lemma {:induction false} CountAsTotal(ts: seq<Trade>, p: Trade -> bool)
    ensures |Where(ts, p)| as real == Total(ts, Indicator(p))
  {
    if ts != [] {
      CountAsTotal(ts[..|ts| - 1], p);
    }
  }

  lemma {:induction false} SumAsTotal(ts: seq<Trade>)
    requires forall i :: 0 <= i < |ts| ==> IsMilli(ts[i].pnlPct)
    ensures Sum(Pnls(ts)) == Total(ts, PnlWeight()) && IsMilli(Sum(Pnls(ts)))
  {
    if ts == [] {
    } else {
      var init := ts[..|ts| - 1];
      SumAsTotal(init);
      assert Pnls(ts)[..|ts| - 1] == Pnls(init);
      MilliAdd(Sum(Pnls(init)), ts[|ts| - 1].pnlPct);
    }
  }

  // ---- the aggregate ----

  function Months(rows: seq<MonthRow>): (r: seq<int>)
    ensures |r| == |rows| && forall i :: 0 <= i < |rows| ==> r[i] == rows[i].month
  {
    seq(|rows|, i requires 0 <= i < |rows| => rows[i].month)
  }

  /** One row per month with a trade, in month order. */
  ghost predicate MonthlyOf(rows: seq<MonthRow>, closed: seq<Trade>, monthOf: int -> int) {
    && Ascending(Months(rows))
    && (forall i :: 0 <= i < |closed| ==> monthOf(closed[i].entry.time) in Months(rows))
    && (forall i :: 0 <= i < |rows| ==>
          rows[i] == RowOf(rows[i].month, Where(closed, InMonth(monthOf, rows[i].month))))
  }

  /** What the report says, given the closed trades. */
  ghost predicate Reports(m: Metrics, closed: seq<Trade>, monthOf: int -> int) {
    && m.total == |closed| == m.wins + m.losses + m.expired
    && m.wins == |Where(closed, IsWin)| && m.losses == |Where(closed, IsLoss)|
    && m.curve == Curve(Pnls(closed))
    && m.totalPnl == Round(Sum(Pnls(closed)), MILLI)
    && (exists dd :: IsMaxDrawdown(m.curve, dd) && m.maxDrawdown == Round(dd, MILLI))
    && MonthlyOf(m.monthly, closed, monthOf)
  }

  lemma TableIsMonthly(
    rows: seq<MonthRow>, closed: seq<Trade>, monthOf: int -> int, months: seq<int>, groups: map<int, seq<Trade>>)
    requires Grouped(closed, monthOf, months, groups) && |rows| == |months|
    requires forall i :: 0 <= i < |rows| ==> rows[i] == RowOf(months[i], GroupOf(groups, months[i]))
    ensures MonthlyOf(rows, closed, monthOf)
  {
    assert Months(rows) == months;
    assert forall i :: 0 <= i < |months| ==> months[i] in months;
  }

  method MonthRows(months: seq<int>, groups: map<int, seq<Trade>>) returns (rows: seq<MonthRow>)
    ensures |rows| == |months|
    ensures forall i :: 0 <= i < |rows| ==> rows[i] == RowOf(months[i], GroupOf(groups, months[i]))
  {
    rows := [];
    for k := 0 to |months|
      invariant |rows| == k && forall i :: 0 <= i < k ==> rows[i] == RowOf(months[i], GroupOf(groups, months[i]))
    {
      rows := rows + [RowOf(months[k], GroupOf(groups, months[k]))];
    }
  }

  method MonthTable(closed: seq<Trade>, monthOf: int -> int) returns (rows: seq<MonthRow>)
    ensures MonthlyOf(rows, closed, monthOf)
  {
    var months, groups := GroupByMonth(closed, monthOf);
    rows := MonthRows(months, groups);
    TableIsMonthly(rows, closed, monthOf, months, groups);
  }

  lemma {:induction false} FunnelSplits(closed: seq<Trade>)
    requires forall t :: t in closed ==> IsClosed(t)
    ensures |Where(closed, IsWin)| + |Where(closed, IsLoss)| + |Where(closed, IsExpired)| == |closed|
  {
    if closed != [] {
      FunnelSplits(closed[..|closed| - 1]);
      assert closed[|closed| - 1] in closed;
    }
  }

  method ComputeMetrics(trades: seq<Trade>, monthOf: int -> int) returns (m: Metrics)
    ensures Reports(m, Where(trades, IsClosed), monthOf)
  {
    var closed := Where(trades, IsClosed);
    var wins, losses, exps := Where(closed, IsWin), Where(closed, IsLoss), Where(closed, IsExpired);
    WhereMembers(trades, IsClosed);
    FunnelSplits(closed);
    var pnls := Pnls(closed);
    var curve, dd := EquityAndDrawdown(pnls);
    var monthly := MonthTable(closed, monthOf);
    m := Metrics(|closed|, |wins|, |losses|, |exps|, Round(Sum(pnls), MILLI), curve, Round(dd, MILLI), monthly);
  }

  /** Replayed trades carry three-place profits; for them the report has no rounding gap:
      the total is the plain sum and the curve's last point, and the reported drawdown is
      the true one. */
  lemma ReportIsExact(m: Metrics, closed: seq<Trade>, monthOf: int -> int)
    requires forall i :: 0 <= i < |closed| ==> IsMilli(closed[i].pnlPct)
    ensures Reports(m, closed, monthOf) ==>
              && |m.curve| > 0 && m.totalPnl == Sum(Pnls(closed)) == m.curve[|m.curve| - 1]
              && IsMaxDrawdown(m.curve, m.maxDrawdown)
  {
    if Reports(m, closed, monthOf) {
      var pnls := Pnls(closed);
      SumAsTotal(closed);
      RoundMilli(Sum(pnls));
      CurveIsRunningTotal(pnls, |pnls|);
      assert pnls[..|pnls|] == pnls;
      var dd :| IsMaxDrawdown(m.curve, dd) && m.maxDrawdown == Round(dd, MILLI);
      DrawdownOnGrid(pnls, dd);
    }
  }

  ghost function RowSignals(r: MonthRow): real { r.signals as real }
  ghost function RowWins(r: MonthRow): real { r.wins as real }
  ghost function RowLosses(r: MonthRow): real { r.losses as real }
  ghost function RowPnl(r: MonthRow): real { r.totalPnl }

  ghost function SumRows(rows: seq<MonthRow>, f: MonthRow -> real): real {
    if rows == [] then 0.0 else SumRows(rows[..|rows| - 1], f) + f(rows[|rows| - 1])
  }

  lemma WholeFigures(ts: seq<Trade>)
    requires forall i :: 0 <= i < |ts| ==> IsMilli(ts[i].pnlPct)
    ensures |ts| as real == Total(ts, Indicator(Always))
    ensures |Where(ts, IsWin)| as real == Total(ts, Indicator(IsWin))
    ensures |Where(ts, IsLoss)| as real == Total(ts, Indicator(IsLoss))
    ensures Round(Sum(Pnls(ts)), MILLI) == Total(ts, PnlWeight())
  {
    CountAsTotal(ts, Always);
    WhereAll(ts, Always);
    CountAsTotal(ts, IsWin);
    CountAsTotal(ts, IsLoss);
    SumAsTotal(ts);
    RoundMilli(Sum(Pnls(ts)));
  }

  lemma RowFigures(month: int, g: seq<Trade>)
    requires forall i :: 0 <= i < |g| ==> IsMilli(g[i].pnlPct)
    ensures var r := RowOf(month, g);
            && r.signals as real == Total(g, Indicator(Always))
            && r.wins as real == Total(g, Indicator(IsWin))
            && r.losses as real == Total(g, Indicator(IsLoss))
            && r.totalPnl == Total(g, PnlWeight())
  {
    WholeFigures(g);
  }

  lemma {:induction false} RowsAreTotals(
    closed: seq<Trade>, rows: seq<MonthRow>, monthOf: int -> int, f: MonthRow -> real, w: Trade -> real)
    requires forall i :: 0 <= i < |rows| ==>
               f(rows[i]) == Total(Where(closed, InMonth(monthOf, rows[i].month)), w)
    ensures SumRows(rows, f) == TotalByMonth(Months(rows), closed, monthOf, w)
  {
    if rows != [] {
      RowsAreTotals(closed, rows[..|rows| - 1], monthOf, f, w);
      assert Months(rows)[..|rows| - 1] == Months(rows[..|rows| - 1]);
    }
  }

  /** The monthly table is a partition: its signals, wins, losses and profits add up to
      the totals, with no rounding gap. */
  lemma MonthlyConserves(closed: seq<Trade>, rows: seq<MonthRow>, monthOf: int -> int)
    requires MonthlyOf(rows, closed, monthOf)
    requires forall i :: 0 <= i < |closed| ==> IsMilli(closed[i].pnlPct)
    ensures SumRows(rows, RowSignals) == |closed| as real
    ensures SumRows(rows, RowWins) == |Where(closed, IsWin)| as real
    ensures SumRows(rows, RowLosses) == |Where(closed, IsLoss)| as real
    ensures SumRows(rows, RowPnl) == Round(Sum(Pnls(closed)), MILLI)
  {
    forall i | 0 <= i < |rows|
      ensures && rows[i].signals as real == Total(Where(closed, InMonth(monthOf, rows[i].month)), Indicator(Always))
              && rows[i].wins as real == Total(Where(closed, InMonth(monthOf, rows[i].month)), Indicator(IsWin))
              && rows[i].losses as real == Total(Where(closed, InMonth(monthOf, rows[i].month)), Indicator(IsLoss))
              && rows[i].totalPnl == Total(Where(closed, InMonth(monthOf, rows[i].month)), PnlWeight())
    {
      var g := Where(closed, InMonth(monthOf, rows[i].month));
      WhereMembers(closed, InMonth(monthOf, rows[i].month));
      assert forall k :: 0 <= k < |g| ==> g[k] in g;
      RowFigures(rows[i].month, g);
    }
    WholeFigures(closed);
    RowsAreTotals(closed, rows, monthOf, RowSignals, Indicator(Always));
    RowsAreTotals(closed, rows, monthOf, RowWins, Indicator(IsWin));
    RowsAreTotals(closed, rows, monthOf, RowLosses, Indicator(IsLoss));
    RowsAreTotals(closed, rows, monthOf, RowPnl, PnlWeight());
    MonthsPartition(Months(rows), closed, monthOf, Indicator(Always));
    MonthsPartition(Months(rows), closed, monthOf, Indicator(IsWin));
    MonthsPartition(Months(rows), closed, monthOf, Indicator(IsLoss));
    MonthsPartition(Months(rows), closed, monthOf, PnlWeight());
  }

  // ---- the whole backtest ----

  ghost predicate ClosedOnGrid(t: Trade) {
    IsClosed(t) && IsMilli(t.pnlPct)
  }

  lemma TradeOnGrid(data: Dataset, e: Entry)
    requires e.index < |data.m15| && e.price != 0.0
    ensures ClosedOnGrid(TradeOf(data, e))
  {
    ExitRange(e.index + 1, e.decision.side, e.levels, data.m15);
    var exit := ExitOf(e.index + 1, e.decision.side, e.levels, data.m15);
    RoundMilli((exit.price - e.price) / e.price * 100.0);
    RoundMilli((e.price - exit.price) / e.price * 100.0);
  }

  lemma ReplayOnGrid(st: Strategy, data: Dataset, startTs: int, endTs: int)
    ensures var r := NaiveReplay(st, data, startTs, endTs);
            r.Replayed? ==> r.signals == |r.trades| && forall i :: 0 <= i < |r.trades| ==> ClosedOnGrid(r.trades[i])
  {
    forall i: nat | Opener(st, data)(i).Opens?
      ensures ClosedOnGrid(Opener(st, data)(i).trade)
    {
      TradeOnGrid(data, Opportunity(st, data, i).value);
    }
    var lo, hi := WindowStart(data, startTs), WindowEnd(data, endTs);
    if lo < hi {
      FoldOpens(Opener(st, data), lo, hi, ClosedOnGrid);
    }
  }

  /** The report m accounts exactly for these trades, all of them closed. */
  ghost predicate Exact(m: Metrics, trades: seq<Trade>) {
    && m.total == |trades| == m.wins + m.losses + m.expired
    && |m.curve| > 0 && m.totalPnl == Sum(Pnls(trades)) == m.curve[|m.curve| - 1]
    && IsMaxDrawdown(m.curve, m.maxDrawdown)
    && SumRows(m.monthly, RowSignals) == m.total as real
    && SumRows(m.monthly, RowPnl) == m.totalPnl
  }

  lemma ReportOnGrid(trades: seq<Trade>, monthOf: int -> int, m: Metrics)
    requires forall i :: 0 <= i < |trades| ==> ClosedOnGrid(trades[i])
    ensures Reports(m, Where(trades, IsClosed), monthOf) ==> Exact(m, trades)
  {
    WhereAll(trades, IsClosed);
    if Reports(m, trades, monthOf) {
      ReportIsExact(m, trades, monthOf);
      MonthlyConserves(trades, m.monthly, monthOf);
    }
  }

  /** Every report built from a replay accounts for every trade of that replay exactly. */
  lemma ReplayReport(st: Strategy, data: Dataset, startTs: int, endTs: int, monthOf: int -> int, m: Metrics)
    ensures var r := NaiveReplay(st, data, startTs, endTs);
            r.Replayed? && Reports(m, Where(r.trades, IsClosed), monthOf) ==>
              m.total == r.signals && Exact(m, r.trades)
  {
    var r := NaiveReplay(st, data, startTs, endTs);
    if r.Replayed? {
      ReplayOnGrid(st, data, startTs, endTs);
      ReportOnGrid(r.trades, monthOf, m);
    }
  }

  /** The end of _replay: run the cached loop and report on its trades. */
  method Backtest(st: Strategy, data: Dataset, startTs: int, endTs: int, monthOf: int -> int)
    returns (r: Outcome, m: Option<Metrics>)
    requires TrendGated(st)
    ensures r == NaiveReplay(st, data, startTs, endTs)
    ensures m.Some? <==> r.Replayed?
    ensures m.Some? ==> m.value.total == r.signals && Exact(m.value, r.trades)
  {
    r := Run(st, data, startTs, endTs);
    m := None;
    if r.Replayed? {
      var report := ComputeMetrics(r.trades, monthOf);
      ReplayReport(st, data, startTs, endTs, monthOf, report);
      m := Some(report);
    }
  }
}
