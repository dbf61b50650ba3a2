/** The candle-replay loop with lazily refreshed snapshots, and the naive replay it
    stands for (app/backtesting/historical.py, HistoricalBacktestEngine._replay). */
module Replay {
  import opened Common
  import opened MarketBars
  import opened ExitScan
  import opened Mtf

  const SNAP_WINDOW: nat := 250
  const MIN_BARS: nat := 60

  /** The collaborators the replay calls: feature building, the pipeline, level building. */
  datatype Strategy = Strategy(
    build: (Timeframe, seq<Bar>) -> Option<Snapshot>,
    evaluate: map<Timeframe, Snapshot> -> Verdict,
    levels: (Snapshot, Side) -> Option<Levels>)

  /** All the replay's short-cut needs of the pipeline: without a 1D trend it rejects,
      whatever the other timeframes show. */
  ghost predicate TrendGated(st: Strategy) {
    forall snaps: map<Timeframe, Snapshot> {:trigger st.evaluate(snaps)} ::
      {D1, H4, H1, M15} <= snaps.Keys && !Bull(snaps[D1]) && !Bear(snaps[D1]) ==> st.evaluate(snaps).Rejected?
  }

  /** The live scanner's strategy, with the pipeline the repository ships. */
  function Live(
    build: (Timeframe, seq<Bar>) -> Option<Snapshot>, levels: (Snapshot, Side) -> Option<Levels>,
    settings: Settings): Strategy
  {
    Strategy(build, (snaps: map<Timeframe, Snapshot>) => EvaluatePipeline(snaps, settings), levels)
  }

  /** The shipped pipeline has that property, so the cached replay applies to it. */
  lemma LiveIsTrendGated(
    build: (Timeframe, seq<Bar>) -> Option<Snapshot>, levels: (Snapshot, Side) -> Option<Levels>,
    settings: Settings)
    ensures TrendGated(Live(build, levels, settings))
  {
  }

  datatype Dataset = Dataset(m15: seq<Bar>, h1: seq<Bar>, h4: seq<Bar>, d1: seq<Bar>)

  datatype Entry = Entry(index: nat, time: int, price: real, decision: Decision, levels: Levels)

  datatype Trade = Trade(entry: Entry, exit: Exit, exitTime: int, hold: int, pnlPct: real)

  /** The division by a zero entry price raises out of the loop, after these trades were made. */
  datatype Outcome =
    | NoData
    | NarrowWindow
    | Replayed(trades: seq<Trade>, scanned: nat, signals: nat)
    | DividedByZero(trades: seq<Trade>)

  function Later(a: nat, b: nat): nat { if a < b then b else a }

  function WindowStart(data: Dataset, startTs: int): nat {
    Later(FirstClosingAt(data.m15, startTs), SNAP_WINDOW)
  }

  function WindowEnd(data: Dataset, endTs: int): (e: nat)
    ensures e <= |data.m15|
  {
    FirstClosingAt(data.m15, endTs)
  }

  /** Snapshot of the last SNAP_WINDOW of the first idx higher-timeframe bars. */
  function HigherSnapshot(st: Strategy, tf: Timeframe, bars: seq<Bar>, idx: nat): Option<Snapshot>
    requires idx <= |bars|
  {
    if idx >= MIN_BARS then
      st.build(tf, bars[(if idx < SNAP_WINDOW then 0 else idx - SNAP_WINDOW)..idx])
    else None
  }

  function EntrySnapshot(st: Strategy, bars: seq<Bar>, i: nat): Option<Snapshot>
    requires i < |bars|
  {
    st.build(M15, bars[(if i + 1 < SNAP_WINDOW then 0 else i + 1 - SNAP_WINDOW)..i + 1])
  }

  function PnlPct(side: Side, entry: real, exit: real): real
    requires entry != 0.0
  {
    if side == LONG then Round((exit - entry) / entry * 100.0, MILLI)
    else Round((entry - exit) / entry * 100.0, MILLI)
  }

  // ---- the naive replay ----

  /** What four freshly built snapshots offer: all must exist, the pipeline accept them, and
      levels be found. */
  function Offer(
    st: Strategy, i: nat, bar: Bar,
    d1: Option<Snapshot>, h4: Option<Snapshot>, h1: Option<Snapshot>, m15: Option<Snapshot>): Option<Entry>
  {
    if d1.None? || h4.None? || h1.None? || m15.None? then None
    else
      var snaps := map[D1 := d1.value, H4 := h4.value, H1 := h1.value, M15 := m15.value];
      match st.evaluate(snaps)
      case Rejected(_) => None
      case Accepted(decision) =>
        match st.levels(m15.value, decision.side)
        case None => None
        case Some(lv) => Some(Entry(i, bar.openTime, bar.close, decision, lv))
  }

  /** Rebuild all four snapshots at candle i and ask the full pipeline. */
  function Opportunity(st: Strategy, data: Dataset, i: nat): Option<Entry>
    requires i < |data.m15|
  {
    var bar := data.m15[i];
    Offer(st, i, bar,
          HigherSnapshot(st, D1, data.d1, ClosedCount(data.d1, bar.closeTime)),
          HigherSnapshot(st, H4, data.h4, ClosedCount(data.h4, bar.closeTime)),
          HigherSnapshot(st, H1, data.h1, ClosedCount(data.h1, bar.closeTime)),
          EntrySnapshot(st, data.m15, i))
  }

  /** Without a 1D trend nothing is offered, whatever the other snapshots are. */
  lemma NoTrendNoOffer(
    st: Strategy, i: nat, bar: Bar,
    d1: Snapshot, h4: Option<Snapshot>, h1: Option<Snapshot>, m15: Option<Snapshot>)
    requires TrendGated(st) && !Bull(d1) && !Bear(d1)
    ensures Offer(st, i, bar, Some(d1), h4, h1, m15) == None
  {
  }

  function TradeOf(data: Dataset, e: Entry): Trade
    requires e.index < |data.m15| && e.price != 0.0
  {
    var exit := ExitOf(e.index + 1, e.decision.side, e.levels, data.m15);
    ExitRange(e.index + 1, e.decision.side, e.levels, data.m15);
    Trade(e, exit, data.m15[exit.index].openTime, exit.index - e.index,
          PnlPct(e.decision.side, e.price, exit.price))
  }

  /** What becomes of a candle that is not blocked. */
  datatype Opening = Nothing | Opens(trade: Trade) | Raises

  /** The trade the naive replay would open at candle i, were it not blocked. */
  function TradeAt(st: Strategy, data: Dataset, i: nat): Opening
    requires i < |data.m15|
  {
    match Opportunity(st, data, i)
    case None => Nothing
    case Some(e) => if e.price == 0.0 then Raises else Opens(TradeOf(data, e))
  }

  function Opener(st: Strategy, data: Dataset): nat -> Opening {
    (i: nat) => if i < |data.m15| then TradeAt(st, data, i) else Nothing
  }

  /** Progress after some candles: the trades so far, the candle blocked through, and whether
      the loop has raised. */
  datatype Progress = Progress(trades: seq<Trade>, blocked: int, raised: bool)

  const FRESH := Progress([], -1, false)

  /** One candle: skip it while a trade is open, otherwise take what it offers. */
  function Step(opener: nat -> Opening, s: Progress, i: nat): Progress {
    if s.raised || i <= s.blocked then s
    else
      match opener(i)
      case Nothing => s
      case Opens(t) => Progress(s.trades + [t], t.exit.index, false)
      case Raises => s.(raised := true)
  }

  /** Candles lo..hi in turn. */
  function Fold(opener: nat -> Opening, lo: nat, hi: nat): Progress
    requires lo <= hi
    decreases hi
  {
    if lo == hi then FRESH else Step(opener, Fold(opener, lo, hi - 1), hi - 1)
  }

  function NaiveReplay(st: Strategy, data: Dataset, startTs: int, endTs: int): Outcome {
    if data.m15 == [] || data.h1 == [] || data.h4 == [] || data.d1 == [] then NoData
    else
      var lo, hi := WindowStart(data, startTs), WindowEnd(data, endTs);
      if lo >= hi then NarrowWindow
      else
        var s := Fold(Opener(st, data), lo, hi);
        if s.raised then DividedByZero(s.trades) else Replayed(s.trades, hi - lo, |s.trades|)
  }

  // ---- the cached replay ----

  /** A lazily refreshed snapshot and the bar count it was built for; -1 before first use. */
  datatype Cache = Cache(idx: int, snap: Option<Snapshot>)

  const EMPTY := Cache(-1, None)

  ghost predicate CacheOk(st: Strategy, tf: Timeframe, bars: seq<Bar>, c: Cache) {
    -1 <= c.idx <= |bars| && c.snap == if c.idx == -1 then None else HigherSnapshot(st, tf, bars, c.idx)
  }

  /** Rebuild one snapshot only if a new candle of its timeframe has closed. */
  method Refresh(st: Strategy, tf: Timeframe, bars: seq<Bar>, ts: int, c: Cache) returns (c': Cache)
    requires CacheOk(st, tf, bars, c)
    ensures CacheOk(st, tf, bars, c')
    ensures c'.snap == HigherSnapshot(st, tf, bars, ClosedCount(bars, ts))
  {
    c' := c;
    var newIdx := ClosedCount(bars, ts);
    if newIdx != c.idx {
      if newIdx >= MIN_BARS {
        var from := if newIdx < SNAP_WINDOW then 0 else newIdx - SNAP_WINDOW;
        c' := Cache(newIdx, st.build(tf, bars[from..newIdx]));
      } else {
        c' := Cache(newIdx, None);
      }
    }
  }

  /** One unblocked candle of the loop: refresh caches only as far down the funnel as
      needed. The candidate found is the one a full rebuild finds, so the 1D short-cut
      and the early exits skip only candles the pipeline would reject. */
  method Candidate(st: Strategy, data: Dataset, i: nat, d1: Cache, h4: Cache, h1: Cache)
    returns (d1': Cache, h4': Cache, h1': Cache, e: Option<Entry>)
    requires i < |data.m15| && TrendGated(st)
    requires CacheOk(st, D1, data.d1, d1) && CacheOk(st, H4, data.h4, h4) && CacheOk(st, H1, data.h1, h1)
    ensures CacheOk(st, D1, data.d1, d1') && CacheOk(st, H4, data.h4, h4') && CacheOk(st, H1, data.h1, h1')
    ensures e == Opportunity(st, data, i)
  {
    d1', h4', h1', e := d1, h4, h1, None;
    var ts := data.m15[i].closeTime;
    d1' := Refresh(st, D1, data.d1, ts, d1);
    if d1'.snap.None? { return; }
    if !Bull(d1'.snap.value) && !Bear(d1'.snap.value) {
      NoTrendNoOffer(st, i, data.m15[i], d1'.snap.value,
                     HigherSnapshot(st, H4, data.h4, ClosedCount(data.h4, ts)),
                     HigherSnapshot(st, H1, data.h1, ClosedCount(data.h1, ts)), EntrySnapshot(st, data.m15, i));
      return;
    }
    h4' := Refresh(st, H4, data.h4, ts, h4);
    if h4'.snap.None? { return; }
    h1' := Refresh(st, H1, data.h1, ts, h1);
    if h1'.snap.None? { return; }
    var m15 := EntrySnapshot(st, data.m15, i);
    if m15.None? { return; }
    var snaps := map[D1 := d1'.snap.value, H4 := h4'.snap.value, H1 := h1'.snap.value, M15 := m15.value];
    var verdict := st.evaluate(snaps);
    if verdict.Rejected? { return; }
    var lv := st.levels(m15.value, verdict.decision.side);
    if lv.None? { return; }
    e := Some(Entry(i, data.m15[i].openTime, data.m15[i].close, verdict.decision, lv.value));
  }

  /** Open a trade at a candidate and scan forward for its exit. */
  method OpenTrade(data: Dataset, e: Entry) returns (t: Trade)
    requires e.index < |data.m15| && e.price != 0.0
    ensures t == TradeOf(data, e)
  {
    var exit := SimulateExit(e.index + 1, e.decision.side, e.levels, data.m15);
    ExitRange(e.index + 1, e.decision.side, e.levels, data.m15);
    t := Trade(e, exit, data.m15[exit.index].openTime, exit.index - e.index,
               PnlPct(e.decision.side, e.price, exit.price));
  }

  /** The opener offers, candle by candle, what the naive replay would open. */
  ghost predicate Offers(opener: nat -> Opening, st: Strategy, data: Dataset) {
    forall i: nat {:trigger TradeAt(st, data, i)} :: i < |data.m15| ==> opener(i) == TradeAt(st, data, i)
  }

  /** An unblocked candle, including the forward scan for the exit. */
  method TryOpen(st: Strategy, data: Dataset, i: nat, ghost opener: nat -> Opening,
                 d1: Cache, h4: Cache, h1: Cache)
    returns (d1': Cache, h4': Cache, h1': Cache, t: Opening)
    requires i < |data.m15| && TrendGated(st) && Offers(opener, st, data)
    requires CacheOk(st, D1, data.d1, d1) && CacheOk(st, H4, data.h4, h4) && CacheOk(st, H1, data.h1, h1)
    ensures CacheOk(st, D1, data.d1, d1') && CacheOk(st, H4, data.h4, h4') && CacheOk(st, H1, data.h1, h1')
    ensures t == opener(i)
  {
    var e: Option<Entry>;
    d1', h4', h1', e := Candidate(st, data, i, d1, h4, h1);
    assert opener(i) == TradeAt(st, data, i);
    if e.None? {
      return d1', h4', h1', Nothing;
    }
    if e.value.price == 0.0 {
      return d1', h4', h1', Raises;
    }
    var trade := OpenTrade(data, e.value);
    t := Opens(trade);
  }

  /** Once the loop has raised, nothing further happens. */
  lemma {:induction false} RaisedStays(opener: nat -> Opening, lo: nat, m: nat, hi: nat)
    requires lo <= m <= hi && Fold(opener, lo, m).raised
    ensures Fold(opener, lo, hi) == Fold(opener, lo, m)
    decreases hi
  {
    if m < hi {
      RaisedStays(opener, lo, m, hi - 1);
    }
  }

  /** The loop over candles startI..endI, with its caches and its blocked-until cursor. */
  method Loop(st: Strategy, data: Dataset, ghost opener: nat -> Opening, startI: nat, endI: nat)
    returns (trades: seq<Trade>, scanned: nat, signals: nat, raised: bool)
    requires startI <= endI <= |data.m15| && TrendGated(st) && Offers(opener, st, data)
    ensures trades == Fold(opener, startI, endI).trades && raised == Fold(opener, startI, endI).raised
    ensures !raised ==> scanned == endI - startI && signals == |trades|
  {
    var d1, h4, h1 := EMPTY, EMPTY, EMPTY;
    trades, scanned, signals, raised := [], 0, 0, false;
    var activeEnd: int := -1;
    for i := startI to endI
      invariant CacheOk(st, D1, data.d1, d1) && CacheOk(st, H4, data.h4, h4) && CacheOk(st, H1, data.h1, h1)
      invariant Progress(trades, activeEnd, false) == Fold(opener, startI, i)
      invariant scanned == i - startI && signals == |trades|
    {
      scanned := scanned + 1;
      if i <= activeEnd {
        continue;
      }
      var t: Opening;
      d1, h4, h1, t := TryOpen(st, data, i, opener, d1, h4, h1);
      if t.Nothing? {
        continue;
      }
      signals := signals + 1;
      if t.Raises? {
        RaisedStays(opener, startI, i + 1, endI);
        raised := true;
        return;
      }
      trades := trades + [t.trade];
      activeEnd := t.trade.exit.index;
    }
  }

  /** The cached replay returns exactly what the naive replay defines: same trades, same
      number of candles scanned, same number of signals. */
  method Run(st: Strategy, data: Dataset, startTs: int, endTs: int) returns (r: Outcome)
    requires TrendGated(st)
    ensures r == NaiveReplay(st, data, startTs, endTs)
  {
    if data.m15 == [] || data.h1 == [] || data.h4 == [] || data.d1 == [] {
      return NoData;
    }
    var startI, endI := WindowStart(data, startTs), WindowEnd(data, endTs);
    if startI >= endI {
      return NarrowWindow;
    }
    var trades, scanned, signals, raised := Loop(st, data, Opener(st, data), startI, endI);
    return if raised then DividedByZero(trades) else Replayed(trades, scanned, signals);
  }

  // ---- the shape of every replay ----

  /** Percent gained on the entry price, rounded to three places: what the price rose for a LONG,
      what it fell for a SHORT. */
  ghost predicate Earned(side: Side, entry: real, exit: real, pnlPct: real) {
    && entry != 0.0
    && IsRounded(pnlPct, (if side == LONG then exit - entry else entry - exit) / entry * 100.0, 1000.0)
  }

  /** A trade opened at candle i: at that candle's close, indices in range, hold within the scan
      limit, the exit the one and only the documentation describes, and the profit earned. */
  ghost predicate Placed(data: Dataset, i: nat, t: Trade) {
    && t.entry.index == i < |data.m15|
    && t.entry.time == data.m15[i].openTime && t.entry.price == data.m15[i].close
    && i <= t.exit.index < |data.m15|
    && t.exitTime == data.m15[t.exit.index].openTime
    && t.hold == t.exit.index - i && 0 <= t.hold <= 201
    && IsExit(i + 1, t.entry.decision.side, t.entry.levels, data.m15, t.exit)
    && Earned(t.entry.decision.side, t.entry.price, t.exit.price, t.pnlPct)
  }

  lemma PnlIsEarned(side: Side, entry: real, exit: real)
    requires entry != 0.0
    ensures Earned(side, entry, exit, PnlPct(side, entry, exit))
  {
    RoundIs((if side == LONG then exit - entry else entry - exit) / entry * 100.0, 1000.0);
  }

  /** An opportunity is at its own candle, at that candle's close. */
  lemma OpportunityAt(st: Strategy, data: Dataset, i: nat)
    requires i < |data.m15| && Opportunity(st, data, i).Some?
    ensures var e := Opportunity(st, data, i).value;
            e.index == i && e.time == data.m15[i].openTime && e.price == data.m15[i].close
  {
  }

  lemma TradeOfPlaced(data: Dataset, e: Entry)
    requires e.index < |data.m15| && e.price != 0.0
    requires e.time == data.m15[e.index].openTime && e.price == data.m15[e.index].close
    ensures Placed(data, e.index, TradeOf(data, e))
  {
    var exit := ExitOf(e.index + 1, e.decision.side, e.levels, data.m15);
    ExitRange(e.index + 1, e.decision.side, e.levels, data.m15);
    ExitIsTheScans(e.index + 1, e.decision.side, e.levels, data.m15, exit);
    PnlIsEarned(e.decision.side, e.price, exit.price);
  }

  lemma TradePlaced(st: Strategy, data: Dataset, i: nat)
    requires i < |data.m15|
    ensures TradeAt(st, data, i).Opens? ==> Placed(data, i, TradeAt(st, data, i).trade)
  {
    if TradeAt(st, data, i).Opens? {
      OpportunityAt(st, data, i);
      TradeOfPlaced(data, Opportunity(st, data, i).value);
    }
  }

  ghost predicate AllPlaced(data: Dataset, trades: seq<Trade>) {
    forall a :: 0 <= a < |trades| ==> Placed(data, trades[a].entry.index, trades[a])
  }

  /** One trade at a time, in order, within the window. */
  ghost predicate Disjoint(trades: seq<Trade>, lo: nat, hi: nat) {
    && (forall a :: 0 <= a < |trades| ==> lo <= trades[a].entry.index < hi)
    && (forall a, b :: 0 <= a < b < |trades| ==> trades[a].exit.index < trades[b].entry.index)
  }

  lemma {:induction false} FoldDisjoint(opener: nat -> Opening, lo: nat, hi: nat)
    requires lo <= hi
    requires forall i: nat :: opener(i).Opens? ==> opener(i).trade.entry.index == i <= opener(i).trade.exit.index
    ensures var s := Fold(opener, lo, hi);
            && Disjoint(s.trades, lo, hi) && |s.trades| <= hi - lo
            && forall a :: 0 <= a < |s.trades| ==> s.trades[a].exit.index <= s.blocked
    decreases hi
  {
    if lo < hi {
      FoldDisjoint(opener, lo, hi - 1);
      var s, s' := Fold(opener, lo, hi - 1), Fold(opener, lo, hi);
      assert forall a :: 0 <= a < |s.trades| ==> s'.trades[a] == s.trades[a];
    }
  }

  /** Whatever every opened trade satisfies, every trade of the fold satisfies. */
  lemma {:induction false} FoldOpens(opener: nat -> Opening, lo: nat, hi: nat, good: Trade -> bool)
    requires lo <= hi && forall i: nat :: opener(i).Opens? ==> good(opener(i).trade)
    ensures forall a :: 0 <= a < |Fold(opener, lo, hi).trades| ==> good(Fold(opener, lo, hi).trades[a])
    decreases hi
  {
    if lo < hi {
      FoldOpens(opener, lo, hi - 1, good);
    }
  }

  /** The trades made before the replay returned or raised. */
  function TradesMade(r: Outcome): seq<Trade> {
    match r
    case Replayed(trades, _, _) => trades
    case DividedByZero(trades) => trades
    case _ => []
  }

  /** In every replay trades are ordered and disjoint (each entry strictly after the previous
      exit), all indices are in range, no trade is held longer than MAX_HOLD + 1 candles, and
      each exit is the scan's. */
  lemma ReplayDisciplined(st: Strategy, data: Dataset, startTs: int, endTs: int)
    ensures var r := NaiveReplay(st, data, startTs, endTs);
            && Disjoint(TradesMade(r), WindowStart(data, startTs), WindowEnd(data, endTs))
            && AllPlaced(data, TradesMade(r))
            && (r.Replayed? ==> r.signals == |r.trades| <= r.scanned)
  {
    var opener := Opener(st, data);
    forall i: nat | opener(i).Opens?
      ensures Placed(data, i, opener(i).trade)
    {
      TradePlaced(st, data, i);
    }
    var lo, hi := WindowStart(data, startTs), WindowEnd(data, endTs);
    if lo < hi {
      FoldDisjoint(opener, lo, hi);
      FoldOpens(opener, lo, hi, (t: Trade) => Placed(data, t.entry.index, t));
    }
  }
}
