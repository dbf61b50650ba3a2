/** The signal tracker's poll (app/scanner/tracker.py, SignalTracker._check_one) over one stored
    signal, and the selection of what it polls (app/database/repo.py, get_open_signals). */
module Tracker {
  import opened Common
  import T = TradeOutcome
  import L = LifecyclePnl

  datatype Settings = Settings(
    useExtremes: bool, fillRequired: bool, moveToBreakEven: bool, countProtected: bool,
    lifecyclePnl: bool, tp1Frac: real, tp2Frac: real, minDelta: real)

  datatype Signal = Signal(
    side: Side, entryLow: real, entryHigh: real, tp1: real, tp2: real, tp3: real, stopLoss: real)

  datatype Range = Range(high: real, low: real)

  /** What one poll sees: the price, the last candle's range if it was fetched, the time, and
      whether the signal is past its entry-fill timeout. */
  datatype Poll = Poll(price: real, extreme: Option<Range>, at: T.Iso, aged: bool)

  /** The columns the tracker reads and writes, and the events it has fanned out. */
  datatype Row = Row(
    status: T.Tag, diagnostics: T.Diagnostics, filled: bool,
    pnl: real, maxFavorable: real, maxAdverse: real, sent: seq<T.Exit>)

  const EXPIRED := T.OTHER("EXPIRED")

  /** get_open_signals */
  predicate IsPolled(status: T.Tag) { status in {T.OPEN, T.TP1, T.TP2} }

  function EntryPrice(s: Signal): real { (s.entryLow + s.entryHigh) / 2.0 }

  function PnlPct(s: Signal, price: real): real
    requires EntryPrice(s) != 0.0
  {
    if s.side == LONG then (price - EntryPrice(s)) / EntryPrice(s) * 100.0
    else (EntryPrice(s) - price) / EntryPrice(s) * 100.0
  }

  /** The range a poll works on: the candle's if there is one and it is to be used, else the price. */
  function Seen(c: Settings, p: Poll): Range {
    if c.useExtremes && p.extreme.Some? then p.extreme.value else Range(p.price, p.price)
  }

  predicate EntryTouched(c: Settings, s: Signal, p: Poll) {
    Seen(c, p).low <= s.entryHigh && Seen(c, p).high >= s.entryLow
  }

  function TpIndex(s: Signal, touch: real): nat {
    if s.side == LONG then
      if touch >= s.tp3 then 3 else if touch >= s.tp2 then 2 else if touch >= s.tp1 then 1 else 0
    else
      if touch <= s.tp3 then 3 else if touch <= s.tp2 then 2 else if touch <= s.tp1 then 1 else 0
  }

  /** The tracker's own rank table: a status TP3 is never polled. */
  function PreRank(status: T.Tag): nat {
    if status == T.TP1 then 1 else if status == T.TP2 then 2 else 0
  }

  function NewTp(c: Settings, s: Signal, p: Poll): nat {
    TpIndex(s, if s.side == LONG then Seen(c, p).high else Seen(c, p).low)
  }

  function EffectiveStop(c: Settings, s: Signal, preRank: nat): real {
    if preRank >= 1 && c.moveToBreakEven then EntryPrice(s) else s.stopLoss
  }

  predicate StopHit(c: Settings, s: Signal, preRank: nat, p: Poll) {
    if s.side == LONG then Seen(c, p).low <= EffectiveStop(c, s, preRank)
    else Seen(c, p).high >= EffectiveStop(c, s, preRank)
  }

  function TpTag(rank: nat): T.Tag
    requires 1 <= rank <= 3
  {
    if rank == 1 then T.TP1 else if rank == 2 then T.TP2 else T.TP3
  }

  /** The events of one poll, a target before the stop. */
  function EventsOf(c: Settings, s: Signal, preRank: nat, p: Poll): (tags: seq<T.Tag>)
    ensures |tags| <= 2
  {
    var newTp := NewTp(c, s, p);
    if newTp >= 3 then [T.TP3]
    else
      (if newTp > preRank then [TpTag(newTp)] else [])
      + (if StopHit(c, s, preRank, p) then [T.SL] else [])
  }

  function Higher(a: nat, b: nat): nat { if a < b then b else a }

  /** event_max_tp */
  function EventRank(preRank: nat, newTp: nat, tag: T.Tag): nat {
    if tag == T.TP3 then Higher(3, Higher(preRank, newTp)) else Higher(preRank, newTp)
  }

  function AsLadder(s: Signal): L.Signal {
    L.Signal(s.side, EntryPrice(s), s.tp1, s.tp2, s.tp3, s.stopLoss)
  }

  function PlanOf(c: Settings): L.Plan {
    L.Plan(c.tp1Frac, c.tp2Frac, c.moveToBreakEven)
  }

  function Realized(c: Settings, s: Signal, preRank: nat, p: Poll, tag: T.Tag): real
    requires EntryPrice(s) != 0.0
  {
    if tag != T.TP3 && tag != T.SL then Round(PnlPct(s, p.price), MILLI)
    else if c.lifecyclePnl then
      L.BlendedRealizedPnl(AsLadder(s), PlanOf(c), EventRank(preRank, NewTp(c, s, p), tag), L.FinalOf(tag))
    else Round(PnlPct(s, if tag == T.SL then EffectiveStop(c, s, preRank) else s.tp3), MILLI)
  }

  /** A protected stop is stored as the highest target reached. */
  function StoredStatus(c: Settings, tag: T.Tag, rank: nat): T.Tag {
    if tag == T.SL && 1 <= rank <= 3 && c.countProtected then TpTag(rank) else tag
  }

  /** The range of profits seen, stored to three places. */
  function Favorable(c: Settings, s: Signal, row: Row, p: Poll): real
    requires EntryPrice(s) != 0.0
  {
    var x := Seen(c, p);
    Round(Max(row.maxFavorable, Max(PnlPct(s, p.price), Max(PnlPct(s, x.high), PnlPct(s, x.low)))), MILLI)
  }

  function Adverse(c: Settings, s: Signal, row: Row, p: Poll): real
    requires EntryPrice(s) != 0.0
  {
    var x := Seen(c, p);
    Round(Min(row.maxAdverse, Min(PnlPct(s, p.price), Min(PnlPct(s, x.high), PnlPct(s, x.low)))), MILLI)
  }

  /** One event applied to the row. */
  function Applied(c: Settings, s: Signal, before: Row, p: Poll, row: Row, tag: T.Tag): Row
    requires EntryPrice(s) != 0.0
  {
    var preRank := PreRank(before.status);
    var realized := Realized(c, s, preRank, p, tag);
    var e := T.Exit(tag, p.at, Some(realized));
    Row(StoredStatus(c, tag, EventRank(preRank, NewTp(c, s, p), tag)), T.Recorded(row.diagnostics, e), row.filled,
        realized, Favorable(c, s, before, p), Adverse(c, s, before, p), row.sent + [e])
  }

  function AppliedAll(c: Settings, s: Signal, before: Row, p: Poll, row: Row, tags: seq<T.Tag>): Row
    requires EntryPrice(s) != 0.0
  {
    if tags == [] then row
    else Applied(c, s, before, p, AppliedAll(c, s, before, p, row, tags[..|tags| - 1]), tags[|tags| - 1])
  }

  /** Mark to market when nothing happened, unless nothing moved. */
  function Marked(c: Settings, s: Signal, row: Row, p: Poll): Row
    requires EntryPrice(s) != 0.0
  {
    var pnl, fav, adv := PnlPct(s, p.price), Favorable(c, s, row, p), Adverse(c, s, row, p);
    if Abs(pnl - row.pnl) < c.minDelta && fav == Round(row.maxFavorable, MILLI) && adv == Round(row.maxAdverse, MILLI)
    then row
    else row.(pnl := Round(pnl, MILLI), maxFavorable := fav, maxAdverse := adv)
  }

  /** Past the entry gate. A zero entry price raises in the profit formula, and the poll ends. */
  function LevelsChecked(c: Settings, s: Signal, row: Row, p: Poll): Row {
    if EntryPrice(s) == 0.0 then row
    else
      var tags := EventsOf(c, s, PreRank(row.status), p);
      if tags == [] then Marked(c, s, row, p) else AppliedAll(c, s, row, p, row, tags)
  }

  /** One turn of the tracker for this signal: skipped if it is not selected or has no price. */
  function Checked(c: Settings, s: Signal, row: Row, p: Poll): Row {
    if !IsPolled(row.status) || p.price == 0.0 then row
    else if c.fillRequired && !row.filled && !EntryTouched(c, s, p) then
      if p.aged then row.(status := EXPIRED, pnl := 0.0) else row
    else LevelsChecked(c, s, row.(filled := row.filled || c.fillRequired), p)
  }

  function Start(other: map<string, string>): Row {
    Row(T.OPEN, T.Diagnostics(None, other), false, 0.0, 0.0, 0.0, [])
  }

  /** The stored signal, updated in place. */
  class SignalRow {
    const signal: Signal
    var status: T.Tag
    var diagnostics: T.Diagnostics
    var filled: bool
    var pnl: real
    var maxFavorable: real
    var maxAdverse: real
    var sent: seq<T.Exit>

    ghost function State(): Row
      reads this
    {
      Row(status, diagnostics, filled, pnl, maxFavorable, maxAdverse, sent)
    }

    constructor (s: Signal, other: map<string, string>)
      ensures signal == s
      ensures State() == Row(T.OPEN, T.Diagnostics(None, other), false, 0.0, 0.0, 0.0, [])
    {
      signal := s;
      status, diagnostics, filled := T.OPEN, T.Diagnostics(None, other), false;
      pnl, maxFavorable, maxAdverse, sent := 0.0, 0.0, 0.0, [];
    }

    /** _check_one, for a signal get_open_signals selects. */
    method CheckOne(c: Settings, p: Poll)
      requires IsPolled(status) && p.price != 0.0
      modifies this
      ensures State() == Checked(c, signal, old(State()), p)
    {
      if c.fillRequired && !filled {
        if EntryTouched(c, signal, p) {
          filled := true;
        } else {
          if p.aged {
            status, pnl := EXPIRED, 0.0;
          }
          return;
        }
      }
      if EntryPrice(signal) == 0.0 {
        return;
      }
      var preRank := PreRank(status);
      var tags := EventsOf(c, signal, preRank, p);
      if tags == [] {
        Mark(c, p);
      } else {
        ApplyEvents(c, p, tags);
      }
    }

    method Mark(c: Settings, p: Poll)
      requires EntryPrice(signal) != 0.0
      modifies this`pnl, this`maxFavorable, this`maxAdverse
      ensures State() == Marked(c, signal, old(State()), p)
    {
      var row := Row(status, diagnostics, filled, pnl, maxFavorable, maxAdverse, sent);
      var now, fav, adv := PnlPct(signal, p.price), Favorable(c, signal, row, p), Adverse(c, signal, row, p);
      if Abs(now - pnl) < c.minDelta && fav == Round(maxFavorable, MILLI) && adv == Round(maxAdverse, MILLI) {
        return;
      }
      pnl, maxFavorable, maxAdverse := Round(now, MILLI), fav, adv;
    }

    /** One event of a poll that began with the row as `before`. */
    method ApplyEvent(c: Settings, p: Poll, before: Row, tag: T.Tag)
      requires EntryPrice(signal) != 0.0
      modifies this
      ensures State() == Applied(c, signal, before, p, old(State()), tag)
    {
      var realized := Realized(c, signal, PreRank(before.status), p, tag);
      var e := T.Exit(tag, p.at, Some(realized));
      status := StoredStatus(c, tag, EventRank(PreRank(before.status), NewTp(c, signal, p), tag));
      pnl := realized;
      maxFavorable := Favorable(c, signal, before, p);
      maxAdverse := Adverse(c, signal, before, p);
      var d := T.RecordExitEvent(diagnostics, e);
      diagnostics := d;
      sent := sent + [e];
    }

    /** The loop over the poll's events. */
    method ApplyEvents(c: Settings, p: Poll, tags: seq<T.Tag>)
      requires EntryPrice(signal) != 0.0
      modifies this
      ensures State() == AppliedAll(c, signal, old(State()), p, old(State()), tags)
    {
      var before := Row(status, diagnostics, filled, pnl, maxFavorable, maxAdverse, sent);
      for k := 0 to |tags|
        invariant State() == AppliedAll(c, signal, before, p, before, tags[..k])
      {
        assert tags[..k + 1][..k] == tags[..k];
        ApplyEvent(c, p, before, tags[k]);
      }
      assert tags[..|tags|] == tags;
    }
  }

  /** Any sequence of polls of a new signal. */
  function Tracked(c: Settings, s: Signal, other: map<string, string>, polls: seq<Poll>): Row {
    if polls == [] then Start(other)
    else Checked(c, s, Tracked(c, s, other, polls[..|polls| - 1]), polls[|polls| - 1])
  }

  lemma OneApplied(c: Settings, s: Signal, before: Row, p: Poll, row: Row, tag: T.Tag)
    requires EntryPrice(s) != 0.0
    ensures AppliedAll(c, s, before, p, row, [tag]) == Applied(c, s, before, p, row, tag)
  {
    assert [tag][..0] == [];
  }

  lemma TwoApplied(c: Settings, s: Signal, before: Row, p: Poll, row: Row, first: T.Tag, second: T.Tag)
    requires EntryPrice(s) != 0.0
    ensures AppliedAll(c, s, before, p, row, [first, second])
            == Applied(c, s, before, p, Applied(c, s, before, p, row, first), second)
  {
    assert [first, second][..1] == [first];
    OneApplied(c, s, before, p, row, first);
  }

  /** A poll sends TP3 alone, or a new target, the stop, or both in that order. */
  lemma EventShapes(c: Settings, s: Signal, preRank: nat, p: Poll)
    ensures var tags, newTp := EventsOf(c, s, preRank, p), NewTp(c, s, p);
            || tags == []
            || (tags == [T.TP3] && newTp == 3)
            || (newTp <= preRank && newTp <= 2 && tags == [T.SL])
            || (preRank < newTp <= 2 && (tags == [TpTag(newTp)] || tags == [TpTag(newTp), T.SL]))
  {
  }

  /** es is was with events of these tags appended. */
  ghost predicate Extends(es: seq<T.Exit>, was: seq<T.Exit>, tags: seq<T.Tag>) {
    && |es| == |was| + |tags| && es[..|was|] == was
    && forall i :: |was| <= i < |es| ==> es[i].tag == tags[i - |was|]
  }

  lemma AppliedShape(c: Settings, s: Signal, before: Row, p: Poll, row: Row, tag: T.Tag)
    requires EntryPrice(s) != 0.0
    ensures var q := Applied(c, s, before, p, row, tag);
            && q.status == StoredStatus(c, tag, EventRank(PreRank(before.status), NewTp(c, s, p), tag))
            && q.filled == row.filled && Extends(q.sent, row.sent, [tag])
            && q.sent[|row.sent|] == T.Exit(tag, p.at, Some(q.pnl))
            && q.maxFavorable == Favorable(c, s, before, p) && q.maxAdverse == Adverse(c, s, before, p)
  {
  }

  lemma ExtendsTwice(es: seq<T.Exit>, mid: seq<T.Exit>, was: seq<T.Exit>, first: T.Tag, second: T.Tag)
    requires Extends(mid, was, [first]) && Extends(es, mid, [second])
    ensures Extends(es, was, [first, second])
  {
    assert es[..|was|] == es[..|mid|][..|was|];
    assert es[|was|] == es[..|mid|][|was|] == mid[|was|];
    assert es[|mid|].tag == second;
  }

  /** The events of a poll are appended to those sent before. */
  lemma EventsAppend(c: Settings, s: Signal, before: Row, p: Poll, row: Row, tags: seq<T.Tag>)
    requires EntryPrice(s) != 0.0 && |tags| <= 2
    ensures Extends(AppliedAll(c, s, before, p, row, tags).sent, row.sent, tags)
  {
    if |tags| == 1 {
      assert tags == [tags[0]];
      OneApplied(c, s, before, p, row, tags[0]);
      AppliedShape(c, s, before, p, row, tags[0]);
    } else if |tags| == 2 {
      assert tags == [tags[0], tags[1]];
      var mid := Applied(c, s, before, p, row, tags[0]);
      TwoApplied(c, s, before, p, row, tags[0], tags[1]);
      AppliedShape(c, s, before, p, row, tags[0]);
      AppliedShape(c, s, before, p, mid, tags[1]);
      ExtendsTwice(Applied(c, s, before, p, mid, tags[1]).sent, mid.sent, row.sent, tags[0], tags[1]);
    }
  }

  /** A poll that gets past the gates. */
  predicate GetsThrough(c: Settings, s: Signal, row: Row, p: Poll) {
    && IsPolled(row.status) && p.price != 0.0 && EntryPrice(s) != 0.0
    && (!c.fillRequired || row.filled || EntryTouched(c, s, p))
  }

  function Opened(c: Settings, row: Row): Row { row.(filled := row.filled || c.fillRequired) }

  lemma ThroughTheGates(c: Settings, s: Signal, row: Row, p: Poll)
    requires GetsThrough(c, s, row, p)
    ensures var tags := EventsOf(c, s, PreRank(row.status), p);
            Checked(c, s, row, p) == if tags == [] then Marked(c, s, Opened(c, row), p)
                                     else AppliedAll(c, s, Opened(c, row), p, Opened(c, row), tags)
  {
  }

  /** What a poll sends: nothing, or the events of a poll that gets through. */
  lemma CheckedExtends(c: Settings, s: Signal, row: Row, p: Poll)
    ensures var es := Checked(c, s, row, p).sent;
            if GetsThrough(c, s, row, p) then Extends(es, row.sent, EventsOf(c, s, PreRank(row.status), p))
            else es == row.sent
  {
    if GetsThrough(c, s, row, p) {
      ThroughTheGates(c, s, row, p);
      EventsAppend(c, s, Opened(c, row), p, Opened(c, row), EventsOf(c, s, PreRank(row.status), p));
    }
  }

  /** A poll with one event. */
  lemma SingleEvent(c: Settings, s: Signal, row: Row, p: Poll, tag: T.Tag)
    requires GetsThrough(c, s, row, p) && EventsOf(c, s, PreRank(row.status), p) == [tag]
    ensures var q := Checked(c, s, row, p);
            && q.status == StoredStatus(c, tag, EventRank(PreRank(row.status), NewTp(c, s, p), tag))
            && q.filled == Opened(c, row).filled && Extends(q.sent, row.sent, [tag])
  {
    ThroughTheGates(c, s, row, p);
    OneApplied(c, s, Opened(c, row), p, Opened(c, row), tag);
    AppliedShape(c, s, Opened(c, row), p, Opened(c, row), tag);
  }

  lemma SingleEventPnl(c: Settings, s: Signal, row: Row, p: Poll, tag: T.Tag)
    requires GetsThrough(c, s, row, p) && EventsOf(c, s, PreRank(row.status), p) == [tag]
    ensures Checked(c, s, row, p).pnl == Realized(c, s, PreRank(row.status), p, tag)
  {
    ThroughTheGates(c, s, row, p);
    OneApplied(c, s, Opened(c, row), p, Opened(c, row), tag);
  }

  // ---- what every run leaves in the row ----

  predicate Recordable(t: T.Tag) { t in {T.TP1, T.TP2, T.TP3, T.SL} }

  /** The status told from the events: the last one, or the highest target for a protected stop. */
  ghost predicate StatusTells(c: Settings, status: T.Tag, es: seq<T.Exit>) {
    if es == [] then status in {T.OPEN, EXPIRED}
    else
      var last, m := es[|es| - 1].tag, T.MaxRank(es);
      if last == T.SL then
        status == (if !c.countProtected || m == 0 then T.SL else if m == 1 then T.TP1
                   else if m == 2 then T.TP2 else T.TP3)
      else status == last && T.Rank(last) == m
  }

  ghost predicate Traced(c: Settings, s: Signal, row: Row, other: map<string, string>) {
    && row.diagnostics == T.Fold(T.Diagnostics(None, other), row.sent)
    && (forall i :: 0 <= i < |row.sent| ==> Recordable(row.sent[i].tag))
    && (row.sent != [] ==> EntryPrice(s) != 0.0 && (c.fillRequired ==> row.filled))
    && StatusTells(c, row.status, row.sent)
  }

  /** A row no longer polled carries the booking of its whole history. */
  ghost predicate Booked(c: Settings, s: Signal, row: Row) {
    c.lifecyclePnl && row.sent != [] && !IsPolled(row.status) ==>
      row.pnl == L.RunPnl(AsLadder(s), PlanOf(c), row.sent)
  }

  lemma MaxRankAppend(es: seq<T.Exit>, e: T.Exit)
    ensures T.MaxRank(es + [e]) == Higher(T.MaxRank(es), T.Rank(e.tag))
  {
    assert (es + [e])[..|es|] == es;
  }

  /** The rank a polled row's status stands for is the highest its events reached. */
  lemma PolledRank(c: Settings, status: T.Tag, es: seq<T.Exit>)
    requires StatusTells(c, status, es) && IsPolled(status)
    ensures PreRank(status) == T.MaxRank(es) <= 2
  {
    T.MaxRankIsMax(es);
  }

  /** One event of a poll: a new highest target, or a stop at the highest reached. */
  lemma AppliedTraced(
    c: Settings, s: Signal, before: Row, p: Poll, row: Row, tag: T.Tag, other: map<string, string>)
    requires EntryPrice(s) != 0.0 && Traced(c, s, row, other) && Recordable(tag)
    requires c.fillRequired ==> row.filled
    requires tag == T.SL || T.Rank(tag) > T.MaxRank(row.sent)
    requires EventRank(PreRank(before.status), NewTp(c, s, p), tag) == Higher(T.MaxRank(row.sent), T.Rank(tag))
    ensures Traced(c, s, Applied(c, s, before, p, row, tag), other)
    ensures tag == T.TP3 || tag == T.SL ==> Booked(c, s, Applied(c, s, before, p, row, tag))
    ensures T.MaxRank(Applied(c, s, before, p, row, tag).sent) == Higher(T.MaxRank(row.sent), T.Rank(tag))
  {
    var q := Applied(c, s, before, p, row, tag);
    var e := q.sent[|row.sent|];
    MaxRankAppend(row.sent, e);
    T.FoldAppend(T.Diagnostics(None, other), row.sent, e);
  }

  /** A target below TP3 leaves the row polled. */
  lemma AppliedTarget(
    c: Settings, s: Signal, before: Row, p: Poll, row: Row, tag: T.Tag, other: map<string, string>)
    requires EntryPrice(s) != 0.0 && (tag == T.TP1 || tag == T.TP2)
    ensures Booked(c, s, Applied(c, s, before, p, row, tag))
  {
  }

  /** The first event of a poll is a new highest target, or a stop below no new one. */
  lemma FirstTag(c: Settings, s: Signal, preRank: nat, p: Poll)
    requires preRank <= 2 && EventsOf(c, s, preRank, p) != []
    ensures var tags := EventsOf(c, s, preRank, p);
            && Recordable(tags[0]) && (tags[0] == T.SL || T.Rank(tags[0]) > preRank)
            && EventRank(preRank, NewTp(c, s, p), tags[0]) == Higher(preRank, T.Rank(tags[0]))
            && (|tags| == 2 ==> tags[0] in {T.TP1, T.TP2} && tags[1] == T.SL
                                && NewTp(c, s, p) == Higher(preRank, T.Rank(tags[0])))
  {
    EventShapes(c, s, preRank, p);
  }

  lemma FirstOfPoll(c: Settings, s: Signal, row: Row, p: Poll, other: map<string, string>, tag: T.Tag)
    requires EntryPrice(s) != 0.0 && Traced(c, s, row, other) && IsPolled(row.status)
    requires (c.fillRequired ==> row.filled) && EventsOf(c, s, PreRank(row.status), p) != []
    requires tag == EventsOf(c, s, PreRank(row.status), p)[0]
    ensures var q := Applied(c, s, row, p, row, tag);
            Traced(c, s, q, other) && Booked(c, s, q)
            && T.MaxRank(q.sent) == Higher(PreRank(row.status), T.Rank(tag))
  {
    PolledRank(c, row.status, row.sent);
    FirstTag(c, s, PreRank(row.status), p);
    AppliedTraced(c, s, row, p, row, tag, other);
    if tag == T.TP1 || tag == T.TP2 {
      AppliedTarget(c, s, row, p, row, tag, other);
    }
  }

  lemma PairTraced(c: Settings, s: Signal, row: Row, p: Poll, other: map<string, string>, tag: T.Tag)
    requires EntryPrice(s) != 0.0 && Traced(c, s, row, other) && IsPolled(row.status)
    requires c.fillRequired ==> row.filled
    requires EventsOf(c, s, PreRank(row.status), p) == [tag, T.SL]
    ensures var q := Applied(c, s, row, p, Applied(c, s, row, p, row, tag), T.SL);
            Traced(c, s, q, other) && Booked(c, s, q)
  {
    PolledRank(c, row.status, row.sent);
    FirstTag(c, s, PreRank(row.status), p);
    FirstOfPoll(c, s, row, p, other, tag);
    AppliedTraced(c, s, row, p, Applied(c, s, row, p, row, tag), T.SL, other);
  }

  /** The events of one poll, in turn. */
  lemma PollTraced(c: Settings, s: Signal, row: Row, p: Poll, other: map<string, string>)
    requires EntryPrice(s) != 0.0 && Traced(c, s, row, other) && IsPolled(row.status)
    requires c.fillRequired ==> row.filled
    ensures var tags := EventsOf(c, s, PreRank(row.status), p);
            var q := AppliedAll(c, s, row, p, row, tags);
            tags != [] ==> Traced(c, s, q, other) && Booked(c, s, q)
  {
    var tags := EventsOf(c, s, PreRank(row.status), p);
    EventShapes(c, s, PreRank(row.status), p);
    if |tags| == 1 {
      assert tags == [tags[0]];
      OneApplied(c, s, row, p, row, tags[0]);
      FirstOfPoll(c, s, row, p, other, tags[0]);
    } else if |tags| == 2 {
      assert tags == [tags[0], T.SL];
      TwoApplied(c, s, row, p, row, tags[0], T.SL);
      PairTraced(c, s, row, p, other, tags[0]);
    }
  }

  lemma CheckedTraced(c: Settings, s: Signal, row: Row, p: Poll, other: map<string, string>)
    requires Traced(c, s, row, other) && Booked(c, s, row)
    ensures Traced(c, s, Checked(c, s, row, p), other) && Booked(c, s, Checked(c, s, row, p))
  {
    if GetsThrough(c, s, row, p) {
      ThroughTheGates(c, s, row, p);
      PollTraced(c, s, Opened(c, row), p, other);
    }
  }

  /** Over every run of polls, under any settings: the diagnostics are the fold of the events sent,
      the status is told by them, and a row no longer polled carries the booking of its whole
      history. */
  lemma {:induction false} TrackedTraced(c: Settings, s: Signal, other: map<string, string>, polls: seq<Poll>)
    ensures Traced(c, s, Tracked(c, s, other, polls), other) && Booked(c, s, Tracked(c, s, other, polls))
  {
    if polls != [] {
      TrackedTraced(c, s, other, polls[..|polls| - 1]);
      CheckedTraced(c, s, Tracked(c, s, other, polls[..|polls| - 1]), polls[|polls| - 1], other);
    }
  }

  lemma TracedIsFresh(c: Settings, s: Signal, row: Row, other: map<string, string>)
    requires Traced(c, s, row, other) && row.sent != []
    ensures var h := T.HistoryOf(row.diagnostics);
            h.outcome == T.Val(T.Classify(row.status, Some(row.pnl), h))
  {
    assert T.Lifecycle(row.sent);
    T.MaxRankIsMax(row.sent);
    T.FreshMatchesStored(row.sent, other, row.status, Some(row.pnl));
  }

  /** Whatever the tracker stored, a fresh classification of the row gives the stored outcome. */
  lemma StoredOutcomeIsFresh(c: Settings, s: Signal, other: map<string, string>, polls: seq<Poll>)
    ensures var row := Tracked(c, s, other, polls);
            var h := T.HistoryOf(row.diagnostics);
            row.sent != [] ==> h.outcome == T.Val(T.Classify(row.status, Some(row.pnl), h))
  {
    TrackedTraced(c, s, other, polls);
    if Tracked(c, s, other, polls).sent != [] {
      TracedIsFresh(c, s, Tracked(c, s, other, polls), other);
    }
  }

  /** A signal no longer polled is booked at the blended profit of its highest target, told from its
      own prices and the settings. */
  lemma ClosedRowsBooked(c: Settings, s: Signal, other: map<string, string>, polls: seq<Poll>)
    requires c.lifecyclePnl && s.entryLow + s.entryHigh > 0.0
    ensures var row := Tracked(c, s, other, polls);
            row.sent != [] && !IsPolled(row.status) ==>
              L.IsBlend(L.Signal(s.side, (s.entryLow + s.entryHigh) / 2.0, s.tp1, s.tp2, s.tp3, s.stopLoss),
                        L.Plan(c.tp1Frac, c.tp2Frac, c.moveToBreakEven), T.MaxRank(row.sent), row.pnl)
  {
    TrackedTraced(c, s, other, polls);
    var row := Tracked(c, s, other, polls);
    if row.sent != [] && !IsPolled(row.status) {
      assert L.Ended(row.sent);
      L.EndedIsFinished(row.sent);
      L.BlendedIs(AsLadder(s), PlanOf(c), T.MaxRank(row.sent), L.FinalOf(row.sent[|row.sent| - 1].tag));
    }
  }

  /** A signal no longer polled is booked as its bucket promises, under protecting settings. */
  lemma ClosedRowsAgree(c: Settings, s: Signal, other: map<string, string>, polls: seq<Poll>)
    requires c.lifecyclePnl && L.Ladder(AsLadder(s)) && L.Protected(PlanOf(c))
    ensures var row := Tracked(c, s, other, polls);
            row.sent != [] && !IsPolled(row.status) ==>
              && (T.StoredBucket(row.diagnostics) == Some(T.WinBucket) ==> row.pnl >= 0.0)
              && (T.StoredBucket(row.diagnostics) == Some(T.LossBucket) ==>
                    row.pnl == Round(L.ReturnsOf(AsLadder(s)).stop, MILLI) <= 0.0)
  {
    TrackedTraced(c, s, other, polls);
    var row := Tracked(c, s, other, polls);
    if row.sent != [] && !IsPolled(row.status) {
      assert L.Ended(row.sent);
      L.PnlAgreesWithWinRate(AsLadder(s), PlanOf(c), row.sent, other);
    }
  }

  // ---- what a poll sends ----

  /** The highest and the lowest price of a poll: the candle's where candles are used and one was
      fetched, otherwise the price itself. */
  ghost function Top(c: Settings, p: Poll): real {
    if c.useExtremes && p.extreme.Some? then p.extreme.value.high else p.price
  }

  ghost function Bottom(c: Settings, p: Poll): real {
    if c.useExtremes && p.extreme.Some? then p.extreme.value.low else p.price
  }

  /** A level in the trade's favour is reached, or a stop against it. */
  ghost predicate Reaches(c: Settings, s: Signal, p: Poll, level: real) {
    if s.side == LONG then Top(c, p) >= level else Bottom(c, p) <= level
  }

  ghost predicate FallsTo(c: Settings, s: Signal, p: Poll, stop: real) {
    if s.side == LONG then Bottom(c, p) <= stop else Top(c, p) >= stop
  }

  /** What a poll of a signal that has reached `rank` sends. TP3 alone, if that is reached. Otherwise
      TP2 or TP1, the higher that is reached, if it is above the rank; and the stop if the price fell
      to the middle of the entry band where a target had been reached and break-even is on, to the
      stop price where not. */
  lemma EventsMean(c: Settings, s: Signal, rank: nat, p: Poll)
    requires rank <= 2
    ensures var tags := EventsOf(c, s, rank, p);
            && (T.TP3 in tags <==> Reaches(c, s, p, s.tp3)) && (T.TP3 in tags ==> tags == [T.TP3])
            && (!Reaches(c, s, p, s.tp3) ==>
                  && (T.TP2 in tags <==> rank < 2 && Reaches(c, s, p, s.tp2))
                  && (T.TP1 in tags <==> rank < 1 && Reaches(c, s, p, s.tp1) && !Reaches(c, s, p, s.tp2))
                  && (T.SL in tags
                      <==> FallsTo(c, s, p, if rank >= 1 && c.moveToBreakEven then (s.entryLow + s.entryHigh) / 2.0
                                            else s.stopLoss))
                  && (T.SL in tags ==> tags[|tags| - 1] == T.SL))
            && (forall t :: t in tags ==> Recordable(t))
  {
  }

  /** A poll acts at all on a signal that is selected, has a price and, where the entry must be filled
      first, is filled or touches the entry band now. */
  lemma GetsThroughIff(c: Settings, s: Signal, row: Row, p: Poll)
    requires s.entryLow + s.entryHigh != 0.0
    ensures GetsThrough(c, s, row, p)
            <==> && row.status in {T.OPEN, T.TP1, T.TP2} && p.price != 0.0
                 && (c.fillRequired && !row.filled ==> Bottom(c, p) <= s.entryHigh && s.entryLow <= Top(c, p))
  {
  }

  /** On every run, after any target: a poll that gets through short of TP3 and falls to the entry
      ends with the stop where break-even is on; where it is off only one that falls to the stop
      price does. */
  lemma TargetMovesTheStop(c: Settings, s: Signal, other: map<string, string>, polls: seq<Poll>, p: Poll)
    ensures var row := Tracked(c, s, other, polls);
            var es := Checked(c, s, row, p).sent;
            T.MaxRank(row.sent) >= 1 && GetsThrough(c, s, row, p) && !Reaches(c, s, p, s.tp3) ==>
              (|es| > |row.sent| && es[|es| - 1].tag == T.SL
               <==> FallsTo(c, s, p, if c.moveToBreakEven then (s.entryLow + s.entryHigh) / 2.0 else s.stopLoss))
  {
    var row := Tracked(c, s, other, polls);
    TrackedTraced(c, s, other, polls);
    CheckedExtends(c, s, row, p);
    if T.MaxRank(row.sent) >= 1 && GetsThrough(c, s, row, p) && !Reaches(c, s, p, s.tp3) {
      PolledRank(c, row.status, row.sent);
      EventsMean(c, s, PreRank(row.status), p);
    }
  }

  // ---- what a poll stores ----

  /** Percent gained from the middle of the entry band. */
  ghost predicate IsGain(s: Signal, price: real, pct: real) {
    var entry := (s.entryLow + s.entryHigh) / 2.0;
    entry != 0.0 && pct == (if s.side == LONG then price - entry else entry - price) / entry * 100.0
  }

  lemma PnlPctIsGain(s: Signal, price: real)
    requires EntryPrice(s) != 0.0
    ensures IsGain(s, price, PnlPct(s, price))
  {
  }

  /** x is the greatest, or the least, of four values, rounded to three places. */
  ghost predicate IsTopOf(x: real, a: real, b: real, c: real, d: real) {
    exists m :: m in {a, b, c, d} && a <= m && b <= m && c <= m && d <= m && IsRounded(x, m, 1000.0)
  }

  ghost predicate IsBottomOf(x: real, a: real, b: real, c: real, d: real) {
    exists m :: m in {a, b, c, d} && a >= m && b >= m && c >= m && d >= m && IsRounded(x, m, 1000.0)
  }

  /** The extremes of profit seen: those stored before, widened by the poll's price, top and bottom. */
  lemma ExtremesWiden(c: Settings, s: Signal, row: Row, p: Poll)
    requires EntryPrice(s) != 0.0
    ensures var a, b, d := PnlPct(s, p.price), PnlPct(s, Top(c, p)), PnlPct(s, Bottom(c, p));
            && IsTopOf(Favorable(c, s, row, p), row.maxFavorable, a, b, d)
            && IsBottomOf(Adverse(c, s, row, p), row.maxAdverse, a, b, d)
  {
    var a, b, d := PnlPct(s, p.price), PnlPct(s, Top(c, p)), PnlPct(s, Bottom(c, p));
    var top := Max(row.maxFavorable, Max(a, Max(b, d)));
    var bottom := Min(row.maxAdverse, Min(a, Min(b, d)));
    RoundIs(top, 1000.0);
    RoundIs(bottom, 1000.0);
    assert top in {row.maxFavorable, a, b, d} && bottom in {row.maxAdverse, a, b, d};
  }

  /** What an event books: a target below TP3 the gain at the poll's price; TP3 or a stop the blended
      profit of the highest target, or without blending the gain at TP3 or at the stop in force. */
  lemma RealizedMeans(c: Settings, s: Signal, rank: nat, p: Poll, tag: T.Tag)
    requires EntryPrice(s) != 0.0 && rank <= 2 && tag in EventsOf(c, s, rank, p)
    ensures var x := Realized(c, s, rank, p, tag);
            var stop := if rank >= 1 && c.moveToBreakEven then (s.entryLow + s.entryHigh) / 2.0 else s.stopLoss;
            && (tag in {T.TP1, T.TP2} ==> IsRounded(x, PnlPct(s, p.price), 1000.0))
            && (tag == T.TP3 && !c.lifecyclePnl ==> IsRounded(x, PnlPct(s, s.tp3), 1000.0))
            && (tag == T.SL && !c.lifecyclePnl ==> IsRounded(x, PnlPct(s, stop), 1000.0))
  {
    EventsMean(c, s, rank, p);
    RoundIs(PnlPct(s, p.price), 1000.0);
    RoundIs(PnlPct(s, s.tp3), 1000.0);
    RoundIs(PnlPct(s, EffectiveStop(c, s, rank)), 1000.0);
  }

  /** Each event a poll sends carries its time; the last one the profit stored; and the extremes are
      widened by the poll. */
  lemma EventPollStores(c: Settings, s: Signal, row: Row, p: Poll)
    requires GetsThrough(c, s, row, p) && EventsOf(c, s, PreRank(row.status), p) != []
    ensures var q := Checked(c, s, row, p);
            && |row.sent| < |q.sent| && (forall i :: |row.sent| <= i < |q.sent| ==> q.sent[i].at == p.at)
            && q.sent[|q.sent| - 1].pnl == Some(q.pnl)
            && q.maxFavorable == Favorable(c, s, row, p) && q.maxAdverse == Adverse(c, s, row, p)
  {
    var tags, live := EventsOf(c, s, PreRank(row.status), p), Opened(c, row);
    ThroughTheGates(c, s, row, p);
    assert Favorable(c, s, live, p) == Favorable(c, s, row, p) && Adverse(c, s, live, p) == Adverse(c, s, row, p);
    if |tags| == 1 {
      assert tags == [tags[0]];
      OneApplied(c, s, live, p, live, tags[0]);
      AppliedShape(c, s, live, p, live, tags[0]);
    } else {
      assert tags == [tags[0], tags[1]];
      var mid := Applied(c, s, live, p, live, tags[0]);
      TwoApplied(c, s, live, p, live, tags[0], tags[1]);
      AppliedShape(c, s, live, p, live, tags[0]);
      AppliedShape(c, s, live, p, mid, tags[1]);
      var q := Applied(c, s, live, p, mid, tags[1]);
      assert q.sent[|row.sent|] == q.sent[..|mid.sent|][|row.sent|];
    }
  }

  lemma RoundsToOnce(n: int, m: int, y: real)
    requires RoundsTo(n, y) && RoundsTo(m, y)
    ensures n == m
  {
  }

  lemma RoundedIsRound(r: real, x: real)
    ensures IsRounded(r, x, 1000.0) <==> r == Round(x, MILLI)
  {
    RoundIs(x, 1000.0);
    if IsRounded(r, x, 1000.0) {
      RoundsToOnce((r * 1000.0).Floor, (Round(x, MILLI) * 1000.0).Floor, x * 1000.0);
    }
  }

  /** A poll that gets through and sends nothing marks to market, unless the profit moved by less than
      the setting and neither extreme changed. */
  lemma QuietMeans(c: Settings, s: Signal, row: Row, p: Poll)
    requires GetsThrough(c, s, row, p) && EventsOf(c, s, PreRank(row.status), p) == []
    ensures var q, now := Checked(c, s, row, p), PnlPct(s, p.price);
            var fav, adv := Favorable(c, s, row, p), Adverse(c, s, row, p);
            && q.status == row.status && q.diagnostics == row.diagnostics && q.sent == row.sent
            && (if Abs(now - row.pnl) < c.minDelta && IsRounded(fav, row.maxFavorable, 1000.0)
                   && IsRounded(adv, row.maxAdverse, 1000.0)
                then q.pnl == row.pnl && q.maxFavorable == row.maxFavorable && q.maxAdverse == row.maxAdverse
                else IsRounded(q.pnl, now, 1000.0) && q.maxFavorable == fav && q.maxAdverse == adv)
  {
    ThroughTheGates(c, s, row, p);
    RoundIs(PnlPct(s, p.price), 1000.0);
    RoundedIsRound(Favorable(c, s, row, p), row.maxFavorable);
    RoundedIsRound(Adverse(c, s, row, p), row.maxAdverse);
  }

  /** A poll that does not get through does nothing, but for two writes: on a selected, priced and
      unfilled signal whose entry must be filled, the entry touched is noted, and a signal past its
      time expires at no profit. */
  lemma GatedMeans(c: Settings, s: Signal, row: Row, p: Poll)
    requires !GetsThrough(c, s, row, p)
    ensures var q := Checked(c, s, row, p);
            var waiting := row.status in {T.OPEN, T.TP1, T.TP2} && p.price != 0.0 && c.fillRequired && !row.filled;
            var touched := Bottom(c, p) <= s.entryHigh && s.entryLow <= Top(c, p);
            if waiting && touched then q == row.(filled := true)
            else if waiting && p.aged then q == row.(status := T.OTHER("EXPIRED"), pnl := 0.0)
            else q == row
  {
  }

  // ---- is a stop final? ----

  /** The stopped rows the tracker goes on polling. */
  ghost predicate StillSelected(c: Settings, es: seq<T.Exit>) {
    c.countProtected && 1 <= T.MaxRank(es) <= 2
  }

  function AtTp3(s: Signal): Poll {
    Poll(if s.tp3 != 0.0 then s.tp3 else if s.side == LONG then 1.0 else -1.0, None, "t", false)
  }

  /** A poll at TP3 sends TP3 on every row still selected and filled. */
  lemma Tp3IsSent(c: Settings, s: Signal, row: Row)
    requires IsPolled(row.status) && EntryPrice(s) != 0.0 && (c.fillRequired ==> row.filled)
    ensures Extends(Checked(c, s, row, AtTp3(s)).sent, row.sent, [T.TP3])
  {
    assert EventsOf(c, s, PreRank(row.status), AtTp3(s)) == [T.TP3];
    CheckedExtends(c, s, row, AtTp3(s));
  }

  /** Of a signal whose last event is a stop: it can receive further events exactly when protected
      stops are stored as wins and its highest target is TP1 or TP2. Every other stopped row is
      never touched again. */
  lemma StoppedRowIsFinalIff(c: Settings, s: Signal, other: map<string, string>, polls: seq<Poll>)
    requires var es := Tracked(c, s, other, polls).sent;
             es != [] && es[|es| - 1].tag == T.SL
    ensures var row := Tracked(c, s, other, polls);
            && ((exists p: Poll :: |Checked(c, s, row, p).sent| > |row.sent|) <==> StillSelected(c, row.sent))
            && ((forall p: Poll :: Checked(c, s, row, p) == row) <==> !StillSelected(c, row.sent))
  {
    TrackedTraced(c, s, other, polls);
    var row := Tracked(c, s, other, polls);
    T.MaxRankIsMax(row.sent);
    if StillSelected(c, row.sent) {
      Tp3IsSent(c, s, row);
      assert Checked(c, s, row, AtTp3(s)) != row;
    } else {
      assert !IsPolled(row.status);
    }
  }

  /** Nothing follows a stop. */
  ghost predicate StopEnds(es: seq<T.Exit>) {
    forall i :: 0 <= i < |es| - 1 ==> es[i].tag != T.SL
  }

  /** Over all signals and all runs of polls, a stop is final. */
  ghost predicate StopsAreFinal(c: Settings) {
    forall s: Signal, other: map<string, string>, polls: seq<Poll> ::
      StopEnds(Tracked(c, s, other, polls).sent)
  }

  lemma StopEndsExtended(es: seq<T.Exit>, was: seq<T.Exit>, tags: seq<T.Tag>)
    requires Extends(es, was, tags) && StopEnds(was) && (was != [] ==> was[|was| - 1].tag != T.SL)
    requires forall i :: 0 <= i < |tags| - 1 ==> tags[i] != T.SL
    ensures StopEnds(es)
  {
    forall i | 0 <= i < |es| - 1
      ensures es[i].tag != T.SL
    {
      if i < |was| {
        assert es[i] == es[..|was|][i];
      } else {
        assert es[i].tag == tags[i - |was|];
      }
    }
  }

  lemma LiveIsNotStopped(c: Settings, status: T.Tag, es: seq<T.Exit>)
    requires !c.countProtected && StatusTells(c, status, es) && IsPolled(status)
    ensures es != [] ==> es[|es| - 1].tag != T.SL
  {
  }

  /** Without the protected-stop setting a poll never adds to a stopped history. */
  lemma StopEndsKept(c: Settings, s: Signal, row: Row, p: Poll, other: map<string, string>)
    requires !c.countProtected && Traced(c, s, row, other) && StopEnds(row.sent)
    ensures StopEnds(Checked(c, s, row, p).sent)
  {
    CheckedExtends(c, s, row, p);
    if GetsThrough(c, s, row, p) {
      EventShapes(c, s, PreRank(row.status), p);
      LiveIsNotStopped(c, row.status, row.sent);
      StopEndsExtended(Checked(c, s, row, p).sent, row.sent, EventsOf(c, s, PreRank(row.status), p));
    }
  }

  lemma {:induction false} StopEndsTracked(c: Settings, s: Signal, other: map<string, string>, polls: seq<Poll>)
    requires !c.countProtected
    ensures StopEnds(Tracked(c, s, other, polls).sent)
  {
    if polls != [] {
      var init := polls[..|polls| - 1];
      StopEndsTracked(c, s, other, init);
      TrackedTraced(c, s, other, init);
      StopEndsKept(c, s, Tracked(c, s, other, init), polls[|polls| - 1], other);
    }
  }

  // ---- the run that shows it ----

  const SAMPLE := Signal(LONG, 100.0, 100.0, 102.0, 104.0, 107.0, 98.0)

  function At(price: real): Poll { Poll(price, None, "t", false) }

  lemma TrackedSnoc(c: Settings, s: Signal, other: map<string, string>, polls: seq<Poll>, p: Poll)
    ensures Tracked(c, s, other, polls + [p]) == Checked(c, s, Tracked(c, s, other, polls), p)
  {
    assert (polls + [p])[..|polls|] == polls;
  }

  /** A live row of the sample signal. */
  ghost predicate Live(c: Settings, row: Row, status: T.Tag) {
    row.status == status && (c.fillRequired ==> row.filled)
  }

  /** Price at the entry fills the order, and nothing else. */
  lemma Fills(c: Settings, other: map<string, string>)
    ensures var q := Checked(c, SAMPLE, Start(other), At(100.0));
            Live(c, q, T.OPEN) && q.sent == []
  {
    assert EventsOf(c, SAMPLE, 0, At(100.0)) == [];
    ThroughTheGates(c, SAMPLE, Start(other), At(100.0));
  }

  lemma HitsTp1(c: Settings, row: Row)
    requires Live(c, row, T.OPEN)
    ensures var q := Checked(c, SAMPLE, row, At(102.0));
            Live(c, q, T.TP1) && Extends(q.sent, row.sent, [T.TP1])
  {
    assert EventsOf(c, SAMPLE, 0, At(102.0)) == [T.TP1];
    SingleEvent(c, SAMPLE, row, At(102.0), T.TP1);
  }

  lemma StopEvents(c: Settings)
    ensures EventsOf(c, SAMPLE, 1, At(98.0)) == [T.SL] && NewTp(c, SAMPLE, At(98.0)) == 0
  {
  }

  lemma HitsStop(c: Settings, row: Row)
    requires Live(c, row, T.TP1) && c.countProtected
    ensures var q := Checked(c, SAMPLE, row, At(98.0));
            Live(c, q, T.TP1) && Extends(q.sent, row.sent, [T.SL])
  {
    StopEvents(c);
    SingleEvent(c, SAMPLE, row, At(98.0), T.SL);
  }

  const RISE_AND_FALL: seq<Poll> := [At(100.0)] + [At(102.0)] + [At(98.0)]

  lemma SampleReachesTp1(c: Settings, other: map<string, string>)
    ensures var row := Tracked(c, SAMPLE, other, [At(100.0)] + [At(102.0)]);
            Live(c, row, T.TP1) && Extends(row.sent, [], [T.TP1])
  {
    TrackedSnoc(c, SAMPLE, other, [], At(100.0));
    assert [] + [At(100.0)] == [At(100.0)];
    Fills(c, other);
    TrackedSnoc(c, SAMPLE, other, [At(100.0)], At(102.0));
    HitsTp1(c, Tracked(c, SAMPLE, other, [At(100.0)]));
  }

  /** TP1 and then the stop, stored as TP1. */
  lemma SampleIsStopped(c: Settings, other: map<string, string>)
    requires c.countProtected
    ensures var row := Tracked(c, SAMPLE, other, RISE_AND_FALL);
            Live(c, row, T.TP1) && Extends(row.sent, [], [T.TP1, T.SL])
  {
    SampleReachesTp1(c, other);
    var row := Tracked(c, SAMPLE, other, [At(100.0)] + [At(102.0)]);
    TrackedSnoc(c, SAMPLE, other, [At(100.0)] + [At(102.0)], At(98.0));
    HitsStop(c, row);
    ExtendsTwice(Tracked(c, SAMPLE, other, RISE_AND_FALL).sent, row.sent, [], T.TP1, T.SL);
  }

  lemma FullWinAtTp3(c: Settings, s: Signal, row: Row, other: map<string, string>)
    requires Traced(c, s, row, other) && row.sent != [] && row.sent[|row.sent| - 1].tag == T.TP3
    ensures T.HistoryOf(row.diagnostics).outcome == T.Val(T.FullWin)
  {
    assert T.Lifecycle(row.sent);
    T.StoredVerdict(row.sent, other);
  }

  lemma ExtendsMore(es: seq<T.Exit>, mid: seq<T.Exit>, tags: seq<T.Tag>, last: T.Tag)
    requires Extends(mid, [], tags) && Extends(es, mid, [last])
    ensures Extends(es, [], tags + [last])
  {
    forall i | 0 <= i < |es|
      ensures es[i].tag == (tags + [last])[i]
    {
      if i < |mid| {
        assert es[i] == es[..|mid|][i] == mid[i];
      }
    }
  }

  /** The same signal then runs to TP3. */
  lemma SampleResumes(c: Settings, other: map<string, string>)
    requires c.countProtected
    ensures Extends(Tracked(c, SAMPLE, other, RISE_AND_FALL + [AtTp3(SAMPLE)]).sent, [], [T.TP1, T.SL] + [T.TP3])
  {
    SampleIsStopped(c, other);
    var stopped := Tracked(c, SAMPLE, other, RISE_AND_FALL);
    TrackedSnoc(c, SAMPLE, other, RISE_AND_FALL, AtTp3(SAMPLE));
    Tp3IsSent(c, SAMPLE, stopped);
    ExtendsMore(Tracked(c, SAMPLE, other, RISE_AND_FALL + [AtTp3(SAMPLE)]).sent, stopped.sent, [T.TP1, T.SL], T.TP3);
  }

  /** A protected stop is followed by TP3, and the stopped trade becomes a full win. */
  lemma StoppedSignalBecomesFullWin(c: Settings, other: map<string, string>)
    requires c.countProtected
    ensures var row := Tracked(c, SAMPLE, other, RISE_AND_FALL + [AtTp3(SAMPLE)]);
            && |row.sent| == 3 && row.sent[0].tag == T.TP1 && row.sent[1].tag == T.SL && row.sent[2].tag == T.TP3
            && T.HistoryOf(row.diagnostics).outcome == T.Val(T.FullWin)
  {
    var polls := RISE_AND_FALL + [AtTp3(SAMPLE)];
    SampleResumes(c, other);
    TrackedTraced(c, SAMPLE, other, polls);
    FullWinAtTp3(c, SAMPLE, Tracked(c, SAMPLE, other, polls), other);
  }

  /** A stop ends the events of every signal exactly when protected stops are not stored as wins. */
  lemma StopsAreFinalIff(c: Settings)
    ensures StopsAreFinal(c) <==> !c.countProtected
  {
    if c.countProtected {
      StoppedSignalBecomesFullWin(c, map[]);
      assert !StopEnds(Tracked(c, SAMPLE, map[], RISE_AND_FALL + [AtTp3(SAMPLE)]).sent);
    } else {
      forall s: Signal, other: map<string, string>, polls: seq<Poll>
        ensures StopEnds(Tracked(c, s, other, polls).sent)
      {
        StopEndsTracked(c, s, other, polls);
      }
    }
  }

  // ---- and is its booking? ----

  /** The shipped settings. */
  const DEFAULTS := Settings(true, true, true, true, true, 0.3, 0.3, 0.05)

  lemma SixTenths()
    ensures Realized(DEFAULTS, SAMPLE, 1, At(98.0), T.SL) == 0.6
  {
    var r := L.ReturnsOf(AsLadder(SAMPLE));
    assert r.tp1 == 2.0;
    assert L.Blend(r, PlanOf(DEFAULTS), 1, L.SL) == 0.6;
    RoundExact(0.6, MILLI, 600);
    StopEvents(DEFAULTS);
  }

  lemma StopBooksSixTenths(row: Row)
    requires Live(DEFAULTS, row, T.TP1)
    ensures Checked(DEFAULTS, SAMPLE, row, At(98.0)).pnl == 0.6
  {
    StopEvents(DEFAULTS);
    SingleEventPnl(DEFAULTS, SAMPLE, row, At(98.0), T.SL);
    SixTenths();
  }

  lemma QuietPollMarks(row: Row)
    requires Live(DEFAULTS, row, T.TP1) && row.pnl == 0.6
    ensures var q := Checked(DEFAULTS, SAMPLE, row, At(101.0));
            q.pnl == 1.0 && q.sent == row.sent
  {
    assert EventsOf(DEFAULTS, SAMPLE, 1, At(101.0)) == [];
    ThroughTheGates(DEFAULTS, SAMPLE, row, At(101.0));
    assert PnlPct(SAMPLE, 101.0) == 1.0;
    RoundExact(1.0, MILLI, 1000);
  }

  /** Under the shipped settings a protected stop books +0.6, and the next quiet poll overwrites it
      with the mark-to-market +1.0 of a position that no longer exists. */
  lemma StopBookingIsOverwritten(other: map<string, string>)
    ensures var before, after := Tracked(DEFAULTS, SAMPLE, other, RISE_AND_FALL),
                                 Tracked(DEFAULTS, SAMPLE, other, RISE_AND_FALL + [At(101.0)]);
            && before.sent == after.sent && Extends(before.sent, [], [T.TP1, T.SL])
            && before.pnl == 0.6 && after.pnl == 1.0
  {
    SampleReachesTp1(DEFAULTS, other);
    SampleIsStopped(DEFAULTS, other);
    var before := Tracked(DEFAULTS, SAMPLE, other, RISE_AND_FALL);
    TrackedSnoc(DEFAULTS, SAMPLE, other, [At(100.0)] + [At(102.0)], At(98.0));
    StopBooksSixTenths(Tracked(DEFAULTS, SAMPLE, other, [At(100.0)] + [At(102.0)]));
    TrackedSnoc(DEFAULTS, SAMPLE, other, RISE_AND_FALL, At(101.0));
    QuietPollMarks(before);
  }
}
