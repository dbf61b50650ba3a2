/** What a replay is, told from the bars and the collaborators alone: which candles are
    considered, what is bought at each, and which chances are taken. */
module ReplayMeaning {
  import opened Common
  import opened MarketBars
  import opened ExitScan
  import opened Mtf
  import opened Replay

  // ---- which candles ----

  /** The window holds the candles that close from the start on and before the end, after the
      first 250, which only warm the indicators up. */
  lemma WindowIff(data: Dataset, startTs: int, endTs: int, i: nat)
    requires Chronological(data.m15) && i < |data.m15|
    ensures WindowStart(data, startTs) <= i < WindowEnd(data, endTs)
            <==> i >= 250 && startTs <= data.m15[i].closeTime < endTs
  {
    SearchLeftSplits(data.m15, startTs, 0, |data.m15|);
    SearchLeftSplits(data.m15, endTs, 0, |data.m15|);
  }

  /** The candles of the window. */
  ghost function Candles(data: Dataset, startTs: int, endTs: int): set<int> {
    set i | 250 <= i < |data.m15| && startTs <= data.m15[i].closeTime < endTs
  }

  ghost function Between(lo: int, hi: int): set<int>
    decreases hi - lo
  {
    if lo >= hi then {} else Between(lo, hi - 1) + {hi - 1}
  }

  lemma {:induction false} BetweenSize(lo: int, hi: int)
    ensures forall i :: i in Between(lo, hi) <==> lo <= i < hi
    ensures |Between(lo, hi)| == if lo <= hi then hi - lo else 0
    decreases hi - lo
  {
    if lo < hi {
      BetweenSize(lo, hi - 1);
    }
  }

  lemma CandlesAreBetween(data: Dataset, startTs: int, endTs: int)
    requires Chronological(data.m15)
    ensures Candles(data, startTs, endTs) == Between(WindowStart(data, startTs), WindowEnd(data, endTs))
  {
    BetweenSize(WindowStart(data, startTs), WindowEnd(data, endTs));
    forall i: nat | i < |data.m15|
      ensures i in Candles(data, startTs, endTs) <==> WindowStart(data, startTs) <= i < WindowEnd(data, endTs)
    {
      WindowIff(data, startTs, endTs, i);
    }
  }

  /** How a replay ends: without data if a timeframe has none; otherwise without a window if no candle
      is in it; otherwise having scanned every candle of the window and signalled every trade, unless a
      division by zero ended it. */
  lemma ReplayEnds(st: Strategy, data: Dataset, startTs: int, endTs: int)
    requires Chronological(data.m15)
    ensures var r := NaiveReplay(st, data, startTs, endTs);
            var empty := data.m15 == [] || data.h1 == [] || data.h4 == [] || data.d1 == [];
            && (r.NoData? <==> empty)
            && (r.NarrowWindow? <==> !empty && Candles(data, startTs, endTs) == {})
            && (r.Replayed? ==> r.scanned == |Candles(data, startTs, endTs)| && r.signals == |r.trades|)
  {
    var lo, hi := WindowStart(data, startTs), WindowEnd(data, endTs);
    CandlesAreBetween(data, startTs, endTs);
    BetweenSize(lo, hi);
    if lo < hi {
      assert lo in Between(lo, hi);
    }
  }

  /** The loop raises only at a candle that offers a chance at a price of zero. */
  lemma {:induction false} RaisesAtZero(opener: nat -> Opening, lo: nat, hi: nat)
    requires lo <= hi
    ensures Fold(opener, lo, hi).raised ==> exists i: nat :: lo <= i < hi && opener(i) == Raises
    decreases hi
  {
    if lo < hi {
      RaisesAtZero(opener, lo, hi - 1);
    }
  }

  // ---- what is seen at a candle ----

  /** The 250 latest of these bars, or all of them. */
  function Latest(bars: seq<Bar>): seq<Bar> {
    if |bars| <= 250 then bars else bars[|bars| - 250..]
  }

  /** A higher timeframe's snapshot from the bars closed so far: none before the sixtieth. */
  function View(st: Strategy, tf: Timeframe, closed: seq<Bar>): Option<Snapshot> {
    if |closed| < 60 then None else st.build(tf, Latest(closed))
  }

  lemma LatestOfPrefix(bars: seq<Bar>, n: nat)
    requires n <= |bars|
    ensures Latest(bars[..n]) == bars[(if n < 250 then 0 else n - 250)..n]
  {
    assert |bars[..n]| == n;
    if n > 250 {
      assert bars[..n][n - 250..] == bars[n - 250..n];
    } else if n == 250 {
      assert bars[..n] == bars[0..n];
    }
  }

  lemma HigherSnapshotIsView(st: Strategy, tf: Timeframe, bars: seq<Bar>, ts: int)
    requires Chronological(bars)
    ensures HigherSnapshot(st, tf, bars, ClosedCount(bars, ts)) == View(st, tf, ClosedBy(bars, ts))
  {
    ClosedCountIsPrefix(bars, ts);
    LatestOfPrefix(bars, ClosedCount(bars, ts));
    assert |ClosedBy(bars, ts)| == ClosedCount(bars, ts);
  }

  lemma EntrySnapshotIsLatest(st: Strategy, bars: seq<Bar>, i: nat)
    requires i < |bars|
    ensures EntrySnapshot(st, bars, i) == st.build(M15, Latest(bars[..i + 1]))
  {
    LatestOfPrefix(bars, i + 1);
  }

  /** A chance to enter at candle i: the bars closed by its close give four snapshots, the pipeline
      accepts them, and levels are found on the decision's side. */
  ghost predicate IsChance(st: Strategy, data: Dataset, i: nat, e: Entry)
    requires i < |data.m15|
  {
    var ts := data.m15[i].closeTime;
    var d1, h4 := View(st, D1, ClosedBy(data.d1, ts)), View(st, H4, ClosedBy(data.h4, ts));
    var h1, m15 := View(st, H1, ClosedBy(data.h1, ts)), st.build(M15, Latest(data.m15[..i + 1]));
    && d1.Some? && h4.Some? && h1.Some? && m15.Some?
    && st.evaluate(map[D1 := d1.value, H4 := h4.value, H1 := h1.value, M15 := m15.value]) == Accepted(e.decision)
    && st.levels(m15.value, e.decision.side) == Some(e.levels)
    && e.index == i && e.time == data.m15[i].openTime && e.price == data.m15[i].close
  }

  lemma OfferIff(
    st: Strategy, i: nat, bar: Bar, e: Entry,
    d1: Option<Snapshot>, h4: Option<Snapshot>, h1: Option<Snapshot>, m15: Option<Snapshot>)
    ensures Offer(st, i, bar, d1, h4, h1, m15) == Some(e)
            <==> && d1.Some? && h4.Some? && h1.Some? && m15.Some?
                 && st.evaluate(map[D1 := d1.value, H4 := h4.value, H1 := h1.value, M15 := m15.value])
                    == Accepted(e.decision)
                 && st.levels(m15.value, e.decision.side) == Some(e.levels)
                 && e.index == i && e.time == bar.openTime && e.price == bar.close
  {
  }

  /** The naive replay finds an entry exactly where there is a chance, and that one. */
  lemma OpportunityIff(st: Strategy, data: Dataset, i: nat, e: Entry)
    requires i < |data.m15| && Chronological(data.d1) && Chronological(data.h4) && Chronological(data.h1)
    ensures Opportunity(st, data, i) == Some(e) <==> IsChance(st, data, i, e)
  {
    var ts := data.m15[i].closeTime;
    HigherSnapshotIsView(st, D1, data.d1, ts);
    HigherSnapshotIsView(st, H4, data.h4, ts);
    HigherSnapshotIsView(st, H1, data.h1, ts);
    EntrySnapshotIsLatest(st, data.m15, i);
    OfferIff(st, i, data.m15[i], e, View(st, D1, ClosedBy(data.d1, ts)), View(st, H4, ClosedBy(data.h4, ts)),
             View(st, H1, ClosedBy(data.h1, ts)), st.build(M15, Latest(data.m15[..i + 1])));
  }

  // ---- which chances are taken ----

  /** Some trade is held at candle i: entered at or before it, and not closed before it. */
  ghost predicate Held(trades: seq<Trade>, i: nat) {
    exists a :: 0 <= a < |trades| && trades[a].entry.index <= i <= trades[a].exit.index
  }

  lemma HeldGrows(trades: seq<Trade>, t: Trade, i: nat)
    ensures Held(trades + [t], i) <==> Held(trades, i) || t.entry.index <= i <= t.exit.index
  {
    var all := trades + [t];
    assert all[|trades|] == t;
    assert forall a :: 0 <= a < |trades| ==> all[a] == trades[a];
  }

  ghost predicate InPlace(opener: nat -> Opening) {
    forall i: nat {:trigger opener(i)} ::
      opener(i).Opens? ==> opener(i).trade.entry.index == i <= opener(i).trade.exit.index
  }

  /** The candles from lo up to hi at which the loop, not having raised, is blocked are those at
      which a trade is held. */
  lemma {:induction false} BlockedIsHeld(opener: nat -> Opening, lo: nat, hi: nat, i: nat)
    requires lo <= hi <= i && InPlace(opener)
    ensures var s := Fold(opener, lo, hi);
            i <= s.blocked <==> Held(s.trades, i)
    decreases hi
  {
    if lo < hi {
      BlockedIsHeld(opener, lo, hi - 1, i);
      FoldDisjoint(opener, lo, hi - 1);
      var s := Fold(opener, lo, hi - 1);
      if !s.raised && hi - 1 > s.blocked && opener(hi - 1).Opens? {
        HeldGrows(s.trades, opener(hi - 1).trade, i);
      }
    }
  }

  /** Every candle of a run that did not raise: what it offers is taken unless a trade is held, and
      then by the trade that is. */
  lemma {:induction false} OffersAreTaken(opener: nat -> Opening, lo: nat, hi: nat, i: nat)
    requires lo <= i < hi && InPlace(opener) && opener(i) != Nothing && !Fold(opener, lo, hi).raised
    ensures Held(Fold(opener, lo, hi).trades, i)
    decreases hi
  {
    var s := Fold(opener, lo, hi - 1);
    if i < hi - 1 {
      OffersAreTaken(opener, lo, hi - 1, i);
      if hi - 1 > s.blocked && opener(hi - 1).Opens? {
        HeldGrows(s.trades, opener(hi - 1).trade, i);
      }
    } else {
      BlockedIsHeld(opener, lo, hi - 1, i);
      if i > s.blocked {
        HeldGrows(s.trades, opener(i).trade, i);
      }
    }
  }

  lemma {:induction false} TradesAreOffers(opener: nat -> Opening, lo: nat, hi: nat)
    requires lo <= hi && InPlace(opener)
    ensures forall a :: 0 <= a < |Fold(opener, lo, hi).trades| ==>
              var t := Fold(opener, lo, hi).trades[a];
              opener(t.entry.index) == Opens(t)
    decreases hi
  {
    if lo < hi {
      TradesAreOffers(opener, lo, hi - 1);
    }
  }

  ghost predicate Taken(st: Strategy, data: Dataset, startTs: int, endTs: int, trades: seq<Trade>) {
    && (forall a :: 0 <= a < |trades| ==>
          var t := trades[a];
          && t.entry.index < |data.m15| && IsChance(st, data, t.entry.index, t.entry)
          && startTs <= data.m15[t.entry.index].closeTime < endTs && t.entry.index >= 250
          && Placed(data, t.entry.index, t))
    && (forall a, b :: 0 <= a < b < |trades| ==> trades[a].exit.index < trades[b].entry.index)
  }

  lemma OpenerInPlace(st: Strategy, data: Dataset)
    ensures InPlace(Opener(st, data))
  {
    forall i: nat | Opener(st, data)(i).Opens?
      ensures Opener(st, data)(i).trade.entry.index == i <= Opener(st, data)(i).trade.exit.index
    {
      TradePlaced(st, data, i);
    }
  }

  /** Where a replay gets to the end: every trade is a chance of a candle of the window, entered and
      closed as told, one at a time; and every chance of the window is taken, or falls while a trade
      is held. These clauses fix the list of trades. */
  lemma ReplayTakesEveryChance(st: Strategy, data: Dataset, startTs: int, endTs: int)
    requires Chronological(data.m15) && Chronological(data.d1) && Chronological(data.h4) && Chronological(data.h1)
    ensures var r := NaiveReplay(st, data, startTs, endTs);
            && Taken(st, data, startTs, endTs, TradesMade(r))
            && (r.Replayed? ==>
                  forall i: nat, e: Entry ::
                    i < |data.m15| && i >= 250 && startTs <= data.m15[i].closeTime < endTs && IsChance(st, data, i, e)
                    ==> Held(r.trades, i))
  {
    var r, opener := NaiveReplay(st, data, startTs, endTs), Opener(st, data);
    var lo, hi := WindowStart(data, startTs), WindowEnd(data, endTs);
    ReplayDisciplined(st, data, startTs, endTs);
    OpenerInPlace(st, data);
    if TradesMade(r) != [] || r.Replayed? {
      TradesAreOffers(opener, lo, hi);
      forall a | 0 <= a < |TradesMade(r)|
        ensures var t := TradesMade(r)[a];
                && t.entry.index < |data.m15| && IsChance(st, data, t.entry.index, t.entry)
                && startTs <= data.m15[t.entry.index].closeTime < endTs && t.entry.index >= 250
      {
        var t := TradesMade(r)[a];
        OpportunityIff(st, data, t.entry.index, t.entry);
        WindowIff(data, startTs, endTs, t.entry.index);
      }
    }
    if r.Replayed? {
      forall i: nat, e: Entry |
        i < |data.m15| && i >= 250 && startTs <= data.m15[i].closeTime < endTs && IsChance(st, data, i, e)
        ensures Held(r.trades, i)
      {
        WindowIff(data, startTs, endTs, i);
        OpportunityIff(st, data, i, e);
        OffersAreTaken(opener, lo, hi, i);
      }
    }
  }
}
