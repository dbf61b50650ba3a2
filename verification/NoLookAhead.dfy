/** The replay never looks ahead: what it enters by candle k depends only on bars that
    had closed by candle k, although exits are found by scanning forward. */
module NoLookAhead {
  import opened Common
  import opened MarketBars
  import opened ExitScan
  import opened Mtf
  import opened Replay

  ghost predicate Timely(d: Dataset) {
    Chronological(d.m15) && Chronological(d.h1) && Chronological(d.h4) && Chronological(d.d1)
  }

  /** At time t the two histories look the same on every timeframe. */
  ghost predicate SeesSame(a: Dataset, b: Dataset, t: int) {
    && ClosedBy(a.m15, t) == ClosedBy(b.m15, t)
    && ClosedBy(a.h1, t) == ClosedBy(b.h1, t)
    && ClosedBy(a.h4, t) == ClosedBy(b.h4, t)
    && ClosedBy(a.d1, t) == ClosedBy(b.d1, t)
  }

  /** Entries made at candles up to and including k. */
  ghost function EntriesUpTo(trades: seq<Trade>, k: nat): seq<Entry> {
    if trades == [] then []
    else
      var last := trades[|trades| - 1].entry;
      EntriesUpTo(trades[..|trades| - 1], k) + (if last.index <= k then [last] else [])
  }

  ghost function ReplayEntries(st: Strategy, d: Dataset, startTs: int, endTs: int, k: nat): seq<Entry>
  {
    EntriesUpTo(TradesMade(NaiveReplay(st, d, startTs, endTs)), k)
  }

  lemma SharedPrefix(a: seq<Bar>, b: seq<Bar>, k: nat)
    requires Chronological(a) && Chronological(b) && k < |a|
    requires ClosedBy(a, a[k].closeTime) == ClosedBy(b, a[k].closeTime)
    ensures k < |b| && a[..k + 1] == b[..k + 1]
  {
    var t := a[k].closeTime;
    ClosedByOwnClose(a, k);
    ClosedCountIsPrefix(b, t);
    var seen := ClosedBy(b, t);
    assert seen == b[..ClosedCount(b, t)] && k < |seen|;
    assert a[..k + 1] == seen[..k + 1] == b[..k + 1];
  }

  lemma SharedSlice(a: seq<Bar>, b: seq<Bar>, n: nat, from: nat, to: nat)
    requires from <= to <= n <= |a| && n <= |b| && a[..n] == b[..n]
    ensures a[from..to] == b[from..to]
  {
  }

  lemma SameHigherSnapshot(st: Strategy, tf: Timeframe, a: seq<Bar>, b: seq<Bar>, early: int, late: int)
    requires Chronological(a) && Chronological(b) && early <= late
    requires ClosedBy(a, late) == ClosedBy(b, late)
    ensures HigherSnapshot(st, tf, a, ClosedCount(a, early)) == HigherSnapshot(st, tf, b, ClosedCount(b, early))
  {
    ClosedByEarlier(a, early, late);
    ClosedByEarlier(b, early, late);
    ClosedCountIsPrefix(a, early);
    ClosedCountIsPrefix(b, early);
    var n := ClosedCount(a, early);
    assert |a[..n]| == n && |b[..ClosedCount(b, early)]| == ClosedCount(b, early);
    var from := if n < SNAP_WINDOW then 0 else n - SNAP_WINDOW;
    SharedSlice(a, b, n, from, n);
  }

  lemma SameEntrySnapshot(st: Strategy, a: seq<Bar>, b: seq<Bar>, k: nat, i: nat)
    requires i <= k < |a| && k < |b| && a[..k + 1] == b[..k + 1]
    ensures a[i] == b[i] && EntrySnapshot(st, a, i) == EntrySnapshot(st, b, i)
  {
    assert a[i] == a[..k + 1][i] == b[..k + 1][i] == b[i];
    var from := if i + 1 < SNAP_WINDOW then 0 else i + 1 - SNAP_WINDOW;
    SharedSlice(a, b, k + 1, from, i + 1);
  }

  /** The same opportunity is found at every candle both histories share. */
  lemma SameOpportunity(st: Strategy, a: Dataset, b: Dataset, k: nat, i: nat)
    requires Timely(a) && Timely(b) && i <= k < |a.m15|
    requires SeesSame(a, b, a.m15[k].closeTime)
    ensures k < |b.m15| && Opportunity(st, a, i) == Opportunity(st, b, i)
  {
    SharedPrefix(a.m15, b.m15, k);
    SameEntrySnapshot(st, a.m15, b.m15, k, i);
    var early, late := a.m15[i].closeTime, a.m15[k].closeTime;
    SameHigherSnapshot(st, D1, a.d1, b.d1, early, late);
    SameHigherSnapshot(st, H4, a.h4, b.h4, early, late);
    SameHigherSnapshot(st, H1, a.h1, b.h1, early, late);
  }

  ghost function UpTo(x: int, k: nat): int { if x < k then x else k }

  /** As seen from candle k, a trade blocks the same candles in both histories. */
  lemma SameBlocking(side: Side, lv: Levels, a: seq<Bar>, b: seq<Bar>, k: nat, start: nat)
    requires 0 < start <= k + 1 <= |a| && k < |b| && a[..k + 1] == b[..k + 1]
    ensures UpTo(ExitOf(start, side, lv, a).index, k) == UpTo(ExitOf(start, side, lv, b).index, k)
  {
    assert forall m :: 0 <= m <= k ==> a[m] == a[..k + 1][m] == b[m];
    var endA, endB := ScanEnd(start, |a|), ScanEnd(start, |b|);
    var ra, rb := FirstTouch(side, lv, a, start, endA), FirstTouch(side, lv, b, start, endB);
    if ra <= k && ra < endA {
      assert Touch(side, lv, b[ra]).Some?;
      assert rb == ra;
    }
  }

  lemma SameWindowEdge(a: seq<Bar>, b: seq<Bar>, k: nat, ts: int)
    requires Chronological(a) && Chronological(b)
    requires k < |a| && k < |b| && a[..k + 1] == b[..k + 1]
    ensures UpTo(FirstClosingAt(a, ts), k + 1) == UpTo(FirstClosingAt(b, ts), k + 1)
  {
    assert forall m :: 0 <= m <= k ==> a[m] == a[..k + 1][m] == b[m];
    SearchLeftSplits(a, ts, 0, |a|);
    SearchLeftSplits(b, ts, 0, |b|);
    var i, j := FirstClosingAt(a, ts), FirstClosingAt(b, ts);
    if i <= k {
      assert b[i].closeTime >= ts;
    }
    if j <= k {
      assert a[j].closeTime >= ts;
    }
  }

  /** What two histories open at the same candle looks the same from candle k. */
  ghost predicate SameFrom(o: Opening, o': Opening, k: nat) {
    match o
    case Opens(t) =>
      o'.Opens? && t.entry == o'.trade.entry && UpTo(t.exit.index, k) == UpTo(o'.trade.exit.index, k)
    case _ => o == o'
  }

  lemma SameTrade(st: Strategy, a: Dataset, b: Dataset, k: nat, i: nat)
    requires Timely(a) && Timely(b) && i <= k < |a.m15|
    requires SeesSame(a, b, a.m15[k].closeTime)
    ensures k < |b.m15| && SameFrom(TradeAt(st, a, i), TradeAt(st, b, i), k)
  {
    SameOpportunity(st, a, b, k, i);
    var opportunity := Opportunity(st, a, i);
    if opportunity.Some? {
      SharedPrefix(a.m15, b.m15, k);
      SameBlocking(opportunity.value.decision.side, opportunity.value.levels, a.m15, b.m15, k, i + 1);
    }
  }

  /** The two runs agree, at candle i, on everything that matters up to candle k. */
  ghost predicate Aligned(s: Progress, s': Progress, k: nat) {
    EntriesUpTo(s.trades, k) == EntriesUpTo(s'.trades, k) && UpTo(s.blocked, k) == UpTo(s'.blocked, k)
    && s.raised == s'.raised
  }

  lemma AlignedNext(f: nat -> Opening, g: nat -> Opening, k: nat, lo: nat, i: nat)
    requires lo <= i <= k && SameFrom(f(i), g(i), k)
    requires Aligned(Fold(f, lo, i), Fold(g, lo, i), k)
    ensures Aligned(Fold(f, lo, i + 1), Fold(g, lo, i + 1), k)
  {
  }

  lemma {:induction false} FoldsAligned(f: nat -> Opening, g: nat -> Opening, k: nat, lo: nat, i: nat)
    requires lo <= i <= k + 1
    requires forall j: nat {:trigger SameFrom(f(j), g(j), k)} :: j <= k ==> SameFrom(f(j), g(j), k)
    ensures Aligned(Fold(f, lo, i), Fold(g, lo, i), k)
    decreases i
  {
    if lo < i {
      FoldsAligned(f, g, k, lo, i - 1);
      AlignedNext(f, g, k, lo, i - 1);
    }
  }

  /** Candles after k add no entry at or before k. */
  lemma LaterCandlesAddNothing(f: nat -> Opening, k: nat, lo: nat, m: nat, hi: nat)
    requires lo <= m <= hi && (m > k || m == hi)
    requires forall i: nat {:trigger f(i)} :: f(i).Opens? ==> f(i).trade.entry.index == i
    ensures EntriesUpTo(Fold(f, lo, hi).trades, k) == EntriesUpTo(Fold(f, lo, m).trades, k)
  {
  }

  lemma {:induction false} NothingOpens(f: nat -> Opening, lo: nat, hi: nat)
    requires lo <= hi && forall i: nat :: f(i) == Nothing
    ensures Fold(f, lo, hi) == FRESH
    decreases hi
  {
    if lo < hi {
      NothingOpens(f, lo, hi - 1);
    }
  }

  lemma OpensInPlace(st: Strategy, d: Dataset)
    ensures forall i: nat :: Opener(st, d)(i).Opens? ==> Opener(st, d)(i).trade.entry.index == i
    ensures d.h1 == [] || d.h4 == [] || d.d1 == [] ==> forall i: nat :: Opener(st, d)(i) == Nothing
  {
  }

  /** The replay's entries by candle k, as a fold over the candles of the window up to k. */
  lemma EntriesByFold(st: Strategy, d: Dataset, startTs: int, endTs: int, k: nat)
    requires k < |d.m15|
    ensures var lo, m := WindowStart(d, startTs), UpTo(WindowEnd(d, endTs), k + 1);
            ReplayEntries(st, d, startTs, endTs, k)
            == if lo < m then EntriesUpTo(Fold(Opener(st, d), lo, m).trades, k) else []
  {
    var lo, hi := WindowStart(d, startTs), WindowEnd(d, endTs);
    var m := UpTo(hi, k + 1);
    OpensInPlace(st, d);
    if d.h1 == [] || d.h4 == [] || d.d1 == [] {
      if lo < m {
        NothingOpens(Opener(st, d), lo, m);
      }
    } else if lo < m {
      LaterCandlesAddNothing(Opener(st, d), k, lo, m, hi);
    } else if lo < hi {
      LaterCandlesAddNothing(Opener(st, d), k, lo, lo, hi);
    }
  }

  lemma OpenersAgree(st: Strategy, a: Dataset, b: Dataset, k: nat)
    requires Timely(a) && Timely(b)
    requires k < |a.m15| && SeesSame(a, b, a.m15[k].closeTime)
    ensures forall j: nat {:trigger SameFrom(Opener(st, a)(j), Opener(st, b)(j), k)} ::
              j <= k ==> SameFrom(Opener(st, a)(j), Opener(st, b)(j), k)
  {
    forall j: nat | j <= k
      ensures SameFrom(Opener(st, a)(j), Opener(st, b)(j), k)
    {
      SameTrade(st, a, b, k, j);
    }
  }

  /** No look-ahead. If two data sets show the same closed bars on all four timeframes at
      the close of candle k, the replay makes the same entries (index, time, price, side,
      scores and levels) at all candles up to k. Nothing after k is constrained, not even
      the number of bars: so replaying a truncated history finds the same entries. */
  lemma EntriesIgnoreTheFuture(st: Strategy, a: Dataset, b: Dataset, startTs: int, endTs: int, k: nat)
    requires Timely(a) && Timely(b)
    requires k < |a.m15| && SeesSame(a, b, a.m15[k].closeTime)
    ensures ReplayEntries(st, a, startTs, endTs, k) == ReplayEntries(st, b, startTs, endTs, k)
  {
    SharedPrefix(a.m15, b.m15, k);
    SameWindowEdge(a.m15, b.m15, k, startTs);
    SameWindowEdge(a.m15, b.m15, k, endTs);
    EntriesByFold(st, a, startTs, endTs, k);
    EntriesByFold(st, b, startTs, endTs, k);
    var lo, m := WindowStart(a, startTs), UpTo(WindowEnd(a, endTs), k + 1);
    if lo < m {
      OpenersAgree(st, a, b, k);
      FoldsAligned(Opener(st, a), Opener(st, b), k, lo, m);
    }
  }
}
