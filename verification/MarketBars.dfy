/** OHLC bars and the index searches the backtester makes over their close times. */
module MarketBars {
  datatype Bar = Bar(openTime: int, closeTime: int, open: real, high: real, low: real, close: real)

  function Middle(lo: nat, hi: nat): (m: nat)
    requires lo < hi
    ensures lo <= m < hi
  {
    lo + (hi - lo) / 2
  }

  /** `np.searchsorted(close_times, ts, side="right")` restricted to [lo, hi). */
  function SearchRight(bars: seq<Bar>, ts: int, lo: nat, hi: nat): (k: nat)
    requires lo <= hi <= |bars|
    ensures lo <= k <= hi
    decreases hi - lo
  {
    if lo == hi then lo
    else
      var mid := Middle(lo, hi);
      if bars[mid].closeTime <= ts then SearchRight(bars, ts, mid + 1, hi)
      else SearchRight(bars, ts, lo, mid)
  }

  /** `np.searchsorted(close_times, ts, side="left")` restricted to [lo, hi). */
  function SearchLeft(bars: seq<Bar>, ts: int, lo: nat, hi: nat): (k: nat)
    requires lo <= hi <= |bars|
    ensures lo <= k <= hi
    decreases hi - lo
  {
    if lo == hi then lo
    else
      var mid := Middle(lo, hi);
      if bars[mid].closeTime < ts then SearchLeft(bars, ts, mid + 1, hi)
      else SearchLeft(bars, ts, lo, mid)
  }

  function ClosedCount(bars: seq<Bar>, ts: int): (k: nat)
    ensures k <= |bars|
  {
    SearchRight(bars, ts, 0, |bars|)
  }

  function FirstClosingAt(bars: seq<Bar>, ts: int): (k: nat)
    ensures k <= |bars|
  {
    SearchLeft(bars, ts, 0, |bars|)
  }

  ghost predicate Chronological(bars: seq<Bar>) {
    forall i, j :: 0 <= i < j < |bars| ==> bars[i].closeTime <= bars[j].closeTime
  }

  /** The bars a trader standing at time ts has seen closing. */
  ghost function ClosedBy(bars: seq<Bar>, ts: int): seq<Bar> {
    if bars == [] then []
    else if bars[0].closeTime <= ts then [bars[0]] + ClosedBy(bars[1..], ts)
    else ClosedBy(bars[1..], ts)
  }

  lemma {:induction false} SearchRightSplits(bars: seq<Bar>, ts: int, lo: nat, hi: nat)
    requires lo <= hi <= |bars| && Chronological(bars)
    ensures var k := SearchRight(bars, ts, lo, hi);
            && (forall i :: lo <= i < k ==> bars[i].closeTime <= ts)
            && (forall i :: k <= i < hi ==> bars[i].closeTime > ts)
    decreases hi - lo
  {
    if lo < hi {
      var mid := Middle(lo, hi);
      if bars[mid].closeTime <= ts {
        SearchRightSplits(bars, ts, mid + 1, hi);
        assert forall i :: lo <= i < mid ==> bars[i].closeTime <= bars[mid].closeTime;
      } else {
        SearchRightSplits(bars, ts, lo, mid);
        assert forall i :: mid < i < hi ==> bars[mid].closeTime <= bars[i].closeTime;
      }
    }
  }

  lemma {:induction false} SearchLeftSplits(bars: seq<Bar>, ts: int, lo: nat, hi: nat)
    requires lo <= hi <= |bars| && Chronological(bars)
    ensures var k := SearchLeft(bars, ts, lo, hi);
            && (forall i :: lo <= i < k ==> bars[i].closeTime < ts)
            && (forall i :: k <= i < hi ==> bars[i].closeTime >= ts)
    decreases hi - lo
  {
    if lo < hi {
      var mid := Middle(lo, hi);
      if bars[mid].closeTime < ts {
        SearchLeftSplits(bars, ts, mid + 1, hi);
        assert forall i :: lo <= i < mid ==> bars[i].closeTime <= bars[mid].closeTime;
      } else {
        SearchLeftSplits(bars, ts, lo, mid);
        assert forall i :: mid < i < hi ==> bars[mid].closeTime <= bars[i].closeTime;
      }
    }
  }

  /** On chronological data any split point between "closed" and "not yet closed"
      delimits exactly the closed bars. */
  lemma {:induction false} ClosedByIsPrefix(bars: seq<Bar>, ts: int, k: nat)
    requires k <= |bars|
    requires forall i :: 0 <= i < k ==> bars[i].closeTime <= ts
    requires forall i :: k <= i < |bars| ==> bars[i].closeTime > ts
    ensures ClosedBy(bars, ts) == bars[..k]
  {
    if bars == [] {
    } else if k == 0 {
      ClosedByIsPrefix(bars[1..], ts, 0);
    } else {
      ClosedByIsPrefix(bars[1..], ts, k - 1);
      assert bars[..k] == [bars[0]] + bars[1..][..k - 1];
    }
  }

  /** The binary search finds the visible prefix. */
  lemma ClosedCountIsPrefix(bars: seq<Bar>, ts: int)
    requires Chronological(bars)
    ensures bars[..ClosedCount(bars, ts)] == ClosedBy(bars, ts)
  {
    SearchRightSplits(bars, ts, 0, |bars|);
    ClosedByIsPrefix(bars, ts, ClosedCount(bars, ts));
  }

  /** What was visible earlier is determined by what is visible now. */
  lemma {:induction false} ClosedByEarlier(bars: seq<Bar>, early: int, late: int)
    requires early <= late
    ensures ClosedBy(ClosedBy(bars, late), early) == ClosedBy(bars, early)
  {
    if bars != [] {
      ClosedByEarlier(bars[1..], early, late);
      if bars[0].closeTime <= late {
        assert ([bars[0]] + ClosedBy(bars[1..], late))[1..] == ClosedBy(bars[1..], late);
      }
    }
  }

  /** Standing at the close of bar k, one has seen bars 0..k, and no others but such as close at
      that very moment. */
  lemma ClosedByOwnClose(bars: seq<Bar>, k: nat)
    requires Chronological(bars) && k < |bars|
    ensures var seen := ClosedBy(bars, bars[k].closeTime);
            && k < |seen| && seen[..k + 1] == bars[..k + 1]
            && forall i :: k < i < |seen| ==> seen[i].closeTime == bars[k].closeTime
  {
    var t := bars[k].closeTime;
    SearchRightSplits(bars, t, 0, |bars|);
    ClosedCountIsPrefix(bars, t);
    var n := ClosedCount(bars, t);
    assert bars[k].closeTime <= t;
    assert bars[..n][..k + 1] == bars[..k + 1];
  }
}
