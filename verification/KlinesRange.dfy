/** Batched candle download (app/market_data/binance_client.py, BinanceClient.klines_range)
    against a server that answers with the first `limit` candles of the window. */
module KlinesRange {

  /** One kline row: its open and close times; the other columns ride along unread. */
  datatype Kline = Kline(openTime: int, closeTime: int)

  /** The server's history: no candle closes before it opens, and none opens before the
      previous one closed. */
  ghost predicate History(server: seq<Kline>) {
    && (forall i :: 0 <= i < |server| ==> server[i].openTime <= server[i].closeTime)
    && (forall i, j :: 0 <= i < j < |server| ==> server[i].closeTime < server[j].openTime)
  }

  /** Every candle lasts more than a millisecond, as all exchange intervals do. */
  ghost predicate Lasting(server: seq<Kline>) {
    forall i :: 0 <= i < |server| ==> server[i].openTime < server[i].closeTime
  }

  ghost predicate Ascending(server: seq<Kline>) {
    forall i, j :: 0 <= i < j < |server| ==> server[i].openTime < server[j].openTime
  }

  /** The candles whose open time lies in [from, to]. */
  function Window(server: seq<Kline>, from: int, to: int): seq<Kline> {
    if server == [] then []
    else
      var rest := Window(server[1..], from, to);
      if from <= server[0].openTime <= to then [server[0]] + rest else rest
  }

  /** One request: startTime, endTime, limit. */
  function Serve(server: seq<Kline>, from: int, to: int, limit: nat): seq<Kline> {
    var w := Window(server, from, to);
    if limit < |w| then w[..limit] else w
  }

  lemma {:induction false} WindowMembers(server: seq<Kline>, from: int, to: int)
    ensures forall k :: k in Window(server, from, to) <==> k in server && from <= k.openTime <= to
  {
    if server != [] {
      WindowMembers(server[1..], from, to);
      assert server == [server[0]] + server[1..];
    }
  }

  lemma {:induction false} WindowAscending(server: seq<Kline>, from: int, to: int)
    requires Ascending(server)
    ensures Ascending(Window(server, from, to))
  {
    if server != [] {
      WindowAscending(server[1..], from, to);
      WindowMembers(server[1..], from, to);
      var rest := Window(server[1..], from, to);
      assert forall i :: 0 <= i < |rest| ==> rest[i] in rest;
    }
  }

  /** Where the i-th candle of a window opens: inside it, and after the history's first unless it
      is that one. */
  lemma WindowElement(server: seq<Kline>, from: int, to: int, i: nat)
    requires Ascending(server) && i < |Window(server, from, to)|
    ensures var k := Window(server, from, to)[i];
            server != [] && from <= k.openTime <= to && (k == server[0] || k.openTime > server[0].openTime)
  {
    WindowMembers(server, from, to);
    assert Window(server, from, to)[i] in Window(server, from, to);
  }

  /** If every candle opens after both starts, the start does not matter. */
  lemma {:induction false} SameWindow(server: seq<Kline>, a: int, b: int, to: int)
    requires a <= b && forall i :: 0 <= i < |server| ==> server[i].openTime >= b
    ensures Window(server, a, to) == Window(server, b, to)
  {
    if server != [] {
      SameWindow(server[1..], a, b, to);
    }
  }

  /** Moving the start just past the n-th candle's open drops exactly the first n candles. */
  lemma {:induction false} WindowAdvance(server: seq<Kline>, from: int, to: int, n: nat)
    requires Ascending(server) && 0 < n <= |Window(server, from, to)|
    ensures Window(server, Window(server, from, to)[n - 1].openTime + 1, to) == Window(server, from, to)[n..]
  {
    var cut := Window(server, from, to)[n - 1].openTime + 1;
    WindowElement(server, from, to, n - 1);
    var rest := Window(server[1..], from, to);
    if from <= server[0].openTime <= to {
      if n == 1 {
        SameWindow(server[1..], from, cut, to);
      } else {
        assert Window(server, from, to)[n - 1] == rest[n - 2];
        WindowElement(server[1..], from, to, n - 2);
        WindowAdvance(server[1..], from, to, n - 1);
        assert server[0].openTime < cut;
      }
    } else {
      WindowAdvance(server[1..], from, to, n);
    }
  }

  /** The requests the loop makes from `cur` on, as a value. Only ascending open times are
      needed for the loop to end. */
  function Fetched(server: seq<Kline>, cur: int, end: int, batch: nat): seq<Kline>
    requires Ascending(server) && batch >= 1
    decreases |Window(server, cur, end)|
  {
    if cur >= end then []
    else
      var rows := Serve(server, cur, end, batch);
      if rows == [] then []
      else if rows[|rows| - 1].closeTime >= end || |rows| < batch then rows
      else
        WindowAdvance(server, cur, end, |rows|);
        rows + Fetched(server, rows[|rows| - 1].openTime + 1, end, batch)
  }

  /** How one request splits off the rest of the download. */
  lemma FetchedStep(server: seq<Kline>, cur: int, end: int, batch: nat)
    requires Ascending(server) && batch >= 1 && cur < end
    ensures var rows := Serve(server, cur, end, batch);
            if rows == [] || rows[|rows| - 1].closeTime >= end || |rows| < batch then
              Fetched(server, cur, end, batch) == rows
            else
              var next := rows[|rows| - 1].openTime + 1;
              && |Window(server, next, end)| < |Window(server, cur, end)|
              && Fetched(server, cur, end, batch) == rows + Fetched(server, next, end, batch)
  {
    var rows := Serve(server, cur, end, batch);
    if rows != [] {
      WindowAdvance(server, cur, end, |rows|);
    }
  }

  // ---- exactly when the download is complete ----

  ghost predicate OpensAt(server: seq<Kline>, t: int) {
    exists k :: k in server && k.openTime == t
  }

  function Times(q: nat, batch: nat): nat { q * batch }

  /** n candles fill whole batches. */
  ghost predicate WholeBatches(n: nat, batch: nat) {
    exists q: nat :: n == Times(q, batch)
  }

  /** A candle opens at the end of the range, a one-millisecond candle comes just before it, and
      the candles up to that one fill whole batches. */
  ghost predicate LastCandleMissed(server: seq<Kline>, start: int, end: int, batch: nat) {
    && start < end && OpensAt(server, end) && Kline(end - 1, end - 1) in server
    && WholeBatches(|Window(server, start, end - 1)|, batch)
  }

  lemma HistoryAscends(server: seq<Kline>)
    requires History(server)
    ensures Ascending(server)
  {
    forall i, j | 0 <= i < j < |server|
      ensures server[i].openTime < server[j].openTime
    {
      assert server[i].openTime <= server[i].closeTime < server[j].openTime;
    }
  }

  /** A window none of whose candles exists is empty. */
  lemma {:induction false} NothingInside(server: seq<Kline>, from: int, to: int)
    requires forall i :: 0 <= i < |server| ==> !(from <= server[i].openTime <= to)
    ensures Window(server, from, to) == []
  {
    if server != [] {
      NothingInside(server[1..], from, to);
    }
  }

  /** A candle opening at the end of a window is its last, and the rest is the shorter window. */
  lemma {:induction false} WindowEnds(server: seq<Kline>, from: int, to: int)
    requires Ascending(server) && from <= to && OpensAt(server, to)
    ensures |Window(server, from, to)| == |Window(server, from, to - 1)| + 1
  {
    if server[0].openTime == to {
      NothingInside(server[1..], from, to);
      NothingInside(server[1..], from, to - 1);
    } else {
      var k :| k in server && k.openTime == to;
      assert k in server[1..];
      WindowEnds(server[1..], from, to);
    }
  }

  /** The window holding the one-millisecond candle is not empty. */
  lemma MillisecondCounts(server: seq<Kline>, start: int, end: int)
    requires start < end && Kline(end - 1, end - 1) in server
    ensures |Window(server, start, end - 1)| >= 1
  {
    WindowMembers(server, start, end - 1);
    assert Kline(end - 1, end - 1) in Window(server, start, end - 1);
  }

  lemma TimesOrder(q: nat, batch: nat)
    requires q >= 1
    ensures Times(q, batch) == Times(q - 1, batch) + batch >= batch
  {
    assert Times(q - 1, batch) >= 0;
  }

  lemma PartOfBatch(n: nat, batch: nat)
    requires 0 < n < batch
    ensures !WholeBatches(n, batch)
  {
    forall q: nat
      ensures n != Times(q, batch)
    {
      if q >= 1 {
        TimesOrder(q, batch);
      }
    }
  }

  /** What one request can hold is never cut short. */
  lemma OneBatchSuffices(server: seq<Kline>, start: int, end: int, batch: nat)
    requires Ascending(server) && batch >= 1 && |Window(server, start, end)| <= batch
    ensures !LastCandleMissed(server, start, end, batch)
  {
    if start < end && OpensAt(server, end) && Kline(end - 1, end - 1) in server {
      MillisecondCounts(server, start, end);
      WindowEnds(server, start, end);
      PartOfBatch(|Window(server, start, end - 1)|, batch);
    }
  }

  lemma OneMoreBatch(n: nat, batch: nat)
    requires batch >= 1
    ensures WholeBatches(n + batch, batch) <==> WholeBatches(n, batch)
  {
    if WholeBatches(n, batch) {
      var q: nat :| n == Times(q, batch);
      TimesOrder(q + 1, batch);
    }
    if WholeBatches(n + batch, batch) {
      var q: nat :| n + batch == Times(q, batch);
      TimesOrder(q, batch);
    }
  }

  /** A full batch that stops short of the end leaves the same fate to the next request. */
  lemma SameFate(server: seq<Kline>, cur: int, next: int, end: int, batch: nat)
    requires Ascending(server) && batch >= 1 && cur <= next < end
    requires |Window(server, cur, end)| == batch + |Window(server, next, end)|
    ensures LastCandleMissed(server, cur, end, batch) <==> LastCandleMissed(server, next, end, batch)
  {
    if OpensAt(server, end) {
      WindowEnds(server, cur, end);
      WindowEnds(server, next, end);
      OneMoreBatch(|Window(server, next, end - 1)|, batch);
    }
  }

  lemma EndOnly(server: seq<Kline>, end: int)
    requires Ascending(server)
    ensures OpensAt(server, end) <==> Window(server, end, end) != []
    ensures OpensAt(server, end) ==> |Window(server, end, end)| == 1
  {
    if OpensAt(server, end) {
      WindowEnds(server, end, end);
      NothingInside(server, end, end - 1);
    } else {
      NothingInside(server, end, end);
    }
  }

  /** A full batch ending in the one-millisecond candle leaves the guard false, so whatever opens
      at the end is lost. */
  lemma GuardStopsShort(server: seq<Kline>, cur: int, end: int, batch: nat)
    requires Ascending(server) && batch >= 1 && cur < end && Kline(end - 1, end - 1) in server
    requires |Window(server, cur, end)| == batch + |Window(server, end, end)|
    ensures Window(server, end, end) != [] <==> LastCandleMissed(server, cur, end, batch)
  {
    EndOnly(server, end);
    if OpensAt(server, end) {
      WindowEnds(server, cur, end);
      assert batch == Times(1, batch);
    }
  }

  /** Once a candle reaches past the end, no later candle opens inside the range. */
  lemma NothingAfter(server: seq<Kline>, last: Kline, end: int)
    requires History(server) && last in server && last.closeTime >= end
    ensures Window(server, last.openTime + 1, end) == []
  {
    HistoryAscends(server);
    var i :| 0 <= i < |server| && server[i] == last;
    forall j | 0 <= j < |server|
      ensures !(last.openTime + 1 <= server[j].openTime <= end)
    {
      if i < j {
        assert server[i].closeTime < server[j].openTime;
      } else if j < i {
        assert server[j].openTime < server[i].openTime;
      }
    }
    NothingInside(server, last.openTime + 1, end);
  }

  /** A request that ends the download by its answer has fetched everything. */
  lemma LastRequest(server: seq<Kline>, cur: int, end: int, batch: nat)
    requires History(server) && Ascending(server) && batch >= 1 && cur < end
    requires var rows := Serve(server, cur, end, batch);
             rows == [] || rows[|rows| - 1].closeTime >= end || |rows| < batch
    ensures Fetched(server, cur, end, batch) == Window(server, cur, end)
    ensures !LastCandleMissed(server, cur, end, batch)
  {
    var rows := Serve(server, cur, end, batch);
    if |rows| == batch {
      var last := rows[batch - 1];
      WindowAdvance(server, cur, end, batch);
      WindowMembers(server, cur, end);
      assert last in Window(server, cur, end);
      NothingAfter(server, last, end);
    }
    OneBatchSuffices(server, cur, end, batch);
  }

  /** Where the loop stands after a full batch that stops short of the end. */
  lemma AfterBatch(server: seq<Kline>, cur: int, end: int, batch: nat, next: int)
    requires History(server) && Ascending(server) && batch >= 1 && cur < end
    requires |Window(server, cur, end)| >= batch && Window(server, cur, end)[batch - 1].closeTime < end
    requires next == Window(server, cur, end)[batch - 1].openTime + 1
    ensures cur < next <= end && (next == end ==> Kline(end - 1, end - 1) in server)
    ensures |Window(server, cur, end)| == batch + |Window(server, next, end)|
  {
    WindowMembers(server, cur, end);
    var last := Window(server, cur, end)[batch - 1];
    assert last in Window(server, cur, end) && last.openTime <= last.closeTime;
    WindowAdvance(server, cur, end, batch);
  }

  lemma FetchedFull(server: seq<Kline>, cur: int, end: int, batch: nat)
    requires Ascending(server) && batch >= 1 && cur < end
    requires |Window(server, cur, end)| >= batch && Window(server, cur, end)[batch - 1].closeTime < end
    ensures var w := Window(server, cur, end);
            Fetched(server, cur, end, batch) == w[..batch] + Fetched(server, w[batch - 1].openTime + 1, end, batch)
  {
    FetchedStep(server, cur, end, batch);
  }

  lemma SameTail(whole: seq<Kline>, n: nat, got: seq<Kline>, tail: seq<Kline>)
    requires n <= |whole| && got == whole[..n] + tail
    ensures got == whole <==> tail == whole[n..]
  {
    assert whole == whole[..n] + whole[n..];
    assert got[n..] == tail;
  }

  /** It is complete if the rest is. */
  lemma RestDecides(server: seq<Kline>, cur: int, end: int, batch: nat, next: int)
    requires Ascending(server) && batch >= 1 && cur < end
    requires |Window(server, cur, end)| >= batch && Window(server, cur, end)[batch - 1].closeTime < end
    requires next == Window(server, cur, end)[batch - 1].openTime + 1
    ensures Fetched(server, cur, end, batch) == Window(server, cur, end)
            <==> Fetched(server, next, end, batch) == Window(server, next, end)
  {
    FetchedFull(server, cur, end, batch);
    WindowAdvance(server, cur, end, batch);
    SameTail(Window(server, cur, end), batch, Fetched(server, cur, end, batch), Fetched(server, next, end, batch));
  }

  /** From any point of the download on: what is fetched is the rest of the window, except in the
      one case. */
  lemma {:induction false} FetchedExactly(server: seq<Kline>, cur: int, end: int, batch: nat)
    requires History(server) && batch >= 1 && cur < end
    ensures Ascending(server)
    ensures Fetched(server, cur, end, batch) == Window(server, cur, end)
            <==> !LastCandleMissed(server, cur, end, batch)
    decreases |Window(server, cur, end)|
  {
    HistoryAscends(server);
    var w := Window(server, cur, end);
    if |w| < batch || w[batch - 1].closeTime >= end {
      LastRequest(server, cur, end, batch);
    } else {
      var next := w[batch - 1].openTime + 1;
      AfterBatch(server, cur, end, batch, next);
      RestDecides(server, cur, end, batch, next);
      if next < end {
        FetchedExactly(server, next, end, batch);
        SameFate(server, cur, next, end, batch);
      } else {
        GuardStopsShort(server, cur, end, batch);
      }
    }
  }

  // ---- the loop ----

  lemma FetchedOnHistory(server: seq<Kline>, start: int, end: int, batch: nat)
    requires Ascending(server) && batch >= 1
    ensures History(server) && start < end ==>
              (Fetched(server, start, end, batch) == Window(server, start, end)
               <==> !LastCandleMissed(server, start, end, batch))
  {
    if History(server) && start < end {
      FetchedExactly(server, start, end, batch);
    }
  }

  lemma Associates(a: seq<Kline>, b: seq<Kline>, c: seq<Kline>, bc: seq<Kline>)
    requires bc == b + c
    ensures a + bc == a + b + c
  {
  }

  /** One request of the loop, seen from what was fetched before it. */
  lemma Accumulates(server: seq<Kline>, all: seq<Kline>, cur: int, end: int, batch: nat)
    requires Ascending(server) && batch >= 1 && cur < end
    ensures var rows, total := Serve(server, cur, end, batch), all + Fetched(server, cur, end, batch);
            if rows == [] || rows[|rows| - 1].closeTime >= end || |rows| < batch then all + rows == total
            else
              var next := rows[|rows| - 1].openTime + 1;
              && |Window(server, next, end)| < |Window(server, cur, end)|
              && all + rows + Fetched(server, next, end, batch) == total
  {
    FetchedStep(server, cur, end, batch);
    var rows := Serve(server, cur, end, batch);
    if rows != [] && rows[|rows| - 1].closeTime < end && |rows| >= batch {
      var next := rows[|rows| - 1].openTime + 1;
      Associates(all, rows, Fetched(server, next, end, batch), Fetched(server, cur, end, batch));
    }
  }

  /** The download loop. It always ends, and on a proper range it returns every candle of the
      range, in order, once, unless its last request ends just short of the last candle. */
  method FetchRange(server: seq<Kline>, start: int, end: int, batch: nat) returns (all: seq<Kline>)
    requires Ascending(server) && batch >= 1
    ensures all == Fetched(server, start, end, batch)
    ensures History(server) && start < end ==>
              (all == Window(server, start, end) <==> !LastCandleMissed(server, start, end, batch))
  {
    FetchedOnHistory(server, start, end, batch);
    all := [];
    var cur := start;
    while cur < end
      invariant all + Fetched(server, cur, end, batch) == Fetched(server, start, end, batch)
      decreases |Window(server, cur, end)|
    {
      var rows := Serve(server, cur, end, batch);
      Accumulates(server, all, cur, end, batch);
      if rows == [] {
        return;
      }
      all := all + rows;
      if rows[|rows| - 1].closeTime >= end || |rows| < batch {
        return;
      }
      cur := rows[|rows| - 1].openTime + 1;
    }
  }

  /** The download is complete exactly when the range is a proper one, or holds no candle, and
      its last candle is not missed: with start >= end the loop asks nothing, even if a candle
      opens exactly at start. */
  lemma RangeIsComplete(server: seq<Kline>, start: int, end: int, batch: nat)
    requires History(server) && batch >= 1
    ensures Ascending(server)
    ensures Fetched(server, start, end, batch) == Window(server, start, end)
            <==> (start < end || Window(server, start, end) == []) && !LastCandleMissed(server, start, end, batch)
  {
    HistoryAscends(server);
    if start < end {
      FetchedExactly(server, start, end, batch);
    }
  }

  lemma FetchedIsWindow(server: seq<Kline>, start: int, end: int, batch: nat)
    requires History(server) && Lasting(server) && batch >= 1 && start < end
    ensures Ascending(server) && Fetched(server, start, end, batch) == Window(server, start, end)
  {
    FetchedExactly(server, start, end, batch);
  }

  /** No gap and no duplicate: on candles of more than a millisecond, a candle is returned iff it
      opens in the range, and open times strictly increase. */
  lemma RangeExactlyOnce(server: seq<Kline>, start: int, end: int, batch: nat)
    requires History(server) && Lasting(server) && batch >= 1 && start < end
    ensures Ascending(server)
    ensures var all := Fetched(server, start, end, batch);
            && Ascending(all)
            && (forall k :: k in all <==> k in server && start <= k.openTime <= end)
  {
    FetchedIsWindow(server, start, end, batch);
    WindowMembers(server, start, end);
    WindowAscending(server, start, end);
  }

  /** The batch size is only a tuning knob. */
  lemma BatchSizeIrrelevant(server: seq<Kline>, start: int, end: int, b1: nat, b2: nat)
    requires History(server) && Lasting(server) && b1 >= 1 && b2 >= 1
    ensures Ascending(server) && Fetched(server, start, end, b1) == Fetched(server, start, end, b2)
  {
    HistoryAscends(server);
    if start < end {
      FetchedIsWindow(server, start, end, b1);
      FetchedIsWindow(server, start, end, b2);
    }
  }

  /** The one case at its smallest: two one-millisecond candles, one at a time. */
  lemma OneMillisecondCandlesAreMissed()
    ensures var server := [Kline(0, 0), Kline(1, 1)];
            Ascending(server) && Fetched(server, 0, 1, 1) != Window(server, 0, 1)
  {
    var server := [Kline(0, 0), Kline(1, 1)];
    assert server[1..] == [Kline(1, 1)];
    assert Window([Kline(1, 1)], 0, 1) == [Kline(1, 1)];
    assert Window(server, 0, 1) == server;
    assert Serve(server, 0, 1, 1) == [Kline(0, 0)];
  }
}
