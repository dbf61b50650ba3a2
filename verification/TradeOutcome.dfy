/** Lifecycle-aware trade outcomes (app/analytics/trade_outcome.py). Status and event
    strings are taken after upper-casing, split into the classes the code tells apart. */
module TradeOutcome {
  import opened Common

  const FOUR_PLACES: real := 10000.0

  datatype Tag =
    | NOTHING
    | OPEN | ACTIVE | PENDING
    | TP1 | TP2 | TP3
    | SL
    | BE | BREAKEVEN | BREAK_EVEN
    | OTHER(name: string)

  datatype Outcome = Loss | PartialWin | Win | FullWin | BreakEven | StillOpen

  datatype Bucket = WinBucket | LossBucket | EvenBucket | OpenBucket

  /** A JSON object member: missing, null, or present. */
  datatype Field<+T> = Absent | Null | Val(value: T)

  /** The tp_history block. */
  datatype History = History(
    tp1At: Field<string>, tp2At: Field<string>, tp3At: Field<string>,
    slAt: Field<string>, beAt: Field<string>,
    first: Field<Tag>, final: Field<Tag>,
    maxTp: Field<int>, pnl: Field<real>, outcome: Field<Outcome>,
    extra: map<string, string>)

  const BLANK := History(Absent, Absent, Absent, Absent, Absent, Absent, Absent, Absent, Absent, Absent, map[])

  /** The diagnostics blob: its tp_history member and all the others. */
  datatype Diagnostics = Diagnostics(history: Option<History>, other: map<string, string>)

  /** A timestamp as recorded: never the empty string, because the clock stands in for one. */
  type Iso = s: string | s != "" witness "t"

  datatype Exit = Exit(tag: Tag, at: Iso, pnl: Option<real>)

  function Rank(t: Tag): nat {
    match t
    case TP1 => 1
    case TP2 => 2
    case TP3 => 3
    case _ => 0
  }

  predicate IsBe(t: Tag) { t in {BE, BREAKEVEN, BREAK_EVEN} }

  predicate IsOpenStatus(t: Tag) { t in {OPEN, ACTIVE, PENDING, NOTHING} }

  /** Python truth of a stored string. */
  predicate Set(f: Field<string>) { f.Val? && f.value != "" }

  predicate Named(f: Field<Tag>) { f.Val? && f.value != NOTHING }

  function BucketOf(o: Outcome): Bucket {
    match o
    case FullWin => WinBucket
    case Win => WinBucket
    case PartialWin => WinBucket
    case BreakEven => EvenBucket
    case Loss => LossBucket
    case StillOpen => OpenBucket
  }

  function Higher(a: int, b: int): int { if a < b then b else a }

  /** The highest take-profit the history alone testifies to. */
  function HistoryRank(h: History): int {
    var byTime := if Set(h.tp3At) then 3 else if Set(h.tp2At) then 2 else if Set(h.tp1At) then 1 else 0;
    if h.maxTp.Val? then Higher(byTime, h.maxTp.value) else byTime
  }

  function MaxTp(status: Tag, h: History): int {
    Higher(Rank(status), HistoryRank(h))
  }

  /** classify_trade_outcome */
  function Classify(status: Tag, pnl: Option<real>, h: History): Outcome {
    var realized := if pnl.Some? then pnl else if h.pnl.Val? then Some(h.pnl.value) else None;
    var maxTp := MaxTp(status, h);
    var slHit := Set(h.slAt) || status == SL;
    var isBe := IsBe(status);
    if IsOpenStatus(status) && maxTp == 0 && !slHit && !isBe then StillOpen
    else if maxTp >= 3 then FullWin
    else if maxTp == 2 then Win
    else if maxTp == 1 then PartialWin
    else if slHit && !isBe then Loss
    else if isBe then BreakEven
    else if realized.Some? then
      if realized.value > 0.0 then Win else if realized.value < 0.0 then Loss else BreakEven
    else StillOpen
  }

  function HistoryOf(d: Diagnostics): History {
    if d.history.Some? then d.history.value else BLANK
  }

  /** The event's own contribution to the block, field by field. */
  function Merged(h: History, e: Exit): History {
    h.(tp1At := if Rank(e.tag) >= 1 && !Set(h.tp1At) then Val(e.at) else h.tp1At,
       tp2At := if Rank(e.tag) >= 2 && !Set(h.tp2At) then Val(e.at) else h.tp2At,
       tp3At := if Rank(e.tag) >= 3 && !Set(h.tp3At) then Val(e.at) else h.tp3At,
       slAt := if e.tag == SL then Val(e.at) else h.slAt,
       beAt := if IsBe(e.tag) then Val(e.at) else h.beAt,
       first := if Named(h.first) then h.first else Val(e.tag),
       final := Val(e.tag),
       maxTp := Val(Higher(if h.maxTp.Val? then h.maxTp.value else 0, Rank(e.tag))),
       pnl := if e.pnl.Some? then Val(Round(e.pnl.value, FOUR_PLACES)) else h.pnl)
  }

  function Recorded(d: Diagnostics, e: Exit): Diagnostics {
    var h := Merged(HistoryOf(d), e);
    d.(history := Some(h.(outcome := Val(Classify(e.tag, e.pnl, h)))))
  }

  /** record_exit_event: updates a copy of the block key by key. */
  method RecordExitEvent(d: Diagnostics, e: Exit) returns (r: Diagnostics)
    ensures r == Recorded(d, e)
    ensures r.other == d.other
  {
    var hist := HistoryOf(d);
    if e.tag in {TP1, TP2, TP3} && !Set(hist.tp1At) {
      hist := hist.(tp1At := Val(e.at));
    }
    if e.tag in {TP2, TP3} && !Set(hist.tp2At) {
      hist := hist.(tp2At := Val(e.at));
    }
    if e.tag == TP3 && !Set(hist.tp3At) {
      hist := hist.(tp3At := Val(e.at));
    }
    if e.tag == SL {
      hist := hist.(slAt := Val(e.at));
    }
    if IsBe(e.tag) {
      hist := hist.(beAt := Val(e.at));
    }
    if !Named(hist.first) {
      hist := hist.(first := Val(e.tag));
    }
    hist := hist.(final := Val(e.tag));
    hist := hist.(maxTp := Val(Higher(if hist.maxTp.Val? then hist.maxTp.value else 0, Rank(e.tag))));
    if e.pnl.Some? {
      hist := hist.(pnl := Val(Round(e.pnl.value, FOUR_PLACES)));
    }
    hist := hist.(outcome := Val(Classify(e.tag, e.pnl, hist)));
    r := d.(history := Some(hist));
  }

  function Fold(d: Diagnostics, es: seq<Exit>): Diagnostics {
    if es == [] then d else Recorded(Fold(d, es[..|es| - 1]), es[|es| - 1])
  }

  // ---- what a whole lifecycle leaves behind ----

  predicate LifecycleTag(t: Tag) { Rank(t) >= 1 || t == SL || IsBe(t) }

  ghost predicate Lifecycle(es: seq<Exit>) {
    es != [] && forall i :: 0 <= i < |es| ==> LifecycleTag(es[i].tag)
  }

  /** m is the greatest rank among the events. */
  ghost predicate IsMaxRank(es: seq<Exit>, m: int) {
    && (forall i :: 0 <= i < |es| ==> Rank(es[i].tag) <= m)
    && (m == 0 || exists i :: 0 <= i < |es| && Rank(es[i].tag) == m)
  }

  function MaxRank(es: seq<Exit>): nat {
    if es == [] then 0
    else
      var m, last := MaxRank(es[..|es| - 1]), Rank(es[|es| - 1].tag);
      if m < last then last else m
  }

  lemma {:induction false} MaxRankIsMax(es: seq<Exit>)
    ensures IsMaxRank(es, MaxRank(es)) && MaxRank(es) <= 3
  {
    if es != [] {
      var init := es[..|es| - 1];
      MaxRankIsMax(init);
      assert forall i :: 0 <= i < |init| ==> init[i] == es[i];
      if MaxRank(init) == MaxRank(es) != 0 {
        var i :| 0 <= i < |init| && Rank(init[i].tag) == MaxRank(init);
        assert Rank(es[i].tag) == MaxRank(es);
      }
    }
  }

  /** i is the first, or the last, event satisfying p. */
  ghost predicate IsFirst(es: seq<Exit>, p: Tag -> bool, i: int) {
    0 <= i < |es| && p(es[i].tag) && forall j :: 0 <= j < i ==> !p(es[j].tag)
  }

  ghost predicate IsLast(es: seq<Exit>, p: Tag -> bool, i: int) {
    0 <= i < |es| && p(es[i].tag) && forall j :: i < j < |es| ==> !p(es[j].tag)
  }

  /** The recorded time is that of the first event satisfying p; nothing if none does. */
  ghost predicate TimeOfFirst(f: Field<string>, es: seq<Exit>, p: Tag -> bool) {
    if exists i :: 0 <= i < |es| && p(es[i].tag) then exists i :: IsFirst(es, p, i) && f == Val(es[i].at)
    else f == Absent
  }

  ghost predicate TimeOfLast(f: Field<string>, es: seq<Exit>, p: Tag -> bool) {
    if exists i :: 0 <= i < |es| && p(es[i].tag) then exists i :: IsLast(es, p, i) && f == Val(es[i].at)
    else f == Absent
  }

  ghost function AtLeast(k: nat): Tag -> bool { (t: Tag) => Rank(t) >= k }

  predicate IsStop(t: Tag) { t == SL }

  lemma FirstSnoc(f: Field<string>, es: seq<Exit>, e: Exit, p: Tag -> bool)
    requires TimeOfFirst(f, es, p)
    ensures TimeOfFirst(if p(e.tag) && !Set(f) then Val(e.at) else f, es + [e], p)
  {
    var all := es + [e];
    assert forall i :: 0 <= i < |es| ==> all[i] == es[i];
    assert all[|es|] == e;
    if i :| 0 <= i < |es| && p(es[i].tag) {
      assert p(all[i].tag);
      var k :| IsFirst(es, p, k) && f == Val(es[k].at);
      assert IsFirst(all, p, k);
    } else if p(e.tag) {
      assert IsFirst(all, p, |es|);
    }
  }

  lemma LastSnoc(f: Field<string>, es: seq<Exit>, e: Exit, p: Tag -> bool)
    requires TimeOfLast(f, es, p)
    ensures TimeOfLast(if p(e.tag) then Val(e.at) else f, es + [e], p)
  {
    var all := es + [e];
    assert forall i :: 0 <= i < |es| ==> all[i] == es[i];
    assert all[|es|] == e;
    if i :| 0 <= i < |es| && p(es[i].tag) {
      assert p(all[i].tag);
      var k :| IsLast(es, p, k) && f == Val(es[k].at);
      assert IsLast(all, p, if p(e.tag) then |es| else k);
    } else if p(e.tag) {
      assert IsLast(all, p, |es|);
    }
  }

  /** The outcome depends on nothing but the highest target ever reached and, failing that,
      the last event. */
  function Verdict(maxRank: nat, last: Tag): Outcome {
    if maxRank >= 3 then FullWin
    else if maxRank == 2 then Win
    else if maxRank == 1 then PartialWin
    else if last == SL then Loss
    else BreakEven
  }

  /** Take-profit times are first-wins, stop and break-even times are last-wins. */
  ghost predicate Timed(h: History, es: seq<Exit>) {
    && TimeOfFirst(h.tp1At, es, AtLeast(1))
    && TimeOfFirst(h.tp2At, es, AtLeast(2))
    && TimeOfFirst(h.tp3At, es, AtLeast(3))
    && TimeOfLast(h.slAt, es, IsStop)
    && TimeOfLast(h.beAt, es, IsBe)
  }

  /** The history block of a lifecycle, told from its events alone. */
  ghost predicate Tells(h: History, es: seq<Exit>)
    requires es != []
  {
    && h.maxTp == Val(MaxRank(es))
    && Timed(h, es)
    && h.first == Val(es[0].tag) && h.final == Val(es[|es| - 1].tag)
    && h.outcome == Val(Verdict(MaxRank(es), es[|es| - 1].tag))
  }

  lemma TimedSnoc(h: History, es: seq<Exit>, e: Exit)
    requires Timed(h, es)
    ensures Timed(Merged(h, e), es + [e])
  {
    var m := Merged(h, e);
    assert TimeOfFirst(m.tp1At, es + [e], AtLeast(1)) by { FirstSnoc(h.tp1At, es, e, AtLeast(1)); }
    assert TimeOfFirst(m.tp2At, es + [e], AtLeast(2)) by { FirstSnoc(h.tp2At, es, e, AtLeast(2)); }
    assert TimeOfFirst(m.tp3At, es + [e], AtLeast(3)) by { FirstSnoc(h.tp3At, es, e, AtLeast(3)); }
    assert TimeOfLast(m.slAt, es + [e], IsStop) by { LastSnoc(h.slAt, es, e, IsStop); }
    assert TimeOfLast(m.beAt, es + [e], IsBe) by { LastSnoc(h.beAt, es, e, IsBe); }
  }

  lemma TimedIgnoresOutcome(h: History, outcome: Field<Outcome>, es: seq<Exit>)
    requires Timed(h, es)
    ensures Timed(h.(outcome := outcome), es)
  {
  }

  /** One event on a block with the right times. */
  lemma TimedRecorded(d: Diagnostics, es: seq<Exit>, e: Exit)
    requires Timed(HistoryOf(d), es)
    ensures Timed(HistoryOf(Recorded(d, e)), es + [e])
  {
    var m := Merged(HistoryOf(d), e);
    TimedSnoc(HistoryOf(d), es, e);
    TimedIgnoresOutcome(m, Val(Classify(e.tag, e.pnl, m)), es + [e]);
  }

  /** The last event's block, before its outcome is stored. */
  lemma FoldSnoc(d: Diagnostics, es: seq<Exit>)
    requires es != []
    ensures var init, e := es[..|es| - 1], es[|es| - 1];
            var m := Merged(HistoryOf(Fold(d, init)), e);
            && HistoryOf(Fold(d, es)) == m.(outcome := Val(Classify(e.tag, e.pnl, m)))
            && Fold(d, es).other == Fold(d, init).other
  {
  }

  lemma {:induction false} FoldTimes(es: seq<Exit>, other: map<string, string>)
    ensures Timed(HistoryOf(Fold(Diagnostics(None, other), es)), es)
  {
    if es != [] {
      var init, e := es[..|es| - 1], es[|es| - 1];
      FoldTimes(init, other);
      TimedRecorded(Fold(Diagnostics(None, other), init), init, e);
      assert init + [e] == es;
    }
  }

  // ---- first time against last time ----

  /** The first and the last event satisfying p carry one time. */
  ghost predicate OneTime(es: seq<Exit>, p: Tag -> bool) {
    forall i, j :: IsFirst(es, p, i) && IsLast(es, p, j) ==> es[i].at == es[j].at
  }

  lemma {:induction false} FirstExists(es: seq<Exit>, p: Tag -> bool, k: nat) returns (i: int)
    requires k < |es| && p(es[k].tag)
    ensures IsFirst(es, p, i)
    decreases k
  {
    if m :| 0 <= m < k && p(es[m].tag) {
      i := FirstExists(es, p, m);
    } else {
      i := k;
    }
  }

  lemma FirstIsLastIff(f: Field<string>, es: seq<Exit>, p: Tag -> bool)
    requires TimeOfLast(f, es, p)
    ensures TimeOfFirst(f, es, p) <==> OneTime(es, p)
  {
    if k :| 0 <= k < |es| && p(es[k].tag) {
      var i := FirstExists(es, p, k);
      var j :| IsLast(es, p, j) && f == Val(es[j].at);
      assert forall m :: IsFirst(es, p, m) ==> m == i;
      assert forall m :: IsLast(es, p, m) ==> m == j;
    }
  }

  /** "The first timestamp for each level is preserved" is kept for take-profits (FoldTimes). For
      the stop and for break-even it holds exactly when the first and the last such event carry
      one time: every repetition at another time overwrites it. */
  lemma FirstTimeKeptIff(es: seq<Exit>, other: map<string, string>)
    ensures var h := HistoryOf(Fold(Diagnostics(None, other), es));
            && (TimeOfFirst(h.slAt, es, IsStop) <==> OneTime(es, IsStop))
            && (TimeOfFirst(h.beAt, es, IsBe) <==> OneTime(es, IsBe))
  {
    FoldTimes(es, other);
    var h := HistoryOf(Fold(Diagnostics(None, other), es));
    FirstIsLastIff(h.slAt, es, IsStop);
    FirstIsLastIff(h.beAt, es, IsBe);
  }

  const STOPPED_TWICE: seq<Exit> := [Exit(TP1, "t", None), Exit(SL, "a", None), Exit(SL, "b", None)]

  /** A stop recorded at "a" and again at "b" is remembered at "b". */
  lemma StopTimeIsOverwritten(other: map<string, string>)
    ensures HistoryOf(Fold(Diagnostics(None, other), STOPPED_TWICE)).slAt == Val("b")
    ensures !OneTime(STOPPED_TWICE, IsStop)
  {
    var es := STOPPED_TWICE;
    FoldTimes(es, other);
    assert IsFirst(es, IsStop, 1) && IsLast(es, IsStop, 2);
    assert es[1].at != es[2].at by {
      assert "a"[0] != "b"[0];
    }
  }

  /** The part of the block that ranks and names events. */
  ghost predicate Ranked(h: History, es: seq<Exit>)
    requires es != []
  {
    && h.maxTp == Val(MaxRank(es)) && HistoryRank(h) == MaxRank(es)
    && h.first == Val(es[0].tag) && h.final == Val(es[|es| - 1].tag)
  }

  lemma FoldAppend(d: Diagnostics, es: seq<Exit>, e: Exit)
    ensures Fold(d, es + [e]) == Recorded(Fold(d, es), e)
  {
  }

  lemma RankedGrows(d: Diagnostics, es: seq<Exit>, e: Exit)
    requires es != [] && Ranked(HistoryOf(Fold(d, es)), es) && es[0].tag != NOTHING
    ensures Ranked(HistoryOf(Fold(d, es + [e])), es + [e])
  {
  }

  lemma RankedStarts(other: map<string, string>, e: Exit)
    ensures Ranked(HistoryOf(Fold(Diagnostics(None, other), [e])), [e])
  {
  }

  lemma LifecyclePrefix(es: seq<Exit>)
    requires Lifecycle(es) && |es| > 1
    ensures Lifecycle(es[..|es| - 1]) && es[..|es| - 1][0].tag != NOTHING
  {
  }

  lemma {:induction false} FoldRanks(es: seq<Exit>, other: map<string, string>)
    requires Lifecycle(es)
    ensures Ranked(HistoryOf(Fold(Diagnostics(None, other), es)), es)
  {
    if |es| == 1 {
      assert es == [es[0]];
      RankedStarts(other, es[0]);
    } else {
      var init, e := es[..|es| - 1], es[|es| - 1];
      assert es == init + [e];
      LifecyclePrefix(es);
      FoldRanks(init, other);
      RankedGrows(Diagnostics(None, other), init, e);
    }
  }

  /** Recording never touches another diagnostics key. */
  lemma {:induction false} FoldKeepsOther(d: Diagnostics, es: seq<Exit>)
    ensures Fold(d, es).other == d.other
  {
    if es != [] {
      FoldKeepsOther(d, es[..|es| - 1]);
    }
  }

  lemma StoredVerdict(es: seq<Exit>, other: map<string, string>)
    requires Lifecycle(es)
    ensures HistoryOf(Fold(Diagnostics(None, other), es)).outcome == Val(Verdict(MaxRank(es), es[|es| - 1].tag))
  {
    var e := es[|es| - 1];
    FoldRanks(es, other);
    var h := Merged(HistoryOf(Fold(Diagnostics(None, other), es[..|es| - 1])), e);
    assert HistoryOf(Fold(Diagnostics(None, other), es)) == h.(outcome := Val(Classify(e.tag, e.pnl, h)));
    assert HistoryRank(h) == MaxRank(es);
  }

  /** Folding the recorder over any lifecycle, from blank diagnostics, leaves exactly the
      block the lifecycle tells, and no other diagnostics key is touched. */
  lemma FoldTells(es: seq<Exit>, other: map<string, string>)
    requires Lifecycle(es)
    ensures var d := Fold(Diagnostics(None, other), es);
            d.history.Some? && Tells(d.history.value, es) && d.other == other
    ensures IsMaxRank(es, MaxRank(es))
  {
    MaxRankIsMax(es);
    FoldTimes(es, other);
    FoldRanks(es, other);
    FoldKeepsOther(Diagnostics(None, other), es);
    StoredVerdict(es, other);
  }

  /** The tracker stores a protected stop either as SL or as the highest target reached. A
      fresh classification of the row then gives the stored outcome either way, whatever
      profit the row carries. */
  lemma FreshMatchesStored(es: seq<Exit>, other: map<string, string>, status: Tag, pnl: Option<real>)
    requires Lifecycle(es)
    requires status == es[|es| - 1].tag
             || (es[|es| - 1].tag == SL && MaxRank(es) >= 1 && Rank(status) == MaxRank(es))
    ensures var h := HistoryOf(Fold(Diagnostics(None, other), es));
            h.outcome == Val(Classify(status, pnl, h))
  {
    FoldRanks(es, other);
    StoredVerdict(es, other);
  }

  // ---- once a win, always a win ----

  lemma {:induction false} RankNeverFalls(d: Diagnostics, es: seq<Exit>)
    ensures HistoryRank(HistoryOf(Fold(d, es))) >= HistoryRank(HistoryOf(d))
  {
    if es != [] {
      RankNeverFalls(d, es[..|es| - 1]);
    }
  }

  ghost function StoredBucket(d: Diagnostics): Option<Bucket> {
    var f := HistoryOf(d).outcome;
    if f.Val? then Some(BucketOf(f.value)) else None
  }

  lemma RankedIsWin(status: Tag, pnl: Option<real>, h: History)
    requires HistoryRank(h) >= 1
    ensures BucketOf(Classify(status, pnl, h)) == WinBucket
  {
  }

  lemma ReachedStaysWin(d: Diagnostics, es: seq<Exit>)
    requires es != [] && HistoryRank(HistoryOf(d)) >= 1
    ensures StoredBucket(Fold(d, es)) == Some(WinBucket)
  {
    var init, e := es[..|es| - 1], es[|es| - 1];
    RankNeverFalls(d, init);
    var m := Merged(HistoryOf(Fold(d, init)), e);
    assert HistoryRank(m) >= 1;
    RankedIsWin(e.tag, e.pnl, m);
    FoldSnoc(d, es);
  }

  /** Whatever happens next, the trade stays in the WIN bucket. */
  ghost predicate WinsForGood(d: Diagnostics) {
    forall es: seq<Exit> :: es != [] ==> StoredBucket(Fold(d, es)) == Some(WinBucket)
  }

  lemma StopUndoesUntouched(d: Diagnostics)
    requires HistoryRank(HistoryOf(d)) < 1
    ensures StoredBucket(Fold(d, [Exit(SL, "t", None)])) == Some(LossBucket)
  {
  }

  /** A trade is in the WIN bucket for good, under any further events whatever, exactly when
      its history shows a take-profit. A win by a profitable manual close alone can be lost. */
  lemma WinIsPermanentIff(d: Diagnostics)
    ensures WinsForGood(d) <==> HistoryRank(HistoryOf(d)) >= 1
  {
    if HistoryRank(HistoryOf(d)) >= 1 {
      forall es: seq<Exit> | es != []
        ensures StoredBucket(Fold(d, es)) == Some(WinBucket)
      {
        ReachedStaysWin(d, es);
      }
    } else {
      StopUndoesUntouched(d);
    }
  }

  /** Over take-profit, stop and break-even events, the events the tracker records, the promise
      holds without condition: once stored as a win, a trade stays one. */
  lemma LifecycleWinIsPermanent(es: seq<Exit>, other: map<string, string>)
    requires Lifecycle(es) && StoredBucket(Fold(Diagnostics(None, other), es)) == Some(WinBucket)
    ensures WinsForGood(Fold(Diagnostics(None, other), es))
  {
    FoldRanks(es, other);
    StoredVerdict(es, other);
    WinIsPermanentIff(Fold(Diagnostics(None, other), es));
  }

  /** With other event names a manual-close win need not last. */
  lemma ManualWinCanBeLost(other: map<string, string>)
    ensures var won := Fold(Diagnostics(None, other), [Exit(OTHER("CLOSED"), "t", Some(1.0))]);
            && StoredBucket(won) == Some(WinBucket)
            && StoredBucket(Recorded(won, Exit(SL, "t", None))) == Some(LossBucket)
  {
  }

  // ---- the classification, told without ranks ----

  /** The row shows that target k or a higher one was reached: by its status, by a recorded time, or by
      a recorded maximum. */
  predicate Reached(status: Tag, h: History, k: int) {
    || (k <= 3 && (status == TP3 || Set(h.tp3At)))
    || (k <= 2 && (status == TP2 || Set(h.tp2At)))
    || (k <= 1 && (status == TP1 || Set(h.tp1At)))
    || (h.maxTp.Val? && h.maxTp.value >= k)
  }

  /** The profit that decides a manual close: as given, else as recorded. */
  function Decisive(pnl: Option<real>, h: History): Option<real> {
    match pnl
    case Some(_) => pnl
    case None => if h.pnl.Val? then Some(h.pnl.value) else None
  }

  /** Any row, whatever its block holds: the highest target reached decides; without one a stop is a
      loss, a break-even status even, an open status open, and a manual close goes by the sign of its
      profit. */
  lemma ClassifyMeans(status: Tag, pnl: Option<real>, h: History)
    ensures var o, profit := Classify(status, pnl, h), Decisive(pnl, h);
            && (Reached(status, h, 3) ==> o == FullWin)
            && (Reached(status, h, 2) && !Reached(status, h, 3) ==> o == Win)
            && (Reached(status, h, 1) && !Reached(status, h, 2) ==> o == PartialWin)
            && (!Reached(status, h, 1) ==>
                  if status in {BE, BREAKEVEN, BREAK_EVEN} then o == BreakEven
                  else if status == SL || Set(h.slAt) then o == Loss
                  else if status in {OPEN, ACTIVE, PENDING, NOTHING} || profit.None? then o == StillOpen
                  else if profit.value > 0.0 then o == Win
                  else if profit.value < 0.0 then o == Loss
                  else o == BreakEven)
  {
  }

  /** The profit recorded is the last one an event gave, rounded to four places. */
  ghost predicate IsLastProfit(f: Field<real>, es: seq<Exit>) {
    if exists i :: 0 <= i < |es| && es[i].pnl.Some? then
      exists i :: 0 <= i < |es| && es[i].pnl.Some? && f.Val? && IsRounded(f.value, es[i].pnl.value, 10000.0)
                  && forall j :: i < j < |es| ==> es[j].pnl.None?
    else f == Absent
  }

  lemma LastProfitSnoc(f: Field<real>, es: seq<Exit>, e: Exit)
    requires IsLastProfit(f, es)
    ensures IsLastProfit(if e.pnl.Some? then Val(Round(e.pnl.value, FOUR_PLACES)) else f, es + [e])
  {
    var all := es + [e];
    assert all[|es|] == e;
    assert forall i :: 0 <= i < |es| ==> all[i] == es[i];
    if e.pnl.Some? {
      RoundIs(e.pnl.value, 10000.0);
    } else if i :| 0 <= i < |es| && es[i].pnl.Some? {
      assert all[i].pnl.Some?;
      var k :| 0 <= k < |es| && es[k].pnl.Some? && f.Val? && IsRounded(f.value, es[k].pnl.value, 10000.0)
               && forall j :: k < j < |es| ==> es[j].pnl.None?;
      assert all[k] == es[k];
    }
  }

  lemma {:induction false} FoldProfit(es: seq<Exit>, other: map<string, string>)
    ensures IsLastProfit(HistoryOf(Fold(Diagnostics(None, other), es)).pnl, es)
  {
    if es != [] {
      var init, e := es[..|es| - 1], es[|es| - 1];
      FoldProfit(init, other);
      LastProfitSnoc(HistoryOf(Fold(Diagnostics(None, other), init)).pnl, init, e);
      assert init + [e] == es;
      FoldSnoc(Diagnostics(None, other), es);
    }
  }
}
