/** The outcome backfill (scripts/backfill_trade_outcomes.py). */
module Backfill {
  import opened Common
  import opened TradeOutcome

  /** The row columns the script reads; a price of None is a null column. */
  datatype Row = Row(
    status: Tag, side: Side, pnl: Option<real>, maxFavorable: Option<real>,
    entryLow: Option<real>, entryHigh: Option<real>,
    tp1: Option<real>, tp2: Option<real>, tp3: Option<real>,
    diagnostics: Diagnostics)

  /** Python truth of a nullable number. */
  predicate Nonzero(x: Option<real>) { x.Some? && x.value != 0.0 }

  function FavorablePctTo(level: real, mid: real, side: Side): real {
    if mid == 0.0 then 0.0
    else
      var raw := (level - mid) / mid * 100.0;
      if side == LONG then raw else -raw
  }

  /** The best favourable move ever seen reached this level. */
  predicate RanTo(level: Option<real>, mfe: real, mid: real, side: Side) {
    Nonzero(level) && mfe >= FavorablePctTo(level.value, mid, side) > 0.0
  }

  /** Highest level the excursion reached. */
  function RankByExcursion(r: Row): nat {
    var mfe := if r.maxFavorable.Some? then r.maxFavorable.value else 0.0;
    if mfe > 0.0 && Nonzero(r.entryLow) && Nonzero(r.entryHigh) then
      var mid := (r.entryLow.value + r.entryHigh.value) / 2.0;
      if RanTo(r.tp3, mfe, mid, r.side) then 3
      else if RanTo(r.tp2, mfe, mid, r.side) then 2
      else if RanTo(r.tp1, mfe, mid, r.side) then 1
      else 0
    else 0
  }

  function Inferred(r: Row): int {
    var existing := HistoryOf(r.diagnostics);
    if existing.maxTp.Val? && existing.maxTp.value > 0 then existing.maxTp.value
    else Higher(Rank(r.status), RankByExcursion(r))
  }

  /** infer_max_tp_hit: its loop keeps the highest rank among the levels reached. */
  method InferMaxTpHit(r: Row) returns (rank: int)
    ensures rank == Inferred(r)
  {
    var existing := HistoryOf(r.diagnostics);
    if existing.maxTp.Val? && existing.maxTp.value > 0 {
      return existing.maxTp.value;
    }
    var byMfe := 0;
    var mfe := if r.maxFavorable.Some? then r.maxFavorable.value else 0.0;
    if mfe > 0.0 && Nonzero(r.entryLow) && Nonzero(r.entryHigh) {
      var mid := (r.entryLow.value + r.entryHigh.value) / 2.0;
      var levels := [r.tp1, r.tp2, r.tp3];
      for i := 0 to 3
        invariant byMfe <= i
        invariant byMfe > 0 ==> RanTo(levels[byMfe - 1], mfe, mid, r.side)
        invariant forall j :: byMfe <= j < i ==> !RanTo(levels[j], mfe, mid, r.side)
      {
        if RanTo(levels[i], mfe, mid, r.side) {
          byMfe := i + 1;
        }
      }
      assert levels[0] == r.tp1 && levels[1] == r.tp2 && levels[2] == r.tp3;
    }
    assert byMfe == RankByExcursion(r);
    rank := Higher(Rank(r.status), byMfe);
  }

  const BACKFILLED := "backfilled"

  /** build_tp_history */
  function BuildTpHistory(r: Row): History {
    var existing := HistoryOf(r.diagnostics);
    var rank := Inferred(r);
    var h := existing.(
      maxTp := Val(rank),
      final := if existing.final.Absent?
               then (if r.status == OPEN || r.status == NOTHING then Null else Val(r.status))
               else existing.final,
      first := if existing.first.Absent? && rank == 0 && r.status == SL then Val(SL) else existing.first,
      extra := if BACKFILLED in existing.extra then existing.extra else existing.extra[BACKFILLED := "true"]);
    h.(outcome := Val(Classify(r.status, r.pnl, h)))
  }

  /** One row of the script with --apply: only the tp_history member is written. */
  function Apply(r: Row): Row {
    r.(diagnostics := r.diagnostics.(history := Some(BuildTpHistory(r))))
  }

  /** winrate_bucket_for_signal */
  function RowBucket(r: Row): Bucket {
    BucketOf(Classify(r.status, r.pnl, HistoryOf(r.diagnostics)))
  }

  /** Running the script again changes nothing. */
  lemma BackfillIdempotent(r: Row)
    ensures Apply(Apply(r)) == Apply(r)
  {
    var once := Apply(r);
    assert Inferred(once) == Inferred(r);
    assert BuildTpHistory(once) == BuildTpHistory(r);
  }

  lemma BackfillNeverLowersRank(r: Row)
    ensures MaxTp(r.status, HistoryOf(Apply(r).diagnostics)) >= MaxTp(r.status, HistoryOf(r.diagnostics))
  {
  }

  /** The script can only turn rows into wins: a row keeps its win-rate bucket or enters the
      WIN bucket, so it never takes one out. What it stores is what a fresh classification
      of the written row says. */
  lemma BackfillOnlyAddsWins(r: Row)
    ensures RowBucket(Apply(r)) == RowBucket(r) || RowBucket(Apply(r)) == WinBucket
    ensures RowBucket(r) == WinBucket ==> RowBucket(Apply(r)) == WinBucket
    ensures StoredBucket(Apply(r).diagnostics) == Some(RowBucket(Apply(r)))
    ensures Apply(r).diagnostics.other == r.diagnostics.other
  {
    BackfillNeverLowersRank(r);
  }

  /** Exactly which stopped-out legacy rows are recovered as wins: those whose history,
      or whose best excursion, testifies to a target. */
  lemma RecoveredRows(r: Row)
    requires r.status == SL
    ensures RowBucket(Apply(r)) == WinBucket
            <==> HistoryRank(HistoryOf(r.diagnostics)) >= 1 || RankByExcursion(r) >= 1
  {
  }

  lemma KeepsBlock(r: Row, h: History, rank: nat)
    requires h == HistoryOf(r.diagnostics) && h.maxTp == Val(rank) && Rank(r.status) <= rank
    requires h.first.Val? && h.final.Val? && h.outcome == Val(Classify(r.status, r.pnl, h))
    requires rank >= 1 || RankByExcursion(r) == 0
    ensures BuildTpHistory(r).(extra := map[]) == h.(extra := map[])
  {
  }

  /** The backfill does not disturb what the tracker recorded, whichever way it stored a
      protected stop: on a row whose history a lifecycle built, it keeps the rank, the outcome,
      the first and last event and all times, unless the row is to be recovered: the history
      shows no target and the excursion does. */
  lemma BackfillRespectsTracker(r: Row, es: seq<Exit>, other: map<string, string>)
    requires Lifecycle(es) && r.diagnostics == Fold(Diagnostics(None, other), es)
    requires r.status == es[|es| - 1].tag
             || (es[|es| - 1].tag == SL && MaxRank(es) >= 1 && Rank(r.status) == MaxRank(es))
    ensures BuildTpHistory(r).(extra := map[]) == HistoryOf(r.diagnostics).(extra := map[])
            <==> MaxRank(es) >= 1 || RankByExcursion(r) == 0
  {
    FoldRanks(es, other);
    FreshMatchesStored(es, other, r.status, r.pnl);
    MaxRankIsMax(es);
    if MaxRank(es) >= 1 || RankByExcursion(r) == 0 {
      KeepsBlock(r, HistoryOf(r.diagnostics), MaxRank(es));
    } else {
      assert BuildTpHistory(r).maxTp == Val(Inferred(r)) && Inferred(r) >= 1;
    }
  }

  // ---- what the excursion testifies to, told from the row's prices ----

  /** The best favourable move of the row, in percent of the middle of its entry band, went at least
      to this level, which lies in the trade's favour. */
  ghost predicate WentTo(r: Row, level: Option<real>) {
    && r.maxFavorable.Some? && r.entryLow.Some? && r.entryHigh.Some? && level.Some?
    && r.entryLow.value != 0.0 && r.entryHigh.value != 0.0 && level.value != 0.0
    && var mid := (r.entryLow.value + r.entryHigh.value) / 2.0;
       mid != 0.0
       && 0.0 < (if r.side == LONG then level.value - mid else mid - level.value) / mid * 100.0 <= r.maxFavorable.value
  }

  lemma NegatedQuotient(a: real, b: real)
    requires b != 0.0
    ensures -(a / b * 100.0) == -a / b * 100.0
  {
  }

  lemma RanToIsWentTo(r: Row, level: Option<real>)
    requires r.maxFavorable.Some? && Nonzero(r.entryLow) && Nonzero(r.entryHigh)
    ensures RanTo(level, r.maxFavorable.value, (r.entryLow.value + r.entryHigh.value) / 2.0, r.side)
            <==> WentTo(r, level)
  {
    var mid := (r.entryLow.value + r.entryHigh.value) / 2.0;
    if mid != 0.0 && level.Some? {
      NegatedQuotient(level.value - mid, mid);
    }
  }

  /** The rank is that of the highest level the excursion went to; and what the script stores is a
      positive rank already recorded, else the higher of that and the status. */
  lemma ExcursionMeans(r: Row)
    ensures RankByExcursion(r)
            == if WentTo(r, r.tp3) then 3 else if WentTo(r, r.tp2) then 2 else if WentTo(r, r.tp1) then 1 else 0
  {
    if r.maxFavorable.Some? && Nonzero(r.entryLow) && Nonzero(r.entryHigh) {
      RanToIsWentTo(r, r.tp1);
      RanToIsWentTo(r, r.tp2);
      RanToIsWentTo(r, r.tp3);
    }
  }

  /** The written block, member by member: the rank; the recorded last event, or the status unless that
      is open; the recorded first event, or the stop of a row that shows no target; the note that it was
      backfilled; all times and the profit as they were. */
  lemma WrittenBlock(r: Row)
    ensures var was, h := HistoryOf(r.diagnostics), HistoryOf(Apply(r).diagnostics);
            var status :=
              if r.status == TP1 then 1 else if r.status == TP2 then 2 else if r.status == TP3 then 3 else 0;
            && h.maxTp.Val?
            && (if was.maxTp.Val? && was.maxTp.value > 0 then h.maxTp == was.maxTp
                else h.maxTp.value in {status, RankByExcursion(r)} && h.maxTp.value >= status
                     && h.maxTp.value >= RankByExcursion(r))
            && h.final == (if !was.final.Absent? then was.final
                           else if r.status in {OPEN, NOTHING} then Null else Val(r.status))
            && h.first == (if !was.first.Absent? || h.maxTp.value != 0 || r.status != SL then was.first else Val(SL))
            && h.extra.Keys == was.extra.Keys + {"backfilled"}
            && (forall k :: k in was.extra ==> h.extra[k] == was.extra[k])
            && ("backfilled" !in was.extra ==> h.extra["backfilled"] == "true")
            && h.tp1At == was.tp1At && h.tp2At == was.tp2At && h.tp3At == was.tp3At
            && h.slAt == was.slAt && h.beAt == was.beAt && h.pnl == was.pnl
  {
  }
}
