/** The strict four-layer multi-timeframe gate (app/ai_scoring/mtf.py). */
module Mtf {
  import opened Common

  datatype Timeframe = D1 | H4 | H1 | M15

  datatype Structure = Structure(
    bosBull: bool, bosBear: bool,
    mssBull: bool, mssBear: bool,
    obBull: bool, obBear: bool,
    fvgBull: bool, fvgBear: bool,
    sweepBull: bool, sweepBear: bool,
    pullbackBull: bool, pullbackBear: bool,
    retestBull: bool, retestBear: bool)

  /** The snapshot fields the gate reads. */
  datatype Snapshot = Snapshot(
    lastClose: real,
    emaFast: real, emaSlow: real, ema50: real, ema200: real,
    aboveVwap: bool, volSpikePct: real,
    structure: Structure)

  datatype Settings = Settings(entryPassScore: int, entryRequireTrigger: bool)

  datatype Tier = ELITE | VIP | PUBLIC | NONE

  datatype Decision = Decision(
    side: Side, confidence: real, tier: Tier,
    trendScore: real, structureScore: int, setupScore: int, entryScore: int)

  datatype Stage = NO_DATA | TREND | STRUCTURE | SETUP | ENTRY

  datatype Verdict = Accepted(decision: Decision) | Rejected(stage: Stage)

  function Bit(b: bool): nat { if b then 1 else 0 }

  function TierOf(confidence: real): Tier {
    if confidence >= 95.0 then ELITE
    else if confidence >= 85.0 then VIP
    else if confidence >= 75.0 then PUBLIC
    else NONE
  }

  predicate Bull(d1: Snapshot) {
    d1.ema50 > d1.ema200 && d1.lastClose > d1.ema200
  }

  predicate Bear(d1: Snapshot) {
    d1.ema50 < d1.ema200 && d1.lastClose < d1.ema200
  }

  function TrendScore(d1: Snapshot, side: Side): real {
    var s := d1.structure;
    var confirmed := if side == LONG then s.bosBull || s.mssBull else s.bosBear || s.mssBear;
    var separation := Abs(d1.ema50 - d1.ema200) / Max(d1.ema200, 0.000000000001);
    10.0 + Min(5.0, separation * 500.0) + (if confirmed then 5.0 else 0.0)
  }

  function StructureHits(h4: Snapshot, side: Side): nat {
    var s := h4.structure;
    if side == LONG then
      Bit(s.bosBull) + Bit(s.mssBull) + Bit(s.obBull) + Bit(s.fvgBull) + Bit(s.sweepBull)
    else
      Bit(s.bosBear) + Bit(s.mssBear) + Bit(s.obBear) + Bit(s.fvgBear) + Bit(s.sweepBear)
  }

  predicate EmaAligned(s: Snapshot, side: Side) {
    if side == LONG then s.emaFast > s.emaSlow && s.lastClose > s.emaSlow
    else s.emaFast < s.emaSlow && s.lastClose < s.emaSlow
  }

  predicate VwapSide(s: Snapshot, side: Side) {
    if side == LONG then s.aboveVwap else !s.aboveVwap
  }

  function SetupHits(h1: Snapshot, side: Side): nat {
    var s := h1.structure;
    Bit(if side == LONG then s.pullbackBull else s.pullbackBear) +
    Bit(if side == LONG then s.retestBull else s.retestBear) +
    Bit(VwapSide(h1, side)) + Bit(EmaAligned(h1, side)) + Bit(h1.volSpikePct > 20.0)
  }

  function Triggers(m15: Snapshot, side: Side): nat {
    var s := m15.structure;
    if side == LONG then Bit(s.bosBull) + Bit(s.fvgBull) + Bit(s.obBull)
    else Bit(s.bosBear) + Bit(s.fvgBear) + Bit(s.obBear)
  }

  function EntryScore(m15: Snapshot, side: Side): nat {
    Triggers(m15, side) + Bit(EmaAligned(m15, side)) + Bit(VwapSide(m15, side))
  }

  function Confidence(trend: real, structureHits: int, setupHits: int, entry: int): real {
    var structureBonus := Min(6.0, Max(0.0, (structureHits - 2) as real * 2.0));
    var setupBonus := Min(4.0, Max(0.0, (setupHits - 3) as real * 2.0));
    var entryBonus := Min(10.0, entry as real * 2.0);
    Round(Min(100.0, 75.0 + trend - 10.0 + structureBonus + setupBonus + entryBonus), 10.0)
  }

  function EvaluateSide(snaps: map<Timeframe, Snapshot>, side: Side, cfg: Settings): Verdict
    requires {D1, H4, H1, M15} <= snaps.Keys
  {
    var trend := TrendScore(snaps[D1], side);
    var structureHits := StructureHits(snaps[H4], side);
    if structureHits < 2 then Rejected(STRUCTURE) else
    var setupHits := SetupHits(snaps[H1], side);
    if setupHits < 3 then Rejected(SETUP) else
    var entry := EntryScore(snaps[M15], side);
    var minScore := if cfg.entryPassScore < 1 then 1 else cfg.entryPassScore;
    if entry < minScore || (cfg.entryRequireTrigger && Triggers(snaps[M15], side) == 0) then
      Rejected(ENTRY)
    else
      var confidence := Confidence(trend, structureHits, setupHits, entry);
      Accepted(Decision(side, confidence, TierOf(confidence),
                        Round(trend, 10.0), structureHits, setupHits, entry))
  }

  function EvaluatePipeline(snaps: map<Timeframe, Snapshot>, cfg: Settings): Verdict {
    if !({D1, H4, H1, M15} <= snaps.Keys) then Rejected(NO_DATA)
    else if Bull(snaps[D1]) then EvaluateSide(snaps, LONG, cfg)
    else if Bear(snaps[D1]) then EvaluateSide(snaps, SHORT, cfg)
    else Rejected(TREND)
  }

  /** The replay's early exit: a 1D snapshot without a trend is always rejected,
      whatever the other three timeframes hold, and it is the only thing rejected as TREND. */
  lemma TrendGate(snaps: map<Timeframe, Snapshot>, cfg: Settings)
    requires {D1, H4, H1, M15} <= snaps.Keys
    ensures EvaluatePipeline(snaps, cfg) == Rejected(TREND)
            <==> !Bull(snaps[D1]) && !Bear(snaps[D1])
  {
  }

  lemma NonNegativeQuotient(a: real, b: real)
    requires a >= 0.0 && b > 0.0
    ensures a / b >= 0.0
  {
  }

  lemma ConfidenceRange(trend: real, structureHits: int, setupHits: int, entry: int)
    requires trend >= 10.0 && 1 <= entry <= 5
    ensures 75.0 + 2.0 * entry as real <= Confidence(trend, structureHits, setupHits, entry) <= 100.0
  {
    var structureBonus := Min(6.0, Max(0.0, (structureHits - 2) as real * 2.0));
    var setupBonus := Min(4.0, Max(0.0, (setupHits - 3) as real * 2.0));
    var raw := Min(100.0, 75.0 + trend - 10.0 + structureBonus + setupBonus + Min(10.0, entry as real * 2.0));
    var least := 75.0 + 2.0 * entry as real;
    assert least <= raw <= 100.0;
    RoundMonotone(least, raw, 10.0);
    RoundMonotone(raw, 100.0, 10.0);
    RoundExact(least, 10.0, 750 + 20 * entry);
    RoundExact(100.0, 10.0, 1000);
  }

  /** Whatever passes all four layers carries a publishable confidence: the
      "below 75, reject" tier is unreachable, and every entry factor adds two points, so a
      passing entry layer lifts the score to 77 at least. */
  lemma AcceptedIsPublishable(snaps: map<Timeframe, Snapshot>, cfg: Settings)
    requires EvaluatePipeline(snaps, cfg).Accepted?
    ensures var d := EvaluatePipeline(snaps, cfg).decision;
            && 77.0 <= 75.0 + 2.0 * d.entryScore as real <= d.confidence <= 100.0
            && d.tier != NONE
            && (d.side == LONG <==> Bull(snaps[D1]))
            && (d.side == SHORT <==> Bear(snaps[D1]))
            && 2 <= d.structureScore <= 5 && 3 <= d.setupScore <= 5
            && 1 <= d.entryScore <= 5 && d.entryScore >= cfg.entryPassScore
            && (cfg.entryRequireTrigger ==> Triggers(snaps[M15], d.side) >= 1)
  {
    var d := EvaluatePipeline(snaps, cfg).decision;
    var d1 := snaps[D1];
    var trend := TrendScore(d1, d.side);
    assert trend >= 10.0 by {
      NonNegativeQuotient(Abs(d1.ema50 - d1.ema200), Max(d1.ema200, 0.000000000001));
    }
    ConfidenceRange(trend, d.structureScore, d.setupScore, d.entryScore);
  }

  const NO_SIGNS := Structure(false, false, false, false, false, false, false,
                              false, false, false, false, false, false, false)

  /** A trend that is barely one, two structure signs, three setup signs, one entry trigger. */
  function Barely(): map<Timeframe, Snapshot> {
    map[D1 := Snapshot(101.0, 0.0, 0.0, 100.001, 100.0, false, 0.0, NO_SIGNS),
        H4 := Snapshot(0.0, 0.0, 0.0, 0.0, 0.0, false, 0.0, NO_SIGNS.(bosBull := true, mssBull := true)),
        H1 := Snapshot(0.0, 0.0, 0.0, 0.0, 0.0, true, 0.0, NO_SIGNS.(pullbackBull := true, retestBull := true)),
        M15 := Snapshot(0.0, 0.0, 0.0, 0.0, 0.0, false, 0.0, NO_SIGNS.(bosBull := true))]
  }

  /** The lower bound is reached: one trigger is enough when the threshold is one. */
  lemma LowestConfidence()
    ensures EvaluatePipeline(Barely(), Settings(1, true))
            == Accepted(Decision(LONG, 77.0, PUBLIC, 10.0, 2, 3, 1))
  {
    var d1 := Barely()[D1];
    assert TrendScore(d1, LONG) == 10.005;
    assert Confidence(10.005, 2, 3, 1) == 77.0 by {
      assert Nearest(770.05) == 770;
    }
    assert Round(10.005, 10.0) == 10.0 by {
      assert Nearest(100.05) == 100;
    }
  }

  // ---- the two sides are treated alike ----

  function MirrorStructure(s: Structure): Structure {
    Structure(s.bosBear, s.bosBull, s.mssBear, s.mssBull, s.obBear, s.obBull, s.fvgBear, s.fvgBull,
              s.sweepBear, s.sweepBull, s.pullbackBear, s.pullbackBull, s.retestBear, s.retestBull)
  }

  /** The same market upside down: prices reflected about the EMA200, sides swapped. */
  function MirrorSnapshot(s: Snapshot): Snapshot {
    Snapshot(2.0 * s.ema200 - s.lastClose,
             2.0 * s.ema200 - s.emaFast, 2.0 * s.ema200 - s.emaSlow, 2.0 * s.ema200 - s.ema50, s.ema200,
             !s.aboveVwap, s.volSpikePct, MirrorStructure(s.structure))
  }

  function Mirror(snaps: map<Timeframe, Snapshot>): (r: map<Timeframe, Snapshot>)
    ensures r.Keys == snaps.Keys
  {
    map tf | tf in snaps :: MirrorSnapshot(snaps[tf])
  }

  function Opposite(side: Side): Side { if side == LONG then SHORT else LONG }

  function FlipVerdict(v: Verdict): Verdict {
    match v
    case Accepted(d) => Accepted(d.(side := Opposite(d.side)))
    case Rejected(_) => v
  }

  lemma LayersMirror(s: Snapshot, side: Side)
    ensures TrendScore(MirrorSnapshot(s), side) == TrendScore(s, Opposite(side))
    ensures StructureHits(MirrorSnapshot(s), side) == StructureHits(s, Opposite(side))
    ensures SetupHits(MirrorSnapshot(s), side) == SetupHits(s, Opposite(side))
    ensures Triggers(MirrorSnapshot(s), side) == Triggers(s, Opposite(side))
    ensures EntryScore(MirrorSnapshot(s), side) == EntryScore(s, Opposite(side))
  {
    assert Abs(MirrorSnapshot(s).ema50 - s.ema200) == Abs(s.ema50 - s.ema200);
  }

  lemma SideMirrors(snaps: map<Timeframe, Snapshot>, side: Side, cfg: Settings)
    requires {D1, H4, H1, M15} <= snaps.Keys
    ensures EvaluateSide(Mirror(snaps), side, cfg) == FlipVerdict(EvaluateSide(snaps, Opposite(side), cfg))
  {
    LayersMirror(snaps[D1], side);
    LayersMirror(snaps[H4], side);
    LayersMirror(snaps[H1], side);
    LayersMirror(snaps[M15], side);
  }

  /** The pipeline has no bias: turning the market upside down turns the decision's side and
      changes nothing else, neither scores nor confidence nor the stage of a rejection. */
  lemma PipelineIsSymmetric(snaps: map<Timeframe, Snapshot>, cfg: Settings)
    ensures EvaluatePipeline(Mirror(snaps), cfg) == FlipVerdict(EvaluatePipeline(snaps, cfg))
  {
    if {D1, H4, H1, M15} <= snaps.Keys {
      SideMirrors(snaps, LONG, cfg);
      SideMirrors(snaps, SHORT, cfg);
      assert Bull(MirrorSnapshot(snaps[D1])) <==> Bear(snaps[D1]);
      assert Bear(MirrorSnapshot(snaps[D1])) <==> Bull(snaps[D1]);
    }
  }

  // ---- more evidence never hurts ----

  /** Every bullish sign of s is also in t. */
  predicate BullishIn(s: Structure, t: Structure) {
    && (s.bosBull ==> t.bosBull) && (s.mssBull ==> t.mssBull) && (s.obBull ==> t.obBull)
    && (s.fvgBull ==> t.fvgBull) && (s.sweepBull ==> t.sweepBull)
    && (s.pullbackBull ==> t.pullbackBull) && (s.retestBull ==> t.retestBull)
  }

  /** t is at least as bullish as s, on the same daily trend figures. */
  predicate AtLeastAsBullish(s: Snapshot, t: Snapshot) {
    && BullishIn(s.structure, t.structure)
    && s.ema50 == t.ema50 && s.ema200 == t.ema200 && s.lastClose <= t.lastClose
    && s.emaFast <= t.emaFast && s.emaSlow == t.emaSlow
    && (s.aboveVwap ==> t.aboveVwap) && s.volSpikePct <= t.volSpikePct
  }

  lemma ConfidenceMonotone(t1: real, s1: int, u1: int, e1: int, t2: real, s2: int, u2: int, e2: int)
    requires t1 <= t2 && s1 <= s2 && u1 <= u2 && e1 <= e2
    ensures Confidence(t1, s1, u1, e1) <= Confidence(t2, s2, u2, e2)
  {
    var raw1 := Min(100.0, 75.0 + t1 - 10.0 + Min(6.0, Max(0.0, (s1 - 2) as real * 2.0))
                           + Min(4.0, Max(0.0, (u1 - 3) as real * 2.0)) + Min(10.0, e1 as real * 2.0));
    var raw2 := Min(100.0, 75.0 + t2 - 10.0 + Min(6.0, Max(0.0, (s2 - 2) as real * 2.0))
                           + Min(4.0, Max(0.0, (u2 - 3) as real * 2.0)) + Min(10.0, e2 as real * 2.0));
    RoundMonotone(raw1, raw2, 10.0);
  }

  /** Every layer's score grows with the evidence. */
  lemma LayersGrow(s: Snapshot, t: Snapshot)
    requires AtLeastAsBullish(s, t)
    ensures TrendScore(s, LONG) <= TrendScore(t, LONG)
    ensures StructureHits(s, LONG) <= StructureHits(t, LONG)
    ensures SetupHits(s, LONG) <= SetupHits(t, LONG)
    ensures Triggers(s, LONG) <= Triggers(t, LONG)
    ensures EntryScore(s, LONG) <= EntryScore(t, LONG)
  {
  }

  ghost predicate NoWorse(before: Verdict, after: Verdict, side: Side) {
    before.Accepted? && after.Accepted? && before.decision.side == after.decision.side == side
    && before.decision.confidence <= after.decision.confidence
  }

  lemma LongSideGrows(snaps: map<Timeframe, Snapshot>, more: map<Timeframe, Snapshot>, cfg: Settings)
    requires {D1, H4, H1, M15} <= snaps.Keys && {D1, H4, H1, M15} <= more.Keys
    requires forall tf :: tf in {D1, H4, H1, M15} ==> AtLeastAsBullish(snaps[tf], more[tf])
    requires EvaluateSide(snaps, LONG, cfg).Accepted?
    ensures NoWorse(EvaluateSide(snaps, LONG, cfg), EvaluateSide(more, LONG, cfg), LONG)
  {
    LayersGrow(snaps[D1], more[D1]);
    LayersGrow(snaps[H4], more[H4]);
    LayersGrow(snaps[H1], more[H1]);
    LayersGrow(snaps[M15], more[M15]);
    ConfidenceMonotone(
      TrendScore(snaps[D1], LONG), StructureHits(snaps[H4], LONG),
      SetupHits(snaps[H1], LONG), EntryScore(snaps[M15], LONG),
      TrendScore(more[D1], LONG), StructureHits(more[H4], LONG),
      SetupHits(more[H1], LONG), EntryScore(more[M15], LONG));
  }

  /** An accepted decision is on the side of the 1D trend, and is that side's. */
  lemma PipelineTakesSide(snaps: map<Timeframe, Snapshot>, cfg: Settings)
    requires {D1, H4, H1, M15} <= snaps.Keys
    ensures Bull(snaps[D1]) ==> EvaluatePipeline(snaps, cfg) == EvaluateSide(snaps, LONG, cfg)
    ensures Bear(snaps[D1]) ==> EvaluatePipeline(snaps, cfg) == EvaluateSide(snaps, SHORT, cfg)
    ensures var v := EvaluatePipeline(snaps, cfg);
            v.Accepted? ==> if v.decision.side == LONG then Bull(snaps[D1]) else Bear(snaps[D1])
  {
  }

  /** A long signal survives any additional bullish evidence, with no less confidence. */
  lemma MoreEvidenceNeverHurts(snaps: map<Timeframe, Snapshot>, more: map<Timeframe, Snapshot>, cfg: Settings)
    requires {D1, H4, H1, M15} <= snaps.Keys && {D1, H4, H1, M15} <= more.Keys
    requires forall tf :: tf in {D1, H4, H1, M15} ==> AtLeastAsBullish(snaps[tf], more[tf])
    requires EvaluatePipeline(snaps, cfg).Accepted? && EvaluatePipeline(snaps, cfg).decision.side == LONG
    ensures NoWorse(EvaluatePipeline(snaps, cfg), EvaluatePipeline(more, cfg), LONG)
  {
    PipelineTakesSide(snaps, cfg);
    PipelineTakesSide(more, cfg);
    assert AtLeastAsBullish(snaps[D1], more[D1]);
    LongSideGrows(snaps, more, cfg);
  }

  predicate BearishIn(s: Structure, t: Structure) {
    && (s.bosBear ==> t.bosBear) && (s.mssBear ==> t.mssBear) && (s.obBear ==> t.obBear)
    && (s.fvgBear ==> t.fvgBear) && (s.sweepBear ==> t.sweepBear)
    && (s.pullbackBear ==> t.pullbackBear) && (s.retestBear ==> t.retestBear)
  }

  predicate AtLeastAsBearish(s: Snapshot, t: Snapshot) {
    && BearishIn(s.structure, t.structure)
    && s.ema50 == t.ema50 && s.ema200 == t.ema200 && s.lastClose >= t.lastClose
    && s.emaFast >= t.emaFast && s.emaSlow == t.emaSlow
    && (!s.aboveVwap ==> !t.aboveVwap) && s.volSpikePct <= t.volSpikePct
  }

  lemma BearishMirrors(s: Snapshot, t: Snapshot)
    requires AtLeastAsBearish(s, t)
    ensures AtLeastAsBullish(MirrorSnapshot(s), MirrorSnapshot(t))
  {
  }

  lemma ShortSideGrows(snaps: map<Timeframe, Snapshot>, more: map<Timeframe, Snapshot>, cfg: Settings)
    requires {D1, H4, H1, M15} <= snaps.Keys && {D1, H4, H1, M15} <= more.Keys
    requires forall tf :: tf in {D1, H4, H1, M15} ==> AtLeastAsBearish(snaps[tf], more[tf])
    requires EvaluateSide(snaps, SHORT, cfg).Accepted?
    ensures NoWorse(FlipVerdict(EvaluateSide(snaps, SHORT, cfg)), FlipVerdict(EvaluateSide(more, SHORT, cfg)), LONG)
  {
    SideMirrors(snaps, LONG, cfg);
    SideMirrors(more, LONG, cfg);
    forall tf | tf in {D1, H4, H1, M15}
      ensures AtLeastAsBullish(Mirror(snaps)[tf], Mirror(more)[tf])
    {
      BearishMirrors(snaps[tf], more[tf]);
    }
    LongSideGrows(Mirror(snaps), Mirror(more), cfg);
  }

  /** The same of short signals and bearish evidence, by turning the market upside down. */
  lemma MoreBearishEvidenceNeverHurts(snaps: map<Timeframe, Snapshot>, more: map<Timeframe, Snapshot>, cfg: Settings)
    requires {D1, H4, H1, M15} <= snaps.Keys && {D1, H4, H1, M15} <= more.Keys
    requires forall tf :: tf in {D1, H4, H1, M15} ==> AtLeastAsBearish(snaps[tf], more[tf])
    requires EvaluatePipeline(snaps, cfg).Accepted? && EvaluatePipeline(snaps, cfg).decision.side == SHORT
    ensures NoWorse(EvaluatePipeline(snaps, cfg), EvaluatePipeline(more, cfg), SHORT)
  {
    PipelineTakesSide(snaps, cfg);
    PipelineTakesSide(more, cfg);
    assert AtLeastAsBearish(snaps[D1], more[D1]);
    ShortSideGrows(snaps, more, cfg);
  }

  // ---- the gate, told vote by vote ----

  /** The named signs the layers vote with. */
  datatype Vote = BOS | CHOCH | OB | FVG | SWEEP | PULLBACK | RETEST | VWAP | EMA | VOLUME

  predicate Shows(s: Snapshot, side: Side, v: Vote) {
    var t := s.structure;
    match v
    case BOS => if side == LONG then t.bosBull else t.bosBear
    case CHOCH => if side == LONG then t.mssBull else t.mssBear
    case OB => if side == LONG then t.obBull else t.obBear
    case FVG => if side == LONG then t.fvgBull else t.fvgBear
    case SWEEP => if side == LONG then t.sweepBull else t.sweepBear
    case PULLBACK => if side == LONG then t.pullbackBull else t.pullbackBear
    case RETEST => if side == LONG then t.retestBull else t.retestBear
    case VWAP => s.aboveVwap == (side == LONG)
    case EMA =>
      if side == LONG then s.emaFast > s.emaSlow && s.lastClose > s.emaSlow
      else s.emaFast < s.emaSlow && s.lastClose < s.emaSlow
    case VOLUME => s.volSpikePct > 20.0
  }

  /** Those of the votes that a snapshot shows. */
  ghost function Shown(s: Snapshot, side: Side, votes: set<Vote>): set<Vote> {
    set v | v in votes && Shows(s, side, v)
  }

  lemma OneMoreVote(s: Snapshot, side: Side, votes: set<Vote>, v: Vote)
    requires v !in votes
    ensures |Shown(s, side, votes + {v})| == |Shown(s, side, votes)| + Bit(Shows(s, side, v))
  {
    if Shows(s, side, v) {
      assert Shown(s, side, votes + {v}) == Shown(s, side, votes) + {v};
    } else {
      assert Shown(s, side, votes + {v}) == Shown(s, side, votes);
    }
  }

  lemma ThreeVotes(s: Snapshot, side: Side, a: Vote, b: Vote, c: Vote)
    requires a != b && a != c && b != c
    ensures |Shown(s, side, {a, b, c})| == Bit(Shows(s, side, a)) + Bit(Shows(s, side, b)) + Bit(Shows(s, side, c))
  {
    assert Shown(s, side, {}) == {};
    OneMoreVote(s, side, {}, a);
    OneMoreVote(s, side, {} + {a}, b);
    OneMoreVote(s, side, {} + {a} + {b}, c);
    assert {} + {a} + {b} + {c} == {a, b, c};
  }

  lemma FiveVotes(s: Snapshot, side: Side, a: Vote, b: Vote, c: Vote, d: Vote, e: Vote)
    requires a != b && a != c && b != c && d !in {a, b, c} && e !in {a, b, c, d}
    ensures |Shown(s, side, {a, b, c, d, e})|
            == Bit(Shows(s, side, a)) + Bit(Shows(s, side, b)) + Bit(Shows(s, side, c))
               + Bit(Shows(s, side, d)) + Bit(Shows(s, side, e))
  {
    ThreeVotes(s, side, a, b, c);
    OneMoreVote(s, side, {a, b, c}, d);
    OneMoreVote(s, side, {a, b, c} + {d}, e);
    assert {a, b, c} + {d} + {e} == {a, b, c, d, e};
  }

  const STRUCTURE_VOTES := {BOS, CHOCH, OB, FVG, SWEEP}
  const SETUP_VOTES := {PULLBACK, RETEST, VWAP, EMA, VOLUME}
  const ENTRY_VOTES := {BOS, FVG, OB, EMA, VWAP}
  const TRIGGER_VOTES := {BOS, FVG, OB}

  lemma HigherVotes(s: Snapshot, side: Side)
    ensures StructureHits(s, side) == |Shown(s, side, STRUCTURE_VOTES)|
    ensures SetupHits(s, side) == |Shown(s, side, SETUP_VOTES)|
  {
    FiveVotes(s, side, BOS, CHOCH, OB, FVG, SWEEP);
    FiveVotes(s, side, PULLBACK, RETEST, VWAP, EMA, VOLUME);
  }

  lemma EntryVotes(s: Snapshot, side: Side)
    ensures EntryScore(s, side) == |Shown(s, side, ENTRY_VOTES)|
    ensures Triggers(s, side) == |Shown(s, side, TRIGGER_VOTES)|
  {
    FiveVotes(s, side, BOS, FVG, OB, EMA, VWAP);
    ThreeVotes(s, side, BOS, FVG, OB);
  }

  /** Each layer's score is the number of its named votes that its snapshot shows. */
  lemma ScoresCountVotes(s: Snapshot, side: Side)
    ensures StructureHits(s, side) == |Shown(s, side, STRUCTURE_VOTES)|
    ensures SetupHits(s, side) == |Shown(s, side, SETUP_VOTES)|
    ensures EntryScore(s, side) == |Shown(s, side, ENTRY_VOTES)|
    ensures Triggers(s, side) == |Shown(s, side, TRIGGER_VOTES)|
  {
    HigherVotes(s, side);
    EntryVotes(s, side);
  }

  /** The 1D trend of a side: EMA50 and the close on the same side of EMA200. */
  predicate Trends(d1: Snapshot, side: Side) {
    if side == LONG then d1.ema200 < d1.ema50 && d1.ema200 < d1.lastClose
    else d1.ema50 < d1.ema200 && d1.lastClose < d1.ema200
  }

  ghost predicate EntryPasses(m15: Snapshot, side: Side, cfg: Settings) {
    var shown := |Shown(m15, side, ENTRY_VOTES)|;
    && shown >= 1 && shown >= cfg.entryPassScore
    && (cfg.entryRequireTrigger ==> exists v :: v in TRIGGER_VOTES && Shows(m15, side, v))
  }

  lemma TriggerIffShown(s: Snapshot, side: Side)
    ensures |Shown(s, side, TRIGGER_VOTES)| == 0 <==> forall v :: v in TRIGGER_VOTES ==> !Shows(s, side, v)
  {
    if v :| v in TRIGGER_VOTES && Shows(s, side, v) {
      assert v in Shown(s, side, TRIGGER_VOTES);
    } else {
      assert Shown(s, side, TRIGGER_VOTES) == {};
    }
  }

  lemma SideIff(snaps: map<Timeframe, Snapshot>, side: Side, cfg: Settings)
    requires {D1, H4, H1, M15} <= snaps.Keys
    ensures var v := EvaluateSide(snaps, side, cfg);
            var a, b := |Shown(snaps[H4], side, STRUCTURE_VOTES)|, |Shown(snaps[H1], side, SETUP_VOTES)|;
            && (v.Accepted? <==> a >= 2 && b >= 3 && EntryPasses(snaps[M15], side, cfg))
            && (v == Rejected(STRUCTURE) <==> a < 2)
            && (v == Rejected(SETUP) <==> a >= 2 && b < 3)
            && (v == Rejected(ENTRY) <==> a >= 2 && b >= 3 && !EntryPasses(snaps[M15], side, cfg))
            && (v.Accepted? ==>
                  v.decision.side == side && v.decision.structureScore == a && v.decision.setupScore == b
                  && v.decision.entryScore == |Shown(snaps[M15], side, ENTRY_VOTES)|)
  {
    ScoresCountVotes(snaps[H4], side);
    ScoresCountVotes(snaps[H1], side);
    ScoresCountVotes(snaps[M15], side);
    TriggerIffShown(snaps[M15], side);
  }

  /** Exactly when the gate accepts a side, and at which layer it stops: four timeframes; a 1D trend
      of the side; at least two of five votes at 4H; at least three of five at 1H; at 15M at least
      the pass score of five, and a trigger where one is required. */
  lemma AcceptedIff(snaps: map<Timeframe, Snapshot>, side: Side, cfg: Settings)
    ensures var v := EvaluatePipeline(snaps, cfg);
            && (v == Rejected(NO_DATA) <==> !({D1, H4, H1, M15} <= snaps.Keys))
            && ({D1, H4, H1, M15} <= snaps.Keys ==>
                  var a, b := |Shown(snaps[H4], side, STRUCTURE_VOTES)|, |Shown(snaps[H1], side, SETUP_VOTES)|;
                  && (v.Accepted? && v.decision.side == side
                      <==> Trends(snaps[D1], side) && a >= 2 && b >= 3 && EntryPasses(snaps[M15], side, cfg))
                  && (v == Rejected(TREND) <==> !Trends(snaps[D1], LONG) && !Trends(snaps[D1], SHORT))
                  && (Trends(snaps[D1], side) ==>
                        && (v == Rejected(STRUCTURE) <==> a < 2)
                        && (v == Rejected(SETUP) <==> a >= 2 && b < 3)
                        && (v == Rejected(ENTRY) <==> a >= 2 && b >= 3 && !EntryPasses(snaps[M15], side, cfg))))
  {
    if {D1, H4, H1, M15} <= snaps.Keys {
      SideIff(snaps, LONG, cfg);
      SideIff(snaps, SHORT, cfg);
    }
  }

  /** Points for the trend: ten, five more for a break or change of structure on the side, and five
      for every percent that EMA50 stands away from EMA200, five at most. */
  ghost predicate IsTrendScore(d1: Snapshot, side: Side, points: real) {
    var confirmed := if Shows(d1, side, BOS) || Shows(d1, side, CHOCH) then 5.0 else 0.0;
    var apart := points - 10.0 - confirmed;
    var distance := Abs(d1.ema50 - d1.ema200);
    && 0.0 <= apart <= 5.0
    && (d1.ema200 >= 0.000000000001 ==>
          if distance <= d1.ema200 / 100.0 then apart * d1.ema200 == 500.0 * distance else apart == 5.0)
    && (d1.ema200 < 0.000000000001 ==>
          if distance <= 0.00000000000001 then apart == 500.0 * (distance * 1000000000000.0) else apart == 5.0)
  }

  lemma SeparationPoints(distance: real, base: real)
    requires distance >= 0.0 && base > 0.0
    ensures var apart := Min(5.0, distance / base * 500.0);
            && 0.0 <= apart <= 5.0
            && if distance <= base / 100.0 then apart * base == 500.0 * distance else apart == 5.0
  {
    var x := distance / base;
    assert x * base == distance;
    NonNegativeQuotient(distance, base);
    if distance <= base / 100.0 {
      if x > 0.01 {
        assert (x - 0.01) * base > 0.0;
      }
    } else if x < 0.01 {
      assert (0.01 - x) * base > 0.0;
    }
  }

  lemma TrendScoreIs(d1: Snapshot, side: Side)
    ensures IsTrendScore(d1, side, TrendScore(d1, side))
  {
    SeparationPoints(Abs(d1.ema50 - d1.ema200), Max(d1.ema200, 0.000000000001));
  }

  ghost predicate ScoredWith(d: Decision, trend: real) {
    var raw := 65.0 + trend + 2.0 * (d.structureScore - 2) as real + 2.0 * (d.setupScore - 3) as real
               + 2.0 * d.entryScore as real;
    && IsRounded(d.trendScore, trend, 10.0)
    && IsRounded(d.confidence, if raw < 100.0 then raw else 100.0, 10.0)
    && (d.tier == ELITE <==> 95.0 <= d.confidence)
    && (d.tier == VIP <==> 85.0 <= d.confidence < 95.0)
    && (d.tier == PUBLIC <==> 75.0 <= d.confidence < 85.0)
  }

  /** The confidence of an accepted signal: 75, the trend's points above ten, two for every vote
      beyond the required two and three, two for every entry vote, at most 100, to one place; and
      the tier its thresholds 95, 85 and 75 give. */
  ghost predicate IsScored(d: Decision, d1: Snapshot) {
    exists trend: real :: IsTrendScore(d1, d.side, trend) && ScoredWith(d, trend)
  }

  lemma ConfidenceIs(trend: real, a: int, b: int, e: int)
    requires 2 <= a <= 5 && 3 <= b <= 5 && 1 <= e <= 5
    ensures var raw := 65.0 + trend + 2.0 * (a - 2) as real + 2.0 * (b - 3) as real + 2.0 * e as real;
            IsRounded(Confidence(trend, a, b, e), if raw < 100.0 then raw else 100.0, 10.0)
  {
    RoundIs(Min(100.0, 65.0 + trend + 2.0 * (a - 2) as real + 2.0 * (b - 3) as real + 2.0 * e as real), 10.0);
  }

  lemma MadeFrom(d: Decision, trend: real)
    requires d.confidence == Confidence(trend, d.structureScore, d.setupScore, d.entryScore)
    requires d.tier == TierOf(d.confidence) && d.trendScore == Round(trend, 10.0)
    requires 2 <= d.structureScore <= 5 && 3 <= d.setupScore <= 5 && 1 <= d.entryScore <= 5
    ensures ScoredWith(d, trend)
  {
    ConfidenceIs(trend, d.structureScore, d.setupScore, d.entryScore);
    RoundIs(trend, 10.0);
  }

  lemma DecisionIs(snaps: map<Timeframe, Snapshot>, side: Side, cfg: Settings)
    requires {D1, H4, H1, M15} <= snaps.Keys && EvaluateSide(snaps, side, cfg).Accepted?
    ensures var d, trend := EvaluateSide(snaps, side, cfg).decision, TrendScore(snaps[D1], side);
            && d.side == side && d.tier == TierOf(d.confidence) && d.trendScore == Round(trend, 10.0)
            && d.confidence == Confidence(trend, d.structureScore, d.setupScore, d.entryScore)
            && 2 <= d.structureScore <= 5 && 3 <= d.setupScore <= 5 && 1 <= d.entryScore <= 5
  {
  }

  lemma AcceptedIsScored(snaps: map<Timeframe, Snapshot>, cfg: Settings)
    requires EvaluatePipeline(snaps, cfg).Accepted?
    ensures IsScored(EvaluatePipeline(snaps, cfg).decision, snaps[D1])
  {
    var side := EvaluatePipeline(snaps, cfg).decision.side;
    PipelineTakesSide(snaps, cfg);
    DecisionIs(snaps, side, cfg);
    TrendScoreIs(snaps[D1], side);
    MadeFrom(EvaluateSide(snaps, side, cfg).decision, TrendScore(snaps[D1], side));
  }
}
