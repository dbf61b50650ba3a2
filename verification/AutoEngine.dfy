/** Stop protection of auto-managed positions (app/auto_engine/engine.py, app/auto_engine/risk.py). */
module AutoEngine {
  import opened Common

  datatype Event = TP1 | TP2 | TP3 | SL

  datatype Protection = BREAK_EVEN | TRAILING

  /** The user's settings at the moment of an event; the trigger is a stored string that
      names TP1 or TP2, or matches neither. */
  datatype Config = Config(
    useBreakEven: bool, breakEvenTrigger: Option<Event>, useTrailing: bool, trailingDistancePct: real)

  /** Execution log entries. */
  datatype Action = BrokeEven(on: Event) | Trailed(on: Event, stop: real) | Closed(on: Event, mark: real)

  datatype Position = Position(
    side: Side, entry: real, tp1: Option<real>, tp2: Option<real>, tp3: Option<real>,
    stop: Option<real>, protection: Option<Protection>, open: bool, log: seq<Action>)

  function TrailingStop(side: Side, reference: real, distancePct: real): real {
    if side == LONG then reference * (1.0 - distancePct / 100.0) else reference * (1.0 + distancePct / 100.0)
  }

  function TightenStop(side: Side, current: real, candidate: real): real {
    if current <= 0.0 then candidate
    else if side == LONG then Max(current, candidate)
    else Min(current, candidate)
  }

  /** Python's `x or fallback` on a nullable number. */
  function OrElse(x: Option<real>, fallback: real): real {
    if x.Some? && x.value != 0.0 then x.value else fallback
  }

  function BrokenEven(p: Position, ev: Event, cfg: Config): Position {
    if cfg.useBreakEven && cfg.breakEvenTrigger == Some(ev) && p.protection == None then
      p.(stop := Some(p.entry), protection := Some(BREAK_EVEN), log := p.log + [BrokeEven(ev)])
    else p
  }

  function Trail(p: Position, ev: Event, cfg: Config): Position {
    var ref := OrElse(if ev == TP1 then p.tp1 else p.tp2, 0.0);
    if cfg.useTrailing && ref != 0.0 then
      var stop := TightenStop(p.side, OrElse(p.stop, 0.0), TrailingStop(p.side, ref, cfg.trailingDistancePct));
      p.(stop := Some(stop), protection := Some(TRAILING), log := p.log + [Trailed(ev, stop)])
    else p
  }

  /** One tracker event on one position; closed positions are no longer selected. */
  function Managed(p: Position, ev: Event, cfg: Config): Position {
    if !p.open then p
    else
      match ev
      case TP1 => Trail(BrokenEven(p, ev, cfg), ev, cfg)
      case TP2 => Trail(BrokenEven(p, ev, cfg), ev, cfg)
      case TP3 => p.(open := false, log := p.log + [Closed(ev, OrElse(p.tp3, p.entry))])
      case SL => p.(open := false, log := p.log + [Closed(ev, OrElse(p.stop, p.entry))])
  }

  /** The ORM row the engine updates in place, with the log lines written for it. */
  class AutoPosition {
    const side: Side
    const entry: real
    const tp1: Option<real>
    const tp2: Option<real>
    const tp3: Option<real>
    var stop: Option<real>
    var protection: Option<Protection>
    var open: bool
    var log: seq<Action>

    ghost function State(): Position
      reads this
    {
      Position(side, entry, tp1, tp2, tp3, stop, protection, open, log)
    }

    constructor (side: Side, entry: real, tp1: Option<real>, tp2: Option<real>, tp3: Option<real>, stop: Option<real>)
      ensures State() == Position(side, entry, tp1, tp2, tp3, stop, None, true, [])
    {
      this.side, this.entry, this.tp1, this.tp2, this.tp3 := side, entry, tp1, tp2, tp3;
      this.stop, this.protection, this.open, this.log := stop, None, true, [];
    }

    /** on_signal_event for this row: only OPEN rows are managed. */
    method OnSignalEvent(ev: Event, cfg: Config)
      modifies this
      ensures State() == Managed(old(State()), ev, cfg)
    {
      if open {
        ManagePosition(ev, cfg);
      }
    }

    /** _manage_position */
    method ManagePosition(ev: Event, cfg: Config)
      requires open
      modifies this
      ensures State() == Managed(old(State()), ev, cfg)
    {
      if ev == TP1 || ev == TP2 {
        if cfg.useBreakEven && cfg.breakEvenTrigger == Some(ev) && protection == None {
          stop := Some(entry);
          protection := Some(BREAK_EVEN);
          log := log + [BrokeEven(ev)];
        }
        if cfg.useTrailing {
          var ref := OrElse(if ev == TP1 then tp1 else tp2, 0.0);
          if ref != 0.0 {
            var candidate := TrailingStop(side, ref, cfg.trailingDistancePct);
            var tightened := TightenStop(side, OrElse(stop, 0.0), candidate);
            stop := Some(tightened);
            protection := Some(TRAILING);
            log := log + [Trailed(ev, tightened)];
          }
        }
        return;
      }
      var mark := if ev == TP3 then OrElse(tp3, entry) else OrElse(stop, entry);
      open := false;
      log := log + [Closed(ev, mark)];
    }
  }

  // ---- runs with the configuration changing between events ----

  datatype Tick = Tick(ev: Event, cfg: Config)

  function Run(p: Position, ticks: seq<Tick>): Position {
    if ticks == [] then p
    else Managed(Run(p, ticks[..|ticks| - 1]), ticks[|ticks| - 1].ev, ticks[|ticks| - 1].cfg)
  }

  /** x is at least as good a stop as y for this side. */
  predicate AtLeastAsGood(side: Side, x: real, y: real) {
    if side == LONG then x >= y else x <= y
  }

  /** Prices a position can have; the stop may be missing. */
  predicate Priced(p: Position) {
    && p.entry > 0.0 && (p.stop.Some? ==> p.stop.value > 0.0)
    && (p.tp1.Some? ==> p.tp1.value >= 0.0) && (p.tp2.Some? ==> p.tp2.value >= 0.0)
  }

  /** The stop lies on the losing side of the entry, or at it. */
  predicate LossSide(p: Position) {
    p.stop.Some? && AtLeastAsGood(p.side, p.entry, p.stop.value)
  }

  predicate Untouched(p: Position) { p.protection == None && p.log == [] && p.open }

  ghost predicate Sane(ticks: seq<Tick>) {
    forall i :: 0 <= i < |ticks| ==> ticks[i].cfg.trailingDistancePct >= 0.0
  }

  /** What every event keeps: until some protection fires the stop is where it was placed,
      on the losing side; once break-even has fired it is never worse than the entry. */
  ghost predicate Sound(p: Position) {
    && Priced(p) && p.stop.Some?
    && (p.protection == None ==> LossSide(p))
    && (forall i :: 0 <= i < |p.log| && p.log[i].BrokeEven? ==> AtLeastAsGood(p.side, p.stop.value, p.entry))
  }

  /** A position without a stop, which nothing has protected yet. */
  ghost predicate Unset(p: Position) {
    && Priced(p) && p.stop == None && p.protection == None
    && forall i :: 0 <= i < |p.log| ==> !p.log[i].BrokeEven?
  }

  /** After break-even, a stop-loss close is at the entry or better. */
  ghost predicate ClosesProtected(p: Position) {
    forall i, j :: 0 <= i < j < |p.log| && p.log[i].BrokeEven? && p.log[j].Closed? && p.log[j].on == SL ==>
      AtLeastAsGood(p.side, p.log[j].mark, p.entry)
  }

  /** The trailing candidate lies behind its reference by exactly the configured percentage. */
  lemma TrailingStopBehind(side: Side, reference: real, distancePct: real)
    requires reference > 0.0 && distancePct >= 0.0
    ensures var stop := TrailingStop(side, reference, distancePct);
            && AtLeastAsGood(side, reference, stop)
            && Abs(reference - stop) * 100.0 == reference * distancePct
  {
  }

  /** Trailing never carries a stop past the target it trails. */
  lemma TrailStaysBehindTarget(p: Position, ev: Event, cfg: Config)
    requires Priced(p) && p.stop.Some? && cfg.trailingDistancePct >= 0.0 && cfg.useTrailing
    requires var ref := OrElse(if ev == TP1 then p.tp1 else p.tp2, 0.0);
             ref > 0.0 && AtLeastAsGood(p.side, ref, p.stop.value)
    ensures AtLeastAsGood(p.side, OrElse(if ev == TP1 then p.tp1 else p.tp2, 0.0), Trail(p, ev, cfg).stop.value)
  {
  }

  lemma EventKeeps(p: Position, ev: Event, cfg: Config)
    requires Sound(p) && cfg.trailingDistancePct >= 0.0
    ensures var q := Managed(p, ev, cfg);
            Sound(q) && q.side == p.side && q.entry == p.entry
            && AtLeastAsGood(p.side, q.stop.value, p.stop.value)
  {
  }

  /** The stop only ever moves in the favourable direction, from any point of a run to any
      later one, and every intermediate position is sound. */
  lemma {:induction false} StopNeverWidens(p: Position, ticks: seq<Tick>, i: nat)
    requires Sound(p) && Sane(ticks) && i <= |ticks|
    ensures var mid, end := Run(p, ticks[..i]), Run(p, ticks);
            && Sound(mid) && Sound(end) && mid.side == end.side == p.side && end.entry == p.entry
            && AtLeastAsGood(p.side, end.stop.value, mid.stop.value)
  {
    if i == |ticks| {
      assert ticks[..i] == ticks;
      if ticks != [] {
        StopNeverWidens(p, ticks[..i - 1], i - 1);
        EventKeeps(Run(p, ticks[..i - 1]), ticks[i - 1].ev, ticks[i - 1].cfg);
      }
    } else {
      var init := ticks[..|ticks| - 1];
      StopNeverWidens(p, init, i);
      assert init[..i] == ticks[..i];
      EventKeeps(Run(p, init), ticks[|ticks| - 1].ev, ticks[|ticks| - 1].cfg);
    }
  }

  /** A trailing distance as the settings schema admits it, below the whole price. */
  ghost predicate Bounded(ticks: seq<Tick>) {
    forall i :: 0 <= i < |ticks| ==> 0.0 <= ticks[i].cfg.trailingDistancePct < 100.0
  }

  lemma TrailingStopPositive(side: Side, reference: real, distancePct: real)
    requires reference > 0.0 && 0.0 <= distancePct < 100.0
    ensures TrailingStop(side, reference, distancePct) > 0.0
  {
    var down, up := 1.0 - distancePct / 100.0, 1.0 + distancePct / 100.0;
    assert down > 0.0 && up > 0.0;
    assert reference * down > 0.0 && reference * up > 0.0;
  }

  /** Whatever sets the first stop of a position without one leaves it sound. */
  lemma FirstStopIsSound(p: Position, ev: Event, cfg: Config)
    requires Unset(p) && 0.0 <= cfg.trailingDistancePct < 100.0
    ensures var q := Managed(p, ev, cfg);
            (Unset(q) || Sound(q)) && q.side == p.side && q.entry == p.entry
  {
    if p.open && (ev == TP1 || ev == TP2) {
      var ref := OrElse(if ev == TP1 then p.tp1 else p.tp2, 0.0);
      if ref > 0.0 {
        TrailingStopPositive(p.side, ref, cfg.trailingDistancePct);
      }
    }
  }

  /** A position without a stop is either still so or sound, at every point of a run. */
  lemma {:induction false} UnsetThenSound(p: Position, ticks: seq<Tick>)
    requires Unset(p) && Bounded(ticks)
    ensures var q := Run(p, ticks);
            (Unset(q) || Sound(q)) && q.side == p.side && q.entry == p.entry
  {
    if ticks != [] {
      var init, last := ticks[..|ticks| - 1], ticks[|ticks| - 1];
      UnsetThenSound(p, init);
      if Unset(Run(p, init)) {
        FirstStopIsSound(Run(p, init), last.ev, last.cfg);
      } else {
        EventKeeps(Run(p, init), last.ev, last.cfg);
      }
    }
  }

  /** If a stop is set after i ticks, the stop at the end is there and no worse. */
  ghost predicate StopHolds(p: Position, ticks: seq<Tick>, i: nat)
    requires i <= |ticks|
  {
    var mid, end := Run(p, ticks[..i]), Run(p, ticks);
    mid.stop.Some? ==> end.stop.Some? && AtLeastAsGood(p.side, end.stop.value, mid.stop.value)
  }

  /** From the moment a stop is set it moves only in the favourable direction, also on a
      position stored without one. */
  lemma {:induction false} FirstStopNeverWidens(p: Position, ticks: seq<Tick>, i: nat)
    requires Unset(p) && Bounded(ticks) && i <= |ticks|
    ensures StopHolds(p, ticks, i)
  {
    UnsetThenSound(p, ticks[..i]);
    if i < |ticks| {
      var init, last := ticks[..|ticks| - 1], ticks[|ticks| - 1];
      FirstStopNeverWidens(p, init, i);
      assert init[..i] == ticks[..i];
      UnsetThenSound(p, init);
      if Sound(Run(p, init)) {
        EventKeeps(Run(p, init), last.ev, last.cfg);
      }
    } else {
      assert ticks[..i] == ticks;
    }
  }

  /** No close has been logged while a position is open, and at most one afterwards. */
  ghost predicate OneClose(p: Position) {
    && (p.open ==> forall i :: 0 <= i < |p.log| ==> !p.log[i].Closed?)
    && (forall i :: 0 <= i < |p.log| - 1 ==> !p.log[i].Closed?)
  }

  lemma CloseKeeps(p: Position, ev: Event, cfg: Config)
    requires (Sound(p) || Unset(p)) && OneClose(p) && ClosesProtected(p)
    ensures OneClose(Managed(p, ev, cfg)) && ClosesProtected(Managed(p, ev, cfg))
  {
  }

  /** Over any sequence of events with settings changing at will, a fresh position closes at
      most once, and once break-even has fired a stop-loss close is at the entry or better,
      whether the position was stored with a stop or without. */
  lemma {:induction false} BreakEvenProtects(p: Position, ticks: seq<Tick>)
    requires Untouched(p) && ((Sound(p) && Sane(ticks)) || (Unset(p) && Bounded(ticks)))
    ensures OneClose(Run(p, ticks)) && ClosesProtected(Run(p, ticks))
  {
    if ticks != [] {
      var init := ticks[..|ticks| - 1];
      BreakEvenProtects(p, init);
      if Unset(p) {
        UnsetThenSound(p, init);
      } else {
        StopNeverWidens(p, init, |init|);
        assert init[..|init|] == init;
      }
      CloseKeeps(Run(p, init), ticks[|ticks| - 1].ev, ticks[|ticks| - 1].cfg);
    }
  }

  /** Whatever happens, a stop that is set never moves against the trade. */
  ghost predicate NeverWidens(p: Position) {
    forall ticks: seq<Tick>, i: nat ::
      i <= |ticks| && Sane(ticks) && (p.stop == None ==> Bounded(ticks)) ==> StopHolds(p, ticks, i)
  }

  /** Exactly when that promise holds of a fresh position: when its first stop, if it has one, is
      not already beyond the entry. Break-even overwrites the stop without comparing. */
  lemma NeverWidensIff(p: Position)
    requires Untouched(p) && Priced(p)
    ensures NeverWidens(p) <==> p.stop == None || LossSide(p)
  {
    if p.stop == None {
      forall ticks: seq<Tick>, i: nat | i <= |ticks| && Bounded(ticks)
        ensures StopHolds(p, ticks, i)
      {
        FirstStopNeverWidens(p, ticks, i);
      }
    } else if LossSide(p) {
      forall ticks: seq<Tick>, i: nat | i <= |ticks| && Sane(ticks)
        ensures StopHolds(p, ticks, i)
      {
        StopNeverWidens(p, ticks, i);
      }
    } else {
      var ticks := [Tick(TP1, Config(true, Some(TP1), false, 1.0))];
      assert ticks[..0] == [];
      assert Run(p, ticks) == Managed(p, TP1, ticks[0].cfg);
      assert Run(p, ticks).stop == Some(p.entry);
      assert !StopHolds(p, ticks, 0);
    }
  }

  // ---- what one event does, told from the position and the settings ----

  /** A number is given: stored, and not zero. */
  predicate IsGiven(x: Option<real>) { x.Some? && x.value != 0.0 }

  /** x trails the reference by this percentage of it. */
  ghost predicate Trails(side: Side, x: real, reference: real, distancePct: real) {
    var distance := reference * distancePct / 100.0;
    x == if side == LONG then reference - distance else reference + distance
  }

  /** The better of the stop so far and one trailing the target just hit; that one, if there was none
      above zero. */
  ghost predicate IsTrailed(p: Position, before: Option<real>, reference: real, cfg: Config, x: real) {
    exists candidate ::
      && Trails(p.side, candidate, reference, cfg.trailingDistancePct)
      && if before.None? || before.value <= 0.0 then x == candidate
         else x in {before.value, candidate}
              && AtLeastAsGood(p.side, x, before.value) && AtLeastAsGood(p.side, x, candidate)
  }

  /** What a target below TP3 does: break-even, if it is on, triggered by this event and nothing has
      protected the position yet, puts the stop at the entry; then trailing, if on and the target has a
      price, moves it behind that price. Each is logged. */
  ghost predicate TargetDone(p: Position, ev: Event, cfg: Config, q: Position) {
    var even := cfg.useBreakEven && cfg.breakEvenTrigger == Some(ev) && p.protection == None;
    var stop := if even then Some(p.entry) else p.stop;
    var told := p.log + (if even then [BrokeEven(ev)] else []);
    var target := if ev == TP1 then p.tp1 else p.tp2;
    if cfg.useTrailing && IsGiven(target) then
      && q.stop.Some? && IsTrailed(p, stop, target.value, cfg, q.stop.value)
      && q == p.(stop := q.stop, protection := Some(TRAILING), log := told + [Trailed(ev, q.stop.value)])
    else
      q == p.(stop := stop, protection := if even then Some(BREAK_EVEN) else p.protection, log := told)
  }

  /** TP3 closes at its price, a stop at the stop price, either at the entry where no price is given. */
  ghost predicate ClosedBy(p: Position, ev: Event, q: Position) {
    var level := if ev == TP3 then p.tp3 else p.stop;
    q == p.(open := false, log := p.log + [Closed(ev, if IsGiven(level) then level.value else p.entry)])
  }

  lemma TrailingTrails(side: Side, reference: real, distancePct: real)
    ensures Trails(side, TrailingStop(side, reference, distancePct), reference, distancePct)
  {
    assert reference * (distancePct / 100.0) == reference * distancePct / 100.0;
    assert reference * (1.0 - distancePct / 100.0) == reference - reference * (distancePct / 100.0);
    assert reference * (1.0 + distancePct / 100.0) == reference + reference * (distancePct / 100.0);
  }

  lemma TightenedIsTrailed(p: Position, before: Option<real>, reference: real, cfg: Config)
    ensures IsTrailed(p, before, reference, cfg,
                      TightenStop(p.side, OrElse(before, 0.0),
                                  TrailingStop(p.side, reference, cfg.trailingDistancePct)))
  {
    TrailingTrails(p.side, reference, cfg.trailingDistancePct);
  }

  /** One event on one position, whole. */
  lemma EventMeans(p: Position, ev: Event, cfg: Config)
    ensures var q := Managed(p, ev, cfg);
            if !p.open then q == p
            else if ev == TP1 || ev == TP2 then TargetDone(p, ev, cfg, q)
            else ClosedBy(p, ev, q)
  {
    if p.open && (ev == TP1 || ev == TP2) {
      var target := if ev == TP1 then p.tp1 else p.tp2;
      if IsGiven(target) {
        TightenedIsTrailed(p, BrokenEven(p, ev, cfg).stop, target.value, cfg);
      }
    }
  }
}
