/** Concurrent signal admission as a state machine: many `_handle_signal` tasks interleave
    their awaits (app/main.py) over one signals table (app/database/repo.py) with the
    partial unique index of app/database/session.py. */
module SignalAdmission {

  datatype Status = OPEN | ACTIVE | PENDING | TP1 | TP2 | TP3 | SL | EXPIRED

  datatype Row = Row(symbol: string, status: Status)

  /** Where a handler stands between two awaits. */
  datatype Phase =
    | Arrived
    | Checked
    | Skipped
    | Failed
    | Persisted(id: nat)
    | PaperDone(id: nat)
    | AutoDone(id: nat)
    | Finished(id: nat)

  datatype Task = Task(symbol: string, phase: Phase)

  datatype Effect = PaperOpen(task: nat, id: nat) | AutoOpen(task: nat, id: nat) | Broadcast(task: nat, id: nat)

  /** `inserted` is history: which task's INSERT produced which row. */
  datatype State = State(
    rows: map<nat, Row>, nextId: nat, tasks: map<nat, Task>,
    inserted: map<nat, nat>, effects: seq<Effect>)

  /** Is the guard switched on, does the index exist, is demo auto-trading on. Index
      creation may fail at start-up without stopping it, so its absence is a real setting. */
  datatype Config = Config(guard: bool, index: bool, autoTrade: bool)

  datatype Step =
    | Arrive(task: nat, symbol: string)
    | Guard(task: nat)
    | Insert(task: nat)
    | DbError(task: nat)
    | OpenPaper(task: nat)
    | OpenAuto(task: nat)
    | Publish(task: nat)
    | Update(id: nat, status: Status)

  const INITIAL := State(map[], 0, map[], map[], [])

  predicate IsActive(st: Status) { st in {OPEN, ACTIVE, PENDING} }

  /** repo.has_active_signal(symbol) */
  predicate HasActive(rows: map<nat, Row>, symbol: string) {
    exists id :: id in rows && rows[id].symbol == symbol && IsActive(rows[id].status)
  }

  /** What uq_active_signal_symbol demands of the table. */
  ghost predicate IndexHolds(rows: map<nat, Row>) {
    forall i, j ::
      (i in rows && j in rows && rows[i].symbol == rows[j].symbol
       && IsActive(rows[i].status) && IsActive(rows[j].status))
      ==> i == j
  }

  function At(s: State, t: nat): Phase
    requires t in s.tasks
  {
    s.tasks[t].phase
  }

  function Move(s: State, t: nat, p: Phase): State
    requires t in s.tasks
  {
    s.(tasks := s.tasks[t := s.tasks[t].(phase := p)])
  }

  /** One atomic database or await step; a step that is not enabled changes nothing.
      INSERT and UPDATE commit whole or roll back whole. */
  function Apply(cfg: Config, s: State, step: Step): State {
    match step
    case Arrive(t, symbol) =>
      if t in s.tasks then s else s.(tasks := s.tasks[t := Task(symbol, Arrived)])
    case Guard(t) =>
      if t in s.tasks && At(s, t) == Arrived then
        var symbol := s.tasks[t].symbol;
        if cfg.guard && symbol != "" && HasActive(s.rows, symbol) then Move(s, t, Skipped)
        else Move(s, t, Checked)
      else s
    case Insert(t) =>
      if t in s.tasks && At(s, t) == Checked then
        var symbol := s.tasks[t].symbol;
        if cfg.index && HasActive(s.rows, symbol) then Move(s, t, Failed)
        else
          var id := s.nextId;
          Move(s, t, Persisted(id)).(rows := s.rows[id := Row(symbol, OPEN)],
                                     nextId := id + 1, inserted := s.inserted[id := t])
      else s
    case DbError(t) =>
      if t in s.tasks && (At(s, t) == Arrived || At(s, t) == Checked) then Move(s, t, Failed) else s
    case OpenPaper(t) =>
      if t in s.tasks && At(s, t).Persisted? then
        Move(s, t, PaperDone(At(s, t).id)).(effects := s.effects + [PaperOpen(t, At(s, t).id)])
      else s
    case OpenAuto(t) =>
      if t in s.tasks && At(s, t).PaperDone? then
        var moved := Move(s, t, AutoDone(At(s, t).id));
        if cfg.autoTrade then moved.(effects := s.effects + [AutoOpen(t, At(s, t).id)]) else moved
      else s
    case Publish(t) =>
      if t in s.tasks && At(s, t).AutoDone? then
        Move(s, t, Finished(At(s, t).id)).(effects := s.effects + [Broadcast(t, At(s, t).id)])
      else s
    case Update(id, status) =>
      if id in s.rows then
        var rows := s.rows[id := s.rows[id].(status := status)];
        if cfg.index && IsActive(status) && HasActive(s.rows - {id}, s.rows[id].symbol) then s
        else s.(rows := rows)
      else s
  }

  /** Any interleaving of any number of handlers, trackers and administrators. */
  function Run(cfg: Config, steps: seq<Step>): State {
    if steps == [] then INITIAL else Apply(cfg, Run(cfg, steps[..|steps| - 1]), steps[|steps| - 1])
  }

  /** An INSERT of this task succeeded and produced row id. */
  ghost predicate Owns(s: State, t: nat, id: nat) {
    && id in s.inserted && s.inserted[id] == t && id in s.rows
    && t in s.tasks && s.rows[id].symbol == s.tasks[t].symbol
  }

  /** This phase lies after the INSERT. */
  predicate Admitted(p: Phase) {
    p.Persisted? || p.PaperDone? || p.AutoDone? || p.Finished?
  }

  ghost predicate Bookkept(s: State) {
    && (forall id :: id in s.rows ==> id < s.nextId)
    && (forall t :: t in s.tasks && Admitted(At(s, t)) ==> Owns(s, t, At(s, t).id))
    && (forall id :: id in s.inserted ==>
          Owns(s, s.inserted[id], id) && Admitted(At(s, s.inserted[id])) && At(s, s.inserted[id]).id == id)
  }

  /** The effect happened after its task passed the corresponding point. */
  ghost predicate Passed(e: Effect, p: Phase) {
    && Admitted(p) && p.id == e.id
    && match e
       case PaperOpen(_, _) => !p.Persisted?
       case AutoOpen(_, _) => p.AutoDone? || p.Finished?
       case Broadcast(_, _) => p.Finished?
  }

  ghost predicate EffectsBacked(s: State) {
    && (forall i :: 0 <= i < |s.effects| ==>
          var e := s.effects[i];
          Owns(s, e.task, e.id) && Passed(e, At(s, e.task)))
    && (forall i, j :: 0 <= i < j < |s.effects| ==> s.effects[i] != s.effects[j])
  }

  /** Moving a task without changing what it owns. */
  lemma MoveKeeps(s: State, t: nat, p: Phase)
    requires Bookkept(s) && t in s.tasks
    requires Admitted(p) == Admitted(At(s, t)) && (Admitted(p) ==> p.id == At(s, t).id)
    ensures Bookkept(Move(s, t, p))
  {
  }

  lemma InsertKeeps(cfg: Config, s: State, t: nat)
    requires Bookkept(s)
    ensures Bookkept(Apply(cfg, s, Insert(t)))
  {
    if t in s.tasks && At(s, t) == Checked {
      if cfg.index && HasActive(s.rows, s.tasks[t].symbol) {
        MoveKeeps(s, t, Failed);
      } else {
        var s' := Apply(cfg, s, Insert(t));
        forall u | u in s'.tasks && Admitted(At(s', u))
          ensures Owns(s', u, At(s', u).id)
        {
          if u != t {
            assert Owns(s, u, At(s, u).id);
          }
        }
      }
    }
  }

  lemma EffectIrrelevant(s: State, effects: seq<Effect>)
    requires Bookkept(s)
    ensures Bookkept(s.(effects := effects))
  {
  }

  lemma BookkeepingKept(cfg: Config, s: State, step: Step)
    requires Bookkept(s)
    ensures Bookkept(Apply(cfg, s, step))
  {
    match step
    case Arrive(t, symbol) =>
    case Guard(t) =>
      if t in s.tasks && At(s, t) == Arrived {
        MoveKeeps(s, t, Skipped);
        MoveKeeps(s, t, Checked);
      }
    case Insert(t) => InsertKeeps(cfg, s, t);
    case DbError(t) =>
      if t in s.tasks && (At(s, t) == Arrived || At(s, t) == Checked) {
        MoveKeeps(s, t, Failed);
      }
    case OpenPaper(t) =>
      if t in s.tasks && At(s, t).Persisted? {
        var p := PaperDone(At(s, t).id);
        MoveKeeps(s, t, p);
        EffectIrrelevant(Move(s, t, p), s.effects + [PaperOpen(t, p.id)]);
      }
    case OpenAuto(t) =>
      if t in s.tasks && At(s, t).PaperDone? {
        var p := AutoDone(At(s, t).id);
        MoveKeeps(s, t, p);
        EffectIrrelevant(Move(s, t, p), s.effects + [AutoOpen(t, p.id)]);
      }
    case Publish(t) =>
      if t in s.tasks && At(s, t).AutoDone? {
        var p := Finished(At(s, t).id);
        MoveKeeps(s, t, p);
        EffectIrrelevant(Move(s, t, p), s.effects + [Broadcast(t, p.id)]);
      }
    case Update(id, status) =>
  }

  lemma {:induction false} IndexKept(cfg: Config, s: State, step: Step)
    requires cfg.index && Bookkept(s) && IndexHolds(s.rows)
    ensures IndexHolds(Apply(cfg, s, step).rows)
  {
    match step
    case Update(id, status) =>
      if id in s.rows {
        var others := s.rows - {id};
        assert forall k :: k in s.rows && k != id ==> k in others && others[k] == s.rows[k];
      }
    case _ =>
  }

  function Order(p: Phase): nat {
    match p
    case Persisted(_) => 1
    case PaperDone(_) => 2
    case AutoDone(_) => 3
    case Finished(_) => 4
    case _ => 0
  }

  /** Moving a task that stays within reach of its recorded effects. */
  lemma MoveKeepsEffects(s: State, t: nat, p: Phase)
    requires EffectsBacked(s) && t in s.tasks
    requires !Admitted(At(s, t)) || (Admitted(p) && p.id == At(s, t).id && Order(p) >= Order(At(s, t)))
    ensures EffectsBacked(Move(s, t, p))
  {
  }

  lemma AdvanceWithEffect(s: State, t: nat, p: Phase, e: Effect)
    requires Bookkept(s) && EffectsBacked(s) && t in s.tasks && Admitted(At(s, t))
    requires Admitted(p) && p.id == At(s, t).id && Order(p) == Order(At(s, t)) + 1
    requires e.task == t && e.id == p.id && Passed(e, p) && !Passed(e, At(s, t))
    ensures EffectsBacked(Move(s, t, p).(effects := s.effects + [e]))
  {
  }

  lemma RowsGrowKeepsEffects(cfg: Config, s: State, t: nat)
    requires Bookkept(s) && EffectsBacked(s)
    ensures EffectsBacked(Apply(cfg, s, Insert(t)))
  {
  }

  lemma EffectsKept(cfg: Config, s: State, step: Step)
    requires Bookkept(s) && EffectsBacked(s)
    ensures EffectsBacked(Apply(cfg, s, step))
  {
    match step
    case Arrive(t, symbol) =>
    case Guard(t) =>
      if t in s.tasks && At(s, t) == Arrived {
        MoveKeepsEffects(s, t, Skipped);
        MoveKeepsEffects(s, t, Checked);
      }
    case Insert(t) => RowsGrowKeepsEffects(cfg, s, t);
    case DbError(t) =>
      if t in s.tasks && (At(s, t) == Arrived || At(s, t) == Checked) {
        MoveKeepsEffects(s, t, Failed);
      }
    case OpenPaper(t) =>
      if t in s.tasks && At(s, t).Persisted? {
        AdvanceWithEffect(s, t, PaperDone(At(s, t).id), PaperOpen(t, At(s, t).id));
      }
    case OpenAuto(t) =>
      if t in s.tasks && At(s, t).PaperDone? {
        MoveKeepsEffects(s, t, AutoDone(At(s, t).id));
        AdvanceWithEffect(s, t, AutoDone(At(s, t).id), AutoOpen(t, At(s, t).id));
      }
    case Publish(t) =>
      if t in s.tasks && At(s, t).AutoDone? {
        AdvanceWithEffect(s, t, Finished(At(s, t).id), Broadcast(t, At(s, t).id));
      }
    case Update(id, status) =>
  }

  /** With the index in place, no interleaving, guarded or not, ever leaves two live signals
      for one symbol. Whatever the configuration, paper open, auto open and broadcast
      happen only for a task whose own INSERT succeeded, for that row, and at most once. */
  lemma {:induction false} AdmissionIsSafe(cfg: Config, steps: seq<Step>)
    ensures var s := Run(cfg, steps);
            && (cfg.index ==> IndexHolds(s.rows))
            && Bookkept(s)
            && EffectsBacked(s)
  {
    if steps != [] {
      var init, last := steps[..|steps| - 1], steps[|steps| - 1];
      AdmissionIsSafe(cfg, init);
      var s := Run(cfg, init);
      BookkeepingKept(cfg, s, last);
      EffectsKept(cfg, s, last);
      if cfg.index {
        IndexKept(cfg, s, last);
      }
    }
  }

  /** Two handlers for one symbol that both look before either inserts. */
  function Race(symbol: string): seq<Step> {
    [Arrive(0, symbol), Arrive(1, symbol), Guard(0), Guard(1), Insert(0), Insert(1)]
  }

  /** Both handlers past the guard, nothing inserted yet. */
  function BothChecked(symbol: string): State {
    INITIAL.(tasks := map[0 := Task(symbol, Checked), 1 := Task(symbol, Checked)])
  }

  lemma RunSnoc(cfg: Config, steps: seq<Step>, step: Step)
    ensures Run(cfg, steps + [step]) == Apply(cfg, Run(cfg, steps), step)
  {
  }

  lemma BothLook(cfg: Config, symbol: string)
    ensures Run(cfg, [Arrive(0, symbol), Arrive(1, symbol), Guard(0), Guard(1)]) == BothChecked(symbol)
  {
    RunSnoc(cfg, [], Arrive(0, symbol));
    RunSnoc(cfg, [Arrive(0, symbol)], Arrive(1, symbol));
    RunSnoc(cfg, [Arrive(0, symbol), Arrive(1, symbol)], Guard(0));
    RunSnoc(cfg, [Arrive(0, symbol), Arrive(1, symbol), Guard(0)], Guard(1));
    assert [] + [Arrive(0, symbol)] == [Arrive(0, symbol)];
    assert [Arrive(0, symbol)] + [Arrive(1, symbol)] == [Arrive(0, symbol), Arrive(1, symbol)];
    assert [Arrive(0, symbol), Arrive(1, symbol)] + [Guard(0)] == [Arrive(0, symbol), Arrive(1, symbol), Guard(0)];
    assert [Arrive(0, symbol), Arrive(1, symbol), Guard(0)] + [Guard(1)]
        == [Arrive(0, symbol), Arrive(1, symbol), Guard(0), Guard(1)];
  }

  lemma BothInsert(cfg: Config, symbol: string)
    requires !cfg.index
    ensures Apply(cfg, Apply(cfg, BothChecked(symbol), Insert(0)), Insert(1)).rows
            == map[0 := Row(symbol, OPEN), 1 := Row(symbol, OPEN)]
  {
    var s := Apply(cfg, BothChecked(symbol), Insert(0));
    assert s.rows == map[0 := Row(symbol, OPEN)] && s.nextId == 1 && At(s, 1) == Checked;
  }

  /** The guard alone does not do it: without the index the race admits both handlers,
      whether the guard is on or not. */
  lemma GuardAloneIsNotEnough(cfg: Config, symbol: string)
    requires !cfg.index
    ensures var s := Run(cfg, Race(symbol));
            && 0 in s.rows && 1 in s.rows && s.rows[0] == s.rows[1] == Row(symbol, OPEN)
            && !IndexHolds(s.rows)
  {
    var looked := [Arrive(0, symbol), Arrive(1, symbol), Guard(0), Guard(1)];
    BothLook(cfg, symbol);
    BothInsert(cfg, symbol);
    RunSnoc(cfg, looked, Insert(0));
    RunSnoc(cfg, looked + [Insert(0)], Insert(1));
    assert looked + [Insert(0)] + [Insert(1)] == Race(symbol);
  }

  /** What keeps signals unique: over all interleavings, exactly the index, whatever the
      other settings are. */
  lemma UniqueIffIndexed(cfg: Config)
    ensures (forall steps: seq<Step> :: IndexHolds(Run(cfg, steps).rows)) <==> cfg.index
  {
    if cfg.index {
      forall steps: seq<Step>
        ensures IndexHolds(Run(cfg, steps).rows)
      {
        AdmissionIsSafe(cfg, steps);
      }
    } else {
      GuardAloneIsNotEnough(cfg, "BTCUSDT");
    }
  }

  // ---- what the guard alone is good for ----

  /** No other handler for this task's symbol is between its guard and its INSERT. */
  ghost predicate AloneInSection(s: State, t: nat) {
    forall u :: u in s.tasks && u != t && At(s, u) == Checked ==> t in s.tasks && s.tasks[u].symbol != s.tasks[t].symbol
  }

  /** A step fit for a serial run. */
  ghost predicate SerialStep(s: State, step: Step) {
    match step
    case Guard(t) => AloneInSection(s, t)
    case Arrive(_, symbol) => symbol != ""
    case Update(_, status) => !IsActive(status)
    case _ => true
  }

  /** Guard-to-INSERT sections of one symbol never overlap, every signal names a symbol, and
      no update brings a closed signal back to life. */
  ghost predicate Serial(cfg: Config, steps: seq<Step>) {
    forall i :: 0 <= i < |steps| ==> SerialStep(Run(cfg, steps[..i]), steps[i])
  }

  ghost predicate SectionsClear(s: State) {
    && (forall t :: t in s.tasks ==> s.tasks[t].symbol != "")
    && (forall t :: t in s.tasks && At(s, t) == Checked ==> !HasActive(s.rows, s.tasks[t].symbol))
    && (forall t, u :: t in s.tasks && u in s.tasks && t != u && At(s, t) == At(s, u) == Checked ==>
          s.tasks[t].symbol != s.tasks[u].symbol)
  }

  lemma LeaveSection(s: State, t: nat, p: Phase)
    requires SectionsClear(s) && t in s.tasks && p != Checked
    ensures SectionsClear(Move(s, t, p))
  {
  }

  lemma EnterSection(s: State, t: nat)
    requires SectionsClear(s) && t in s.tasks && AloneInSection(s, t) && !HasActive(s.rows, s.tasks[t].symbol)
    ensures SectionsClear(Move(s, t, Checked))
  {
  }

  lemma InsertClears(cfg: Config, s: State, t: nat)
    requires Bookkept(s) && IndexHolds(s.rows) && SectionsClear(s)
    ensures IndexHolds(Apply(cfg, s, Insert(t)).rows) && SectionsClear(Apply(cfg, s, Insert(t)))
  {
    if t in s.tasks && At(s, t) == Checked {
      var s' := Apply(cfg, s, Insert(t));
      var symbol := s.tasks[t].symbol;
      assert !HasActive(s.rows, symbol);
      forall u | u in s'.tasks && At(s', u) == Checked
        ensures !HasActive(s'.rows, s'.tasks[u].symbol)
      {
        assert s'.tasks[u] == s.tasks[u] && s.tasks[u].symbol != symbol;
      }
    }
  }

  lemma ClosingClears(cfg: Config, s: State, id: nat, status: Status)
    requires IndexHolds(s.rows) && SectionsClear(s) && !IsActive(status)
    ensures IndexHolds(Apply(cfg, s, Update(id, status)).rows) && SectionsClear(Apply(cfg, s, Update(id, status)))
  {
  }

  lemma GuardClears(cfg: Config, s: State, t: nat)
    requires cfg.guard && SectionsClear(s) && AloneInSection(s, t)
    ensures SectionsClear(Apply(cfg, s, Guard(t)))
  {
    if t in s.tasks && At(s, t) == Arrived {
      if HasActive(s.rows, s.tasks[t].symbol) {
        LeaveSection(s, t, Skipped);
      } else {
        EnterSection(s, t);
      }
    }
  }

  lemma DownstreamClears(cfg: Config, s: State, step: Step)
    requires SectionsClear(s) && (step.OpenPaper? || step.OpenAuto? || step.Publish? || step.DbError?)
    ensures SectionsClear(Apply(cfg, s, step))
  {
    if step.task in s.tasks {
      var s' := Apply(cfg, s, step);
      assert s' == s || s'.tasks == Move(s, step.task, At(s', step.task)).tasks;
      if s' != s {
        LeaveSection(s, step.task, At(s', step.task));
      }
    }
  }

  lemma SectionsKept(cfg: Config, s: State, step: Step)
    requires cfg.guard && Bookkept(s) && IndexHolds(s.rows) && SectionsClear(s) && SerialStep(s, step)
    ensures IndexHolds(Apply(cfg, s, step).rows) && SectionsClear(Apply(cfg, s, step))
  {
    match step
    case Arrive(t, symbol) =>
    case Guard(t) => GuardClears(cfg, s, t);
    case Insert(t) => InsertClears(cfg, s, t);
    case Update(id, status) => ClosingClears(cfg, s, id, status);
    case _ => DownstreamClears(cfg, s, step);
  }

  /** The guard does suffice, without the index, on runs where guard and INSERT of one symbol
      are never interleaved: overlap is the one thing the index is there for. */
  lemma {:induction false} GuardSufficesWhenSerial(cfg: Config, steps: seq<Step>)
    requires cfg.guard && Serial(cfg, steps)
    ensures IndexHolds(Run(cfg, steps).rows) && SectionsClear(Run(cfg, steps))
  {
    if steps != [] {
      var n := |steps| - 1;
      var init := steps[..n];
      assert Serial(cfg, init) by {
        assert forall i :: 0 <= i < n ==> init[i] == steps[i] && init[..i] == steps[..i];
      }
      GuardSufficesWhenSerial(cfg, init);
      AdmissionIsSafe(cfg, init);
      SectionsKept(cfg, Run(cfg, init), steps[n]);
    }
  }

  // ---- nobody is turned away for nothing ----

  predicate Undisturbed(steps: seq<Step>) {
    forall i :: 0 <= i < |steps| ==> !steps[i].Update? && !steps[i].DbError?
  }

  ghost predicate TurnedAwayForCause(s: State) {
    forall t :: t in s.tasks && At(s, t) in {Skipped, Failed} ==> HasActive(s.rows, s.tasks[t].symbol)
  }

  lemma {:induction false} WinnerKept(cfg: Config, s: State, step: Step)
    requires Bookkept(s) && TurnedAwayForCause(s) && !step.Update? && !step.DbError?
    ensures TurnedAwayForCause(Apply(cfg, s, step))
  {
    var s' := Apply(cfg, s, step);
    assert forall id :: id in s.rows ==> id in s'.rows && s'.rows[id] == s.rows[id];
    forall symbol | HasActive(s.rows, symbol)
      ensures HasActive(s'.rows, symbol)
    {
      var id :| id in s.rows && s.rows[id].symbol == symbol && IsActive(s.rows[id].status);
      assert id in s'.rows;
    }
  }

  /** While no signal closes and the database itself does not fail, a handler is skipped or
      refused only because a live signal for its symbol really is in the table: racing
      handlers never cancel each other out. */
  lemma {:induction false} SomebodyWins(cfg: Config, steps: seq<Step>)
    requires Undisturbed(steps)
    ensures TurnedAwayForCause(Run(cfg, steps))
  {
    if steps != [] {
      var init, last := steps[..|steps| - 1], steps[|steps| - 1];
      assert forall i :: 0 <= i < |init| ==> init[i] == steps[i];
      SomebodyWins(cfg, init);
      AdmissionIsSafe(cfg, init);
      WinnerKept(cfg, Run(cfg, init), last);
    }
  }

  // ---- what must happen does ----

  /** Every task past a point has had its effect: paper open, auto open where it is on and never where it
      is off, broadcast. */
  ghost predicate EffectsComplete(cfg: Config, s: State) {
    && (forall t :: t in s.tasks && Admitted(At(s, t)) ==>
          && (!At(s, t).Persisted? ==> PaperOpen(t, At(s, t).id) in s.effects)
          && (cfg.autoTrade && (At(s, t).AutoDone? || At(s, t).Finished?) ==> AutoOpen(t, At(s, t).id) in s.effects)
          && (At(s, t).Finished? ==> Broadcast(t, At(s, t).id) in s.effects))
    && (!cfg.autoTrade ==> forall i :: 0 <= i < |s.effects| ==> !s.effects[i].AutoOpen?)
  }

  lemma CompleteKept(cfg: Config, s: State, step: Step)
    requires EffectsComplete(cfg, s)
    ensures EffectsComplete(cfg, Apply(cfg, s, step))
  {
    var s' := Apply(cfg, s, step);
    assert forall e :: e in s.effects ==> e in s'.effects;
    if |s'.effects| > |s.effects| {
      assert s'.effects[|s.effects|] in s'.effects;
    }
  }

  lemma {:induction false} EffectsHappen(cfg: Config, steps: seq<Step>)
    ensures EffectsComplete(cfg, Run(cfg, steps))
  {
    if steps != [] {
      EffectsHappen(cfg, steps[..|steps| - 1]);
      CompleteKept(cfg, Run(cfg, steps[..|steps| - 1]), steps[|steps| - 1]);
    }
  }

  /** A database error takes a handler out before its guard as well as before its INSERT, and nowhere
      else. */
  lemma ErrorsEndHandlers(cfg: Config, s: State, t: nat)
    ensures var s' := Apply(cfg, s, DbError(t));
            if t in s.tasks && At(s, t) in {Arrived, Checked} then
              s' == s.(tasks := s.tasks[t := Task(s.tasks[t].symbol, Failed)])
            else s' == s
  {
  }
}
