/** Concurrent closings of one user, day and mode (app/accounting/service.py, _roll_daily): each
    transaction reads the daily row, adds to what it read and writes the sum back, under the
    unique constraint of app/accounting/models.py and a database that lets others commit in
    between. */
module DailyRace {
  import opened Common

  /** Where a transaction stands; `at` is history: how many had committed when it read. */
  datatype Phase = Looked(seen: Option<nat>, at: nat) | Committed | RolledBack

  /** The daily row's trade count, if the row exists, and the number of trade rows committed. */
  datatype State = State(row: Option<nat>, trades: nat, tasks: map<nat, Phase>)

  datatype Step = Look(task: nat) | Commit(task: nat)

  const INITIAL := State(None, 0, map[])

  function Count(row: Option<nat>): nat {
    if row.Some? then row.value else 0
  }

  /** A step that is not enabled changes nothing. A second INSERT of the row violates the
      constraint and takes its own trade row back with it. */
  function Apply(s: State, step: Step): State {
    match step
    case Look(t) =>
      if t in s.tasks then s else s.(tasks := s.tasks[t := Looked(s.row, s.trades)])
    case Commit(t) =>
      if t in s.tasks && s.tasks[t].Looked? then
        if s.tasks[t].seen.None? && s.row.Some? then s.(tasks := s.tasks[t := RolledBack])
        else State(Some(Count(s.tasks[t].seen) + 1), s.trades + 1, s.tasks[t := Committed])
      else s
  }

  function Run(steps: seq<Step>): State {
    if steps == [] then INITIAL else Apply(Run(steps[..|steps| - 1]), steps[|steps| - 1])
  }

  /** A commit that overwrites one it has not seen. */
  predicate IsStale(s: State, step: Step) {
    && step.Commit? && step.task in s.tasks && s.tasks[step.task].Looked?
    && !(s.tasks[step.task].seen.None? && s.row.Some?)
    && s.tasks[step.task].at < s.trades
  }

  ghost predicate StaleAt(steps: seq<Step>, k: nat)
    requires k < |steps|
  {
    IsStale(Run(steps[..k]), steps[k])
  }

  ghost predicate NeverStale(steps: seq<Step>) {
    forall k: nat :: k < |steps| ==> !StaleAt(steps, k)
  }

  lemma NeverStaleSnoc(steps: seq<Step>)
    requires steps != []
    ensures var n := |steps| - 1;
            NeverStale(steps) <==> NeverStale(steps[..n]) && !StaleAt(steps, n)
  {
    var n := |steps| - 1;
    forall k: nat | k < n
      ensures StaleAt(steps, k) <==> StaleAt(steps[..n], k)
    {
      assert steps[..n][..k] == steps[..k];
    }
  }

  /** What every step keeps: the row never counts too much, and a reading that nothing has
      overtaken is the row as it is. */
  ghost predicate Kept(s: State) {
    && Count(s.row) <= s.trades && (s.row.None? <==> s.trades == 0)
    && forall t :: t in s.tasks && s.tasks[t].Looked? ==>
         && Count(s.tasks[t].seen) <= s.tasks[t].at <= s.trades
         && (s.tasks[t].at == s.trades ==> s.tasks[t].seen == s.row)
  }

  lemma {:induction false} RunsKeep(steps: seq<Step>)
    ensures Kept(Run(steps))
  {
    if steps != [] {
      RunsKeep(steps[..|steps| - 1]);
    }
  }

  /** One stale commit loses an update for good: no later commit makes up for it. */
  lemma StepDecides(s: State, step: Step)
    requires Kept(s)
    ensures Count(Apply(s, step).row) == Apply(s, step).trades
            <==> Count(s.row) == s.trades && !IsStale(s, step)
  {
  }

  /** The daily count equals the committed trades exactly on the runs in which no transaction
      commits over another it has not seen. */
  lemma {:induction false} DailyCountIsExactIff(steps: seq<Step>)
    ensures Count(Run(steps).row) == Run(steps).trades <==> NeverStale(steps)
  {
    if steps != [] {
      var n := |steps| - 1;
      var init := steps[..n];
      DailyCountIsExactIff(init);
      RunsKeep(init);
      StepDecides(Run(init), steps[n]);
      NeverStaleSnoc(steps);
    }
  }

  lemma RunSnoc(steps: seq<Step>, step: Step)
    ensures Run(steps + [step]) == Apply(Run(steps), step)
  {
    assert (steps + [step])[..|steps|] == steps;
  }

  const TWO_AT_ONCE: seq<Step> := [Look(0)] + [Commit(0)] + [Look(1)] + [Look(2)] + [Commit(1)] + [Commit(2)]

  /** Two closings that both read before either writes: three trades, a daily count of two. */
  lemma AnUpdateCanBeLost()
    ensures Run(TWO_AT_ONCE).trades == 3 && Run(TWO_AT_ONCE).row == Some(2)
  {
    RunSnoc([], Look(0));
    assert [] + [Look(0)] == [Look(0)];
    RunSnoc([Look(0)], Commit(0));
    RunSnoc([Look(0)] + [Commit(0)], Look(1));
    RunSnoc([Look(0)] + [Commit(0)] + [Look(1)], Look(2));
    RunSnoc([Look(0)] + [Commit(0)] + [Look(1)] + [Look(2)], Commit(1));
    RunSnoc([Look(0)] + [Commit(0)] + [Look(1)] + [Look(2)] + [Commit(1)], Commit(2));
  }
}
