/** Order-failure classification outcome and retry budget (app/order_failures/policy.py,
    app/order_failures/service.py). The error class is an input; times are seconds. */
module OrderFailures {
  import opened Common

  datatype ErrorClass =
    | INSUFFICIENT_BALANCE | PRECISION_ERROR | MIN_NOTIONAL | RATE_LIMIT | NETWORK_TIMEOUT
    | EXCHANGE_DOWN | ORDER_REJECTED | REDUCE_ONLY_REJECTED | TP_SL_FAILED | UNKNOWN

  datatype FinalState = RETRY_SCHEDULED | NEEDS_RECONCILE | RESOLVED | FAILED

  datatype Decision = Decision(
    shouldRetry: bool, delay: real, terminal: bool, needsReconcile: bool, finalState: FinalState)

  const MAX_RETRIES: nat := 5

  function Pow2(n: nat): real {
    if n == 0 then 1.0 else 2.0 * Pow2(n - 1)
  }

  function BackoffDelay(retryCount: nat, base: real, cap: real): real {
    Min(cap, base * Pow2(retryCount))
  }

  function Retry(delay: real): Decision { Decision(true, delay, false, false, RETRY_SCHEDULED) }

  const GIVE_UP := Decision(false, 0.0, true, false, FAILED)
  const RECONCILE := Decision(false, 0.0, false, true, NEEDS_RECONCILE)

  /** The budget check the transient classes share. */
  function WithinBudget(retryCount: nat, d: Decision): Decision {
    if retryCount >= MAX_RETRIES then GIVE_UP else d
  }

  function DecideRetry(cls: ErrorClass, retryCount: nat, recommended: Option<real>): Decision {
    match cls
    case INSUFFICIENT_BALANCE => GIVE_UP
    case MIN_NOTIONAL => GIVE_UP
    case PRECISION_ERROR => if retryCount < 1 then Retry(0.0) else GIVE_UP
    case REDUCE_ONLY_REJECTED => RECONCILE
    case ORDER_REJECTED => GIVE_UP
    case UNKNOWN => RECONCILE
    case RATE_LIMIT => WithinBudget(retryCount, Retry(if recommended.Some? then recommended.value else 2.0))
    case NETWORK_TIMEOUT =>
      WithinBudget(retryCount,
                   Decision(true, BackoffDelay(retryCount, 1.0, 60.0), false, true, NEEDS_RECONCILE))
    case EXCHANGE_DOWN => WithinBudget(retryCount, Retry(BackoffDelay(retryCount, 5.0, 120.0)))
    case TP_SL_FAILED =>
      WithinBudget(retryCount, Retry(if retryCount == 0 then 0.0 else BackoffDelay(retryCount, 1.0, 60.0)))
  }

  function Budget(cls: ErrorClass): nat {
    match cls
    case RATE_LIMIT => 5
    case NETWORK_TIMEOUT => 5
    case EXCHANGE_DOWN => 5
    case TP_SL_FAILED => 5
    case PRECISION_ERROR => 1
    case _ => 0
  }

  /** Every decision is one of three kinds: retry later, give up for good, or verify the
      order first; and a transient class gives up exactly when its budget is used up. */
  lemma DecisionIsCoherent(cls: ErrorClass, retryCount: nat, recommended: Option<real>)
    ensures var d := DecideRetry(cls, retryCount, recommended);
            && (d.terminal <==> d.finalState == FAILED)
            && (d.needsReconcile <==> d.finalState == NEEDS_RECONCILE)
            && (d.terminal ==> !d.shouldRetry)
            && (!d.shouldRetry ==> (d.terminal || d.needsReconcile) && d.delay == 0.0)
            && (d.needsReconcile <==>
                  cls in {UNKNOWN, REDUCE_ONLY_REJECTED} || (cls == NETWORK_TIMEOUT && retryCount < MAX_RETRIES))
            && (d.shouldRetry <==> retryCount < Budget(cls))
  {
  }

  // ---- one stored row ----

  datatype RowState = RowState(
    errorClass: ErrorClass, retryCount: nat, finalState: FinalState, nextRetryAt: Option<real>)

  function Due(d: Decision, now: real): Option<real> {
    if d.shouldRetry then Some(now + d.delay) else None
  }

  function Recorded(cls: ErrorClass, recommended: Option<real>, now: real): RowState {
    var d := DecideRetry(cls, 0, recommended);
    RowState(cls, 0, d.finalState, Due(d, now))
  }

  predicate Closed(s: RowState) { s.finalState == RESOLVED || s.finalState == FAILED }

  function RetryNoted(s: RowState, now: real): RowState {
    if Closed(s) then s
    else
      var d := DecideRetry(s.errorClass, s.retryCount + 1, None);
      RowState(s.errorClass, s.retryCount + 1, d.finalState, Due(d, now))
  }

  function MarkedResolved(s: RowState): RowState {
    s.(finalState := RESOLVED, nextRetryAt := None)
  }

  /** The ORM row the service updates in place. */
  class OrderFailure {
    const errorClass: ErrorClass
    var retryCount: nat
    var finalState: FinalState
    var nextRetryAt: Option<real>

    ghost function State(): RowState
      reads this
    {
      RowState(errorClass, retryCount, finalState, nextRetryAt)
    }

    /** record_failure */
    constructor (cls: ErrorClass, recommended: Option<real>, now: real)
      ensures State() == Recorded(cls, recommended, now)
    {
      var decision := DecideRetry(cls, 0, recommended);
      errorClass := cls;
      retryCount := 0;
      finalState := decision.finalState;
      nextRetryAt := if decision.shouldRetry then Some(now + decision.delay) else None;
    }

    /** note_retry; no decision is returned for a closed row. */
    method NoteRetry(now: real) returns (decision: Option<Decision>)
      modifies this
      ensures State() == RetryNoted(old(State()), now)
      ensures decision == if Closed(old(State())) then None
                          else Some(DecideRetry(errorClass, old(retryCount) + 1, None))
    {
      if finalState == RESOLVED || finalState == FAILED {
        return None;
      }
      retryCount := retryCount + 1;
      var d := DecideRetry(errorClass, retryCount, None);
      finalState := d.finalState;
      nextRetryAt := if d.shouldRetry then Some(now + d.delay) else None;
      return Some(d);
    }

    /** mark_resolved */
    method MarkResolved()
      modifies this
      ensures State() == MarkedResolved(old(State()))
    {
      finalState := RESOLVED;
      nextRetryAt := None;
    }
  }

  // ---- runs over one row ----

  datatype Op = Note(now: real) | Resolve

  /** A row, how many retries its decisions have scheduled, and the delay they added up to. */
  datatype Run = Run(row: RowState, scheduled: nat, delay: real)

  function Counted(d: Decision): nat { if d.shouldRetry then 1 else 0 }
  function Delayed(d: Decision): real { if d.shouldRetry then d.delay else 0.0 }

  function Begin(cls: ErrorClass, recommended: Option<real>, now: real): Run {
    var d := DecideRetry(cls, 0, recommended);
    Run(Recorded(cls, recommended, now), Counted(d), Delayed(d))
  }

  function Do(r: Run, op: Op): Run {
    match op
    case Resolve => r.(row := MarkedResolved(r.row))
    case Note(now) =>
      if Closed(r.row) then r
      else
        var d := DecideRetry(r.row.errorClass, r.row.retryCount + 1, None);
        Run(RetryNoted(r.row, now), r.scheduled + Counted(d), r.delay + Delayed(d))
  }

  function After(cls: ErrorClass, recommended: Option<real>, now: real, ops: seq<Op>): Run {
    if ops == [] then Begin(cls, recommended, now)
    else Do(After(cls, recommended, now, ops[..|ops| - 1]), ops[|ops| - 1])
  }

  /** Retries the policy grants on counts 0..c, and their total delay. */
  function GrantedUpTo(cls: ErrorClass, c: nat): nat {
    Counted(DecideRetry(cls, c, None)) + if c == 0 then 0 else GrantedUpTo(cls, c - 1)
  }

  function DelayUpTo(cls: ErrorClass, recommended: Option<real>, c: nat): real {
    if c == 0 then Delayed(DecideRetry(cls, 0, recommended))
    else DelayUpTo(cls, recommended, c - 1) + Delayed(DecideRetry(cls, c, None))
  }

  /** What every run keeps: the row's state is the policy's verdict on its count, unless an
      operator resolved it, and a retry is due exactly when that verdict grants one. */
  ghost predicate Consistent(r: Run, cls: ErrorClass, recommended: Option<real>) {
    var row := r.row;
    var verdict := DecideRetry(cls, row.retryCount, if row.retryCount == 0 then recommended else None);
    && row.errorClass == cls
    && (row.finalState == RESOLVED || row.finalState == verdict.finalState)
    && (row.nextRetryAt.Some? <==> row.finalState != RESOLVED && verdict.shouldRetry)
    && r.scheduled == GrantedUpTo(cls, row.retryCount)
    && r.delay == DelayUpTo(cls, recommended, row.retryCount)
  }

  lemma DoConsistent(r: Run, cls: ErrorClass, recommended: Option<real>, op: Op)
    requires Consistent(r, cls, recommended)
    ensures Consistent(Do(r, op), cls, recommended)
  {
  }

  lemma {:induction false} RunsStayConsistent(
    cls: ErrorClass, recommended: Option<real>, now: real, ops: seq<Op>)
    ensures Consistent(After(cls, recommended, now, ops), cls, recommended)
  {
    if ops != [] {
      RunsStayConsistent(cls, recommended, now, ops[..|ops| - 1]);
      DoConsistent(After(cls, recommended, now, ops[..|ops| - 1]), cls, recommended, ops[|ops| - 1]);
    }
  }

  function DelayBudget(cls: ErrorClass, recommended: Option<real>): real {
    match cls
    case RATE_LIMIT => (if recommended.Some? then recommended.value else 2.0) + 8.0
    case NETWORK_TIMEOUT => 31.0
    case EXCHANGE_DOWN => 155.0
    case TP_SL_FAILED => 30.0
    case _ => 0.0
  }

  lemma Powers()
    ensures Pow2(0) == 1.0 && Pow2(1) == 2.0 && Pow2(2) == 4.0 && Pow2(3) == 8.0 && Pow2(4) == 16.0
  {
  }

  lemma GrantStep(cls: ErrorClass, recommended: Option<real>, c: nat)
    requires c > 0
    ensures GrantedUpTo(cls, c) == GrantedUpTo(cls, c - 1) + Counted(DecideRetry(cls, c, None))
    ensures DelayUpTo(cls, recommended, c) == DelayUpTo(cls, recommended, c - 1) + Delayed(DecideRetry(cls, c, None))
  {
  }

  /** The first five grants, written out. */
  lemma FirstGrants(cls: ErrorClass)
    ensures GrantedUpTo(cls, 0) <= GrantedUpTo(cls, 1) <= GrantedUpTo(cls, 2) <= GrantedUpTo(cls, 3)
            <= GrantedUpTo(cls, 4) == Budget(cls)
  {
    GrantStep(cls, None, 1);
    GrantStep(cls, None, 2);
    GrantStep(cls, None, 3);
    GrantStep(cls, None, 4);
  }

  /** ... and the delays they come with. */
  lemma FirstDelays(cls: ErrorClass, recommended: Option<real>)
    ensures DelayUpTo(cls, recommended, 0) <= DelayUpTo(cls, recommended, 1) <= DelayUpTo(cls, recommended, 2)
            <= DelayUpTo(cls, recommended, 3) <= DelayUpTo(cls, recommended, 4) == DelayBudget(cls, recommended)
  {
    Powers();
    GrantStep(cls, recommended, 1);
    GrantStep(cls, recommended, 2);
    GrantStep(cls, recommended, 3);
    GrantStep(cls, recommended, 4);
  }

  /** The budgets are exact: fewer counts grant fewer retries and less delay, and from the
      fourth recount on everything has been granted. */
  lemma {:induction false} GrantsWithinBudget(cls: ErrorClass, recommended: Option<real>, c: nat)
    ensures GrantedUpTo(cls, c) <= Budget(cls)
    ensures DelayUpTo(cls, recommended, c) <= DelayBudget(cls, recommended)
    ensures c >= 4 ==> GrantedUpTo(cls, c) == Budget(cls)
                       && DelayUpTo(cls, recommended, c) == DelayBudget(cls, recommended)
  {
    if c >= 5 {
      GrantsWithinBudget(cls, recommended, c - 1);
      GrantStep(cls, recommended, c);
    } else {
      FirstGrants(cls);
      FirstDelays(cls, recommended);
    }
  }

  /** Over any run of note_retry and mark_resolved on a recorded row, the retries scheduled
      never exceed the class's budget and their delays never exceed its total: 31 s for
      timeouts, 155 s for an exchange that is down, 30 s for protective orders, the
      recommended delay plus 8 s for rate limits, and nothing for the rest. */
  lemma RetriesWithinBudget(cls: ErrorClass, recommended: Option<real>, now: real, ops: seq<Op>)
    ensures var r := After(cls, recommended, now, ops);
            && r.scheduled <= Budget(cls)
            && r.delay <= DelayBudget(cls, recommended)
            && (r.row.nextRetryAt.Some? ==> !Closed(r.row) && r.scheduled >= 1)
            && (Budget(cls) == 0 ==> r.row.nextRetryAt == None)
  {
    RunsStayConsistent(cls, recommended, now, ops);
    var r := After(cls, recommended, now, ops);
    GrantsWithinBudget(cls, recommended, r.row.retryCount);
    if Budget(cls) == 0 {
      assert !DecideRetry(cls, r.row.retryCount, None).shouldRetry;
    }
  }

  /** The totals are reached: four recounts of an unresolved transient failure schedule the
      whole budget. */
  lemma BudgetIsReached(cls: ErrorClass, recommended: Option<real>, now: real, ops: seq<Op>)
    requires After(cls, recommended, now, ops).row.retryCount >= 4
    ensures var r := After(cls, recommended, now, ops);
            r.scheduled == Budget(cls) && r.delay == DelayBudget(cls, recommended)
  {
    RunsStayConsistent(cls, recommended, now, ops);
    GrantsWithinBudget(cls, recommended, After(cls, recommended, now, ops).row.retryCount);
  }

  function DoAll(r: Run, ops: seq<Op>): Run {
    if ops == [] then r else Do(DoAll(r, ops[..|ops| - 1]), ops[|ops| - 1])
  }

  /** Recounting never leaves RESOLVED or FAILED, and a resolved row stays resolved whatever
      is done to it. */
  lemma {:induction false} ClosedStaysClosed(r: Run, ops: seq<Op>)
    requires Closed(r.row)
    ensures Closed(DoAll(r, ops).row)
    ensures r.row.finalState == RESOLVED ==> DoAll(r, ops).row.finalState == RESOLVED
    ensures DoAll(r, ops).scheduled == r.scheduled && DoAll(r, ops).delay == r.delay
    ensures (forall i :: 0 <= i < |ops| ==> ops[i].Note?) ==> DoAll(r, ops) == r
  {
    if ops != [] {
      ClosedStaysClosed(r, ops[..|ops| - 1]);
      assert forall i :: 0 <= i < |ops| - 1 ==> ops[..|ops| - 1][i] == ops[i];
    }
  }

  /** Rows whose true state is unknown are never retried blindly: they wait for an operator,
      however often they are recounted. */
  lemma UnknownWaitsForOperator(cls: ErrorClass, recommended: Option<real>, now: real, ops: seq<Op>)
    requires cls == UNKNOWN || cls == REDUCE_ONLY_REJECTED
    ensures var row := After(cls, recommended, now, ops).row;
            row.finalState in {NEEDS_RECONCILE, RESOLVED} && row.nextRetryAt == None
  {
    RunsStayConsistent(cls, recommended, now, ops);
  }

  // ---- circuit breaker ----

  function Recent(times: seq<real>, now: real, window: real): nat {
    if times == [] then 0
    else
      var t := times[|times| - 1];
      Recent(times[..|times| - 1], now, window) + if 0.0 <= now - t <= window then 1 else 0
  }

  /** policy.breaker_tripped */
  predicate BreakerTripped(times: seq<real>, now: real, window: real, threshold: int) {
    threshold > 0 && Recent(times, now, window) >= threshold
  }

  /** service.recent_failure_count: the query has no upper time bound. */
  function StoredSince(times: seq<real>, since: real): nat {
    if times == [] then 0
    else StoredSince(times[..|times| - 1], since) + if times[|times| - 1] >= since then 1 else 0
  }

  /** service.circuit_breaker_tripped */
  predicate StoredBreakerTripped(times: seq<real>, now: real, window: real, threshold: int) {
    threshold > 0 && StoredSince(times, now - window) >= threshold
  }

  function Ahead(times: seq<real>, now: real): nat {
    if times == [] then 0
    else Ahead(times[..|times| - 1], now) + if times[|times| - 1] > now then 1 else 0
  }

  lemma {:induction false} StoredCount(times: seq<real>, now: real, window: real)
    requires window >= 0.0
    ensures StoredSince(times, now - window) == Recent(times, now, window) + Ahead(times, now)
  {
    if times != [] {
      StoredCount(times[..|times| - 1], now, window);
    }
  }

  /** The stored breaker counts the pure one's failures plus those stamped in the future. So it
      never trips later, and the two agree for every threshold exactly when no row is ahead of
      the clock. */
  lemma BreakersCompared(times: seq<real>, now: real, window: real)
    requires window >= 0.0
    ensures StoredSince(times, now - window) == Recent(times, now, window) + Ahead(times, now)
    ensures forall threshold: int ::
              BreakerTripped(times, now, window, threshold) ==> StoredBreakerTripped(times, now, window, threshold)
    ensures (forall threshold: int ::
               BreakerTripped(times, now, window, threshold) <==> StoredBreakerTripped(times, now, window, threshold))
            <==> Ahead(times, now) == 0
  {
    StoredCount(times, now, window);
    if Ahead(times, now) > 0 {
      var threshold := StoredSince(times, now - window);
      assert StoredBreakerTripped(times, now, window, threshold);
      assert !BreakerTripped(times, now, window, threshold);
    }
  }

  // ---- when a retry is due ----

  /** The seconds a granted retry waits, by class and by how many retries there were: doubling from 1
      for timeouts and from 5 for an exchange that is down, at once and then as timeouts for
      protective orders, as recommended or 2 for rate limits, at once for precision. */
  ghost predicate IsDelay(cls: ErrorClass, count: nat, recommended: Option<real>, delay: real) {
    match cls
    case PRECISION_ERROR => count == 0 && delay == 0.0
    case RATE_LIMIT => count < 5 && delay == if recommended.Some? then recommended.value else 2.0
    case NETWORK_TIMEOUT => count < 5 && delay == [1.0, 2.0, 4.0, 8.0, 16.0][count]
    case EXCHANGE_DOWN => count < 5 && delay == [5.0, 10.0, 20.0, 40.0, 80.0][count]
    case TP_SL_FAILED => count < 5 && delay == [0.0, 2.0, 4.0, 8.0, 16.0][count]
    case _ => false
  }

  lemma DelaysAre(cls: ErrorClass, count: nat, recommended: Option<real>)
    ensures var d := DecideRetry(cls, count, recommended);
            && (d.shouldRetry ==> IsDelay(cls, count, recommended, d.delay))
            && (!d.shouldRetry ==> forall delay: real :: !IsDelay(cls, count, recommended, delay))
  {
    Powers();
  }

  /** A due time is set exactly when a retry is granted at this count, and lies its delay ahead. */
  ghost predicate IsDue(due: Option<real>, cls: ErrorClass, count: nat, recommended: Option<real>, now: real) {
    match due
    case Some(t) => IsDelay(cls, count, recommended, t - now)
    case None => forall delay: real :: !IsDelay(cls, count, recommended, delay)
  }

  /** A failure is due by its first decision; a recount of an open row adds one and makes it due by the
      decision at the new count. */
  lemma DueTimes(s: RowState, cls: ErrorClass, recommended: Option<real>, now: real)
    ensures var first, next := Recorded(cls, recommended, now), RetryNoted(s, now);
            && first.errorClass == cls && first.retryCount == 0
            && IsDue(first.nextRetryAt, cls, 0, recommended, now)
            && (s.finalState in {RETRY_SCHEDULED, NEEDS_RECONCILE} ==>
                  && next.errorClass == s.errorClass && next.retryCount == s.retryCount + 1
                  && IsDue(next.nextRetryAt, s.errorClass, s.retryCount + 1, None, now))
            && (s.finalState in {RESOLVED, FAILED} ==> next == s)
  {
    DelaysAre(cls, 0, recommended);
    DelaysAre(s.errorClass, s.retryCount + 1, None);
  }
}
