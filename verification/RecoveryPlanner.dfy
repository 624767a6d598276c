/** What crash recovery does with the step at the cursor (internal/skillruntime/recovery.go). */
module RecoveryPlanner {
  import opened ExecutionLedger
  import opened SkillSpec
  import opened Wrappers

  datatype RecoveryPlan =
    | RecoverContinue
    | RecoverRetry(nextAttempt: nat, last: Option<StepExecution>)
    | RecoverReconcile(row: StepExecution)
    | RecoverFail
    | RecoverManual

  /** The later of two attempts: by attempt number, then by sequence, then by position. */
  predicate Supersedes(st: StepExecution, best: StepExecution) {
    st.attempt > best.attempt || (st.attempt == best.attempt && st.sequence >= best.sequence)
  }

  function LatestAttempt(rows: Rows, stepId: string): Option<StepExecution> {
    if rows == [] then None
    else
      var best := LatestAttempt(rows[..|rows| - 1], stepId);
      var st := rows[|rows| - 1];
      if st.stepId == stepId && (best.None? || Supersedes(st, best.value)) then Some(st) else best
  }

  /** Keeps the best row seen so far. */
  method LatestAttemptForStep(rows: Rows, stepId: string) returns (best: Option<StepExecution>)
    ensures best == LatestAttempt(rows, stepId)
  {
    best := None;
    for i := 0 to |rows|
      invariant best == LatestAttempt(rows[..i], stepId)
    {
      var st := rows[i];
      assert rows[..i + 1][..i] == rows[..i];
      if st.stepId == stepId && (best.None? || Supersedes(st, best.value)) {
        best := Some(st);
      }
    }
    assert rows[..|rows|] == rows;
  }

  function Plan(p: Program, ex: Execution, rows: Rows): RecoveryPlan {
    if ex.cursor >= |p.spec.steps| then RecoverContinue
    else
      var st := p.spec.steps[ex.cursor];
      var last := LatestAttempt(rows, st.id);
      if last.None? then RecoverRetry(1, None) else PlanAttempt(p, st, last.value)
  }

  function PlanAttempt(p: Program, st: SkillStep, last: StepExecution): RecoveryPlan {
    match last.status
    case StepSucceeded => RecoverContinue
    case StepShadowed => RecoverContinue
    case StepSkipped => RecoverContinue
    case StepPending => RecoverRetry(if last.attempt < 1 then 1 else last.attempt, Some(last))
    case StepFailed =>
      if last.attempt + 1 <= MaxAttempts(st) && (st.onError.RetryStep? || st.retry.Some?)
      then RecoverRetry(last.attempt + 1, Some(last))
      else if st.onError.ContinueStep? then RecoverContinue
      else RecoverFail
    case StepUnknownOutcome => PlanAmbiguous(p, st, last)
    case StepRunning => PlanAmbiguous(p, st, last)
  }

  function PlanAmbiguous(p: Program, st: SkillStep, last: StepExecution): RecoveryPlan {
    match ToolCapability(p, st.tool)
    case Native => RecoverRetry(if last.attempt + 1 < 2 then 2 else last.attempt + 1, Some(last))
    case QueryReconcile => RecoverReconcile(last)
    case NoIdempotency => RecoverManual
  }
}
