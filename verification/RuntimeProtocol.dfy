/** The durable runtime as a distributed protocol over one execution
    (internal/skillruntime/runtime.go, internal/skillexec/recovery.go).

    A worker is one call of `Run` or one claim-then-`Recover` pass. Between two accesses to
    the store or to a tool it only computes, so a history is a sequence of actions, each of
    which performs one such access of one worker, a claim, or a lease renewal. Any worker may
    be delayed for ever at any point: a crash is a worker that takes no further action. */
module RuntimeProtocol {
  import opened ExecutionLedger
  import opened RecoveryPlanner
  import opened SkillSpec
  import opened Templates
  import opened Wrappers

  /** A tool's answer. Ambiguous covers `Unknown` results and transport timeouts. */
  datatype Outcome =
    | ToolOk(output: Bindings)
    | ToolFailed(code: string, output: Bindings)
    | Ambiguous

  /** A provider's answer to a reconcile query; Undecided also covers errors and executors without one. */
  datatype Recon = Applied(output: Bindings) | NotApplied | Undecided

  datatype Reply = NoReply | ToolReply(outcome: Outcome) | ReconReply(recon: Recon)

  /** Where a worker continues once the outcome of an attempt is on the ledger. */
  datatype AfterRecord =
    | ToAdvance
    | ToRetry(attempt: nat)
    | ToFinish(status: ExecStatus, code: string)
    | ToRerun(attempt: nat)
    | ToNextStep

  datatype Result = Finished | Lost | Observed | MissingSpec

  /** The access a worker performs next, with the data it holds for it. */
  datatype Pc =
    // Recover
    | ReadExecution
    | ReadLedger
    | Relabel(k: nat, existing: Rows)
    | AskReconcile(row: StepExecution)
    | ConfirmApplied(row: StepExecution)
    | Checkpoint(cursor: nat, attempt: nat)
    | PendCheckpoint(row: StepExecution)
    // runSteps
    | Enter(attempt: nat)
    | Load(attempt: nat)
    | CreateSkip(row: StepExecution)
    | CreateBroken(row: StepExecution)
    | CreateAttempt(row: StepExecution)
    | Start(row: StepExecution, resumed: bool)
    | Invoke(row: StepExecution, resumed: bool)
    | Await(row: StepExecution, resumed: bool)
    | Record(row: StepExecution, next: AfterRecord)
    | Advance
    | Finish(status: ExecStatus, code: string, outputs: Option<Bindings>)
    | Done(result: Result)

  /** A worker's local variables: its copy of the execution, the bindings, the row sequence
      number and the last attempt of the current step. `claimed` is the epoch its claim returned. */
  datatype Worker = Worker(
    owner: string,
    claimed: nat,
    ex: Execution,
    pc: Pc,
    bindings: Bindings,
    sequence: nat,
    endAttempt: nat)

  /** A tool invocation: for which row, with what. */
  datatype Call = Call(rowId: nat, tool: string, input: Bindings, opKey: string)

  /** What happened so far: which worker had its RUNNING write of a row accepted, those rows in
      order, the tool calls in order, the tools' answers, and the providers' answers. */
  datatype History = History(
    starter: map<nat, nat>,
    starts: seq<nat>,
    calls: seq<Call>,
    replies: map<nat, Outcome>,
    recons: seq<(nat, Recon)>)

  datatype Sys = Sys(cell: Cell, workers: seq<Worker>, nextId: nat, h: History)

  datatype Action =
    | Claim(owner: string, leaseOwner: string, until: int, now: int)
    | Renew(owner: string, epoch: nat, until: int)
    | Work(w: nat, now: int, reply: Reply)

  // ---------------------------------------------------------------- local computations

  function TouchLease(p: Program, owner: string, ex: Execution, now: int): Execution {
    var owner' := if owner != "" then owner else if ex.lease.owner == "" then "runtime" else ex.lease.owner;
    ex.(lease := Lease(owner', Some(now + p.ttl)), epoch := if ex.epoch == 0 then 1 else ex.epoch)
  }

  /** Bindings after a successful attempt. */
  function Bind(b: Bindings, st: SkillStep, output: Bindings): Bindings {
    if st.saveAs == "" then b else b[st.saveAs := Obj(output)]
  }

  /** Index of the last row of a step, or -1. */
  function LastIndex(rows: Rows, stepId: string): (j: int)
    ensures -1 <= j < |rows|
    ensures j >= 0 ==> rows[j].stepId == stepId
    ensures forall k | j < k < |rows| :: rows[k].stepId != stepId
  {
    if rows == [] then -1
    else if rows[|rows| - 1].stepId == stepId then |rows| - 1
    else LastIndex(rows[..|rows| - 1], stepId)
  }

  function LastRow(rows: Rows, stepId: string): Option<StepExecution> {
    var j := LastIndex(rows, stepId);
    if j < 0 then None else Some(rows[j])
  }

  /** Overlay of the saved outputs of the first k steps, read off the ledger. */
  function RebuildBindings(spec: Spec, rows: Rows, base: Bindings, k: nat): Bindings
    requires k <= |spec.steps|
  {
    if k == 0 then base
    else
      var b := RebuildBindings(spec, rows, base, k - 1);
      var got := LastRow(rows, spec.steps[k - 1].id);
      if got.Some? && DoneStatus(got.value.status) then Bind(b, spec.steps[k - 1], got.value.output) else b
  }

  function NewRow(l: Worker, st: SkillStep, status: StepStatus): StepExecution {
    StepExecution(0, st.id, st.tool, map[], map[], status, "", l.sequence + 1, 0, "", l.ex.epoch)
  }

  /** The loop head of runSteps at the step under the cursor; the first step starts at `attempt`. */
  function LoopHead(p: Program, l: Worker, attempt: nat): Worker {
    if l.ex.cursor >= StepLimit(p.spec) then
      l.(pc := Finish(ExecSucceeded, "", ExtractOutputs(p.spec, l.bindings)))
    else
      var st := p.spec.steps[l.ex.cursor];
      if !GuardHolds(p, st, l.bindings) then
        l.(pc := CreateSkip(NewRow(l, st, StepSkipped)), sequence := l.sequence + 1)
      else
        var opKey := OperationKey(l.ex.req.id, st.id);
        match ResolveArgs(p.render, st.args, l.bindings)
        case None =>
          var row := NewRow(l, st, StepFailed).(attempt := attempt, opKey := opKey, errorCode := "TEMPLATE_ERROR",
                                                   output := map["error" := Str("unresolved template")]);
          l.(pc := CreateBroken(row), sequence := l.sequence + 1)
        case Some(input) =>
          var row := NewRow(l, st, StepPending).(attempt := attempt, opKey := opKey, input := input);
          l.(pc := CreateAttempt(row), sequence := l.sequence + 1,
             endAttempt := if attempt > MaxAttempts(st) then attempt else MaxAttempts(st))
  }

  /** runSteps after it listed the ledger: bindings, preconditions, then the loop. */
  function Loaded(p: Program, l: Worker, existing: Rows, attempt: nat): Worker {
    var resumed := l.ex.cursor > 0 && |existing| > 0;
    var base := InputBindings(l.ex.req.inputs);
    var b := if resumed then RebuildBindings(p.spec, existing, base, |p.spec.steps|) else base;
    var l' := l.(bindings := b, sequence := if resumed then |existing| else 0);
    if l.ex.cursor == 0 && !PreconditionsHold(p, b)
    then l'.(pc := Finish(ExecFailed, "PRECONDITION_FAILED", None))
    else LoopHead(p, l', if attempt > 0 then attempt else 1)
  }

  /** Recover after relabelling: what the plan says to do next. */
  function Planned(p: Program, l: Worker, existing: Rows): Worker {
    l.(pc := match Plan(p, l.ex, existing)
             case RecoverFail => Finish(ExecFailed, "STEP_FAILED", None)
             case RecoverManual => Finish(ExecNeedsReconciliation, "NEEDS_RECONCILIATION", None)
             case RecoverReconcile(row) => AskReconcile(row)
             case RecoverContinue => Checkpoint(l.ex.cursor + 1, 0)
             case RecoverRetry(next, last) =>
               if last.Some? && last.value.status == StepPending then PendCheckpoint(last.value)
               else Checkpoint(l.ex.cursor, if next == 0 then 1 else next))
  }

  function Reconciled(l: Worker, row: StepExecution, answer: Recon): Pc {
    match answer
    case Applied(output) => ConfirmApplied(row.(status := StepSucceeded, output := output, errorCode := ""))
    case NotApplied => Checkpoint(l.ex.cursor, if row.attempt + 1 < 2 then 2 else row.attempt + 1)
    case Undecided => Finish(ExecNeedsReconciliation, "NEEDS_RECONCILIATION", None)
  }

  function DoneRow(p: Program, mode: Mode, row: StepExecution, output: Bindings): StepExecution {
    row.(output := output,
         status := if mode.Shadow? && SideEffect(p, row.tool) then StepShadowed else StepSucceeded)
  }

  /** What runSteps does with the answer to an attempt of step st. */
  function AfterCall(p: Program, ex: Execution, endAttempt: nat, st: SkillStep, row: StepExecution, outcome: Outcome): Pc {
    match outcome
    case ToolOk(output) => Record(DoneRow(p, ex.req.mode, row, output), ToAdvance)
    case Ambiguous =>
      var row' := row.(status := StepUnknownOutcome, errorCode := "UNKNOWN_OUTCOME",
                       output := map["error" := Str("ambiguous remote outcome")]);
      if ToolCapability(p, st.tool).Native? && row.attempt + 1 <= endAttempt
      then Record(row', ToRetry(row.attempt + 1))
      else Record(row', ToFinish(ExecNeedsReconciliation, "UNKNOWN_OUTCOME"))
    case ToolFailed(code, output) =>
      if row.attempt + 1 <= endAttempt && (st.onError.RetryStep? || st.retry.Some?)
      then CreateAttempt(NextAttempt(ex.epoch, row, row.attempt + 1))
      else
        var row' := row.(status := StepFailed, errorCode := code, output := output);
        Record(row', if st.onError.ContinueStep? then ToAdvance else ToFinish(ExecFailed, code))
  }

  /** What resumePendingStep does with it. */
  function AfterResumedCall(p: Program, mode: Mode, row: StepExecution, outcome: Outcome): Pc {
    match outcome
    case ToolOk(output) => Record(DoneRow(p, mode, row, output), ToNextStep)
    case Ambiguous =>
      var row' := row.(status := StepUnknownOutcome, errorCode := "UNKNOWN_OUTCOME", output := map[]);
      Record(row', if ToolCapability(p, row.tool).Native? then ToRerun(row.attempt + 1)
                   else ToFinish(ExecNeedsReconciliation, "UNKNOWN_OUTCOME"))
    case ToolFailed(code, output) =>
      Record(row.(status := StepFailed, errorCode := code, output := output), ToFinish(ExecFailed, code))
  }

  function NextAttempt(epoch: nat, row: StepExecution, attempt: nat): StepExecution {
    row.(attempt := attempt, status := StepPending, errorCode := "", output := map[], epoch := epoch)
  }

  /** Continuation once an attempt's outcome was accepted by the store. */
  function Recorded(p: Program, l: Worker, row: StepExecution, next: AfterRecord): Worker {
    match next
    case ToAdvance =>
      var b := if DoneStatus(row.status) && l.ex.cursor < |p.spec.steps|
               then Bind(l.bindings, p.spec.steps[l.ex.cursor], row.output) else l.bindings;
      l.(pc := Advance, bindings := b)
    case ToRetry(attempt) => l.(pc := CreateAttempt(NextAttempt(l.ex.epoch, row, attempt)))
    case ToFinish(status, code) => l.(pc := Finish(status, code, None))
    case ToRerun(attempt) => l.(pc := Enter(attempt))
    case ToNextStep => l.(pc := Checkpoint(l.ex.cursor + 1, 0))
  }

  // ---------------------------------------------------------------- accesses

  /** The access to shared state a worker is about to perform. */
  datatype Access =
    | Compute
    | GetExecution
    | ListSteps
    | PutExecution(ex: Execution)
    | AddRow(row: StepExecution)
    | PutRow(row: StepExecution)
    | QueryProvider(row: StepExecution)
    | CallTool(row: StepExecution)
    | AwaitTool(row: StepExecution)
    | Halt

  function NextAccess(l: Worker): Access {
    match l.pc
    case ReadExecution => GetExecution
    case ReadLedger => ListSteps
    case Relabel(k, existing) =>
      if k < |existing| && existing[k].status == StepRunning
      then PutRow(existing[k].(status := StepUnknownOutcome, errorCode := "UNKNOWN_OUTCOME"))
      else Compute
    case AskReconcile(row) => QueryProvider(row)
    case ConfirmApplied(row) => PutRow(row)
    case Checkpoint(cursor, _) => PutExecution(l.ex.(cursor := cursor))
    case PendCheckpoint(_) => PutExecution(l.ex)
    case Enter(_) => PutExecution(l.ex.(status := ExecRunning))
    case Load(_) => ListSteps
    case CreateSkip(row) => AddRow(row)
    case CreateBroken(row) => AddRow(row)
    case CreateAttempt(row) => AddRow(row)
    case Start(row, _) => PutRow(row.(status := StepRunning))
    case Invoke(row, _) => CallTool(row)
    case Await(row, _) => AwaitTool(row)
    case Record(row, _) => PutRow(row)
    case Advance => PutExecution(l.ex.(cursor := l.ex.cursor + 1))
    case Finish(status, code, outputs) =>
      var ex := l.ex.(status := status, errorCode := code);
      PutExecution(if status == ExecSucceeded then ex.(outputs := outputs, lease := Lease("", None)) else ex)
    case Done(_) => Halt
  }

  /** One iteration of the relabelling loop that writes nothing, or the plan after it. */
  function AfterCompute(p: Program, l: Worker): Worker {
    if !l.pc.Relabel? then l
    else if l.pc.k < |l.pc.existing| then l.(pc := Relabel(l.pc.k + 1, l.pc.existing))
    else Planned(p, l, l.pc.existing)
  }

  function AfterGet(p: Program, l: Worker, ex: Execution): Worker {
    l.(ex := ex,
       pc := if !Open(ex.status) then Done(Observed)
             else if p.spec.steps == [] then Done(MissingSpec)
             else ReadLedger)
  }

  function AfterList(p: Program, l: Worker, rows: Rows): Worker {
    if l.pc.Load? then Loaded(p, l, rows, l.pc.attempt) else l.(pc := Relabel(0, rows))
  }

  /** After an accepted write of the execution; `l.ex` is what the store returned. */
  function AfterPutExecution(p: Program, l: Worker): Worker {
    match l.pc
    case Checkpoint(_, attempt) => l.(pc := Enter(attempt))
    case PendCheckpoint(row) => l.(pc := Start(row.(errorCode := ""), true))
    case Enter(attempt) => l.(pc := Load(attempt))
    case Advance => LoopHead(p, l, 1)
    case _ => l.(pc := Done(Finished))
  }

  function AfterAddRow(p: Program, l: Worker, row: StepExecution): Worker {
    match l.pc
    case CreateAttempt(_) => l.(pc := Start(row, false))
    case CreateBroken(_) =>
      if l.ex.cursor < |p.spec.steps| && p.spec.steps[l.ex.cursor].onError.ContinueStep?
      then l.(pc := Advance) else l.(pc := Finish(ExecFailed, "TEMPLATE_ERROR", None))
    case _ => l.(pc := Advance)
  }

  function AfterPutRow(p: Program, l: Worker, row: StepExecution): Worker {
    match l.pc
    case Relabel(k, existing) => if k < |existing| then l.(pc := Relabel(k + 1, existing[k := row])) else l
    case Start(_, resumed) => l.(pc := Invoke(row, resumed))
    case Record(_, next) => Recorded(p, l, row, next)
    case _ => l.(pc := Checkpoint(l.ex.cursor + 1, 0))
  }

  function AfterReply(p: Program, l: Worker, row: StepExecution, outcome: Outcome): Worker {
    if l.pc.Await? && l.pc.resumed then l.(pc := AfterResumedCall(p, l.ex.req.mode, row, outcome))
    else if l.ex.cursor < |p.spec.steps| then l.(pc := AfterCall(p, l.ex, l.endAttempt, p.spec.steps[l.ex.cursor], row, outcome))
    else l.(pc := Done(Lost))
  }

  // ---------------------------------------------------------------- actions

  function WorkStep(p: Program, s: Sys, w: nat, now: int, reply: Reply): Sys
    requires w < |s.workers|
  {
    var l := s.workers[w];
    var lost := s.workers[w := l.(pc := Done(Lost))];
    match NextAccess(l)
    case Compute => s.(workers := s.workers[w := AfterCompute(p, l)])
    case GetExecution => s.(workers := s.workers[w := AfterGet(p, l, s.cell.ex)])
    case ListSteps => s.(workers := s.workers[w := AfterList(p, l, s.cell.rows)])
    case PutExecution(ex) =>
      (match UpdateExecutionFenced(s.cell, TouchLease(p, l.owner, ex, now), l.ex.epoch)
       case Some(cell) => s.(cell := cell, workers := s.workers[w := AfterPutExecution(p, l.(ex := cell.ex))])
       case None => s.(workers := lost))
    case AddRow(row) =>
      (match CreateStepFenced(s.cell, row.(id := s.nextId), l.ex.epoch)
       case Written(cell, row') =>
         s.(cell := cell, nextId := s.nextId + 1, workers := s.workers[w := AfterAddRow(p, l, row')])
       case _ => s.(workers := lost))
    case PutRow(row) =>
      (match UpdateStepFenced(s.cell, row, l.ex.epoch)
       case Written(cell, row') =>
         var s' := s.(cell := cell, workers := s.workers[w := AfterPutRow(p, l, row')]);
         if l.pc.Start? then s'.(h := s.h.(starter := s.h.starter[row.id := w], starts := s.h.starts + [row.id])) else s'
       case _ => s.(workers := lost))
    case QueryProvider(row) =>
      if reply.ReconReply?
      then s.(h := s.h.(recons := s.h.recons + [(row.id, reply.recon)]),
              workers := s.workers[w := l.(pc := Reconciled(l, row, reply.recon))])
      else s
    case CallTool(row) =>
      s.(h := s.h.(calls := s.h.calls + [Call(row.id, row.tool, row.input, row.opKey)]),
         workers := s.workers[w := l.(pc := Await(row, l.pc.Invoke? && l.pc.resumed))])
    case AwaitTool(row) =>
      if reply.ToolReply?
      then s.(h := s.h.(replies := s.h.replies[row.id := reply.outcome]),
              workers := s.workers[w := AfterReply(p, l, row, reply.outcome)])
      else s
    case Halt => s
  }

  function NewWorker(owner: string, ex: Execution, pc: Pc): Worker {
    Worker(owner, ex.epoch, ex, pc, map[], 0, 0)
  }

  /** One action; an action that is not enabled leaves the system as it is. */
  function Next(p: Program, s: Sys, a: Action): Sys {
    match a
    case Claim(owner, leaseOwner, until, now) =>
      (match ClaimExecutionLease(s.cell, owner, until, now)
       case Some(cell) => s.(cell := cell, workers := s.workers + [NewWorker(leaseOwner, cell.ex, ReadExecution)])
       case None => s)
    case Renew(owner, epoch, until) =>
      (match RenewLease(s.cell, owner, epoch, until)
       case Some(cell) => s.(cell := cell)
       case None => s)
    case Work(w, now, reply) => if w < |s.workers| then WorkStep(p, s, w, now, reply) else s
  }

  /** The system after a whole history. */
  function Exec(p: Program, s: Sys, history: seq<Action>): Sys {
    if history == [] then s
    else Next(p, Exec(p, s, history[..|history| - 1]), history[|history| - 1])
  }

  lemma ExecAppend(p: Program, s: Sys, history: seq<Action>, a: Action)
    ensures Exec(p, s, history + [a]) == Next(p, Exec(p, s, history), a)
  {
    assert (history + [a])[..|history|] == history;
  }

  /** A freshly created (or resumed) execution and the worker that entered runSteps for it. */
  function Initial(ex: Execution, owner: string): Sys {
    Sys(Cell(ex, []), [NewWorker(owner, ex, Enter(0))], 0, History(map[], [], [], map[], []))
  }

  predicate FreshExecution(ex: Execution) {
    ex.status == ExecPending && ex.cursor == 0 && ex.epoch == 1 && ex.outputs == None
  }
}
