/** The inductive invariant of the runtime protocol. */
module ProtocolInvariant {
  import opened ExecutionLedger
  import opened RuntimeProtocol
  import opened SkillSpec
  import opened Templates
  import opened Wrappers

  // ---------------------------------------------------------------- vocabulary

  function Min(a: nat, b: nat): nat { if a < b then a else b }

  /** The cell without its lease, which no property below depends on. */
  function Core(c: Cell): Cell {
    c.(ex := CoreRecord(c.ex))
  }

  function CoreRecord(ex: Execution): Execution {
    ex.(lease := Lease("", None))
  }

  /** The bindings an execution has before step k, according to its ledger. */
  function BindingsBefore(p: Program, req: Request, rows: Rows, k: nat): Bindings
    requires k <= |p.spec.steps|
  {
    RebuildBindings(p.spec, rows, InputBindings(req.inputs), k)
  }

  function BindingsAtCursor(p: Program, c: Cell): Bindings {
    BindingsBefore(p, c.ex.req, c.rows, Min(c.ex.cursor, |p.spec.steps|))
  }

  /** The attempt's tool call is known to have failed. */
  predicate KnownFailed(h: History, row: StepExecution) {
    row.id in h.replies && h.replies[row.id].ToolFailed?
  }

  /** Why a further attempt after this row was allowed. */
  predicate MayRetryAfter(p: Program, h: History, row: StepExecution) {
    && (row.status.StepFailed? || row.status.StepUnknownOutcome? || row.status.StepRunning?)
    && (|| KnownFailed(h, row)
        || (row.status.StepFailed? && row.id !in h.starter)
        || ToolCapability(p, row.tool).Native?
        || (ToolCapability(p, row.tool).QueryReconcile? && (row.id, NotApplied) in h.recons))
  }

  predicate SettledRow(st: SkillStep, row: StepExecution) {
    || DoneStatus(row.status)
    || row.status.StepSkipped?
    || (row.status.StepFailed? && st.onError.ContinueStep?)
  }

  predicate Settled(st: SkillStep, rows: Rows) {
    var last := LastRow(rows, st.id);
    last.Some? && SettledRow(st, last.value)
  }

  predicate OutcomeFact(p: Program, h: History, row: StepExecution) {
    match row.status
    case StepPending => row.id !in h.starter
    case StepRunning => row.id in h.starter
    case StepUnknownOutcome => row.id in h.starter
    case StepFailed => row.id in h.starter && KnownFailed(h, row)
    case _ =>
      && row.id in h.starter
      && (|| (row.id in h.replies && h.replies[row.id] == ToolOk(row.output))
          || (ToolCapability(p, row.tool).QueryReconcile? && (row.id, Applied(row.output)) in h.recons))
  }

  /** A row agrees with the bindings b its step sees and with the answers it got. */
  predicate RowFact(p: Program, h: History, req: Request, b: Bindings, st: SkillStep, row: StepExecution) {
    && row.attempt >= 1
    && row.tool == st.tool
    && if row.status.StepSkipped? then !GuardHolds(p, st, b) && row.id !in h.starter
       else
         && GuardHolds(p, st, b)
         && row.opKey == OperationKey(req.id, st.id)
         && match ResolveArgs(p.render, st.args, b)
            case None => row.status.StepFailed? && row.id !in h.starter
            case Some(input) => row.input == input && OutcomeFact(p, h, row)
  }

  // ---------------------------------------------------------------- the store

  ghost predicate RowOrder(rows: Rows, nextId: nat, epoch: nat) {
    && (forall j | 0 <= j < |rows| :: rows[j].id < nextId && rows[j].epoch <= epoch)
    && (forall i, j | 0 <= i < j < |rows| :: rows[i].id < rows[j].id)
  }

  /** Attempts of a step are numbered upwards, and each but the last was allowed to be superseded. */
  ghost predicate AttemptOrder(p: Program, h: History, rows: Rows) {
    forall i, j | 0 <= i < j < |rows| && rows[i].stepId == rows[j].stepId ::
      rows[i].attempt < rows[j].attempt && MayRetryAfter(p, h, rows[i])
  }

  ghost predicate RowFacts(p: Program, h: History, req: Request, cursor: nat, rows: Rows) {
    forall k, j | 0 <= k < |p.spec.steps| && 0 <= j < |rows| && rows[j].stepId == p.spec.steps[k].id ::
      && k <= cursor
      && k < StepLimit(p.spec)
      && RowFact(p, h, req, BindingsBefore(p, req, rows, k), p.spec.steps[k], rows[j])
  }

  ghost predicate SettledBelow(p: Program, cursor: nat, rows: Rows) {
    forall k | 0 <= k < cursor && k < |p.spec.steps| :: Settled(p.spec.steps[k], rows)
  }

  /** The last row of the step at the cursor. */
  function CursorRow(p: Program, cursor: nat, rows: Rows): Option<StepExecution> {
    if cursor < |p.spec.steps| then LastRow(rows, p.spec.steps[cursor].id) else None
  }

  predicate HasStarted(c: Cell) { c.rows != [] || c.ex.cursor > 0 }

  predicate InputsAccepted(p: Program, req: Request) {
    PreconditionsHold(p, InputBindings(req.inputs))
  }

  /** What each status says about the ledger. */
  predicate StatusFact(p: Program, c: Cell) {
    match c.ex.status
    case ExecPending => !HasStarted(c) && c.ex.outputs == None
    case ExecRunning => c.ex.outputs == None
    case ExecSucceeded =>
      && InputsAccepted(p, c.ex.req)
      && c.ex.cursor >= StepLimit(p.spec)
      && c.ex.outputs == ExtractOutputs(p.spec, BindingsBefore(p, c.ex.req, c.rows, StepLimit(p.spec)))
    case ExecFailed =>
      || !InputsAccepted(p, c.ex.req)
      || (var last := CursorRow(p, c.ex.cursor, c.rows); last.Some? && last.value.status.StepFailed?)
    case ExecNeedsReconciliation =>
      var last := CursorRow(p, c.ex.cursor, c.rows); last.Some? && last.value.status.StepUnknownOutcome?
    case _ => false
  }

  predicate CursorFact(p: Program, c: Cell) {
    && (HasStarted(c) ==> InputsAccepted(p, c.ex.req))
    && (c.ex.cursor <= StepLimit(p.spec) || StepLimit(p.spec) == |p.spec.steps|)
  }

  ghost predicate StoreInv(p: Program, c: Cell, nextId: nat, h: History) {
    && RowOrder(c.rows, nextId, c.ex.epoch)
    && AttemptOrder(p, h, c.rows)
    && RowFacts(p, h, c.ex.req, c.ex.cursor, c.rows)
    && SettledBelow(p, c.ex.cursor, c.rows)
    && CursorFact(p, c)
    && StatusFact(p, c)
  }

  // ---------------------------------------------------------------- history and workers

  ghost predicate Called(h: History, rowId: nat) {
    exists i :: 0 <= i < |h.calls| && h.calls[i].rowId == rowId
  }

  /** A call carries what the ledger says of its row. */
  ghost predicate SameCall(rows: Rows, call: Call) {
    forall j | 0 <= j < |rows| && rows[j].id == call.rowId ::
      rows[j].tool == call.tool && rows[j].input == call.input && rows[j].opKey == call.opKey
  }

  ghost predicate StartsInv(h: History, nextId: nat) {
    && (forall id | id in h.starter :: id < nextId && id in h.starts)
    && (forall i | 0 <= i < |h.starts| :: h.starts[i] in h.starter)
    && (forall i, j | 0 <= i < j < |h.starts| :: h.starts[i] != h.starts[j])
  }

  ghost predicate CallsInv(h: History, rows: Rows) {
    && (forall i | 0 <= i < |h.calls| :: h.calls[i].rowId in h.starter && SameCall(rows, h.calls[i]))
    && (forall i, j | 0 <= i < j < |h.calls| :: h.calls[i].rowId != h.calls[j].rowId)
    && (forall id | id in h.replies :: Called(h, id))
  }

  predicate InFlight(l: Worker) {
    l.pc.Invoke? || l.pc.Await?
  }

  /** What holds of worker w even if it lost its lease long ago. */
  ghost predicate WorkerInv(h: History, rows: Rows, w: nat, l: Worker) {
    && l.claimed == w + 1
    && (!l.pc.ReadExecution? ==> l.ex.epoch == w + 1)
    && (InFlight(l) ==> FlightInv(h, rows, w, l))
  }

  ghost predicate FlightInv(h: History, rows: Rows, w: nat, l: Worker)
    requires InFlight(l)
  {
    var row := l.pc.row;
    && row.id in h.starter
    && h.starter[row.id] == w
    && row.id !in h.replies
    && (l.pc.Invoke? <==> !Called(h, row.id))
    && SameCall(rows, Call(row.id, row.tool, row.input, row.opKey))
  }

  ghost predicate WorkersInv(h: History, rows: Rows, workers: seq<Worker>) {
    forall w | 0 <= w < |workers| :: WorkerInv(h, rows, w, workers[w])
  }

  ghost predicate HistoryInv(s: Sys) {
    && StartsInv(s.h, s.nextId)
    && CallsInv(s.h, s.cell.rows)
    && WorkersInv(s.h, s.cell.rows, s.workers)
    && s.cell.ex.epoch == |s.workers|
    && |s.workers| > 0
  }

  // ---------------------------------------------------------------- the current lease holder

  predicate NextAttemptOk(p: Program, c: Cell, h: History, attempt: nat) {
    c.ex.cursor < |p.spec.steps| ==>
      var last := LastRow(c.rows, p.spec.steps[c.ex.cursor].id);
      if last.None? then attempt == 1
      else attempt == last.value.attempt + 1 && MayRetryAfter(p, h, last.value)
  }

  predicate RunFrom(p: Program, c: Cell, h: History, attempt: nat) {
    NextAttemptOk(p, c, h, if attempt > 0 then attempt else 1)
  }

  /** The row is the last one of the step at the cursor. */
  predicate IsCursorRow(p: Program, c: Cell, row: StepExecution) {
    && c.ex.cursor < StepLimit(p.spec)
    && CursorRow(p, c.ex.cursor, c.rows) == Some(row)
  }

  /** `row` is the cursor row with a new status, output and error code. */
  predicate RewritesCursorRow(p: Program, c: Cell, row: StepExecution, was: StepStatus) {
    && c.ex.cursor < StepLimit(p.spec)
    && var last := CursorRow(p, c.ex.cursor, c.rows);
       && last.Some?
       && last.value.status == was
       && row == last.value.(status := row.status, output := row.output, errorCode := row.errorCode)
  }

  /** The worker is inside the step loop at the cursor. */
  predicate InLoop(p: Program, c: Cell, l: Worker) {
    && c.ex.status.ExecRunning?
    && c.ex.cursor < StepLimit(p.spec)
    && l.bindings == BindingsAtCursor(p, c)
    && InputsAccepted(p, c.ex.req)
  }

  /** A row for the next attempt of the step at the cursor, with what the attempt needs. */
  predicate FreshRow(p: Program, c: Cell, h: History, l: Worker, row: StepExecution)
    requires c.ex.cursor < |p.spec.steps|
  {
    var st := p.spec.steps[c.ex.cursor];
    && row.stepId == st.id
    && row.tool == st.tool
    && row.opKey == OperationKey(c.ex.req.id, st.id)
    && row.attempt >= 1
    && GuardHolds(p, st, l.bindings)
    && NextAttemptOk(p, c, h, row.attempt)
  }

  predicate AfterRecordOk(p: Program, c: Cell, l: Worker, row: StepExecution, next: AfterRecord)
    requires c.ex.cursor < |p.spec.steps|
  {
    match next
    case ToAdvance => InLoop(p, c, l) && SettledRow(p.spec.steps[c.ex.cursor], row)
    case ToRetry(attempt) =>
      && InLoop(p, c, l)
      && row.status.StepUnknownOutcome? && ToolCapability(p, row.tool).Native? && attempt == row.attempt + 1
    case ToFinish(status, _) =>
      || (status.ExecFailed? && row.status.StepFailed?)
      || (status.ExecNeedsReconciliation? && row.status.StepUnknownOutcome?)
    case ToRerun(attempt) =>
      row.status.StepUnknownOutcome? && ToolCapability(p, row.tool).Native? && attempt == row.attempt + 1
    case ToNextStep => DoneStatus(row.status)
  }

  /** Recovery, up to the point where it enters runSteps. */
  predicate RecoverInv(p: Program, c: Cell, h: History, l: Worker) {
    && c.ex.status.ExecRunning?
    && match l.pc
       case ReadLedger => p.spec.steps != []
       case Relabel(k, existing) =>
         && p.spec.steps != []
         && existing == c.rows
         && k <= |existing|
         && forall j | 0 <= j < k :: !existing[j].status.StepRunning?
       case AskReconcile(row) =>
         IsCursorRow(p, c, row) && row.status.StepUnknownOutcome? && ToolCapability(p, row.tool).QueryReconcile?
       case ConfirmApplied(row) =>
         && RewritesCursorRow(p, c, row, StepUnknownOutcome)
         && row.status.StepSucceeded?
         && OutcomeFact(p, h, row)
       case Checkpoint(cursor, attempt) =>
         if cursor == c.ex.cursor then RunFrom(p, c, h, attempt)
         else
           && cursor == c.ex.cursor + 1
           && attempt == 0
           && if c.ex.cursor < |p.spec.steps|
              then c.ex.cursor < StepLimit(p.spec) && Settled(p.spec.steps[c.ex.cursor], c.rows)
              else c.ex.cursor > 0
       case PendCheckpoint(row) => IsCursorRow(p, c, row) && row.status.StepPending?
       case _ => false
  }

  /** The step loop, between two attempts. */
  predicate LoopInv(p: Program, c: Cell, h: History, l: Worker) {
    match l.pc
    case Enter(attempt) => RunFrom(p, c, h, attempt)
    case Load(attempt) => c.ex.status.ExecRunning? && RunFrom(p, c, h, attempt)
    case CreateSkip(row) =>
      && InLoop(p, c, l)
      && row.stepId == p.spec.steps[c.ex.cursor].id
      && row.tool == p.spec.steps[c.ex.cursor].tool
      && row.status.StepSkipped?
      && row.attempt == 0
      && !GuardHolds(p, p.spec.steps[c.ex.cursor], l.bindings)
      && CursorRow(p, c.ex.cursor, c.rows).None?
    case CreateBroken(row) =>
      && InLoop(p, c, l)
      && FreshRow(p, c, h, l, row)
      && row.status.StepFailed?
      && ResolveArgs(p.render, p.spec.steps[c.ex.cursor].args, l.bindings).None?
    case CreateAttempt(row) =>
      && InLoop(p, c, l)
      && FreshRow(p, c, h, l, row)
      && row.status.StepPending?
      && ResolveArgs(p.render, p.spec.steps[c.ex.cursor].args, l.bindings) == Some(row.input)
    case Advance =>
      && c.ex.status.ExecRunning?
      && c.ex.cursor < StepLimit(p.spec)
      && Settled(p.spec.steps[c.ex.cursor], c.rows)
      && l.bindings == BindingsBefore(p, c.ex.req, c.rows, c.ex.cursor + 1)
    case Finish(status, code, outputs) =>
      && c.ex.status.ExecRunning?
      && (status.ExecSucceeded? || status.ExecFailed? || status.ExecNeedsReconciliation?)
      && StatusFact(p, c.(ex := c.ex.(status := status,
                                      outputs := if status == ExecSucceeded then outputs else c.ex.outputs)))
    case Done(result) => result.MissingSpec?
    case _ => false
  }

  /** One attempt, from its RUNNING mark to its recorded outcome. */
  predicate AttemptInv(p: Program, c: Cell, h: History, l: Worker) {
    && c.ex.status.ExecRunning?
    && match l.pc
       case Start(row, resumed) =>
         && RewritesCursorRow(p, c, row, StepPending)
         && row.status.StepPending?
         && (!resumed ==> InLoop(p, c, l))
       case Invoke(row, resumed) =>
         IsCursorRow(p, c, row) && row.status.StepRunning? && (!resumed ==> InLoop(p, c, l))
       case Await(row, resumed) =>
         IsCursorRow(p, c, row) && row.status.StepRunning? && (!resumed ==> InLoop(p, c, l))
       case Record(row, next) =>
         && RewritesCursorRow(p, c, row, StepRunning)
         && (row.status.StepUnknownOutcome? || row.status.StepFailed? || DoneStatus(row.status))
         && OutcomeFact(p, h, row)
         && AfterRecordOk(p, c, l, row, next)
       case _ => false
  }

  predicate Recovering(pc: Pc) {
    || pc.ReadLedger? || pc.Relabel? || pc.AskReconcile? || pc.ConfirmApplied?
    || pc.Checkpoint? || pc.PendCheckpoint?
  }

  predicate Attempting(pc: Pc) {
    pc.Start? || pc.Invoke? || pc.Await? || pc.Record?
  }

  /** What holds of the worker whose epoch is the current one while the execution is open;
      c is the core of the cell. */
  predicate HolderInv(p: Program, c: Cell, h: History, l: Worker) {
    if l.pc.ReadExecution? then c.ex.status.ExecRunning?
    else
      && CoreRecord(l.ex) == c.ex
      && if Recovering(l.pc) then RecoverInv(p, c, h, l)
         else if Attempting(l.pc) then AttemptInv(p, c, h, l)
         else LoopInv(p, c, h, l)
  }

  function Holder(s: Sys): Worker
    requires |s.workers| > 0
  {
    s.workers[|s.workers| - 1]
  }

  ghost predicate Inv(p: Program, s: Sys) {
    && StoreInv(p, Core(s.cell), s.nextId, s.h)
    && HistoryInv(s)
    && (Open(s.cell.ex.status) ==> HolderInv(p, Core(s.cell), s.h, Holder(s)))
  }

  /** The read of Recover returned the epoch its own claim had returned. */
  predicate ReadsOwnEpoch(s: Sys, a: Action) {
    (a.Work? && a.w < |s.workers| && s.workers[a.w].pc.ReadExecution?) ==>
      s.cell.ex.epoch == s.workers[a.w].claimed
  }
}
