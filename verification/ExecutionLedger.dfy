/** One execution with its step ledger, and the atomic operations the durable store
    performs on them (internal/skill/execution_types.go, internal/skillruntime/memory_store.go).

    Every store operation locks the whole store, so on one execution it is a function of
    that execution's record and rows: its Cell. */
module ExecutionLedger {
  import opened Templates
  import opened Wrappers

  datatype Mode = Shadow | Live

  datatype ExecStatus =
    | ExecPending
    | ExecRunning
    | ExecSucceeded
    | ExecFailed
    | ExecCancelled
    | ExecWaitingApproval
    | ExecDenied
    | ExecNeedsReconciliation

  datatype StepStatus =
    | StepPending
    | StepRunning
    | StepSucceeded
    | StepFailed
    | StepSkipped
    | StepShadowed
    | StepUnknownOutcome

  /** What is fixed when an execution is created. */
  datatype Request = Request(
    tenant: string,
    id: string,
    skillId: string,
    versionId: string,
    mode: Mode,
    idempotencyKey: string,
    inputs: Bindings,
    requester: string)

  /** Who runs the execution, and until when. */
  datatype Lease = Lease(owner: string, until: Option<int>)

  datatype Execution = Execution(
    req: Request,
    status: ExecStatus,
    outputs: Option<Bindings>,
    errorCode: string,
    cursor: nat,
    lease: Lease,
    epoch: nat)

  /** One attempt of one step. */
  datatype StepExecution = StepExecution(
    id: nat,
    stepId: string,
    tool: string,
    input: Bindings,
    output: Bindings,
    status: StepStatus,
    errorCode: string,
    sequence: nat,
    attempt: nat,
    opKey: string,
    epoch: nat)

  type Rows = seq<StepExecution>

  datatype Cell = Cell(ex: Execution, rows: Rows)

  datatype StepWrite = Written(cell: Cell, row: StepExecution) | Fenced | Missing

  /** Neither claims nor fenced writes are accepted outside these two. */
  predicate Open(status: ExecStatus) {
    status == ExecRunning || status == ExecPending
  }

  /** A step that succeeded, live or as a dry run. */
  predicate DoneStatus(status: StepStatus) {
    status == StepSucceeded || status == StepShadowed
  }

  function OperationKey(executionId: string, stepId: string): string {
    executionId + ":" + stepId
  }

  /** Index of the first row with this id, or -1. */
  function FindRow(rows: Rows, id: nat): (r: int)
    ensures -1 <= r < |rows|
    ensures r >= 0 ==> rows[r].id == id && forall k | 0 <= k < r :: rows[k].id != id
    ensures r == -1 ==> forall k | 0 <= k < |rows| :: rows[k].id != id
  {
    if rows == [] then -1
    else
      var r := FindRow(rows[..|rows| - 1], id);
      if r >= 0 then r else if rows[|rows| - 1].id == id then |rows| - 1 else -1
  }

  function ClaimExecutionLease(c: Cell, owner: string, until: int, now: int): Option<Cell> {
    if c.ex.status != ExecRunning then None
    else if c.ex.lease.until.Some? && c.ex.lease.until.value > now && c.ex.lease.owner != owner then None
    else Some(c.(ex := c.ex.(lease := Lease(owner, Some(until)), epoch := c.ex.epoch + 1)))
  }

  function RenewLease(c: Cell, owner: string, expectedEpoch: nat, until: int): Option<Cell> {
    if c.ex.epoch != expectedEpoch then None
    else if owner != "" && c.ex.lease.owner != "" && c.ex.lease.owner != owner then None
    else Some(c.(ex := c.ex.(lease := Lease(if owner != "" then owner else c.ex.lease.owner, Some(until)))))
  }

  function UpdateExecutionFenced(c: Cell, ex: Execution, expectedEpoch: nat): Option<Cell> {
    if c.ex.epoch != expectedEpoch || !Open(c.ex.status) then None
    else Some(c.(ex := ex.(epoch := expectedEpoch)))
  }

  function CreateStepFenced(c: Cell, st: StepExecution, expectedEpoch: nat): StepWrite {
    if c.ex.epoch != expectedEpoch || c.ex.status != ExecRunning then Fenced
    else
      var st' := st.(epoch := expectedEpoch, attempt := if st.attempt == 0 then 1 else st.attempt);
      Written(c.(rows := c.rows + [st']), st')
  }

  function UpdateStepFenced(c: Cell, st: StepExecution, expectedEpoch: nat): StepWrite {
    if c.ex.epoch != expectedEpoch || c.ex.status != ExecRunning then Fenced
    else
      var i := FindRow(c.rows, st.id);
      if i < 0 then Missing
      else
        var st' := st.(epoch := expectedEpoch);
        Written(c.(rows := c.rows[i := st']), st')
  }
}
