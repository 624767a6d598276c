/** The runtime itself (internal/skillruntime/runtime.go), method by method over the in-memory
    store, each tied to the protocol: the ghost fields record the protocol state of the execution
    in progress and the actions that led to it, and every store or tool access of a method is one
    action of its worker. What is proved of histories therefore holds of these methods. */
module SkillRuntime {
  import opened CrashTransparency
  import opened ExecutionLedger
  import opened ExecutionPolicy
  import opened Governance
  import opened LedgerLemmas
  import opened MemoryStore
  import opened ProtocolInvariant
  import opened ProtocolPreservation
  import opened ProtocolTheorems
  import opened RecoveryPlanner
  import opened RecoveryVerdicts
  import opened RuntimeProtocol
  import opened SavedResults
  import opened SkillSpec
  import opened SoloRuns
  import opened Templates
  import opened TruthfulRuns
  import opened Wrappers

  datatype RunError = StaleLease | StoreFailure | MissingSpecError

  /** After one attempt: try the next one, a definite answer, or the run is over. */
  datatype Verdict = Again | Answered | Stopped

  /** The tools: `answer` is what the n-th real call returns, `preview` what a dry run returns,
      `provider` what a reconcile query returns. */
  class ToolExecutor {
    const answer: (nat, string, Bindings, string) -> Outcome
    const preview: (string, Bindings) -> Outcome
    const provider: (string, Bindings, string) -> Recon
    var calls: seq<Call>
    var effects: seq<Call>

    constructor (answer: (nat, string, Bindings, string) -> Outcome, preview: (string, Bindings) -> Outcome,
                 provider: (string, Bindings, string) -> Recon)
      ensures calls == [] && effects == []
    {
      this.answer, this.preview, this.provider := answer, preview, provider;
      calls, effects := [], [];
    }

    /** Side-effecting tools are only previewed in SHADOW mode; `effects` are the real calls. */
    method Invoke(call: Call, dryRun: bool) returns (outcome: Outcome)
      modifies this
      ensures calls == old(calls) + [call]
      ensures effects == if dryRun then old(effects) else old(effects) + [call]
      ensures outcome == if dryRun then preview(call.tool, call.input)
                         else answer(|old(effects)|, call.tool, call.input, call.opKey)
    {
      calls := calls + [call];
      if dryRun {
        outcome := preview(call.tool, call.input);
      } else {
        outcome := answer(|effects|, call.tool, call.input, call.opKey);
        effects := effects + [call];
      }
    }

    method Reconcile(tool: string, input: Bindings, opKey: string) returns (answer: Recon)
      ensures answer == provider(tool, input, opKey)
    {
      answer := provider(tool, input, opKey);
    }

    /** The tools answer by operation, not by how often they were called. */
    ghost predicate Deterministic() {
      forall n, t, i, key :: answer(n, t, i, key) == answer(0, t, i, key)
    }
  }

  /** Upper bound of the calls of the steps from i on. */
  function CallBudget(spec: Spec, i: nat): nat
    decreases StepLimit(spec) - i
  {
    if i >= StepLimit(spec) then 0 else MaxAttempts(spec.steps[i]) + CallBudget(spec, i + 1)
  }

  datatype RunRequest = RunRequest(
    tenant: string,
    skillId: string,
    versionId: string,
    spec: Spec,
    mode: Mode,
    inputs: Bindings,
    idempotencyKey: string,
    requester: string,
    runtimeEnabled: bool,
    availableTools: seq<string>)

  class Runtime {
    const store: MemoryExecutionStore
    const exec: ToolExecutor
    const tools: map<string, ToolDef>
    const render: Render
    const ttl: nat
    const leaseOwner: string
    const now: int
    const policy: PolicyRequest -> Decision

    ghost var start: Sys
    ghost var history: seq<Action>
    ghost var sys: Sys
    ghost var me: nat
    ghost var worker: Worker
    ghost var before: seq<Call>
    ghost var direct: map<Key, Admission>
    ghost var cleared: map<Key, Admission>

    constructor (store: MemoryExecutionStore, exec: ToolExecutor, tools: map<string, ToolDef>, render: Render,
                 ttl: nat, leaseOwner: string, now: int, policy: PolicyRequest -> Decision)
      requires store.executions == map[] && store.byIdem == map[] && store.steps == map[] && store.approvals == map[]
      ensures this.store == store && this.exec == exec && this.tools == tools && this.policy == policy
      ensures Governed()
    {
      this.store, this.exec, this.tools, this.render := store, exec, tools, render;
      this.ttl, this.leaseOwner, this.now, this.policy := ttl, leaseOwner, now, policy;
      direct, cleared := map[], map[];
    }

    function ProgramFor(spec: Spec): Program {
      Program(spec, tools, render, ttl)
    }

    // -------------------------------------------------------------- the recorded protocol run

    /** The store holds what the recorded run says, and the calls made are those it says; the run
        consists of this worker's accesses only. */
    ghost predicate Follows(p: Program, k: Key)
      reads this, store, exec
    {
      && p == ProgramFor(p.spec)
      && k in store.executions
      && store.CellOf(k) == sys.cell
      && KeyOf(sys.cell.ex) == k
      && sys.nextId == |sys.cell.rows|
      && Exec(p, start, history) == sys
      && ByWorker(history, me)
      && exec.calls == before + sys.h.calls
      && me < |sys.workers|
      && worker == sys.workers[me]
      && worker.owner == leaseOwner
      && worker.ex.req == sys.cell.ex.req == start.cell.ex.req
      && Truthful(p)
    }

    /** The tools answer by operation, and a provider that confirms one reports its answer. */
    ghost predicate Operational(p: Program, mode: Mode) {
      && exec.Deterministic()
      && forall tool, input, opKey, output :: exec.provider(tool, input, opKey) == Applied(output) ==>
           Answers(p, mode)(tool, input, opKey) == ToolOk(output)
    }

    /** If so, every answer in the recorded run is theirs. */
    ghost predicate Truthful(p: Program)
      reads this`start, this`history
    {
      var mode := start.cell.ex.req.mode;
      Operational(p, mode) ==> TrueHistory(p, start, history, Answers(p, mode))
    }

    /** What the worker hears next is theirs. */
    ghost predicate TrueToTools(p: Program, pc: Pc, reply: Reply)
      reads this`start
    {
      var mode := start.cell.ex.req.mode;
      Operational(p, mode) ==> TrueReply(Answers(p, mode), pc, reply)
    }

    lemma SilenceIsTrue(p: Program, pc: Pc)
      ensures TrueToTools(p, pc, NoReply)
    {
    }

    /** The worker returned: it finished and closed the execution, or it lost its lease. */
    ghost predicate Ends(p: Program, k: Key, ex: Execution, err: Option<RunError>)
      reads this, store, exec
    {
      && Follows(p, k)
      && worker.pc == Done(if err.None? then Finished else Lost)
      && (err.None? ==> ex == store.executions[k] && Concluded(ex.status))
    }

    /** No other execution changed. */
    twostate predicate Only(k: Key)
      reads store
    {
      store.executions - {k} == old(store.executions) - {k} && store.steps - {k} == old(store.steps) - {k}
    }

    lemma StepKeepsWorkers(p: Program, s: Sys, w: nat, now: int, reply: Reply)
      requires w < |s.workers|
      ensures |WorkStep(p, s, w, now, reply).workers| == |s.workers|
    {
    }

    ghost method Act(p: Program, reply: Reply)
      requires me < |sys.workers| && worker == sys.workers[me] && Exec(p, start, history) == sys
      requires Truthful(p) && TrueToTools(p, worker.pc, reply)
      modifies this`sys, this`history, this`worker
      ensures sys == WorkStep(p, old(sys), me, now, reply)
      ensures history == old(history) + [Work(me, now, reply)]
      ensures Exec(p, start, history) == sys && |sys.workers| == |old(sys).workers| && worker == sys.workers[me]
      ensures Truthful(p)
    {
      hide Exec, WorkStep, TrueHistory, TrueReply, Operational;
      TrueNext(p, start, history, Work(me, now, reply), Answers(p, start.cell.ex.req.mode));
      StepKeepsWorkers(p, sys, me, now, reply);
      ExecAppend(p, start, history, Work(me, now, reply));
      sys := WorkStep(p, sys, me, now, reply);
      worker := sys.workers[me];
      history := history + [Work(me, now, reply)];
    }

    ghost method ActCall(p: Program)
      requires me < |sys.workers| && worker == sys.workers[me] && Exec(p, start, history) == sys && worker.pc.Invoke?
      requires Truthful(p)
      modifies this`sys, this`history, this`worker
      ensures var row := old(worker).pc.row;
              sys == old(sys).(h := old(sys).h.(calls := old(sys).h.calls + [Call(row.id, row.tool, row.input, row.opKey)]),
                               workers := old(sys).workers[me := old(worker).(pc := Await(row, old(worker).pc.resumed))])
      ensures history == old(history) + [Work(me, now, NoReply)]
      ensures Exec(p, start, history) == sys && worker == sys.workers[me] && Truthful(p)
    {
      hide Truthful, TrueToTools;
      SilenceIsTrue(p, worker.pc);
      Act(p, NoReply);
    }

    ghost method ActHear(p: Program, outcome: Outcome)
      requires me < |sys.workers| && worker == sys.workers[me] && Exec(p, start, history) == sys && worker.pc.Await?
      requires Truthful(p) && TrueToTools(p, worker.pc, ToolReply(outcome))
      modifies this`sys, this`history, this`worker
      ensures var row := old(worker).pc.row;
              sys == old(sys).(h := old(sys).h.(replies := old(sys).h.replies[row.id := outcome]),
                               workers := old(sys).workers[me := AfterReply(p, old(worker), row, outcome)])
      ensures history == old(history) + [Work(me, now, ToolReply(outcome))]
      ensures Exec(p, start, history) == sys && worker == sys.workers[me] && worker.owner == old(worker).owner
      ensures worker.ex.req == old(worker).ex.req && Truthful(p)
    {
      hide Truthful, TrueToTools;
      Act(p, ToolReply(outcome));
    }

    // -------------------------------------------------------------- accesses

    method TouchLease(p: Program, ex0: Execution) returns (ex: Execution)
      ensures ex == RuntimeProtocol.TouchLease(p, leaseOwner, ex0, now)
    {
      ex := ex0.(lease := ex0.lease.(until := Some(now + p.ttl)));
      if leaseOwner != "" {
        ex := ex.(lease := ex.lease.(owner := leaseOwner));
      } else if ex.lease.owner == "" {
        ex := ex.(lease := ex.lease.(owner := "runtime"));
      }
      if ex.epoch == 0 {
        ex := ex.(epoch := 1);
      }
    }

    method PersistExecutionFenced(p: Program, k: Key, ex0: Execution) returns (ok: bool, ex: Execution)
      requires Follows(p, k) && KeyOf(ex0) == k && ex0.epoch == worker.ex.epoch > 0
      requires NextAccess(worker) == PutExecution(ex0)
      modifies this`sys, this`history, this`worker, store`executions
      ensures Follows(p, k) && Only(k)
      ensures ex == RuntimeProtocol.TouchLease(p, leaseOwner, ex0, now)
      ensures ok ==> store.executions[k] == ex && worker == AfterPutExecution(p, old(worker).(ex := ex))
      ensures !ok ==> worker == old(worker).(pc := Done(Lost))
    {
      hide Exec, Truthful, TrueToTools;
      ex := TouchLease(p, ex0);
      var r := store.UpdateExecutionFenced(ex, ex.epoch);
      SilenceIsTrue(p, worker.pc);
      Act(p, NoReply);
      ok := r.Accepted?;
      if ok {
        ex := r.value;
      }
    }

    /** Row ids are fresh names; within one ledger the model numbers them. */
    method FreshId(k: Key) returns (id: nat)
      ensures id == |store.RowsOf(k)|
    {
      var rows := store.ListSteps(k);
      id := |rows|;
    }

    method CreateStepFenced(p: Program, k: Key, row0: StepExecution, epoch: nat) returns (ok: bool, row: StepExecution)
      requires Follows(p, k) && epoch == worker.ex.epoch && NextAccess(worker) == AddRow(row0)
      modifies this`sys, this`history, this`worker, store`steps
      ensures Follows(p, k) && Only(k)
      ensures row == row0.(id := row.id, epoch := epoch, attempt := if row0.attempt == 0 then 1 else row0.attempt)
      ensures ok ==> worker == AfterAddRow(p, old(worker), row)
      ensures !ok ==> worker == old(worker).(pc := Done(Lost))
    {
      hide Exec, Truthful, TrueToTools;
      var id := FreshId(k);
      row := row0.(id := id, epoch := epoch);
      var r := store.CreateStepFenced(k, row, epoch);
      SilenceIsTrue(p, worker.pc);
      Act(p, NoReply);
      ok := r.Accepted?;
      row := if ok then r.value else row.(attempt := if row0.attempt == 0 then 1 else row0.attempt);
    }

    method UpdateStepFenced(p: Program, k: Key, row0: StepExecution, epoch: nat) returns (r: StoreReply<StepExecution>)
      requires Follows(p, k) && epoch == worker.ex.epoch && NextAccess(worker) == PutRow(row0)
      modifies this`sys, this`history, this`worker, store`steps
      ensures Follows(p, k) && Only(k)
      ensures r.Accepted? ==> r.value == row0.(epoch := epoch) && worker == AfterPutRow(p, old(worker), r.value)
      ensures !r.Accepted? ==> worker == old(worker).(pc := Done(Lost))
    {
      hide Exec, Truthful, TrueToTools;
      r := store.UpdateStepFenced(k, row0.(epoch := epoch), epoch);
      SilenceIsTrue(p, worker.pc);
      Act(p, NoReply);
    }

    /** The real calls made since `before`; in SHADOW mode none has side effects. */
    ghost predicate Harmless(p: Program, mode: Mode, before: seq<Call>, after: seq<Call>) {
      && before <= after
      && (mode.Shadow? ==> forall i | |before| <= i < |after| :: !SideEffect(p, after[i].tool))
    }

    lemma NothingDone(p: Program, mode: Mode, a: seq<Call>)
      ensures Harmless(p, mode, a, a)
    {
    }

    lemma HarmlessTwice(p: Program, mode: Mode, a: seq<Call>, b: seq<Call>, c: seq<Call>)
      requires Harmless(p, mode, a, b) && Harmless(p, mode, b, c)
      ensures Harmless(p, mode, a, c)
    {
      forall i | |a| <= i < |c| && mode.Shadow? ensures !SideEffect(p, c[i].tool) {
        assert i < |b| ==> c[i] == b[i];
      }
    }

    method InvokeTool(p: Program, k: Key, row: StepExecution, ghost resumed: bool, shadow: bool) returns (outcome: Outcome)
      requires Follows(p, k) && worker.pc == Invoke(row, resumed) && (shadow <==> worker.ex.req.mode.Shadow?)
      modifies this`sys, this`history, this`worker, exec
      ensures Follows(p, k) && Only(k)
      ensures worker == old(worker).(pc := Await(row, resumed))
      ensures |exec.calls| == |old(exec.calls)| + 1
      ensures Harmless(p, if shadow then Shadow else Live, old(exec.effects), exec.effects)
      ensures shadow && SideEffect(p, row.tool) ==> exec.effects == old(exec.effects)
      ensures outcome == if shadow && SideEffect(p, row.tool) then exec.preview(row.tool, row.input)
                         else exec.answer(|old(exec.effects)|, row.tool, row.input, row.opKey)
      ensures TrueToTools(p, worker.pc, ToolReply(outcome))
    {
      hide Exec, Truthful, TrueToTools;
      var dryRun := false;
      if row.tool in p.tools {
        dryRun := shadow && p.tools[row.tool].sideEffect;
      }
      ActCall(p);
      outcome := exec.Invoke(Call(row.id, row.tool, row.input, row.opKey), dryRun);
      AnswerIsTrue(p, worker.pc, |old(exec.effects)|, outcome);
    }

    lemma AnswerIsTrue(p: Program, pc: Pc, n: nat, outcome: Outcome)
      requires pc.Await?
      requires outcome == if start.cell.ex.req.mode.Shadow? && SideEffect(p, pc.row.tool) then exec.preview(pc.row.tool, pc.row.input)
                          else exec.answer(n, pc.row.tool, pc.row.input, pc.row.opKey)
      ensures TrueToTools(p, pc, ToolReply(outcome))
    {
    }

    lemma ReportIsTrue(p: Program, pc: Pc, answer: Recon)
      requires pc.AskReconcile? && answer == exec.provider(pc.row.tool, pc.row.input, pc.row.opKey)
      ensures TrueToTools(p, pc, ReconReply(answer))
    {
    }

    /** The worker goes on with the tool's answer. */
    ghost method Hear(p: Program, k: Key, outcome: Outcome)
      requires Follows(p, k) && worker.pc.Await? && TrueToTools(p, worker.pc, ToolReply(outcome))
      modifies this`sys, this`history, this`worker
      ensures Follows(p, k) && Only(k)
      ensures worker == AfterReply(p, old(worker), old(worker).pc.row, outcome)
    {
      hide Exec, Truthful, TrueToTools;
      ActHear(p, outcome);
    }

    // -------------------------------------------------------------- ends of a run

    /** What the tools answer to an operation in this mode. */
    function Answers(p: Program, mode: Mode): Tools {
      (tool, input, opKey) =>
        if mode.Shadow? && SideEffect(p, tool) then exec.preview(tool, input) else exec.answer(0, tool, input, opKey)
    }

    method FailExecution(p: Program, k: Key, ex0: Execution, code: string) returns (ex: Execution, err: Option<RunError>)
      requires Follows(p, k) && worker.pc == Finish(ExecFailed, code, None) && worker.ex == ex0
      requires KeyOf(ex0) == k && ex0.epoch > 0
      modifies this`sys, this`history, this`worker, store`executions
      ensures Ends(p, k, ex, err) && Only(k) && (err.None? ==> ex.status == ExecFailed)
    {
      hide Follows;
      var ok;
      ok, ex := PersistExecutionFenced(p, k, ex0.(status := ExecFailed, errorCode := code));
      err := if ok then None else Some(StaleLease);
    }

    method NeedsReconciliation(p: Program, k: Key, ex0: Execution, code: string)
      returns (ex: Execution, err: Option<RunError>)
      requires Follows(p, k) && worker.pc == Finish(ExecNeedsReconciliation, code, None) && worker.ex == ex0
      requires KeyOf(ex0) == k && ex0.epoch > 0
      modifies this`sys, this`history, this`worker, store`executions
      ensures Ends(p, k, ex, err) && Only(k) && (err.None? ==> ex.status == ExecNeedsReconciliation)
    {
      hide Follows;
      var ok;
      ok, ex := PersistExecutionFenced(p, k, ex0.(status := ExecNeedsReconciliation, errorCode := code));
      err := if ok then None else Some(StaleLease);
    }

    // -------------------------------------------------------------- one step

    /** The worker is about to create this row for the next attempt of the step at the cursor. */
    ghost predicate AboutToAttempt(p: Program, k: Key, ex: Execution, st: SkillStep, row: StepExecution)
      reads this, store, exec
    {
      && Follows(p, k)
      && KeyOf(ex) == k && ex.epoch > 0
      && ex.cursor < |p.spec.steps| && st == p.spec.steps[ex.cursor]
      && worker.ex == ex
      && worker.pc == CreateAttempt(row)
      && row.tool == st.tool && row.stepId == st.id && row.status == StepPending
      && row.attempt >= 1
    }

    /** The row of an attempt: the planned one, with an id, under the current epoch. */
    predicate AttemptOf(row: StepExecution, row0: StepExecution, status: StepStatus) {
      row == row0.(id := row.id, epoch := row.epoch, status := status)
    }

    /** PENDING, then RUNNING. */
    method Begin(p: Program, k: Key, ex: Execution, st: SkillStep, row0: StepExecution)
      returns (ok: bool, row: StepExecution, err: Option<RunError>)
      requires AboutToAttempt(p, k, ex, st, row0)
      modifies this`sys, this`history, this`worker, store`steps
      ensures Follows(p, k) && Only(k)
      ensures ok ==> AttemptOf(row, row0, StepRunning) && worker == old(worker).(pc := Invoke(row, false))
      ensures !ok ==> err.Some? && Ends(p, k, ex, err)
    {
      hide Follows;
      ok, row := CreateStepFenced(p, k, row0, ex.epoch);
      if !ok {
        return false, row, Some(StaleLease);
      }
      var started := UpdateStepFenced(p, k, row.(status := StepRunning), ex.epoch);
      if !started.Accepted? {
        return false, row, Some(if started.NotFound? then StoreFailure else StaleLease);
      }
      return true, started.value, None;
    }

    lemma AfterReplyIs(p: Program, l: Worker, st: SkillStep, row: StepExecution, outcome: Outcome)
      requires l.ex.cursor < |p.spec.steps| && st == p.spec.steps[l.ex.cursor]
      ensures AfterReply(p, l.(pc := Await(row, false)), row, outcome) == l.(pc := AfterCall(p, l.ex, l.endAttempt, st, row, outcome))
    {
    }

    /** One attempt, up to the tool's answer. */
    method TryOnce(p: Program, k: Key, ex: Execution, st: SkillStep, row0: StepExecution)
      returns (ok: bool, row: StepExecution, outcome: Outcome, err: Option<RunError>)
      requires AboutToAttempt(p, k, ex, st, row0)
      modifies this`sys, this`history, this`worker, store`steps, exec
      ensures Follows(p, k) && Only(k)
      ensures |exec.calls| <= |old(exec.calls)| + 1
      ensures Harmless(p, ex.req.mode, old(exec.effects), exec.effects)
      ensures ok ==> AttemptOf(row, row0, StepRunning)
      ensures ok ==> worker == old(worker).(pc := AfterCall(p, ex, old(worker).endAttempt, st, row, outcome))
      ensures ok && exec.Deterministic() ==> outcome == Answers(p, ex.req.mode)(st.tool, row0.input, row0.opKey)
      ensures !ok ==> err.Some? && Ends(p, k, ex, err)
    {
      hide Follows, Harmless;
      outcome := Ambiguous;
      NothingDone(p, ex.req.mode, exec.effects);
      ok, row, err := Begin(p, k, ex, st, row0);
      if ok {
        outcome := InvokeTool(p, k, row, false, ex.req.mode.Shadow?);
        Hear(p, k, outcome);
        AfterReplyIs(p, old(worker), st, row, outcome);
      }
    }

    function Unknown(row: StepExecution): StepExecution {
      row.(status := StepUnknownOutcome, errorCode := "UNKNOWN_OUTCOME",
           output := map["error" := Str("ambiguous remote outcome")])
    }

    /** An ambiguous answer is recorded; only a NATIVE tool may be tried again. */
    method AfterAmbiguous(p: Program, k: Key, ex0: Execution, st: SkillStep, row0: StepExecution, again: bool)
      returns (row: StepExecution, ex: Execution, err: Option<RunError>)
      requires Follows(p, k) && KeyOf(ex0) == k && ex0.epoch > 0 && worker.ex == ex0
      requires worker.pc == Record(Unknown(row0), if again then ToRetry(row0.attempt + 1)
                                                else ToFinish(ExecNeedsReconciliation, "UNKNOWN_OUTCOME"))
      modifies this`sys, this`history, this`worker, store`executions, store`steps
      ensures Follows(p, k) && Only(k)
      ensures !again || err.Some? ==> Ends(p, k, ex, err) && (err.None? ==> ex.status == ExecNeedsReconciliation)
      ensures again && err.None? ==>
                && row == row0.(attempt := row0.attempt + 1, status := StepPending, errorCode := "", output := map[],
                                epoch := ex0.epoch)
                && worker == old(worker).(pc := CreateAttempt(row))
    {
      hide Follows;
      row, ex := row0, ex0;
      var r := UpdateStepFenced(p, k, Unknown(row0), ex0.epoch);
      if !r.Accepted? {
        return row, ex, Some(StaleLease);
      }
      if !again {
        ex, err := NeedsReconciliation(p, k, ex0, "UNKNOWN_OUTCOME");
        return;
      }
      row := row0.(attempt := row0.attempt + 1, status := StepPending, errorCode := "", output := map[], epoch := ex0.epoch);
      err := None;
    }

    /** One attempt and what follows from its answer: `Again` with the next row, `Answered`, or `Stopped`. */
    method Round(p: Program, k: Key, ex0: Execution, st: SkillStep, row0: StepExecution, endAttempt: nat)
      returns (verdict: Verdict, row: StepExecution, outcome: Outcome, ex: Execution, err: Option<RunError>)
      requires AboutToAttempt(p, k, ex0, st, row0) && row0.attempt <= endAttempt == worker.endAttempt
      modifies this`sys, this`history, this`worker, store`executions, store`steps, exec
      ensures Follows(p, k) && Only(k)
      ensures |exec.calls| <= |old(exec.calls)| + 1
      ensures Harmless(p, ex0.req.mode, old(exec.effects), exec.effects)
      ensures verdict.Again? ==>
                && row0.attempt < endAttempt && AboutToAttempt(p, k, ex0, st, row)
                && row.attempt == row0.attempt + 1 && row.input == row0.input && row.opKey == row0.opKey
                && worker == old(worker).(pc := CreateAttempt(row))
      ensures verdict.Answered? ==>
                && !outcome.Ambiguous? && row.tool == st.tool && row.stepId == st.id
                && worker == old(worker).(pc := AfterCall(p, ex0, endAttempt, st, row, outcome)) && worker.pc.Record?
      ensures verdict.Stopped? ==> Ends(p, k, ex, err) && (err.None? ==> ex.status == ExecNeedsReconciliation)
      ensures exec.Deterministic() ==>
                var answer := Answers(p, ex0.req.mode)(st.tool, row0.input, row0.opKey);
                (verdict.Answered? ==> answer == outcome) && (verdict.Stopped? && err.None? ==> answer.Ambiguous?)
    {
      hide Follows, Harmless;
      var ok;
      ok, row, outcome, err := TryOnce(p, k, ex0, st, row0);
      if !ok {
        return Stopped, row, outcome, ex0, err;
      }
      if outcome.Ambiguous? {
        var again := ToolCapability(p, st.tool).Native? && row0.attempt + 1 <= endAttempt;
        row, ex, err := AfterAmbiguous(p, k, ex0, st, row, again);
        return if again && err.None? then Again else Stopped, row, outcome, ex, err;
      }
      if outcome.ToolFailed? && row0.attempt + 1 <= endAttempt && (st.onError.RetryStep? || st.retry.Some?) {
        row := row.(attempt := row0.attempt + 1, status := StepPending, errorCode := "", output := map[], epoch := ex0.epoch);
        return Again, row, outcome, ex0, None;
      }
      return Answered, row, outcome, ex0, None;
    }

    /** The attempts of one step, up to a definite answer. */
    method Attempts(p: Program, k: Key, ex0: Execution, st: SkillStep, row0: StepExecution, endAttempt: nat)
      returns (answered: bool, row: StepExecution, outcome: Outcome, ex: Execution, err: Option<RunError>)
      requires AboutToAttempt(p, k, ex0, st, row0) && row0.attempt <= endAttempt == worker.endAttempt
      modifies this`sys, this`history, this`worker, store`executions, store`steps, exec
      ensures Follows(p, k) && Only(k)
      ensures !answered ==> Ends(p, k, ex, err) && (err.None? ==> ex.status == ExecNeedsReconciliation)
      ensures answered ==>
                && !outcome.Ambiguous? && row.tool == st.tool && row.stepId == st.id
                && worker == old(worker).(pc := AfterCall(p, ex0, endAttempt, st, row, outcome)) && worker.pc.Record?
      ensures |exec.calls| <= |old(exec.calls)| + (endAttempt + 1 - row0.attempt)
      ensures Harmless(p, ex0.req.mode, old(exec.effects), exec.effects)
      ensures exec.Deterministic() ==>
                var answer := Answers(p, ex0.req.mode)(st.tool, row0.input, row0.opKey);
                if answered then answer == outcome else err.None? ==> answer.Ambiguous?
    {
      hide Follows, AfterCall, Harmless;
      NothingDone(p, ex0.req.mode, exec.effects);
      var verdict := Again;
      row, outcome, ex, err := row0, Ambiguous, ex0, None;
      while verdict.Again?
        invariant Follows(p, k) && Only(k)
        invariant Harmless(p, ex0.req.mode, old(exec.effects), exec.effects)
        invariant verdict.Again? ==>
          && AboutToAttempt(p, k, ex0, st, row) && worker == old(worker).(pc := CreateAttempt(row))
          && row0.attempt <= row.attempt <= endAttempt
          && row.input == row0.input && row.opKey == row0.opKey
          && |exec.calls| <= |old(exec.calls)| + (row.attempt - row0.attempt)
        invariant verdict.Answered? ==>
          && !outcome.Ambiguous? && row.tool == st.tool && row.stepId == st.id
          && worker == old(worker).(pc := AfterCall(p, ex0, endAttempt, st, row, outcome)) && worker.pc.Record?
        invariant verdict.Stopped? ==> Ends(p, k, ex, err) && (err.None? ==> ex.status == ExecNeedsReconciliation)
        invariant !verdict.Again? ==> |exec.calls| <= |old(exec.calls)| + (endAttempt + 1 - row0.attempt)
        invariant exec.Deterministic() ==>
          var answer := Answers(p, ex0.req.mode)(st.tool, row0.input, row0.opKey);
          (verdict.Answered? ==> answer == outcome) && (verdict.Stopped? && err.None? ==> answer.Ambiguous?)
        decreases if verdict.Again? then endAttempt + 1 - row.attempt else 0
      {
        ghost var effects := exec.effects;
        verdict, row, outcome, ex, err := Round(p, k, ex0, st, row, endAttempt);
        HarmlessTwice(p, ex0.req.mode, old(exec.effects), effects, exec.effects);
      }
      answered := verdict.Answered?;
    }

    method AdvanceCursor(p: Program, k: Key, ex0: Execution) returns (ok: bool, ex: Execution)
      requires Follows(p, k) && KeyOf(ex0) == k && ex0.epoch > 0 && worker.ex == ex0 && worker.pc == Advance
      modifies this`sys, this`history, this`worker, store`executions
      ensures Follows(p, k) && Only(k)
      ensures ok ==> Advanced(ex0, ex) && KeyOf(ex) == k && worker == LoopHead(p, old(worker).(ex := ex), 1)
      ensures !ok ==> worker == old(worker).(pc := Done(Lost))
    {
      hide Follows, LoopHead;
      ok, ex := PersistExecutionFenced(p, k, ex0.(cursor := ex0.cursor + 1));
    }

    predicate Advanced(ex0: Execution, ex: Execution) {
      ex == ex0.(cursor := ex0.cursor + 1, lease := ex.lease)
    }

    /** The worker is at the loop head with these local variables. */
    ghost predicate AtHead(p: Program, k: Key, ex: Execution, b: Bindings, seqNo: nat, l: Worker, attempt: nat)
      reads this, store, exec
    {
      && Follows(p, k)
      && KeyOf(ex) == k && ex.epoch > 0
      && l.ex == ex && l.bindings == b && l.sequence == seqNo
      && attempt >= 1 && worker == LoopHead(p, l, attempt)
    }

    method SkipStep(p: Program, k: Key, ex0: Execution, st: SkillStep, b: Bindings, seq0: nat, ghost l: Worker, ghost attempt: nat)
      returns (go: bool, ex: Execution, ghost l': Worker, err: Option<RunError>)
      requires AtHead(p, k, ex0, b, seq0, l, attempt) && ex0.cursor < StepLimit(p.spec) && st == p.spec.steps[ex0.cursor]
      requires !GuardHolds(p, st, b)
      modifies this`sys, this`history, this`worker, store`executions, store`steps
      ensures Follows(p, k) && Only(k)
      ensures go ==> AtHead(p, k, ex, b, seq0 + 1, l', 1) && Advanced(ex0, ex)
      ensures !go ==> err.Some? && Ends(p, k, ex, err)
    {
      hide Follows, LoopHead, ResolveArgs, GuardHolds;
      HeadSkips(p, l, attempt, st);
      var row := StepExecution(0, st.id, st.tool, map[], map[], StepSkipped, "", seq0 + 1, 0, "", ex0.epoch);
      err, ex, l' := Some(StaleLease), ex0, l;
      go, row := CreateStepFenced(p, k, row, ex0.epoch);
      if go {
        l' := worker;
        go, ex := AdvanceCursor(p, k, ex0);
        l' := l'.(ex := ex);
      }
    }

    lemma HeadSkips(p: Program, l: Worker, attempt: nat, st: SkillStep)
      requires l.ex.cursor < StepLimit(p.spec) && st == p.spec.steps[l.ex.cursor] && !GuardHolds(p, st, l.bindings)
      ensures LoopHead(p, l, attempt) ==
              l.(pc := CreateSkip(StepExecution(0, st.id, st.tool, map[], map[], StepSkipped, "", l.sequence + 1, 0, "", l.ex.epoch)),
                 sequence := l.sequence + 1)
    {
    }

    /** A step whose arguments do not resolve fails without a tool call. */
    method BreakStep(p: Program, k: Key, ex0: Execution, st: SkillStep, b: Bindings, seq0: nat, ghost l: Worker, attempt: nat)
      returns (go: bool, ex: Execution, ghost l': Worker, err: Option<RunError>)
      requires AtHead(p, k, ex0, b, seq0, l, attempt) && ex0.cursor < StepLimit(p.spec) && st == p.spec.steps[ex0.cursor]
      requires GuardHolds(p, st, b) && ResolveArgs(p.render, st.args, b).None?
      modifies this`sys, this`history, this`worker, store`executions, store`steps
      ensures Follows(p, k) && Only(k)
      ensures go ==> AtHead(p, k, ex, b, seq0 + 1, l', 1) && Advanced(ex0, ex) && st.onError.ContinueStep?
      ensures !go ==> Ends(p, k, ex, err) && (err.None? ==> ex.status == ExecFailed && !st.onError.ContinueStep?)
    {
      hide Follows, LoopHead, ResolveArgs, GuardHolds;
      HeadBreaks(p, l, attempt, st);
      var row := StepExecution(0, st.id, st.tool, map[], map["error" := Str("unresolved template")], StepFailed,
                               "TEMPLATE_ERROR", seq0 + 1, attempt, OperationKey(ex0.req.id, st.id), ex0.epoch);
      err, ex, l' := Some(StaleLease), ex0, l;
      go, row := CreateStepFenced(p, k, row, ex0.epoch);
      if go {
        if st.onError.ContinueStep? {
          l' := worker;
          go, ex := AdvanceCursor(p, k, ex0);
          l' := l'.(ex := ex);
        } else {
          go := false;
          ex, err := FailExecution(p, k, ex0, "TEMPLATE_ERROR");
        }
      }
    }

    lemma HeadBreaks(p: Program, l: Worker, attempt: nat, st: SkillStep)
      requires l.ex.cursor < StepLimit(p.spec) && st == p.spec.steps[l.ex.cursor]
      requires GuardHolds(p, st, l.bindings) && ResolveArgs(p.render, st.args, l.bindings).None?
      ensures LoopHead(p, l, attempt) ==
              l.(pc := CreateBroken(StepExecution(0, st.id, st.tool, map[], map["error" := Str("unresolved template")], StepFailed,
                                                  "TEMPLATE_ERROR", l.sequence + 1, attempt,
                                                  OperationKey(l.ex.req.id, st.id), l.ex.epoch)),
                 sequence := l.sequence + 1)
    {
    }

    lemma HeadAttempts(p: Program, l: Worker, attempt: nat, st: SkillStep)
      requires l.ex.cursor < StepLimit(p.spec) && st == p.spec.steps[l.ex.cursor]
      requires GuardHolds(p, st, l.bindings) && ResolveArgs(p.render, st.args, l.bindings).Some?
      ensures LoopHead(p, l, attempt) ==
              l.(pc := CreateAttempt(StepExecution(0, st.id, st.tool, ResolveArgs(p.render, st.args, l.bindings).value, map[],
                                                   StepPending, "", l.sequence + 1, attempt,
                                                   OperationKey(l.ex.req.id, st.id), l.ex.epoch)),
                 sequence := l.sequence + 1,
                 endAttempt := if attempt > MaxAttempts(st) then attempt else MaxAttempts(st))
    {
    }

    /** Records a definite answer, saves the output, and goes on or fails the run. */
    method RecordAnswer(p: Program, k: Key, ex0: Execution, st: SkillStep, row: StepExecution, outcome: Outcome, b0: Bindings)
      returns (go: bool, ex: Execution, b: Bindings, ghost l': Worker, err: Option<RunError>)
      requires Follows(p, k) && KeyOf(ex0) == k && ex0.epoch > 0
      requires ex0.cursor < |p.spec.steps| && st == p.spec.steps[ex0.cursor]
      requires worker.ex == ex0 && worker.bindings == b0 && !outcome.Ambiguous? && row.tool == st.tool
      requires worker.pc == AfterCall(p, ex0, worker.endAttempt, st, row, outcome) && worker.pc.Record?
      modifies this`sys, this`history, this`worker, store`executions, store`steps
      ensures Follows(p, k) && Only(k)
      ensures go ==> AtHead(p, k, ex, b, old(worker).sequence, l', 1) && Advanced(ex0, ex)
      ensures go ==> if outcome.ToolOk? then b == Bind(b0, st, outcome.output) else b == b0 && st.onError.ContinueStep?
      ensures !go ==> Ends(p, k, ex, err)
      ensures !go && err.None? ==> ex.status == ExecFailed && outcome.ToolFailed? && !st.onError.ContinueStep?
    {
      hide Follows, LoopHead;
      go, ex, b, l', err := false, ex0, b0, worker, Some(StaleLease);
      var row' := row;
      match outcome {
        case ToolOk(output) =>
          var sideEffect := row.tool in p.tools && p.tools[row.tool].sideEffect;
          row' := row.(output := output, status := if ex0.req.mode.Shadow? && sideEffect then StepShadowed else StepSucceeded);
        case ToolFailed(code, output) =>
          row' := row.(status := StepFailed, errorCode := code, output := output);
        case Ambiguous =>
      }
      var r := UpdateStepFenced(p, k, row', ex0.epoch);
      if !r.Accepted? {
        return;
      }
      if outcome.ToolFailed? && !st.onError.ContinueStep? {
        ex, err := FailExecution(p, k, ex0, outcome.code);
        return;
      }
      if outcome.ToolOk? && st.saveAs != "" {
        b := b[st.saveAs := Obj(outcome.output)];
      }
      l' := worker;
      go, ex := AdvanceCursor(p, k, ex0);
      l' := l'.(ex := ex);
    }

    /** A step whose tool is called: its attempts, and what the answer leads to. */
    method CallStep(p: Program, k: Key, ex0: Execution, st: SkillStep, input: Bindings, b0: Bindings, seq0: nat,
                    ghost l: Worker, attempt: nat)
      returns (go: bool, ex: Execution, b: Bindings, ghost l': Worker, err: Option<RunError>)
      requires AtHead(p, k, ex0, b0, seq0, l, attempt) && ex0.cursor < StepLimit(p.spec) && st == p.spec.steps[ex0.cursor]
      requires GuardHolds(p, st, b0) && ResolveArgs(p.render, st.args, b0) == Some(input)
      modifies this`sys, this`history, this`worker, store`executions, store`steps, exec
      ensures Follows(p, k) && Only(k)
      ensures go ==> AtHead(p, k, ex, b, seq0 + 1, l', 1) && Advanced(ex0, ex)
      ensures !go ==> Ends(p, k, ex, err) && (err.None? ==> ex.status != ExecSucceeded)
      ensures |exec.calls| <= |old(exec.calls)| + MaxAttempts(st)
      ensures Harmless(p, ex0.req.mode, old(exec.effects), exec.effects)
      ensures exec.Deterministic() ==>
                var after := ReferenceStep(p, ex0.req, Answers(p, ex0.req.mode), b0, st);
                if go then after == Some(b) else err.None? ==> after.None?
    {
      hide Follows, LoopHead, ResolveArgs, AfterCall, GuardHolds, Harmless;
      HeadAttempts(p, l, attempt, st);
      var endAttempt := if attempt > MaxAttempts(st) then attempt else MaxAttempts(st);
      var row := StepExecution(0, st.id, st.tool, input, map[], StepPending, "", seq0 + 1, attempt,
                               OperationKey(ex0.req.id, st.id), ex0.epoch);
      var outcome;
      b, l' := b0, l;
      go, row, outcome, ex, err := Attempts(p, k, ex0, st, row, endAttempt);
      if go {
        go, ex, b, l', err := RecordAnswer(p, k, ex0, st, row, outcome, b0);
      }
    }

    /** One iteration of the step loop. */
    method ExecuteStep(p: Program, k: Key, ex0: Execution, st: SkillStep, b0: Bindings, seq0: nat, ghost l: Worker, attempt: nat)
      returns (go: bool, ex: Execution, b: Bindings, seqNo: nat, ghost l': Worker, err: Option<RunError>)
      requires AtHead(p, k, ex0, b0, seq0, l, attempt) && ex0.cursor < StepLimit(p.spec) && st == p.spec.steps[ex0.cursor]
      modifies this`sys, this`history, this`worker, store`executions, store`steps, exec
      ensures Follows(p, k) && Only(k)
      ensures go ==> AtHead(p, k, ex, b, seqNo, l', 1) && Advanced(ex0, ex)
      ensures !go ==> Ends(p, k, ex, err) && (err.None? ==> ex.status != ExecSucceeded)
      ensures |exec.calls| <= |old(exec.calls)| + MaxAttempts(st)
      ensures Harmless(p, ex0.req.mode, old(exec.effects), exec.effects)
      ensures exec.Deterministic() ==>
                var after := ReferenceStep(p, ex0.req, Answers(p, ex0.req.mode), b0, st);
                if go then after == Some(b) else err.None? ==> after.None?
    {
      hide Follows, LoopHead, ResolveArgs, AfterCall, Harmless;
      NothingDone(p, ex0.req.mode, exec.effects);
      b, seqNo := b0, seq0 + 1;
      if st.guard.Some? && !EvalCondition(p.render, st.guard.value, b0) {
        go, ex, l', err := SkipStep(p, k, ex0, st, b0, seq0, l, attempt);
        return;
      }
      var resolved := ResolveArgs(p.render, st.args, b0);
      if resolved.None? {
        go, ex, l', err := BreakStep(p, k, ex0, st, b0, seq0, l, attempt);
        return;
      }
      go, ex, b, l', err := CallStep(p, k, ex0, st, resolved.value, b0, seq0, l, attempt);
    }

    // -------------------------------------------------------------- the step loop

    method ListSteps(p: Program, k: Key) returns (rows: Rows)
      requires Follows(p, k) && NextAccess(worker).ListSteps?
      modifies this`sys, this`history, this`worker
      ensures Follows(p, k) && Only(k)
      ensures rows == store.RowsOf(k) && worker == AfterList(p, old(worker), rows)
    {
      hide Exec, Truthful, TrueToTools;
      rows := store.ListSteps(k);
      SilenceIsTrue(p, worker.pc);
      Act(p, NoReply);
    }

    /** The last row of each step, then the saved outputs in step order: over the inputs, each name holds what
        the last done step that saved it put out. */
    method RebuildBindings(spec: Spec, rows: Rows, base: Bindings) returns (b: Bindings)
      ensures b == RuntimeProtocol.RebuildBindings(spec, rows, base, |spec.steps|)
      ensures forall inputs | base == InputBindings(inputs) ::
                HoldsResults(spec, inputs, LedgerResults(spec, rows), |spec.steps|, b)
    {
      RebuiltForAll(spec, rows, base);
      hide HoldsResults, LedgerResults, InputBindings;
      var byId: map<string, StepExecution> := map[];
      for i := 0 to |rows|
        invariant forall id :: (if id in byId then Some(byId[id]) else None) == LastRow(rows[..i], id)
      {
        byId := byId[rows[i].stepId := rows[i]];
        assert rows[..i + 1] == rows[..i] + [rows[i]];
        forall id ensures (if id in byId then Some(byId[id]) else None) == LastRow(rows[..i + 1], id) {
          LastRowAppend(rows[..i], rows[i], id);
        }
      }
      assert rows[..|rows|] == rows;
      b := base;
      for k := 0 to |spec.steps|
        invariant b == RuntimeProtocol.RebuildBindings(spec, rows, base, k)
      {
        var st := spec.steps[k];
        assert (if st.id in byId then Some(byId[st.id]) else None) == LastRow(rows, st.id);
        if st.saveAs != "" && st.id in byId && DoneStatus(byId[st.id].status) {
          b := b[st.saveAs := Obj(byId[st.id].output)];
        }
      }
    }

    lemma RebuiltForAll(spec: Spec, rows: Rows, base: Bindings)
      ensures forall inputs | base == InputBindings(inputs) ::
                HoldsResults(spec, inputs, LedgerResults(spec, rows), |spec.steps|,
                             RuntimeProtocol.RebuildBindings(spec, rows, base, |spec.steps|))
    {
      hide HoldsResults, LedgerResults, InputBindings, RuntimeProtocol.RebuildBindings;
      forall inputs | base == InputBindings(inputs)
        ensures HoldsResults(spec, inputs, LedgerResults(spec, rows), |spec.steps|,
                             RuntimeProtocol.RebuildBindings(spec, rows, base, |spec.steps|))
      {
        RebuiltHoldsResults(spec, rows, inputs, |spec.steps|);
      }
    }

    method CheckPreconditions(p: Program, b: Bindings) returns (ok: bool)
      ensures ok == PreconditionsHold(p, b)
    {
      for i := 0 to |p.spec.preconditions|
        invariant forall j | 0 <= j < i :: EvalCondition(p.render, p.spec.preconditions[j], b)
      {
        if !EvalCondition(p.render, p.spec.preconditions[i], b) {
          return false;
        }
      }
      return true;
    }

    /** What the loop starts from after the ledger was listed. */
    lemma LoadedIs(p: Program, l: Worker, existing: Rows, attempt: nat, b: Bindings, seqNo: nat)
      requires var resumed := l.ex.cursor > 0 && |existing| > 0;
               && b == (if resumed
                        then RuntimeProtocol.RebuildBindings(p.spec, existing, InputBindings(l.ex.req.inputs), |p.spec.steps|)
                        else InputBindings(l.ex.req.inputs))
               && seqNo == if resumed then |existing| else 0
      ensures Loaded(p, l, existing, attempt) ==
              if l.ex.cursor == 0 && !PreconditionsHold(p, b)
              then l.(bindings := b, sequence := seqNo, pc := Finish(ExecFailed, "PRECONDITION_FAILED", None))
              else LoopHead(p, l.(bindings := b, sequence := seqNo), if attempt > 0 then attempt else 1)
    {
    }

    /** Up to the loop: marks the execution RUNNING, sets up the bindings, checks the preconditions. */
    method EnterSteps(p: Program, k: Key, ex0: Execution, resumeAttempt: nat)
      returns (go: bool, ex: Execution, b: Bindings, seqNo: nat, ghost l: Worker, err: Option<RunError>)
      requires Follows(p, k) && KeyOf(ex0) == k && ex0.epoch > 0
      requires worker.ex == ex0 && worker.pc == Enter(resumeAttempt)
      modifies this`sys, this`history, this`worker, store`executions
      ensures Follows(p, k) && Only(k)
      ensures go ==> Entered(ex0, ex) && AtHead(p, k, ex, b, seqNo, l, if resumeAttempt > 0 then resumeAttempt else 1)
      ensures go && ex.cursor == 0 ==> b == InputBindings(ex0.req.inputs) && InputsAccepted(p, ex0.req)
      ensures !go ==> Ends(p, k, ex, err)
      ensures !go && err.None? ==> ex.status == ExecFailed && ex0.cursor == 0 && !InputsAccepted(p, ex0.req)
    {
      hide Follows, LoopHead, PreconditionsHold, RuntimeProtocol.RebuildBindings;
      seqNo, l, err := 0, worker, Some(StaleLease);
      go, ex := PersistExecutionFenced(p, k, ex0.(status := ExecRunning));
      b := InputBindings(ex.req.inputs);
      if !go {
        return;
      }
      l := worker;
      var existing := ListSteps(p, k);
      if ex.cursor > 0 && |existing| > 0 {
        b := RebuildBindings(p.spec, existing, b);
        seqNo := |existing|;
      }
      LoadedIs(p, l, existing, resumeAttempt, b, seqNo);
      l := l.(bindings := b, sequence := seqNo);
      if ex.cursor == 0 {
        go := CheckPreconditions(p, b);
        if !go {
          ex, err := FailExecution(p, k, ex, "PRECONDITION_FAILED");
        }
      }
    }

    predicate Entered(ex0: Execution, ex: Execution) {
      ex == ex0.(status := ex.status, errorCode := ex.errorCode, lease := ex.lease)
    }

    lemma HeadFinishes(p: Program, l: Worker, attempt: nat)
      requires l.ex.cursor >= StepLimit(p.spec)
      ensures LoopHead(p, l, attempt) == l.(pc := Finish(ExecSucceeded, "", ExtractOutputs(p.spec, l.bindings)))
    {
    }

    /** After the last step. */
    method Succeed(p: Program, k: Key, ex0: Execution, b: Bindings, seqNo: nat, ghost l: Worker, ghost attempt: nat)
      returns (ex: Execution, err: Option<RunError>)
      requires AtHead(p, k, ex0, b, seqNo, l, attempt) && ex0.cursor >= StepLimit(p.spec)
      modifies this`sys, this`history, this`worker, store`executions
      ensures Follows(p, k) && Only(k) && Ends(p, k, ex, err)
      ensures err.None? ==> ex.status == ExecSucceeded && ex.outputs == ExtractOutputs(p.spec, b)
    {
      hide Follows, LoopHead;
      HeadFinishes(p, l, attempt);
      ex := ex0.(status := ExecSucceeded, errorCode := "", lease := Lease("", None), outputs := ExtractOutputs(p.spec, b));
      var ok;
      ok, ex := PersistExecutionFenced(p, k, ex);
      err := if ok then None else Some(StaleLease);
    }

    /** A run from cursor 0 that ends with status and outputs as the uninterrupted run prescribes. */
    ghost predicate LikeReference(p: Program, req: Request, ex: Execution) {
      var outputs := ReferenceRun(p, req, Answers(p, req.mode));
      if ex.status == ExecSucceeded then outputs == Some(ex.outputs) else outputs == None
    }

    /** The same, step by step: each step puts out what its tool answers to what the inputs and the results
        before it give it, and the outputs are what the steps leave. */
    ghost predicate AsTraced(p: Program, req: Request, ex: Execution) {
      var tools := Answers(p, req.mode);
      if ex.status == ExecSucceeded then Succeeds(p, req, tools, ex.outputs)
      else forall outputs :: !Succeeds(p, req, tools, outputs)
    }

    lemma ReferenceIsTraced(p: Program, req: Request, ex: Execution)
      requires LikeReference(p, req, ex)
      ensures AsTraced(p, req, ex)
    {
      hide ReferenceRun, Succeeds, Answers;
      forall outputs ensures ReferenceRun(p, req, Answers(p, req.mode)) == Some(outputs) <==> Succeeds(p, req, Answers(p, req.mode), outputs) {
        ReferenceRunIff(p, req, Answers(p, req.mode), outputs);
      }
    }

    /** Executes the steps from the cursor on. It returns without an error only with the execution
        closed, after at most the budgeted calls; and from cursor 0, with tools that answer by
        operation, it succeeds exactly when the reference run does, with the same outputs. */
    method RunSteps(p: Program, k: Key, ex0: Execution, resumeAttempt: nat) returns (ex: Execution, err: Option<RunError>)
      requires Follows(p, k) && KeyOf(ex0) == k && ex0.epoch > 0
      requires worker.ex == ex0 && worker.pc == Enter(resumeAttempt)
      modifies this`sys, this`history, this`worker, store`executions, store`steps, exec
      ensures Follows(p, k) && Only(k) && Ends(p, k, ex, err)
      ensures |exec.calls| <= |old(exec.calls)| + CallBudget(p.spec, ex0.cursor)
      ensures Harmless(p, ex0.req.mode, old(exec.effects), exec.effects)
      ensures exec.Deterministic() && ex0.cursor == 0 && err.None? ==> LikeReference(p, ex0.req, ex)
    {
      hide Follows, LoopHead, ReferenceStep, Answers, Harmless;
      NothingDone(p, ex0.req.mode, exec.effects);
      var go, b, seqNo;
      ghost var l;
      var attempt: nat := if resumeAttempt > 0 then resumeAttempt else 1;
      go, ex, b, seqNo, l, err := EnterSteps(p, k, ex0, resumeAttempt);
      if !go {
        return;
      }
      while ex.cursor < StepLimit(p.spec)
        invariant AtHead(p, k, ex, b, seqNo, l, attempt) && Only(k)
        invariant Harmless(p, ex0.req.mode, old(exec.effects), exec.effects)
        invariant ex0.cursor <= ex.cursor && ex.req == ex0.req
        invariant |exec.calls| + CallBudget(p.spec, ex.cursor) <= |old(exec.calls)| + CallBudget(p.spec, ex0.cursor)
        invariant exec.Deterministic() && ex0.cursor == 0 ==>
          && InputsAccepted(p, ex0.req)
          && ReferenceSteps(p, ex0.req, Answers(p, ex0.req.mode), InputBindings(ex0.req.inputs), 0) ==
             ReferenceSteps(p, ex0.req, Answers(p, ex0.req.mode), b, ex.cursor)
        decreases StepLimit(p.spec) - ex.cursor
      {
        ghost var effects := exec.effects;
        go, ex, b, seqNo, l, err := ExecuteStep(p, k, ex, p.spec.steps[ex.cursor], b, seqNo, l, attempt);
        HarmlessTwice(p, ex0.req.mode, old(exec.effects), effects, exec.effects);
        if !go {
          return;
        }
        attempt := 1;
      }
      ex, err := Succeed(p, k, ex, b, seqNo, l, attempt);
    }

    // -------------------------------------------------------------- recovery

    /** Every RUNNING row of the listed ledger becomes UNKNOWN_OUTCOME. */
    method RelabelRunning(p: Program, k: Key, ex: Execution) returns (ok: bool, existing: Rows)
      requires Follows(p, k) && worker.pc == ReadLedger && worker.ex == ex
      modifies this`sys, this`history, this`worker, store`steps
      ensures Follows(p, k) && Only(k)
      ensures ok ==> worker == Planned(p, old(worker).(pc := Relabel(|existing|, existing)), existing)
      ensures !ok ==> worker == old(worker).(pc := Done(Lost))
    {
      hide Follows, Planned, Exec;
      existing := ListSteps(p, k);
      var n := |existing|;
      for i := 0 to n
        invariant Follows(p, k) && Only(k) && |existing| == n
        invariant worker == old(worker).(pc := Relabel(i, existing))
      {
        if existing[i].status == StepRunning {
          var r := UpdateStepFenced(p, k, existing[i].(status := StepUnknownOutcome, errorCode := "UNKNOWN_OUTCOME"), ex.epoch);
          if !r.Accepted? {
            return false, existing;
          }
          existing := existing[i := r.value];
        } else {
          Pass(p, k);
        }
      }
      Pass(p, k);
      ok := true;
    }

    /** A local step of the relabelling loop. */
    ghost method Pass(p: Program, k: Key)
      requires Follows(p, k) && NextAccess(worker).Compute?
      modifies this`sys, this`history, this`worker
      ensures Follows(p, k) && worker == AfterCompute(p, old(worker))
    {
      hide Exec, Plan, Truthful, TrueToTools;
      SilenceIsTrue(p, worker.pc);
      Act(p, NoReply);
    }

    /** Persists the cursor and continues in the step loop. */
    method CheckpointAndRun(p: Program, k: Key, ex0: Execution, cursor: nat, attempt: nat)
      returns (ex: Execution, err: Option<RunError>)
      requires Follows(p, k) && KeyOf(ex0) == k && ex0.epoch > 0
      requires worker.ex == ex0 && worker.pc == Checkpoint(cursor, attempt)
      modifies this`sys, this`history, this`worker, store`executions, store`steps, exec
      ensures Follows(p, k) && Only(k) && Ends(p, k, ex, err)
      ensures |exec.calls| <= |old(exec.calls)| + CallBudget(p.spec, cursor)
      ensures Harmless(p, ex0.req.mode, old(exec.effects), exec.effects)
    {
      hide Follows, LoopHead, Harmless;
      NothingDone(p, ex0.req.mode, exec.effects);
      var ok;
      ok, ex := PersistExecutionFenced(p, k, ex0.(cursor := cursor));
      if !ok {
        return ex, Some(StaleLease);
      }
      ex, err := RunSteps(p, k, ex, attempt);
    }

    /** Continues a PENDING attempt that never reached its tool. */
    method ResumePendingStep(p: Program, k: Key, ex0: Execution, row0: StepExecution)
      returns (ex: Execution, err: Option<RunError>)
      requires Follows(p, k) && KeyOf(ex0) == k && ex0.epoch > 0
      requires worker.ex == ex0 && worker.pc == PendCheckpoint(row0)
      modifies this`sys, this`history, this`worker, store`executions, store`steps, exec
      ensures Follows(p, k) && Only(k) && Ends(p, k, ex, err)
      ensures |exec.calls| <= |old(exec.calls)| + 1 + CallBudget(p.spec, ex0.cursor)
      ensures Harmless(p, ex0.req.mode, old(exec.effects), exec.effects)
    {
      hide Follows, LoopHead, Harmless;
      NothingDone(p, ex0.req.mode, exec.effects);
      var ok, row;
      ok, ex, row, err := StartPending(p, k, ex0, row0);
      if ok {
        ex, err := CallPending(p, k, ex, row);
      }
    }

    /** The attempt is RUNNING. */
    method StartPending(p: Program, k: Key, ex0: Execution, row0: StepExecution)
      returns (ok: bool, ex: Execution, row: StepExecution, err: Option<RunError>)
      requires Follows(p, k) && KeyOf(ex0) == k && ex0.epoch > 0
      requires worker.ex == ex0 && worker.pc == PendCheckpoint(row0)
      modifies this`sys, this`history, this`worker, store`executions, store`steps
      ensures Follows(p, k) && Only(k) && (!ok ==> err.Some? && Ends(p, k, ex, err))
      ensures ok ==> worker.ex == ex && ex == ex0.(lease := ex.lease) && worker.pc == Invoke(row, true)
    {
      hide Follows, LoopHead;
      row := row0;
      ok, ex := PersistExecutionFenced(p, k, ex0);
      if !ok {
        return false, ex, row, Some(StaleLease);
      }
      var started := UpdateStepFenced(p, k, row0.(status := StepRunning, errorCode := ""), ex.epoch);
      if !started.Accepted? {
        return false, ex, row, Some(if started.NotFound? then StoreFailure else StaleLease);
      }
      return true, ex, started.value, None;
    }

    method CallPending(p: Program, k: Key, ex0: Execution, row: StepExecution) returns (ex: Execution, err: Option<RunError>)
      requires Follows(p, k) && KeyOf(ex0) == k && ex0.epoch > 0
      requires worker.ex == ex0 && worker.pc == Invoke(row, true)
      modifies this`sys, this`history, this`worker, store`executions, store`steps, exec
      ensures Follows(p, k) && Only(k) && Ends(p, k, ex, err)
      ensures |exec.calls| <= |old(exec.calls)| + 1 + CallBudget(p.spec, ex0.cursor)
      ensures Harmless(p, ex0.req.mode, old(exec.effects), exec.effects)
    {
      hide Follows, LoopHead, Harmless, CallBudget, TrueToTools, AfterReply, AfterResumedCall;
      var outcome := InvokeTool(p, k, row, true, ex0.req.mode.Shadow?);
      Hear(p, k, outcome);
      ResumedReplyIs(p, old(worker), row, outcome);
      ghost var effects := exec.effects;
      ex, err := RecordResumed(p, k, ex0, row, outcome);
      HarmlessTwice(p, ex0.req.mode, old(exec.effects), effects, exec.effects);
    }

    lemma ResumedReplyIs(p: Program, l: Worker, row: StepExecution, outcome: Outcome)
      ensures AfterReply(p, l.(pc := Await(row, true)), row, outcome) == l.(pc := AfterResumedCall(p, l.ex.req.mode, row, outcome))
    {
    }

    method RecordResumed(p: Program, k: Key, ex0: Execution, row: StepExecution, outcome: Outcome)
      returns (ex: Execution, err: Option<RunError>)
      requires Follows(p, k) && KeyOf(ex0) == k && ex0.epoch > 0
      requires worker.ex == ex0 && worker.pc == AfterResumedCall(p, ex0.req.mode, row, outcome)
      modifies this`sys, this`history, this`worker, store`executions, store`steps, exec
      ensures Follows(p, k) && Only(k) && Ends(p, k, ex, err)
      ensures |exec.calls| <= |old(exec.calls)| + CallBudget(p.spec, ex0.cursor)
      ensures Harmless(p, ex0.req.mode, old(exec.effects), exec.effects)
    {
      hide Follows, LoopHead, Harmless, CallBudget, Ends, AfterResumedCall;
      NothingDone(p, ex0.req.mode, exec.effects);
      var row' := ResumedRow(p, ex0.req.mode, row, outcome);
      ResumedGoesOn(p, worker, row, outcome, row'.(epoch := ex0.epoch));
      var r := UpdateStepFenced(p, k, row', ex0.epoch);
      if r.Accepted? {
        ex, err := AfterResumed(p, k, ex0, row, outcome);
      } else {
        ex, err := ex0, Some(StaleLease);
        LostEnds(p, k, ex);
      }
    }

    /** The row with the outcome of a resumed attempt. */
    method ResumedRow(p: Program, mode: Mode, row: StepExecution, outcome: Outcome) returns (row': StepExecution)
      ensures var pc := AfterResumedCall(p, mode, row, outcome); pc.Record? && pc.row == row'
    {
      row' := row;
      match outcome {
        case Ambiguous =>
          row' := row.(status := StepUnknownOutcome, errorCode := "UNKNOWN_OUTCOME", output := map[]);
        case ToolFailed(code, output) =>
          row' := row.(status := StepFailed, errorCode := code, output := output);
        case ToolOk(output) =>
          var sideEffect := row.tool in p.tools && p.tools[row.tool].sideEffect;
          row' := row.(output := output, status := if mode.Shadow? && sideEffect then StepShadowed else StepSucceeded);
      }
    }

    lemma ResumedGoesOn(p: Program, l: Worker, row: StepExecution, outcome: Outcome, stored: StepExecution)
      requires l.pc == AfterResumedCall(p, l.ex.req.mode, row, outcome)
      ensures AfterPutRow(p, l, stored) == l.(pc := match outcome
                                                    case Ambiguous =>
                                                      if ToolCapability(p, row.tool).Native? then Enter(row.attempt + 1)
                                                      else Finish(ExecNeedsReconciliation, "UNKNOWN_OUTCOME", None)
                                                    case ToolFailed(code, _) => Finish(ExecFailed, code, None)
                                                    case ToolOk(_) => Checkpoint(l.ex.cursor + 1, 0))
    {
    }

    lemma LostEnds(p: Program, k: Key, ex: Execution)
      requires Follows(p, k) && worker.pc == Done(Lost)
      ensures Ends(p, k, ex, Some(StaleLease))
    {
    }

    /** What follows once the outcome of a resumed attempt is on the ledger. */
    method AfterResumed(p: Program, k: Key, ex0: Execution, row: StepExecution, outcome: Outcome)
      returns (ex: Execution, err: Option<RunError>)
      requires Follows(p, k) && KeyOf(ex0) == k && ex0.epoch > 0 && worker.ex == ex0
      requires worker.pc == match outcome
                            case Ambiguous =>
                              if ToolCapability(p, row.tool).Native? then Enter(row.attempt + 1)
                              else Finish(ExecNeedsReconciliation, "UNKNOWN_OUTCOME", None)
                            case ToolFailed(code, _) => Finish(ExecFailed, code, None)
                            case ToolOk(_) => Checkpoint(ex0.cursor + 1, 0)
      modifies this`sys, this`history, this`worker, store`executions, store`steps, exec
      ensures Follows(p, k) && Only(k) && Ends(p, k, ex, err)
      ensures |exec.calls| <= |old(exec.calls)| + CallBudget(p.spec, ex0.cursor)
      ensures Harmless(p, ex0.req.mode, old(exec.effects), exec.effects)
    {
      hide Follows, LoopHead, Harmless;
      NothingDone(p, ex0.req.mode, exec.effects);
      match outcome {
        case Ambiguous =>
          if ToolCapability(p, row.tool).Native? {
            ex, err := RunSteps(p, k, ex0, row.attempt + 1);
          } else {
            ex, err := NeedsReconciliation(p, k, ex0, "UNKNOWN_OUTCOME");
          }
        case ToolFailed(code, _) =>
          ex, err := FailExecution(p, k, ex0, code);
        case ToolOk(_) =>
          ex, err := CheckpointAndRun(p, k, ex0, ex0.cursor + 1, 0);
      }
    }

    method AskProvider(p: Program, k: Key, row: StepExecution) returns (answer: Recon)
      requires Follows(p, k) && worker.pc == AskReconcile(row)
      modifies this`sys, this`history, this`worker
      ensures Follows(p, k) && worker == old(worker).(pc := Reconciled(old(worker), row, answer))
    {
      hide Exec, Reconciled, Truthful, TrueToTools;
      answer := exec.Reconcile(row.tool, row.input, row.opKey);
      ReportIsTrue(p, worker.pc, answer);
      Act(p, ReconReply(answer));
    }

    /** Acts on the provider's answer about an ambiguous attempt. */
    method ReconcileStep(p: Program, k: Key, ex0: Execution, row: StepExecution)
      returns (ex: Execution, err: Option<RunError>)
      requires Follows(p, k) && KeyOf(ex0) == k && ex0.epoch > 0
      requires worker.ex == ex0 && worker.pc == AskReconcile(row)
      modifies this`sys, this`history, this`worker, store`executions, store`steps, exec
      ensures Follows(p, k) && Only(k) && Ends(p, k, ex, err)
      ensures |exec.calls| <= |old(exec.calls)| + CallBudget(p.spec, ex0.cursor)
      ensures Harmless(p, ex0.req.mode, old(exec.effects), exec.effects)
    {
      hide Follows, LoopHead, Harmless;
      NothingDone(p, ex0.req.mode, exec.effects);
      var answer := AskProvider(p, k, row);
      match answer {
        case Applied(output) =>
          var r := UpdateStepFenced(p, k, row.(status := StepSucceeded, output := output, errorCode := ""), ex0.epoch);
          if !r.Accepted? {
            return ex0, Some(StaleLease);
          }
          ex, err := CheckpointAndRun(p, k, ex0, ex0.cursor + 1, 0);
        case NotApplied =>
          ex, err := CheckpointAndRun(p, k, ex0, ex0.cursor, if row.attempt + 1 < 2 then 2 else row.attempt + 1);
        case Undecided =>
          ex, err := NeedsReconciliation(p, k, ex0, "NEEDS_RECONCILIATION");
      }
    }

    /** Acts on the planner's decision. */
    method FollowPlan(p: Program, k: Key, ex0: Execution, existing: Rows) returns (ex: Execution, err: Option<RunError>)
      requires Follows(p, k) && KeyOf(ex0) == k && ex0.epoch > 0
      requires worker.ex == ex0 && worker.pc == Planned(p, worker, existing).pc
      modifies this`sys, this`history, this`worker, store`executions, store`steps, exec
      ensures Follows(p, k) && Only(k) && Ends(p, k, ex, err)
      ensures |exec.calls| <= |old(exec.calls)| + 1 + CallBudget(p.spec, ex0.cursor)
      ensures Harmless(p, ex0.req.mode, old(exec.effects), exec.effects)
    {
      hide Follows, LoopHead, Plan, Harmless;
      NothingDone(p, ex0.req.mode, exec.effects);
      match Plan(p, ex0, existing) {
        case RecoverFail =>
          ex, err := FailExecution(p, k, ex0, "STEP_FAILED");
        case RecoverManual =>
          ex, err := NeedsReconciliation(p, k, ex0, "NEEDS_RECONCILIATION");
        case RecoverReconcile(row) =>
          ex, err := ReconcileStep(p, k, ex0, row);
        case RecoverContinue =>
          ex, err := CheckpointAndRun(p, k, ex0, ex0.cursor + 1, 0);
        case RecoverRetry(next, last) =>
          if last.Some? && last.value.status == StepPending {
            ex, err := ResumePendingStep(p, k, ex0, last.value);
          } else {
            ex, err := CheckpointAndRun(p, k, ex0, ex0.cursor, if next == 0 then 1 else next);
          }
      }
    }

    method ReadBack(p: Program, k: Key) returns (ex: Execution)
      requires Follows(p, k) && worker.pc == ReadExecution
      modifies this`sys, this`history, this`worker
      ensures Follows(p, k) && ex == store.executions[k] && worker == AfterGet(p, old(worker), ex) && KeyOf(ex) == k
    {
      hide Exec, Truthful, TrueToTools;
      var found := store.GetExecution(k);
      ex := found.value;
      SilenceIsTrue(p, worker.pc);
      Act(p, NoReply);
    }

    /** Continues a claimed execution. Without an error it leaves the execution closed, after at
        most one call more than the budget of the remaining steps. */
    method Recover(p: Program, k: Key) returns (ex: Execution, err: Option<RunError>)
      requires Follows(p, k) && worker.pc == ReadExecution && store.executions[k].epoch > 0
      modifies this`sys, this`history, this`worker, store`executions, store`steps, exec
      ensures Follows(p, k) && Only(k)
      ensures || Ends(p, k, ex, err)
              || (err.None? && worker.pc == Done(Observed) && ex == store.executions[k] && !Open(ex.status))
              || (err == Some(MissingSpecError) && worker.pc == Done(MissingSpec) && p.spec.steps == [])
      ensures p.spec.steps == [] && Open(old(store.executions[k].status)) ==> err == Some(MissingSpecError)
      ensures |exec.calls| <= |old(exec.calls)| + 1 + CallBudget(p.spec, old(store.executions[k].cursor))
      ensures Harmless(p, old(store.executions[k].req.mode), old(exec.effects), exec.effects)
    {
      hide Follows, Planned, Harmless;
      ex := ReadBack(p, k);
      NothingDone(p, ex.req.mode, exec.effects);
      if ex.status != ExecRunning && ex.status != ExecPending {
        return ex, None;
      }
      if p.spec.steps == [] {
        return ex, Some(MissingSpecError);
      }
      var ok, existing := RelabelRunning(p, k, ex);
      if !ok {
        return ex, Some(StaleLease);
      }
      SamePlan(p, old(worker).(ex := ex, pc := Relabel(|existing|, existing)), worker, existing);
      ex, err := FollowPlan(p, k, ex, existing);
    }

    lemma SamePlan(p: Program, l: Worker, l': Worker, existing: Rows)
      requires l' == Planned(p, l, existing)
      ensures l'.ex == l.ex && l'.pc == Planned(p, l', existing).pc
    {
    }

    // -------------------------------------------------------------- a run from its beginning

    /** What a whole run in the step loop, from a fresh execution, amounts to. */
    ghost predicate RanFresh(p: Program, k: Key, ex0: Execution, ex: Execution)
      reads this, store, exec
    {
      && Follows(p, k)
      && k in store.executions
      && start == Initial(ex0, leaseOwner)
      && (DistinctStepIds(p.spec) ==> Genuine(p, ex0, leaseOwner, history))
      && ex == store.executions[k] && Concluded(ex.status) && ex.req == ex0.req
      && (exec.Deterministic() ==> LikeReference(p, ex0.req, ex) && AsTraced(p, ex0.req, ex))
    }

    /** A fresh execution and its worker, about to enter the step loop. */
    ghost method Track(p: Program, k: Key, ex0: Execution)
      requires p == ProgramFor(p.spec)
      requires k in store.executions && store.executions[k] == ex0 && KeyOf(ex0) == k && store.RowsOf(k) == []
      modifies this`start, this`history, this`me, this`before, this`sys, this`worker
      ensures Follows(p, k) && start == Initial(ex0, leaseOwner) && me == 0
      ensures worker.ex == ex0 && worker.pc == Enter(0)
    {
      start, history, me, before := Initial(ex0, leaseOwner), [], 0, exec.calls;
      TrueAtFirst(p, start, Answers(p, ex0.req.mode));
      sys, worker := start, start.workers[0];
    }

    lemma FreshRunReturns(p: Program, ex0: Execution)
      requires FreshExecution(ex0) && start == Initial(ex0, leaseOwner) && me == 0 && ByWorker(history, 0)
      requires sys == Exec(p, start, history) && 0 < |sys.workers| && sys.workers[0].pc.Done?
      ensures sys.workers[0].pc != Done(Lost) && sys.cell.ex.req == ex0.req
      ensures DistinctStepIds(p.spec) ==> Genuine(p, ex0, leaseOwner, history)
    {
      hide Exec, Inv;
      SoloRun(p, ex0, leaseOwner, history);
      if DistinctStepIds(p.spec) {
        InitialAlone(p, ex0);
        AloneRun(p, start, 0, history);
      }
    }

    lemma InitialAlone(p: Program, ex0: Execution)
      requires FreshExecution(ex0)
      ensures Alone(p, Initial(ex0, leaseOwner), 0)
    {
      hide Inv;
      InitialInv(p, ex0, leaseOwner);
    }

    /** Run and Resume enter the step loop here. Nobody else works on the execution, so the run
        ends without an error, with the execution closed. */
    method RunFresh(p: Program, k: Key, ex0: Execution) returns (ex: Execution)
      requires p == ProgramFor(p.spec)
      requires k in store.executions && store.executions[k] == ex0 && KeyOf(ex0) == k && store.RowsOf(k) == []
      requires FreshExecution(ex0)
      modifies this`start, this`history, this`me, this`before, this`sys, this`worker
      modifies store`executions, store`steps, exec
      ensures RanFresh(p, k, ex0, ex) && Only(k)
      ensures Harmless(p, ex0.req.mode, old(exec.effects), exec.effects)
      ensures |exec.calls| <= |old(exec.calls)| + CallBudget(p.spec, 0)
    {
      hide Exec, Genuine, LikeReference, AsTraced, Harmless;
      Track(p, k, ex0);
      var err;
      ex, err := RunSteps(p, k, ex0, 0);
      FreshRunReturns(p, ex0);
      if exec.Deterministic() {
        ReferenceIsTraced(p, ex0.req, ex);
      }
    }

    // -------------------------------------------------------------- policy and approvals

    ghost function State(): Gov
      reads this, store
    {
      Gov(store.executions, store.byIdem, store.steps, store.approvals, direct, cleared)
    }

    ghost predicate Governed()
      reads this, store
    {
      Governance.Governed(policy, State())
    }

    /** Approves a PENDING request; by somebody else than its requester, if that is demanded. */
    method Approve(tenant: string, id: string, approvedBy: string, separate: bool) returns (r: Option<Approval>)
      requires Governed()
      modifies store`approvals
      ensures Governed()
      ensures var a := (tenant, id);
              r.Some? <==>
                && a in old(store.approvals) && old(store.approvals)[a].status.ApprovalPending?
                && (separate ==> old(store.approvals)[a].requester != "" && approvedBy != "" &&
                                 old(store.approvals)[a].requester != approvedBy)
      ensures r.None? ==> store.approvals == old(store.approvals)
      ensures r.Some? ==>
                && r.value == old(store.approvals)[(tenant, id)].(status := ApprovalApproved, approvedBy := approvedBy)
                && store.approvals == old(store.approvals)[(tenant, id) := r.value]
    {
      if (tenant, id) !in store.approvals {
        return None;
      }
      var appr := store.approvals[(tenant, id)];
      if appr.status != ApprovalPending {
        return None;
      }
      if separate {
        if appr.requester == "" || approvedBy == "" {
          return None;
        }
        if appr.requester == approvedBy {
          return None;
        }
      }
      ghost var g := State();
      hide Governance.Governed;
      PendingWaits(policy, g, (tenant, id));
      appr := appr.(status := ApprovalApproved, approvedBy := approvedBy);
      ghost var ex := store.executions[Subject(appr)];
      DecisionKeeps(policy, g, (tenant, id), appr, ex);
      var updated := store.UpdateApproval(appr);
      assert g.executions == g.executions[Subject(appr) := ex];
      assert State() == g.(approvals := g.approvals[(tenant, id) := appr], executions := g.executions[Subject(appr) := ex]);
      r := Some(appr);
    }

    /** Rejects a PENDING request and cancels its execution. */
    method Reject(tenant: string, id: string, reason: string) returns (r: Option<Approval>)
      requires Governed()
      modifies store`approvals, store`executions
      ensures Governed()
      ensures r.Some? <==> (tenant, id) in old(store.approvals) && old(store.approvals)[(tenant, id)].status.ApprovalPending?
      ensures r.None? ==> store.approvals == old(store.approvals) && store.executions == old(store.executions)
      ensures r.Some? ==>
                var was := old(store.approvals)[(tenant, id)];
                && r.value == was.(status := ApprovalRejected, reason := if reason != "" then reason else was.reason)
                && store.approvals == old(store.approvals)[(tenant, id) := r.value]
                && Subject(was) in old(store.executions)
                && store.executions == old(store.executions)[Subject(was) :=
                     old(store.executions)[Subject(was)].(status := ExecCancelled, errorCode := "APPROVAL_REJECTED")]
    {
      hide Governance.Governed;
      if (tenant, id) !in store.approvals || store.approvals[(tenant, id)].status != ApprovalPending {
        return None;
      }
      var appr := RejectPending((tenant, id), reason);
      r := Some(appr);
    }

    method RejectPending(a: Key, reason: string) returns (appr: Approval)
      requires Governed() && a in store.approvals && store.approvals[a].status.ApprovalPending?
      modifies store`approvals, store`executions
      ensures Governed()
      ensures var was := old(store.approvals)[a];
              && appr == was.(status := ApprovalRejected, reason := if reason != "" then reason else was.reason)
              && store.approvals == old(store.approvals)[a := appr]
              && Subject(was) in old(store.executions)
              && store.executions == old(store.executions)[Subject(was) :=
                   old(store.executions)[Subject(was)].(status := ExecCancelled, errorCode := "APPROVAL_REJECTED")]
    {
      ghost var g := State();
      hide Governance.Governed;
      PendingWaits(policy, g, a);
      appr := store.approvals[a].(status := ApprovalRejected);
      if reason != "" {
        appr := appr.(reason := reason);
      }
      var updated := store.UpdateApproval(appr);
      var k := (a.0, appr.executionId);
      if k in store.executions && store.executions[k].status == ExecWaitingApproval {
        var ex := Close(k, ExecCancelled, "APPROVAL_REJECTED");
        DecisionKeeps(policy, g, a, appr, ex);
      }
    }

    /** The gate's request for a run or, after an approval, for its resumption. */
    method GateRequest(spec: Spec, mode: Mode, enabled: bool, availableTools: seq<string>, approved: bool)
      returns (r: PolicyRequest)
      ensures r == PolicyRequest(mode, spec.risk, spec.requiresApproval, enabled, availableTools, r.specTools, approved)
      ensures forall i | 0 <= i < |spec.steps| :: spec.steps[i].tool in r.specTools
    {
      var specTools := UniqueTools(spec);
      r := PolicyRequest(mode, spec.risk, spec.requiresApproval, enabled, availableTools, specTools, approved);
    }

    /** Run was called before with this idempotency key. */
    predicate Repeated(req: RunRequest)
      reads store
    {
      req.idempotencyKey != "" && (req.tenant, req.idempotencyKey) in store.byIdem
    }

    function NewExecution(req: RunRequest, id: string): Execution {
      Execution(Request(req.tenant, id, req.skillId, req.versionId, req.mode, req.idempotencyKey, req.inputs, req.requester),
                ExecPending, None, "", 0, Lease("", None), 1)
    }

    /** Closes a new or waiting execution without entering the step loop. */
    method Close(k: Key, status: ExecStatus, code: string) returns (ex: Execution)
      requires k in store.executions && KeyOf(store.executions[k]) == k && store.executions[k].status != ExecRunning
      modifies store`executions
      ensures ex == old(store.executions)[k].(status := status, errorCode := code)
      ensures store.executions == old(store.executions)[k := ex]
    {
      ex := store.executions[k].(status := status, errorCode := code);
      var updated := store.UpdateExecution(ex);
    }

    /** What a first Run with this gate request leads to. */
    ghost predicate Honours(req: RunRequest, k: Key, ex: Execution, gate: PolicyRequest)
      reads this, store, exec
    {
      && k in store.executions && ex == store.executions[k] && ForRequest(req, k, ex)
      && var d := policy(gate);
         if Admits(d, req.mode)
         then k in direct && direct[k] == Admission(gate, req.spec) && RanFresh(ProgramFor(req.spec), k, NewExecution(req, k.1), ex)
         else
           && store.RowsOf(k) == []
           && ex.status == (if d.RequireApproval? then ExecWaitingApproval else ExecDenied)
           && (d.RequireApproval? ==> exists a :: a in store.approvals && IsAskedFor(req, k, store.approvals[a]))
    }

    /** The execution carries what its caller asked for. */
    predicate ForRequest(req: RunRequest, k: Key, ex: Execution) {
      && ex.req.tenant == req.tenant && ex.req.id == k.1 && ex.req.skillId == req.skillId && ex.req.versionId == req.versionId
      && ex.req.mode == req.mode && ex.req.inputs == req.inputs && ex.req.idempotencyKey == req.idempotencyKey
      && ex.req.requester == req.requester
    }

    /** A PENDING approval of this execution, for its skill, on behalf of its requester. */
    predicate IsAskedFor(req: RunRequest, k: Key, r: Approval) {
      && Subject(r) == k && r.skillId == req.skillId && r.requester == req.requester && r.status.ApprovalPending?
    }

    /** A first call creates one execution and runs it, parks it for approval, or denies it; a
        further call with the same idempotency key returns that execution and changes nothing. */
    method Run(req: RunRequest, id: string, approvalId: string, createdAt: int)
      returns (r: Option<Execution>, ghost gate: PolicyRequest)
      requires Governed()
      requires (req.tenant, id) !in store.executions && (req.tenant, approvalId) !in store.approvals
      modifies this, store, exec
      ensures Governed()
      ensures old(Repeated(req)) ==>
                && r == Some(old(store.executions)[(req.tenant, old(store.byIdem)[(req.tenant, req.idempotencyKey)])])
                && State() == old(State()) && exec.calls == old(exec.calls)
      ensures Harmless(ProgramFor(req.spec), req.mode, old(exec.effects), exec.effects)
      ensures direct == old(direct) || direct == old(direct)[(req.tenant, id) := Admission(gate, req.spec)]
      ensures cleared == old(cleared)
      ensures !old(Repeated(req)) && req.tenant == "" ==>
                r == None && State() == old(State()) && exec.calls == old(exec.calls)
      ensures !old(Repeated(req)) && req.tenant != "" ==>
                && r.Some? && Honours(req, (req.tenant, id), r.value, gate) && Asks(req, gate)
                && |exec.calls| <= |old(exec.calls)| + if Admits(policy(gate), req.mode) then CallBudget(req.spec, 0) else 0
    {
      ghost var g := State();
      hide Governance.Governed, Follows, Honours, CallBudget, Created, Harmless;
      NothingDone(ProgramFor(req.spec), req.mode, exec.effects);
      var ask := GateRequest(req.spec, req.mode, req.runtimeEnabled, req.availableTools, false);
      gate := ask;
      r := FindRepeated(req);
      if r.Some? {
        return;
      }
      var ok := CreateNew(req, id);
      if ok {
        var ex := Proceed(req, (req.tenant, id), approvalId, createdAt, ask, g);
        r := Some(ex);
      } else {
        r := None;
      }
    }

    /** The execution of an earlier call with the same idempotency key. */
    method FindRepeated(req: RunRequest) returns (r: Option<Execution>)
      requires Governed()
      ensures r.Some? <==> Repeated(req)
      ensures r.Some? ==>
                var k := (req.tenant, store.byIdem[(req.tenant, req.idempotencyKey)]);
                k in store.executions && r.value == store.executions[k]
    {
      ghost var g := State();
      GovernedIsValid(policy, g);
      hide Governance.Governed;
      if req.idempotencyKey == "" {
        return None;
      }
      assert (req.tenant, req.idempotencyKey) in g.byIdem ==> IndexOk(g, (req.tenant, req.idempotencyKey));
      r := store.GetExecutionByIdempotency(req.tenant, req.idempotencyKey);
    }

    /** The gate was asked about this very run. */
    ghost predicate Asks(req: RunRequest, gate: PolicyRequest) {
      && Concerns(gate, req.spec, req.mode)
      && gate.requiresApproval == req.spec.requiresApproval
      && gate.runtimeEnabled == req.runtimeEnabled && gate.availableTools == req.availableTools
    }

    lemma StoreIsValid()
      requires Governed()
      ensures store.Valid()
    {
      GovernedIsValid(policy, State());
      assert forall i | i in store.byIdem :: IndexOk(State(), i);
    }

    method CreateNew(req: RunRequest, id: string) returns (ok: bool)
      requires Governed() && !Repeated(req) && (req.tenant, id) !in store.executions
      modifies store`executions, store`byIdem
      ensures ok <==> req.tenant != ""
      ensures !ok ==> State() == old(State())
      ensures ok ==> Created(old(State()), State(), (req.tenant, id), NewExecution(req, id))
    {
      hide Governance.Governed;
      StoreIsValid();
      var r := store.CreateExecution(NewExecution(req, id));
      ok := r.Some?;
    }

    /** What the gate's answer leads to. */
    method Proceed(req: RunRequest, k: Key, approvalId: string, createdAt: int, gate: PolicyRequest, ghost g: Gov)
      returns (ex: Execution)
      requires Governance.Governed(policy, g) && Created(g, State(), k, NewExecution(req, k.1)) && k.0 == req.tenant != ""
      requires Asks(req, gate) && (req.tenant, approvalId) !in store.approvals
      modifies this, store, exec
      ensures direct == old(direct) || direct == old(direct)[k := Admission(gate, req.spec)]
      ensures cleared == old(cleared)
      ensures Governed() && Honours(req, k, ex, gate)
      ensures Harmless(ProgramFor(req.spec), req.mode, old(exec.effects), exec.effects)
      ensures |exec.calls| <= |old(exec.calls)| + if Admits(policy(gate), req.mode) then CallBudget(req.spec, 0) else 0
    {
      hide Governance.Governed, Follows, RanFresh, CallBudget, Created, Harmless;
      NothingDone(ProgramFor(req.spec), req.mode, exec.effects);
      var d := policy(gate);
      if d.Deny? || (d.ShadowOnly? && req.mode.Live?) {
        ex := DenyNew(req, k, if d.Deny? then "POLICY_DENIED" else "SHADOW_ONLY", g);
      } else if d.RequireApproval? {
        ex := ParkNew(req, k, approvalId, createdAt, g);
      } else {
        ex := RunNew(req, k, gate, g);
      }
    }

    method DenyNew(req: RunRequest, k: Key, code: string, ghost g: Gov) returns (ex: Execution)
      requires Governance.Governed(policy, g) && Created(g, State(), k, NewExecution(req, k.1)) && k.0 == req.tenant
      modifies store`executions
      ensures Governed() && k in store.executions && ex == store.executions[k] && ex.status == ExecDenied && ForRequest(req, k, ex)
      ensures store.RowsOf(k) == []
    {
      NothingOf(policy, g, k);
      hide Governance.Governed;
      ghost var g1 := State();
      ex := Close(k, ExecDenied, code);
      DenialKeeps(policy, g, g1, k, NewExecution(req, k.1), ex);
    }

    method ParkNew(req: RunRequest, k: Key, approvalId: string, createdAt: int, ghost g: Gov) returns (ex: Execution)
      requires Governance.Governed(policy, g) && Created(g, State(), k, NewExecution(req, k.1)) && k.0 == req.tenant != ""
      requires (req.tenant, approvalId) !in store.approvals
      modifies store`executions, store`approvals
      ensures Governed() && k in store.executions && ex == store.executions[k] && ex.status == ExecWaitingApproval && ForRequest(req, k, ex)
      ensures (req.tenant, approvalId) in store.approvals && IsAskedFor(req, k, store.approvals[(req.tenant, approvalId)])
      ensures store.RowsOf(k) == []
    {
      NothingOf(policy, g, k);
      hide Governance.Governed;
      ghost var g1 := State();
      ex := Close(k, ExecWaitingApproval, "REQUIRES_APPROVAL");
      var approval := Approval(req.tenant, approvalId, k.1, req.skillId, ApprovalPending, req.requester, "", "", createdAt);
      store.CreateApproval(approval);
      WaitKeeps(policy, g, g1, k, NewExecution(req, k.1), ex, (req.tenant, approvalId), approval);
    }

    method RunNew(req: RunRequest, k: Key, ghost gate: PolicyRequest, ghost g: Gov) returns (ex: Execution)
      requires Governance.Governed(policy, g) && Created(g, State(), k, NewExecution(req, k.1))
      requires k.0 == req.tenant
      requires Admits(policy(gate), gate.mode) && Concerns(gate, req.spec, req.mode)
      modifies this, store`executions, store`steps, exec
      ensures direct == old(direct)[k := Admission(gate, req.spec)] && cleared == old(cleared)
      ensures Governed() && k in store.executions && ex == store.executions[k]
      ensures k in direct && direct[k] == Admission(gate, req.spec) && ForRequest(req, k, ex) && RanFresh(ProgramFor(req.spec), k, NewExecution(req, k.1), ex)
      ensures Harmless(ProgramFor(req.spec), req.mode, old(exec.effects), exec.effects)
      ensures |exec.calls| <= |old(exec.calls)| + CallBudget(req.spec, 0)
    {
      ghost var g1 := State();
      NothingOf(policy, g, k);
      hide Governance.Governed, Genuine, LikeReference, AsTraced, Follows, Harmless;
      direct := direct[k := Admission(gate, req.spec)];
      ex := RunFresh(ProgramFor(req.spec), k, NewExecution(req, k.1));
      NewRunKeeps(policy, g, g1, State(), k, NewExecution(req, k.1), gate, req.spec);
    }

    /** The execution waits, and was approved for its own skill. */
    ghost predicate Ready(k: Key)
      reads store
    {
      && k in store.executions && store.executions[k].status == ExecWaitingApproval
      && exists a :: a in store.approvals && Subject(store.approvals[a]) == k && store.approvals[a].status.ApprovalApproved?
                     && store.approvals[a].skillId == store.executions[k].req.skillId
    }

    /** The gate was asked again about this spec, after the approval. */
    ghost predicate AsksAgain(spec: Spec, mode: Mode, availableTools: seq<string>, gate: PolicyRequest) {
      && About(gate, spec, mode) && gate.approvalApproved && gate.runtimeEnabled && gate.availableTools == availableTools
    }

    /** What a resumption leads to: a run, or a denial if the runtime is off or the gate now denies it. */
    ghost predicate Resumed(k: Key, spec: Spec, runs: bool, gate: PolicyRequest, was: Execution, ex: Execution)
      reads this, store, exec
    {
      && k in store.executions && ex == store.executions[k]
      && if runs
         then k in cleared && cleared[k] == Admission(gate, spec) && RanFresh(ProgramFor(spec), k, Restarted(was), ex)
         else store.RowsOf(k) == [] && ex == was.(status := ExecDenied, errorCode := ex.errorCode)
    }

    /** Continues exactly an execution that waits for an approval which is APPROVED for its skill; the gate is
        asked again, and only its denial, or a runtime that is off, holds the run back. */
    method Resume(tenant: string, executionId: string, spec: Spec, enabled: bool, availableTools: seq<string>)
      returns (r: Option<Execution>, ghost gate: PolicyRequest)
      requires Governed()
      modifies this, store, exec
      ensures Governed() && direct == old(direct)
      ensures var k := (tenant, executionId);
              !old(Ready(k)) ==>
                && State() == old(State()) && exec.calls == old(exec.calls)
                && r == if k in store.executions && store.executions[k].status != ExecWaitingApproval
                        then Some(store.executions[k]) else None
      ensures var k := (tenant, executionId);
              old(Ready(k)) ==>
                var was := old(store.executions)[k];
                var runs := enabled && !policy(gate).Deny?;
                && r.Some? && AsksAgain(spec, was.req.mode, availableTools, gate) && Resumed(k, spec, runs, gate, was, r.value)
                && cleared == (if runs then old(cleared)[k := Admission(gate, spec)] else old(cleared))
                && (!runs ==> exec.calls == old(exec.calls))
      ensures var k := (tenant, executionId);
              k in old(store.executions) ==> Harmless(ProgramFor(spec), old(store.executions)[k].req.mode, old(exec.effects), exec.effects)
    {
      ghost var g := State();
      hide Governance.Governed, Follows, RanFresh, Harmless;
      var k := (tenant, executionId);
      gate := PolicyRequest(Shadow, Unset, false, false, [], [], false);
      if k !in store.executions {
        return None, gate;
      }
      var ex := store.executions[k];
      NothingDone(ProgramFor(spec), ex.req.mode, exec.effects);
      if ex.status != ExecWaitingApproval {
        return Some(ex), gate;
      }
      var appr := store.GetApprovalByExecution(tenant, executionId);
      ReadyIff(k, appr);
      if appr.None? || appr.value.status != ApprovalApproved || appr.value.skillId != ex.req.skillId {
        return None, gate;
      }
      ghost var a :| store.ApprovalFor(a, tenant, executionId) && store.approvals[a] == appr.value;
      r, gate := ResumeReady(k, spec, enabled, availableTools, g, a);
    }

    /** The one approval of a waiting execution decides whether it is ready. */
    lemma ReadyIff(k: Key, appr: Option<Approval>)
      requires Governed() && k in store.executions && store.executions[k].status == ExecWaitingApproval
      requires appr.None? ==> forall a :: !store.ApprovalFor(a, k.0, k.1)
      requires appr.Some? ==> exists a :: store.ApprovalFor(a, k.0, k.1) && store.approvals[a] == appr.value
      ensures Ready(k) <==>
              appr.Some? && appr.value.status.ApprovalApproved? && appr.value.skillId == store.executions[k].req.skillId
    {
      forall a | a in store.approvals && Subject(store.approvals[a]) == k
        ensures appr.Some? && store.approvals[a] == appr.value
      {
        assert store.ApprovalFor(a, k.0, k.1);
        var b :| store.ApprovalFor(b, k.0, k.1) && store.approvals[b] == appr.value;
        OneApproval(policy, State(), a, b);
      }
      hide Governance.Governed;
      if appr.Some? {
        var b :| store.ApprovalFor(b, k.0, k.1) && store.approvals[b] == appr.value;
        assert Subject(store.approvals[b]) == k;
      }
    }

    method ResumeReady(k: Key, spec: Spec, enabled: bool, availableTools: seq<string>, ghost g: Gov, ghost a: Key)
      returns (r: Option<Execution>, ghost gate: PolicyRequest)
      requires Governance.Governed(policy, g) && State() == g
      requires k in store.executions && store.executions[k].status == ExecWaitingApproval
      requires a in g.approvals && Subject(g.approvals[a]) == k && g.approvals[a].status.ApprovalApproved?
      modifies this, store`executions, store`steps, exec
      ensures Governed() && direct == old(direct)
      ensures var was := old(store.executions)[k];
              var runs := enabled && !policy(gate).Deny?;
              && r.Some? && AsksAgain(spec, was.req.mode, availableTools, gate) && Resumed(k, spec, runs, gate, was, r.value)
              && cleared == (if runs then old(cleared)[k := Admission(gate, spec)] else old(cleared))
              && (!runs ==> exec.calls == old(exec.calls))
      ensures Harmless(ProgramFor(spec), old(store.executions)[k].req.mode, old(exec.effects), exec.effects)
    {
      hide Governance.Governed, Follows, RanFresh, Harmless;
      var ex := store.executions[k];
      NothingDone(ProgramFor(spec), ex.req.mode, exec.effects);
      WaitingIsUntouched(policy, g, k);
      var ask := GateRequest(spec, ex.req.mode, true, availableTools, true);
      gate := ask;
      if !enabled || policy(ask).Deny? {
        ex := Close(k, ExecDenied, if enabled then "POLICY_DENIED" else "RUNTIME_DISABLED");
        LateDenialKeeps(policy, g, k, a, ex);
      } else {
        ghost var was := ex;
        ex := RunApproved(k, spec, gate, g, a);
        RanIsStored(ProgramFor(spec), k, Restarted(was), ex);
      }
      r := Some(ex);
    }

    /** A parked run that is approved resumes: it runs, or is denied because the runtime is off or the gate now
        says so. Nothing else is asked of it. */
    method ApprovedRunResumes(req: RunRequest, k: Key, a: Key, approvedBy: string, spec: Spec, enabled: bool, availableTools: seq<string>)
      returns (r: Option<Execution>, ghost gate: PolicyRequest)
      requires Governed() && k in store.executions && store.executions[k].status == ExecWaitingApproval
      requires ForRequest(req, k, store.executions[k]) && a in store.approvals && IsAskedFor(req, k, store.approvals[a])
      modifies this, store, exec
      ensures Governed() && r.Some? && AsksAgain(spec, req.mode, availableTools, gate)
      ensures Resumed(k, spec, enabled && !policy(gate).Deny?, gate, old(store.executions)[k], r.value)
    {
      hide Governance.Governed, Resumed;
      ApprovalIsKeyed(policy, State(), a);
      var approved := Approve(a.0, a.1, approvedBy, false);
      assert a in store.approvals && Subject(store.approvals[a]) == k && store.approvals[a].status.ApprovalApproved?
             && store.approvals[a].skillId == store.executions[k].req.skillId;
      assert Ready(k);
      r, gate := Resume(k.0, k.1, spec, enabled, availableTools);
    }

    lemma RanIsStored(p: Program, k: Key, ex0: Execution, ex: Execution)
      requires RanFresh(p, k, ex0, ex)
      ensures k in store.executions && ex == store.executions[k]
    {
    }

    function Restarted(ex: Execution): Execution {
      ex.(status := ExecPending, errorCode := "")
    }

    method RunApproved(k: Key, spec: Spec, ghost gate: PolicyRequest, ghost g: Gov, ghost a: Key) returns (ex: Execution)
      requires Governance.Governed(policy, g) && State() == g
      requires k in store.executions && !InLoopOrBeyond(g, k) && Untouched(g, k) && KeyOf(store.executions[k]) == k
      requires store.executions[k].status == ExecWaitingApproval
      requires a in g.approvals && Subject(g.approvals[a]) == k && g.approvals[a].status.ApprovalApproved?
      requires Cleared(policy, store.executions[k].req.mode, Admission(gate, spec))
      modifies this, store`executions, store`steps, exec
      ensures direct == old(direct) && cleared == old(cleared)[k := Admission(gate, spec)]
      ensures Harmless(ProgramFor(spec), old(store.executions)[k].req.mode, old(exec.effects), exec.effects)
      ensures Governed() && RanFresh(ProgramFor(spec), k, Restarted(old(store.executions)[k]), ex)
    {
      hide Governance.Governed, Genuine, LikeReference, AsTraced, Follows, Harmless;
      ex := Close(k, ExecPending, "");
      ghost var g1 := State();
      cleared := cleared[k := Admission(gate, spec)];
      ex := RunFresh(ProgramFor(spec), k, ex);
      assert g1.executions - {k} == g.executions - {k};
      ResumedRunKeeps(policy, g, State(), k, a, gate, spec);
    }

    lemma StaysInStore(p: Program, k: Key)
      requires Follows(p, k)
      ensures k in store.executions && KeyOf(store.executions[k]) == k
    {
    }

    /** A worker that just claimed execution k, about to read it back. */
    ghost method TrackClaim(p: Program, k: Key)
      requires p == ProgramFor(p.spec) && k in store.executions && KeyOf(store.executions[k]) == k
      modifies this`start, this`history, this`me, this`before, this`sys, this`worker
      ensures Follows(p, k) && worker.pc == ReadExecution && me == 0 && start == Claimant(store.CellOf(k), leaseOwner)
    {
      start := Claimant(store.CellOf(k), leaseOwner);
      history, me, before, sys, worker := [], 0, exec.calls, start, start.workers[0];
      TrueAtFirst(p, start, Answers(p, start.cell.ex.req.mode));
    }

    /** A genuine run, whose answers were all the tools' own, left this cell behind. */
    ghost predicate LeftBy(p: Program, c: Cell, ex0: Execution, owner: string, past: seq<Action>) {
      && Genuine(p, ex0, owner, past) && After(p, ex0, owner, past).cell == c
      && TrueHistory(p, Initial(ex0, owner), past, Answers(p, ex0.req.mode))
    }

    /** A recovery of what such a run left behind that ends SUCCEEDED has the outputs of the uninterrupted run. */
    lemma RecoveredLikeReference(p: Program, k: Key, c: Cell, claim: Action, ex0: Execution, owner: string, past: seq<Action>)
      requires Follows(p, k) && me == 0 && LeftBy(p, c, ex0, owner, past) && Operational(p, ex0.req.mode)
      requires claim.Claim? && claim.leaseOwner == leaseOwner
      requires var claimed := ClaimExecutionLease(c, claim.owner, claim.until, claim.now);
               claimed.Some? && start == Claimant(claimed.value, leaseOwner)
      ensures store.executions[k].status == ExecSucceeded ==>
                ReferenceRun(p, ex0.req, Answers(p, ex0.req.mode)) == Some(store.executions[k].outputs)
    {
      hide Operational, TrueHistory, Genuine, ClaimExecutionLease, Exec;
      LeftRequest(p, ex0, owner, past);
      ClaimIs(c, claim.owner, claim.until, claim.now);
      var tools := Answers(p, ex0.req.mode);
      RecoveryContinues(p, ex0, owner, past, claim, history, tools);
      var all := Continued(past, claim, |After(p, ex0, owner, past).workers|, history);
      if store.executions[k].status == ExecSucceeded {
        TruthfulRunsAreTransparent(p, ex0, owner, all, tools);
      }
    }

    lemma AnyLikeReference(p: Program, k: Key, c: Cell, claim: Action)
      requires Follows(p, k) && me == 0 && claim.Claim? && claim.leaseOwner == leaseOwner
      requires var claimed := ClaimExecutionLease(c, claim.owner, claim.until, claim.now);
               claimed.Some? && start == Claimant(claimed.value, leaseOwner)
      ensures forall ex0, owner, past | LeftBy(p, c, ex0, owner, past) ::
                Operational(p, ex0.req.mode) && store.executions[k].status == ExecSucceeded ==>
                  ReferenceRun(p, ex0.req, Answers(p, ex0.req.mode)) == Some(store.executions[k].outputs)
    {
      StaysInStore(p, k);
      hide Follows, LeftBy, Operational, ReferenceRun, ClaimExecutionLease, Claimant;
      forall ex0, owner, past |
          LeftBy(p, c, ex0, owner, past) && Operational(p, ex0.req.mode) && store.executions[k].status == ExecSucceeded
        ensures ReferenceRun(p, ex0.req, Answers(p, ex0.req.mode)) == Some(store.executions[k].outputs)
      {
        RecoveredLikeReference(p, k, c, claim, ex0, owner, past);
      }
    }

    /** A recovery of what a genuine run left behind does not lose its lease, and by the time it closed the
        execution it did what was due for the step at the cursor. */
    lemma RecoveredDoes(p: Program, k: Key, c: Cell, claim: Action, ex0: Execution, owner: string, past: seq<Action>)
      requires Follows(p, k) && me == 0 && Genuine(p, ex0, owner, past) && After(p, ex0, owner, past).cell == c
      requires claim.Claim? && claim.leaseOwner == leaseOwner && worker.pc.Done?
      requires var claimed := ClaimExecutionLease(c, claim.owner, claim.until, claim.now);
               claimed.Some? && start == Claimant(claimed.value, leaseOwner)
      ensures worker.pc != Done(Lost)
      ensures !Open(store.executions[k].status) ==> DidWhatWasDue(p, c, store.CellOf(k))
    {
      hide TrueHistory, Genuine, ClaimExecutionLease, Exec, Acted;
      ClaimIs(c, claim.owner, claim.until, claim.now);
      RecoveryContinues(p, ex0, owner, past, claim, history, Answers(p, ex0.req.mode));
      var s := After(p, ex0, owner, past);
      var more := By(history, |s.workers|);
      AloneReturns(p, Exec(p, Next(p, s, claim), more), |s.workers|);
      if !Open(store.executions[k].status) {
        forall j | AtCursor(p, c, j) ensures Acted(p, c, store.CellOf(k), j) {
          ClosedMeansActed(p, ex0, owner, past, claim, more, j);
        }
      }
    }

    ghost predicate DidWhatWasDue(p: Program, c: Cell, c': Cell) {
      forall j | AtCursor(p, c, j) :: Acted(p, c, c', j)
    }

    lemma AnyRecoveredDoes(p: Program, k: Key, c: Cell, claim: Action)
      requires Follows(p, k) && me == 0 && claim.Claim? && claim.leaseOwner == leaseOwner && worker.pc.Done?
      requires var claimed := ClaimExecutionLease(c, claim.owner, claim.until, claim.now);
               claimed.Some? && start == Claimant(claimed.value, leaseOwner)
      ensures GenuinelyReached(p, c) ==>
                worker.pc != Done(Lost) && (!Open(store.executions[k].status) ==> DidWhatWasDue(p, c, store.CellOf(k)))
    {
      StaysInStore(p, k);
      hide Follows, DidWhatWasDue, ClaimExecutionLease, Claimant, Genuine;
      if GenuinelyReached(p, c) {
        var ex0, owner, past :| Genuine(p, ex0, owner, past) && After(p, ex0, owner, past).cell == c;
        RecoveredDoes(p, k, c, claim, ex0, owner, past);
      }
    }

    /** Some run of the protocol left this cell behind. */
    ghost predicate GenuinelyReached(p: Program, c: Cell) {
      exists ex0, owner, past :: Genuine(p, ex0, owner, past) && After(p, ex0, owner, past).cell == c
    }

    lemma LeftRequest(p: Program, ex0: Execution, owner: string, past: seq<Action>)
      requires Genuine(p, ex0, owner, past)
      ensures After(p, ex0, owner, past).cell.ex.req == ex0.req
    {
      hide Exec;
      InitialInv(p, ex0, owner);
      SameRequest(p, Initial(ex0, owner), past);
    }

    lemma ClaimIs(c: Cell, owner: string, until: int, now: int)
      ensures var claimed := ClaimExecutionLease(c, owner, until, now);
              claimed.Some? ==> claimed.value == c.(ex := c.ex.(lease := Lease(owner, Some(until)), epoch := c.ex.epoch + 1))
    {
    }
  }

  /** The recovery sweep (internal/skillexec/recovery.go). */
  class RecoveryWorker {
    const runtime: Runtime
    const owner: string
    const ttl: nat

    constructor (runtime: Runtime, owner: string, ttl: nat)
      ensures this.runtime == runtime
    {
      this.runtime, this.owner, this.ttl := runtime, owner, ttl;
    }

    /** It is RUNNING, and its lease is missing, over, or the sweep's own. */
    predicate Claimable(ex: Execution, now: int) {
      ex.status.ExecRunning? && (ex.lease.until.None? || ex.lease.until.value <= now || ex.lease.owner == owner)
    }

    /** Claims execution k, if it can be claimed, and recovers it from its spec snapshot. */
    method RecoverOne(k: Key, spec: Spec, now: int) returns (ok: bool)
      requires k in runtime.store.executions && KeyOf(runtime.store.executions[k]) == k
      modifies runtime`start, runtime`history, runtime`me, runtime`before, runtime`sys, runtime`worker
      modifies runtime.store`executions, runtime.store`steps, runtime.exec
      ensures k in runtime.store.executions && KeyOf(runtime.store.executions[k]) == k
      ensures runtime.Only(k)
      ensures runtime.Harmless(runtime.ProgramFor(spec), old(runtime.store.executions)[k].req.mode, old(runtime.exec.effects), runtime.exec.effects)
      ensures ok ==> !Open(runtime.store.executions[k].status)
      ensures !old(Claimable(runtime.store.executions[k], now)) ==>
                !ok && runtime.store.executions == old(runtime.store.executions) && runtime.store.steps == old(runtime.store.steps)
                && runtime.exec.calls == old(runtime.exec.calls)
      ensures var p := runtime.ProgramFor(spec);
              var c := old(runtime.store.CellOf(k));
              runtime.GenuinelyReached(p, c) && old(Claimable(runtime.store.executions[k], now)) ==>
                && (ok <==> spec.steps != [])
                && (ok ==> runtime.DidWhatWasDue(p, c, runtime.store.CellOf(k)))
      ensures var p := runtime.ProgramFor(spec);
              forall ex0, runOwner, past | runtime.LeftBy(p, old(runtime.store.CellOf(k)), ex0, runOwner, past) ::
                ok && runtime.Operational(p, ex0.req.mode) && runtime.store.executions[k].status == ExecSucceeded ==>
                  ReferenceRun(p, ex0.req, runtime.Answers(p, ex0.req.mode)) == Some(runtime.store.executions[k].outputs)
    {
      hide Runtime.Follows, Runtime.Harmless, CallBudget, Runtime.LeftBy, Runtime.Operational, ClaimExecutionLease, ReferenceRun;
      hide Runtime.DidWhatWasDue, Runtime.GenuinelyReached;
      runtime.NothingDone(runtime.ProgramFor(spec), runtime.store.executions[k].req.mode, runtime.exec.effects);
      ghost var cell := runtime.store.CellOf(k);
      runtime.ClaimIs(cell, owner, now + ttl, now);
      var claimed := runtime.store.ClaimExecutionLease(k, owner, now + ttl, now);
      if claimed.None? {
        return false;
      }
      ok := RecoverClaimed(k, spec, cell, Claim(owner, runtime.leaseOwner, now + ttl, now));
    }

    /** The same once it was claimed. */
    method RecoverClaimed(k: Key, spec: Spec, ghost cell: Cell, ghost claim: Action) returns (ok: bool)
      requires k in runtime.store.executions && KeyOf(runtime.store.executions[k]) == k && Open(runtime.store.executions[k].status)
      requires claim.Claim? && claim.leaseOwner == runtime.leaseOwner && runtime.store.executions[k].epoch > 0
      requires ClaimExecutionLease(cell, claim.owner, claim.until, claim.now) == Some(runtime.store.CellOf(k))
      modifies runtime`start, runtime`history, runtime`me, runtime`before, runtime`sys, runtime`worker
      modifies runtime.store`executions, runtime.store`steps, runtime.exec
      ensures k in runtime.store.executions && KeyOf(runtime.store.executions[k]) == k
      ensures runtime.Only(k)
      ensures runtime.Harmless(runtime.ProgramFor(spec), old(runtime.store.executions)[k].req.mode, old(runtime.exec.effects), runtime.exec.effects)
      ensures ok ==> !Open(runtime.store.executions[k].status)
      ensures var p := runtime.ProgramFor(spec);
              runtime.GenuinelyReached(p, cell) ==>
                (ok <==> spec.steps != []) && (ok ==> runtime.DidWhatWasDue(p, cell, runtime.store.CellOf(k)))
      ensures var p := runtime.ProgramFor(spec);
              forall ex0, runOwner, past | runtime.LeftBy(p, cell, ex0, runOwner, past) ::
                ok && runtime.Operational(p, ex0.req.mode) && runtime.store.executions[k].status == ExecSucceeded ==>
                  ReferenceRun(p, ex0.req, runtime.Answers(p, ex0.req.mode)) == Some(runtime.store.executions[k].outputs)
    {
      hide Runtime.Follows, Runtime.Harmless, CallBudget, Runtime.LeftBy, Runtime.Operational, ClaimExecutionLease, ReferenceRun;
      hide Runtime.DidWhatWasDue, Runtime.GenuinelyReached;
      var p := runtime.ProgramFor(spec);
      runtime.TrackClaim(p, k);
      var ex, err := runtime.Recover(p, k);
      runtime.StaysInStore(p, k);
      ok := err.None?;
      runtime.AnyRecoveredDoes(p, k, cell, claim);
      runtime.AnyLikeReference(p, k, cell, claim);
    }

    /** Goes over the stale executions, each at most once. It counts the executions it left closed,
        and touches no execution that was not stale. */
    method RecoverOnce(specs: map<Key, Spec>, now: int, limit: int) returns (recovered: nat, stale: seq<Key>)
      requires runtime.store.Valid()
      modifies runtime`start, runtime`history, runtime`me, runtime`before, runtime`sys, runtime`worker
      modifies runtime.store`executions, runtime.store`steps, runtime.exec
      ensures recovered <= |stale| <= if limit <= 0 then 50 else limit
      ensures forall k | k in stale :: k in old(runtime.store.executions) && LeaseOver(old(runtime.store.executions)[k], now)
      ensures |stale| < (if limit <= 0 then 50 else limit) ==>
                forall k | k in old(runtime.store.executions) && LeaseOver(old(runtime.store.executions)[k], now) :: k in stale
      ensures forall k | k !in stale && k in old(runtime.store.executions) ::
                k in runtime.store.executions && runtime.store.executions[k] == old(runtime.store.executions)[k] &&
                runtime.store.RowsOf(k) == old(runtime.store.RowsOf(k))
      ensures exists closed: seq<Key> :: Closed(closed, stale) && |closed| == recovered
      ensures forall k | k in stale && k in old(runtime.store.executions) && Recoverable(k, specs, old(runtime.store.CellOf(k))) ::
                k in runtime.store.executions && !Open(runtime.store.executions[k].status)
    {
      stale := runtime.store.ListStaleRunning(now, limit);
      assert forall k | k in stale :: runtime.store.Stale(k, now);
      assert forall k | k in runtime.store.executions && LeaseOver(runtime.store.executions[k], now) :: runtime.store.Stale(k, now);
      recovered := RecoverAll(stale, specs, now);
    }

    /** Its spec has steps, and some run of the protocol left its record and rows behind. */
    ghost predicate Recoverable(k: Key, specs: map<Key, Spec>, c: Cell) {
      k in specs && specs[k].steps != [] && runtime.GenuinelyReached(runtime.ProgramFor(specs[k]), c)
    }

    method RecoverAll(stale: seq<Key>, specs: map<Key, Spec>, now: int) returns (recovered: nat)
      requires forall k | k in stale :: k in runtime.store.executions && KeyOf(runtime.store.executions[k]) == k
      requires forall i, j | 0 <= i < j < |stale| :: stale[i] != stale[j]
      requires forall k | k in stale :: LeaseOver(runtime.store.executions[k], now)
      modifies runtime`start, runtime`history, runtime`me, runtime`before, runtime`sys, runtime`worker
      modifies runtime.store`executions, runtime.store`steps, runtime.exec
      ensures recovered <= |stale|
      ensures forall k | k !in stale && k in old(runtime.store.executions) ::
                k in runtime.store.executions && runtime.store.executions[k] == old(runtime.store.executions)[k] &&
                runtime.store.RowsOf(k) == old(runtime.store.RowsOf(k))
      ensures exists closed: seq<Key> :: Closed(closed, stale) && |closed| == recovered
      ensures forall k | k in stale && Recoverable(k, specs, old(runtime.store.CellOf(k))) ::
                k in runtime.store.executions && !Open(runtime.store.executions[k].status)
    {
      hide Swept, Recoverable, Closed, Runtime.Harmless, Runtime.LeftBy, Runtime.Operational, Runtime.DidWhatWasDue;
      ghost var executions0, steps0 := runtime.store.executions, runtime.store.steps;
      recovered := 0;
      ghost var closed: seq<Key> := [];
      NothingSwept(specs);
      for i := 0 to |stale|
        invariant |closed| == recovered <= i
        invariant Swept(stale[..i], closed, specs, executions0, steps0, runtime.store.executions, runtime.store.steps)
      {
        var k := stale[i];
        ghost var executions, steps := runtime.store.executions, runtime.store.steps;
        assert k !in stale[..i];
        SweptSpares(stale[..i], closed, specs, executions0, steps0, k);
        var spec := if k in specs then specs[k] else Spec({}, {}, [], [], Unset, false, 0, 0);
        var ok := RecoverOne(k, spec, now);
        Recovers(k, specs, CellIn(executions, steps, k), spec, ok);
        SweptNext(stale[..i], closed, specs, k, executions0, steps0, executions, steps, ok);
        assert stale[..i + 1] == stale[..i] + [k];
        if ok {
          recovered := recovered + 1;
          closed := closed + [k];
        }
      }
      assert stale[..|stale|] == stale;
      SweptAll(stale, closed, specs, executions0, steps0);
    }

    lemma Recovers(k: Key, specs: map<Key, Spec>, c: Cell, spec: Spec, ok: bool)
      requires k in specs ==> spec == specs[k]
      requires runtime.GenuinelyReached(runtime.ProgramFor(spec), c) ==> (ok <==> spec.steps != [])
      ensures Recoverable(k, specs, c) ==> ok
    {
    }

    function CellIn(executions: map<Key, Execution>, steps: map<Key, Rows>, k: Key): Cell
      requires k in executions
    {
      Cell(executions[k], if k in steps then steps[k] else [])
    }

    /** These executions were gone over: only they and their rows may have changed, and those that could be
        recovered are among the closed ones. */
    ghost predicate Swept(keys: seq<Key>, closed: seq<Key>, specs: map<Key, Spec>, executions0: map<Key, Execution>,
                          steps0: map<Key, Rows>, executions: map<Key, Execution>, steps: map<Key, Rows>) {
      && (forall k | k in executions0 && k !in keys :: k in executions && executions[k] == executions0[k])
      && (forall k | k !in keys :: (k in steps <==> k in steps0) && (k in steps ==> steps[k] == steps0[k]))
      && (forall i, j | 0 <= i < j < |closed| :: closed[i] != closed[j])
      && (forall k | k in closed :: k in keys && k in executions && !Open(executions[k].status))
      && (forall k | k in keys && k in executions0 && Recoverable(k, specs, CellIn(executions0, steps0, k)) :: k in closed)
    }

    lemma NothingSwept(specs: map<Key, Spec>)
      ensures Swept([], [], specs, runtime.store.executions, runtime.store.steps, runtime.store.executions, runtime.store.steps)
    {
    }

    lemma SweptSpares(keys: seq<Key>, closed: seq<Key>, specs: map<Key, Spec>, executions0: map<Key, Execution>,
                      steps0: map<Key, Rows>, k: Key)
      requires Swept(keys, closed, specs, executions0, steps0, runtime.store.executions, runtime.store.steps)
      requires k !in keys && k in executions0
      ensures k in runtime.store.executions && runtime.store.executions[k] == executions0[k]
      ensures runtime.store.CellOf(k) == CellIn(executions0, steps0, k)
    {
    }

    lemma SweptNext(keys: seq<Key>, closed: seq<Key>, specs: map<Key, Spec>, k: Key, executions0: map<Key, Execution>,
                    steps0: map<Key, Rows>, executions: map<Key, Execution>, steps: map<Key, Rows>, ok: bool)
      requires Swept(keys, closed, specs, executions0, steps0, executions, steps) && k !in keys && k in executions0
      requires runtime.store.executions - {k} == executions - {k} && runtime.store.steps - {k} == steps - {k}
      requires k in runtime.store.executions && (ok ==> !Open(runtime.store.executions[k].status))
      requires Recoverable(k, specs, CellIn(executions0, steps0, k)) ==> ok
      ensures Swept(keys + [k], if ok then closed + [k] else closed, specs, executions0, steps0,
                    runtime.store.executions, runtime.store.steps)
    {
      hide Recoverable;
      SameElsewhere(executions, runtime.store.executions, k);
      SameElsewhere(steps, runtime.store.steps, k);
    }

    lemma SweptAll(keys: seq<Key>, closed: seq<Key>, specs: map<Key, Spec>, executions0: map<Key, Execution>, steps0: map<Key, Rows>)
      requires Swept(keys, closed, specs, executions0, steps0, runtime.store.executions, runtime.store.steps)
      ensures Closed(closed, keys)
      ensures forall k | k in executions0 && k !in keys ::
                k in runtime.store.executions && runtime.store.CellOf(k) == CellIn(executions0, steps0, k)
      ensures forall k | k in keys && k in executions0 && Recoverable(k, specs, CellIn(executions0, steps0, k)) ::
                k in runtime.store.executions && !Open(runtime.store.executions[k].status)
    {
      hide Recoverable;
    }

    /** Distinct executions out of `among`, all of them closed now. */
    ghost predicate Closed(closed: seq<Key>, among: seq<Key>)
      reads runtime.store
    {
      && (forall i, j | 0 <= i < j < |closed| :: closed[i] != closed[j])
      && (forall k | k in closed :: k in among && k in runtime.store.executions && !Open(runtime.store.executions[k].status))
    }
  }
}
