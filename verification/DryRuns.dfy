/** How the ledger tells a dry run from a real one (internal/skillruntime/runtime.go). */
module DryRuns {
  import opened ExecutionLedger
  import opened ProtocolTheorems
  import opened RecoveryPlanner
  import opened RuntimeProtocol
  import opened SkillSpec
  import opened Templates

  /** SHADOWED stands for a previewed side effect, and SUCCEEDED never does, unless a provider confirmed it. */
  predicate Marked(p: Program, mode: Mode, recons: seq<(nat, Recon)>, row: StepExecution) {
    && (row.status.StepShadowed? ==> mode.Shadow? && SideEffect(p, row.tool))
    && (row.status.StepSucceeded? && mode.Shadow? && SideEffect(p, row.tool) ==> (row.id, Applied(row.output)) in recons)
  }

  /** So is what the worker is about to write. */
  predicate MarksNext(p: Program, mode: Mode, recons: seq<(nat, Recon)>, pc: Pc) {
    match pc
    case Record(row, _) => Marked(p, mode, recons, row)
    case ConfirmApplied(row) => row.status.StepSucceeded? && (row.id, Applied(row.output)) in recons
    case CreateSkip(row) => !DoneStatus(row.status)
    case CreateBroken(row) => !DoneStatus(row.status)
    case CreateAttempt(row) => !DoneStatus(row.status)
    case _ => true
  }

  predicate MarksOn(p: Program, req: Request, recons: seq<(nat, Recon)>, l: Worker) {
    l.ex.req == req && MarksNext(p, req.mode, recons, l.pc)
  }

  predicate AllMarked(p: Program, s: Sys) {
    && (forall j | 0 <= j < |s.cell.rows| :: Marked(p, s.cell.ex.req.mode, s.h.recons, s.cell.rows[j]))
    && (forall w | 0 <= w < |s.workers| :: MarksOn(p, s.cell.ex.req, s.h.recons, s.workers[w]))
  }

  // ---------------------------------------------------------------- one worker's step

  lemma HeadMarks(p: Program, l: Worker, attempt: nat, recons: seq<(nat, Recon)>)
    ensures MarksOn(p, l.ex.req, recons, LoopHead(p, l, attempt))
  {
    hide GuardHolds, ResolveArgs, ExtractOutputs;
  }

  lemma ListMarks(p: Program, l: Worker, rows: Rows, recons: seq<(nat, Recon)>)
    requires NextAccess(l).ListSteps?
    ensures MarksOn(p, l.ex.req, recons, AfterList(p, l, rows))
  {
    hide LoopHead, PreconditionsHold, RebuildBindings;
    if l.pc.Load? {
      var again := l.ex.cursor > 0 && |rows| > 0;
      var b := if again then RebuildBindings(p.spec, rows, InputBindings(l.ex.req.inputs), |p.spec.steps|)
               else InputBindings(l.ex.req.inputs);
      HeadMarks(p, l.(bindings := b, sequence := if again then |rows| else 0), if l.pc.attempt > 0 then l.pc.attempt else 1, recons);
    }
  }

  lemma ComputeMarks(p: Program, l: Worker, recons: seq<(nat, Recon)>)
    requires NextAccess(l).Compute?
    ensures MarksOn(p, l.ex.req, recons, AfterCompute(p, l))
  {
    hide Plan;
  }

  lemma PutMarks(p: Program, l: Worker, recons: seq<(nat, Recon)>)
    requires NextAccess(l).PutExecution?
    ensures MarksOn(p, l.ex.req, recons, AfterPutExecution(p, l))
  {
    hide LoopHead;
    HeadMarks(p, l, 1, recons);
  }

  lemma RowMarks(p: Program, l: Worker, row: StepExecution, recons: seq<(nat, Recon)>)
    requires NextAccess(l).AddRow? || NextAccess(l).PutRow?
    ensures NextAccess(l).AddRow? ==> MarksOn(p, l.ex.req, recons, AfterAddRow(p, l, row))
    ensures NextAccess(l).PutRow? ==> MarksOn(p, l.ex.req, recons, AfterPutRow(p, l, row))
  {
  }

  lemma ReplyMarks(p: Program, l: Worker, row: StepExecution, outcome: Outcome, recons: seq<(nat, Recon)>)
    ensures MarksOn(p, l.ex.req, recons, AfterReply(p, l, row, outcome))
  {
  }

  lemma MoreAnswers(p: Program, s: Sys, recons: seq<(nat, Recon)>)
    requires AllMarked(p, s) && s.h.recons <= recons
    ensures AllMarked(p, s.(h := s.h.(recons := recons)))
  {
    forall x | x in s.h.recons ensures x in recons {
    }
  }

  lemma WorkerMarks(p: Program, s: Sys, w: nat, l: Worker)
    requires AllMarked(p, s) && w < |s.workers| && MarksOn(p, s.cell.ex.req, s.h.recons, l)
    ensures AllMarked(p, s.(workers := s.workers[w := l]))
  {
  }

  /** The step of worker w. */
  lemma WorkMarks(p: Program, s: Sys, w: nat, now: int, reply: Reply)
    requires AllMarked(p, s) && w < |s.workers|
    ensures AllMarked(p, WorkStep(p, s, w, now, reply))
  {
    var l := s.workers[w];
    hide AfterList, AfterCompute, AfterPutExecution, AfterAddRow, AfterPutRow, AfterReply, Reconciled, AfterGet;
    match NextAccess(l)
    case Compute => ComputeMarks(p, l, s.h.recons); WorkerMarks(p, s, w, AfterCompute(p, l));
    case GetExecution => GetMarks(p, l, s.cell.ex, s.h.recons); WorkerMarks(p, s, w, AfterGet(p, l, s.cell.ex));
    case ListSteps => ListMarks(p, l, s.cell.rows, s.h.recons); WorkerMarks(p, s, w, AfterList(p, l, s.cell.rows));
    case PutExecution(ex) => RecordMarks(p, s, w, now, reply);
    case AddRow(row) => LedgerMarks(p, s, w, now, reply);
    case PutRow(row) => LedgerMarks(p, s, w, now, reply);
    case QueryProvider(row) =>
      if reply.ReconReply? {
        var recons := s.h.recons + [(row.id, reply.recon)];
        MoreAnswers(p, s, recons);
        AskMarks(p, l, row, reply.recon, s.h.recons);
        WorkerMarks(p, s.(h := s.h.(recons := recons)), w, l.(pc := Reconciled(l, row, reply.recon)));
      }
    case CallTool(row) =>
    case AwaitTool(row) =>
      if reply.ToolReply? {
        ReplyMarks(p, l, row, reply.outcome, s.h.recons);
        WorkerMarks(p, s, w, AfterReply(p, l, row, reply.outcome));
      }
    case Halt =>
  }

  lemma GetMarks(p: Program, l: Worker, ex: Execution, recons: seq<(nat, Recon)>)
    ensures MarksOn(p, ex.req, recons, AfterGet(p, l, ex))
  {
  }

  lemma AskMarks(p: Program, l: Worker, row: StepExecution, answer: Recon, recons: seq<(nat, Recon)>)
    ensures MarksOn(p, l.ex.req, recons + [(row.id, answer)], l.(pc := Reconciled(l, row, answer)))
  {
    assert (recons + [(row.id, answer)])[|recons|] == (row.id, answer);
  }

  lemma RecordMarks(p: Program, s: Sys, w: nat, now: int, reply: Reply)
    requires AllMarked(p, s) && w < |s.workers| && NextAccess(s.workers[w]).PutExecution?
    ensures AllMarked(p, WorkStep(p, s, w, now, reply))
  {
    var l := s.workers[w];
    var ex := TouchLease(p, l.owner, NextAccess(l).ex, now).(epoch := l.ex.epoch);
    assert ex.req == l.ex.req;
    PutMarks(p, l.(ex := ex), s.h.recons);
    hide AfterPutExecution, TouchLease;
  }

  lemma LedgerMarks(p: Program, s: Sys, w: nat, now: int, reply: Reply)
    requires AllMarked(p, s) && w < |s.workers| && (NextAccess(s.workers[w]).AddRow? || NextAccess(s.workers[w]).PutRow?)
    ensures AllMarked(p, WorkStep(p, s, w, now, reply))
  {
    var l := s.workers[w];
    forall row { RowMarks(p, l, row, s.h.recons); }
    hide AfterAddRow, AfterPutRow;
  }

  // ---------------------------------------------------------------- every history

  lemma LeasesMark(p: Program, s: Sys, a: Action)
    requires AllMarked(p, s) && !a.Work?
    ensures AllMarked(p, Next(p, s, a))
  {
  }

  lemma {:induction false} RunMarks(p: Program, s: Sys, history: seq<Action>)
    requires AllMarked(p, s)
    ensures AllMarked(p, Exec(p, s, history))
  {
    hide AllMarked, WorkStep;
    if history != [] {
      var front := history[..|history| - 1];
      var a := history[|history| - 1];
      RunMarks(p, s, front);
      if !a.Work? {
        LeasesMark(p, Exec(p, s, front), a);
      } else if a.w < |Exec(p, s, front).workers| {
        WorkMarks(p, Exec(p, s, front), a.w, a.now, a.reply);
      }
    }
  }

  /** Over every history: a row is SHADOWED only in a dry run and only for a tool with side effects, and in a
      dry run such a tool's row is SUCCEEDED only if its provider confirmed that very output. */
  lemma DryRunsAreMarked(p: Program, ex: Execution, owner: string, history: seq<Action>, j: nat)
    requires j < |After(p, ex, owner, history).cell.rows|
    ensures var s := After(p, ex, owner, history);
            var row := s.cell.rows[j];
            var dry := s.cell.ex.req.mode.Shadow? && row.tool in p.tools && p.tools[row.tool].sideEffect;
            && (row.status.StepShadowed? ==> dry)
            && (dry && row.status.StepSucceeded? ==> (row.id, Applied(row.output)) in s.h.recons)
  {
    hide Exec;
    assert AllMarked(p, Initial(ex, owner));
    RunMarks(p, Initial(ex, owner), history);
  }
}
