/** A worker that is alone from some point on, holding the lease, never loses it. */
module SoloRuns {
  import opened ExecutionLedger
  import opened ProtocolInvariant
  import opened ProtocolPreservation
  import opened RuntimeProtocol
  import opened SkillSpec
  import opened Wrappers

  predicate ByWorker(history: seq<Action>, w: nat) {
    forall i | 0 <= i < |history| :: history[i].Work? && history[i].w == w
  }

  /** w is the latest claimant, and the execution is open unless w finished it. */
  ghost predicate Alone(p: Program, s: Sys, w: nat) {
    && Inv(p, s)
    && w == |s.workers| - 1
    && (!Open(s.cell.ex.status) ==> s.workers[w].pc == Done(Finished))
  }

  lemma OnlyRecordsClose(p: Program, s: Sys, w: nat, now: int, reply: Reply)
    requires w < |s.workers|
    ensures |WorkStep(p, s, w, now, reply).workers| == |s.workers|
    ensures !NextAccess(s.workers[w]).PutExecution? ==> WorkStep(p, s, w, now, reply).cell.ex == s.cell.ex
  {
  }

  lemma FinishCloses(p: Program, s: Sys, w: nat, now: int)
    requires Holds(p, s, w) && NextAccess(s.workers[w]).PutExecution?
    ensures var s' := WithRecord(p, s, w, now, NextAccess(s.workers[w]).ex);
            |s'.workers| == |s.workers| && (!Open(s'.cell.ex.status) ==> s'.workers[w].pc == Done(Finished))
  {
    HolderEpoch(p, s, w);
    assert s.workers[w].ex.status == s.cell.ex.status;
  }

  lemma ReadsOwn(p: Program, s: Sys, w: nat, now: int, reply: Reply)
    requires Alone(p, s, w)
    ensures ReadsOwnEpoch(s, Work(w, now, reply))
  {
    assert WorkerInv(s.h, s.cell.rows, w, s.workers[w]);
  }

  lemma AloneNext(p: Program, s: Sys, w: nat, now: int, reply: Reply)
    requires DistinctStepIds(p.spec) && Alone(p, s, w)
    ensures ReadsOwnEpoch(s, Work(w, now, reply)) && Alone(p, WorkStep(p, s, w, now, reply), w)
  {
    hide WorkStep, Inv;
    ReadsOwn(p, s, w, now, reply);
    NextKeeps(p, s, Work(w, now, reply));
    OnlyRecordsClose(p, s, w, now, reply);
    if !Open(s.cell.ex.status) {
      Halts(p, s, w, now, reply);
    } else if NextAccess(s.workers[w]).PutExecution? {
      RecordAccepted(p, s, w, now, reply);
      FinishCloses(p, s, w, now);
    }
  }

  lemma Halts(p: Program, s: Sys, w: nat, now: int, reply: Reply)
    requires w < |s.workers| && s.workers[w].pc.Done?
    ensures WorkStep(p, s, w, now, reply) == s
  {
  }

  /** A run by the latest claimant alone is a genuine one, and it ends without a stale lease. */
  lemma {:induction false} AloneRun(p: Program, s: Sys, w: nat, history: seq<Action>)
    requires DistinctStepIds(p.spec) && Alone(p, s, w) && ByWorker(history, w)
    ensures OwnEpochs(p, s, history) && Alone(p, Exec(p, s, history), w)
  {
    hide WorkStep, Inv, ReadsOwnEpoch, OwnEpochs;
    if history == [] {
      NoEpochs(p, s);
    } else {
      var n := |history| - 1;
      AloneRun(p, s, w, history[..n]);
      AloneNext(p, Exec(p, s, history[..n]), w, history[n].now, history[n].reply);
      MoreEpochs(p, s, history);
    }
  }

  lemma NoEpochs(p: Program, s: Sys)
    ensures OwnEpochs(p, s, [])
  {
  }

  lemma MoreEpochs(p: Program, s: Sys, history: seq<Action>)
    requires history != [] && OwnEpochs(p, s, history[..|history| - 1])
    requires ReadsOwnEpoch(Exec(p, s, history[..|history| - 1]), history[|history| - 1])
    ensures OwnEpochs(p, s, history)
  {
    hide ReadsOwnEpoch, Exec;
    var front := history[..|history| - 1];
    forall i | 0 <= i < |history| ensures ReadsOwnEpoch(Exec(p, s, history[..i]), history[i]) {
      if i < |front| {
        assert front[..i] == history[..i];
        assert ReadsOwnEpoch(Exec(p, s, front[..i]), front[i]);
      }
    }
  }

  /** When such a worker returns, it has finished the execution (or found nothing to execute). */
  lemma AloneReturns(p: Program, s: Sys, w: nat)
    requires Alone(p, s, w) && s.workers[w].pc.Done?
    ensures if Open(s.cell.ex.status) then s.workers[w].pc == Done(MissingSpec) else s.workers[w].pc == Done(Finished)
  {
    if Open(s.cell.ex.status) {
      assert HolderInv(p, Core(s.cell), s.h, s.workers[w]);
    }
  }

  // ---------------------------------------------------------------- a run from its beginning

  /** The rows are numbered by position. */
  predicate Numbered(rows: Rows) {
    forall j | 0 <= j < |rows| :: rows[j].id == j
  }

  predicate AtStep(p: Program, l: Worker) { l.ex.cursor < |p.spec.steps| }

  /** Where the only worker of a fresh execution can be. */
  predicate SoloPc(p: Program, l: Worker, rows: Rows) {
    match l.pc
    case Enter(_) => true
    case Load(_) => true
    case CreateSkip(_) => AtStep(p, l)
    case CreateBroken(_) => AtStep(p, l)
    case CreateAttempt(_) => AtStep(p, l)
    case Start(row, resumed) => AtStep(p, l) && !resumed && row.id < |rows|
    case Invoke(row, resumed) => AtStep(p, l) && !resumed && row.id < |rows|
    case Await(row, resumed) => AtStep(p, l) && !resumed && row.id < |rows|
    case Record(row, next) =>
      AtStep(p, l) && row.id < |rows| && (next.ToAdvance? || next.ToRetry? || (next.ToFinish? && !Open(next.status)))
    case Advance => true
    case Finish(status, _, _) => !Open(status)
    case _ => false
  }

  /** The only worker of a fresh execution holds the lease until it has finished. No assumption on the
      spec is needed. */
  predicate Solo(p: Program, req: Request, s: Sys) {
    && |s.workers| == 1 && s.cell.ex.req == req && Numbered(s.cell.rows) && s.nextId == |s.cell.rows|
    && (|| s.workers[0].pc == Done(Finished)
        || (&& CoreRecord(s.workers[0].ex) == CoreRecord(s.cell.ex) && s.cell.ex.epoch > 0
            && (if s.workers[0].pc.Enter? then Open(s.cell.ex.status) else s.cell.ex.status.ExecRunning?)
            && SoloPc(p, s.workers[0], s.cell.rows)))
  }

  lemma SoloHead(p: Program, l: Worker, attempt: nat, rows: Rows)
    ensures SoloPc(p, LoopHead(p, l, attempt), rows) && !LoopHead(p, l, attempt).pc.Enter?
    ensures LoopHead(p, l, attempt).ex == l.ex
  {
  }

  lemma SoloLoads(p: Program, l: Worker, existing: Rows, attempt: nat, rows: Rows)
    ensures SoloPc(p, Loaded(p, l, existing, attempt), rows) && !Loaded(p, l, existing, attempt).pc.Enter?
    ensures Loaded(p, l, existing, attempt).ex == l.ex
  {
    hide LoopHead, RebuildBindings, PreconditionsHold, SoloPc;
    var resumed := l.ex.cursor > 0 && |existing| > 0;
    var base := InputBindings(l.ex.req.inputs);
    var b := if resumed then RebuildBindings(p.spec, existing, base, |p.spec.steps|) else base;
    var l' := l.(bindings := b, sequence := if resumed then |existing| else 0);
    SoloHead(p, l', if attempt > 0 then attempt else 1, rows);
    assert SoloPc(p, l'.(pc := Finish(ExecFailed, "PRECONDITION_FAILED", None)), rows) by {
      FinishIsSolo(p, l', "PRECONDITION_FAILED", rows);
    }
  }

  lemma FinishIsSolo(p: Program, l: Worker, code: string, rows: Rows)
    ensures SoloPc(p, l.(pc := Finish(ExecFailed, code, None)), rows)
  {
  }

  lemma SoloFinds(rows: Rows, id: nat)
    requires Numbered(rows) && id < |rows|
    ensures FindRow(rows, id) == id
  {
    assert rows[id].id == id;
  }

  lemma SoloPuts(p: Program, req: Request, s: Sys, now: int, reply: Reply)
    requires Solo(p, req, s) && NextAccess(s.workers[0]).PutExecution?
    ensures Solo(p, req, WorkStep(p, s, 0, now, reply))
  {
    var l := s.workers[0];
    var ex := RuntimeProtocol.TouchLease(p, l.owner, NextAccess(l).ex, now);
    assert ex.epoch == s.cell.ex.epoch;
    SoloHead(p, l.(ex := ex), 1, s.cell.rows);
    hide LoopHead;
  }

  lemma SoloAdds(p: Program, req: Request, s: Sys, now: int, reply: Reply)
    requires Solo(p, req, s) && NextAccess(s.workers[0]).AddRow?
    ensures Solo(p, req, WorkStep(p, s, 0, now, reply))
  {
  }

  lemma SoloRewrites(p: Program, req: Request, s: Sys, now: int, reply: Reply)
    requires Solo(p, req, s) && NextAccess(s.workers[0]).PutRow?
    ensures Solo(p, req, WorkStep(p, s, 0, now, reply))
  {
    SoloFinds(s.cell.rows, NextAccess(s.workers[0]).row.id);
  }

  lemma SoloHears(p: Program, req: Request, s: Sys, now: int, reply: Reply)
    requires Solo(p, req, s) && NextAccess(s.workers[0]).AwaitTool?
    ensures Solo(p, req, WorkStep(p, s, 0, now, reply))
  {
  }

  lemma SoloNext(p: Program, req: Request, s: Sys, now: int, reply: Reply)
    requires Solo(p, req, s)
    ensures Solo(p, req, WorkStep(p, s, 0, now, reply))
  {
    var l := s.workers[0];
    match NextAccess(l)
    case PutExecution(_) => SoloPuts(p, req, s, now, reply);
    case AddRow(_) => SoloAdds(p, req, s, now, reply);
    case PutRow(_) => SoloRewrites(p, req, s, now, reply);
    case AwaitTool(_) => SoloHears(p, req, s, now, reply);
    case ListSteps => SoloLoads(p, l, s.cell.rows, l.pc.attempt, s.cell.rows);
    case _ =>
  }

  /** The only worker of a fresh execution can return only because it finished. */
  lemma {:induction false} SoloRun(p: Program, ex: Execution, owner: string, history: seq<Action>)
    requires FreshExecution(ex) && ByWorker(history, 0)
    ensures Solo(p, ex.req, Exec(p, Initial(ex, owner), history))
  {
    hide WorkStep;
    if history != [] {
      var n := |history| - 1;
      SoloRun(p, ex, owner, history[..n]);
      SoloNext(p, ex.req, Exec(p, Initial(ex, owner), history[..n]), history[n].now, history[n].reply);
    }
  }
}
