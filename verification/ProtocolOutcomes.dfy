/** Where a run of the protocol can go: an ambiguous attempt of a tool without idempotency
    blocks its execution for good, a closed execution stays as it is, and a worker that
    finishes leaves its execution closed. */
module ProtocolOutcomes {
  import opened ExecutionLedger
  import opened LedgerLemmas
  import opened ProtocolInvariant
  import opened ProtocolPreservation
  import opened ProtocolTheorems
  import opened RuntimeProtocol
  import opened SkillSpec
  import opened Wrappers

  // ---------------------------------------------------------------- ambiguity without idempotency

  /** The step at the cursor may or may not have taken effect, and its tool can neither be
      called twice nor be asked. */
  predicate AmbiguousAtCursor(p: Program, cursor: nat, rows: Rows) {
    && cursor < StepLimit(p.spec)
    && ToolCapability(p, p.spec.steps[cursor].tool).NoIdempotency?
    && var last := CursorRow(p, cursor, rows);
       last.Some? && (last.value.status.StepRunning? || last.value.status.StepUnknownOutcome?)
  }

  /** Only relabelled: the same rows, except that RUNNING ones may have become UNKNOWN_OUTCOME. */
  predicate OnlyRelabelled(rows: Rows, rows': Rows) {
    && |rows'| == |rows|
    && forall j | 0 <= j < |rows| ::
         || rows'[j] == rows[j]
         || (rows[j].status.StepRunning? &&
             rows'[j] == rows[j].(status := StepUnknownOutcome, errorCode := "UNKNOWN_OUTCOME", epoch := rows'[j].epoch))
  }

  predicate GivesUp(pc: Pc) {
    || pc.ReadExecution? || pc.ReadLedger? || pc.Relabel?
    || (pc.Finish? && pc.status.ExecNeedsReconciliation?)
  }

  /** s came from s0 without a new attempt, and its lease holder is giving up. */
  predicate Blocked(p: Program, s0: Sys, s: Sys) {
    && |s.workers| > 0
    && AmbiguousAtCursor(p, s.cell.ex.cursor, s.cell.rows)
    && s.cell.ex.cursor == s0.cell.ex.cursor
    && OnlyRelabelled(s0.cell.rows, s.cell.rows)
    && s.h.starts == s0.h.starts
    && (s.cell.ex.status.ExecNeedsReconciliation? || (s.cell.ex.status.ExecRunning? && GivesUp(Holder(s).pc)))
  }

  ghost predicate Stuck(p: Program, s0: Sys, s: Sys) {
    Inv(p, s) && Blocked(p, s0, s)
  }

  /** Recovery of an ambiguous step without idempotency only relabels and then gives up. */
  lemma PlanGivesUp(p: Program, c: Cell, nextId: nat, h: History, l: Worker)
    requires StoreInv(p, c, nextId, h) && CoreRecord(l.ex) == c.ex && AmbiguousAtCursor(p, c.ex.cursor, c.rows)
    requires forall j | 0 <= j < |c.rows| :: !c.rows[j].status.StepRunning?
    ensures Planned(p, l, c.rows).pc == Finish(ExecNeedsReconciliation, "NEEDS_RECONCILIATION", None)
  {
    LatestIsLast(c.rows, p.spec.steps[c.ex.cursor].id);
  }

  lemma StuckComputes(p: Program, s0: Sys, s: Sys, w: nat)
    requires Holds(p, s, w) && Stuck(p, s0, s) && NextAccess(s.workers[w]).Compute?
    ensures Stuck(p, s0, s.(workers := s.workers[w := AfterCompute(p, s.workers[w])]))
  {
    HolderComputes(p, s, w);
    HolderEpoch(p, s, w);
    var l := s.workers[w];
    if l.pc.k >= |l.pc.existing| {
      PlanGivesUp(p, Core(s.cell), s.nextId, s.h, l);
    }
  }

  lemma StuckRelabels(p: Program, s0: Sys, s: Sys, w: nat)
    requires DistinctStepIds(p.spec) && Holds(p, s, w) && Stuck(p, s0, s) && NextAccess(s.workers[w]).PutRow?
    requires 0 <= Target(p, Core(s.cell), s.workers[w]) < |s.cell.rows|
    ensures Stuck(p, s0, WithRewrite(p, s, w, Target(p, Core(s.cell), s.workers[w]),
                                     NextAccess(s.workers[w]).row.(epoch := s.cell.ex.epoch)))
  {
    HolderRewrites(p, s, w);
    HolderEpoch(p, s, w);
    StaysAmbiguous(p, s0.cell.rows, Core(s.cell), s.workers[w].pc.k);
  }

  function Relabelled(c: Cell, k: nat): StepExecution
    requires k < |c.rows|
  {
    c.rows[k].(status := StepUnknownOutcome, errorCode := "UNKNOWN_OUTCOME", epoch := c.ex.epoch)
  }

  lemma StaysAmbiguous(p: Program, rows0: Rows, c: Cell, k: nat)
    requires AmbiguousAtCursor(p, c.ex.cursor, c.rows) && k < |c.rows| && c.rows[k].status.StepRunning? && OnlyRelabelled(rows0, c.rows)
    ensures var c' := c.(rows := c.rows[k := Relabelled(c, k)]);
            AmbiguousAtCursor(p, c'.ex.cursor, c'.rows) && OnlyRelabelled(rows0, c'.rows)
  {
    var row := Relabelled(c, k);
    RewriteLast(c, c.(rows := c.rows[k := row]), k, row, p.spec.steps[c.ex.cursor].id);
  }

  lemma StuckHolder(p: Program, s0: Sys, s: Sys, w: nat, now: int, reply: Reply)
    requires DistinctStepIds(p.spec) && Holds(p, s, w) && Stuck(p, s0, s)
    ensures Stuck(p, s0, WorkStep(p, s, w, now, reply))
  {
    hide AmbiguousAtCursor, OnlyRelabelled;
    var l := s.workers[w];
    match NextAccess(l)
    case Compute => StuckComputes(p, s0, s, w);
    case ListSteps => HolderLists(p, s, w);
    case PutExecution(_) => RecordAccepted(p, s, w, now, reply); HolderPuts(p, s, w, now); HolderEpoch(p, s, w);
    case PutRow(_) => RewriteAccepted(p, s, w, now, reply); StuckRelabels(p, s0, s, w);
    case _ =>
  }

  lemma StuckReads(p: Program, s0: Sys, s: Sys, a: Action)
    requires Stuck(p, s0, s) && a.Work? && a.w < |s.workers| && s.workers[a.w].pc.ReadExecution? && ReadsOwnEpoch(s, a)
    ensures Stuck(p, s0, Next(p, s, a))
  {
    ReadKeeps(p, s, a);
    assert WorkerInv(s.h, s.cell.rows, a.w, s.workers[a.w]);
  }

  lemma StuckLeases(p: Program, s0: Sys, s: Sys, a: Action)
    requires Stuck(p, s0, s) && !a.Work?
    ensures Stuck(p, s0, Next(p, s, a))
  {
    LeasesBlocked(p, s0, s, a);
    hide Inv, Blocked, Next;
    if a.Claim? {
      ClaimKeeps(p, s, a);
    } else {
      RenewKeeps(p, s, a);
    }
  }

  lemma LeasesBlocked(p: Program, s0: Sys, s: Sys, a: Action)
    requires Blocked(p, s0, s) && !a.Work?
    ensures Blocked(p, s0, Next(p, s, a))
  {
    hide AmbiguousAtCursor;
  }

  lemma StuckOutsider(p: Program, s0: Sys, s: Sys, a: Action)
    requires Stuck(p, s0, s) && a.Work? && a.w < |s.workers| && !s.workers[a.w].pc.ReadExecution?
    requires a.w < |s.workers| - 1 || !Open(s.cell.ex.status)
    ensures Stuck(p, s0, Next(p, s, a))
  {
    OutsiderKeeps(p, s, a);
    BlockedFrame(p, s0, s, Next(p, s, a), a.w);
  }

  lemma BlockedFrame(p: Program, s0: Sys, s: Sys, s': Sys, w: nat)
    requires |s.workers| == |s'.workers| > 0 && Blocked(p, s0, s) && s'.cell == s.cell && s'.h.starts == s.h.starts
    requires w < |s.workers| && s'.workers == s.workers[w := s'.workers[w]]
    requires w < |s.workers| - 1 || !Open(s.cell.ex.status)
    ensures Blocked(p, s0, s')
  {
  }

  lemma StuckNext(p: Program, s0: Sys, s: Sys, a: Action)
    requires DistinctStepIds(p.spec) && Stuck(p, s0, s) && ReadsOwnEpoch(s, a)
    ensures Stuck(p, s0, Next(p, s, a))
  {
    match a
    case Claim(_, _, _, _) => StuckLeases(p, s0, s, a);
    case Renew(_, _, _) => StuckLeases(p, s0, s, a);
    case Work(w, now, reply) =>
      if w < |s.workers| {
        if s.workers[w].pc.ReadExecution? {
          StuckReads(p, s0, s, a);
        } else if w < |s.workers| - 1 || !Open(s.cell.ex.status) {
          StuckOutsider(p, s0, s, a);
        } else {
          StuckHolder(p, s0, s, w, now, reply);
        }
      }
  }

  lemma {:induction false} StuckRun(p: Program, s0: Sys, s: Sys, more: seq<Action>)
    requires DistinctStepIds(p.spec) && Stuck(p, s0, s) && OwnEpochs(p, s, more)
    ensures Stuck(p, s0, Exec(p, s, more))
  {
    if more != [] {
      OwnEpochsPrefix(p, s, more);
      StuckRun(p, s0, s, more[..|more| - 1]);
      StuckNext(p, s0, Exec(p, s, more[..|more| - 1]), more[|more| - 1]);
    }
  }

  /** If at a claim the last row of the cursor step is RUNNING or UNKNOWN_OUTCOME and its tool has
      no idempotency, then however the run goes on no row is added or set RUNNING, the cursor stays,
      and the execution can end only as NEEDS_RECONCILIATION. */
  lemma AmbiguityIsNeverRetried(p: Program, ex: Execution, owner: string, history: seq<Action>, claim: Action, more: seq<Action>)
    requires Genuine(p, ex, owner, history) && claim.Claim?
    requires var s := After(p, ex, owner, history);
             && AmbiguousAtCursor(p, s.cell.ex.cursor, s.cell.rows)
             && ClaimExecutionLease(s.cell, claim.owner, claim.until, claim.now).Some?
             && OwnEpochs(p, Next(p, s, claim), more)
    ensures var s := After(p, ex, owner, history);
            var s' := Exec(p, Next(p, s, claim), more);
            && s'.cell.ex.cursor == s.cell.ex.cursor
            && OnlyRelabelled(s.cell.rows, s'.cell.rows)
            && s'.h.starts == s.h.starts
            && (s'.cell.ex.status.ExecRunning? || s'.cell.ex.status.ExecNeedsReconciliation?)
  {
    Reached(p, ex, owner, history);
    var s := After(p, ex, owner, history);
    ClaimKeeps(p, s, claim);
    StuckRun(p, s, Next(p, s, claim), more);
  }

  // ---------------------------------------------------------------- closed executions

  /** Nothing a worker, a claim or a renewal does changes a closed execution; only the lease
      fields can still move. No assumption on the history is needed. */
  lemma ClosedNext(p: Program, s: Sys, a: Action)
    requires !Open(s.cell.ex.status)
    ensures Core(Next(p, s, a).cell) == Core(s.cell)
  {
  }

  lemma {:induction false} ClosedIsAbsorbing(p: Program, s: Sys, more: seq<Action>)
    requires !Open(s.cell.ex.status)
    ensures Core(Exec(p, s, more).cell) == Core(s.cell)
  {
    if more != [] {
      ClosedIsAbsorbing(p, s, more[..|more| - 1]);
      ClosedNext(p, Exec(p, s, more[..|more| - 1]), more[|more| - 1]);
    }
  }

  predicate FinishedOrObserved(l: Worker) {
    l.pc.Done? && (l.pc.result.Finished? || l.pc.result.Observed?)
  }

  /** A worker that returned without a stale-lease error left the execution closed. */
  ghost predicate ReturnsClosed(s: Sys) {
    (exists w :: 0 <= w < |s.workers| && FinishedOrObserved(s.workers[w])) ==> !Open(s.cell.ex.status)
  }

  lemma ReturnsClosedNext(p: Program, s: Sys, a: Action)
    requires DistinctStepIds(p.spec) && Inv(p, s) && ReadsOwnEpoch(s, a) && ReturnsClosed(s)
    ensures ReturnsClosed(Next(p, s, a))
  {
    hide Next;
    var s' := Next(p, s, a);
    if !Open(s.cell.ex.status) {
      ClosedNext(p, s, a);
    } else if Open(s'.cell.ex.status) {
      OthersStay(p, s, a);
      if a.Work? && a.w < |s.workers| {
        NextKeeps(p, s, a);
        if a.w == |s.workers| - 1 {
          HolderNeverDone(p, s');
        } else {
          StaleNeverFinishes(p, s, a);
        }
      }
    }
  }

  /** Only the acting worker moves; a claim adds a worker that has done nothing yet. */
  lemma OthersStay(p: Program, s: Sys, a: Action)
    ensures var s' := Next(p, s, a);
            && |s.workers| <= |s'.workers|
            && (forall w | 0 <= w < |s.workers| && !(a.Work? && a.w == w) :: s'.workers[w] == s.workers[w])
            && (forall w | |s.workers| <= w < |s'.workers| :: s'.workers[w].pc.ReadExecution?)
            && (a.Work? ==> |s'.workers| == |s.workers|)
  {
  }

  lemma HolderNeverDone(p: Program, s: Sys)
    requires Inv(p, s) && Open(s.cell.ex.status)
    ensures !FinishedOrObserved(Holder(s))
  {
    assert HolderInv(p, Core(s.cell), s.h, Holder(s));
  }

  lemma StaleNeverFinishes(p: Program, s: Sys, a: Action)
    requires Inv(p, s) && Open(s.cell.ex.status) && ReadsOwnEpoch(s, a)
    requires a.Work? && a.w < |s.workers| - 1 && !FinishedOrObserved(s.workers[a.w])
    ensures !FinishedOrObserved(Next(p, s, a).workers[a.w])
  {
    assert WorkerInv(s.h, s.cell.rows, a.w, s.workers[a.w]);
    StaleStaysUnfinished(p, s, a.w, a.now, a.reply);
  }

  lemma StaleStaysUnfinished(p: Program, s: Sys, w: nat, now: int, reply: Reply)
    requires w < |s.workers| && !s.workers[w].pc.ReadExecution? && s.workers[w].ex.epoch != s.cell.ex.epoch
    requires !FinishedOrObserved(s.workers[w])
    ensures !FinishedOrObserved(WorkStep(p, s, w, now, reply).workers[w])
  {
    var l := s.workers[w];
    if l.pc.Await? {
      HearAccepted(p, s, w, now, reply);
    } else if !l.pc.Invoke? && !l.pc.AskReconcile? {
      OutsiderQuiet(p, s, w, now, reply);
    }
  }

  lemma {:induction false} ReturnsClosedRun(p: Program, s: Sys, history: seq<Action>)
    requires DistinctStepIds(p.spec) && Inv(p, s) && OwnEpochs(p, s, history) && ReturnsClosed(s)
    ensures ReturnsClosed(Exec(p, s, history))
  {
    if history != [] {
      var front := history[..|history| - 1];
      OwnEpochsPrefix(p, s, history);
      ReturnsClosedRun(p, s, front);
      ExecKeeps(p, s, front);
      ReturnsClosedNext(p, Exec(p, s, front), history[|history| - 1]);
    }
  }

  /** Whoever returns without a stale-lease error, after any history, leaves the execution in a
      terminal status, and nobody changes it any more. */
  lemma ReturningWorkerLeavesItClosed(p: Program, ex: Execution, owner: string, history: seq<Action>, w: nat, more: seq<Action>)
    requires Genuine(p, ex, owner, history)
    requires var s := After(p, ex, owner, history); w < |s.workers| && FinishedOrObserved(s.workers[w])
    ensures var s := After(p, ex, owner, history);
            !Open(s.cell.ex.status) && Core(Exec(p, s, more).cell) == Core(s.cell)
  {
    InitialInv(p, ex, owner);
    ReturnsClosedRun(p, Initial(ex, owner), history);
    ClosedIsAbsorbing(p, After(p, ex, owner, history), more);
  }

  // ---------------------------------------------------------------- a worker that keeps writing

  /** The store accepts this action's write of the execution's record. */
  predicate WritesRecord(s: Sys, a: Action) {
    && a.Work? && a.w < |s.workers| && NextAccess(s.workers[a.w]).PutExecution?
    && s.workers[a.w].ex.epoch == s.cell.ex.epoch && Open(s.cell.ex.status)
  }

  /** The action writes the lease. */
  predicate WritesLease(s: Sys, a: Action) {
    match a
    case Claim(owner, _, until, now) => ClaimExecutionLease(s.cell, owner, until, now).Some?
    case Renew(owner, epoch, until) => RenewLease(s.cell, owner, epoch, until).Some?
    case Work(_, _, _) => WritesRecord(s, a)
  }

  ghost predicate NoLeaseWritten(p: Program, s: Sys, more: seq<Action>) {
    forall i | 0 <= i < |more| :: !WritesLease(Exec(p, s, more[..i]), more[i])
  }

  /** Whose lease it is after worker l wrote the record with this lease in it. */
  function OwnerAfter(l: Worker, lease: Lease): string {
    if l.owner != "" then l.owner else if lease.owner == "" then "runtime" else lease.owner
  }

  /** Each write of the record leaves a lease of the writer that runs for the full time from the write. */
  lemma WriteRenewsLease(p: Program, s: Sys, a: Action)
    requires WritesRecord(s, a)
    ensures Next(p, s, a).cell.ex.lease == Lease(OwnerAfter(s.workers[a.w], NextAccess(s.workers[a.w]).ex.lease), Some(a.now + p.ttl))
  {
    hide AfterPutExecution;
  }

  lemma LeaseUntouched(p: Program, s: Sys, a: Action)
    requires !WritesLease(s, a)
    ensures Next(p, s, a).cell.ex.lease == s.cell.ex.lease
  {
    hide AfterPutExecution, AfterPutRow, AfterAddRow, AfterReply, AfterList, AfterGet, AfterCompute;
  }

  lemma {:induction false} LeaseStays(p: Program, s: Sys, more: seq<Action>)
    requires NoLeaseWritten(p, s, more)
    ensures Exec(p, s, more).cell.ex.lease == s.cell.ex.lease
  {
    hide Next, WritesLease;
    if more != [] {
      var n := |more| - 1;
      var front := more[..n];
      forall i | 0 <= i < |front| ensures !WritesLease(Exec(p, s, front[..i]), front[i]) {
        assert front[..i] == more[..i];
        assert !WritesLease(Exec(p, s, more[..i]), more[i]);
      }
      LeaseStays(p, s, front);
      assert !WritesLease(Exec(p, s, more[..n]), more[n]);
      LeaseUntouched(p, Exec(p, s, front), more[n]);
    }
  }

  /** A worker that wrote the record last keeps every other owner's claim out until its lease is over. */
  lemma WriterKeepsOthersOut(p: Program, s: Sys, a: Action, more: seq<Action>, claim: Action)
    requires WritesRecord(s, a) && NoLeaseWritten(p, Next(p, s, a), more)
    requires claim.Claim?
    requires ClaimExecutionLease(Exec(p, Next(p, s, a), more).cell, claim.owner, claim.until, claim.now).Some?
    ensures || claim.now >= a.now + p.ttl
            || claim.owner == OwnerAfter(s.workers[a.w], NextAccess(s.workers[a.w]).ex.lease)
  {
    WriteRenewsLease(p, s, a);
    LeaseStays(p, Next(p, s, a), more);
    hide Next, Exec;
  }
}
