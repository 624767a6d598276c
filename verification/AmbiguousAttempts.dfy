/** An ambiguous attempt of a tool whose provider can be asked: after a claim, its step goes on only
    by an answer that the provider gave after that claim. */
module AmbiguousAttempts {
  import opened ExecutionLedger
  import opened LedgerLemmas
  import opened ProtocolInvariant
  import opened ProtocolPreservation
  import opened ProtocolTheorems
  import opened RuntimeProtocol
  import opened SkillSpec
  import opened Wrappers

  /** It may or may not have taken effect. */
  predicate Doubtful(row: StepExecution) {
    row.status.StepRunning? || row.status.StepUnknownOutcome?
  }

  /** Row j of step `cursor`, with this id, when `asked` provider answers and these RUNNING marks had
      been given. */
  datatype Doubt = Doubt(cursor: nat, j: nat, id: nat, asked: nat, starts: seq<nat>)

  /** The row is where it was, and its provider can be asked. */
  predicate Located(p: Program, d: Doubt, rows: Rows) {
    && d.cursor < StepLimit(p.spec)
    && ToolCapability(p, p.spec.steps[d.cursor].tool).QueryReconcile?
    && d.j < |rows| && rows[d.j].id == d.id && rows[d.j].stepId == p.spec.steps[d.cursor].id
  }

  /** The provider gave this answer about the row since. */
  ghost predicate Answered(d: Doubt, h: History, answer: Recon) {
    exists i :: d.asked <= i < |h.recons| && h.recons[i] == (d.id, answer)
  }

  /** The step has an attempt after the row. */
  predicate Further(rows: Rows, j: nat)
    requires j < |rows|
  {
    exists k :: j < k < |rows| && rows[k].stepId == rows[j].stepId
  }

  /** The row is still in doubt, or was confirmed by an answer since. */
  ghost predicate RowKnown(d: Doubt, h: History, row: StepExecution) {
    Doubtful(row) || (row.status.StepSucceeded? && Answered(d, h, Applied(row.output)))
  }

  /** The lease holder acts on the step only by an answer since. */
  ghost predicate PcKnown(d: Doubt, h: History, pc: Pc) {
    match pc
    case ConfirmApplied(row) => Answered(d, h, Applied(row.output))
    case Checkpoint(_, _) => Answered(d, h, NotApplied)
    case Enter(_) => Answered(d, h, NotApplied)
    case Load(_) => Answered(d, h, NotApplied)
    case CreateSkip(_) => Answered(d, h, NotApplied)
    case CreateBroken(_) => Answered(d, h, NotApplied)
    case CreateAttempt(_) => Answered(d, h, NotApplied)
    case Invoke(_, _) => false
    case Await(_, _) => false
    case Record(_, _) => false
    case _ => true
  }

  /** The row is the step's last attempt and still in doubt. */
  predicate Pending(d: Doubt, rows: Rows) {
    d.j < |rows| && Doubtful(rows[d.j]) && !Further(rows, d.j)
  }

  ghost predicate Waits(p: Program, d: Doubt, s: Sys) {
    && |s.workers| > 0 && d.asked <= |s.h.recons|
    && Located(p, d, s.cell.rows) && RowKnown(d, s.h, s.cell.rows[d.j])
    && (Further(s.cell.rows, d.j) ==> Answered(d, s.h, NotApplied))
    && (Pending(d, s.cell.rows) ==> s.h.starts == d.starts)
    && (Pending(d, s.cell.rows) && Open(s.cell.ex.status) ==> PcKnown(d, s.h, Holder(s).pc))
  }

  lemma AnswersStay(d: Doubt, h: History, h': History)
    requires h.recons <= h'.recons
    ensures forall answer | Answered(d, h, answer) :: Answered(d, h', answer)
    ensures forall row | RowKnown(d, h, row) :: RowKnown(d, h', row)
    ensures forall pc | PcKnown(d, h, pc) :: PcKnown(d, h', pc)
  {
    forall answer | Answered(d, h, answer) ensures Answered(d, h', answer) {
      var i :| d.asked <= i < |h.recons| && h.recons[i] == (d.id, answer);
      assert h'.recons[i] == h.recons[i];
    }
  }

  /** A row in doubt that is its step's last attempt is the row at the cursor. */
  lemma PendingAtCursor(p: Program, d: Doubt, s: Sys)
    requires Inv(p, s) && Located(p, d, s.cell.rows) && Pending(d, s.cell.rows)
    ensures s.cell.ex.cursor == d.cursor && CursorRow(p, d.cursor, s.cell.rows) == Some(s.cell.rows[d.j])
    ensures LastIndex(s.cell.rows, p.spec.steps[d.cursor].id) == d.j
    ensures s.cell.ex.status.ExecRunning? || s.cell.ex.status.ExecNeedsReconciliation?
  {
    PendingCell(p, d, Core(s.cell), s.nextId, s.h);
  }

  lemma PendingCell(p: Program, d: Doubt, c: Cell, nextId: nat, h: History)
    requires StoreInv(p, c, nextId, h) && Located(p, d, c.rows) && Pending(d, c.rows)
    ensures c.ex.cursor == d.cursor && CursorRow(p, d.cursor, c.rows) == Some(c.rows[d.j])
    ensures LastIndex(c.rows, p.spec.steps[d.cursor].id) == d.j
    ensures c.ex.status.ExecRunning? || c.ex.status.ExecNeedsReconciliation?
  {
    LastIndexIs(c.rows, p.spec.steps[d.cursor].id, d.j);
    assert RowFact(p, h, c.ex.req, BindingsBefore(p, c.ex.req, c.rows, d.cursor), p.spec.steps[d.cursor], c.rows[d.j]);
    assert c.ex.cursor > d.cursor ==> Settled(p.spec.steps[d.cursor], c.rows);
  }

  /** Recovery asks the provider about it. */
  lemma PlanAsks(p: Program, d: Doubt, s: Sys, l: Worker)
    requires Inv(p, s) && Located(p, d, s.cell.rows) && Pending(d, s.cell.rows) && CoreRecord(l.ex) == Core(s.cell).ex
    ensures Planned(p, l, s.cell.rows).pc == AskReconcile(s.cell.rows[d.j])
  {
    PendingAtCursor(p, d, s);
    LatestIsLast(s.cell.rows, p.spec.steps[d.cursor].id);
  }

  /** The ledger is as it was. */
  lemma WaitsSameRows(p: Program, d: Doubt, s: Sys, s': Sys)
    requires Waits(p, d, s) && s'.cell.rows == s.cell.rows && s.h.recons <= s'.h.recons && |s'.workers| > 0
    requires Pending(d, s.cell.rows) ==> s'.h.starts == s.h.starts
    requires Pending(d, s.cell.rows) && Open(s'.cell.ex.status) ==> PcKnown(d, s'.h, Holder(s').pc)
    ensures Waits(p, d, s')
  {
    hide PcKnown, RowKnown;
    AnswersStay(d, s.h, s'.h);
  }

  lemma WaitsLeases(p: Program, d: Doubt, s: Sys, a: Action)
    requires Waits(p, d, s) && !a.Work?
    ensures Waits(p, d, Next(p, s, a))
  {
    WaitsSameRows(p, d, s, Next(p, s, a));
  }

  lemma WaitsReads(p: Program, d: Doubt, s: Sys, a: Action)
    requires Inv(p, s) && Waits(p, d, s) && ReadsOwnEpoch(s, a)
    requires a.Work? && a.w < |s.workers| && s.workers[a.w].pc.ReadExecution?
    ensures Waits(p, d, Next(p, s, a))
  {
    assert WorkerInv(s.h, s.cell.rows, a.w, s.workers[a.w]);
    WaitsSameRows(p, d, s, Next(p, s, a));
  }

  lemma WaitsOutsider(p: Program, d: Doubt, s: Sys, a: Action)
    requires Inv(p, s) && Waits(p, d, s) && a.Work? && a.w < |s.workers| && !s.workers[a.w].pc.ReadExecution?
    requires a.w < |s.workers| - 1 || !Open(s.cell.ex.status)
    ensures Waits(p, d, Next(p, s, a))
  {
    hide Inv, Waits;
    OutsiderKeeps(p, s, a);
    WaitsOutside(p, d, s, Next(p, s, a), a.w);
  }

  lemma WaitsOutside(p: Program, d: Doubt, s: Sys, s': Sys, w: nat)
    requires Waits(p, d, s) && w < |s.workers| && (w < |s.workers| - 1 || !Open(s.cell.ex.status)) && OutsiderChange(s, s', w)
    ensures Waits(p, d, s')
  {
    AnswersStay(d, s.h, s'.h);
    hide PcKnown, HistoryInv;
    WaitsSameRows(p, d, s, s');
  }

  lemma WaitsComputes(p: Program, d: Doubt, s: Sys, w: nat)
    requires Holds(p, s, w) && Waits(p, d, s) && NextAccess(s.workers[w]).Compute?
    ensures Waits(p, d, s.(workers := s.workers[w := AfterCompute(p, s.workers[w])]))
  {
    HolderEpoch(p, s, w);
    var l := s.workers[w];
    if l.pc.k >= |l.pc.existing| && Pending(d, s.cell.rows) {
      PlanAsks(p, d, s, l);
    }
    WaitsSameRows(p, d, s, s.(workers := s.workers[w := AfterCompute(p, s.workers[w])]));
  }

  lemma WaitsLists(p: Program, d: Doubt, s: Sys, w: nat)
    requires Holds(p, s, w) && Waits(p, d, s) && NextAccess(s.workers[w]).ListSteps?
    ensures Waits(p, d, s.(workers := s.workers[w := AfterList(p, s.workers[w], s.cell.rows)]))
  {
    hide Answered, Located, Doubtful;
    LoadedPc(p, s.workers[w], s.cell.rows);
    WaitsSameRows(p, d, s, s.(workers := s.workers[w := AfterList(p, s.workers[w], s.cell.rows)]));
  }

  lemma LoadedPc(p: Program, l: Worker, rows: Rows)
    ensures var pc := AfterList(p, l, rows).pc;
            if l.pc.Load? then pc.Finish? || pc.CreateSkip? || pc.CreateBroken? || pc.CreateAttempt? else pc.Relabel?
  {
  }

  lemma WaitsPuts(p: Program, d: Doubt, s: Sys, w: nat, now: int)
    requires Holds(p, s, w) && Waits(p, d, s) && NextAccess(s.workers[w]).PutExecution?
    ensures Waits(p, d, WithRecord(p, s, w, now, NextAccess(s.workers[w]).ex))
  {
    var l := s.workers[w];
    HolderEpoch(p, s, w);
    if Pending(d, s.cell.rows) {
      PendingAtCursor(p, d, s);
      NotSettled(p, d, Core(s.cell), s.h, l);
    }
    hide Inv, HolderInv, LoopHead;
    WaitsSameRows(p, d, s, WithRecord(p, s, w, now, NextAccess(l).ex));
  }

  lemma NotSettled(p: Program, d: Doubt, c: Cell, h: History, l: Worker)
    requires HolderInv(p, c, h, l) && c.ex.cursor == d.cursor < StepLimit(p.spec)
    requires d.j < |c.rows| && CursorRow(p, d.cursor, c.rows) == Some(c.rows[d.j]) && Doubtful(c.rows[d.j])
    ensures !l.pc.Advance? && !l.pc.Start? && !l.pc.PendCheckpoint?
    ensures l.pc.AskReconcile? ==> l.pc.row == c.rows[d.j]
  {
  }

  lemma WaitsAsks(p: Program, d: Doubt, s: Sys, w: nat, answer: Recon)
    requires Holds(p, s, w) && Waits(p, d, s) && s.workers[w].pc.AskReconcile?
    ensures var l := s.workers[w];
            Waits(p, d, s.(h := s.h.(recons := s.h.recons + [(l.pc.row.id, answer)]),
                           workers := s.workers[w := l.(pc := Reconciled(l, l.pc.row, answer))]))
  {
    var l := s.workers[w];
    var s' := s.(h := s.h.(recons := s.h.recons + [(l.pc.row.id, answer)]),
                 workers := s.workers[w := l.(pc := Reconciled(l, l.pc.row, answer))]);
    HolderEpoch(p, s, w);
    if Pending(d, s.cell.rows) {
      PendingAtCursor(p, d, s);
      NotSettled(p, d, Core(s.cell), s.h, l);
      assert s'.h.recons[|s.h.recons|] == (d.id, answer);
      assert Answered(d, s'.h, answer);
    }
    WaitsSameRows(p, d, s, s');
  }

  lemma FurtherAppends(rows: Rows, row: StepExecution, j: nat)
    requires j < |rows|
    ensures Further(rows + [row], j) <==> Further(rows, j) || row.stepId == rows[j].stepId
  {
    var rows' := rows + [row];
    if Further(rows, j) {
      var k :| j < k < |rows| && rows[k].stepId == rows[j].stepId;
      assert rows'[k].stepId == rows'[j].stepId;
    }
    if row.stepId == rows[j].stepId {
      assert rows'[|rows|].stepId == rows'[j].stepId;
    }
  }

  lemma WaitsAdds(p: Program, d: Doubt, s: Sys, w: nat)
    requires DistinctStepIds(p.spec) && Holds(p, s, w) && Waits(p, d, s) && NextAccess(s.workers[w]).AddRow?
    ensures Waits(p, d, WithRow(p, s, w, StoredRow(s, NextAccess(s.workers[w]).row)))
  {
    var l := s.workers[w];
    var row := StoredRow(s, NextAccess(l).row);
    var s' := WithRow(p, s, w, row);
    AddStays(p, s, w, d);
    FurtherAppends(s.cell.rows, row, d.j);
  }

  lemma AddStays(p: Program, s: Sys, w: nat, d: Doubt)
    requires DistinctStepIds(p.spec) && Holds(p, s, w) && NextAccess(s.workers[w]).AddRow? && d.j < |s.cell.rows|
    ensures var s' := WithRow(p, s, w, StoredRow(s, NextAccess(s.workers[w]).row));
            Further(s'.cell.rows, d.j) ==> !s.cell.rows[d.j].status.StepSucceeded?
  {
    HolderAdds(p, s, w);
    var s' := WithRow(p, s, w, StoredRow(s, NextAccess(s.workers[w]).row));
    if Further(s'.cell.rows, d.j) {
      RetriedRow(p, Core(s'.cell), s'.nextId, s'.h, d.j);
    }
  }

  /** A row with a further attempt is not a success. */
  lemma RetriedRow(p: Program, c: Cell, nextId: nat, h: History, j: nat)
    requires StoreInv(p, c, nextId, h) && j < |c.rows| && Further(c.rows, j)
    ensures !c.rows[j].status.StepSucceeded?
  {
    assert MayRetryAfter(p, h, c.rows[j]);
  }

  lemma FurtherRewrites(rows: Rows, row: StepExecution, i: nat, j: nat)
    requires j < |rows| && i < |rows| && row.stepId == rows[i].stepId
    ensures Further(rows[i := row], j) <==> Further(rows, j)
  {
    var rows' := rows[i := row];
    if Further(rows, j) {
      var k :| j < k < |rows| && rows[k].stepId == rows[j].stepId;
      assert rows'[k].stepId == rows'[j].stepId;
    }
    if Further(rows', j) {
      var k :| j < k < |rows'| && rows'[k].stepId == rows'[j].stepId;
      assert rows[k].stepId == rows[j].stepId;
    }
  }

  lemma WaitsRewrites(p: Program, d: Doubt, s: Sys, w: nat)
    requires Holds(p, s, w) && Waits(p, d, s) && NextAccess(s.workers[w]).PutRow?
    requires 0 <= Target(p, Core(s.cell), s.workers[w]) < |s.cell.rows|
    ensures Waits(p, d, WithRewrite(p, s, w, Target(p, Core(s.cell), s.workers[w]),
                                    NextAccess(s.workers[w]).row.(epoch := s.cell.ex.epoch)))
  {
    var l := s.workers[w];
    var j := Target(p, Core(s.cell), l);
    HolderEpoch(p, s, w);
    TargetRow(p, Core(s.cell), s.h, l);
    FurtherRewrites(s.cell.rows, NextAccess(l).row.(epoch := s.cell.ex.epoch), j, d.j);
    RewriteKnown(p, d, Core(s.cell), s.nextId, s.h, l);
  }

  /** A write to the row confirms it by an answer since, or relabels it. */
  lemma RewriteKnown(p: Program, d: Doubt, c: Cell, nextId: nat, h: History, l: Worker)
    requires StoreInv(p, c, nextId, h) && HolderInv(p, c, h, l) && NextAccess(l).PutRow?
    requires Located(p, d, c.rows) && RowKnown(d, h, c.rows[d.j]) && (Pending(d, c.rows) ==> PcKnown(d, h, l.pc))
    ensures Target(p, c, l) == d.j ==> RowKnown(d, h, NextAccess(l).row) && NextAccess(l).row.id == d.id
    ensures Pending(d, c.rows) ==> l.pc.Relabel? || (l.pc.ConfirmApplied? && Target(p, c, l) == d.j)
  {
    if Pending(d, c.rows) {
      PendingCell(p, d, c, nextId, h);
      NotSettled(p, d, c, h, l);
    }
  }

  lemma WaitsHolder(p: Program, d: Doubt, s: Sys, w: nat, now: int, reply: Reply)
    requires DistinctStepIds(p.spec) && Holds(p, s, w) && Waits(p, d, s)
    ensures Waits(p, d, WorkStep(p, s, w, now, reply))
  {
    hide Inv, Waits;
    var l := s.workers[w];
    match NextAccess(l)
    case Compute => WaitsComputes(p, d, s, w);
    case ListSteps => WaitsLists(p, d, s, w);
    case PutExecution(_) => RecordAccepted(p, s, w, now, reply); WaitsPuts(p, d, s, w, now);
    case AddRow(_) => RowAccepted(p, s, w, now, reply); WaitsAdds(p, d, s, w);
    case PutRow(_) => RewriteAccepted(p, s, w, now, reply); WaitsRewrites(p, d, s, w);
    case QueryProvider(_) => if reply.ReconReply? { WaitsAsks(p, d, s, w, reply.recon); }
    case CallTool(_) => WaitsCalls(p, d, s, w, now, reply);
    case AwaitTool(_) => WaitsCalls(p, d, s, w, now, reply);
    case _ =>
  }

  /** No call is under way for a step that waits. */
  lemma WaitsCalls(p: Program, d: Doubt, s: Sys, w: nat, now: int, reply: Reply)
    requires Holds(p, s, w) && Waits(p, d, s) && (NextAccess(s.workers[w]).CallTool? || NextAccess(s.workers[w]).AwaitTool?)
    ensures Waits(p, d, WorkStep(p, s, w, now, reply))
  {
    CallsTouchNothing(p, s, w, now, reply);
    hide WorkStep;
    WaitsSameRows(p, d, s, WorkStep(p, s, w, now, reply));
  }

  lemma CallsTouchNothing(p: Program, s: Sys, w: nat, now: int, reply: Reply)
    requires w < |s.workers| && (NextAccess(s.workers[w]).CallTool? || NextAccess(s.workers[w]).AwaitTool?)
    ensures var s' := WorkStep(p, s, w, now, reply);
            s'.cell == s.cell && s'.h.recons == s.h.recons && s'.h.starts == s.h.starts && |s'.workers| == |s.workers|
  {
  }

  lemma WaitsNext(p: Program, d: Doubt, s: Sys, a: Action)
    requires DistinctStepIds(p.spec) && Inv(p, s) && Waits(p, d, s) && ReadsOwnEpoch(s, a)
    ensures Waits(p, d, Next(p, s, a))
  {
    hide Waits;
    match a
    case Claim(_, _, _, _) => WaitsLeases(p, d, s, a);
    case Renew(_, _, _) => WaitsLeases(p, d, s, a);
    case Work(w, now, reply) =>
      if w < |s.workers| {
        if s.workers[w].pc.ReadExecution? {
          WaitsReads(p, d, s, a);
        } else if w < |s.workers| - 1 || !Open(s.cell.ex.status) {
          WaitsOutsider(p, d, s, a);
        } else {
          WaitsHolder(p, d, s, w, now, reply);
        }
      }
  }

  lemma {:induction false} WaitsRun(p: Program, d: Doubt, s: Sys, more: seq<Action>)
    requires DistinctStepIds(p.spec) && Inv(p, s) && Waits(p, d, s) && OwnEpochs(p, s, more)
    ensures Inv(p, Exec(p, s, more)) && Waits(p, d, Exec(p, s, more))
  {
    hide Inv, Waits;
    ExecKeeps(p, s, more);
    if more != [] {
      var front := more[..|more| - 1];
      OwnEpochsPrefix(p, s, more);
      WaitsRun(p, d, s, front);
      assert more[..|front|] == front;
      assert ReadsOwnEpoch(Exec(p, s, more[..|front|]), more[|front|]);
      WaitsNext(p, d, Exec(p, s, front), more[|front|]);
    }
  }

  /** The last attempt of the step at the cursor is ambiguous, and its provider can be asked. */
  predicate Askable(p: Program, cursor: nat, rows: Rows) {
    && cursor < StepLimit(p.spec)
    && ToolCapability(p, p.spec.steps[cursor].tool).QueryReconcile?
    && LastIndex(rows, p.spec.steps[cursor].id) >= 0 && Doubtful(rows[LastIndex(rows, p.spec.steps[cursor].id)])
  }

  /** If at a claim the last attempt of the cursor step is RUNNING or UNKNOWN_OUTCOME and its provider
      can be asked, then however the run goes on: the step gets a further attempt only if the provider
      answered NOT_APPLIED about this one after the claim; this one is done only if the provider
      answered APPLIED after the claim, with exactly the output on the ledger, and only then does the
      cursor pass it without a further attempt; and while it is neither done nor superseded, no row
      is set RUNNING and the execution can end only as NEEDS_RECONCILIATION. */
  lemma AmbiguityIsAskedFirst(p: Program, ex: Execution, owner: string, history: seq<Action>, claim: Action, more: seq<Action>)
    requires Genuine(p, ex, owner, history) && claim.Claim?
    requires var s := After(p, ex, owner, history);
             && Askable(p, s.cell.ex.cursor, s.cell.rows)
             && ClaimExecutionLease(s.cell, claim.owner, claim.until, claim.now).Some?
             && OwnEpochs(p, Next(p, s, claim), more)
    ensures var s := After(p, ex, owner, history);
            var s' := Exec(p, Next(p, s, claim), more);
            var j := LastIndex(s.cell.rows, p.spec.steps[s.cell.ex.cursor].id);
            var id := s.cell.rows[j].id;
            && |s.h.recons| <= |s'.h.recons| && j < |s'.cell.rows| && s'.cell.rows[j].id == id
            && var since := s'.h.recons[|s.h.recons|..];
               && (Further(s'.cell.rows, j) ==> (id, NotApplied) in since)
               && (|| Doubtful(s'.cell.rows[j])
                   || (s'.cell.rows[j].status.StepSucceeded? && (id, Applied(s'.cell.rows[j].output)) in since))
               && (s'.cell.ex.cursor != s.cell.ex.cursor && !Further(s'.cell.rows, j) ==> s'.cell.rows[j].status.StepSucceeded?)
               && (Doubtful(s'.cell.rows[j]) && !Further(s'.cell.rows, j) ==>
                     && s'.h.starts == s.h.starts
                     && (s'.cell.ex.status.ExecRunning? || s'.cell.ex.status.ExecNeedsReconciliation?))
  {
    Reached(p, ex, owner, history);
    var s := After(p, ex, owner, history);
    var j := LastIndex(s.cell.rows, p.spec.steps[s.cell.ex.cursor].id);
    var d := Doubt(s.cell.ex.cursor, j, s.cell.rows[j].id, |s.h.recons|, s.h.starts);
    ClaimKeeps(p, s, claim);
    assert Waits(p, d, Next(p, s, claim));
    WaitsRun(p, d, Next(p, s, claim), more);
    var s' := Exec(p, Next(p, s, claim), more);
    SinceIs(d, s'.h);
    if Pending(d, s'.cell.rows) {
      PendingAtCursor(p, d, s');
    }
  }

  lemma SinceIs(d: Doubt, h: History)
    requires d.asked <= |h.recons|
    ensures forall answer | Answered(d, h, answer) :: (d.id, answer) in h.recons[d.asked..]
  {
    forall answer | Answered(d, h, answer) ensures (d.id, answer) in h.recons[d.asked..] {
      var i :| d.asked <= i < |h.recons| && h.recons[i] == (d.id, answer);
      assert h.recons[d.asked..][i - d.asked] == (d.id, answer);
    }
  }
}
