/** What a recovery makes of the last attempt of the step at the cursor, over every continuation of the
    claim: which attempt comes next, if any, and where the execution can go without one
    (internal/skillruntime/recovery.go). */
module RecoveryVerdicts {
  import opened AmbiguousAttempts
  import opened ExecutionLedger
  import opened LedgerLemmas
  import opened ProtocolInvariant
  import opened ProtocolPreservation
  import opened ProtocolTheorems
  import opened RuntimeProtocol
  import opened SkillSpec
  import opened Templates
  import opened Wrappers

  /** No attempt is left after this one: the step declares no retry, or this was its last. */
  predicate Spent(st: SkillStep, row: StepExecution) {
    st.retry.None? || row.attempt >= st.retry.value
  }

  /** The step needs no further attempt: it was done or skipped, or it failed for good and may be passed over. */
  predicate Settles(st: SkillStep, row: StepExecution) {
    || row.status.StepSucceeded? || row.status.StepShadowed? || row.status.StepSkipped?
    || (row.status.StepFailed? && Spent(st, row) && st.onError.ContinueStep?)
  }

  /** It failed with attempts left, or it is in doubt and its tool deduplicates. */
  predicate Repeats(p: Program, st: SkillStep, row: StepExecution) {
    || (row.status.StepFailed? && !Spent(st, row))
    || (Doubtful(row) && ToolCapability(p, st.tool).Native?)
  }

  /** It failed for good, and the skill with it. */
  predicate Fails(st: SkillStep, row: StepExecution) {
    row.status.StepFailed? && Spent(st, row) && !st.onError.ContinueStep?
  }

  datatype Ruling = PassOver | TryAgain | Resume | GiveUp

  /** What is due for row j of the step at `cursor`, as it was at the claim. */
  datatype Due = Due(cursor: nat, j: nat, row: StepExecution, verdict: Ruling)

  predicate Deserves(p: Program, st: SkillStep, row: StepExecution, verdict: Ruling) {
    match verdict
    case PassOver => Settles(st, row)
    case TryAgain => Repeats(p, st, row)
    case Resume => row.status.StepPending?
    case GiveUp => Fails(st, row)
  }

  /** The row is where it was. */
  predicate InPlace(p: Program, d: Due, rows: Rows) {
    && d.cursor < StepLimit(p.spec) && Deserves(p, p.spec.steps[d.cursor], d.row, d.verdict)
    && d.j < |rows| && rows[d.j].id == d.row.id && rows[d.j].attempt == d.row.attempt
    && rows[d.j].stepId == p.spec.steps[d.cursor].id
  }

  /** The step has an attempt with the next number. */
  predicate NextAttemptMade(rows: Rows, j: nat)
    requires j < |rows|
  {
    exists k :: j < k < |rows| && rows[k].stepId == rows[j].stepId && rows[k].attempt == rows[j].attempt + 1
  }

  /** The verdict was carried out. */
  predicate Carried(d: Due, c: Cell, h: History)
    requires d.j < |c.rows|
  {
    match d.verdict
    case PassOver => c.ex.cursor > d.cursor && !Further(c.rows, d.j)
    case TryAgain => NextAttemptMade(c.rows, d.j)
    case Resume => d.row.id in h.starter
    case GiveUp => c.ex.status.ExecFailed? && c.ex.cursor == d.cursor && !Further(c.rows, d.j)
  }

  /** The lease holder is on its way to it. */
  predicate OnItsWay(d: Due, pc: Pc) {
    match pc
    case ReadExecution => true
    case ReadLedger => true
    case Relabel(_, _) => true
    case Checkpoint(cursor, attempt) =>
      if d.verdict.PassOver? then cursor == d.cursor + 1 else d.verdict.TryAgain? && cursor == d.cursor && attempt > 0
    case Enter(attempt) => d.verdict.TryAgain? && attempt > 0
    case Load(attempt) => d.verdict.TryAgain? && attempt > 0
    case CreateBroken(_) => d.verdict.TryAgain?
    case CreateAttempt(_) => d.verdict.TryAgain?
    case PendCheckpoint(row) => d.verdict.Resume? && row.id == d.row.id
    case Start(row, resumed) => d.verdict.Resume? && row.id == d.row.id && resumed
    case Finish(status, _, _) => d.verdict.GiveUp? && status.ExecFailed?
    case _ => false
  }

  /** Nothing was done about the row yet, except that it may have been relabelled. */
  predicate StillDue(d: Due, c: Cell)
    requires d.j < |c.rows|
  {
    && c.ex.status.ExecRunning? && c.ex.cursor == d.cursor && !Further(c.rows, d.j)
    && (c.rows[d.j].status == d.row.status || (Doubtful(d.row) && Doubtful(c.rows[d.j])))
  }

  predicate Keeps(p: Program, d: Due, s: Sys) {
    && |s.workers| > 0 && InPlace(p, d, s.cell.rows)
    && (Carried(d, s.cell, s.h) || (StillDue(d, s.cell) && OnItsWay(d, Holder(s).pc)))
  }

  // ---------------------------------------------------------------- one action

  /** The ledger and the cursor are as they were. */
  lemma KeepsSame(p: Program, d: Due, s: Sys, s': Sys)
    requires Keeps(p, d, s) && s'.cell.rows == s.cell.rows && |s'.workers| > 0
    requires s'.cell.ex.cursor == s.cell.ex.cursor && s'.cell.ex.status == s.cell.ex.status
    requires forall id | id in s.h.starter :: id in s'.h.starter
    requires StillDue(d, s.cell) && OnItsWay(d, Holder(s).pc) ==> OnItsWay(d, Holder(s').pc)
    ensures Keeps(p, d, s')
  {
    hide InPlace, OnItsWay, Further, NextAttemptMade, Doubtful;
  }

  lemma KeepsLeases(p: Program, d: Due, s: Sys, a: Action)
    requires Keeps(p, d, s) && !a.Work?
    ensures Keeps(p, d, Next(p, s, a))
  {
    KeepsSame(p, d, s, Next(p, s, a));
  }

  lemma KeepsReads(p: Program, d: Due, s: Sys, a: Action)
    requires Inv(p, s) && Keeps(p, d, s) && ReadsOwnEpoch(s, a)
    requires a.Work? && a.w < |s.workers| && s.workers[a.w].pc.ReadExecution?
    ensures Keeps(p, d, Next(p, s, a))
  {
    assert WorkerInv(s.h, s.cell.rows, a.w, s.workers[a.w]);
    KeepsSame(p, d, s, Next(p, s, a));
  }

  lemma KeepsOutsider(p: Program, d: Due, s: Sys, a: Action)
    requires Inv(p, s) && Keeps(p, d, s) && a.Work? && a.w < |s.workers| && !s.workers[a.w].pc.ReadExecution?
    requires a.w < |s.workers| - 1 || !Open(s.cell.ex.status)
    ensures Keeps(p, d, Next(p, s, a))
  {
    hide Inv, Keeps;
    OutsiderKeeps(p, s, a);
    KeepsOutside(p, d, s, Next(p, s, a), a.w);
  }

  lemma KeepsOutside(p: Program, d: Due, s: Sys, s': Sys, w: nat)
    requires Keeps(p, d, s) && w < |s.workers| && (w < |s.workers| - 1 || !Open(s.cell.ex.status)) && OutsiderChange(s, s', w)
    ensures Keeps(p, d, s')
  {
    hide HistoryInv, InPlace;
    KeepsSame(p, d, s, s');
  }

  /** The row still due is the row at the cursor. */
  lemma DueAtCursor(p: Program, d: Due, c: Cell)
    requires InPlace(p, d, c.rows) && StillDue(d, c)
    ensures LastIndex(c.rows, p.spec.steps[d.cursor].id) == d.j
    ensures CursorRow(p, d.cursor, c.rows) == Some(c.rows[d.j])
  {
    LastIndexIs(c.rows, p.spec.steps[d.cursor].id, d.j);
  }

  lemma PlanDecides(p: Program, d: Due, c: Cell, nextId: nat, h: History, l: Worker)
    requires StoreInv(p, c, nextId, h) && CoreRecord(l.ex) == c.ex && InPlace(p, d, c.rows) && StillDue(d, c)
    requires forall j | 0 <= j < |c.rows| :: !c.rows[j].status.StepRunning?
    ensures OnItsWay(d, Planned(p, l, c.rows).pc)
  {
    DueAtCursor(p, d, c);
    LatestIsLast(c.rows, p.spec.steps[d.cursor].id);
    DueFact(p, d, c, nextId, h);
  }

  lemma DueFact(p: Program, d: Due, c: Cell, nextId: nat, h: History)
    requires StoreInv(p, c, nextId, h) && InPlace(p, d, c.rows)
    ensures RowFact(p, h, c.ex.req, BindingsBefore(p, c.ex.req, c.rows, d.cursor), p.spec.steps[d.cursor], c.rows[d.j])
  {
    hide RowFact;
  }

  lemma KeepsComputes(p: Program, d: Due, s: Sys, w: nat)
    requires Holds(p, s, w) && Keeps(p, d, s) && NextAccess(s.workers[w]).Compute?
    ensures Keeps(p, d, s.(workers := s.workers[w := AfterCompute(p, s.workers[w])]))
  {
    HolderEpoch(p, s, w);
    var l := s.workers[w];
    if l.pc.k >= |l.pc.existing| && StillDue(d, s.cell) {
      PlanDecides(p, d, Core(s.cell), s.nextId, s.h, l);
    }
    KeepsSame(p, d, s, s.(workers := s.workers[w := AfterCompute(p, l)]));
  }

  /** Listing the ledger leads back into the step, under the next number. */
  lemma KeepsLists(p: Program, d: Due, s: Sys, w: nat)
    requires Holds(p, s, w) && Keeps(p, d, s) && NextAccess(s.workers[w]).ListSteps?
    ensures Keeps(p, d, s.(workers := s.workers[w := AfterList(p, s.workers[w], s.cell.rows)]))
  {
    var l := s.workers[w];
    var s' := s.(workers := s.workers[w := AfterList(p, l, s.cell.rows)]);
    HolderEpoch(p, s, w);
    HolderLists(p, s, w);
    if StillDue(d, s.cell) && l.pc.Load? {
      LoadsStep(p, d, Core(s.cell), s.nextId, s.h, l);
    }
    hide Inv, AfterList;
    ListsLedger(p, l, s.cell.rows);
    KeepsSame(p, d, s, s');
  }

  lemma ListsLedger(p: Program, l: Worker, rows: Rows)
    requires NextAccess(l).ListSteps?
    ensures l.pc.ReadLedger? ==> AfterList(p, l, rows).pc.Relabel?
    ensures l.pc.ReadLedger? || l.pc.Load?
  {
  }

  lemma LoadsStep(p: Program, d: Due, c: Cell, nextId: nat, h: History, l: Worker)
    requires StoreInv(p, c, nextId, h) && CoreRecord(l.ex) == c.ex && InPlace(p, d, c.rows) && StillDue(d, c) && l.pc.Load?
    requires HolderInv(p, c, h, AfterList(p, l, c.rows))
    ensures var pc := AfterList(p, l, c.rows).pc; pc.CreateBroken? || pc.CreateAttempt?
  {
    DueAtCursor(p, d, c);
    hide HolderInv, GuardHolds, ResolveArgs, BindingsAtCursor, RebuildBindings, PreconditionsHold;
    AcceptedAtStart(p, c, l);
    EntersStep(p, c, l);
    if AfterList(p, l, c.rows).pc.CreateSkip? {
      SkipsNoRow(p, c, h, AfterList(p, l, c.rows));
    }
  }

  lemma AcceptedAtStart(p: Program, c: Cell, l: Worker)
    requires CursorFact(p, c) && HasStarted(c) && CoreRecord(l.ex) == c.ex
    ensures PreconditionsHold(p, InputBindings(l.ex.req.inputs))
  {
  }

  lemma EntersStep(p: Program, c: Cell, l: Worker)
    requires CoreRecord(l.ex) == c.ex && c.ex.cursor < StepLimit(p.spec) && l.pc.Load?
    requires PreconditionsHold(p, InputBindings(l.ex.req.inputs))
    ensures var pc := AfterList(p, l, c.rows).pc; pc.CreateSkip? || pc.CreateBroken? || pc.CreateAttempt?
  {
  }

  lemma SkipsNoRow(p: Program, c: Cell, h: History, l: Worker)
    requires HolderInv(p, c, h, l) && l.pc.CreateSkip?
    ensures CursorRow(p, c.ex.cursor, c.rows).None?
  {
  }

  lemma KeepsPuts(p: Program, d: Due, s: Sys, w: nat, now: int)
    requires Holds(p, s, w) && Keeps(p, d, s) && NextAccess(s.workers[w]).PutExecution?
    ensures Keeps(p, d, WithRecord(p, s, w, now, NextAccess(s.workers[w]).ex))
  {
    HolderEpoch(p, s, w);
    CursorClimbs(p, Core(s.cell), s.h, s.workers[w]);
    hide Inv, HolderInv, LoopHead, Further, NextAttemptMade, InPlace;
  }

  /** A write of the record never takes the cursor back. */
  lemma CursorClimbs(p: Program, c: Cell, h: History, l: Worker)
    requires HolderInv(p, c, h, l) && NextAccess(l).PutExecution?
    ensures NextAccess(l).ex.cursor >= c.ex.cursor
  {
  }

  /** The holder adds rows only to the step at the cursor, with the next number. */
  lemma AddsAtCursor(p: Program, c: Cell, h: History, l: Worker)
    requires HolderInv(p, c, h, l) && NextAccess(l).AddRow?
    ensures c.ex.cursor < StepLimit(p.spec) && NextAccess(l).row.stepId == p.spec.steps[c.ex.cursor].id
    ensures var last := CursorRow(p, c.ex.cursor, c.rows);
            last.Some? ==> NextAccess(l).row.attempt == last.value.attempt + 1
  {
  }

  lemma KeepsAdds(p: Program, d: Due, s: Sys, w: nat)
    requires DistinctStepIds(p.spec) && Holds(p, s, w) && Keeps(p, d, s) && NextAccess(s.workers[w]).AddRow?
    ensures Keeps(p, d, WithRow(p, s, w, StoredRow(s, NextAccess(s.workers[w]).row)))
  {
    var row := StoredRow(s, NextAccess(s.workers[w]).row);
    HolderEpoch(p, s, w);
    AddsAtCursor(p, Core(s.cell), s.h, s.workers[w]);
    hide Inv, HolderInv;
    FurtherAppends(s.cell.rows, row, d.j);
    if StillDue(d, s.cell) {
      DueAtCursor(p, d, s.cell);
    }
    AppendMakes(s.cell.rows, row, d.j);
    KeepsAppended(p, d, s, w, row);
  }

  lemma AppendMakes(rows: Rows, row: StepExecution, j: nat)
    requires j < |rows|
    ensures NextAttemptMade(rows, j) ==> NextAttemptMade(rows + [row], j)
    ensures row.stepId == rows[j].stepId && row.attempt == rows[j].attempt + 1 ==> NextAttemptMade(rows + [row], j)
  {
    var rows' := rows + [row];
    if NextAttemptMade(rows, j) {
      var k :| j < k < |rows| && rows[k].stepId == rows[j].stepId && rows[k].attempt == rows[j].attempt + 1;
      assert rows'[k].attempt == rows'[j].attempt + 1;
    }
    assert rows'[|rows|] == row;
  }

  lemma KeepsAppended(p: Program, d: Due, s: Sys, w: nat, row: StepExecution)
    requires DistinctStepIds(p.spec) && w < |s.workers| && Keeps(p, d, s) && s.cell.ex.cursor < |p.spec.steps|
    requires w == |s.workers| - 1 && Open(s.cell.ex.status) && NextAccess(s.workers[w]).AddRow?
    requires row.stepId == p.spec.steps[s.cell.ex.cursor].id
    requires StillDue(d, s.cell) ==> row.attempt == s.cell.rows[d.j].attempt + 1
    requires Further(s.cell.rows + [row], d.j) <==> Further(s.cell.rows, d.j) || row.stepId == s.cell.rows[d.j].stepId
    requires NextAttemptMade(s.cell.rows, d.j) ==> NextAttemptMade(s.cell.rows + [row], d.j)
    requires row.stepId == s.cell.rows[d.j].stepId && row.attempt == s.cell.rows[d.j].attempt + 1 ==>
               NextAttemptMade(s.cell.rows + [row], d.j)
    ensures Keeps(p, d, WithRow(p, s, w, row))
  {
    hide Further, NextAttemptMade, Deserves;
  }

  lemma RewriteMakes(rows: Rows, row: StepExecution, i: nat, j: nat)
    requires j < |rows| && i < |rows| && row.stepId == rows[i].stepId && row.attempt == rows[i].attempt
    ensures NextAttemptMade(rows, j) ==> NextAttemptMade(rows[i := row], j)
  {
    if NextAttemptMade(rows, j) {
      var k :| j < k < |rows| && rows[k].stepId == rows[j].stepId && rows[k].attempt == rows[j].attempt + 1;
      assert rows[i := row][k].attempt == rows[i := row][j].attempt + 1;
    }
  }

  lemma KeepsRewrites(p: Program, d: Due, s: Sys, w: nat)
    requires Holds(p, s, w) && Keeps(p, d, s) && NextAccess(s.workers[w]).PutRow?
    requires 0 <= Target(p, Core(s.cell), s.workers[w]) < |s.cell.rows|
    ensures Keeps(p, d, WithRewrite(p, s, w, Target(p, Core(s.cell), s.workers[w]),
                                    NextAccess(s.workers[w]).row.(epoch := s.cell.ex.epoch)))
  {
    var l := s.workers[w];
    var j := Target(p, Core(s.cell), l);
    var row := NextAccess(l).row.(epoch := s.cell.ex.epoch);
    HolderEpoch(p, s, w);
    TargetRow(p, Core(s.cell), s.h, l);
    if l.pc.Relabel? {
      RelabelsRunning(p, Core(s.cell), s.h, l);
    }
    hide Inv, HolderInv;
    FurtherRewrites(s.cell.rows, row, j, d.j);
    RewriteMakes(s.cell.rows, row, j, d.j);
    hide Target;
    KeepsRewritten(p, d, s, w, j, row);
  }

  lemma RelabelsRunning(p: Program, c: Cell, h: History, l: Worker)
    requires HolderInv(p, c, h, l) && l.pc.Relabel? && NextAccess(l).PutRow?
    ensures var k := Target(p, c, l); 0 <= k < |c.rows| && c.rows[k].status.StepRunning? && NextAccess(l).row.status.StepUnknownOutcome?
  {
  }

  lemma KeepsRewritten(p: Program, d: Due, s: Sys, w: nat, i: nat, row: StepExecution)
    requires w == |s.workers| - 1 && Keeps(p, d, s) && i < |s.cell.rows| && NextAccess(s.workers[w]).PutRow?
    requires var was := s.cell.rows[i];
             row == was.(status := row.status, output := row.output, errorCode := row.errorCode, epoch := row.epoch)
    requires NextAccess(s.workers[w]).row.id == row.id
    requires s.workers[w].pc.Relabel? ==> s.cell.rows[i].status.StepRunning? && row.status.StepUnknownOutcome?
    requires Further(s.cell.rows[i := row], d.j) <==> Further(s.cell.rows, d.j)
    requires NextAttemptMade(s.cell.rows, d.j) ==> NextAttemptMade(s.cell.rows[i := row], d.j)
    ensures Keeps(p, d, WithRewrite(p, s, w, i, row))
  {
    hide Further, NextAttemptMade, Deserves;
  }

  /** Calls and questions touch neither ledger nor cursor, and are not on the way. */
  lemma KeepsAnswers(p: Program, d: Due, s: Sys, w: nat, now: int, reply: Reply)
    requires Holds(p, s, w) && Keeps(p, d, s)
    requires var access := NextAccess(s.workers[w]); access.CallTool? || access.AwaitTool? || access.QueryProvider?
    ensures Keeps(p, d, WorkStep(p, s, w, now, reply))
  {
    AnswersTouchNothing(p, s, w, now, reply);
    hide WorkStep;
    KeepsSame(p, d, s, WorkStep(p, s, w, now, reply));
  }

  lemma AnswersTouchNothing(p: Program, s: Sys, w: nat, now: int, reply: Reply)
    requires w < |s.workers|
    requires var access := NextAccess(s.workers[w]); access.CallTool? || access.AwaitTool? || access.QueryProvider?
    ensures var s' := WorkStep(p, s, w, now, reply);
            s'.cell == s.cell && s'.h.starter == s.h.starter && |s'.workers| == |s.workers|
  {
    hide AfterReply, Reconciled;
  }

  lemma KeepsHolder(p: Program, d: Due, s: Sys, w: nat, now: int, reply: Reply)
    requires DistinctStepIds(p.spec) && Holds(p, s, w) && Keeps(p, d, s)
    ensures Keeps(p, d, WorkStep(p, s, w, now, reply))
  {
    hide Inv, Keeps;
    var l := s.workers[w];
    match NextAccess(l)
    case Compute => KeepsComputes(p, d, s, w);
    case ListSteps => KeepsLists(p, d, s, w);
    case PutExecution(_) => RecordAccepted(p, s, w, now, reply); KeepsPuts(p, d, s, w, now);
    case AddRow(_) => RowAccepted(p, s, w, now, reply); KeepsAdds(p, d, s, w);
    case PutRow(_) => RewriteAccepted(p, s, w, now, reply); KeepsRewrites(p, d, s, w);
    case QueryProvider(_) => KeepsAnswers(p, d, s, w, now, reply);
    case CallTool(_) => KeepsAnswers(p, d, s, w, now, reply);
    case AwaitTool(_) => KeepsAnswers(p, d, s, w, now, reply);
    case _ =>
  }

  lemma KeepsNext(p: Program, d: Due, s: Sys, a: Action)
    requires DistinctStepIds(p.spec) && Inv(p, s) && Keeps(p, d, s) && ReadsOwnEpoch(s, a)
    ensures Keeps(p, d, Next(p, s, a))
  {
    hide Keeps;
    match a
    case Claim(_, _, _, _) => KeepsLeases(p, d, s, a);
    case Renew(_, _, _) => KeepsLeases(p, d, s, a);
    case Work(w, now, reply) =>
      if w < |s.workers| {
        if s.workers[w].pc.ReadExecution? {
          KeepsReads(p, d, s, a);
        } else if w < |s.workers| - 1 || !Open(s.cell.ex.status) {
          KeepsOutsider(p, d, s, a);
        } else {
          KeepsHolder(p, d, s, w, now, reply);
        }
      }
  }

  lemma {:induction false} KeepsRun(p: Program, d: Due, s: Sys, more: seq<Action>)
    requires DistinctStepIds(p.spec) && Inv(p, s) && Keeps(p, d, s) && OwnEpochs(p, s, more)
    ensures Keeps(p, d, Exec(p, s, more))
  {
    hide Inv, Keeps;
    if more != [] {
      var front := more[..|more| - 1];
      OwnEpochsPrefix(p, s, more);
      KeepsRun(p, d, s, front);
      ExecKeeps(p, s, front);
      assert more[..|front|] == front;
      assert ReadsOwnEpoch(Exec(p, s, more[..|front|]), more[|front|]);
      KeepsNext(p, d, Exec(p, s, front), more[|front|]);
    }
  }

  // ---------------------------------------------------------------- every continuation of a claim

  /** The last attempt of the step at the cursor. */
  predicate AtCursor(p: Program, c: Cell, j: nat) {
    && c.ex.cursor < StepLimit(p.spec)
    && j < |c.rows| && c.rows[j].stepId == p.spec.steps[c.ex.cursor].id && !Further(c.rows, j)
  }

  /** A claim on s was accepted, and the run went on from there. */
  ghost predicate Continues(p: Program, s: Sys, claim: Action, more: seq<Action>) {
    && claim.Claim? && ClaimExecutionLease(s.cell, claim.owner, claim.until, claim.now).Some?
    && OwnEpochs(p, Next(p, s, claim), more)
  }

  lemma VerdictHolds(p: Program, s: Sys, claim: Action, more: seq<Action>, d: Due)
    requires DistinctStepIds(p.spec) && Inv(p, s) && Continues(p, s, claim, more)
    requires AtCursor(p, s.cell, d.j) && d.cursor == s.cell.ex.cursor && d.row == s.cell.rows[d.j]
    requires Deserves(p, p.spec.steps[d.cursor], d.row, d.verdict)
    ensures Keeps(p, d, Exec(p, Next(p, s, claim), more))
  {
    ClaimKeeps(p, s, claim);
    hide Inv, Further, Deserves;
    ClaimStarts(p, s, claim);
    KeepsRun(p, d, Next(p, s, claim), more);
  }

  lemma ClaimStarts(p: Program, s: Sys, claim: Action)
    requires claim.Claim? && ClaimExecutionLease(s.cell, claim.owner, claim.until, claim.now).Some?
    ensures var s' := Next(p, s, claim);
            && s'.cell == s.cell.(ex := s'.cell.ex) && s'.h == s.h && |s'.workers| > 0 && Holder(s').pc.ReadExecution?
            && s'.cell.ex.cursor == s.cell.ex.cursor && s'.cell.ex.status.ExecRunning?
  {
  }

  /** If the claimed step was done, skipped, or failed with no attempt left but may be passed over, then no
      continuation gives it another attempt, or ends before the cursor has passed it. */
  lemma SettledStepsArePassed(p: Program, ex: Execution, owner: string, history: seq<Action>, claim: Action, more: seq<Action>, j: nat)
    requires Genuine(p, ex, owner, history) && Continues(p, After(p, ex, owner, history), claim, more)
    requires var c := After(p, ex, owner, history).cell;
             AtCursor(p, c, j) && Settles(p.spec.steps[c.ex.cursor], c.rows[j])
    ensures var c := After(p, ex, owner, history).cell;
            var c' := Exec(p, Next(p, After(p, ex, owner, history), claim), more).cell;
            && j < |c'.rows| && !Further(c'.rows, j)
            && (c'.ex.cursor > c.ex.cursor || (c'.ex.cursor == c.ex.cursor && c'.ex.status.ExecRunning?))
  {
    Reached(p, ex, owner, history);
    var s := After(p, ex, owner, history);
    VerdictHolds(p, s, claim, more, Due(s.cell.ex.cursor, j, s.cell.rows[j], PassOver));
  }

  /** If it failed with attempts left, or is in doubt and its tool deduplicates, then no continuation ends
      or moves the cursor before the step has an attempt with the next number. */
  lemma RepeatedStepsAreRepeated(p: Program, ex: Execution, owner: string, history: seq<Action>, claim: Action, more: seq<Action>, j: nat)
    requires Genuine(p, ex, owner, history) && Continues(p, After(p, ex, owner, history), claim, more)
    requires var c := After(p, ex, owner, history).cell;
             AtCursor(p, c, j) && Repeats(p, p.spec.steps[c.ex.cursor], c.rows[j])
    ensures var c := After(p, ex, owner, history).cell;
            var c' := Exec(p, Next(p, After(p, ex, owner, history), claim), more).cell;
            && j < |c'.rows| && c'.rows[j].attempt == c.rows[j].attempt
            && (NextAttemptMade(c'.rows, j) || (c'.ex.cursor == c.ex.cursor && c'.ex.status.ExecRunning? && !Further(c'.rows, j)))
  {
    Reached(p, ex, owner, history);
    var s := After(p, ex, owner, history);
    VerdictHolds(p, s, claim, more, Due(s.cell.ex.cursor, j, s.cell.rows[j], TryAgain));
  }

  /** If it is PENDING, then no continuation ends, moves the cursor or adds an attempt before this very
      attempt was marked RUNNING, under its own number. */
  lemma PendingStepsAreResumed(p: Program, ex: Execution, owner: string, history: seq<Action>, claim: Action, more: seq<Action>, j: nat)
    requires Genuine(p, ex, owner, history) && Continues(p, After(p, ex, owner, history), claim, more)
    requires var c := After(p, ex, owner, history).cell; AtCursor(p, c, j) && c.rows[j].status.StepPending?
    ensures var s := After(p, ex, owner, history);
            var s' := Exec(p, Next(p, s, claim), more);
            && s.cell.rows[j].id !in s.h.starter
            && j < |s'.cell.rows| && s'.cell.rows[j].id == s.cell.rows[j].id && s'.cell.rows[j].attempt == s.cell.rows[j].attempt
            && (|| s.cell.rows[j].id in s'.h.starter
                || (&& s'.cell.ex.cursor == s.cell.ex.cursor && s'.cell.ex.status.ExecRunning?
                    && !Further(s'.cell.rows, j) && s'.cell.rows[j].status.StepPending?))
  {
    Reached(p, ex, owner, history);
    var s := After(p, ex, owner, history);
    var d := Due(s.cell.ex.cursor, j, s.cell.rows[j], Resume);
    VerdictHolds(p, s, claim, more, d);
    PendingIsFresh(p, Core(s.cell), s.nextId, s.h, d);
  }

  lemma PendingIsFresh(p: Program, c: Cell, nextId: nat, h: History, d: Due)
    requires StoreInv(p, c, nextId, h) && InPlace(p, d, c.rows) && d.row == c.rows[d.j] && d.row.status.StepPending?
    ensures d.row.id !in h.starter
  {
    DueFact(p, d, c, nextId, h);
  }

  /** If it failed for good, and the skill with it, then every continuation leaves the execution at this
      step without another attempt, RUNNING or FAILED. */
  lemma FailedStepsFail(p: Program, ex: Execution, owner: string, history: seq<Action>, claim: Action, more: seq<Action>, j: nat)
    requires Genuine(p, ex, owner, history) && Continues(p, After(p, ex, owner, history), claim, more)
    requires var c := After(p, ex, owner, history).cell;
             AtCursor(p, c, j) && Fails(p.spec.steps[c.ex.cursor], c.rows[j])
    ensures var c := After(p, ex, owner, history).cell;
            var c' := Exec(p, Next(p, After(p, ex, owner, history), claim), more).cell;
            && j < |c'.rows| && !Further(c'.rows, j)
            && c'.ex.cursor == c.ex.cursor && (c'.ex.status.ExecRunning? || c'.ex.status.ExecFailed?)
  {
    Reached(p, ex, owner, history);
    var s := After(p, ex, owner, history);
    VerdictHolds(p, s, claim, more, Due(s.cell.ex.cursor, j, s.cell.rows[j], GiveUp));
  }

  // ---------------------------------------------------------------- and when it has ended

  /** What a recovery that closed the execution did about row j, the last attempt of the step at the cursor. */
  predicate Acted(p: Program, c: Cell, c': Cell, j: nat)
    requires AtCursor(p, c, j)
  {
    var st := p.spec.steps[c.ex.cursor];
    && (Settles(st, c.rows[j]) ==> c'.ex.cursor > c.ex.cursor)
    && (Repeats(p, st, c.rows[j]) ==> j < |c'.rows| && NextAttemptMade(c'.rows, j))
    && (c.rows[j].status.StepPending? ==>
          j < |c'.rows| && !c'.rows[j].status.StepPending? && c'.rows[j].attempt == c.rows[j].attempt)
    && (Fails(st, c.rows[j]) ==> c'.ex.status.ExecFailed? && c'.ex.cursor == c.ex.cursor)
  }

  /** However a claim is continued: when the execution is closed, the verdict was carried out. */
  lemma ClosedMeansActed(p: Program, ex: Execution, owner: string, history: seq<Action>, claim: Action, more: seq<Action>, j: nat)
    requires Genuine(p, ex, owner, history) && Continues(p, After(p, ex, owner, history), claim, more)
    requires AtCursor(p, After(p, ex, owner, history).cell, j)
    requires !Open(Exec(p, Next(p, After(p, ex, owner, history), claim), more).cell.ex.status)
    ensures Acted(p, After(p, ex, owner, history).cell, Exec(p, Next(p, After(p, ex, owner, history), claim), more).cell, j)
  {
    var c := After(p, ex, owner, history).cell;
    hide Genuine, Continues, After, Exec, Next, Further, NextAttemptMade;
    if Settles(p.spec.steps[c.ex.cursor], c.rows[j]) {
      SettledStepsArePassed(p, ex, owner, history, claim, more, j);
    } else if Repeats(p, p.spec.steps[c.ex.cursor], c.rows[j]) {
      RepeatedStepsAreRepeated(p, ex, owner, history, claim, more, j);
    } else if c.rows[j].status.StepPending? {
      ResumedIsNotPending(p, ex, owner, history, claim, more, j);
    } else if Fails(p.spec.steps[c.ex.cursor], c.rows[j]) {
      FailedStepsFail(p, ex, owner, history, claim, more, j);
    }
  }

  lemma ResumedIsNotPending(p: Program, ex: Execution, owner: string, history: seq<Action>, claim: Action, more: seq<Action>, j: nat)
    requires Genuine(p, ex, owner, history) && Continues(p, After(p, ex, owner, history), claim, more)
    requires var c := After(p, ex, owner, history).cell; AtCursor(p, c, j) && c.rows[j].status.StepPending?
    requires !Open(Exec(p, Next(p, After(p, ex, owner, history), claim), more).cell.ex.status)
    ensures var c := After(p, ex, owner, history).cell;
            var c' := Exec(p, Next(p, After(p, ex, owner, history), claim), more).cell;
            j < |c'.rows| && !c'.rows[j].status.StepPending? && c'.rows[j].attempt == c.rows[j].attempt
  {
    Reached(p, ex, owner, history);
    var s := After(p, ex, owner, history);
    var d := Due(s.cell.ex.cursor, j, s.cell.rows[j], Resume);
    VerdictHolds(p, s, claim, more, d);
    var s' := Exec(p, Next(p, s, claim), more);
    ContinuesKeeps(p, s, claim, more);
    hide Exec, Next, Further;
    StartedIsNotPending(p, Core(s'.cell), s'.nextId, s'.h, d);
  }

  lemma ContinuesKeeps(p: Program, s: Sys, claim: Action, more: seq<Action>)
    requires DistinctStepIds(p.spec) && Inv(p, s) && Continues(p, s, claim, more)
    ensures Inv(p, Exec(p, Next(p, s, claim), more))
  {
    ClaimKeeps(p, s, claim);
    hide Inv;
    ExecKeeps(p, Next(p, s, claim), more);
  }

  lemma StartedIsNotPending(p: Program, c: Cell, nextId: nat, h: History, d: Due)
    requires StoreInv(p, c, nextId, h) && InPlace(p, d, c.rows) && d.row.id in h.starter
    ensures !c.rows[d.j].status.StepPending?
  {
    DueFact(p, d, c, nextId, h);
  }
}
