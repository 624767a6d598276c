/** Which failures count, and which ambiguities: a step that failed is passed over, or fails its skill, only when
    no declared attempt was left, with one exception, and that exception is where a run differs from the uninterrupted one
    (internal/skillruntime/runtime.go, internal/skillruntime/recovery.go). */
module FailedRuns {
  import opened CrashTransparency
  import opened ExecutionLedger
  import opened LedgerLemmas
  import opened ProtocolInvariant
  import opened ProtocolPreservation
  import opened ProtocolTheorems
  import opened RecoveryVerdicts
  import opened RuntimeProtocol
  import opened SkillSpec
  import opened Templates
  import opened Wrappers

  /** The rows whose resumed attempt was answered with a failure. */
  function ResumedFailures(p: Program, s: Sys, history: seq<Action>): set<nat> {
    if history == [] then {}
    else
      var front := history[..|history| - 1];
      ResumedFailures(p, s, front) + Hears(Exec(p, s, front), history[|history| - 1])
  }

  function Hears(s: Sys, a: Action): set<nat> {
    if a.Work? && a.w < |s.workers| && s.workers[a.w].pc.Await? && s.workers[a.w].pc.resumed
       && a.reply.ToolReply? && a.reply.outcome.ToolFailed?
    then {s.workers[a.w].pc.row.id} else {}
  }

  /** The attempt was the last one declared, or failed before any call, on its arguments. */
  predicate Final(st: SkillStep, row: StepExecution, h: History) {
    row.id !in h.starter || Spent(st, row)
  }

  /** If the step at the cursor failed, then for good. */
  predicate FinalAtCursor(p: Program, c: Cell, h: History) {
    c.ex.cursor < |p.spec.steps| ==>
      var last := LastRow(c.rows, p.spec.steps[c.ex.cursor].id);
      last.Some? && last.value.status.StepFailed? ==> Final(p.spec.steps[c.ex.cursor], last.value, h)
  }

  predicate FinalBelow(p: Program, c: Cell, h: History) {
    forall k | 0 <= k < c.ex.cursor && k < |p.spec.steps| ::
      var last := LastRow(c.rows, p.spec.steps[k].id);
      last.Some? && last.value.status.StepFailed? ==> Final(p.spec.steps[k], last.value, h)
  }

  /** Why the failure of this row fails the skill: `resumed` are the resumed attempts that failed. */
  predicate Fatal(st: SkillStep, row: StepExecution, h: History, resumed: set<nat>) {
    row.status.StepFailed? && ((Final(st, row, h) && !st.onError.ContinueStep?) || row.id in resumed)
  }

  predicate FatalAtCursor(p: Program, c: Cell, h: History, resumed: set<nat>) {
    || !InputsAccepted(p, c.ex.req)
    || (&& c.ex.cursor < |p.spec.steps|
        && var last := LastRow(c.rows, p.spec.steps[c.ex.cursor].id);
           last.Some? && Fatal(p.spec.steps[c.ex.cursor], last.value, h, resumed))
  }

  /** Nothing is left to find out what became of this ambiguous attempt: its tool deduplicates, but it was
      heard to be ambiguous and no attempt is left; or its provider can be asked, but it was heard to be
      ambiguous or the provider could not say; or there is no one to ask. */
  predicate Unresolved(p: Program, st: SkillStep, row: StepExecution, h: History) {
    var heard := row.id in h.replies && h.replies[row.id].Ambiguous?;
    match ToolCapability(p, st.tool)
    case Native => heard && Spent(st, row)
    case QueryReconcile => heard || (row.id, Undecided) in h.recons
    case NoIdempotency => true
  }

  predicate UnresolvedAtCursor(p: Program, c: Cell, h: History) {
    && c.ex.cursor < |p.spec.steps|
    && var last := LastRow(c.rows, p.spec.steps[c.ex.cursor].id);
       last.Some? && Unresolved(p, p.spec.steps[c.ex.cursor], last.value, h)
  }

  /** The step at the cursor will get all its declared attempts. */
  predicate AllAttempts(p: Program, c: Cell, l: Worker) {
    c.ex.cursor < |p.spec.steps| && p.spec.steps[c.ex.cursor].retry.Some? ==>
      l.endAttempt >= p.spec.steps[c.ex.cursor].retry.value
  }

  predicate RecordsFinal(p: Program, st: SkillStep, row: StepExecution, next: AfterRecord, h: History, resumed: set<nat>) {
    && (row.status.StepFailed? ==>
          && (next.ToAdvance? ==> Final(st, row, h))
          && (next.ToFinish? ==> Fatal(st, row, h, resumed)))
    && (next.ToFinish? && next.status.ExecNeedsReconciliation? ==> Unresolved(p, st, row, h))
  }

  predicate HolderFinal(p: Program, c: Cell, h: History, resumed: set<nat>, l: Worker) {
    match l.pc
    case Finish(status, _, _) =>
      && (status.ExecFailed? ==> FatalAtCursor(p, c, h, resumed))
      && (status.ExecNeedsReconciliation? ==> UnresolvedAtCursor(p, c, h))
    case Advance => FinalAtCursor(p, c, h)
    case Checkpoint(cursor, _) => cursor > c.ex.cursor ==> FinalAtCursor(p, c, h)
    case CreateAttempt(_) => AllAttempts(p, c, l)
    case Start(_, again) => again || AllAttempts(p, c, l)
    case Invoke(_, again) => again || AllAttempts(p, c, l)
    case Await(_, again) => again || AllAttempts(p, c, l)
    case Record(row, next) =>
      && (c.ex.cursor < |p.spec.steps| ==> RecordsFinal(p, p.spec.steps[c.ex.cursor], row, next, h, resumed))
      && (next.ToRetry? ==> AllAttempts(p, c, l))
    case _ => true
  }

  ghost predicate StoreFinal(p: Program, c: Cell, h: History, resumed: set<nat>) {
    && FinalBelow(p, c, h)
    && (c.ex.status.ExecFailed? ==> FatalAtCursor(p, c, h, resumed))
    && (c.ex.status.ExecNeedsReconciliation? ==> UnresolvedAtCursor(p, c, h))
  }

  ghost predicate FinalInv(p: Program, s: Sys, resumed: set<nat>) {
    && |s.workers| > 0
    && StoreFinal(p, Core(s.cell), s.h, resumed)
    && (Open(s.cell.ex.status) ==> HolderFinal(p, Core(s.cell), s.h, resumed, Holder(s)))
  }

  // ---------------------------------------------------------------- frames

  /** More answers are known, nothing was started. */
  lemma FinalGrows(p: Program, c: Cell, h: History, resumed: set<nat>, h': History, resumed': set<nat>)
    requires h'.starter == h.starter && Grows(h, h', 0) && resumed <= resumed'
    ensures StoreFinal(p, c, h, resumed) ==> StoreFinal(p, c, h', resumed')
    ensures forall l | HolderFinal(p, c, h, resumed, l) :: HolderFinal(p, c, h', resumed', l)
  {
    forall l | HolderFinal(p, c, h, resumed, l) ensures HolderFinal(p, c, h', resumed', l) {
    }
  }

  lemma LeasesFinal(p: Program, s: Sys, a: Action, resumed: set<nat>)
    requires FinalInv(p, s, resumed) && !a.Work?
    ensures FinalInv(p, Next(p, s, a), resumed)
  {
    hide FinalBelow, FatalAtCursor, FinalAtCursor, AllAttempts, RecordsFinal;
    LeasesCore(p, s, a);
    EpochFree(p, Core(s.cell), Core(Next(p, s, a).cell), s.h, resumed);
  }

  lemma LeasesCore(p: Program, s: Sys, a: Action)
    requires !a.Work? && |s.workers| > 0
    ensures var s' := Next(p, s, a);
            && s'.h == s.h && |s'.workers| > 0 && Core(s'.cell) == Core(s.cell).(ex := Core(s.cell).ex.(epoch := s'.cell.ex.epoch))
            && (Holder(s') == Holder(s) || Holder(s').pc.ReadExecution?)
  {
  }

  lemma EpochFree(p: Program, c: Cell, c': Cell, h: History, resumed: set<nat>)
    requires c' == c.(ex := c.ex.(epoch := c'.ex.epoch))
    ensures StoreFinal(p, c, h, resumed) ==> StoreFinal(p, c', h, resumed)
    ensures forall l | HolderFinal(p, c, h, resumed, l) :: HolderFinal(p, c', h, resumed, l)
  {
    forall l | HolderFinal(p, c, h, resumed, l) ensures HolderFinal(p, c', h, resumed, l) {
    }
  }

  // ---------------------------------------------------------------- the lease holder

  /** The attempts that are left after this row, in the planner's and the loop's terms. */
  lemma NoneLeft(st: SkillStep, row: StepExecution, endAttempt: nat)
    requires row.attempt >= 1 && (st.retry.Some? ==> endAttempt >= st.retry.value)
    ensures !(row.attempt + 1 <= endAttempt && (st.onError.RetryStep? || st.retry.Some?)) ==> Spent(st, row)
    ensures row.attempt + 1 > endAttempt ==> Spent(st, row)
    ensures !(row.attempt + 1 <= MaxAttempts(st) && (st.onError.RetryStep? || st.retry.Some?)) ==> Spent(st, row)
  {
  }

  lemma AttemptsArePositive(p: Program, c: Cell, nextId: nat, h: History, k: nat)
    requires StoreInv(p, c, nextId, h) && k < |p.spec.steps|
    ensures var last := LastRow(c.rows, p.spec.steps[k].id);
            last.Some? ==> last.value.attempt >= 1 && last.value.tool == p.spec.steps[k].tool
  {
    hide BindingsBefore;
    var j := LastIndex(c.rows, p.spec.steps[k].id);
    assert j >= 0 ==> RowFact(p, h, c.ex.req, BindingsBefore(p, c.ex.req, c.rows, k), p.spec.steps[k], c.rows[j]);
  }

  /** The planner gives up, or passes a failure over, only when no attempt is left. */
  lemma PlansFinal(p: Program, c: Cell, nextId: nat, h: History, l: Worker, resumed: set<nat>)
    requires StoreInv(p, c, nextId, h) && CoreRecord(l.ex) == c.ex
    ensures HolderFinal(p, c, h, resumed, Planned(p, l, c.rows))
  {
    if c.ex.cursor < |p.spec.steps| {
      LatestIsLast(c.rows, p.spec.steps[c.ex.cursor].id);
      AttemptsArePositive(p, c, nextId, h, c.ex.cursor);
      var last := LastRow(c.rows, p.spec.steps[c.ex.cursor].id);
      if last.Some? {
        NoneLeft(p.spec.steps[c.ex.cursor], last.value, MaxAttempts(p.spec.steps[c.ex.cursor]));
      }
    }
  }

  lemma HeadFinal(p: Program, c: Cell, h: History, l: Worker, attempt: nat, resumed: set<nat>)
    requires l.ex.cursor == c.ex.cursor
    ensures HolderFinal(p, c, h, resumed, LoopHead(p, l, attempt))
  {
    hide GuardHolds, ResolveArgs, FatalAtCursor, FinalAtCursor, ExtractOutputs;
  }

  lemma LoadsFinal(p: Program, c: Cell, h: History, l: Worker, attempt: nat, resumed: set<nat>)
    requires CoreRecord(l.ex) == c.ex
    ensures HolderFinal(p, c, h, resumed, Loaded(p, l, c.rows, attempt))
  {
    hide LoopHead, RebuildBindings, PreconditionsHold;
    var l' := Loaded(p, l, c.rows, attempt);
    var again := l.ex.cursor > 0 && |c.rows| > 0;
    var b := if again then RebuildBindings(p.spec, c.rows, InputBindings(l.ex.req.inputs), |p.spec.steps|)
             else InputBindings(l.ex.req.inputs);
    HeadFinal(p, c, h, l.(bindings := b, sequence := if again then |c.rows| else 0), if attempt > 0 then attempt else 1, resumed);
  }

  lemma ComputesFinal(p: Program, s: Sys, w: nat, resumed: set<nat>)
    requires Holds(p, s, w) && FinalInv(p, s, resumed) && NextAccess(s.workers[w]).Compute?
    ensures FinalInv(p, s.(workers := s.workers[w := AfterCompute(p, s.workers[w])]), resumed)
  {
    HolderEpoch(p, s, w);
    var l := s.workers[w];
    hide FinalBelow, FatalAtCursor, FinalAtCursor, AllAttempts, RecordsFinal, Planned, Inv;
    RelabelLists(p, Core(s.cell), s.h, l);
    if l.pc.k >= |l.pc.existing| {
      StoreOf(p, s);
      PlansFinal(p, Core(s.cell), s.nextId, s.h, l, resumed);
    }
  }

  lemma StoreOf(p: Program, s: Sys)
    requires Inv(p, s)
    ensures StoreInv(p, Core(s.cell), s.nextId, s.h)
  {
  }

  lemma RelabelLists(p: Program, c: Cell, h: History, l: Worker)
    requires HolderInv(p, c, h, l) && NextAccess(l).Compute?
    ensures l.pc.Relabel? && l.pc.existing == c.rows
  {
  }

  lemma ListsFinal(p: Program, s: Sys, w: nat, resumed: set<nat>)
    requires Holds(p, s, w) && FinalInv(p, s, resumed) && NextAccess(s.workers[w]).ListSteps?
    ensures FinalInv(p, s.(workers := s.workers[w := AfterList(p, s.workers[w], s.cell.rows)]), resumed)
  {
    HolderEpoch(p, s, w);
    var l := s.workers[w];
    hide FinalBelow, FatalAtCursor, FinalAtCursor, AllAttempts, RecordsFinal, Loaded, Inv;
    if l.pc.Load? {
      LoadsFinal(p, Core(s.cell), s.h, l, l.pc.attempt, resumed);
    }
  }

  /** Up to where the cursor now is, failures were final. */
  lemma BelowClimbs(p: Program, c: Cell, c': Cell, h: History)
    requires FinalBelow(p, c, h) && c'.rows == c.rows
    requires c'.ex.cursor == c.ex.cursor || (c'.ex.cursor == c.ex.cursor + 1 && FinalAtCursor(p, c, h))
    ensures FinalBelow(p, c', h)
  {
  }

  lemma PutCell(p: Program, c: Cell, c': Cell, h: History, l: Worker, resumed: set<nat>)
    requires HolderInv(p, c, h, l) && NextAccess(l).PutExecution? && Open(c.ex.status)
    requires StoreFinal(p, c, h, resumed) && HolderFinal(p, c, h, resumed, l)
    requires c'.rows == c.rows && c'.ex == CoreRecord(NextAccess(l).ex)
    ensures StoreFinal(p, c', h, resumed)
    ensures forall ex | CoreRecord(ex) == c'.ex && Open(c'.ex.status) :: HolderFinal(p, c', h, resumed, AfterPutExecution(p, l.(ex := ex)))
  {
    PutCursor(p, c, h, l);
    hide HolderInv, FinalBelow, FinalAtCursor, LoopHead;
    BelowClimbs(p, c, c', h);
    forall ex | CoreRecord(ex) == c'.ex && Open(c'.ex.status)
      ensures HolderFinal(p, c', h, resumed, AfterPutExecution(p, l.(ex := ex)))
    {
      if l.pc.Advance? {
        HeadFinal(p, c', h, l.(ex := ex), 1, resumed);
      }
    }
  }

  lemma PutCursor(p: Program, c: Cell, h: History, l: Worker)
    requires HolderInv(p, c, h, l) && NextAccess(l).PutExecution? && Open(c.ex.status)
    ensures var ex := NextAccess(l).ex;
            && ex.req == c.ex.req
            && (ex.cursor == c.ex.cursor || (ex.cursor == c.ex.cursor + 1 && (l.pc.Advance? || (l.pc.Checkpoint? && l.pc.cursor > c.ex.cursor))))
            && (ex.status.ExecFailed? ==> l.pc.Finish? && l.pc.status.ExecFailed? && ex.cursor == c.ex.cursor)
            && (ex.status.ExecNeedsReconciliation? ==> l.pc.Finish? && l.pc.status == ex.status && ex.cursor == c.ex.cursor)
            && (Open(ex.status) ==> !l.pc.Finish?)
  {
  }

  lemma PutsFinal(p: Program, s: Sys, w: nat, now: int, resumed: set<nat>)
    requires Holds(p, s, w) && FinalInv(p, s, resumed) && NextAccess(s.workers[w]).PutExecution?
    ensures FinalInv(p, WithRecord(p, s, w, now, NextAccess(s.workers[w]).ex), resumed)
  {
    HolderEpoch(p, s, w);
    var l := s.workers[w];
    var s' := WithRecord(p, s, w, now, NextAccess(l).ex);
    TouchCore(p, l.owner, NextAccess(l).ex, now);
    hide StoreFinal, HolderFinal, AfterPutExecution, Inv, HolderInv;
    PutCell(p, Core(s.cell), Core(s'.cell), s.h, l, resumed);
  }

  lemma AddCell(p: Program, c: Cell, c': Cell, nextId: nat, h: History, l: Worker, row: StepExecution, resumed: set<nat>)
    requires DistinctStepIds(p.spec) && HolderInv(p, c, h, l) && NextAccess(l).AddRow? && nextId !in h.starter
    requires StoreFinal(p, c, h, resumed) && HolderFinal(p, c, h, resumed, l)
    requires row == NextAccess(l).row.(id := nextId, epoch := c.ex.epoch, attempt := row.attempt) && c' == c.(rows := c.rows + [row])
    ensures StoreFinal(p, c', h, resumed) && HolderFinal(p, c', h, resumed, AfterAddRow(p, l, row))
  {
    AddsAtCursor(p, c, h, l);
    AddsKind(p, c, h, l);
    hide HolderInv, BindingsBefore, Spent, Unresolved;
    AppendViews(p, c, c', nextId, row);
  }

  lemma AddsKind(p: Program, c: Cell, h: History, l: Worker)
    requires HolderInv(p, c, h, l) && NextAccess(l).AddRow?
    ensures c.ex.status.ExecRunning? && CoreRecord(l.ex) == c.ex
    ensures l.pc.CreateSkip? ==> NextAccess(l).row.status.StepSkipped?
    ensures l.pc.CreateBroken? ==> NextAccess(l).row.status.StepFailed?
  {
  }

  lemma AddsFinal(p: Program, s: Sys, w: nat, resumed: set<nat>)
    requires DistinctStepIds(p.spec) && Holds(p, s, w) && FinalInv(p, s, resumed) && NextAccess(s.workers[w]).AddRow?
    ensures FinalInv(p, WithRow(p, s, w, StoredRow(s, NextAccess(s.workers[w]).row)), resumed)
  {
    HolderEpoch(p, s, w);
    var l := s.workers[w];
    var row := StoredRow(s, NextAccess(l).row);
    assert s.nextId !in s.h.starter;
    hide StoreFinal, HolderFinal, AfterAddRow, Inv, HolderInv;
    AddCell(p, Core(s.cell), Core(s.cell).(rows := s.cell.rows + [row]), s.nextId, s.h, l, row, resumed);
  }

  /** What a rewrite shows of each step. */
  predicate Shows(p: Program, c: Cell, c': Cell, row: StepExecution) {
    && c'.ex == c.ex
    && (forall k | 0 <= k < |p.spec.steps| && k != c.ex.cursor ::
          || LastRow(c'.rows, p.spec.steps[k].id) == LastRow(c.rows, p.spec.steps[k].id)
          || (LastRow(c'.rows, p.spec.steps[k].id) == Some(row) && !row.status.StepFailed?))
    && (c.ex.cursor < |p.spec.steps| ==>
          var st := p.spec.steps[c.ex.cursor];
          LastRow(c'.rows, st.id) == Some(row) || LastRow(c'.rows, st.id) == LastRow(c.rows, st.id))
  }

  lemma RewriteShows(p: Program, c: Cell, c': Cell, h: History, l: Worker, row: StepExecution)
    requires DistinctStepIds(p.spec) && HolderInv(p, c, h, l) && NextAccess(l).PutRow?
    requires 0 <= Target(p, c, l) < |c.rows| && Rewrites(c, c', Target(p, c, l), row) && row == NextAccess(l).row.(epoch := c.ex.epoch)
    ensures Shows(p, c, c', row)
    ensures !l.pc.Relabel? ==> c.ex.cursor < |p.spec.steps| && LastRow(c'.rows, p.spec.steps[c.ex.cursor].id) == Some(row)
    ensures l.pc.Relabel? ==> row.status.StepUnknownOutcome?
    ensures row.status.StepFailed? ==> l.pc.Record?
  {
    TargetRow(p, c, h, l);
    PutsKind(p, c, h, l);
    hide HolderInv;
    forall k | 0 <= k < |p.spec.steps|
      ensures LastRow(c'.rows, p.spec.steps[k].id) ==
              if LastIndex(c.rows, p.spec.steps[k].id) == Target(p, c, l) then Some(row) else LastRow(c.rows, p.spec.steps[k].id)
    {
      RewriteLast(c, c', Target(p, c, l), row, p.spec.steps[k].id);
    }
  }

  lemma PutsKind(p: Program, c: Cell, h: History, l: Worker)
    requires HolderInv(p, c, h, l) && NextAccess(l).PutRow?
    ensures l.pc.Relabel? || l.pc.ConfirmApplied? || l.pc.Start? || l.pc.Record?
    ensures l.pc.Relabel? ==> NextAccess(l).row.status.StepUnknownOutcome?
    ensures l.pc.ConfirmApplied? ==> l.pc.row.status.StepSucceeded?
    ensures l.pc.Record? && l.pc.next.ToNextStep? ==> !l.pc.row.status.StepFailed?
    ensures l.pc.Record? && l.pc.next.ToFinish? && l.pc.next.status.ExecFailed? ==> l.pc.row.status.StepFailed?
    ensures c.ex.status.ExecRunning? && CoreRecord(l.ex) == c.ex
  {
  }

  /** What was final stays so: only the row under rewrite is started. */
  lemma RewriteCell(p: Program, c: Cell, c': Cell, h: History, w: nat, l: Worker, row: StepExecution, resumed: set<nat>)
    requires Shows(p, c, c', row) && NextAccess(l).PutRow? && CoreRecord(l.ex) == c.ex && c.ex.status.ExecRunning?
    requires !l.pc.Relabel? ==> c.ex.cursor < |p.spec.steps| && LastRow(c'.rows, p.spec.steps[c.ex.cursor].id) == Some(row)
    requires l.pc.Relabel? ==> row.status.StepUnknownOutcome?
    requires row.status.StepFailed? ==> l.pc.Record?
    requires l.pc.Relabel? || l.pc.ConfirmApplied? || l.pc.Start? || l.pc.Record?
    requires l.pc.Record? ==> row == l.pc.row.(epoch := c.ex.epoch) && (l.pc.next.ToNextStep? ==> !row.status.StepFailed?)
    requires l.pc.Record? && l.pc.next.ToFinish? && l.pc.next.status.ExecFailed? ==> row.status.StepFailed?
    requires StoreFinal(p, c, h, resumed) && HolderFinal(p, c, h, resumed, l)
    requires forall k | 0 <= k < |p.spec.steps| ::
               var last := LastRow(c.rows, p.spec.steps[k].id); last.Some? && last.value.status.StepFailed? && l.pc.Start? ==> last.value.id != row.id
    ensures var h' := if l.pc.Start? then Started(h, row.id, w) else h;
            StoreFinal(p, c', h', resumed) && HolderFinal(p, c', h', resumed, AfterPutRow(p, l, row))
  {
    hide LastRow;
  }

  lemma StartsPending(p: Program, c: Cell, nextId: nat, h: History, l: Worker, k: nat)
    requires StoreInv(p, c, nextId, h) && HolderInv(p, c, h, l) && l.pc.Start? && k < |p.spec.steps|
    ensures var last := LastRow(c.rows, p.spec.steps[k].id);
            last.Some? && last.value.status.StepFailed? ==> last.value.id != l.pc.row.id
  {
    var j := LastIndex(c.rows, p.spec.steps[k].id);
    var i := LastIndex(c.rows, p.spec.steps[c.ex.cursor].id);
    assert j >= 0 && j < i ==> c.rows[j].id < c.rows[i].id;
    assert i >= 0 && i < j ==> c.rows[i].id < c.rows[j].id;
  }

  lemma RewritesFinal(p: Program, s: Sys, w: nat, resumed: set<nat>)
    requires DistinctStepIds(p.spec) && Holds(p, s, w) && FinalInv(p, s, resumed) && NextAccess(s.workers[w]).PutRow?
    requires 0 <= Target(p, Core(s.cell), s.workers[w]) < |s.cell.rows|
    ensures FinalInv(p, WithRewrite(p, s, w, Target(p, Core(s.cell), s.workers[w]),
                                    NextAccess(s.workers[w]).row.(epoch := s.cell.ex.epoch)), resumed)
  {
    HolderEpoch(p, s, w);
    var l := s.workers[w];
    var c := Core(s.cell);
    var j := Target(p, c, l);
    var row := NextAccess(l).row.(epoch := c.ex.epoch);
    var c' := c.(rows := c.rows[j := row]);
    StoreOf(p, s);
    hide Inv;
    TargetRow(p, c, s.h, l);
    RewriteShows(p, c, c', s.h, l, row);
    PutsKind(p, c, s.h, l);
    if l.pc.Start? {
      forall k | 0 <= k < |p.spec.steps|
        ensures var last := LastRow(c.rows, p.spec.steps[k].id);
                last.Some? && last.value.status.StepFailed? ==> last.value.id != row.id
      {
        StartsPending(p, c, s.nextId, s.h, l, k);
      }
    }
    hide HolderInv, StoreInv, StoreFinal, HolderFinal, AfterPutRow, Shows, LastRow, Target;
    RewriteCell(p, c, c', s.h, w, l, row, resumed);
  }

  /** What a failed or ambiguous answer means is settled when it is heard. */
  lemma HearCell(p: Program, c: Cell, h: History, h': History, l: Worker, outcome: Outcome, resumed: set<nat>, resumed': set<nat>)
    requires HolderInv(p, c, h, l) && l.pc.Await? && l.pc.row.attempt >= 1
    requires h' == h.(replies := h.replies[l.pc.row.id := outcome])
    requires c.ex.cursor < |p.spec.steps| ==> l.pc.row.tool == p.spec.steps[c.ex.cursor].tool
    requires HolderFinal(p, c, h, resumed, l) && resumed <= resumed'
    requires l.pc.resumed && outcome.ToolFailed? ==> l.pc.row.id in resumed'
    ensures HolderFinal(p, c, h', resumed', AfterReply(p, l, l.pc.row, outcome))
  {
    HearsInStep(p, c, h, l);
    hide HolderInv;
    if l.pc.resumed {
      HearResumed(p, c, h', l, outcome, resumed');
    } else {
      HearLive(p, c, h', l, outcome, resumed');
    }
  }

  lemma HearResumed(p: Program, c: Cell, h: History, l: Worker, outcome: Outcome, resumed: set<nat>)
    requires c.ex.cursor < |p.spec.steps| && l.ex.cursor == c.ex.cursor && l.pc.Await? && l.pc.resumed
    requires l.pc.row.tool == p.spec.steps[c.ex.cursor].tool
    requires l.pc.row.id in h.replies && h.replies[l.pc.row.id] == outcome && (outcome.ToolFailed? ==> l.pc.row.id in resumed)
    ensures HolderFinal(p, c, h, resumed, AfterReply(p, l, l.pc.row, outcome))
  {
    hide Final, Spent, FatalAtCursor, FinalAtCursor, UnresolvedAtCursor;
  }

  lemma HearLive(p: Program, c: Cell, h: History, l: Worker, outcome: Outcome, resumed: set<nat>)
    requires c.ex.cursor < |p.spec.steps| && l.ex.cursor == c.ex.cursor && l.pc.Await? && !l.pc.resumed
    requires l.pc.row.attempt >= 1 && AllAttempts(p, c, l)
    requires l.pc.row.id in h.replies && h.replies[l.pc.row.id] == outcome
    ensures HolderFinal(p, c, h, resumed, AfterReply(p, l, l.pc.row, outcome))
  {
    hide FatalAtCursor, FinalAtCursor, UnresolvedAtCursor, MaxAttempts;
    NoneLeft(p.spec.steps[c.ex.cursor], l.pc.row, l.endAttempt);
  }

  lemma HearsInStep(p: Program, c: Cell, h: History, l: Worker)
    requires HolderInv(p, c, h, l) && l.pc.Await?
    ensures c.ex.cursor < |p.spec.steps| && l.ex.cursor == c.ex.cursor
    ensures CursorRow(p, c.ex.cursor, c.rows) == Some(l.pc.row)
  {
  }

  lemma HearsFinal(p: Program, s: Sys, w: nat, outcome: Outcome, resumed: set<nat>, resumed': set<nat>)
    requires Holds(p, s, w) && FinalInv(p, s, resumed) && s.workers[w].pc.Await? && resumed <= resumed'
    requires s.workers[w].pc.resumed && outcome.ToolFailed? ==> s.workers[w].pc.row.id in resumed'
    ensures FinalInv(p, WithReply(p, s, w, outcome), resumed')
  {
    HolderEpoch(p, s, w);
    var l := s.workers[w];
    StoreOf(p, s);
    HearsInStep(p, Core(s.cell), s.h, l);
    AttemptsArePositive(p, Core(s.cell), s.nextId, s.h, s.cell.ex.cursor);
    hide Inv, HolderInv, HolderFinal, StoreFinal, AfterReply;
    var s' := WithReply(p, s, w, outcome);
    FinalGrows(p, Core(s.cell), s.h, resumed, s'.h, resumed');
    HearCell(p, Core(s.cell), s.h, s'.h, l, outcome, resumed, resumed');
  }

  lemma AsksCursorRow(p: Program, c: Cell, h: History, l: Worker)
    requires HolderInv(p, c, h, l) && l.pc.AskReconcile?
    ensures c.ex.cursor < |p.spec.steps| && LastRow(c.rows, p.spec.steps[c.ex.cursor].id) == Some(l.pc.row)
    ensures ToolCapability(p, l.pc.row.tool).QueryReconcile?
    ensures l.ex.cursor == c.ex.cursor
  {
  }

  lemma AsksFinal(p: Program, s: Sys, w: nat, answer: Recon, resumed: set<nat>)
    requires Holds(p, s, w) && FinalInv(p, s, resumed) && s.workers[w].pc.AskReconcile?
    ensures var l := s.workers[w];
            FinalInv(p, s.(h := s.h.(recons := s.h.recons + [(l.pc.row.id, answer)]),
                           workers := s.workers[w := l.(pc := Reconciled(l, l.pc.row, answer))]), resumed)
  {
    HolderEpoch(p, s, w);
    AsksCursorRow(p, Core(s.cell), s.h, s.workers[w]);
    hide Inv, HolderInv, FinalBelow, FatalAtCursor, FinalAtCursor;
    var s' := s.(h := s.h.(recons := s.h.recons + [(s.workers[w].pc.row.id, answer)]));
    assert s'.h.recons[|s.h.recons|] == (s.workers[w].pc.row.id, answer);
    FinalGrows(p, Core(s.cell), s.h, resumed, s'.h, resumed);
  }

  lemma CallsFinal(p: Program, s: Sys, w: nat, resumed: set<nat>)
    requires Holds(p, s, w) && FinalInv(p, s, resumed) && s.workers[w].pc.Invoke?
    ensures var l := s.workers[w];
            var row := l.pc.row;
            FinalInv(p, s.(h := s.h.(calls := s.h.calls + [Call(row.id, row.tool, row.input, row.opKey)]),
                           workers := s.workers[w := l.(pc := Await(row, l.pc.resumed))]), resumed)
  {
    var row := s.workers[w].pc.row;
    hide Inv, FinalBelow, FatalAtCursor, FinalAtCursor, AllAttempts;
    FinalGrows(p, Core(s.cell), s.h, resumed, s.h.(calls := s.h.calls + [Call(row.id, row.tool, row.input, row.opKey)]), resumed);
  }

  lemma HolderStaysFinal(p: Program, s: Sys, w: nat, now: int, reply: Reply, resumed: set<nat>)
    requires DistinctStepIds(p.spec) && Holds(p, s, w) && FinalInv(p, s, resumed)
    ensures FinalInv(p, WorkStep(p, s, w, now, reply), resumed + Hears(s, Work(w, now, reply)))
  {
    hide Inv, FinalInv;
    var l := s.workers[w];
    var resumed' := resumed + Hears(s, Work(w, now, reply));
    assert !l.pc.Await? ==> resumed' == resumed;
    match NextAccess(l)
    case Compute => ComputesFinal(p, s, w, resumed);
    case ListSteps => ListsFinal(p, s, w, resumed);
    case PutExecution(_) => RecordAccepted(p, s, w, now, reply); PutsFinal(p, s, w, now, resumed);
    case AddRow(_) => RowAccepted(p, s, w, now, reply); AddsFinal(p, s, w, resumed);
    case PutRow(_) => RewriteAccepted(p, s, w, now, reply); RewritesFinal(p, s, w, resumed);
    case QueryProvider(_) => if reply.ReconReply? { AsksFinal(p, s, w, reply.recon, resumed); }
    case CallTool(_) => CallsFinal(p, s, w, resumed);
    case AwaitTool(_) =>
      HearAccepted(p, s, w, now, reply);
      if reply.ToolReply? {
        HearsFinal(p, s, w, reply.outcome, resumed, resumed');
      } else {
        assert resumed' == resumed;
      }
    case Halt =>
  }

  lemma OutsidersFinal(p: Program, s: Sys, s': Sys, w: nat, resumed: set<nat>, resumed': set<nat>)
    requires FinalInv(p, s, resumed) && resumed <= resumed' && w < |s.workers|
    requires (w < |s.workers| - 1 || !Open(s.cell.ex.status)) && OutsiderChange(s, s', w)
    ensures FinalInv(p, s', resumed')
  {
    hide HistoryInv, StoreFinal, HolderFinal;
    FinalGrows(p, Core(s.cell), s.h, resumed, s'.h, resumed');
  }

  lemma ReadsFinal(p: Program, s: Sys, a: Action, resumed: set<nat>)
    requires Inv(p, s) && FinalInv(p, s, resumed) && ReadsOwnEpoch(s, a)
    requires a.Work? && a.w < |s.workers| && s.workers[a.w].pc.ReadExecution?
    ensures FinalInv(p, Next(p, s, a), resumed)
  {
    hide StoreFinal, FatalAtCursor, FinalAtCursor, AllAttempts, RecordsFinal;
    assert WorkerInv(s.h, s.cell.rows, a.w, s.workers[a.w]);
  }

  lemma FinalNext(p: Program, s: Sys, a: Action, resumed: set<nat>)
    requires DistinctStepIds(p.spec) && Inv(p, s) && FinalInv(p, s, resumed) && ReadsOwnEpoch(s, a)
    ensures FinalInv(p, Next(p, s, a), resumed + Hears(s, a))
  {
    hide FinalInv;
    assert resumed <= resumed + Hears(s, a);
    match a
    case Claim(_, _, _, _) => assert resumed + Hears(s, a) == resumed; LeasesFinal(p, s, a, resumed);
    case Renew(_, _, _) => assert resumed + Hears(s, a) == resumed; LeasesFinal(p, s, a, resumed);
    case Work(w, now, reply) =>
      if w >= |s.workers| {
        assert resumed + Hears(s, a) == resumed;
      } else if s.workers[w].pc.ReadExecution? {
        assert resumed + Hears(s, a) == resumed;
        ReadsFinal(p, s, a, resumed);
      } else if w < |s.workers| - 1 || !Open(s.cell.ex.status) {
        OutsiderKeeps(p, s, a);
        OutsidersFinal(p, s, Next(p, s, a), w, resumed, resumed + Hears(s, a));
      } else {
        HolderStaysFinal(p, s, w, now, reply, resumed);
      }
  }

  lemma {:induction false} FinalRun(p: Program, s: Sys, history: seq<Action>)
    requires DistinctStepIds(p.spec) && Inv(p, s) && FinalInv(p, s, {}) && OwnEpochs(p, s, history)
    ensures FinalInv(p, Exec(p, s, history), ResumedFailures(p, s, history))
  {
    hide Inv, FinalInv, Hears;
    if history != [] {
      var front := history[..|history| - 1];
      OwnEpochsPrefix(p, s, history);
      FinalRun(p, s, front);
      ExecKeeps(p, s, front);
      assert history[..|front|] == front;
      assert ReadsOwnEpoch(Exec(p, s, history[..|front|]), history[|front|]);
      FinalNext(p, Exec(p, s, front), history[|front|], ResumedFailures(p, s, front));
    }
  }

  // ---------------------------------------------------------------- in every reachable state

  lemma FreshIsFinal(p: Program, ex: Execution, owner: string)
    requires FreshExecution(ex)
    ensures FinalInv(p, Initial(ex, owner), {})
  {
  }

  lemma AlwaysFinal(p: Program, ex: Execution, owner: string, history: seq<Action>)
    requires Genuine(p, ex, owner, history)
    ensures FinalInv(p, After(p, ex, owner, history), ResumedFailures(p, Initial(ex, owner), history))
  {
    hide Inv, FinalInv;
    InitialInv(p, ex, owner);
    FreshIsFinal(p, ex, owner);
    FinalRun(p, Initial(ex, owner), history);
  }

  /** A row recorded as FAILED whose tool was called is known to have failed. */
  lemma FailureIsKnown(p: Program, c: Cell, nextId: nat, h: History, k: nat)
    requires StoreInv(p, c, nextId, h) && k < |p.spec.steps|
    ensures var last := LastRow(c.rows, p.spec.steps[k].id);
            last.Some? && last.value.status.StepFailed? && last.value.id in h.starter ==> KnownFailed(h, last.value)
  {
    hide BindingsBefore;
    var j := LastIndex(c.rows, p.spec.steps[k].id);
    assert j >= 0 ==> RowFact(p, h, c.ex.req, BindingsBefore(p, c.ex.req, c.rows, k), p.spec.steps[k], c.rows[j]);
  }

  lemma StartsStay(p: Program, s: Sys, a: Action)
    ensures forall id | id in s.h.starter :: id in Next(p, s, a).h.starter
  {
    hide AfterReply, AfterPutRow, AfterAddRow, AfterPutExecution, AfterList, AfterCompute, AfterGet;
  }

  lemma HeardWereStarted(s: Sys, a: Action)
    requires HistoryInv(s)
    ensures Hears(s, a) <= s.h.starter.Keys
  {
    if Hears(s, a) != {} {
      assert WorkerInv(s.h, s.cell.rows, a.w, s.workers[a.w]);
    }
  }

  lemma {:induction false} ResumedWereStarted(p: Program, ex: Execution, owner: string, history: seq<Action>)
    requires Genuine(p, ex, owner, history)
    ensures ResumedFailures(p, Initial(ex, owner), history) <= After(p, ex, owner, history).h.starter.Keys
  {
    hide Next, Hears;
    if history != [] {
      var front := history[..|history| - 1];
      OwnEpochsPrefix(p, Initial(ex, owner), history);
      ResumedWereStarted(p, ex, owner, front);
      Reached(p, ex, owner, front);
      HeardWereStarted(After(p, ex, owner, front), history[|history| - 1]);
      StartsStay(p, After(p, ex, owner, front), history[|history| - 1]);
    }
  }

  /** Declared attempts happen. A step is passed over as failed only if it may be, and only after its last
      declared attempt failed, or on arguments that do not resolve. */
  lemma PassedFailuresAreFinal(p: Program, ex: Execution, owner: string, history: seq<Action>, k: nat, j: nat)
    requires Genuine(p, ex, owner, history)
    requires var c := After(p, ex, owner, history).cell;
             && k < c.ex.cursor && k < |p.spec.steps| && j < |c.rows| && LastIndex(c.rows, p.spec.steps[k].id) == j
             && c.rows[j].status.StepFailed?
    ensures var s := After(p, ex, owner, history);
            && p.spec.steps[k].onError.ContinueStep?
            && (s.cell.rows[j].id !in s.h.starter || (KnownFailed(s.h, s.cell.rows[j]) && Spent(p.spec.steps[k], s.cell.rows[j])))
  {
    Reached(p, ex, owner, history);
    AlwaysFinal(p, ex, owner, history);
    var s := After(p, ex, owner, history);
    FailureIsKnown(p, Core(s.cell), s.nextId, s.h, k);
    hide HolderInv, HolderFinal, RowFacts;
    assert Settled(p.spec.steps[k], s.cell.rows);
  }

  /** And an execution whose inputs were accepted ends FAILED only if its step may not be passed over and its
      last declared attempt failed, or its arguments do not resolve; or if that attempt was one that a
      recovery resumed: its failure fails the skill, whatever the step declares. */
  lemma FailuresAreFatal(p: Program, ex: Execution, owner: string, history: seq<Action>)
    requires Genuine(p, ex, owner, history)
    requires var c := After(p, ex, owner, history).cell; c.ex.status.ExecFailed? && InputsAccepted(p, c.ex.req)
    ensures var s := After(p, ex, owner, history);
            var last := CursorRow(p, s.cell.ex.cursor, s.cell.rows);
            && s.cell.ex.cursor < |p.spec.steps| && last.Some? && last.value.status.StepFailed?
            && var st := p.spec.steps[s.cell.ex.cursor];
               || (last.value.id !in s.h.starter && !st.onError.ContinueStep?)
               || (&& KnownFailed(s.h, last.value)
                   && (|| (Spent(st, last.value) && !st.onError.ContinueStep?)
                       || last.value.id in ResumedFailures(p, Initial(ex, owner), history)))
  {
    Reached(p, ex, owner, history);
    AlwaysFinal(p, ex, owner, history);
    var s := After(p, ex, owner, history);
    hide HolderInv, HolderFinal, RowFacts;
    FailureIsKnown(p, Core(s.cell), s.nextId, s.h, s.cell.ex.cursor);
    if LastRow(s.cell.rows, p.spec.steps[s.cell.ex.cursor].id).value.id !in s.h.starter {
      ResumedWereStarted(p, ex, owner, history);
    }
  }

  /** An execution ends as NEEDS_RECONCILIATION only if nothing is left to find out: its ambiguous attempt is of
      a tool without idempotency; or of one that deduplicates, but it was the last declared one and was heard to
      be ambiguous; or of one whose provider can be asked, but it was heard to be ambiguous, or the provider
      could not say. */
  lemma ReconciliationIsNeeded(p: Program, ex: Execution, owner: string, history: seq<Action>)
    requires Genuine(p, ex, owner, history) && After(p, ex, owner, history).cell.ex.status.ExecNeedsReconciliation?
    ensures var s := After(p, ex, owner, history);
            var last := CursorRow(p, s.cell.ex.cursor, s.cell.rows);
            && s.cell.ex.cursor < |p.spec.steps| && last.Some? && last.value.status.StepUnknownOutcome?
            && var st := p.spec.steps[s.cell.ex.cursor];
               var heard := last.value.id in s.h.replies && s.h.replies[last.value.id].Ambiguous?;
               && (ToolCapability(p, st.tool).Native? ==> heard && Spent(st, last.value))
               && (ToolCapability(p, st.tool).QueryReconcile? ==> heard || (last.value.id, Undecided) in s.h.recons)
  {
    Reached(p, ex, owner, history);
    AlwaysFinal(p, ex, owner, history);
    hide HolderInv, HolderFinal, RowFacts;
  }

  /** With tools that answer by operation: an execution that ends FAILED differs from the uninterrupted run
      exactly if its inputs were accepted, the step it failed at may be passed over, and the uninterrupted
      run gets through the steps after it. Then the failed attempt was one that a recovery resumed. */
  lemma FailedUnlikeReferenceIff(p: Program, ex: Execution, owner: string, history: seq<Action>, tools: Tools)
    requires Genuine(p, ex, owner, history) && Faithful(After(p, ex, owner, history), tools)
    requires After(p, ex, owner, history).cell.ex.status.ExecFailed?
    ensures var c := After(p, ex, owner, history).cell;
            ReferenceRun(p, ex.req, tools).Some? <==>
              && InputsAccepted(p, ex.req)
              && c.ex.cursor < |p.spec.steps| && p.spec.steps[c.ex.cursor].onError.ContinueStep?
              && ReferenceSteps(p, ex.req, tools, BindingsBefore(p, ex.req, c.rows, c.ex.cursor), c.ex.cursor + 1).Some?
    ensures var c := After(p, ex, owner, history).cell;
            ReferenceRun(p, ex.req, tools).Some? ==>
              && CursorRow(p, c.ex.cursor, c.rows).Some?
              && CursorRow(p, c.ex.cursor, c.rows).value.id in ResumedFailures(p, Initial(ex, owner), history)
  {
    hide Exec, OwnEpochs, FreshExecution, ResumedFailures, ReferenceRun, ReferenceSteps, ReferenceStep, BindingsBefore,
         CursorRow, KnownFailed, Spent;
    Reached(p, ex, owner, history);
    InitialInv(p, ex, owner);
    SameRequest(p, Initial(ex, owner), history);
    var s := After(p, ex, owner, history);
    hide Inv, Faithful;
    if InputsAccepted(p, ex.req) {
      FailuresAreFatal(p, ex, owner, history);
      LedgerIsReferencePrefix(p, ex, owner, history, tools);
      FailedLikeReference(p, s, tools);
      RunGoesOn(p, ex.req, tools, BindingsBefore(p, ex.req, s.cell.rows, s.cell.ex.cursor), s.cell.ex.cursor);
    } else {
      RefusedRun(p, ex.req, tools);
    }
  }

  lemma RefusedRun(p: Program, req: Request, tools: Tools)
    requires !InputsAccepted(p, req)
    ensures ReferenceRun(p, req, tools).None?
  {
  }

  /** The reference run from a step that fails. */
  lemma RunGoesOn(p: Program, req: Request, tools: Tools, b: Bindings, k: nat)
    requires InputsAccepted(p, req) && k < StepLimit(p.spec)
    requires ReferenceSteps(p, req, tools, InputBindings(req.inputs), 0) == ReferenceSteps(p, req, tools, b, k)
    requires ReferenceStep(p, req, tools, b, p.spec.steps[k]) == if p.spec.steps[k].onError.ContinueStep? then Some(b) else None
    ensures ReferenceRun(p, req, tools).Some? <==>
            p.spec.steps[k].onError.ContinueStep? && ReferenceSteps(p, req, tools, b, k + 1).Some?
  {
    hide ReferenceStep, InputsAccepted, InputBindings;
  }

  /** At a step that failed, the uninterrupted run goes on exactly if the step may be passed over. */
  lemma FailedLikeReference(p: Program, s: Sys, tools: Tools)
    requires Inv(p, s) && Faithful(s, tools) && s.cell.ex.cursor < |p.spec.steps|
    requires var last := CursorRow(p, s.cell.ex.cursor, s.cell.rows);
             last.Some? && last.value.status.StepFailed?
    ensures var k := s.cell.ex.cursor;
            var req := s.cell.ex.req;
            var b := BindingsBefore(p, req, s.cell.rows, k);
            && k < StepLimit(p.spec)
            && ReferenceStep(p, req, tools, b, p.spec.steps[k]) == if p.spec.steps[k].onError.ContinueStep? then Some(b) else None
  {
    var k := s.cell.ex.cursor;
    var st := p.spec.steps[k];
    var j := LastIndex(s.cell.rows, st.id);
    var row := s.cell.rows[j];
    FailureIsKnown(p, Core(s.cell), s.nextId, s.h, k);
    var b := BindingsBefore(p, s.cell.ex.req, s.cell.rows, k);
    assert RowFact(p, s.h, s.cell.ex.req, b, st, row);
    if row.id in s.h.starter {
      AnswerOfRow(s, tools, j);
    }
    hide Inv, Faithful, BindingsBefore;
    FailedRowLikeReference(p, s.h, s.cell.ex.req, tools, b, st, row);
  }

  lemma FailedRowLikeReference(p: Program, h: History, req: Request, tools: Tools, b: Bindings, st: SkillStep, row: StepExecution)
    requires RowFact(p, h, req, b, st, row) && row.status.StepFailed?
    requires row.id in h.starter ==> KnownFailed(h, row) && h.replies[row.id] == tools(row.tool, row.input, row.opKey)
    ensures ReferenceStep(p, req, tools, b, st) == if st.onError.ContinueStep? then Some(b) else None
  {
  }
}
