/** Where the lease holder goes after each access, on a ledger that satisfies the invariant. */
module HolderLemmas {
  import opened ExecutionLedger
  import opened LedgerLemmas
  import opened ProtocolInvariant
  import opened RecoveryPlanner
  import opened RuntimeProtocol
  import opened SkillSpec
  import opened Wrappers

  /** With no row yet, or after a row that may be retried, the step's guard held. */
  lemma GuardHeld(p: Program, c: Cell, h: History)
    requires RowFacts(p, h, c.ex.req, c.ex.cursor, c.rows) && c.ex.cursor < |p.spec.steps|
    ensures var last := CursorRow(p, c.ex.cursor, c.rows);
            last.Some? && !last.value.status.StepSkipped? ==>
              GuardHolds(p, p.spec.steps[c.ex.cursor], BindingsAtCursor(p, c))
  {
    var j := LastIndex(c.rows, p.spec.steps[c.ex.cursor].id);
    if j >= 0 {
      assert RowFact(p, h, c.ex.req, BindingsBefore(p, c.ex.req, c.rows, c.ex.cursor), p.spec.steps[c.ex.cursor], c.rows[j]);
    }
  }

  lemma LoopHeadOk(p: Program, c: Cell, nextId: nat, h: History, l: Worker, attempt: nat)
    requires StoreInv(p, c, nextId, h) && c.ex.status.ExecRunning? && CoreRecord(l.ex) == c.ex
    requires l.bindings == BindingsAtCursor(p, c) && InputsAccepted(p, c.ex.req)
    requires NextAttemptOk(p, c, h, attempt) && attempt >= 1
    ensures HolderInv(p, c, h, LoopHead(p, l, attempt))
  {
    if c.ex.cursor < StepLimit(p.spec) {
      GuardHeld(p, c, h);
      if GuardHolds(p, p.spec.steps[c.ex.cursor], l.bindings) {
        LoopHeadAttempts(p, c, h, l, attempt);
      }
    }
  }

  lemma LoopHeadAttempts(p: Program, c: Cell, h: History, l: Worker, attempt: nat)
    requires InLoop(p, c, l) && CoreRecord(l.ex) == c.ex && attempt >= 1 && NextAttemptOk(p, c, h, attempt)
    requires GuardHolds(p, p.spec.steps[c.ex.cursor], l.bindings)
    ensures HolderInv(p, c, h, LoopHead(p, l, attempt))
  {
  }

  /** What rebuildBindings reads off the whole ledger is what the steps below the cursor saved. */
  lemma RebuiltAtCursor(p: Program, c: Cell, nextId: nat, h: History, attempt: nat)
    requires StoreInv(p, c, nextId, h) && RunFrom(p, c, h, attempt)
    ensures RebuildBindings(p.spec, c.rows, InputBindings(c.ex.req.inputs), |p.spec.steps|) == BindingsAtCursor(p, c)
  {
    var n := |p.spec.steps|;
    forall i | Min(c.ex.cursor, n) <= i < n
      ensures var last := LastRow(c.rows, p.spec.steps[i].id); last.None? || !DoneStatus(last.value.status)
    {
      var j := LastIndex(c.rows, p.spec.steps[i].id);
      if j >= 0 {
        assert c.rows[j].stepId == p.spec.steps[i].id;
        assert i <= c.ex.cursor;
      }
    }
    RebuildStops(p.spec, c.rows, InputBindings(c.ex.req.inputs), Min(c.ex.cursor, n), n);
  }

  /** Without rows, or at the first step, the bindings are the inputs. */
  lemma UnresumedBindings(p: Program, c: Cell)
    requires c.ex.cursor == 0 || c.rows == []
    ensures BindingsAtCursor(p, c) == InputBindings(c.ex.req.inputs)
  {
    RebuildStops(p.spec, c.rows, InputBindings(c.ex.req.inputs), 0, Min(c.ex.cursor, |p.spec.steps|));
  }

  lemma LoadedOk(p: Program, c: Cell, nextId: nat, h: History, l: Worker, attempt: nat)
    requires StoreInv(p, c, nextId, h) && c.ex.status.ExecRunning? && CoreRecord(l.ex) == c.ex
    requires RunFrom(p, c, h, attempt)
    ensures HolderInv(p, c, h, Loaded(p, l, c.rows, attempt))
  {
    var resumed := c.ex.cursor > 0 && |c.rows| > 0;
    if resumed {
      RebuiltAtCursor(p, c, nextId, h, attempt);
    } else {
      UnresumedBindings(p, c);
    }
    if c.ex.cursor > 0 || InputsAccepted(p, c.ex.req) {
      var l' := l.(bindings := BindingsAtCursor(p, c), sequence := if resumed then |c.rows| else 0);
      LoopHeadOk(p, c, nextId, h, l', if attempt > 0 then attempt else 1);
    }
  }

  lemma PlanOk(p: Program, c: Cell, nextId: nat, h: History, l: Worker)
    requires StoreInv(p, c, nextId, h) && CoreRecord(l.ex) == c.ex && c.ex.status.ExecRunning?
    requires p.spec.steps != [] && forall j | 0 <= j < |c.rows| :: !c.rows[j].status.StepRunning?
    ensures HolderInv(p, c, h, Planned(p, l, c.rows))
  {
    if c.ex.cursor < |p.spec.steps| {
      var st := p.spec.steps[c.ex.cursor];
      LatestIsLast(c.rows, st.id);
      var j := LastIndex(c.rows, st.id);
      if j >= 0 {
        assert RowFact(p, h, c.ex.req, BindingsBefore(p, c.ex.req, c.rows, c.ex.cursor), st, c.rows[j]);
        PlanAttemptOk(p, c, h, l, st, c.rows[j]);
      }
    }
  }

  lemma PlanAttemptOk(p: Program, c: Cell, h: History, l: Worker, st: SkillStep, last: StepExecution)
    requires CoreRecord(l.ex) == c.ex && c.ex.status.ExecRunning? && c.ex.cursor < StepLimit(p.spec)
    requires st == p.spec.steps[c.ex.cursor] && CursorRow(p, c.ex.cursor, c.rows) == Some(last)
    requires RowFact(p, h, c.ex.req, BindingsAtCursor(p, c), st, last) && !last.status.StepRunning?
    requires LatestAttempt(c.rows, st.id) == Some(last)
    ensures HolderInv(p, c, h, Planned(p, l, c.rows))
  {
    assert Plan(p, l.ex, c.rows) == PlanAttempt(p, st, last);
    match last.status
    case StepFailed =>
      assert MayRetryAfter(p, h, last);
    case _ =>
  }

  lemma ReconciledOk(p: Program, c: Cell, h: History, h': History, l: Worker, answer: Recon)
    requires HolderInv(p, c, h, l) && l.pc.AskReconcile?
    requires h' == h.(recons := h.recons + [(l.pc.row.id, answer)])
    requires l.pc.row.id in h.starter && l.pc.row.attempt >= 1
    ensures HolderInv(p, c, h', l.(pc := Reconciled(l, l.pc.row, answer)))
  {
  }

  lemma ResumedReplyOk(p: Program, c: Cell, h: History, h': History, l: Worker, outcome: Outcome)
    requires HolderInv(p, c, h, l) && l.pc.Await? && l.pc.resumed
    requires h' == h.(replies := h.replies[l.pc.row.id := outcome])
    requires l.pc.row.id in h.starter
    ensures HolderInv(p, c, h', l.(pc := AfterResumedCall(p, l.ex.req.mode, l.pc.row, outcome)))
  {
  }

  lemma ReplyOk(p: Program, c: Cell, h: History, h': History, l: Worker, outcome: Outcome)
    requires HolderInv(p, c, h, l) && l.pc.Await? && !l.pc.resumed && !outcome.ToolFailed?
    requires h' == h.(replies := h.replies[l.pc.row.id := outcome])
    requires l.pc.row.id in h.starter
    requires l.pc.row.tool == p.spec.steps[c.ex.cursor].tool
    ensures HolderInv(p, c, h', l.(pc := AfterCall(p, l.ex, l.endAttempt, p.spec.steps[c.ex.cursor], l.pc.row, outcome)))
  {
  }

  lemma FailedReplyOk(p: Program, c: Cell, h: History, h': History, l: Worker, outcome: Outcome)
    requires HolderInv(p, c, h, l) && l.pc.Await? && !l.pc.resumed && outcome.ToolFailed?
    requires h' == h.(replies := h.replies[l.pc.row.id := outcome])
    requires l.pc.row.id in h.starter
    requires RowFact(p, h, c.ex.req, BindingsAtCursor(p, c), p.spec.steps[c.ex.cursor], l.pc.row)
    ensures HolderInv(p, c, h', l.(pc := AfterCall(p, l.ex, l.endAttempt, p.spec.steps[c.ex.cursor], l.pc.row, outcome)))
  {
    assert MayRetryAfter(p, h', l.pc.row);
  }

  // ---------------------------------------------------------------- accepted writes of the execution record

  lemma CheckpointOk(p: Program, c: Cell, c': Cell, nextId: nat, h: History, l: Worker, l': Worker)
    requires StoreInv(p, c, nextId, h) && HolderInv(p, c, h, l) && l.pc.Checkpoint?
    requires c' == c.(ex := c.ex.(cursor := l.pc.cursor))
    requires CoreRecord(l'.ex) == c'.ex && l'.pc == Enter(l.pc.attempt)
    ensures StoreInv(p, c', nextId, h) && HolderInv(p, c', h, l')
  {
    if l.pc.cursor > c.ex.cursor && c.ex.cursor < |p.spec.steps| {
      var j := LastIndex(c.rows, p.spec.steps[c.ex.cursor].id);
      assert HasStarted(c);
    }
    RecordChangeKeeps(p, c, c', nextId, h);
    if l.pc.cursor > c.ex.cursor {
      NoRowsAbove(p, c, h);
    }
  }

  lemma NoRowsAbove(p: Program, c: Cell, h: History)
    requires RowFacts(p, h, c.ex.req, c.ex.cursor, c.rows)
    ensures CursorRow(p, c.ex.cursor + 1, c.rows).None?
  {
    if c.ex.cursor + 1 < |p.spec.steps| {
      var above := p.spec.steps[c.ex.cursor + 1].id;
      assert forall j | 0 <= j < |c.rows| :: c.rows[j].stepId != above;
    }
  }

  lemma EnterOk(p: Program, c: Cell, c': Cell, nextId: nat, h: History, l: Worker, l': Worker)
    requires StoreInv(p, c, nextId, h) && HolderInv(p, c, h, l) && l.pc.Enter? && Open(c.ex.status)
    requires c' == c.(ex := c.ex.(status := ExecRunning))
    requires CoreRecord(l'.ex) == c'.ex && l'.pc == Load(l.pc.attempt)
    ensures StoreInv(p, c', nextId, h) && HolderInv(p, c', h, l')
  {
    RecordChangeKeeps(p, c, c', nextId, h);
  }

  lemma AdvanceOk(p: Program, c: Cell, c': Cell, nextId: nat, h: History, l: Worker, l': Worker)
    requires StoreInv(p, c, nextId, h) && HolderInv(p, c, h, l) && l.pc.Advance?
    requires c' == c.(ex := c.ex.(cursor := c.ex.cursor + 1))
    requires CoreRecord(l'.ex) == c'.ex && l'.bindings == l.bindings
    ensures StoreInv(p, c', nextId, h) && HolderInv(p, c', h, LoopHead(p, l', 1))
  {
    AdvanceStores(p, c, c', nextId, h, l);
    AdvancedLoop(p, c, c', h, l);
    hide StoreInv, LoopHead, HolderInv, InputsAccepted, BindingsAtCursor, NextAttemptOk;
    LoopHeadOk(p, c', nextId, h, l', 1);
  }

  lemma AdvancedLoop(p: Program, c: Cell, c': Cell, h: History, l: Worker)
    requires RowFacts(p, h, c.ex.req, c.ex.cursor, c.rows) && HolderInv(p, c, h, l) && l.pc.Advance?
    requires c' == c.(ex := c.ex.(cursor := c.ex.cursor + 1))
    ensures c'.ex.status.ExecRunning? && l.bindings == BindingsAtCursor(p, c') && NextAttemptOk(p, c', h, 1)
  {
    NoRowsAbove(p, c, h);
  }

  lemma AdvanceStores(p: Program, c: Cell, c': Cell, nextId: nat, h: History, l: Worker)
    requires StoreInv(p, c, nextId, h) && HolderInv(p, c, h, l) && l.pc.Advance?
    requires c' == c.(ex := c.ex.(cursor := c.ex.cursor + 1))
    ensures StoreInv(p, c', nextId, h) && InputsAccepted(p, c.ex.req)
  {
    var j := LastIndex(c.rows, p.spec.steps[c.ex.cursor].id);
    assert HasStarted(c);
    RecordChangeKeeps(p, c, c', nextId, h);
  }

  lemma FinishOk(p: Program, c: Cell, c': Cell, nextId: nat, h: History, l: Worker)
    requires StoreInv(p, c, nextId, h) && HolderInv(p, c, h, l) && l.pc.Finish?
    requires c' == c.(ex := c.ex.(status := l.pc.status, errorCode := l.pc.code,
                                  outputs := if l.pc.status == ExecSucceeded then l.pc.outputs else c.ex.outputs))
    ensures StoreInv(p, c', nextId, h) && !Open(c'.ex.status)
  {
    RecordChangeKeeps(p, c, c', nextId, h);
  }

  // ---------------------------------------------------------------- accepted ledger writes

  /** A settled row without an output closes its step and leaves the bindings as they are. */
  lemma AppendCloses(p: Program, c: Cell, c': Cell, nextId: nat, row: StepExecution)
    requires DistinctStepIds(p.spec) && Appends(p, c, c', nextId, row)
    requires SettledRow(p.spec.steps[c.ex.cursor], row) && !DoneStatus(row.status)
    ensures Settled(p.spec.steps[c.ex.cursor], c'.rows)
    ensures BindingsBefore(p, c.ex.req, c'.rows, c.ex.cursor + 1) == BindingsAtCursor(p, c)
  {
    AppendViews(p, c, c', nextId, row);
  }

  lemma AddSkipOk(p: Program, c: Cell, c': Cell, nextId: nat, h: History, l: Worker, row: StepExecution)
    requires DistinctStepIds(p.spec) && StoreInv(p, c, nextId, h) && HolderInv(p, c, h, l) && l.pc.CreateSkip?
    requires row == l.pc.row.(id := nextId, epoch := c.ex.epoch, attempt := 1) && nextId !in h.starter
    requires Appends(p, c, c', nextId, row)
    ensures StoreInv(p, c', nextId + 1, h) && HolderInv(p, c', h, l.(pc := Advance))
  {
    AppendKeeps(p, c, c', nextId, h, row);
    AppendCloses(p, c, c', nextId, row);
  }

  lemma AddBrokenOk(p: Program, c: Cell, c': Cell, nextId: nat, h: History, l: Worker, row: StepExecution)
    requires DistinctStepIds(p.spec) && StoreInv(p, c, nextId, h) && HolderInv(p, c, h, l) && l.pc.CreateBroken?
    requires row == l.pc.row.(id := nextId, epoch := c.ex.epoch) && nextId !in h.starter
    requires Appends(p, c, c', nextId, row)
    ensures StoreInv(p, c', nextId + 1, h) && HolderInv(p, c', h, AfterAddRow(p, l, row))
  {
    AppendKeeps(p, c, c', nextId, h, row);
    BrokenGoesOn(p, c, c', nextId, h, l, row);
  }

  lemma BrokenGoesOn(p: Program, c: Cell, c': Cell, nextId: nat, h: History, l: Worker, row: StepExecution)
    requires DistinctStepIds(p.spec) && HolderInv(p, c, h, l) && l.pc.CreateBroken? && c.ex.outputs.None?
    requires row.status.StepFailed? && Appends(p, c, c', nextId, row)
    ensures HolderInv(p, c', h, AfterAddRow(p, l, row))
  {
    if p.spec.steps[c.ex.cursor].onError.ContinueStep? {
      AppendCloses(p, c, c', nextId, row);
    } else {
      AppendViews(p, c, c', nextId, row);
    }
  }

  lemma AddAttemptOk(p: Program, c: Cell, c': Cell, nextId: nat, h: History, l: Worker, row: StepExecution)
    requires DistinctStepIds(p.spec) && StoreInv(p, c, nextId, h) && HolderInv(p, c, h, l) && l.pc.CreateAttempt?
    requires row == l.pc.row.(id := nextId, epoch := c.ex.epoch) && nextId !in h.starter
    requires Appends(p, c, c', nextId, row)
    ensures StoreInv(p, c', nextId + 1, h) && HolderInv(p, c', h, l.(pc := Start(row, false)))
  {
    AppendKeeps(p, c, c', nextId, h, row);
    AppendViews(p, c, c', nextId, row);
  }

  lemma RelabelOk(p: Program, c: Cell, c': Cell, nextId: nat, h: History, l: Worker, row: StepExecution)
    requires StoreInv(p, c, nextId, h) && HolderInv(p, c, h, l) && l.pc.Relabel? && l.pc.k < |c.rows|
    requires c.rows[l.pc.k].status.StepRunning? && row.status.StepUnknownOutcome?
    requires Rewrites(c, c', l.pc.k, row)
    ensures StoreInv(p, c', nextId, h)
    ensures HolderInv(p, c', h, l.(pc := Relabel(l.pc.k + 1, c'.rows)))
  {
    var k := l.pc.k;
    forall i | 0 <= i < c.ex.cursor && i < |p.spec.steps|
      ensures LastIndex(c.rows, p.spec.steps[i].id) != k
    {
      assert Settled(p.spec.steps[i], c.rows);
    }
    forall i | k < i < |c.rows| && c.rows[i].stepId == row.stepId
      ensures MayRetryAfter(p, h, row)
    {
      assert MayRetryAfter(p, h, c.rows[k]);
    }
    forall i | 0 <= i < |p.spec.steps| && p.spec.steps[i].id == row.stepId
      ensures RowFact(p, h, c.ex.req, BindingsBefore(p, c.ex.req, c.rows, i), p.spec.steps[i], row)
    {
      assert RowFact(p, h, c.ex.req, BindingsBefore(p, c.ex.req, c.rows, i), p.spec.steps[i], c.rows[k]);
    }
    RewriteKeeps(p, c, c', nextId, h, h, k, row);
  }

  /** The rewritten row is the last one of the step at the cursor. */
  predicate RewritesAtCursor(p: Program, c: Cell, c': Cell, row: StepExecution) {
    && c.ex.cursor < StepLimit(p.spec)
    && var j := LastIndex(c.rows, p.spec.steps[c.ex.cursor].id);
       j >= 0 && Rewrites(c, c', j, row)
  }

  lemma CursorRewriteViews(p: Program, c: Cell, c': Cell, row: StepExecution)
    requires DistinctStepIds(p.spec) && RewritesAtCursor(p, c, c', row)
    ensures UnseenBelow(p, c, LastIndex(c.rows, p.spec.steps[c.ex.cursor].id))
    ensures CursorRow(p, c.ex.cursor, c'.rows) == Some(row)
    ensures BindingsAtCursor(p, c') == BindingsAtCursor(p, c)
    ensures BindingsBefore(p, c.ex.req, c'.rows, c.ex.cursor + 1) ==
            if DoneStatus(row.status) then Bind(BindingsAtCursor(p, c), p.spec.steps[c.ex.cursor], row.output)
            else BindingsAtCursor(p, c)
  {
    var j := LastIndex(c.rows, p.spec.steps[c.ex.cursor].id);
    forall i | 0 <= i < c.ex.cursor
      ensures LastIndex(c.rows, p.spec.steps[i].id) != j
    {
      assert p.spec.steps[i].id != p.spec.steps[c.ex.cursor].id;
    }
    RewriteLast(c, c', j, row, p.spec.steps[c.ex.cursor].id);
    RewriteViews(p, c, c', j, row, c.ex.cursor);
  }

  lemma CursorRewriteKeeps(p: Program, c: Cell, c': Cell, nextId: nat, h: History, h': History, row: StepExecution)
    requires DistinctStepIds(p.spec) && StoreInv(p, c, nextId, h) && c.ex.status.ExecRunning?
    requires RewritesAtCursor(p, c, c', row) && Grows(h, h', row.id)
    requires RowFact(p, h', c.ex.req, BindingsAtCursor(p, c), p.spec.steps[c.ex.cursor], row)
    ensures StoreInv(p, c', nextId, h')
  {
    CursorRewriteViews(p, c, c', row);
    var j := LastIndex(c.rows, p.spec.steps[c.ex.cursor].id);
    forall k | 0 <= k < |p.spec.steps| && p.spec.steps[k].id == row.stepId
      ensures RowFact(p, h', c.ex.req, BindingsBefore(p, c.ex.req, c.rows, k), p.spec.steps[k], row)
    {
      assert k == c.ex.cursor;
    }
    RewriteKeeps(p, c, c', nextId, h, h', j, row);
  }

  /** The invariant's fact about the row at the cursor. */
  lemma CursorRowFact(p: Program, c: Cell, h: History)
    requires RowFacts(p, h, c.ex.req, c.ex.cursor, c.rows) && c.ex.cursor < |p.spec.steps|
    ensures var last := CursorRow(p, c.ex.cursor, c.rows);
            last.Some? ==> RowFact(p, h, c.ex.req, BindingsAtCursor(p, c), p.spec.steps[c.ex.cursor], last.value)
  {
    var j := LastIndex(c.rows, p.spec.steps[c.ex.cursor].id);
    if j >= 0 {
      assert RowFact(p, h, c.ex.req, BindingsBefore(p, c.ex.req, c.rows, c.ex.cursor), p.spec.steps[c.ex.cursor], c.rows[j]);
    }
  }

  lemma ConfirmOk(p: Program, c: Cell, c': Cell, nextId: nat, h: History, l: Worker, row: StepExecution)
    requires DistinctStepIds(p.spec) && StoreInv(p, c, nextId, h) && HolderInv(p, c, h, l) && l.pc.ConfirmApplied?
    requires row == l.pc.row.(epoch := c.ex.epoch) && RewritesAtCursor(p, c, c', row)
    ensures StoreInv(p, c', nextId, h)
    ensures HolderInv(p, c', h, l.(pc := Checkpoint(l.ex.cursor + 1, 0)))
  {
    CursorRowFact(p, c, h);
    CursorRewriteKeeps(p, c, c', nextId, h, h, row);
    CursorRewriteViews(p, c, c', row);
  }

  lemma StartOk(p: Program, c: Cell, c': Cell, nextId: nat, h: History, h': History, w: nat, l: Worker, row: StepExecution)
    requires DistinctStepIds(p.spec) && StoreInv(p, c, nextId, h) && HolderInv(p, c, h, l) && l.pc.Start?
    requires row == l.pc.row.(status := StepRunning, epoch := c.ex.epoch) && RewritesAtCursor(p, c, c', row)
    requires h' == h.(starter := h.starter[row.id := w], starts := h.starts + [row.id])
    ensures row.id !in h.starter
    ensures StoreInv(p, c', nextId, h')
    ensures HolderInv(p, c', h', l.(pc := Invoke(row, l.pc.resumed)))
  {
    CursorRowFact(p, c, h);
    StartedRowFact(p, c, h, h', l, row);
    CursorRewriteKeeps(p, c, c', nextId, h, h', row);
    CursorRewriteViews(p, c, c', row);
    hide StoreInv, BindingsAtCursor, BindingsBefore, RowFact;
    StartedInv(p, c, c', h', l, row);
  }

  /** The row is RUNNING now, and known to be started. */
  lemma StartedRowFact(p: Program, c: Cell, h: History, h': History, l: Worker, row: StepExecution)
    requires HolderInv(p, c, h, l) && l.pc.Start? && c.ex.cursor < |p.spec.steps|
    requires row == l.pc.row.(status := StepRunning, epoch := c.ex.epoch)
    requires row.id in h'.starter && h'.starter == h.starter[row.id := h'.starter[row.id]]
    requires RowFact(p, h, c.ex.req, BindingsAtCursor(p, c), p.spec.steps[c.ex.cursor], CursorRow(p, c.ex.cursor, c.rows).value)
    ensures RowFact(p, h', c.ex.req, BindingsAtCursor(p, c), p.spec.steps[c.ex.cursor], row) && row.id !in h.starter
  {
  }

  lemma StartedInv(p: Program, c: Cell, c': Cell, h': History, l: Worker, row: StepExecution)
    requires AttemptInv(p, c, h', l) && l.pc.Start? && CoreRecord(l.ex) == c.ex && c'.ex == c.ex
    requires row.status.StepRunning? && CursorRow(p, c.ex.cursor, c'.rows) == Some(row) && c.ex.cursor < StepLimit(p.spec)
    requires BindingsAtCursor(p, c') == BindingsAtCursor(p, c)
    ensures HolderInv(p, c', h', l.(pc := Invoke(row, l.pc.resumed)))
  {
  }

  lemma RecordOk(p: Program, c: Cell, c': Cell, nextId: nat, h: History, l: Worker, row: StepExecution)
    requires DistinctStepIds(p.spec) && StoreInv(p, c, nextId, h) && HolderInv(p, c, h, l) && l.pc.Record?
    requires row == l.pc.row.(epoch := c.ex.epoch) && RewritesAtCursor(p, c, c', row)
    ensures StoreInv(p, c', nextId, h)
    ensures HolderInv(p, c', h, Recorded(p, l, row, l.pc.next))
  {
    CursorRowFact(p, c, h);
    CursorRewriteKeeps(p, c, c', nextId, h, h, row);
    CursorRewriteViews(p, c, c', row);
    if l.pc.next.ToRetry? || l.pc.next.ToRerun? {
      RetryRecordedOk(p, c, c', h, l, row);
    } else {
      ClosedRecordedOk(p, c, c', h, l, row);
    }
  }

  lemma RetryRecordedOk(p: Program, c: Cell, c': Cell, h: History, l: Worker, row: StepExecution)
    requires HolderInv(p, c, h, l) && l.pc.Record? && (l.pc.next.ToRetry? || l.pc.next.ToRerun?)
    requires row == l.pc.row.(epoch := c.ex.epoch) && RewritesAtCursor(p, c, c', row)
    requires CursorRow(p, c.ex.cursor, c'.rows) == Some(row) && BindingsAtCursor(p, c') == BindingsAtCursor(p, c)
    requires RowFact(p, h, c.ex.req, BindingsAtCursor(p, c), p.spec.steps[c.ex.cursor], row)
    ensures HolderInv(p, c', h, Recorded(p, l, row, l.pc.next))
  {
    assert MayRetryAfter(p, h, row);
  }

  lemma ClosedRecordedOk(p: Program, c: Cell, c': Cell, h: History, l: Worker, row: StepExecution)
    requires HolderInv(p, c, h, l) && l.pc.Record? && !l.pc.next.ToRetry? && !l.pc.next.ToRerun?
    requires row == l.pc.row.(epoch := c.ex.epoch) && RewritesAtCursor(p, c, c', row) && c.ex.outputs.None?
    requires CursorRow(p, c.ex.cursor, c'.rows) == Some(row)
    requires BindingsBefore(p, c.ex.req, c'.rows, c.ex.cursor + 1) ==
             if DoneStatus(row.status) then Bind(BindingsAtCursor(p, c), p.spec.steps[c.ex.cursor], row.output)
             else BindingsAtCursor(p, c)
    ensures HolderInv(p, c', h, Recorded(p, l, row, l.pc.next))
  {
    hide BindingsAtCursor, NextAttemptOk, OutcomeFact, BindingsBefore, GuardHolds, PreconditionsHold, Bind, LastIndex,
         ExtractOutputs, FreshRow, IsCursorRow;
  }
}
