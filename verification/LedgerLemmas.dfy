/** Facts about ledgers: last rows, and the bindings rebuilt from them. */
module LedgerLemmas {
  import opened ExecutionLedger
  import opened ProtocolInvariant
  import opened RecoveryPlanner
  import opened RuntimeProtocol
  import opened SkillSpec
  import opened Templates
  import opened Wrappers

  lemma LastIndexIs(rows: Rows, stepId: string, j: nat)
    requires j < |rows| && rows[j].stepId == stepId
    requires forall k | j < k < |rows| :: rows[k].stepId != stepId
    ensures LastIndex(rows, stepId) == j
  {
  }

  lemma LastRowAppend(rows: Rows, row: StepExecution, stepId: string)
    ensures LastRow(rows + [row], stepId) == if row.stepId == stepId then Some(row) else LastRow(rows, stepId)
  {
    var j := LastIndex(rows, stepId);
    if row.stepId == stepId {
      LastIndexIs(rows + [row], stepId, |rows|);
    } else if j >= 0 {
      LastIndexIs(rows + [row], stepId, j);
    }
  }

  lemma LastIndexUpdate(rows: Rows, i: nat, row: StepExecution, stepId: string)
    requires i < |rows| && rows[i].stepId == row.stepId
    ensures LastIndex(rows[i := row], stepId) == LastIndex(rows, stepId)
  {
    var j := LastIndex(rows, stepId);
    if j >= 0 {
      LastIndexIs(rows[i := row], stepId, j);
    } else {
      var j' := LastIndex(rows[i := row], stepId);
    }
  }

  /** What bindings can see of a step. */
  predicate SameView(a: Option<StepExecution>, b: Option<StepExecution>) {
    var doneA := a.Some? && DoneStatus(a.value.status);
    var doneB := b.Some? && DoneStatus(b.value.status);
    doneA == doneB && (doneA ==> a.value.output == b.value.output)
  }

  lemma {:induction false} RebuildFrame(spec: Spec, rows: Rows, rows': Rows, base: Bindings, k: nat)
    requires k <= |spec.steps|
    requires forall i | 0 <= i < k :: SameView(LastRow(rows, spec.steps[i].id), LastRow(rows', spec.steps[i].id))
    ensures RebuildBindings(spec, rows, base, k) == RebuildBindings(spec, rows', base, k)
  {
    if k > 0 {
      RebuildFrame(spec, rows, rows', base, k - 1);
      assert SameView(LastRow(rows, spec.steps[k - 1].id), LastRow(rows', spec.steps[k - 1].id));
    }
  }

  /** Steps without a successful last row add nothing to the bindings. */
  lemma {:induction false} RebuildStops(spec: Spec, rows: Rows, base: Bindings, m: nat, k: nat)
    requires m <= k <= |spec.steps|
    requires forall i | m <= i < k ::
      var last := LastRow(rows, spec.steps[i].id); last.None? || !DoneStatus(last.value.status)
    ensures RebuildBindings(spec, rows, base, k) == RebuildBindings(spec, rows, base, m)
  {
    if m < k {
      RebuildStops(spec, rows, base, m, k - 1);
      var last := LastRow(rows, spec.steps[k - 1].id);
    }
  }

  /** With attempts numbered upwards the planner's latest attempt is the last row of the step. */
  lemma {:induction false} LatestIsLast(rows: Rows, stepId: string)
    requires forall i, j | 0 <= i < j < |rows| && rows[i].stepId == rows[j].stepId :: rows[i].attempt < rows[j].attempt
    ensures LatestAttempt(rows, stepId) == LastRow(rows, stepId)
  {
    if rows != [] {
      var front := rows[..|rows| - 1];
      LatestIsLast(front, stepId);
      assert rows == front + [rows[|rows| - 1]];
      LastRowAppend(front, rows[|rows| - 1], stepId);
    }
  }

  lemma FindRowAt(rows: Rows, j: nat)
    requires j < |rows|
    requires forall i, k | 0 <= i < k < |rows| :: rows[i].id < rows[k].id
    ensures FindRow(rows, rows[j].id) == j
  {
    forall i | 0 <= i < |rows| && i != j
      ensures rows[i].id != rows[j].id
    {
    }
    var r := FindRow(rows, rows[j].id);
  }

  /** Bindings before a step only look at the last rows of earlier steps. */
  lemma BindingsFrame(p: Program, req: Request, rows: Rows, rows': Rows, k: nat)
    requires k <= |p.spec.steps|
    requires forall i | 0 <= i < k :: SameView(LastRow(rows, p.spec.steps[i].id), LastRow(rows', p.spec.steps[i].id))
    ensures BindingsBefore(p, req, rows', k) == BindingsBefore(p, req, rows, k)
  {
    RebuildFrame(p.spec, rows, rows', InputBindings(req.inputs), k);
  }

  // ---------------------------------------------------------------- store changes that keep the invariant

  /** A new row of the step at the cursor. */
  predicate Appends(p: Program, c: Cell, c': Cell, nextId: nat, row: StepExecution) {
    && c.ex.cursor < StepLimit(p.spec)
    && row.stepId == p.spec.steps[c.ex.cursor].id
    && row.id == nextId
    && row.epoch == c.ex.epoch
    && c' == c.(rows := c.rows + [row])
  }

  lemma AppendViews(p: Program, c: Cell, c': Cell, nextId: nat, row: StepExecution)
    requires DistinctStepIds(p.spec) && Appends(p, c, c', nextId, row)
    ensures forall i | 0 <= i < |p.spec.steps| && i != c.ex.cursor ::
      LastRow(c'.rows, p.spec.steps[i].id) == LastRow(c.rows, p.spec.steps[i].id)
    ensures CursorRow(p, c.ex.cursor, c'.rows) == Some(row)
    ensures forall k | 0 <= k <= c.ex.cursor ::
      BindingsBefore(p, c.ex.req, c'.rows, k) == BindingsBefore(p, c.ex.req, c.rows, k)
  {
    forall i | 0 <= i < |p.spec.steps| && i != c.ex.cursor
      ensures LastRow(c'.rows, p.spec.steps[i].id) == LastRow(c.rows, p.spec.steps[i].id)
    {
      LastRowAppend(c.rows, row, p.spec.steps[i].id);
    }
    LastRowAppend(c.rows, row, row.stepId);
    forall k | 0 <= k <= c.ex.cursor
      ensures BindingsBefore(p, c.ex.req, c'.rows, k) == BindingsBefore(p, c.ex.req, c.rows, k)
    {
      BindingsFrame(p, c.ex.req, c.rows, c'.rows, k);
    }
  }

  lemma AppendOrder(p: Program, c: Cell, c': Cell, nextId: nat, h: History, row: StepExecution)
    requires RowOrder(c.rows, nextId, c.ex.epoch) && AttemptOrder(p, h, c.rows) && Appends(p, c, c', nextId, row)
    requires NextAttemptOk(p, c, h, row.attempt)
    ensures RowOrder(c'.rows, nextId + 1, c.ex.epoch) && AttemptOrder(p, h, c'.rows)
  {
    forall i, j | 0 <= i < j < |c'.rows| && c'.rows[i].stepId == c'.rows[j].stepId
      ensures c'.rows[i].attempt < c'.rows[j].attempt && MayRetryAfter(p, h, c'.rows[i])
    {
      if j == |c.rows| {
        var last := LastIndex(c.rows, row.stepId);
        assert i <= last;
        assert i < last ==> c.rows[i].attempt < c.rows[last].attempt && MayRetryAfter(p, h, c.rows[i]);
      } else {
        assert MayRetryAfter(p, h, c.rows[i]);
      }
    }
  }

  lemma AppendFacts(p: Program, c: Cell, c': Cell, nextId: nat, h: History, row: StepExecution)
    requires DistinctStepIds(p.spec) && Appends(p, c, c', nextId, row)
    requires RowFacts(p, h, c.ex.req, c.ex.cursor, c.rows)
    requires RowFact(p, h, c.ex.req, BindingsAtCursor(p, c), p.spec.steps[c.ex.cursor], row)
    ensures RowFacts(p, h, c.ex.req, c.ex.cursor, c'.rows)
  {
    AppendViews(p, c, c', nextId, row);
    forall k, j | 0 <= k < |p.spec.steps| && 0 <= j < |c'.rows| && c'.rows[j].stepId == p.spec.steps[k].id
      ensures k <= c.ex.cursor && k < StepLimit(p.spec)
      ensures RowFact(p, h, c.ex.req, BindingsBefore(p, c.ex.req, c'.rows, k), p.spec.steps[k], c'.rows[j])
    {
      if j < |c.rows| {
        assert RowFact(p, h, c.ex.req, BindingsBefore(p, c.ex.req, c.rows, k), p.spec.steps[k], c.rows[j]);
      } else {
        assert k == c.ex.cursor;
      }
    }
  }

  lemma AppendKeeps(p: Program, c: Cell, c': Cell, nextId: nat, h: History, row: StepExecution)
    requires DistinctStepIds(p.spec) && StoreInv(p, c, nextId, h) && Appends(p, c, c', nextId, row)
    requires c.ex.status.ExecRunning? && NextAttemptOk(p, c, h, row.attempt) && InputsAccepted(p, c.ex.req)
    requires RowFact(p, h, c.ex.req, BindingsAtCursor(p, c), p.spec.steps[c.ex.cursor], row)
    ensures StoreInv(p, c', nextId + 1, h)
  {
    AppendOrder(p, c, c', nextId, h, row);
    AppendFacts(p, c, c', nextId, h, row);
    AppendViews(p, c, c', nextId, row);
    forall k | 0 <= k < c.ex.cursor && k < |p.spec.steps| ensures Settled(p.spec.steps[k], c'.rows) {
      assert Settled(p.spec.steps[k], c.rows);
    }
  }

  /** Row j gets a new status, output and error code, under the current epoch. */
  predicate Rewrites(c: Cell, c': Cell, j: nat, row: StepExecution) {
    && j < |c.rows|
    && row == c.rows[j].(status := row.status, output := row.output, errorCode := row.errorCode, epoch := c.ex.epoch)
    && c' == c.(rows := c.rows[j := row])
  }

  lemma RewriteLast(c: Cell, c': Cell, j: nat, row: StepExecution, stepId: string)
    requires Rewrites(c, c', j, row)
    ensures LastRow(c'.rows, stepId) == if LastIndex(c.rows, stepId) == j then Some(row) else LastRow(c.rows, stepId)
  {
    LastIndexUpdate(c.rows, j, row, stepId);
  }

  /** The rewrite is invisible to the steps below the cursor. */
  predicate UnseenBelow(p: Program, c: Cell, j: nat) {
    forall k | 0 <= k < c.ex.cursor && k < |p.spec.steps| :: LastIndex(c.rows, p.spec.steps[k].id) != j
  }

  lemma RewriteViews(p: Program, c: Cell, c': Cell, j: nat, row: StepExecution, k: nat)
    requires Rewrites(c, c', j, row) && UnseenBelow(p, c, j) && k <= c.ex.cursor && k <= |p.spec.steps|
    ensures BindingsBefore(p, c.ex.req, c'.rows, k) == BindingsBefore(p, c.ex.req, c.rows, k)
  {
    forall i | 0 <= i < k
      ensures SameView(LastRow(c.rows, p.spec.steps[i].id), LastRow(c'.rows, p.spec.steps[i].id))
    {
      RewriteLast(c, c', j, row, p.spec.steps[i].id);
    }
    BindingsFrame(p, c.ex.req, c.rows, c'.rows, k);
  }

  /** h' knows at least what h knows, and has started at most the row under rewrite. */
  predicate Grows(h: History, h': History, id: nat) {
    && (forall x | x in h.replies :: x in h'.replies && h'.replies[x] == h.replies[x])
    && h.recons <= h'.recons
    && (forall x | x in h.starter :: x in h'.starter)
    && (forall x | x in h'.starter && x != id :: x in h.starter)
  }

  lemma RewriteOrder(p: Program, c: Cell, c': Cell, nextId: nat, h: History, h': History, j: nat, row: StepExecution)
    requires RowOrder(c.rows, nextId, c.ex.epoch) && AttemptOrder(p, h, c.rows)
    requires Rewrites(c, c', j, row) && Grows(h, h', row.id)
    requires (forall i | j < i < |c.rows| :: c.rows[i].stepId != row.stepId) || MayRetryAfter(p, h', row)
    ensures RowOrder(c'.rows, nextId, c.ex.epoch) && AttemptOrder(p, h', c'.rows)
  {
    forall a, b | 0 <= a < b < |c'.rows| && c'.rows[a].stepId == c'.rows[b].stepId
      ensures c'.rows[a].attempt < c'.rows[b].attempt && MayRetryAfter(p, h', c'.rows[a])
    {
      assert MayRetryAfter(p, h, c.rows[a]);
      assert c.rows[a].id < c.rows[b].id;
      if a != j {
        assert c.rows[a].id != row.id by {
          assert a < j ==> c.rows[a].id < c.rows[j].id;
          assert j < a ==> c.rows[j].id < c.rows[a].id;
        }
      }
    }
  }

  lemma RowFactGrows(p: Program, h: History, h': History, req: Request, b: Bindings, st: SkillStep,
                     row: StepExecution, id: nat)
    requires RowFact(p, h, req, b, st, row) && Grows(h, h', id) && id != row.id
    ensures RowFact(p, h', req, b, st, row)
  {
  }

  lemma RewriteFacts(p: Program, c: Cell, c': Cell, nextId: nat, h: History, h': History, j: nat, row: StepExecution)
    requires RowOrder(c.rows, nextId, c.ex.epoch) && RowFacts(p, h, c.ex.req, c.ex.cursor, c.rows)
    requires Rewrites(c, c', j, row) && Grows(h, h', row.id) && UnseenBelow(p, c, j)
    requires forall k | 0 <= k < |p.spec.steps| && p.spec.steps[k].id == row.stepId ::
      RowFact(p, h', c.ex.req, BindingsBefore(p, c.ex.req, c.rows, k), p.spec.steps[k], row)
    ensures RowFacts(p, h', c.ex.req, c.ex.cursor, c'.rows)
  {
    forall k, i | 0 <= k < |p.spec.steps| && 0 <= i < |c'.rows| && c'.rows[i].stepId == p.spec.steps[k].id
      ensures k <= c.ex.cursor && k < StepLimit(p.spec)
      ensures RowFact(p, h', c.ex.req, BindingsBefore(p, c.ex.req, c'.rows, k), p.spec.steps[k], c'.rows[i])
    {
      var b := BindingsBefore(p, c.ex.req, c.rows, k);
      assert c.rows[i].stepId == p.spec.steps[k].id;
      assert k <= c.ex.cursor && RowFact(p, h, c.ex.req, b, p.spec.steps[k], c.rows[i]);
      RewriteViews(p, c, c', j, row, k);
      if i != j {
        assert c.rows[i].id != row.id by {
          assert i < j ==> c.rows[i].id < c.rows[j].id;
          assert j < i ==> c.rows[j].id < c.rows[i].id;
        }
        RowFactGrows(p, h, h', c.ex.req, b, p.spec.steps[k], c.rows[i], row.id);
      }
    }
  }

  lemma RewriteKeeps(p: Program, c: Cell, c': Cell, nextId: nat, h: History, h': History, j: nat, row: StepExecution)
    requires StoreInv(p, c, nextId, h) && c.ex.status.ExecRunning?
    requires Rewrites(c, c', j, row) && Grows(h, h', row.id) && UnseenBelow(p, c, j)
    requires (forall i | j < i < |c.rows| :: c.rows[i].stepId != row.stepId) || MayRetryAfter(p, h', row)
    requires forall k | 0 <= k < |p.spec.steps| && p.spec.steps[k].id == row.stepId ::
      RowFact(p, h', c.ex.req, BindingsBefore(p, c.ex.req, c.rows, k), p.spec.steps[k], row)
    ensures StoreInv(p, c', nextId, h')
  {
    RewriteOrder(p, c, c', nextId, h, h', j, row);
    RewriteFacts(p, c, c', nextId, h, h', j, row);
    forall k | 0 <= k < c.ex.cursor && k < |p.spec.steps| ensures Settled(p.spec.steps[k], c'.rows) {
      assert Settled(p.spec.steps[k], c.rows);
      RewriteLast(c, c', j, row, p.spec.steps[k].id);
    }
  }

  /** The execution record changed, the ledger did not. */
  lemma RecordChangeKeeps(p: Program, c: Cell, c': Cell, nextId: nat, h: History)
    requires StoreInv(p, c, nextId, h)
    requires c'.rows == c.rows && c'.ex.epoch == c.ex.epoch && c'.ex.req == c.ex.req && c'.ex.cursor >= c.ex.cursor
    requires forall k | c.ex.cursor <= k < c'.ex.cursor && k < |p.spec.steps| :: Settled(p.spec.steps[k], c.rows)
    requires CursorFact(p, c') && StatusFact(p, c')
    ensures StoreInv(p, c', nextId, h)
  {
    forall k, j | 0 <= k < |p.spec.steps| && 0 <= j < |c'.rows| && c'.rows[j].stepId == p.spec.steps[k].id
      ensures RowFact(p, h, c'.ex.req, BindingsBefore(p, c'.ex.req, c'.rows, k), p.spec.steps[k], c'.rows[j])
    {
      assert RowFact(p, h, c.ex.req, BindingsBefore(p, c.ex.req, c.rows, k), p.spec.steps[k], c.rows[j]);
    }
  }

  /** More answers are known; nothing else changed. */
  lemma AnswersKeep(p: Program, c: Cell, nextId: nat, h: History, h': History)
    requires StoreInv(p, c, nextId, h) && Grows(h, h', nextId) && h'.starter == h.starter
    ensures StoreInv(p, c, nextId, h')
  {
    forall k, j | 0 <= k < |p.spec.steps| && 0 <= j < |c.rows| && c.rows[j].stepId == p.spec.steps[k].id
      ensures RowFact(p, h', c.ex.req, BindingsBefore(p, c.ex.req, c.rows, k), p.spec.steps[k], c.rows[j])
    {
      var b := BindingsBefore(p, c.ex.req, c.rows, k);
      assert RowFact(p, h, c.ex.req, b, p.spec.steps[k], c.rows[j]);
      RowFactGrows(p, h, h', c.ex.req, b, p.spec.steps[k], c.rows[j], nextId);
    }
  }
}
