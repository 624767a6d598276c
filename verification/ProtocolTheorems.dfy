/** What holds after every history of the runtime protocol: any interleaving of workers,
    crashes, claims, lease renewals, tool answers and provider answers. */
module ProtocolTheorems {
  import opened ExecutionLedger
  import opened HolderLemmas
  import opened ProtocolInvariant
  import opened ProtocolPreservation
  import opened RuntimeProtocol
  import opened SkillSpec

  /** The histories the theorems speak about. */
  ghost predicate Genuine(p: Program, ex: Execution, owner: string, history: seq<Action>) {
    DistinctStepIds(p.spec) && FreshExecution(ex) && OwnEpochs(p, Initial(ex, owner), history)
  }

  function After(p: Program, ex: Execution, owner: string, history: seq<Action>): Sys {
    Exec(p, Initial(ex, owner), history)
  }

  lemma Reached(p: Program, ex: Execution, owner: string, history: seq<Action>)
    requires Genuine(p, ex, owner, history)
    ensures Inv(p, After(p, ex, owner, history))
  {
    InitialInv(p, ex, owner);
    ExecKeeps(p, Initial(ex, owner), history);
  }

  /** Below the cursor every step is settled by its last row; above it there are no rows; the
      rows of a step are numbered upwards in creation order. */
  lemma CursorMatchesLedger(p: Program, ex: Execution, owner: string, history: seq<Action>)
    requires Genuine(p, ex, owner, history)
    ensures var c := After(p, ex, owner, history).cell;
            && (forall k | 0 <= k < c.ex.cursor && k < |p.spec.steps| :: Settled(p.spec.steps[k], c.rows))
            && (forall k, j | 0 <= k < |p.spec.steps| && 0 <= j < |c.rows| && c.rows[j].stepId == p.spec.steps[k].id ::
                  k <= c.ex.cursor)
            && (forall i, j | 0 <= i < j < |c.rows| && c.rows[i].stepId == c.rows[j].stepId ::
                  c.rows[i].attempt < c.rows[j].attempt)
  {
    Reached(p, ex, owner, history);
    var s := After(p, ex, owner, history);
    forall k, j | 0 <= k < |p.spec.steps| && 0 <= j < |s.cell.rows| && s.cell.rows[j].stepId == p.spec.steps[k].id
      ensures k <= s.cell.ex.cursor
    {
      assert RowFact(p, s.h, s.cell.ex.req, BindingsBefore(p, s.cell.ex.req, s.cell.rows, k), p.spec.steps[k], s.cell.rows[j]);
    }
  }

  /** Each row is marked RUNNING at most once over all workers, each call is for a row that was,
      no two calls are for the same row, and a call carries that row's tool, input and operation key. */
  lemma OneCallPerRow(p: Program, ex: Execution, owner: string, history: seq<Action>)
    requires Genuine(p, ex, owner, history)
    ensures var s := After(p, ex, owner, history);
            && (forall i, j | 0 <= i < j < |s.h.starts| :: s.h.starts[i] != s.h.starts[j])
            && (forall i | 0 <= i < |s.h.calls| :: s.h.calls[i].rowId in s.h.starts && SameCall(s.cell.rows, s.h.calls[i]))
            && (forall i, j | 0 <= i < j < |s.h.calls| :: s.h.calls[i].rowId != s.h.calls[j].rowId)
  {
    Reached(p, ex, owner, history);
  }

  /** A tool without idempotency is called again for the same step only after the earlier call
      is known to have failed: of any two calls of such a step one is a known failure. */
  lemma NoBlindRetry(p: Program, ex: Execution, owner: string, history: seq<Action>, a: nat, b: nat)
    requires Genuine(p, ex, owner, history)
    requires var s := After(p, ex, owner, history);
             && a < |s.cell.rows| && b < |s.cell.rows| && a != b
             && s.cell.rows[a].stepId == s.cell.rows[b].stepId
             && ToolCapability(p, s.cell.rows[a].tool).NoIdempotency?
             && ToolCapability(p, s.cell.rows[b].tool).NoIdempotency?
             && Called(s.h, s.cell.rows[a].id) && Called(s.h, s.cell.rows[b].id)
    ensures var s := After(p, ex, owner, history);
            KnownFailed(s.h, s.cell.rows[a]) || KnownFailed(s.h, s.cell.rows[b])
  {
    Reached(p, ex, owner, history);
    var s := After(p, ex, owner, history);
    var first := if a < b then a else b;
    assert MayRetryAfter(p, s.h, s.cell.rows[first]);
    var i :| 0 <= i < |s.h.calls| && s.h.calls[i].rowId == s.cell.rows[first].id;
  }

  /** With a provider that can be queried, a further attempt after a call that is not known to
      have failed was preceded by the answer NOT_APPLIED; and a step is recorded as done only on a
      successful answer of the tool, or on APPLIED with exactly that output. */
  lemma ReconciledAttempts(p: Program, ex: Execution, owner: string, history: seq<Action>, a: nat)
    requires Genuine(p, ex, owner, history)
    requires var s := After(p, ex, owner, history);
             && a < |s.cell.rows| && ToolCapability(p, s.cell.rows[a].tool).QueryReconcile?
             && Called(s.h, s.cell.rows[a].id)
             && exists k :: 0 <= k < |p.spec.steps| && p.spec.steps[k].id == s.cell.rows[a].stepId
    ensures var s := After(p, ex, owner, history);
            var row := s.cell.rows[a];
            && ((exists b :: a < b < |s.cell.rows| && s.cell.rows[b].stepId == row.stepId) ==>
                  KnownFailed(s.h, row) || (row.id, NotApplied) in s.h.recons)
            && (DoneStatus(row.status) ==>
                  || (row.id in s.h.replies && s.h.replies[row.id] == ToolOk(row.output))
                  || (row.id, Applied(row.output)) in s.h.recons)
  {
    Reached(p, ex, owner, history);
    var s := After(p, ex, owner, history);
    var row := s.cell.rows[a];
    var i :| 0 <= i < |s.h.calls| && s.h.calls[i].rowId == row.id;
    var k :| 0 <= k < |p.spec.steps| && p.spec.steps[k].id == row.stepId;
    assert RowFact(p, s.h, s.cell.ex.req, BindingsBefore(p, s.cell.ex.req, s.cell.rows, k), p.spec.steps[k], row);
    forall b | a < b < |s.cell.rows| && s.cell.rows[b].stepId == row.stepId
      ensures KnownFailed(s.h, row) || (row.id, NotApplied) in s.h.recons
    {
      assert MayRetryAfter(p, s.h, row);
    }
  }

  /** Two calls of one step can both succeed only if the tool deduplicates by operation key, or its
      provider answered NOT_APPLIED about the first. */
  lemma AtMostOneSuccess(p: Program, ex: Execution, owner: string, history: seq<Action>, a: nat, b: nat)
    requires Genuine(p, ex, owner, history)
    requires var s := After(p, ex, owner, history);
             && a < b < |s.cell.rows| && s.cell.rows[a].stepId == s.cell.rows[b].stepId
             && s.cell.rows[a].id in s.h.replies && s.h.replies[s.cell.rows[a].id].ToolOk?
             && s.cell.rows[b].id in s.h.replies && s.h.replies[s.cell.rows[b].id].ToolOk?
    ensures var s := After(p, ex, owner, history);
            var capability := ToolCapability(p, s.cell.rows[a].tool);
            capability.Native? || (capability.QueryReconcile? && (s.cell.rows[a].id, NotApplied) in s.h.recons)
  {
    Reached(p, ex, owner, history);
    var s := After(p, ex, owner, history);
    assert MayRetryAfter(p, s.h, s.cell.rows[a]);
    assert Called(s.h, s.cell.rows[a].id);
  }

  /** A key names its execution and its step, as long as execution ids hold no colon. */
  lemma KeysNameSteps(id: string, stepId: string, id': string, stepId': string)
    requires ':' !in id && ':' !in id'
    requires OperationKey(id, stepId) == OperationKey(id', stepId')
    ensures id == id' && stepId == stepId'
  {
    var key, key' := OperationKey(id, stepId), OperationKey(id', stepId');
    assert key[|id|] == ':' && key'[|id'|] == ':';
    assert forall i | 0 <= i < |id| :: key[i] == id[i];
    assert forall i | 0 <= i < |id'| :: key'[i] == id'[i];
    assert |id| == |id'|;
    assert key[..|id|] == id && key'[..|id|] == id';
    assert key[|id| + 1..] == stepId && key'[|id| + 1..] == stepId';
  }

  lemma SameIdSameStep(id: string, stepId: string, stepId': string)
    requires OperationKey(id, stepId) == OperationKey(id, stepId')
    ensures stepId == stepId'
  {
    assert OperationKey(id, stepId)[|id| + 1..] == stepId;
    assert OperationKey(id, stepId')[|id| + 1..] == stepId';
  }

  /** All attempts of a step that were made carry one operation key, and no other step has it: what a
      provider needs to recognise a repeated operation. */
  lemma AttemptsShareKeyIff(p: Program, ex: Execution, owner: string, history: seq<Action>, k: nat, m: nat, i: nat, j: nat)
    requires Genuine(p, ex, owner, history)
    requires var s := After(p, ex, owner, history);
             && k < |p.spec.steps| && m < |p.spec.steps| && i < |s.cell.rows| && j < |s.cell.rows|
             && s.cell.rows[i].stepId == p.spec.steps[k].id && s.cell.rows[i].id in s.h.starter
             && s.cell.rows[j].stepId == p.spec.steps[m].id && s.cell.rows[j].id in s.h.starter
    ensures var rows := After(p, ex, owner, history).cell.rows; rows[i].opKey == rows[j].opKey <==> k == m
  {
    Reached(p, ex, owner, history);
    var s := After(p, ex, owner, history);
    KeyOfAttempt(p, Core(s.cell), s.nextId, s.h, k, i);
    KeyOfAttempt(p, Core(s.cell), s.nextId, s.h, m, j);
    if s.cell.rows[i].opKey == s.cell.rows[j].opKey {
      SameIdSameStep(s.cell.ex.req.id, p.spec.steps[k].id, p.spec.steps[m].id);
    }
  }

  lemma KeyOfAttempt(p: Program, c: Cell, nextId: nat, h: History, k: nat, i: nat)
    requires StoreInv(p, c, nextId, h) && k < |p.spec.steps| && i < |c.rows| && c.rows[i].stepId == p.spec.steps[k].id
    requires c.rows[i].id in h.starter
    ensures c.rows[i].opKey == OperationKey(c.ex.req.id, p.spec.steps[k].id)
  {
    hide BindingsBefore;
    assert RowFact(p, h, c.ex.req, BindingsBefore(p, c.ex.req, c.rows, k), p.spec.steps[k], c.rows[i]);
  }

  /** With `max_steps` set, only that many steps are ever attempted, and a skill succeeds when they are settled. */
  lemma StepsWithinMax(p: Program, ex: Execution, owner: string, history: seq<Action>, k: nat)
    requires Genuine(p, ex, owner, history) && k < |p.spec.steps|
    ensures var c := After(p, ex, owner, history).cell;
            if p.spec.maxSteps > 0 && k >= p.spec.maxSteps
            then forall j | 0 <= j < |c.rows| :: c.rows[j].stepId != p.spec.steps[k].id
            else c.ex.status.ExecSucceeded? ==> Settled(p.spec.steps[k], c.rows)
  {
    Reached(p, ex, owner, history);
    var s := After(p, ex, owner, history);
    hide RowFact, HolderInv;
    forall j | 0 <= j < |s.cell.rows| && s.cell.rows[j].stepId == p.spec.steps[k].id
      ensures k < StepLimit(p.spec)
    {
      assert RowFact(p, s.h, s.cell.ex.req, BindingsBefore(p, s.cell.ex.req, s.cell.rows, k), p.spec.steps[k], s.cell.rows[j]);
    }
  }

  /** Whether the worker is about to create or start an attempt from its live bindings. */
  predicate UsesBindings(pc: Pc) {
    pc.CreateSkip? || pc.CreateBroken? || pc.CreateAttempt?
  }

  /** The live bindings of the lease holder are what rebuilding them from the ledger would give. */
  lemma RebuiltBindingsAreLive(p: Program, ex: Execution, owner: string, history: seq<Action>)
    requires Genuine(p, ex, owner, history)
    requires var s := After(p, ex, owner, history);
             |s.workers| > 0 && Open(s.cell.ex.status) && UsesBindings(Holder(s).pc)
    ensures var s := After(p, ex, owner, history);
            Holder(s).bindings ==
            RebuildBindings(p.spec, s.cell.rows, InputBindings(s.cell.ex.req.inputs), |p.spec.steps|)
  {
    Reached(p, ex, owner, history);
    var s := After(p, ex, owner, history);
    LiveBindings(p, Core(s.cell), s.nextId, s.h, Holder(s));
  }

  lemma LiveBindings(p: Program, c: Cell, nextId: nat, h: History, l: Worker)
    requires StoreInv(p, c, nextId, h) && HolderInv(p, c, h, l) && UsesBindings(l.pc)
    ensures l.bindings == RebuildBindings(p.spec, c.rows, InputBindings(c.ex.req.inputs), |p.spec.steps|)
  {
    RebuiltAtCursor(p, c, nextId, h, if l.pc.CreateSkip? then 1 else l.pc.row.attempt);
  }

  /** Where an execution can end, and what its ledger then says of the step at the cursor. */
  lemma TerminalLedger(p: Program, ex: Execution, owner: string, history: seq<Action>)
    requires Genuine(p, ex, owner, history)
    ensures var c := After(p, ex, owner, history).cell;
            var last := CursorRow(p, c.ex.cursor, c.rows);
            match c.ex.status
            case ExecPending => c.rows == [] && c.ex.cursor == 0
            case ExecRunning => true
            case ExecSucceeded =>
              && (forall k | 0 <= k < StepLimit(p.spec) :: Settled(p.spec.steps[k], c.rows))
              && c.ex.outputs == ExtractOutputs(p.spec,
                   RebuildBindings(p.spec, c.rows, InputBindings(c.ex.req.inputs), StepLimit(p.spec)))
            case ExecFailed =>
              !InputsAccepted(p, c.ex.req) || (last.Some? && last.value.status.StepFailed?)
            case ExecNeedsReconciliation => last.Some? && last.value.status.StepUnknownOutcome?
            case _ => false
  {
    Reached(p, ex, owner, history);
  }

  // ---------------------------------------------------------------- exclusive leases

  /** No two workers ever work under the same epoch, and none under one that was not its claim's. */
  ghost predicate ExclusiveEpochs(s: Sys) {
    && (forall w | 0 <= w < |s.workers| && !s.workers[w].pc.ReadExecution? :: s.workers[w].ex.epoch == s.workers[w].claimed)
    && (forall v, w | 0 <= v < w < |s.workers| :: s.workers[v].claimed < s.workers[w].claimed)
  }

  lemma EpochsAreExclusive(p: Program, ex: Execution, owner: string, history: seq<Action>)
    requires Genuine(p, ex, owner, history)
    ensures ExclusiveEpochs(After(p, ex, owner, history))
  {
    Reached(p, ex, owner, history);
    var s := After(p, ex, owner, history);
    forall w | 0 <= w < |s.workers| ensures s.workers[w].claimed == w + 1 {
      assert WorkerInv(s.h, s.cell.rows, w, s.workers[w]);
    }
    forall w | 0 <= w < |s.workers| && !s.workers[w].pc.ReadExecution?
      ensures s.workers[w].ex.epoch == s.workers[w].claimed
    {
      assert WorkerInv(s.h, s.cell.rows, w, s.workers[w]);
    }
  }

  /** Recover takes the epoch from the record it reads, not from its claim; that keeps the
      epochs exclusive exactly when nobody claimed the execution in between. */
  lemma ReadBackIsExclusiveIff(p: Program, ex: Execution, owner: string, history: seq<Action>, w: nat, now: int, reply: Reply)
    requires Genuine(p, ex, owner, history)
    requires var s := After(p, ex, owner, history); w < |s.workers| && s.workers[w].pc.ReadExecution?
    ensures var s := After(p, ex, owner, history);
            ExclusiveEpochs(Next(p, s, Work(w, now, reply))) <==> s.cell.ex.epoch == s.workers[w].claimed
  {
    EpochsAreExclusive(p, ex, owner, history);
    var s := After(p, ex, owner, history);
    var s' := Next(p, s, Work(w, now, reply));
    assert s'.workers[w].ex == s.cell.ex;
    if s.cell.ex.epoch == s.workers[w].claimed {
      Reached(p, ex, owner, history);
      ReadKeeps(p, s, Work(w, now, reply));
      forall v | 0 <= v < |s'.workers| ensures s'.workers[v].claimed == v + 1 {
        assert WorkerInv(s'.h, s'.cell.rows, v, s'.workers[v]);
      }
      forall v | 0 <= v < |s'.workers| && !s'.workers[v].pc.ReadExecution?
        ensures s'.workers[v].ex.epoch == s'.workers[v].claimed
      {
        assert WorkerInv(s'.h, s'.cell.rows, v, s'.workers[v]);
      }
    }
  }
}
