/** Crashes, claims and recoveries do not change the result of a skill. */
module CrashTransparency {
  import opened ExecutionLedger
  import opened ProtocolInvariant
  import opened ProtocolPreservation
  import opened ProtocolTheorems
  import opened RuntimeProtocol
  import opened SkillSpec
  import opened Templates
  import opened Wrappers

  /** A tool whose answer depends only on the tool, its input and the operation key. */
  type Tools = (string, Bindings, string) -> Outcome

  /** The uninterrupted meaning of one step: the bindings after it, or None if it fails the run. */
  function ReferenceStep(p: Program, req: Request, tools: Tools, b: Bindings, st: SkillStep): Option<Bindings> {
    if !GuardHolds(p, st, b) then Some(b)
    else
      match ResolveArgs(p.render, st.args, b)
      case None => if st.onError.ContinueStep? then Some(b) else None
      case Some(input) =>
        match tools(st.tool, input, OperationKey(req.id, st.id))
        case ToolOk(output) => Some(Bind(b, st, output))
        case ToolFailed(_, _) => if st.onError.ContinueStep? then Some(b) else None
        case Ambiguous => None
  }

  /** The steps from i on: the final bindings, or None if the run fails. */
  function ReferenceSteps(p: Program, req: Request, tools: Tools, b: Bindings, i: nat): Option<Bindings>
    decreases StepLimit(p.spec) - i
  {
    if i >= StepLimit(p.spec) then Some(b)
    else
      var b' := ReferenceStep(p, req, tools, b, p.spec.steps[i]);
      if b'.None? then None else ReferenceSteps(p, req, tools, b'.value, i + 1)
  }

  /** The outputs of the uninterrupted run, or None if it does not succeed. */
  function ReferenceRun(p: Program, req: Request, tools: Tools): Option<Option<Bindings>> {
    if !InputsAccepted(p, req) then None
    else
      var b := ReferenceSteps(p, req, tools, InputBindings(req.inputs), 0);
      if b.Some? then Some(ExtractOutputs(p.spec, b.value)) else None
  }

  /** Every answer a worker got was the tool's answer or ambiguous, and providers that confirmed
      an operation reported its answer. */
  ghost predicate Faithful(s: Sys, tools: Tools) {
    && (forall i | 0 <= i < |s.h.calls| && s.h.calls[i].rowId in s.h.replies ::
          var call := s.h.calls[i];
          s.h.replies[call.rowId].Ambiguous? || s.h.replies[call.rowId] == tools(call.tool, call.input, call.opKey))
    && (forall j, output | 0 <= j < |s.cell.rows| && (s.cell.rows[j].id, Applied(output)) in s.h.recons ::
          tools(s.cell.rows[j].tool, s.cell.rows[j].input, s.cell.rows[j].opKey) == ToolOk(output))
  }

  lemma AnswerOfRow(s: Sys, tools: Tools, j: nat)
    requires HistoryInv(s) && Faithful(s, tools) && j < |s.cell.rows|
    requires var row := s.cell.rows[j];
             row.id in s.h.replies && !s.h.replies[row.id].Ambiguous?
    ensures var row := s.cell.rows[j]; s.h.replies[row.id] == tools(row.tool, row.input, row.opKey)
  {
    var row := s.cell.rows[j];
    assert Called(s.h, row.id);
    var i :| 0 <= i < |s.h.calls| && s.h.calls[i].rowId == row.id;
    assert SameCall(s.cell.rows, s.h.calls[i]);
  }

  /** A settled step changed the ledger's bindings the way the reference run would. */
  lemma SettledLikeReference(p: Program, s: Sys, tools: Tools, k: nat)
    requires Inv(p, s) && Faithful(s, tools)
    requires k < StepLimit(p.spec) && Settled(p.spec.steps[k], s.cell.rows)
    ensures var req := s.cell.ex.req;
            ReferenceStep(p, req, tools, BindingsBefore(p, req, s.cell.rows, k), p.spec.steps[k]) ==
            Some(BindingsBefore(p, req, s.cell.rows, k + 1))
  {
    var st := p.spec.steps[k];
    var req := s.cell.ex.req;
    var j := LastIndex(s.cell.rows, st.id);
    var row := s.cell.rows[j];
    assert RowFact(p, s.h, req, BindingsBefore(p, req, s.cell.rows, k), st, row);
    if row.id in s.h.replies && !s.h.replies[row.id].Ambiguous? {
      AnswerOfRow(s, tools, j);
    }
    RowLikeReference(p, s.h, req, tools, BindingsBefore(p, req, s.cell.rows, k), st, row);
  }

  lemma RowLikeReference(p: Program, h: History, req: Request, tools: Tools, b: Bindings, st: SkillStep, row: StepExecution)
    requires RowFact(p, h, req, b, st, row) && SettledRow(st, row)
    requires row.id in h.replies && !h.replies[row.id].Ambiguous? ==>
               h.replies[row.id] == tools(row.tool, row.input, row.opKey)
    requires (row.id, Applied(row.output)) in h.recons ==> tools(row.tool, row.input, row.opKey) == ToolOk(row.output)
    ensures ReferenceStep(p, req, tools, b, st) == Some(if DoneStatus(row.status) then Bind(b, st, row.output) else b)
  {
  }

  /** The ledger's bindings follow the reference run through the first k steps. */
  ghost predicate Follows(p: Program, req: Request, rows: Rows, tools: Tools, k: nat)
    requires k <= StepLimit(p.spec)
  {
    forall i | 0 <= i < k ::
      ReferenceStep(p, req, tools, BindingsBefore(p, req, rows, i), p.spec.steps[i]) ==
      Some(BindingsBefore(p, req, rows, i + 1))
  }

  lemma {:induction false} ReferenceContinues(p: Program, req: Request, rows: Rows, tools: Tools, k: nat)
    requires k <= StepLimit(p.spec) && Follows(p, req, rows, tools, k)
    ensures ReferenceSteps(p, req, tools, InputBindings(req.inputs), 0) ==
            ReferenceSteps(p, req, tools, BindingsBefore(p, req, rows, k), k)
  {
    if k > 0 {
      ReferenceContinues(p, req, rows, tools, k - 1);
      assert ReferenceStep(p, req, tools, BindingsBefore(p, req, rows, k - 1), p.spec.steps[k - 1]) ==
             Some(BindingsBefore(p, req, rows, k));
    }
  }

  lemma LedgerFollows(p: Program, s: Sys, tools: Tools, k: nat)
    requires Inv(p, s) && Faithful(s, tools)
    requires k <= StepLimit(p.spec) && k <= s.cell.ex.cursor
    ensures Follows(p, s.cell.ex.req, s.cell.rows, tools, k)
  {
    forall i | 0 <= i < k
      ensures var req := s.cell.ex.req;
              ReferenceStep(p, req, tools, BindingsBefore(p, req, s.cell.rows, i), p.spec.steps[i]) ==
              Some(BindingsBefore(p, req, s.cell.rows, i + 1))
    {
      assert Settled(p.spec.steps[i], s.cell.rows);
      SettledLikeReference(p, s, tools, i);
    }
  }

  /** With tools that answer by operation, every history that ends SUCCEEDED ends with exactly the
      outputs of the uninterrupted run on the same inputs. */
  lemma CrashesAreTransparent(p: Program, ex: Execution, owner: string, history: seq<Action>, tools: Tools)
    requires Genuine(p, ex, owner, history) && Faithful(After(p, ex, owner, history), tools)
    requires After(p, ex, owner, history).cell.ex.status.ExecSucceeded?
    ensures ReferenceRun(p, ex.req, tools) == Some(After(p, ex, owner, history).cell.ex.outputs)
  {
    Reached(p, ex, owner, history);
    InitialInv(p, ex, owner);
    SameRequest(p, Initial(ex, owner), history);
    var s := After(p, ex, owner, history);
    LedgerFollows(p, s, tools, StepLimit(p.spec));
    ReferenceContinues(p, ex.req, s.cell.rows, tools, StepLimit(p.spec));
  }

  /** At every moment the reference run agrees with the ledger so far: what remains to be computed
      is the reference run of the remaining steps from the bindings in the ledger. */
  lemma LedgerIsReferencePrefix(p: Program, ex: Execution, owner: string, history: seq<Action>, tools: Tools)
    requires Genuine(p, ex, owner, history) && Faithful(After(p, ex, owner, history), tools)
    ensures var c := After(p, ex, owner, history).cell;
            var k := Min(c.ex.cursor, StepLimit(p.spec));
            ReferenceSteps(p, c.ex.req, tools, InputBindings(c.ex.req.inputs), 0) ==
            ReferenceSteps(p, c.ex.req, tools, BindingsBefore(p, c.ex.req, c.rows, k), k)
  {
    Reached(p, ex, owner, history);
    var s := After(p, ex, owner, history);
    LedgerFollows(p, s, tools, Min(s.cell.ex.cursor, StepLimit(p.spec)));
    ReferenceContinues(p, s.cell.ex.req, s.cell.rows, tools, Min(s.cell.ex.cursor, StepLimit(p.spec)));
  }

  // ---------------------------------------------------------------- the request never changes

  lemma NextKeepsRequest(p: Program, s: Sys, a: Action)
    requires Inv(p, s)
    ensures Next(p, s, a).cell.ex.req == s.cell.ex.req
  {
    if a.Work? && a.w < |s.workers| {
      assert WorkerInv(s.h, s.cell.rows, a.w, s.workers[a.w]);
      if NextAccess(s.workers[a.w]).PutExecution? {
        PutKeepsRequest(p, s, a.w, a.now, a.reply);
      }
    }
  }

  lemma PutKeepsRequest(p: Program, s: Sys, w: nat, now: int, reply: Reply)
    requires Inv(p, s) && w < |s.workers| && NextAccess(s.workers[w]).PutExecution?
    ensures WorkStep(p, s, w, now, reply).cell.ex.req == s.cell.ex.req
  {
    assert WorkerInv(s.h, s.cell.rows, w, s.workers[w]);
    if s.workers[w].ex.epoch == s.cell.ex.epoch && Open(s.cell.ex.status) {
      assert CoreRecord(s.workers[w].ex) == Core(s.cell).ex;
    }
  }

  lemma {:induction false} SameRequest(p: Program, s: Sys, history: seq<Action>)
    requires DistinctStepIds(p.spec) && Inv(p, s) && OwnEpochs(p, s, history)
    ensures Exec(p, s, history).cell.ex.req == s.cell.ex.req
  {
    if history != [] {
      var front := history[..|history| - 1];
      OwnEpochsPrefix(p, s, history);
      SameRequest(p, s, front);
      ExecKeeps(p, s, front);
      NextKeepsRequest(p, Exec(p, s, front), history[|history| - 1]);
    }
  }
}
