/** Which value each name holds when a step runs: an input, or what the last step that saved under that
    name put out (internal/skillruntime/runtime.go). */
module SavedResults {
  import opened CrashTransparency
  import opened ExecutionLedger
  import opened ProtocolInvariant
  import opened ProtocolTheorems
  import opened RuntimeProtocol
  import opened SkillSpec
  import opened Templates
  import opened Wrappers

  /** What each step put out, for the steps that were done. */
  type Results = seq<Option<Bindings>>

  /** Step j saved its output under this name. */
  predicate SavesAs(spec: Spec, results: Results, j: nat, name: string)
    requires j < |spec.steps| && j < |results|
  {
    name != "" && spec.steps[j].saveAs == name && results[j].Some?
  }

  /** Of the first k steps, j was the last to save under this name. */
  predicate LastToSave(spec: Spec, results: Results, k: nat, j: nat, name: string)
    requires k <= |spec.steps| && k <= |results|
  {
    j < k && SavesAs(spec, results, j, name) && forall i | j < i < k :: !SavesAs(spec, results, i, name)
  }

  predicate NeverSaved(spec: Spec, results: Results, k: nat, name: string)
    requires k <= |spec.steps| && k <= |results|
  {
    forall i | 0 <= i < k :: !SavesAs(spec, results, i, name)
  }

  /** An input is bound to its value, and `inputs` to all of them, unless one has that name. */
  predicate HoldsInput(inputs: Bindings, b: Bindings, name: string) {
    if name in inputs then name in b && b[name] == inputs[name]
    else if name == "inputs" then name in b && b[name] == Obj(inputs)
    else name !in b
  }

  /** Each name holds the output of the last of the first k steps that saved it, and otherwise what the
      inputs say. */
  ghost predicate HoldsResults(spec: Spec, inputs: Bindings, results: Results, k: nat, b: Bindings)
    requires k <= |spec.steps| && k <= |results|
  {
    && (forall j: nat, name | LastToSave(spec, results, k, j, name) :: name in b && b[name] == Obj(results[j].value))
    && (forall name | NeverSaved(spec, results, k, name) :: HoldsInput(inputs, b, name))
  }

  // ---------------------------------------------------------------- one step more

  lemma StepSaves(spec: Spec, inputs: Bindings, results: Results, k: nat, b: Bindings)
    requires 0 < k <= |spec.steps| && k <= |results| && HoldsResults(spec, inputs, results, k - 1, b)
    ensures var after := if results[k - 1].Some? then Bind(b, spec.steps[k - 1], results[k - 1].value) else b;
            HoldsResults(spec, inputs, results, k, after)
  {
    var after := if results[k - 1].Some? then Bind(b, spec.steps[k - 1], results[k - 1].value) else b;
    forall j: nat, name | LastToSave(spec, results, k, j, name)
      ensures name in after && after[name] == Obj(results[j].value)
    {
      if j < k - 1 {
        assert !SavesAs(spec, results, k - 1, name);
        assert LastToSave(spec, results, k - 1, j, name);
      }
    }
    forall name | NeverSaved(spec, results, k, name) ensures HoldsInput(inputs, after, name) {
      assert !SavesAs(spec, results, k - 1, name);
      assert NeverSaved(spec, results, k - 1, name);
      BlankIsNoName(spec, k - 1, b);
    }
  }

  lemma BlankIsNoName(spec: Spec, j: nat, b: Bindings)
    requires j < |spec.steps|
    ensures forall output :: spec.steps[j].saveAs == "" ==> Bind(b, spec.steps[j], output) == b
  {
  }

  lemma InputsHold(spec: Spec, inputs: Bindings, results: Results)
    ensures HoldsResults(spec, inputs, results, 0, InputBindings(inputs))
  {
  }

  // ---------------------------------------------------------------- results on the ledger

  /** The output on the last row of each step, if that row says the step was done. */
  function LedgerResults(spec: Spec, rows: Rows): (results: Results)
    ensures |results| == |spec.steps|
  {
    seq(|spec.steps|, j requires 0 <= j < |spec.steps| =>
      var i := LastIndex(rows, spec.steps[j].id);
      if i >= 0 && (rows[i].status.StepSucceeded? || rows[i].status.StepShadowed?) then Some(rows[i].output) else None)
  }

  lemma {:induction false} RebuiltHoldsResults(spec: Spec, rows: Rows, inputs: Bindings, k: nat)
    requires k <= |spec.steps|
    ensures HoldsResults(spec, inputs, LedgerResults(spec, rows), k, RebuildBindings(spec, rows, InputBindings(inputs), k))
  {
    var results := LedgerResults(spec, rows);
    if k == 0 {
      InputsHold(spec, inputs, results);
    } else {
      RebuiltHoldsResults(spec, rows, inputs, k - 1);
      StepSaves(spec, inputs, results, k, RebuildBindings(spec, rows, InputBindings(inputs), k - 1));
    }
  }

  lemma {:induction false} SomebodySavedLast(spec: Spec, results: Results, k: nat, name: string)
    requires k <= |spec.steps| && k <= |results|
    ensures NeverSaved(spec, results, k, name) || exists j: nat :: LastToSave(spec, results, k, j, name)
  {
    if k > 0 && !SavesAs(spec, results, k - 1, name) {
      SomebodySavedLast(spec, results, k - 1, name);
      if !NeverSaved(spec, results, k, name) {
        var j: nat :| LastToSave(spec, results, k - 1, j, name);
        assert LastToSave(spec, results, k, j, name);
      }
    } else if k > 0 {
      assert LastToSave(spec, results, k, k - 1, name);
    }
  }

  /** Inputs and results leave nothing open. */
  lemma ResultsDetermine(spec: Spec, inputs: Bindings, results: Results, k: nat, b: Bindings, b': Bindings)
    requires k <= |spec.steps| && k <= |results|
    requires HoldsResults(spec, inputs, results, k, b) && HoldsResults(spec, inputs, results, k, b')
    ensures b == b'
  {
    forall name ensures (name in b <==> name in b') && (name in b ==> b[name] == b'[name]) {
      SomebodySavedLast(spec, results, k, name);
      if NeverSaved(spec, results, k, name) {
        assert HoldsInput(inputs, b, name) && HoldsInput(inputs, b', name);
      }
    }
  }

  // ---------------------------------------------------------------- in every reachable state

  /** The bindings that the execution's inputs and ledger give step k. */
  ghost predicate GivenToStep(p: Program, c: Cell, k: nat, b: Bindings)
    requires k <= |p.spec.steps|
  {
    HoldsResults(p.spec, c.ex.req.inputs, LedgerResults(p.spec, c.rows), k, b)
  }

  lemma GivenIs(p: Program, c: Cell, k: nat, b: Bindings)
    requires k <= |p.spec.steps|
    ensures GivenToStep(p, c, k, b) <==> b == BindingsBefore(p, c.ex.req, c.rows, k)
  {
    RebuiltHoldsResults(p.spec, c.rows, c.ex.req.inputs, k);
    if GivenToStep(p, c, k, b) {
      ResultsDetermine(p.spec, c.ex.req.inputs, LedgerResults(p.spec, c.rows), k, b, BindingsBefore(p, c.ex.req, c.rows, k));
    }
  }

  /** The bindings a lease holder works with are those that inputs and ledger give the step at the cursor. */
  lemma LiveBindingsHoldResults(p: Program, ex: Execution, owner: string, history: seq<Action>)
    requires Genuine(p, ex, owner, history)
    requires var s := After(p, ex, owner, history);
             |s.workers| > 0 && Open(s.cell.ex.status) && UsesBindings(Holder(s).pc)
    ensures var s := After(p, ex, owner, history);
            s.cell.ex.cursor < |p.spec.steps| && GivenToStep(p, s.cell, s.cell.ex.cursor, Holder(s).bindings)
  {
    Reached(p, ex, owner, history);
    var s := After(p, ex, owner, history);
    LiveAtCursor(p, Core(s.cell), s.h, Holder(s));
    GivenIs(p, s.cell, s.cell.ex.cursor, Holder(s).bindings);
  }

  lemma LiveAtCursor(p: Program, c: Cell, h: History, l: Worker)
    requires HolderInv(p, c, h, l) && UsesBindings(l.pc)
    ensures c.ex.cursor < |p.spec.steps| && l.bindings == BindingsBefore(p, c.ex.req, c.rows, c.ex.cursor)
  {
    hide BindingsBefore;
  }

  /** Every attempt that was marked RUNNING has as input its step's arguments, resolved over what inputs and
      ledger give that step, and the step's guard holds there. */
  lemma AttemptsUseResults(p: Program, ex: Execution, owner: string, history: seq<Action>, k: nat, j: nat, b: Bindings)
    requires Genuine(p, ex, owner, history)
    requires var s := After(p, ex, owner, history);
             && k < |p.spec.steps| && j < |s.cell.rows| && s.cell.rows[j].stepId == p.spec.steps[k].id
             && s.cell.rows[j].id in s.h.starter && GivenToStep(p, s.cell, k, b)
    ensures var row := After(p, ex, owner, history).cell.rows[j];
            && ResolveArgs(p.render, p.spec.steps[k].args, b) == Some(row.input)
            && (p.spec.steps[k].guard.Some? ==> EvalCondition(p.render, p.spec.steps[k].guard.value, b))
  {
    Reached(p, ex, owner, history);
    var s := After(p, ex, owner, history);
    GivenIs(p, s.cell, k, b);
    hide HolderInv, BindingsBefore;
    assert RowFact(p, s.h, s.cell.ex.req, BindingsBefore(p, s.cell.ex.req, s.cell.rows, k), p.spec.steps[k], s.cell.rows[j]);
  }

  /** A skill that succeeded puts out exactly its declared outputs that are bound after its last step,
      with the values that inputs and ledger give them, and nothing if none is bound. */
  lemma OutputsAreResults(p: Program, ex: Execution, owner: string, history: seq<Action>, b: Bindings)
    requires Genuine(p, ex, owner, history) && After(p, ex, owner, history).cell.ex.status.ExecSucceeded?
    requires GivenToStep(p, After(p, ex, owner, history).cell, StepLimit(p.spec), b)
    ensures PutOut(p.spec, b, After(p, ex, owner, history).cell.ex.outputs)
  {
    Reached(p, ex, owner, history);
    var s := After(p, ex, owner, history);
    GivenIs(p, s.cell, StepLimit(p.spec), b);
    hide HolderInv, BindingsBefore;
    OutputsAre(p.spec, b);
  }

  /** The declared outputs that are bound, with their values, or nothing if there is none. */
  ghost predicate PutOut(spec: Spec, b: Bindings, outputs: Option<Bindings>) {
    && (outputs.None? <==> forall name | name in spec.outputs :: name !in b)
    && (outputs.Some? ==>
          && (forall name :: name in outputs.value <==> name in spec.outputs && name in b)
          && (forall name | name in outputs.value :: outputs.value[name] == b[name]))
  }

  lemma OutputsAre(spec: Spec, b: Bindings)
    ensures forall outputs :: PutOut(spec, b, outputs) <==> outputs == ExtractOutputs(spec, b)
  {
    var out := map name | name in spec.outputs && name in b :: b[name];
    if name :| name in spec.outputs && name in b {
      assert name in out;
    }
    forall outputs | PutOut(spec, b, outputs) ensures outputs == ExtractOutputs(spec, b) {
      if outputs.Some? {
        assert outputs.value == out;
      }
    }
  }

  // ---------------------------------------------------------------- the reference run

  /** What step st puts out on bindings b, by its tool's answer. */
  predicate PutsOut(p: Program, req: Request, tools: Tools, b: Bindings, st: SkillStep, result: Option<Bindings>) {
    var runs := st.guard.Some? ==> EvalCondition(p.render, st.guard.value, b);
    var input := ResolveArgs(p.render, st.args, b);
    if !runs then result.None?
    else if input.None? then result.None? && st.onError.ContinueStep?
    else
      var answer := tools(st.tool, input.value, OperationKey(req.id, st.id));
      || (answer.ToolOk? && result == Some(answer.output))
      || (answer.ToolFailed? && result.None? && st.onError.ContinueStep?)
  }

  /** The steps from i to k put these results out one after the other, the bindings of each being given by
      the inputs and the results before it. */
  ghost predicate Trace(p: Program, req: Request, tools: Tools, results: Results, k: nat)
    requires k == |results| <= |p.spec.steps|
  {
    forall j, b | 0 <= j < k && HoldsResults(p.spec, req.inputs, results, j, b) ::
      PutsOut(p, req, tools, b, p.spec.steps[j], results[j])
  }

  lemma StepPutsOut(p: Program, req: Request, tools: Tools, b: Bindings, st: SkillStep)
    ensures ReferenceStep(p, req, tools, b, st).Some? <==> exists result :: PutsOut(p, req, tools, b, st, result)
    ensures forall result | PutsOut(p, req, tools, b, st, result) ::
              ReferenceStep(p, req, tools, b, st) == Some(if result.Some? then Bind(b, st, result.value) else b)
  {
    if ReferenceStep(p, req, tools, b, st).Some? {
      var input := ResolveArgs(p.render, st.args, b);
      if GuardHolds(p, st, b) && input.Some? {
        var answer := tools(st.tool, input.value, OperationKey(req.id, st.id));
        assert PutsOut(p, req, tools, b, st, if answer.ToolOk? then Some(answer.output) else None);
      } else {
        assert PutsOut(p, req, tools, b, st, None);
      }
    }
  }

  lemma HoldsPrefix(spec: Spec, inputs: Bindings, results: Results, m: nat, k: nat, b: Bindings)
    requires k <= |spec.steps| && k <= m <= |results|
    ensures HoldsResults(spec, inputs, results[..m], k, b) <==> HoldsResults(spec, inputs, results, k, b)
  {
    var front := results[..m];
    assert forall j, name | 0 <= j < k :: SavesAs(spec, front, j, name) <==> SavesAs(spec, results, j, name);
    hide SavesAs;
    assert forall j: nat, name :: LastToSave(spec, front, k, j, name) <==> LastToSave(spec, results, k, j, name);
    assert forall name :: NeverSaved(spec, front, k, name) <==> NeverSaved(spec, results, k, name);
    hide LastToSave, NeverSaved, HoldsInput;
    assert forall j: nat, name | LastToSave(spec, results, k, j, name) :: front[j] == results[j] by {
      BeforeBound(spec, results, k);
    }
  }

  lemma BeforeBound(spec: Spec, results: Results, k: nat)
    requires k <= |spec.steps| && k <= |results|
    ensures forall j: nat, name | LastToSave(spec, results, k, j, name) :: j < k
  {
  }

  lemma TraceExtends(p: Program, req: Request, tools: Tools, results: Results, b: Bindings, result: Option<Bindings>)
    requires |results| < |p.spec.steps| && Trace(p, req, tools, results, |results|)
    requires HoldsResults(p.spec, req.inputs, results, |results|, b)
    requires PutsOut(p, req, tools, b, p.spec.steps[|results|], result)
    ensures var k := |results|;
            && Trace(p, req, tools, results + [result], k + 1)
            && HoldsResults(p.spec, req.inputs, results + [result], k + 1,
                            if result.Some? then Bind(b, p.spec.steps[k], result.value) else b)
  {
    hide PutsOut, HoldsResults, Bind;
    var k := |results|;
    var results' := results + [result];
    assert results'[..k] == results;
    HoldsPrefix(p.spec, req.inputs, results', k, k, b);
    StepSaves(p.spec, req.inputs, results', k + 1, b);
    forall j, c | 0 <= j < k + 1 && HoldsResults(p.spec, req.inputs, results', j, c)
      ensures PutsOut(p, req, tools, c, p.spec.steps[j], results'[j])
    {
      HoldsPrefix(p.spec, req.inputs, results', k, j, c);
      if j == k {
        ResultsDetermine(p.spec, req.inputs, results, k, b, c);
      }
    }
  }

  /** All steps of a run put out these results, and it ends with these bindings. */
  ghost predicate WholeTrace(p: Program, req: Request, tools: Tools, results: Results, b: Bindings) {
    && |results| == StepLimit(p.spec) && Trace(p, req, tools, results, StepLimit(p.spec))
    && HoldsResults(p.spec, req.inputs, results, StepLimit(p.spec), b)
  }

  lemma {:induction false} StepsHaveTrace(p: Program, req: Request, tools: Tools, results: Results, b: Bindings, end: Bindings)
    requires |results| <= StepLimit(p.spec) && Trace(p, req, tools, results, |results|)
    requires HoldsResults(p.spec, req.inputs, results, |results|, b)
    requires ReferenceSteps(p, req, tools, b, |results|) == Some(end)
    ensures exists all :: WholeTrace(p, req, tools, all, end)
    decreases StepLimit(p.spec) - |results|
  {
    hide PutsOut, HoldsResults, Bind, ReferenceStep, Trace;
    var k := |results|;
    if k == StepLimit(p.spec) {
      assert WholeTrace(p, req, tools, results, end);
    } else {
      StepPutsOut(p, req, tools, b, p.spec.steps[k]);
      var result :| PutsOut(p, req, tools, b, p.spec.steps[k], result);
      TraceExtends(p, req, tools, results, b, result);
      StepsHaveTrace(p, req, tools, results + [result], if result.Some? then Bind(b, p.spec.steps[k], result.value) else b, end);
    }
  }

  lemma {:induction false} TraceHasSteps(p: Program, req: Request, tools: Tools, results: Results, k: nat) returns (b: Bindings)
    requires k <= |results| == StepLimit(p.spec) && Trace(p, req, tools, results, |results|)
    ensures HoldsResults(p.spec, req.inputs, results, k, b)
    ensures ReferenceSteps(p, req, tools, InputBindings(req.inputs), 0) == ReferenceSteps(p, req, tools, b, k)
  {
    hide PutsOut, HoldsResults, Bind, ReferenceStep;
    if k == 0 {
      b := InputBindings(req.inputs);
      InputsHold(p.spec, req.inputs, results);
    } else {
      var b0 := TraceHasSteps(p, req, tools, results, k - 1);
      assert PutsOut(p, req, tools, b0, p.spec.steps[k - 1], results[k - 1]);
      StepPutsOut(p, req, tools, b0, p.spec.steps[k - 1]);
      StepSaves(p.spec, req.inputs, results, k, b0);
      b := if results[k - 1].Some? then Bind(b0, p.spec.steps[k - 1], results[k - 1].value) else b0;
    }
  }

  /** The preconditions hold on the inputs alone. */
  ghost predicate Accepts(p: Program, req: Request) {
    forall b, c | HoldsResults(p.spec, req.inputs, [], 0, b) && c in p.spec.preconditions :: EvalCondition(p.render, c, b)
  }

  lemma AcceptsIff(p: Program, req: Request)
    ensures Accepts(p, req) <==> InputsAccepted(p, req)
  {
    InputsHold(p.spec, req.inputs, []);
    forall b | HoldsResults(p.spec, req.inputs, [], 0, b) ensures b == InputBindings(req.inputs) {
      ResultsDetermine(p.spec, req.inputs, [], 0, b, InputBindings(req.inputs));
    }
    hide HoldsResults, EvalCondition, InputBindings;
  }

  ghost predicate Succeeds(p: Program, req: Request, tools: Tools, outputs: Option<Bindings>) {
    Accepts(p, req) && exists results, b :: WholeTrace(p, req, tools, results, b) && PutOut(p.spec, b, outputs)
  }

  /** The uninterrupted run, step by step: it succeeds with these outputs exactly if the preconditions hold
      on the inputs and the steps put out results, each by its tool's answer on what the inputs and the
      results before it give it, that leave the declared outputs with these values. */
  lemma ReferenceRunIff(p: Program, req: Request, tools: Tools, outputs: Option<Bindings>)
    ensures ReferenceRun(p, req, tools) == Some(outputs) <==> Succeeds(p, req, tools, outputs)
  {
    AcceptsIff(p, req);
    hide Accepts, InputsAccepted, PutOut, PutsOut, HoldsResults, ReferenceStep, EvalCondition, InputBindings, ReferenceSteps, Trace;
    if ReferenceRun(p, req, tools) == Some(outputs) {
      var end := ReferenceSteps(p, req, tools, InputBindings(req.inputs), 0).value;
      InputsHold(p.spec, req.inputs, []);
      EmptyTrace(p, req, tools);
      StepsHaveTrace(p, req, tools, [], InputBindings(req.inputs), end);
      OutputsAre(p.spec, end);
    }
    forall results, b | WholeTrace(p, req, tools, results, b) && PutOut(p.spec, b, outputs) && Accepts(p, req)
      ensures ReferenceRun(p, req, tools) == Some(outputs)
    {
      var end := TraceHasSteps(p, req, tools, results, |results|);
      ResultsDetermine(p.spec, req.inputs, results, |results|, b, end);
      OutputsAre(p.spec, b);
      StepsEnd(p, req, tools, b);
    }
  }

  lemma EmptyTrace(p: Program, req: Request, tools: Tools)
    ensures Trace(p, req, tools, [], 0)
  {
  }

  lemma StepsEnd(p: Program, req: Request, tools: Tools, b: Bindings)
    ensures ReferenceSteps(p, req, tools, b, StepLimit(p.spec)) == Some(b)
  {
  }
}
