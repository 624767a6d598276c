/** What the static reference check buys at run time: in every reachable state a template of a
    validated skill fails only below a bound root, unless an earlier step was skipped or failed
    (internal/skillvalidator/validator.go, internal/skillruntime/template.go,
    internal/skillruntime/runtime.go). */
module DefiniteAssignment {
  import opened ExecutionLedger
  import opened ProtocolInvariant
  import opened ProtocolTheorems
  import opened RuntimeProtocol
  import opened SkillSpec
  import opened SkillValidator
  import opened Templates
  import opened Wrappers

  // ---------------------------------------------------------------- when resolution fails

  lemma {:induction false} PiecesUnresolvedIff(render: Render, pieces: seq<Piece>, b: Bindings)
    ensures ResolvePieces(render, pieces, b).None? <==> exists path :: path in PieceRefs(pieces) && LookupPath(b, path).None?
  {
    if pieces != [] {
      PiecesUnresolvedIff(render, pieces[1..], b);
      assert PieceRefs(pieces) == PieceRefs(pieces[1..]) + (if pieces[0].Ref? then {pieces[0].path} else {}) by {
        forall path | path in PieceRefs(pieces[1..]) ensures path in PieceRefs(pieces) {
          var i :| 0 <= i < |pieces[1..]| && pieces[1..][i].Ref? && pieces[1..][i].path == path;
          assert pieces[i + 1].Ref? && pieces[i + 1].path == path;
        }
        forall path | path in PieceRefs(pieces)
          ensures path in PieceRefs(pieces[1..]) + (if pieces[0].Ref? then {pieces[0].path} else {})
        {
          var i :| 0 <= i < |pieces| && pieces[i].Ref? && pieces[i].path == path;
          if i > 0 {
            assert pieces[1..][i - 1].Ref? && pieces[1..][i - 1].path == path;
          }
        }
      }
    }
  }

  /** An argument fails to resolve exactly if one of its references does. */
  lemma {:induction false} UnresolvedIff(render: Render, a: Arg, b: Bindings)
    ensures ResolveArg(render, a, b).None? <==> exists path :: path in ArgRefs(a) && LookupPath(b, path).None?
  {
    match a
    case Plain(_) =>
    case Text(pieces) =>
      PiecesUnresolvedIff(render, pieces, b);
      if |pieces| == 1 && pieces[0].Ref? {
        assert PieceRefs(pieces) == {pieces[0].path};
      }
    case ObjArg(fs) =>
      forall k | k in fs
        ensures ResolveArg(render, fs[k], b).None? <==> exists path :: path in ArgRefs(fs[k]) && LookupPath(b, path).None?
      {
        UnresolvedIff(render, fs[k], b);
      }
    case ArrArg(xs) =>
      forall i | 0 <= i < |xs|
        ensures ResolveArg(render, xs[i], b).None? <==> exists path :: path in ArgRefs(xs[i]) && LookupPath(b, path).None?
      {
        UnresolvedIff(render, xs[i], b);
      }
  }

  lemma ArgsUnresolvedIff(render: Render, args: map<string, Arg>, b: Bindings)
    ensures ResolveArgs(render, args, b).None? <==> exists path :: path in ArgsRefs(args) && LookupPath(b, path).None?
  {
    hide LookupPath, ResolveArg, ArgRefs;
    forall k | k in args
      ensures ResolveArg(render, args[k], b).None? <==> exists path :: path in ArgRefs(args[k]) && LookupPath(b, path).None?
    {
      UnresolvedIff(render, args[k], b);
    }
  }

  // ---------------------------------------------------------------- which roots are bound

  /** Step j ended with its output saved under `root`. */
  predicate Saved(spec: Spec, rows: Rows, j: nat, root: string)
    requires j < |spec.steps|
  {
    && spec.steps[j].saveAs == root && root != ""
    && var last := LastRow(rows, spec.steps[j].id);
       last.Some? && DoneStatus(last.value.status)
  }

  /** A name is bound before step i exactly if it is an input or an earlier step saved it. */
  lemma {:induction false} BoundIff(spec: Spec, rows: Rows, base: Bindings, i: nat, root: string)
    requires i <= |spec.steps|
    ensures root in RebuildBindings(spec, rows, base, i) <==>
            root in base || exists j :: 0 <= j < i && Saved(spec, rows, j, root)
  {
    hide LastRow;
    if i > 0 {
      BoundIff(spec, rows, base, i - 1, root);
      if Saved(spec, rows, i - 1, root) {
        assert root in RebuildBindings(spec, rows, base, i);
      }
    }
  }

  /** What the check lets a reference start with. */
  lemma {:induction false} RootsOfAvailable(spec: Spec, tools: map<string, ToolDef>, i: nat, path: Path)
    requires i <= |spec.steps| && path in AvailableBefore(spec, tools, i)
    ensures path != []
    ensures path[0] == "inputs" || path[0] in spec.inputs || exists j :: 0 <= j < i && spec.steps[j].saveAs == path[0] != ""
  {
    if i > 0 && path !in SavedPaths(spec.steps[i - 1], tools) {
      RootsOfAvailable(spec, tools, i - 1, path);
    }
  }

  predicate InputsSupplied(spec: Spec, req: Request) { spec.inputs <= req.inputs.Keys }

  /** Earlier results of this name were saved. */
  predicate ResultsSaved(spec: Spec, rows: Rows, i: nat, root: string)
    requires i <= |spec.steps|
  {
    exists j :: 0 <= j < i && Saved(spec, rows, j, root)
  }

  /** With all inputs supplied, the root of a checked reference is bound exactly if it is an input or
      the step that saves it was neither skipped nor failed. */
  lemma CheckedRootIsBoundIff(p: Program, req: Request, rows: Rows, i: nat, path: Path)
    requires i < |p.spec.steps| && RefsOk(p.spec, p.tools, i) && path in ArgsRefs(p.spec.steps[i].args)
    ensures path != []
    ensures path[0] in BindingsBefore(p, req, rows, i) <==>
            path[0] == "inputs" || path[0] in req.inputs || ResultsSaved(p.spec, rows, i, path[0])
    ensures path[0] == "inputs" || path[0] in p.spec.inputs
            || exists j :: 0 <= j < i && p.spec.steps[j].saveAs == path[0] != ""
  {
    var st := p.spec.steps[i];
    assert Whole(path) in Mentions(st);
    assert RefAvailable(Whole(path), AvailableBefore(p.spec, p.tools, i), st.saveAs);
    BoundIff(p.spec, rows, InputBindings(req.inputs), i, path[0]);
    if path in AvailableBefore(p.spec, p.tools, i) {
      RootsOfAvailable(p.spec, p.tools, i, path);
    } else if [path[0]] in AvailableBefore(p.spec, p.tools, i) {
      RootsOfAvailable(p.spec, p.tools, i, [path[0]]);
    } else {
      RootsOfAvailable(p.spec, p.tools, i, [path[0], "*"]);
    }
  }

  /** No step before i was skipped, or failed and was passed over. */
  predicate AllDoneBelow(spec: Spec, rows: Rows, i: nat)
    requires i <= |spec.steps|
  {
    forall j | 0 <= j < i :: var last := LastRow(rows, spec.steps[j].id); last.Some? && DoneStatus(last.value.status)
  }

  lemma RootsAreBound(p: Program, req: Request, rows: Rows, i: nat, path: Path)
    requires i < |p.spec.steps| && RefsOk(p.spec, p.tools, i) && path in ArgsRefs(p.spec.steps[i].args)
    requires InputsSupplied(p.spec, req) && AllDoneBelow(p.spec, rows, i)
    ensures path != [] && path[0] in BindingsBefore(p, req, rows, i)
  {
    hide LastRow, RefsOk, ArgsRefs;
    CheckedRootIsBoundIff(p, req, rows, i, path);
    if j: nat :| j < i && p.spec.steps[j].saveAs == path[0] != "" {
      assert Saved(p.spec, rows, j, path[0]);
    }
  }

  // ---------------------------------------------------------------- in every reachable state

  /** The row of an attempt whose arguments did not resolve: it failed without a call. */
  predicate TemplateError(h: History, row: StepExecution) { row.status.StepFailed? && row.id !in h.starter }

  /** The bindings step k sees, in a reachable state. */
  function Seen(p: Program, s: Sys, k: nat): Bindings
    requires k <= |p.spec.steps|
  {
    BindingsBefore(p, s.cell.ex.req, s.cell.rows, k)
  }

  /** A TEMPLATE_ERROR of a validated skill comes only from a field that is missing below a bound
      root, as long as every earlier step was done. */
  lemma TemplateErrorsMissFields(p: Program, ex: Execution, owner: string, history: seq<Action>, opts: Options, k: nat, j: nat)
    requires Genuine(p, ex, owner, history) && SpecOk(p.spec, p.tools, opts)
    requires var s := After(p, ex, owner, history);
             && k < |p.spec.steps| && j < |s.cell.rows| && s.cell.rows[j].stepId == p.spec.steps[k].id
             && TemplateError(s.h, s.cell.rows[j])
             && InputsSupplied(p.spec, s.cell.ex.req) && AllDoneBelow(p.spec, s.cell.rows, k)
    ensures var b := Seen(p, After(p, ex, owner, history), k);
            exists path :: path in ArgsRefs(p.spec.steps[k].args) && LookupPath(b, path).None?
                           && |path| > 1 && path[0] in b
  {
    hide *;
    Reached(p, ex, owner, history);
    var s := After(p, ex, owner, history);
    RowAgrees(p, s, k, j);
    RefsOfValid(p, opts, k);
    ErrorMissesField(p, s.h, s.cell.ex.req, s.cell.rows, k, s.cell.rows[j]);
    SeenIs(p, s, k);
  }

  lemma SeenIs(p: Program, s: Sys, k: nat)
    requires k <= |p.spec.steps|
    ensures Seen(p, s, k) == BindingsBefore(p, s.cell.ex.req, s.cell.rows, k)
  {
  }

  lemma RefsOfValid(p: Program, opts: Options, k: nat)
    requires SpecOk(p.spec, p.tools, opts) && k < |p.spec.steps|
    ensures RefsOk(p.spec, p.tools, k)
  {
  }

  lemma RowAgrees(p: Program, s: Sys, k: nat, j: nat)
    requires Inv(p, s) && k < |p.spec.steps| && j < |s.cell.rows| && s.cell.rows[j].stepId == p.spec.steps[k].id
    ensures RowFact(p, s.h, s.cell.ex.req, BindingsBefore(p, s.cell.ex.req, s.cell.rows, k), p.spec.steps[k], s.cell.rows[j])
  {
    hide RowFact, BindingsBefore, HolderInv;
  }

  lemma ErrorMissesField(p: Program, h: History, req: Request, rows: Rows, k: nat, row: StepExecution)
    requires k < |p.spec.steps| && RefsOk(p.spec, p.tools, k) && TemplateError(h, row)
    requires RowFact(p, h, req, BindingsBefore(p, req, rows, k), p.spec.steps[k], row)
    requires InputsSupplied(p.spec, req) && AllDoneBelow(p.spec, rows, k)
    ensures exists path :: path in ArgsRefs(p.spec.steps[k].args) && LookupPath(BindingsBefore(p, req, rows, k), path).None?
                           && |path| > 1 && path[0] in BindingsBefore(p, req, rows, k)
  {
    hide RefsOk, ArgsRefs, BindingsBefore, ResolveArgs, GuardHolds, LookupPath, AllDoneBelow;
    var b := BindingsBefore(p, req, rows, k);
    ArgsUnresolvedIff(p.render, p.spec.steps[k].args, b);
    var path :| path in ArgsRefs(p.spec.steps[k].args) && LookupPath(b, path).None?;
    RootsAreBound(p, req, rows, k, path);
    CheckedRootIsNoBlank(p, k, path);
    if |path| == 1 {
      BoundRootResolves(b, path);
    }
  }

  lemma BoundRootResolves(b: Bindings, path: Path)
    requires path != [] && path[0] in b && path[0] != ""
    ensures |path| == 1 ==> LookupPath(b, path).Some?
  {
    if |path| == 1 {
      assert path[1..] == [];
      assert Descend(Obj(b), path) == Descend(b[path[0]], path[1..]);
    }
  }

  lemma CheckedRootIsNoBlank(p: Program, i: nat, path: Path)
    requires i < |p.spec.steps| && RefsOk(p.spec, p.tools, i) && path in ArgsRefs(p.spec.steps[i].args)
    ensures path != [] && (|path| == 1 ==> path[0] != "")
  {
    assert Whole(path) in Mentions(p.spec.steps[i]);
    assert path != [""];
  }

  // ---------------------------------------------------------------- and not without that condition

  const PRODUCER: SkillStep := SkillStep("a", "t", map[], "x", Some(Truthy(["flag"])), None, FailStep)
  const CONSUMER: SkillStep := SkillStep("b", "t", map["v" := Text([Ref(["x"])])], "", None, None, FailStep)
  const GUARDED: Spec := Spec({"flag"}, {}, [], [PRODUCER, CONSUMER], Level(Low), false, 2, 1)

  function GuardedProgram(): Program {
    Program(GUARDED, map["t" := ToolDef(Low, false, NoIdempotency, {}, map[], {})], Render((v: Value) => "", (v: Value) => ""), 30)
  }

  lemma OneReference(path: Path)
    ensures PieceRefs([Ref(path)]) == {path}
  {
    var pieces := [Ref(path)];
    assert pieces[0].Ref? && pieces[0].path == path;
    forall r | r in PieceRefs(pieces) ensures r == path {
      var i :| 0 <= i < |pieces| && pieces[i].Ref? && pieces[i].path == r;
      assert i == 0;
    }
  }

  lemma GuardedIsValid(opts: Options)
    requires opts.maxStepsHardCap <= 0
    ensures SpecOk(GUARDED, GuardedProgram().tools, opts)
  {
    var tools := GuardedProgram().tools;
    assert !Forbidden("t");
    assert RefsOk(GUARDED, tools, 0) by {
      assert ArgsRefs(PRODUCER.args) == {};
      assert Mentions(PRODUCER) == {Whole(["flag"])};
      assert ["flag"] in InputPaths(GUARDED);
    }
    assert RefsOk(GUARDED, tools, 1) by {
      assert Text([Ref(["x"])]) == CONSUMER.args["v"];
      OneReference(["x"]);
      assert ArgRefs(CONSUMER.args["v"]) == {["x"]};
      assert forall r :: r in ArgsRefs(CONSUMER.args) ==> r == ["x"];
      assert forall m :: m in Mentions(CONSUMER) ==> m == Whole(["x"]);
      assert ["x"] in SavedPaths(PRODUCER, tools);
      assert AvailableBefore(GUARDED, tools, 1) == AvailableBefore(GUARDED, tools, 0) + SavedPaths(PRODUCER, tools);
    }
  }

  /** A skill that validates still fails with a TEMPLATE_ERROR on an unbound root when the step that
      saves it is skipped. */
  lemma SkippedProducerUnbindsRoot(req: Request, opts: Options)
    requires req.inputs == map["flag" := Bool(false)] && opts.maxStepsHardCap <= 0
    ensures SpecOk(GUARDED, GuardedProgram().tools, opts)
    ensures var p := GuardedProgram();
            var skipped := StepExecution(0, "a", "t", map[], map[], StepSkipped, "", 1, 0, "", 1);
            var b := BindingsBefore(p, req, [skipped], 1);
            && !GuardHolds(p, p.spec.steps[0], BindingsBefore(p, req, [], 0))
            && InputsSupplied(p.spec, req) && "x" !in b
            && ResolveArgs(p.render, p.spec.steps[1].args, b).None?
  {
    GuardedIsValid(opts);
    hide SpecOk;
    var p := GuardedProgram();
    var skipped := StepExecution(0, "a", "t", map[], map[], StepSkipped, "", 1, 0, "", 1);
    var b := BindingsBefore(p, req, [skipped], 1);
    BoundIff(p.spec, [skipped], InputBindings(req.inputs), 1, "x");
    ArgsUnresolvedIff(p.render, CONSUMER.args, b);
    assert Text([Ref(["x"])]) == CONSUMER.args["v"];
    OneReference(["x"]);
    assert ["x"] in ArgsRefs(CONSUMER.args);
    assert LookupPath(b, ["x"]).None?;
    FlagIsFalse(req);
  }

  lemma FlagIsFalse(req: Request)
    requires req.inputs == map["flag" := Bool(false)]
    ensures !GuardHolds(GuardedProgram(), PRODUCER, InputBindings(req.inputs))
  {
    var b := InputBindings(req.inputs);
    assert Obj(b).fields["flag"] == Bool(false);
    assert ["flag"][1..] == [];
    assert Descend(Obj(b), ["flag"]) == Descend(Bool(false), []);
  }
}
