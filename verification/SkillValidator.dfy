/** Static checks on a skill before it may be shadowed or activated
    (internal/skillvalidator/validator.go, Normalize in internal/skill/parse.go).

    Names of inputs, save_as bindings and outputs are single path segments without blanks. */
module SkillValidator {
  import opened ExecutionPolicy
  import opened SkillSpec
  import opened Templates
  import opened Wrappers

  const HARD_MAX_STEPS: int := 20
  const DEFAULT_MAX_STEPS: int := 10
  const DEFAULT_TIMEOUT_MS: int := 30000
  const FORBIDDEN: seq<string> :=
    ["shell", "bash", "python", "eval", "exec", "sql", "http.request", "fetch_url", "download"]

  datatype Options = Options(tenant: string, maxStepsHardCap: int, allowCritical: bool)

  datatype Issue =
    | SpecNormalize
    | MaxStepsHard
    | TooManySteps
    | BadTimeout
    | DupStepId(step: nat, prev: nat)
    | DupSaveAs(step: nat, other: string)
    | SaveAsShadowsInput(step: nat)
    | ForbiddenTool(step: nat)
    | ToolNotRegistered(step: nat)
    | ToolTenantDenied(step: nat)
    | ToolArgRequired(step: nat, name: string)
    | ToolArgUnknown(step: nat, name: string)
    | RiskUnderstated
    | CriticalDenied
    | UnknownRef(step: nat, ref: Mention)
    | OutputStepCollision(name: string)
  {
    /** The rest are warnings. */
    predicate IsError() { !ToolArgUnknown? && !OutputStepCollision? }
  }

  ghost predicate Clean(issues: seq<Issue>) {
    forall i | 0 <= i < |issues| :: !issues[i].IsError()
  }

  lemma CleanAfter(issues: seq<Issue>, issue: Issue)
    ensures Clean(issues + [issue]) <==> Clean(issues) && !issue.IsError()
  {
    if Clean(issues + [issue]) {
      assert (issues + [issue])[|issues|] == issue;
      forall i | 0 <= i < |issues| ensures !issues[i].IsError() {
        assert (issues + [issue])[i] == issues[i];
      }
    }
  }

  // ---------------------------------------------------------------- references

  /** A reference as the checks see it: a template path, or a whole condition expression, which may
      be a path, a comparison of one or an existence test. */
  datatype Mention = Whole(path: Path) | Compared(path: Path) | Tested(path: Path)

  function PieceRefs(pieces: seq<Piece>): set<Path> {
    set i | 0 <= i < |pieces| && pieces[i].Ref? :: pieces[i].path
  }

  /** Every template path in an argument, however deep. */
  function ArgRefs(a: Arg): set<Path> {
    match a
    case Text(pieces) => PieceRefs(pieces)
    case Plain(_) => {}
    case ObjArg(fs) => set k, r | k in fs && r in ArgRefs(fs[k]) :: r
    case ArrArg(xs) => set i, r | 0 <= i < |xs| && r in ArgRefs(xs[i]) :: r
  }

  function ArgsRefs(args: map<string, Arg>): set<Path> {
    set k, r | k in args && r in ArgRefs(args[k]) :: r
  }

  function GuardMention(c: Cond): set<Mention> {
    match c
    case Always => {}
    case Truthy(path) => {Whole(path)}
    case Equals(path, _) => {Compared(path)}
    case Differs(path, _) => {Compared(path)}
    case Exists(path) => {Tested(path)}
  }

  function Mentions(st: SkillStep): set<Mention> {
    (set path | path in ArgsRefs(st.args) :: Whole(path)) + (if st.guard.Some? then GuardMention(st.guard.value) else {})
  }

  predicate RootAvailable(path: Path, available: set<Path>) {
    |path| > 1 && path[0] != "" && ([path[0]] in available || [path[0], "*"] in available)
  }

  /** A condition expression is looked up as if it were a path, so a comparison is only found by its
      root, and an existence test never. */
  predicate RefAvailable(m: Mention, available: set<Path>, currentSaveAs: string) {
    && m.path != [] && m.path != [""]
    && (currentSaveAs != "" ==> m.path[0] != currentSaveAs)
    && match m
       case Whole(path) => path in available || RootAvailable(path, available)
       case Compared(path) => RootAvailable(path, available)
       case Tested(_) => false
  }

  function InputPaths(spec: Spec): set<Path> {
    (set name | name in spec.inputs :: ["inputs", name]) + (set name | name in spec.inputs :: [name])
  }

  function SavedPaths(st: SkillStep, tools: map<string, ToolDef>): set<Path> {
    if st.saveAs == "" then {}
    else
      {[st.saveAs], [st.saveAs, "*"]} +
      (if st.tool in tools then set out | out in tools[st.tool].outputs :: [st.saveAs, out] else {})
  }

  /** What a step may refer to: the inputs, and what earlier steps save. */
  function AvailableBefore(spec: Spec, tools: map<string, ToolDef>, i: nat): set<Path>
    requires i <= |spec.steps|
  {
    if i == 0 then InputPaths(spec)
    else AvailableBefore(spec, tools, i - 1) + SavedPaths(spec.steps[i - 1], tools)
  }

  // ---------------------------------------------------------------- what is checked

  predicate NamesOk(spec: Spec, i: nat)
    requires i < |spec.steps|
  {
    && (forall j | 0 <= j < i :: spec.steps[j].id != spec.steps[i].id)
    && (spec.steps[i].saveAs != "" ==>
          && spec.steps[i].saveAs !in spec.inputs
          && forall j | 0 <= j < i :: spec.steps[j].saveAs != spec.steps[i].saveAs)
  }

  predicate SchemaOk(spec: Spec, cap: int) {
    && |spec.steps| <= cap && |spec.steps| <= spec.maxSteps && spec.timeoutMs > 0
    && forall i | 0 <= i < |spec.steps| :: NamesOk(spec, i)
  }

  function Lower(s: string): string {
    seq(|s|, i requires 0 <= i < |s| => if 'A' <= s[i] <= 'Z' then (s[i] as int + 32) as char else s[i])
  }

  predicate OccursAt(s: string, part: string, i: nat) { i + |part| <= |s| && s[i..i + |part|] == part }

  predicate Contains(s: string, part: string) { exists i :: 0 <= i <= |s| && OccursAt(s, part, i) }

  predicate Forbidden(tool: string) { exists k :: 0 <= k < |FORBIDDEN| && Contains(Lower(tool), FORBIDDEN[k]) }

  predicate AllowedForTenant(def: ToolDef, tenant: string) { def.allowedTenants == {} || tenant in def.allowedTenants }

  predicate ArgsGiven(def: ToolDef, st: SkillStep) { forall name | name in def.inputs && def.inputs[name] :: name in st.args }

  predicate ToolOk(st: SkillStep, tools: map<string, ToolDef>, opts: Options) {
    && !Forbidden(st.tool) && st.tool in tools
    && AllowedForTenant(tools[st.tool], opts.tenant) && ArgsGiven(tools[st.tool], st)
  }

  /** The declared level is at least the risk of every registered tool among the first n steps. */
  predicate RiskStated(spec: Spec, tools: map<string, ToolDef>, risk: Risk, n: nat)
    requires n <= |spec.steps|
  {
    forall i | 0 <= i < n && spec.steps[i].tool in tools :: Rank(tools[spec.steps[i].tool].risk) <= Rank(risk)
  }

  predicate ToolsOk(spec: Spec, tools: map<string, ToolDef>, opts: Options) {
    && (forall i | 0 <= i < |spec.steps| :: ToolOk(spec.steps[i], tools, opts))
    && spec.risk.Level? && RiskStated(spec, tools, spec.risk.risk, |spec.steps|)
    && (spec.risk.risk == Critical ==> opts.allowCritical)
  }

  predicate RefsOk(spec: Spec, tools: map<string, ToolDef>, i: nat)
    requires i < |spec.steps|
  {
    forall m | m in Mentions(spec.steps[i]) :: RefAvailable(m, AvailableBefore(spec, tools, i), spec.steps[i].saveAs)
  }

  /** Fills in the defaults; None is the error of a spec that cannot be normalised. */
  function Normalize(spec: Spec): Option<Spec> {
    if spec.steps == [] || spec.risk.Unrecognised? || exists st | st in spec.steps :: st.id == "" || st.tool == "" then None
    else Some(spec.(maxSteps := if spec.maxSteps <= 0 then DEFAULT_MAX_STEPS else spec.maxSteps,
                    timeoutMs := if spec.timeoutMs <= 0 then DEFAULT_TIMEOUT_MS else spec.timeoutMs,
                    risk := if spec.risk.Unset? then Level(Low) else spec.risk))
  }

  function HardCap(opts: Options): int { if opts.maxStepsHardCap > 0 then opts.maxStepsHardCap else HARD_MAX_STEPS }

  /** What a normalised spec must meet. */
  predicate SpecOk(spec: Spec, tools: map<string, ToolDef>, opts: Options) {
    && SchemaOk(spec, HardCap(opts)) && ToolsOk(spec, tools, opts)
    && forall i | 0 <= i < |spec.steps| :: RefsOk(spec, tools, i)
  }

  // ---------------------------------------------------------------- the checks

  class Report {
    var issues: seq<Issue>
    var computedRisk: Risk
    var requiresApproval: bool
    var tools: seq<string>
    var normalized: Spec
    var ok: bool

    constructor (spec: Spec)
      ensures issues == [] && computedRisk == ReadOnly && !requiresApproval && tools == [] && normalized == spec && !ok
    {
      issues, computedRisk, requiresApproval, tools, normalized, ok := [], ReadOnly, false, [], spec, false;
    }

    method Add(issue: Issue)
      modifies this`issues
      ensures issues == old(issues) + [issue]
      ensures Clean(issues) <==> old(Clean(issues)) && !issue.IsError()
    {
      CleanAfter(issues, issue);
      issues := issues + [issue];
    }

    method Finish()
      modifies this`ok
      ensures ok <==> Clean(issues)
    {
      ok := true;
      for i := 0 to |issues|
        invariant ok && forall j | 0 <= j < i :: !issues[j].IsError()
      {
        if issues[i].IsError() {
          ok := false;
          break;
        }
      }
    }
  }

  /** Step j is the first one with the id of step i. */
  predicate FirstId(spec: Spec, j: nat, i: nat)
    requires i < |spec.steps|
  {
    j < i && spec.steps[j].id == spec.steps[i].id && forall l | 0 <= l < j :: spec.steps[l].id != spec.steps[i].id
  }

  predicate FirstSave(spec: Spec, j: nat, i: nat)
    requires i < |spec.steps|
  {
    j < i && spec.steps[j].saveAs == spec.steps[i].saveAs && forall l | 0 <= l < j :: spec.steps[l].saveAs != spec.steps[i].saveAs
  }

  ghost predicate SavedFirstBy(spec: Spec, i: nat, id: string)
    requires i < |spec.steps|
  {
    exists j: nat :: FirstSave(spec, j, i) && spec.steps[j].id == id
  }

  /** What is wrong with the names of step i, naming the first step it collides with. */
  ghost predicate NameIssue(spec: Spec, i: nat, x: Issue)
    requires i < |spec.steps|
  {
    match x
    case DupStepId(step, prev) => step == i && FirstId(spec, prev, i)
    case DupSaveAs(step, other) =>
      step == i && spec.steps[i].saveAs != "" && SavedFirstBy(spec, i, other)
    case SaveAsShadowsInput(step) => step == i && spec.steps[i].saveAs != "" && spec.steps[i].saveAs in spec.inputs
    case _ => false
  }

  ghost predicate SomeNameIssue(spec: Spec, n: nat, x: Issue)
    requires n <= |spec.steps|
  {
    exists i :: 0 <= i < n && NameIssue(spec, i, x)
  }

  ghost predicate SizeIssue(spec: Spec, cap: int, x: Issue) {
    match x
    case MaxStepsHard => |spec.steps| > cap
    case TooManySteps => |spec.steps| > spec.maxSteps
    case BadTimeout => spec.timeoutMs <= 0
    case _ => false
  }

  /** Adds exactly the issues of the schema. */
  method CheckSchema(rep: Report, spec: Spec, cap: int) returns (ghost added: seq<Issue>)
    modifies rep`issues
    ensures Clean(rep.issues) <==> old(Clean(rep.issues)) && SchemaOk(spec, cap)
    ensures rep.issues == old(rep.issues) + added
    ensures forall x :: x in added <==> SizeIssue(spec, cap, x) || SomeNameIssue(spec, |spec.steps|, x)
  {
    hide Clean, NamesOk, NameIssue, SizeIssue, IdsSeen, SavesSeen;
    added := CheckSizes(rep, spec, cap);
    ghost var before, names, sizes := Clean(rep.issues), [], added;
    var seenId: map<string, nat> := map[];
    var seenSave: map<string, string> := map[];
    NothingSeen(spec);
    for i := 0 to |spec.steps|
      invariant IdsSeen(spec, i, seenId) && SavesSeen(spec, i, seenSave)
      invariant Clean(rep.issues) <==> before && forall j | 0 <= j < i :: NamesOk(spec, j)
      invariant rep.issues == old(rep.issues) + sizes + names
      invariant forall x :: x in names <==> SomeNameIssue(spec, i, x)
    {
      ghost var more;
      seenId, seenSave, more := CheckStepNames(rep, spec, i, seenId, seenSave);
      names := names + more;
    }
    added := sizes + names;
  }

  lemma NothingSeen(spec: Spec)
    ensures IdsSeen(spec, 0, map[]) && SavesSeen(spec, 0, map[])
  {
  }

  method CheckSizes(rep: Report, spec: Spec, cap: int) returns (ghost added: seq<Issue>)
    modifies rep`issues
    ensures Clean(rep.issues) <==>
              old(Clean(rep.issues)) && |spec.steps| <= cap && |spec.steps| <= spec.maxSteps && spec.timeoutMs > 0
    ensures rep.issues == old(rep.issues) + added
    ensures forall x :: x in added <==> SizeIssue(spec, cap, x)
  {
    hide Clean;
    added := [];
    if |spec.steps| > cap {
      rep.Add(MaxStepsHard);
      added := added + [MaxStepsHard];
    }
    if |spec.steps| > spec.maxSteps {
      rep.Add(TooManySteps);
      added := added + [TooManySteps];
    }
    if spec.timeoutMs <= 0 {
      rep.Add(BadTimeout);
      added := added + [BadTimeout];
    }
  }

  /** The ids of the first i steps, each with the first step that has it. */
  ghost predicate IdsSeen(spec: Spec, i: nat, seen: map<string, nat>)
    requires i <= |spec.steps|
  {
    && (forall id :: id in seen <==> exists j :: 0 <= j < i && spec.steps[j].id == id)
    && (forall id | id in seen ::
          && seen[id] < i && spec.steps[seen[id]].id == id
          && forall l | 0 <= l < seen[id] :: spec.steps[l].id != id)
  }

  /** The names that the first i steps save under, each with the id of the first step that does. */
  ghost predicate SavesSeen(spec: Spec, i: nat, seen: map<string, string>)
    requires i <= |spec.steps|
  {
    && (forall name :: name in seen <==> name != "" && exists j :: 0 <= j < i && spec.steps[j].saveAs == name)
    && (forall name | name in seen ::
          exists j :: 0 <= j < i && spec.steps[j].saveAs == name && seen[name] == spec.steps[j].id
                      && forall l | 0 <= l < j :: spec.steps[l].saveAs != name)
  }

  lemma IdClash(spec: Spec, i: nat, seen: map<string, nat>)
    requires i < |spec.steps| && IdsSeen(spec, i, seen)
    ensures forall prev: nat :: FirstId(spec, prev, i) <==> spec.steps[i].id in seen && seen[spec.steps[i].id] == prev
  {
  }

  lemma SaveClash(spec: Spec, i: nat, seen: map<string, string>)
    requires i < |spec.steps| && SavesSeen(spec, i, seen) && spec.steps[i].saveAs != ""
    ensures forall id :: SavedFirstBy(spec, i, id) <==> spec.steps[i].saveAs in seen && seen[spec.steps[i].saveAs] == id
  {
    var name := spec.steps[i].saveAs;
    if name in seen {
      var j :| 0 <= j < i && spec.steps[j].saveAs == name && seen[name] == spec.steps[j].id
               && forall l | 0 <= l < j :: spec.steps[l].saveAs != name;
      assert FirstSave(spec, j, i);
    }
  }

  lemma IdsNext(spec: Spec, i: nat, seen: map<string, nat>)
    requires i < |spec.steps| && IdsSeen(spec, i, seen)
    ensures var id := spec.steps[i].id; IdsSeen(spec, i + 1, if id in seen then seen else seen[id := i])
  {
  }

  lemma SavesNext(spec: Spec, i: nat, seen: map<string, string>)
    requires i < |spec.steps| && SavesSeen(spec, i, seen)
    ensures var st := spec.steps[i];
            SavesSeen(spec, i + 1, if st.saveAs == "" || st.saveAs in seen then seen else seen[st.saveAs := st.id])
  {
    var st := spec.steps[i];
    var saves := if st.saveAs == "" || st.saveAs in seen then seen else seen[st.saveAs := st.id];
    forall name | name in saves
      ensures exists j :: 0 <= j < i + 1 && spec.steps[j].saveAs == name && saves[name] == spec.steps[j].id
                          && forall l | 0 <= l < j :: spec.steps[l].saveAs != name
    {
      if name in seen {
        var j :| 0 <= j < i && spec.steps[j].saveAs == name && seen[name] == spec.steps[j].id
                 && forall l | 0 <= l < j :: spec.steps[l].saveAs != name;
      }
    }
  }

  lemma NamesOkIff(spec: Spec, i: nat, seenId: map<string, nat>, seenSave: map<string, string>)
    requires i < |spec.steps| && IdsSeen(spec, i, seenId) && SavesSeen(spec, i, seenSave)
    ensures var st := spec.steps[i];
            NamesOk(spec, i) <==>
            st.id !in seenId && (st.saveAs != "" ==> st.saveAs !in spec.inputs && st.saveAs !in seenSave)
  {
  }

  method CheckStepNames(rep: Report, spec: Spec, i: nat, seenId: map<string, nat>, seenSave: map<string, string>)
    returns (seenId': map<string, nat>, seenSave': map<string, string>, ghost added: seq<Issue>)
    requires i < |spec.steps| && IdsSeen(spec, i, seenId) && SavesSeen(spec, i, seenSave)
    modifies rep`issues
    ensures IdsSeen(spec, i + 1, seenId') && SavesSeen(spec, i + 1, seenSave')
    ensures Clean(rep.issues) <==> old(Clean(rep.issues)) && NamesOk(spec, i)
    ensures rep.issues == old(rep.issues) + added && forall x :: x in added <==> NameIssue(spec, i, x)
  {
    hide Clean, IdsSeen, SavesSeen, FirstId, SavedFirstBy, NamesOk;
    seenId', seenSave', added := seenId, seenSave, [];
    IdsNext(spec, i, seenId);
    SavesNext(spec, i, seenSave);
    NamesOkIff(spec, i, seenId, seenSave);
    IdClash(spec, i, seenId);
    var st := spec.steps[i];
    if st.id in seenId {
      rep.Add(DupStepId(i, seenId[st.id]));
      added := added + [DupStepId(i, seenId[st.id])];
    } else {
      seenId' := seenId[st.id := i];
    }
    if st.saveAs != "" {
      SaveClash(spec, i, seenSave);
      if st.saveAs in seenSave {
        rep.Add(DupSaveAs(i, seenSave[st.saveAs]));
        added := added + [DupSaveAs(i, seenSave[st.saveAs])];
      } else {
        seenSave' := seenSave[st.saveAs := st.id];
      }
      if st.saveAs in spec.inputs {
        rep.Add(SaveAsShadowsInput(i));
        added := added + [SaveAsShadowsInput(i)];
      }
    }
  }

  method CheckName(rep: Report, st: SkillStep, i: nat)
    modifies rep`issues
    ensures Clean(rep.issues) <==> old(Clean(rep.issues)) && !Forbidden(st.tool)
  {
    hide Clean, Contains;
    var lower := Lower(st.tool);
    for k := 0 to |FORBIDDEN|
      invariant rep.issues == old(rep.issues) && forall l | 0 <= l < k :: !Contains(lower, FORBIDDEN[l])
    {
      if Contains(lower, FORBIDDEN[k]) {
        rep.Add(ForbiddenTool(i));
        break;
      }
    }
  }

  method CheckArgs(rep: Report, st: SkillStep, def: ToolDef, i: nat)
    modifies rep`issues
    ensures Clean(rep.issues) <==> old(Clean(rep.issues)) && ArgsGiven(def, st)
  {
    hide Clean;
    var names := def.inputs.Keys;
    while names != {}
      invariant names <= def.inputs.Keys
      invariant Clean(rep.issues) <==>
        old(Clean(rep.issues)) && forall name | name in def.inputs && name !in names && def.inputs[name] :: name in st.args
    {
      var name :| name in names;
      names := names - {name};
      if !def.inputs[name] {
        continue;
      }
      if name !in st.args {
        rep.Add(ToolArgRequired(i, name));
      }
    }
    ghost var required := Clean(rep.issues);
    var given := st.args.Keys;
    while given != {}
      invariant Clean(rep.issues) == required
    {
      var name :| name in given;
      given := given - {name};
      if name !in def.inputs && def.inputs != map[] {
        rep.Add(ToolArgUnknown(i, name));
      }
    }
  }

  method CheckTool(rep: Report, st: SkillStep, tools: map<string, ToolDef>, opts: Options, i: nat)
    modifies rep`issues
    ensures Clean(rep.issues) <==> old(Clean(rep.issues)) && ToolOk(st, tools, opts)
  {
    hide Clean, Forbidden, ArgsGiven, AllowedForTenant;
    CheckName(rep, st, i);
    if st.tool !in tools {
      rep.Add(ToolNotRegistered(i));
      return;
    }
    if !AllowedForTenant(tools[st.tool], opts.tenant) {
      rep.Add(ToolTenantDenied(i));
    }
    CheckArgs(rep, st, tools[st.tool], i);
  }

  /** The higher of two risks. */
  function MaxRisk(a: Risk, b: Risk): Risk { if Rank(a) >= Rank(b) then a else b }

  /** This is the highest risk of the registered tools among the first n steps. */
  ghost predicate Highest(spec: Spec, tools: map<string, ToolDef>, toolRisk: Risk, n: nat)
    requires n <= |spec.steps|
  {
    forall risk :: RiskStated(spec, tools, risk, n) <==> Rank(toolRisk) <= Rank(risk)
  }

  lemma HighestNext(spec: Spec, tools: map<string, ToolDef>, toolRisk: Risk, n: nat)
    requires n < |spec.steps| && Highest(spec, tools, toolRisk, n)
    ensures var tool := spec.steps[n].tool;
            Highest(spec, tools, if tool in tools then MaxRisk(toolRisk, tools[tool].risk) else toolRisk, n + 1)
  {
    forall risk ensures RiskStated(spec, tools, risk, n + 1) <==>
                        RiskStated(spec, tools, risk, n) &&
                        (spec.steps[n].tool in tools ==> Rank(tools[spec.steps[n].tool].risk) <= Rank(risk)) {
    }
  }

  method CheckTools(rep: Report, spec: Spec, tools: map<string, ToolDef>, opts: Options) returns (toolRisk: Risk)
    modifies rep`issues, rep`tools
    ensures Clean(rep.issues) <==>
              old(Clean(rep.issues)) && forall i | 0 <= i < |spec.steps| :: ToolOk(spec.steps[i], tools, opts)
    ensures Highest(spec, tools, toolRisk, |spec.steps|)
    ensures forall t :: t in rep.tools <==> t in tools && exists i :: 0 <= i < |spec.steps| && spec.steps[i].tool == t
    ensures forall i, j | 0 <= i < j < |rep.tools| :: rep.tools[i] != rep.tools[j]
  {
    hide Clean, ToolOk, Highest;
    toolRisk := ReadOnly;
    NothingHigher(spec, tools);
    var seen: set<string> := {};
    var found: seq<string> := [];
    for i := 0 to |spec.steps|
      invariant Clean(rep.issues) <==> old(Clean(rep.issues)) && forall j | 0 <= j < i :: ToolOk(spec.steps[j], tools, opts)
      invariant Highest(spec, tools, toolRisk, i)
      invariant forall t :: t in seen <==> t in found
      invariant forall t :: t in found <==> t in tools && exists j :: 0 <= j < i && spec.steps[j].tool == t
      invariant forall a, b | 0 <= a < b < |found| :: found[a] != found[b]
    {
      var st := spec.steps[i];
      CheckTool(rep, st, tools, opts, i);
      HighestNext(spec, tools, toolRisk, i);
      if st.tool !in tools {
        continue;
      }
      toolRisk := MaxRisk(toolRisk, tools[st.tool].risk);
      if st.tool !in seen {
        seen := seen + {st.tool};
        found := found + [st.tool];
      }
    }
    rep.tools := found;
  }

  lemma NothingHigher(spec: Spec, tools: map<string, ToolDef>)
    ensures Highest(spec, tools, ReadOnly, 0)
  {
  }

  method CheckToolsAndSecurity(rep: Report, spec: Spec, tools: map<string, ToolDef>, opts: Options)
    requires spec.risk.Level?
    modifies rep`issues, rep`tools, rep`computedRisk, rep`requiresApproval
    ensures Clean(rep.issues) <==> old(Clean(rep.issues)) && ToolsOk(spec, tools, opts)
    ensures RiskStated(spec, tools, rep.computedRisk, |spec.steps|) && Rank(spec.risk.risk) <= Rank(rep.computedRisk)
    ensures RiskStated(spec, tools, spec.risk.risk, |spec.steps|) ==> rep.computedRisk == spec.risk.risk
    ensures rep.requiresApproval <==>
              old(rep.requiresApproval) || Rank(rep.computedRisk) >= Rank(High) || spec.requiresApproval
  {
    hide Clean, RiskStated, ToolOk;
    var toolRisk := CheckTools(rep, spec, tools, opts);
    var computed := toolRisk;
    if Rank(spec.risk.risk) < Rank(computed) {
      rep.Add(RiskUnderstated);
    }
    if Rank(spec.risk.risk) > Rank(computed) {
      computed := spec.risk.risk;
    }
    rep.computedRisk := computed;
    if computed == High || computed == Critical || spec.requiresApproval {
      rep.requiresApproval := true;
    }
    if computed == Critical && !opts.allowCritical {
      rep.Add(CriticalDenied);
    }
  }

  method CheckControlFlowAndRefs(rep: Report, spec: Spec, tools: map<string, ToolDef>)
    modifies rep`issues
    ensures Clean(rep.issues) <==> old(Clean(rep.issues)) && forall i | 0 <= i < |spec.steps| :: RefsOk(spec, tools, i)
  {
    hide Clean, RefAvailable, Mentions, SavedPaths, InputPaths;
    var available := InputPaths(spec);
    for i := 0 to |spec.steps|
      invariant available == AvailableBefore(spec, tools, i)
      invariant Clean(rep.issues) <==> old(Clean(rep.issues)) && forall j | 0 <= j < i :: RefsOk(spec, tools, j)
    {
      var st := spec.steps[i];
      CheckRefs(rep, st, available, i);
      assert RefsOk(spec, tools, i) <==> forall m | m in Mentions(st) :: RefAvailable(m, available, st.saveAs);
      available := available + SavedPaths(st, tools);
    }
    WarnCollisions(rep, spec);
  }

  method CheckRefs(rep: Report, st: SkillStep, available: set<Path>, i: nat)
    modifies rep`issues
    ensures Clean(rep.issues) <==>
              old(Clean(rep.issues)) && forall m | m in Mentions(st) :: RefAvailable(m, available, st.saveAs)
  {
    hide Clean, RefAvailable, Mentions;
    var refs := Mentions(st);
    while refs != {}
      invariant refs <= Mentions(st)
      invariant Clean(rep.issues) <==>
        old(Clean(rep.issues)) && forall m | m in Mentions(st) && m !in refs :: RefAvailable(m, available, st.saveAs)
    {
      var m :| m in refs;
      refs := refs - {m};
      if !RefAvailable(m, available, st.saveAs) {
        rep.Add(UnknownRef(i, m));
      }
    }
  }

  /** Output names that are step ids only warn. */
  method WarnCollisions(rep: Report, spec: Spec)
    modifies rep`issues
    ensures Clean(rep.issues) <==> old(Clean(rep.issues))
  {
    hide Clean;
    var names := spec.outputs;
    while names != {}
      invariant Clean(rep.issues) <==> old(Clean(rep.issues))
    {
      var name :| name in names;
      names := names - {name};
      for i := 0 to |spec.steps|
        invariant Clean(rep.issues) <==> old(Clean(rep.issues))
      {
        if spec.steps[i].id == name {
          rep.Add(OutputStepCollision(name));
        }
      }
    }
  }

  /** A report is OK exactly if the normalised spec meets all that is checked. */
  method Validate(spec: Spec, tools: map<string, ToolDef>, opts: Options) returns (rep: Report)
    ensures fresh(rep)
    ensures rep.ok <==> Normalize(spec).Some? && SpecOk(Normalize(spec).value, tools, opts)
    ensures Normalize(spec).Some? ==> rep.normalized == Normalize(spec).value
    ensures rep.ok ==>
              && rep.computedRisk == rep.normalized.risk.risk
              && (rep.requiresApproval <==> Rank(rep.computedRisk) >= Rank(High) || rep.normalized.requiresApproval)
  {
    hide SchemaOk, ToolsOk, RefsOk, NamesOk;
    var norm := Normalize(spec);
    if norm.None? {
      rep := new Report(spec);
      rep.Add(SpecNormalize);
      rep.Finish();
      return;
    }
    rep := new Report(norm.value);
    ghost var added := CheckSchema(rep, norm.value, HardCap(opts));
    CheckToolsAndSecurity(rep, norm.value, tools, opts);
    CheckControlFlowAndRefs(rep, norm.value, tools);
    rep.Finish();
    ToolsOkStates(norm.value, tools, opts);
  }

  lemma ToolsOkStates(spec: Spec, tools: map<string, ToolDef>, opts: Options)
    ensures ToolsOk(spec, tools, opts) ==> spec.risk.Level? && RiskStated(spec, tools, spec.risk.risk, |spec.steps|)
  {
  }

  // ---------------------------------------------------------------- what it is good for

  /** A validated spec declares at least the registered risk of every tool it uses, so the policy
      decides on a level that covers them. */
  lemma ValidatedRiskCovers(spec: Spec, tools: map<string, ToolDef>, opts: Options)
    requires SpecOk(spec, tools, opts)
    ensures RiskCovers(spec, tools) && DistinctStepIds(spec)
  {
    forall i | 0 <= i < |spec.steps| ensures spec.steps[i].tool in tools {
      assert ToolOk(spec.steps[i], tools, opts);
    }
    forall i, j | 0 <= i < j < |spec.steps| ensures spec.steps[i].id != spec.steps[j].id {
      assert NamesOk(spec, j);
    }
  }

  /** A guard that compares a declared input is refused, whether the input is named bare or under
      `inputs`, unless `inputs` is itself the name of an input or of an earlier result, or an
      input is named `*`. */
  lemma InputComparisonsAreRefusedIff(spec: Spec, tools: map<string, ToolDef>, i: nat, name: string)
    requires i <= |spec.steps| && name in spec.inputs && name != ""
    ensures !RefAvailable(Compared([name]), AvailableBefore(spec, tools, i), "")
    ensures RefAvailable(Compared(["inputs", name]), AvailableBefore(spec, tools, i), "") <==>
            "inputs" in spec.inputs || "*" in spec.inputs || exists j :: 0 <= j < i && spec.steps[j].saveAs == "inputs"
  {
    RootsAvailable(spec, tools, i, "inputs");
  }

  /** A root is available by itself exactly if it is an input or an earlier result. */
  lemma {:induction false} RootsAvailable(spec: Spec, tools: map<string, ToolDef>, i: nat, root: string)
    requires i <= |spec.steps| && root != ""
    ensures [root] in AvailableBefore(spec, tools, i) <==>
            root in spec.inputs || exists j :: 0 <= j < i && spec.steps[j].saveAs == root
    ensures [root, "*"] in AvailableBefore(spec, tools, i) <==>
            (root == "inputs" && "*" in spec.inputs) || exists j :: 0 <= j < i && spec.steps[j].saveAs == root
  {
    if i == 0 {
      assert [root] !in (set name | name in spec.inputs :: ["inputs", name]);
    } else {
      RootsAvailable(spec, tools, i - 1, root);
      var st := spec.steps[i - 1];
      if st.saveAs == root {
        assert [root] in SavedPaths(st, tools);
      }
      if exists j :: 0 <= j < i && spec.steps[j].saveAs == root {
        var j :| 0 <= j < i && spec.steps[j].saveAs == root;
        assert j < i - 1 || j == i - 1;
      }
    }
  }
}
