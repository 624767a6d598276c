/** The executable skill contract and the tool catalog
    (internal/skill/types.go, internal/toolregistry/registry.go). */
module SkillSpec {
  import opened Templates
  import opened Wrappers

  datatype Risk = ReadOnly | Low | Medium | High | Critical

  /** Severity order used by the validator (registry.go, Risk.Rank). */
  function Rank(r: Risk): nat {
    match r
    case ReadOnly => 0
    case Low => 1
    case Medium => 2
    case High => 3
    case Critical => 4
  }

  /** A declared risk level: none, a known one, or any other string. */
  datatype RiskLevel = Unset | Level(risk: Risk) | Unrecognised

  /** How an UNKNOWN outcome of the tool may be recovered. */
  datatype Capability = NoIdempotency | Native | QueryReconcile

  /** `inputs` tells which arguments the tool takes and whether it needs them; with no allowed tenants
      every tenant may use it. */
  datatype ToolDef = ToolDef(
    risk: Risk,
    sideEffect: bool,
    capability: Capability,
    allowedTenants: set<string>,
    inputs: map<string, bool>,
    outputs: set<string>)

  /** `on_error.action`, trimmed and lower-cased; anything else behaves as `fail`. */
  datatype OnError = FailStep | ContinueStep | RetryStep

  datatype SkillStep = SkillStep(
    id: string,
    tool: string,
    args: map<string, Arg>,
    saveAs: string,
    guard: Option<Cond>,
    retry: Option<int>,
    onError: OnError)

  datatype Spec = Spec(
    inputs: set<string>,
    outputs: set<string>,
    preconditions: seq<Cond>,
    steps: seq<SkillStep>,
    risk: RiskLevel,
    requiresApproval: bool,
    maxSteps: int,
    timeoutMs: int)

  /** What one runtime works with: a spec, the registered tools and the text rendering. */
  datatype Program = Program(
    spec: Spec,
    tools: map<string, ToolDef>,
    render: Render,
    ttl: nat)

  function ToolCapability(p: Program, tool: string): Capability {
    if tool in p.tools then p.tools[tool].capability else NoIdempotency
  }

  predicate SideEffect(p: Program, tool: string) {
    tool in p.tools && p.tools[tool].sideEffect
  }

  predicate DistinctStepIds(spec: Spec) {
    forall i, j | 0 <= i < j < |spec.steps| :: spec.steps[i].id != spec.steps[j].id
  }

  /** The number of steps a run executes: `max_steps`, capped by the step count. */
  function StepLimit(spec: Spec): nat {
    if spec.maxSteps <= 0 || spec.maxSteps > |spec.steps| then |spec.steps| else spec.maxSteps
  }

  function MaxAttempts(st: SkillStep): nat {
    if st.retry.Some? && st.retry.value > 1 then st.retry.value else 1
  }

  predicate GuardHolds(p: Program, st: SkillStep, b: Bindings) {
    st.guard.Some? ==> EvalCondition(p.render, st.guard.value, b)
  }

  predicate PreconditionsHold(p: Program, b: Bindings) {
    forall c | c in p.spec.preconditions :: EvalCondition(p.render, c, b)
  }

  /** Initial bindings: every input by name, and the whole input object as `inputs`. */
  function InputBindings(inputs: Bindings): Bindings {
    map["inputs" := Obj(inputs)] + inputs
  }

  /** Declared outputs that are bound; nil when there are none. */
  function ExtractOutputs(spec: Spec, b: Bindings): Option<Bindings> {
    var out := map name | name in spec.outputs && name in b :: b[name];
    if out == map[] then None else Some(out)
  }
}
