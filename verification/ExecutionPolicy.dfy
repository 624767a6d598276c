/** The gate every run passes (internal/skillruntime/policy.go). */
module ExecutionPolicy {
  import opened ExecutionLedger
  import opened SkillSpec

  /** ShadowOnly belongs to the interface; the default policy never answers it. */
  datatype Decision = Allow | Deny | RequireApproval | ShadowOnly

  /** `approvalApproved` is only true on Resume. */
  datatype PolicyRequest = PolicyRequest(
    mode: Mode,
    risk: RiskLevel,
    requiresApproval: bool,
    runtimeEnabled: bool,
    availableTools: seq<string>,
    specTools: seq<string>,
    approvalApproved: bool)

  predicate ToolsAvailable(req: PolicyRequest) {
    forall t | t in req.specTools && t != "" :: t in req.availableTools
  }

  function DecideRisk(allowMedium: bool, req: PolicyRequest): Decision {
    var live := req.mode.Live?;
    match req.risk
    case Unrecognised => Deny
    case Level(Critical) => Deny
    case Level(High) => if live && !req.approvalApproved then RequireApproval else Allow
    case Level(Medium) => if live && !allowMedium then Deny else Allow
    case _ => if req.requiresApproval && live && !req.approvalApproved then RequireApproval else Allow
  }

  function Decide(allowMedium: bool, req: PolicyRequest): Decision {
    if !req.runtimeEnabled || !ToolsAvailable(req) then Deny else DecideRisk(allowMedium, req)
  }

  /** No run: the runtime is off or a tool is missing; the risk is CRITICAL or unknown, whatever the mode and
      the approval; or a LIVE run is MEDIUM and that is not allowed. */
  predicate Barred(allowMedium: bool, req: PolicyRequest) {
    || !req.runtimeEnabled
    || (exists t :: t in req.specTools && t != "" && t !in req.availableTools)
    || req.risk.Unrecognised? || req.risk == Level(Critical)
    || (req.mode.Live? && req.risk == Level(Medium) && !allowMedium)
  }

  /** A LIVE run without an approval that is HIGH, or asks for one and is not MEDIUM. */
  predicate AwaitsApproval(req: PolicyRequest) {
    && req.mode.Live? && !req.approvalApproved
    && (req.risk == Level(High) || (req.requiresApproval && req.risk != Level(Medium)))
  }

  /** DENY exactly if the run is barred, and otherwise REQUIRE_APPROVAL exactly if it awaits one. */
  lemma DecisionIff(allowMedium: bool, req: PolicyRequest)
    ensures Decide(allowMedium, req) == Deny <==> Barred(allowMedium, req)
    ensures Decide(allowMedium, req) == RequireApproval <==> !Barred(allowMedium, req) && AwaitsApproval(req)
    ensures Decide(allowMedium, req) == Allow <==> !Barred(allowMedium, req) && !AwaitsApproval(req)
  {
  }

  /** Two loops: one collects the available tools, one looks for a missing one. */
  method DecideByLoops(allowMedium: bool, req: PolicyRequest) returns (d: Decision)
    ensures d == Decide(allowMedium, req)
    ensures d == Deny <==> Barred(allowMedium, req)
    ensures d == RequireApproval <==> !Barred(allowMedium, req) && AwaitsApproval(req)
    ensures d == Allow <==> !Barred(allowMedium, req) && !AwaitsApproval(req)
  {
    DecisionIff(allowMedium, req);
    if !req.runtimeEnabled {
      return Deny;
    }
    var available: set<string> := {};
    for i := 0 to |req.availableTools|
      invariant forall t :: t in available <==> t != "" && t in req.availableTools[..i]
    {
      if req.availableTools[i] != "" {
        available := available + {req.availableTools[i]};
      }
    }
    assert req.availableTools[..|req.availableTools|] == req.availableTools;
    for i := 0 to |req.specTools|
      invariant forall j | 0 <= j < i && req.specTools[j] != "" :: req.specTools[j] in req.availableTools
    {
      if req.specTools[i] != "" && req.specTools[i] !in available {
        assert !ToolsAvailable(req);
        return Deny;
      }
    }
    assert ToolsAvailable(req);
    return DecideRisk(allowMedium, req);
  }

  /** The declared level is at least the registered risk of every tool used; what validation guarantees. */
  predicate RiskCovers(spec: Spec, tools: map<string, ToolDef>) {
    && spec.risk.Level?
    && forall i | 0 <= i < |spec.steps| ::
         spec.steps[i].tool in tools && Rank(tools[spec.steps[i].tool].risk) <= Rank(spec.risk.risk)
  }

  /** A LIVE run that the policy allows without an approval uses only tools of risk MEDIUM or
      lower, all of them available to the agent. */
  lemma UnapprovedToolsAreModest(allowMedium: bool, req: PolicyRequest, spec: Spec, tools: map<string, ToolDef>, i: nat)
    requires req.mode.Live? && !req.approvalApproved && Decide(allowMedium, req) == Allow
    requires req.risk == spec.risk && RiskCovers(spec, tools)
    requires i < |spec.steps| && spec.steps[i].tool in req.specTools && spec.steps[i].tool != ""
    ensures Rank(tools[spec.steps[i].tool].risk) <= Rank(Medium)
    ensures Rank(tools[spec.steps[i].tool].risk) == Rank(Medium) ==> allowMedium
    ensures spec.steps[i].tool in req.availableTools
  {
    var rank := Rank(tools[spec.steps[i].tool].risk);
    assert rank <= Rank(spec.risk.risk);
  }

  /** A skill that asks for approval can still run LIVE without one: exactly if it is declared
      MEDIUM and medium risk is allowed, because that branch never looks at the flag. */
  lemma ApprovalIsSkippedIff(allowMedium: bool, req: PolicyRequest)
    requires req.mode.Live? && req.requiresApproval && !req.approvalApproved
    ensures Decide(allowMedium, req) == Allow <==>
            req.risk == Level(Medium) && allowMedium && req.runtimeEnabled && ToolsAvailable(req)
  {
  }

  /** An approval never widens what the policy denies: it only turns REQUIRE_APPROVAL into ALLOW. */
  lemma ApprovalOnlyLifts(allowMedium: bool, req: PolicyRequest)
    requires !req.approvalApproved
    ensures var before := Decide(allowMedium, req);
            var after := Decide(allowMedium, req.(approvalApproved := true));
            if before == RequireApproval then after == Allow else after == before
  {
    assert ToolsAvailable(req) <==> ToolsAvailable(req.(approvalApproved := true));
  }

  /** The tools of a spec, each once, in order. */
  method UniqueTools(spec: Spec) returns (out: seq<string>)
    ensures forall t :: t in out <==> exists i :: 0 <= i < |spec.steps| && spec.steps[i].tool == t
    ensures forall i, j | 0 <= i < j < |out| :: out[i] != out[j]
  {
    out := [];
    for i := 0 to |spec.steps|
      invariant forall t | t in out :: exists j :: 0 <= j < i && spec.steps[j].tool == t
      invariant forall j | 0 <= j < i :: spec.steps[j].tool in out
      invariant forall a, b | 0 <= a < b < |out| :: out[a] != out[b]
    {
      if spec.steps[i].tool in out {
        continue;
      }
      out := out + [spec.steps[i].tool];
    }
  }
}
