/** Which versions reach the runtime (internal/skill/execute.go): the service that callers of a skill
    use, over the registry and the runtime. */
module SkillExecution {
  import opened ExecutionLedger
  import opened ExecutionPolicy
  import opened Governance
  import opened MemoryStore
  import opened SkillRuntime
  import opened SkillSpec
  import opened SkillValidator
  import opened Templates
  import opened Wrappers
  import SkillRegistry

  type Version = SkillRegistry.Version

  /** A call names a version, and not a spec. */
  datatype ExecuteInput = ExecuteInput(
    tenant: string,
    skill: string,
    version: string,
    mode: Mode,
    inputs: Bindings,
    availableTools: seq<string>,
    idempotencyKey: string,
    runtimeEnabled: bool,
    requester: string)

  /** The version may run in this mode: it passed validation, and it is ACTIVE, or shadowed for a dry run. */
  predicate Serves(v: Version, mode: Mode) {
    && v.validation.Passed?
    && match mode
       case Shadow => v.stage.Shadow? || v.stage.Active?
       case Live => v.stage.Active?
  }

  /** Its tools are of risk MEDIUM or lower and available, and MEDIUM only if that is allowed. */
  predicate Modest(spec: Spec, tools: map<string, ToolDef>, available: seq<string>, allowMedium: bool) {
    forall i | 0 <= i < |spec.steps| && spec.steps[i].tool != "" ::
      var tool := spec.steps[i].tool;
      && tool in tools && Rank(tools[tool].risk) <= Rank(Medium) && (Rank(tools[tool].risk) == Rank(Medium) ==> allowMedium)
      && tool in available
  }

  class ExecutionService {
    const runtime: Runtime
    const registry: SkillRegistry.RegistryService
    const opts: Options
    const allowMedium: bool

    constructor (runtime: Runtime, registry: SkillRegistry.RegistryService, opts: Options, allowMedium: bool)
      requires runtime.Governed() && runtime.direct == map[] && runtime.cleared == map[] && registry.Valid()
      requires registry.checks == Some(SkillRegistry.Checks(runtime.tools, opts))
      requires forall q :: runtime.policy(q) == Decide(allowMedium, q)
      ensures this.runtime == runtime && this.registry == registry && Sound()
    {
      this.runtime, this.registry, this.opts, this.allowMedium := runtime, registry, opts, allowMedium;
    }

    /** The runtime and the registry are sound, check against the same tools, and every execution that
        entered the step loop did so with a spec that validates. */
    ghost predicate Sound()
      reads this, runtime, runtime.store, registry, registry.repo
    {
      && runtime.Governed() && registry.Valid()
      && registry.checks == Some(SkillRegistry.Checks(runtime.tools, opts))
      && (forall q :: runtime.policy(q) == Decide(allowMedium, q))
      && (forall k | k in runtime.direct :: SpecOk(runtime.direct[k].spec, runtime.tools, opts))
      && (forall k | k in runtime.cleared :: SpecOk(runtime.cleared[k].spec, runtime.tools, opts))
    }

    /** Whatever was executed, resumed, approved, rejected, validated, activated or suspended before: a LIVE
        execution that attempted a step without an APPROVED approval uses only modest tools. */
    lemma UnapprovedIsModest(k: Key)
      requires Sound() && runtime.store.RowsOf(k) != []
      requires forall a | a in runtime.store.approvals && Subject(runtime.store.approvals[a]) == k ::
                 !runtime.store.approvals[a].status.ApprovalApproved?
      ensures k in runtime.store.executions && k in runtime.direct
      ensures runtime.store.executions[k].req.mode.Live? ==>
                Modest(runtime.direct[k].spec, runtime.tools, runtime.direct[k].gate.availableTools, allowMedium)
    {
      hide SpecOk, Governance.Governed;
      UnapprovedRunsAreModest(runtime.policy, allowMedium, runtime.State(), k, runtime.tools, opts, 0);
      var spec := runtime.direct[k].spec;
      if runtime.store.executions[k].req.mode.Live? {
        forall i | 0 <= i < |spec.steps| && spec.steps[i].tool != ""
          ensures var tool := spec.steps[i].tool;
                  && tool in runtime.tools && Rank(runtime.tools[tool].risk) <= Rank(Medium)
                  && (Rank(runtime.tools[tool].risk) == Rank(Medium) ==> allowMedium)
                  && tool in runtime.direct[k].gate.availableTools
        {
          UnapprovedRunsAreModest(runtime.policy, allowMedium, runtime.State(), k, runtime.tools, opts, i);
        }
      }
    }

    /** And whatever was approved: an execution that attempted a step, in either mode, uses only available tools
        of risk HIGH or lower, and in LIVE mode HIGH only after its approval was APPROVED. */
    lemma NoCriticalToolRuns(k: Key, i: nat)
      requires Sound() && runtime.store.RowsOf(k) != []
      ensures k in runtime.store.executions && InLoopOrBeyond(runtime.State(), k)
      ensures var a := AdmissionOf(runtime.State(), k);
              i < |a.spec.steps| && a.spec.steps[i].tool != "" ==>
                var tool := a.spec.steps[i].tool;
                && tool in runtime.tools && tool in a.gate.availableTools && Rank(runtime.tools[tool].risk) <= Rank(High)
                && (runtime.store.executions[k].req.mode.Live? && Rank(runtime.tools[tool].risk) == Rank(High) ==>
                      exists b :: b in runtime.store.approvals && Subject(runtime.store.approvals[b]) == k
                                  && runtime.store.approvals[b].status.ApprovalApproved?)
    {
      hide SpecOk, Governance.Governed, Decide;
      NothingCriticalRuns(runtime.policy, allowMedium, runtime.State(), k);
      ValidatedRiskCovers(AdmissionOf(runtime.State(), k).spec, runtime.tools, opts);
    }

    /** The version that a call names, if it may run. */
    predicate Runnable(input: ExecuteInput)
      reads registry.repo
    {
      && input.tenant != "" && input.version != ""
      && (input.tenant, input.version) in registry.repo.versions
      && var v := registry.repo.versions[(input.tenant, input.version)];
         && (input.skill != "" ==> input.skill == v.skill)
         && Serves(v, input.mode)
    }

    function RequestFor(input: ExecuteInput, v: Version): RunRequest {
      RunRequest(input.tenant, v.skill, v.id, v.spec, input.mode, input.inputs, input.idempotencyKey, input.requester,
                 input.runtimeEnabled, input.availableTools)
    }

    /** The registry after the outcome of a dry run was counted. */
    function Counted(r: SkillRegistry.Reg, v: Key, mode: Mode, success: bool): SkillRegistry.Reg
      requires v in r.versions
    {
      if mode.Shadow? then SkillRegistry.WithVersion(r, SkillRegistry.Shadowing(r.versions[v], success)) else r
    }

    lemma ServedIsValid(v: Key)
      requires registry.Valid() && v in registry.repo.versions && registry.repo.versions[v].validation.Passed?
      requires registry.checks == Some(SkillRegistry.Checks(runtime.tools, opts))
      ensures SpecOk(registry.repo.versions[v].spec, runtime.tools, opts)
      ensures Rank(registry.repo.versions[v].spec.risk.risk) >= Rank(High) ==> registry.repo.versions[v].spec.requiresApproval
      ensures SkillRegistry.VersionKey(registry.repo.versions[v]) == v
    {
      hide SpecOk, SkillRegistry.SkillSound;
      var r := registry.repo.State();
      assert SkillRegistry.VersionSound(r, r.versions[v], registry.config.WithDefaults().shadowMin, registry.checks);
    }

    /** Runs the spec of the named version, and counts the outcome of a dry run. It is refused without any
        change exactly if that version does not exist, is not of the named skill, did not pass
        validation, or is not in a stage for this mode. */
    method Execute(input: ExecuteInput, id: string, approvalId: string, createdAt: int)
      returns (r: Option<Execution>, ghost gate: PolicyRequest)
      requires Sound() && (input.tenant, id) !in runtime.store.executions && (input.tenant, approvalId) !in runtime.store.approvals
      modifies runtime, runtime.store, runtime.exec, registry.repo
      ensures Sound() && (r.Some? <==> old(Runnable(input)))
      ensures r.None? ==> runtime.State() == old(runtime.State()) && registry.repo.State() == old(registry.repo.State())
      ensures r.Some? ==>
                && registry.repo.State() == Counted(old(registry.repo.State()), (input.tenant, input.version), input.mode,
                                                    r.value.status == ExecSucceeded)
                && var req := RequestFor(input, old(registry.repo.versions)[(input.tenant, input.version)]);
                   if old(runtime.Repeated(req))
                   then
                     && r == Some(old(runtime.store.executions)[(req.tenant, old(runtime.store.byIdem)[(req.tenant, req.idempotencyKey)])])
                     && runtime.State() == old(runtime.State()) && runtime.exec.calls == old(runtime.exec.calls)
                   else runtime.Honours(req, (input.tenant, id), r.value, gate) && runtime.Asks(req, gate)
    {
      hide SpecOk, Runtime.Honours, Runtime.Asks, Governance.Governed, SkillRegistry.RegistryService.Valid;
      var found := registry.repo.GetVersion((input.tenant, input.version));
      gate := PolicyRequest(input.mode, Unset, false, false, [], [], false);
      if input.tenant == "" || input.version == "" || found.None? {
        return None, gate;
      }
      var v := found.value;
      if (input.skill != "" && input.skill != v.skill) || !v.validation.Passed? {
        return None, gate;
      }
      if !(if input.mode.Shadow? then v.stage.Shadow? || v.stage.Active? else v.stage.Active?) {
        return None, gate;
      }
      ServedIsValid((input.tenant, input.version));
      r, gate := runtime.Run(RequestFor(input, v), id, approvalId, createdAt);
      if input.mode.Shadow? {
        var counted := registry.RecordShadowOutcome(input.tenant, v.id, r.value.status == ExecSucceeded);
      }
    }

    /** The execution exists, and its own version is ACTIVE and PASSED. */
    predicate Resumable(k: Key)
      reads runtime.store, registry.repo
    {
      && k.0 != "" && k.1 != "" && k in runtime.store.executions
      && var v := (k.0, runtime.store.executions[k].req.versionId);
         v in registry.repo.versions && Serves(registry.repo.versions[v], Live)
    }

    /** Resumes, with the spec of the execution's own version, exactly if that version may run LIVE and the
        execution waits with an approval for its skill that is APPROVED; otherwise nothing changes. */
    method Resume(tenant: string, executionId: string, enabled: bool, availableTools: seq<string>)
      returns (r: Option<Execution>, ghost gate: PolicyRequest)
      requires Sound()
      modifies runtime, runtime.store, runtime.exec
      ensures Sound() && registry.repo.State() == old(registry.repo.State())
      ensures var k := (tenant, executionId);
              !old(Resumable(k)) || !old(runtime.Ready(k)) ==>
                runtime.State() == old(runtime.State()) && runtime.exec.calls == old(runtime.exec.calls)
      ensures var k := (tenant, executionId);
              old(Resumable(k)) && old(runtime.Ready(k)) ==>
                var was := old(runtime.store.executions)[k];
                var spec := registry.repo.versions[(tenant, was.req.versionId)].spec;
                var runs := enabled && !runtime.policy(gate).Deny?;
                && r.Some? && runtime.AsksAgain(spec, was.req.mode, availableTools, gate)
                && runtime.Resumed(k, spec, runs, gate, was, r.value)
                && runtime.cleared == if runs then old(runtime.cleared)[k := Admission(gate, spec)] else old(runtime.cleared)
    {
      hide SpecOk, Runtime.Resumed, Governance.Governed, SkillRegistry.RegistryService.Valid;
      var k := (tenant, executionId);
      gate := PolicyRequest(Shadow, Unset, false, false, [], [], false);
      var ex := runtime.store.GetExecution(k);
      if tenant == "" || executionId == "" || ex.None? {
        return None, gate;
      }
      var found := registry.repo.GetVersion((tenant, ex.value.req.versionId));
      if found.None? || !found.value.validation.Passed? || !found.value.stage.Active? {
        return None, gate;
      }
      ServedIsValid((tenant, ex.value.req.versionId));
      r, gate := runtime.Resume(tenant, executionId, found.value.spec, enabled, availableTools);
    }

    method Approve(tenant: string, id: string, approvedBy: string, separate: bool) returns (r: Option<Approval>)
      requires Sound()
      modifies runtime.store`approvals
      ensures Sound() && (r.Some? ==> r.value.status.ApprovalApproved?)
    {
      hide SpecOk, Governance.Governed, SkillRegistry.RegistryService.Valid;
      r := runtime.Approve(tenant, id, approvedBy, separate);
    }

    method Reject(tenant: string, id: string, reason: string) returns (r: Option<Approval>)
      requires Sound()
      modifies runtime.store`approvals, runtime.store`executions
      ensures Sound() && (r.Some? ==> r.value.status.ApprovalRejected?)
    {
      hide SpecOk, Governance.Governed, SkillRegistry.RegistryService.Valid;
      r := runtime.Reject(tenant, id, reason);
    }

    /** A dry run that is called again under its idempotency key runs nothing, and yet each call counts
        another shadow outcome of the version it names. So one success can meet the gate to activation. */
    method RepeatedDryRunCounts(input: ExecuteInput, id: string, approvalId: string, createdAt: int, times: nat)
      requires Sound() && (input.tenant, id) !in runtime.store.executions && (input.tenant, approvalId) !in runtime.store.approvals
      requires input.mode.Shadow? && Runnable(input)
      requires runtime.Repeated(RequestFor(input, registry.repo.versions[(input.tenant, input.version)]))
      requires var k := (input.tenant, runtime.store.byIdem[(input.tenant, input.idempotencyKey)]);
               k in runtime.store.executions && runtime.store.executions[k].status == ExecSucceeded
      modifies runtime, runtime.store, runtime.exec, registry.repo
      ensures Sound() && runtime.State() == old(runtime.State()) && runtime.exec.calls == old(runtime.exec.calls)
      ensures var v := (input.tenant, input.version);
              && v in old(registry.repo.versions) && v in registry.repo.versions
              && registry.repo.versions[v] ==
                   old(registry.repo.versions)[v].(shadowSuccesses := old(registry.repo.versions)[v].shadowSuccesses + times)
    {
      hide Sound, Runtime.Honours, Runtime.Asks;
      var v := (input.tenant, input.version);
      for i := 0 to times
        invariant Sound() && runtime.State() == old(runtime.State()) && runtime.exec.calls == old(runtime.exec.calls)
        invariant v in registry.repo.versions
        invariant registry.repo.versions[v] ==
                    old(registry.repo.versions)[v].(shadowSuccesses := old(registry.repo.versions)[v].shadowSuccesses + i)
      {
        KeyOfVersion(v);
        var r, gate := Execute(input, id, approvalId, createdAt);
      }
    }

    lemma KeyOfVersion(v: Key)
      requires Sound() && v in registry.repo.versions
      ensures SkillRegistry.VersionKey(registry.repo.versions[v]) == v
    {
    }
  }
}
