/** What the policy gate and the approval workflow guarantee about which executions enter the
    step loop (internal/skillruntime/runtime.go, Run, Resume, Approve and Reject). */
module Governance {
  import opened ExecutionLedger
  import opened ExecutionPolicy
  import opened MemoryStore
  import opened SkillSpec
  import opened SkillValidator
  import opened Wrappers

  /** What the gate was asked about an execution that then ran, and the spec it ran with. */
  datatype Admission = Admission(gate: PolicyRequest, spec: Spec)

  /** The store's maps, with the executions that entered the step loop on a policy decision alone, and
      those that entered it after an approval, each with what the gate was asked then. */
  datatype Gov = Gov(
    executions: map<Key, Execution>,
    byIdem: map<Key, string>,
    steps: map<Key, Rows>,
    approvals: map<Key, Approval>,
    direct: map<Key, Admission>,
    cleared: map<Key, Admission>)

  type Policy = PolicyRequest -> Decision

  /** How a run can end. */
  predicate Concluded(status: ExecStatus) {
    status == ExecSucceeded || status == ExecFailed || status == ExecNeedsReconciliation
  }

  predicate InLoopOrBeyond(g: Gov, k: Key) { k in g.cleared || k in g.direct }

  /** The gate's answer lets a run into the step loop without an approval. */
  predicate Admits(d: Decision, mode: Mode) {
    d.Allow? || (d.ShadowOnly? && mode.Shadow?)
  }

  /** The gate was asked about this very spec. */
  predicate About(gate: PolicyRequest, spec: Spec, mode: Mode) {
    && gate.mode == mode && gate.risk == spec.risk && gate.requiresApproval == spec.requiresApproval
    && forall i | 0 <= i < |spec.steps| :: spec.steps[i].tool in gate.specTools
  }

  /** And not after an approval. */
  predicate Concerns(gate: PolicyRequest, spec: Spec, mode: Mode) {
    About(gate, spec, mode) && !gate.approvalApproved
  }

  /** It was asked again after an approval, and did not deny the run. */
  predicate Cleared(policy: Policy, mode: Mode, a: Admission) {
    About(a.gate, a.spec, mode) && a.gate.approvalApproved && !policy(a.gate).Deny?
  }

  /** It was asked before, and let the run pass. */
  predicate Admitted(policy: Policy, mode: Mode, a: Admission) {
    Concerns(a.gate, a.spec, mode) && Admits(policy(a.gate), mode)
  }

  function Subject(r: Approval): Key { (r.tenant, r.executionId) }

  /** An execution that has not entered the step loop is as it was created, and waits or is over. */
  predicate Untouched(g: Gov, k: Key)
    requires k in g.executions
  {
    var ex := g.executions[k];
    && ex.cursor == 0 && ex.epoch == 1 && ex.outputs == None
    && (k in g.steps ==> g.steps[k] == [])
    && (ex.status == ExecWaitingApproval || ex.status == ExecDenied || ex.status == ExecCancelled)
  }

  ghost predicate ExecutionOk(policy: Policy, g: Gov, k: Key)
    requires k in g.executions
  {
    && KeyOf(g.executions[k]) == k
    && (if InLoopOrBeyond(g, k) then Concluded(g.executions[k].status) else Untouched(g, k))
    && (k in g.direct ==> Admitted(policy, g.executions[k].req.mode, g.direct[k]))
    && (k in g.cleared ==>
          && Cleared(policy, g.executions[k].req.mode, g.cleared[k])
          && exists a :: a in g.approvals && Subject(g.approvals[a]) == k && g.approvals[a].status.ApprovalApproved?)
  }

  predicate ApprovalOk(g: Gov, a: Key)
    requires a in g.approvals
  {
    var r := g.approvals[a];
    var k := Subject(r);
    && a == (r.tenant, r.id)
    && k in g.executions && k !in g.direct
    && (r.status.ApprovalPending? ==> k !in g.cleared && g.executions[k].status == ExecWaitingApproval)
    && (r.status.ApprovalRejected? ==> k !in g.cleared && g.executions[k].status == ExecCancelled)
  }

  predicate IndexOk(g: Gov, i: Key)
    requires i in g.byIdem
  {
    (i.0, g.byIdem[i]) in g.executions && g.executions[(i.0, g.byIdem[i])].req.idempotencyKey == i.1
  }

  /** An execution is in the step loop or beyond it only on a decision that admits it, or after an
      APPROVED approval; there is at most one approval per execution. */
  ghost predicate Governed(policy: Policy, g: Gov) {
    && (forall k | k in g.steps || InLoopOrBeyond(g, k) :: k in g.executions)
    && (forall k | k in g.executions :: ExecutionOk(policy, g, k))
    && (forall i | i in g.byIdem :: IndexOk(g, i))
    && (forall a | a in g.approvals :: ApprovalOk(g, a))
    && (forall a, b | a in g.approvals && b in g.approvals && Subject(g.approvals[a]) == Subject(g.approvals[b]) :: a == b)
  }

  /** g' is g with the new execution ex under key k, found again by its idempotency key. */
  ghost predicate Created(g: Gov, g': Gov, k: Key, ex: Execution) {
    && k !in g.executions && KeyOf(ex) == k
    && g' == g.(executions := g.executions[k := ex], byIdem := g'.byIdem)
    && g'.byIdem == (if ex.req.idempotencyKey == "" then g.byIdem else g.byIdem[(k.0, ex.req.idempotencyKey) := k.1])
    && ex.cursor == 0 && ex.epoch == 1 && ex.outputs == None
  }

  /** A key without an execution has no rows, no approvals, and was never run. */
  lemma NothingOf(policy: Policy, g: Gov, k: Key)
    requires Governed(policy, g) && k !in g.executions
    ensures k !in g.steps && !InLoopOrBeyond(g, k)
    ensures forall a | a in g.approvals :: Subject(g.approvals[a]) != k
  {
    forall a | a in g.approvals ensures Subject(g.approvals[a]) != k {
      assert ApprovalOk(g, a);
    }
  }

  lemma GovernedIsValid(policy: Policy, g: Gov)
    requires Governed(policy, g)
    ensures forall k | k in g.executions :: KeyOf(g.executions[k]) == k
    ensures forall i | i in g.byIdem :: IndexOk(g, i)
  {
    forall k | k in g.executions ensures KeyOf(g.executions[k]) == k {
      assert ExecutionOk(policy, g, k);
    }
  }

  /** A new execution that the gate denied. */
  lemma DenialKeeps(policy: Policy, g: Gov, g1: Gov, k: Key, ex: Execution, ex': Execution)
    requires Governed(policy, g) && Created(g, g1, k, ex)
    requires ex' == ex.(status := ExecDenied, errorCode := ex'.errorCode)
    ensures Governed(policy, g1.(executions := g1.executions[k := ex']))
  {
    var g' := g1.(executions := g1.executions[k := ex']);
    NothingOf(policy, g, k);
    assert g'.executions == g.executions[k := ex'];
    assert Held(g, g', k, ex');
    hide Governed;
    HeldKeeps(policy, g, g', k, ex');
  }

  /** A new execution that waits for the new approval r. */
  lemma WaitKeeps(policy: Policy, g: Gov, g1: Gov, k: Key, ex: Execution, ex': Execution, a: Key, r: Approval)
    requires Governed(policy, g) && Created(g, g1, k, ex)
    requires ex' == ex.(status := ExecWaitingApproval, errorCode := ex'.errorCode)
    requires a !in g.approvals && a == (r.tenant, r.id) && Subject(r) == k && r.status.ApprovalPending?
    ensures Governed(policy, g1.(executions := g1.executions[k := ex'], approvals := g1.approvals[a := r]))
  {
    var g' := g1.(executions := g1.executions[k := ex'], approvals := g1.approvals[a := r]);
    NothingOf(policy, g, k);
    assert g'.executions == g.executions[k := ex'];
    assert NewRequest(g, g', a, k);
    assert Held(g, g', k, ex');
    hide Governed;
    HeldKeeps(policy, g, g', k, ex');
  }

  /** A new execution that ran, admitted by the gate's answer to `gate`. */
  lemma NewRunKeeps(policy: Policy, g: Gov, g1: Gov, g': Gov, k: Key, ex: Execution, gate: PolicyRequest, spec: Spec)
    requires Governed(policy, g) && Created(g, g1, k, ex)
    requires k in g'.executions && KeyOf(g'.executions[k]) == k && g'.executions[k].req == ex.req
    requires Concluded(g'.executions[k].status)
    requires g'.executions - {k} == g1.executions - {k} && g'.steps - {k} == g1.steps - {k}
    requires g'.byIdem == g1.byIdem && g'.approvals == g1.approvals && g'.cleared == g1.cleared
    requires g'.direct == g1.direct[k := Admission(gate, spec)] && Concerns(gate, spec, ex.req.mode) && Admits(policy(gate), gate.mode)
    ensures Governed(policy, g')
  {
    hide Governed, Untouched;
    NothingOf(policy, g, k);
    SameElsewhere(g1.executions, g'.executions, k);
    SameElsewhere(g1.steps, g'.steps, k);
    assert g'.executions == g.executions[k := g'.executions[k]];
    assert Runs(policy, g, g', k);
    RunKeeps(policy, g, g', k);
  }

  /** A waiting execution that ran after its approval a. */
  lemma ResumedRunKeeps(policy: Policy, g: Gov, g': Gov, k: Key, a: Key, gate: PolicyRequest, spec: Spec)
    requires Governed(policy, g) && k in g.executions && !InLoopOrBeyond(g, k)
    requires a in g.approvals && Subject(g.approvals[a]) == k && g.approvals[a].status.ApprovalApproved?
    requires k in g'.executions && KeyOf(g'.executions[k]) == k && g'.executions[k].req == g.executions[k].req
    requires Concluded(g'.executions[k].status)
    requires g'.executions - {k} == g.executions - {k} && g'.steps - {k} == g.steps - {k}
    requires g'.byIdem == g.byIdem && g'.approvals == g.approvals && g'.direct == g.direct
    requires g'.cleared == g.cleared[k := Admission(gate, spec)]
    requires Cleared(policy, g.executions[k].req.mode, Admission(gate, spec))
    ensures Governed(policy, g')
  {
    SameElsewhere(g.executions, g'.executions, k);
    SameElsewhere(g.steps, g'.steps, k);
    assert g'.executions == g.executions[k := g'.executions[k]];
    assert Runs(policy, g, g', k);
    hide Governed;
    RunKeeps(policy, g, g', k);
  }

  lemma SameElsewhere<V>(m: map<Key, V>, m': map<Key, V>, k: Key)
    requires m' - {k} == m - {k}
    ensures forall x | x != k :: (x in m' <==> x in m) && (x in m ==> m'[x] == m[x])
  {
    forall x | x != k ensures (x in m' <==> x in m) && (x in m ==> m'[x] == m[x]) {
      assert x in m <==> x in m - {k};
      assert x in m' <==> x in m' - {k};
      if x in m {
        assert (m - {k})[x] == m[x] && (m' - {k})[x] == m'[x];
      }
    }
  }

  lemma WaitingIsUntouched(policy: Policy, g: Gov, k: Key)
    requires Governed(policy, g) && k in g.executions && g.executions[k].status == ExecWaitingApproval
    ensures !InLoopOrBeyond(g, k) && Untouched(g, k) && KeyOf(g.executions[k]) == k
  {
    assert ExecutionOk(policy, g, k);
  }

  /** An approved execution that is denied after all when it is resumed. */
  lemma LateDenialKeeps(policy: Policy, g: Gov, k: Key, a: Key, ex: Execution)
    requires Governed(policy, g) && k in g.executions && !InLoopOrBeyond(g, k) && Untouched(g, k) && KeyOf(g.executions[k]) == k
    requires a in g.approvals && Subject(g.approvals[a]) == k && g.approvals[a].status.ApprovalApproved?
    requires ex == g.executions[k].(status := ExecDenied, errorCode := ex.errorCode)
    ensures Governed(policy, g.(executions := g.executions[k := ex]))
  {
    var g' := g.(executions := g.executions[k := ex]);
    forall b | b in g.approvals && Subject(g.approvals[b]) == k ensures ApprovalOk(g', b) {
      assert b == a && ApprovalOk(g, a);
    }
    assert Held(g, g', k, ex);
    hide Governed;
    HeldKeeps(policy, g, g', k, ex);
  }

  lemma PendingWaits(policy: Policy, g: Gov, a: Key)
    requires Governed(policy, g) && a in g.approvals && g.approvals[a].status.ApprovalPending?
    ensures var k := Subject(g.approvals[a]);
            && a == (g.approvals[a].tenant, g.approvals[a].id)
            && k in g.executions && g.executions[k].status == ExecWaitingApproval && KeyOf(g.executions[k]) == k
  {
    assert ApprovalOk(g, a);
    assert ExecutionOk(policy, g, Subject(g.approvals[a]));
  }

  /** A rejected execution is cancelled and never attempted a step. */
  lemma RejectedNeverRuns(policy: Policy, g: Gov, a: Key)
    requires Governed(policy, g) && a in g.approvals && g.approvals[a].status.ApprovalRejected?
    ensures var k := Subject(g.approvals[a]);
            && k in g.executions && g.executions[k].status == ExecCancelled
            && (k in g.steps ==> g.steps[k] == [])
  {
    assert ApprovalOk(g, a);
    assert ExecutionOk(policy, g, Subject(g.approvals[a]));
  }

  /** Under the default policy, a LIVE execution that attempted a step without an approved approval ran
      with a spec that, if it validates, uses only available tools of risk MEDIUM or lower, and MEDIUM
      only if that is allowed. */
  lemma UnapprovedRunsAreModest(policy: Policy, allowMedium: bool, g: Gov, k: Key, tools: map<string, ToolDef>, opts: Options, i: nat)
    requires Governed(policy, g) && forall q :: policy(q) == Decide(allowMedium, q)
    requires k in g.steps && g.steps[k] != []
    requires forall a | a in g.approvals && Subject(g.approvals[a]) == k :: !g.approvals[a].status.ApprovalApproved?
    ensures k in g.direct && k in g.executions
    ensures var spec := g.direct[k].spec;
            g.executions[k].req.mode.Live? && SpecOk(spec, tools, opts) && i < |spec.steps| && spec.steps[i].tool != "" ==>
              var tool := spec.steps[i].tool;
              && tool in tools && Rank(tools[tool].risk) <= Rank(Medium) && (Rank(tools[tool].risk) == Rank(Medium) ==> allowMedium)
              && tool in g.direct[k].gate.availableTools
  {
    hide SpecOk;
    assert ExecutionOk(policy, g, k);
    var a := g.direct[k];
    if g.executions[k].req.mode.Live? && SpecOk(a.spec, tools, opts) && i < |a.spec.steps| && a.spec.steps[i].tool != "" {
      ValidatedRiskCovers(a.spec, tools, opts);
      UnapprovedToolsAreModest(allowMedium, a.gate, a.spec, tools, i);
    }
  }

  /** The gate that let execution k into the step loop, and the spec it then ran with. */
  function AdmissionOf(g: Gov, k: Key): Admission
    requires InLoopOrBeyond(g, k)
  {
    if k in g.direct then g.direct[k] else g.cleared[k]
  }

  /** Under the default policy, an execution that attempted a step, in either mode and approved or not, ran
      with a spec that is declared neither CRITICAL nor unrecognised, on an enabled runtime, and with every
      tool of its steps available; in LIVE mode without approval only if it neither is HIGH nor asks for one
      below MEDIUM, and MEDIUM only if that is allowed. */
  lemma NothingCriticalRuns(policy: Policy, allowMedium: bool, g: Gov, k: Key)
    requires Governed(policy, g) && forall q :: policy(q) == Decide(allowMedium, q)
    requires k in g.steps && g.steps[k] != []
    ensures k in g.executions && InLoopOrBeyond(g, k)
    ensures var a := AdmissionOf(g, k);
            var risk := a.spec.risk;
            && !risk.Unrecognised? && risk != Level(Critical) && a.gate.runtimeEnabled
            && (forall i | 0 <= i < |a.spec.steps| && a.spec.steps[i].tool != "" :: a.spec.steps[i].tool in a.gate.availableTools)
            && (g.executions[k].req.mode.Live? ==>
                  && (risk == Level(Medium) ==> allowMedium)
                  && (k in g.direct ==> risk != Level(High) && (a.spec.requiresApproval ==> risk == Level(Medium)))
                  && (k in g.cleared && k !in g.direct ==>
                        exists b :: b in g.approvals && Subject(g.approvals[b]) == k && g.approvals[b].status.ApprovalApproved?))
  {
    assert ExecutionOk(policy, g, k);
    var a := AdmissionOf(g, k);
    DecisionIff(allowMedium, a.gate);
    hide Decide;
  }

  lemma ApprovalIsKeyed(policy: Policy, g: Gov, a: Key)
    requires Governed(policy, g) && a in g.approvals
    ensures a == (g.approvals[a].tenant, g.approvals[a].id)
  {
    assert ApprovalOk(g, a);
  }

  lemma OneApproval(policy: Policy, g: Gov, a: Key, b: Key)
    requires Governed(policy, g) && a in g.approvals && b in g.approvals && Subject(g.approvals[a]) == Subject(g.approvals[b])
    ensures a == b
  {
  }

  // ---------------------------------------------------------------- the four operations

  /** The PENDING approval a becomes r: approved, or rejected with its execution cancelled as ex. */
  predicate Decides(g: Gov, a: Key, r: Approval, ex: Execution) {
    && a in g.approvals && g.approvals[a].status.ApprovalPending?
    && r == g.approvals[a].(status := r.status, reason := r.reason, approvedBy := r.approvedBy)
    && Subject(r) in g.executions
    && var was := g.executions[Subject(r)];
       || (r.status.ApprovalApproved? && ex == was)
       || (r.status.ApprovalRejected? && ex == was.(status := ExecCancelled, errorCode := ex.errorCode))
  }

  lemma DecisionSparesExecution(policy: Policy, g: Gov, a: Key, r: Approval, ex: Execution, k: Key)
    requires Decides(g, a, r, ex) && ApprovalOk(g, a) && k in g.executions && ExecutionOk(policy, g, k)
    ensures ExecutionOk(policy, g.(approvals := g.approvals[a := r], executions := g.executions[Subject(r) := ex]), k)
  {
    if k in g.cleared {
      var b :| b in g.approvals && Subject(g.approvals[b]) == k && g.approvals[b].status.ApprovalApproved?;
      var approvals' := g.approvals[a := r];
      assert b in approvals' && Subject(approvals'[b]) == k;
    }
  }

  /** Approve and Reject. */
  lemma DecisionKeeps(policy: Policy, g: Gov, a: Key, r: Approval, ex: Execution)
    requires Governed(policy, g) && Decides(g, a, r, ex)
    ensures Governed(policy, g.(approvals := g.approvals[a := r], executions := g.executions[Subject(r) := ex]))
  {
    hide ExecutionOk;
    var g' := g.(approvals := g.approvals[a := r], executions := g.executions[Subject(r) := ex]);
    assert ApprovalOk(g, a);
    forall k | k in g'.executions ensures ExecutionOk(policy, g', k) {
      DecisionSparesExecution(policy, g, a, r, ex, k);
    }
    forall b | b in g'.approvals ensures ApprovalOk(g', b) {
      assert ApprovalOk(g, b);
    }
    forall i | i in g'.byIdem ensures IndexOk(g', i) {
      assert IndexOk(g, i);
    }
    forall b, c | b in g'.approvals && c in g'.approvals && Subject(g'.approvals[b]) == Subject(g'.approvals[c])
      ensures b == c
    {
      assert Subject(g.approvals[b]) == Subject(g.approvals[c]);
    }
  }

  /** Execution k, possibly new, is set to ex: over or waiting, without having entered the step loop. */
  ghost predicate Held(g: Gov, g': Gov, k: Key, ex: Execution) {
    && !InLoopOrBeyond(g, k) && KeyOf(ex) == k
    && g' == g.(executions := g.executions[k := ex], byIdem := g'.byIdem, approvals := g'.approvals)
    && (k in g.executions ==> ex.req == g.executions[k].req)
    && Untouched(g', k)
    && (forall i | i in g'.byIdem :: (i in g.byIdem && g'.byIdem[i] == g.byIdem[i]) || IndexOk(g', i))
    && (|| (g'.approvals == g.approvals &&
            forall a | a in g.approvals && Subject(g.approvals[a]) == k :: ApprovalOk(g', a))
        || (exists a :: NewRequest(g, g', a, k)))
  }

  lemma HeldSparesExecution(policy: Policy, g: Gov, g': Gov, k: Key, ex: Execution, x: Key)
    requires Held(g, g', k, ex) && x in g.executions && ExecutionOk(policy, g, x)
    ensures ExecutionOk(policy, g', x)
  {
    if x in g.cleared {
      var b :| b in g.approvals && Subject(g.approvals[b]) == x && g.approvals[b].status.ApprovalApproved?;
      assert b in g'.approvals && Subject(g'.approvals[b]) == x;
    }
  }

  /** A denied run, or one that waits for an approval. */
  lemma HeldKeeps(policy: Policy, g: Gov, g': Gov, k: Key, ex: Execution)
    requires Governed(policy, g) && Held(g, g', k, ex)
    ensures Governed(policy, g')
  {
    forall x | x in g'.executions ensures ExecutionOk(policy, g', x) {
      if x in g.executions {
        HeldSparesExecution(policy, g, g', k, ex, x);
      }
    }
    hide ExecutionOk;
    forall b | b in g'.approvals ensures ApprovalOk(g', b) {
      if b in g.approvals {
        assert ApprovalOk(g, b);
      }
    }
    forall i | i in g'.byIdem ensures IndexOk(g', i) {
      if i in g.byIdem {
        assert IndexOk(g, i);
      }
    }
  }

  /** The one approval request for k, which had none. */
  predicate NewRequest(g: Gov, g': Gov, a: Key, k: Key) {
    && a !in g.approvals
    && a in g'.approvals
    && g'.approvals == g.approvals[a := g'.approvals[a]]
    && Subject(g'.approvals[a]) == k && ApprovalOk(g', a)
    && k !in g.executions
  }

  /** Execution k ran to a conclusion in the step loop: on a decision, or after an approval. */
  ghost predicate Runs(policy: Policy, g: Gov, g': Gov, k: Key) {
    && !InLoopOrBeyond(g, k)
    && k in g'.executions && KeyOf(g'.executions[k]) == k && Concluded(g'.executions[k].status)
    && g'.executions == g.executions[k := g'.executions[k]]
    && g'.approvals == g.approvals
    && (forall x | x != k :: x in g'.steps <==> x in g.steps)
    && (forall x | x != k && x in g.steps :: g'.steps[x] == g.steps[x])
    && (k in g.executions ==> g'.executions[k].req == g.executions[k].req)
    && (forall i | i in g'.byIdem :: (i in g.byIdem && g'.byIdem[i] == g.byIdem[i]) || IndexOk(g', i))
    && (|| (k !in g.executions && k in g'.direct && g'.direct == g.direct[k := g'.direct[k]] && g'.cleared == g.cleared
            && Admitted(policy, g'.executions[k].req.mode, g'.direct[k]))
        || (g'.direct == g.direct && k in g'.cleared && g'.cleared == g.cleared[k := g'.cleared[k]]
            && Cleared(policy, g'.executions[k].req.mode, g'.cleared[k])
            && exists a :: a in g.approvals && Subject(g.approvals[a]) == k && g.approvals[a].status.ApprovalApproved?))
  }

  lemma RunSparesExecution(policy: Policy, g: Gov, g': Gov, k: Key, x: Key)
    requires Runs(policy, g, g', k) && x in g.executions && ExecutionOk(policy, g, x) && x != k
    ensures ExecutionOk(policy, g', x)
  {
  }

  lemma RunSparesApproval(policy: Policy, g: Gov, g': Gov, k: Key, b: Key)
    requires Governed(policy, g) && Runs(policy, g, g', k) && b in g.approvals
    ensures ApprovalOk(g', b)
  {
    assert ApprovalOk(g, b);
  }

  lemma RunIsOk(policy: Policy, g: Gov, g': Gov, k: Key)
    requires (forall x | InLoopOrBeyond(g, x) :: x in g.executions) && Runs(policy, g, g', k)
    ensures ExecutionOk(policy, g', k)
  {
  }

  /** A run that enters the step loop. */
  lemma RunKeeps(policy: Policy, g: Gov, g': Gov, k: Key)
    requires Governed(policy, g) && Runs(policy, g, g', k)
    ensures Governed(policy, g')
  {
    hide ExecutionOk, ApprovalOk, Admitted, Concluded;
    forall x | x in g'.executions ensures ExecutionOk(policy, g', x) {
      if x != k {
        RunSparesExecution(policy, g, g', k, x);
      } else {
        RunIsOk(policy, g, g', k);
      }
    }
    forall b | b in g'.approvals ensures ApprovalOk(g', b) {
      RunSparesApproval(policy, g, g', k, b);
    }
    forall i | i in g'.byIdem ensures IndexOk(g', i) {
      if i in g.byIdem {
        assert IndexOk(g, i);
      }
    }
  }
}
