/** The lifecycle of skills and their versions: candidate, validated, shadow, active
    (internal/skill/memory.go, internal/skill/lifecycle.go, internal/skill/evolve.go). */
module SkillRegistry {
  import opened ExecutionPolicy
  import opened SkillSpec
  import opened SkillValidator
  import opened Wrappers

  type Key = (string, string)

  datatype Stage = Candidate | Validated | Shadow | Active | Suspended | Deprecated | Archived

  datatype Validation = Pending | Passed | Failed

  datatype Skill = Skill(tenant: string, id: string, name: string, stage: Stage, active: Option<string>)

  datatype Version = Version(
    tenant: string,
    id: string,
    skill: string,
    number: int,
    spec: Spec,
    stage: Stage,
    validation: Validation,
    shadowSuccesses: nat,
    shadowFailures: nat,
    successes: nat,
    failures: nat)

  function SkillKey(sk: Skill): Key { (sk.tenant, sk.id) }

  function VersionKey(v: Version): Key { (v.tenant, v.id) }

  function SkillOf(v: Version): Key { (v.tenant, v.skill) }

  function ShadowTotal(v: Version): nat { v.shadowSuccesses + v.shadowFailures }

  datatype Config = Config(shadowMin: int, shadowMinRate: real, suspendWindow: int, suspendMaxRate: real) {
    function WithDefaults(): (c: Config)
      ensures c.shadowMin > 0 && c.shadowMinRate > 0.0 && c.suspendWindow > 0 && c.suspendMaxRate > 0.0
    {
      Config(if shadowMin <= 0 then 5 else shadowMin,
             if shadowMinRate <= 0.0 then 0.9 else shadowMinRate,
             if suspendWindow <= 0 then 10 else suspendWindow,
             if suspendMaxRate <= 0.0 then 0.3 else suspendMaxRate)
    }
  }

  /** The static validator of a registry, if it has one. */
  datatype Checks = Checks(tools: map<string, ToolDef>, opts: Options)

  /** What a PASSED spec is known to meet. */
  predicate SpecPasses(checks: Option<Checks>, spec: Spec) {
    checks.Some? ==>
      && SpecOk(spec, checks.value.tools, checks.value.opts)
      && (Rank(spec.risk.risk) >= Rank(High) ==> spec.requiresApproval)
  }

  datatype Reg = Reg(skills: map<Key, Skill>, versions: map<Key, Version>)

  ghost predicate VersionSound(r: Reg, v: Version, min: int, checks: Option<Checks>) {
    && SkillOf(v) in r.skills
    && (v.stage.Active? ==> r.skills[SkillOf(v)].active == Some(v.id) && ShadowTotal(v) >= min)
    && (v.stage.Shadow? || v.stage.Active? ==> v.validation.Passed?)
    && (v.validation.Passed? ==> SpecPasses(checks, v.spec))
  }

  ghost predicate SkillSound(r: Reg, sk: Skill) {
    && (sk.active.Some? ==>
          (sk.tenant, sk.active.value) in r.versions && r.versions[(sk.tenant, sk.active.value)].skill == sk.id)
    && (sk.stage.Active? ==> sk.active.Some? && r.versions[(sk.tenant, sk.active.value)].stage.Active?)
  }

  /** An ACTIVE version is the active version of its skill, passed validation and was shadowed often
      enough; an ACTIVE skill has an ACTIVE version. */
  ghost predicate Sound(r: Reg, min: int, checks: Option<Checks>) {
    && (forall k | k in r.versions :: VersionKey(r.versions[k]) == k && VersionSound(r, r.versions[k], min, checks))
    && (forall k | k in r.skills :: SkillKey(r.skills[k]) == k && SkillSound(r, r.skills[k]))
  }

  lemma AtMostOneActive(r: Reg, min: int, checks: Option<Checks>, a: Key, b: Key)
    requires Sound(r, min, checks) && a in r.versions && b in r.versions
    requires r.versions[a].stage.Active? && r.versions[b].stage.Active? && SkillOf(r.versions[a]) == SkillOf(r.versions[b])
    ensures a == b
  {
    assert VersionSound(r, r.versions[a], min, checks) && VersionSound(r, r.versions[b], min, checks);
  }

  /** Every version that is shadowed or serving declares a risk that covers its tools, and asks for
      approval from HIGH on. */
  lemma ServedSpecsAreCovered(r: Reg, min: int, checks: Option<Checks>, k: Key)
    requires Sound(r, min, checks) && checks.Some? && k in r.versions
    requires r.versions[k].stage.Shadow? || r.versions[k].stage.Active?
    ensures RiskCovers(r.versions[k].spec, checks.value.tools) && DistinctStepIds(r.versions[k].spec)
    ensures Rank(r.versions[k].spec.risk.risk) >= Rank(High) ==> r.versions[k].spec.requiresApproval
  {
    hide SpecOk, RiskCovers, DistinctStepIds;
    assert VersionSound(r, r.versions[k], min, checks);
    ValidatedRiskCovers(r.versions[k].spec, checks.value.tools, checks.value.opts);
  }

  // ---------------------------------------------------------------- transitions

  function Added(r: Reg, sk: Skill, v: Version): Reg {
    Reg(r.skills[SkillKey(sk) := sk], r.versions[VersionKey(v) := v])
  }

  function WithVersion(r: Reg, v: Version): Reg { r.(versions := r.versions[VersionKey(v) := v]) }

  function Shadowed(r: Reg, sk: Key, v: Key): Reg
    requires sk in r.skills && v in r.versions
  {
    Reg(r.skills[sk := r.skills[sk].(stage := Shadow)], r.versions[v := r.versions[v].(stage := Shadow)])
  }

  /** The version takes over as the active one; the previous one is deprecated. */
  function ActivatedBy(r: Reg, sk: Key, v: Key, previous: Option<string>): Reg
    requires sk in r.skills && v in r.versions
  {
    var retired := if previous.Some? && previous.value != v.1 && (sk.0, previous.value) in r.versions
                   then r.versions[(sk.0, previous.value) := r.versions[(sk.0, previous.value)].(stage := Deprecated)]
                   else r.versions;
    Reg(r.skills[sk := r.skills[sk].(stage := Active, active := Some(v.1))], retired[v := r.versions[v].(stage := Active)])
  }

  function SuspendedBy(r: Reg, sk: Key, version: Option<string>): Reg
    requires sk in r.skills
  {
    Reg(r.skills[sk := r.skills[sk].(stage := Suspended)],
        if version.Some? && (sk.0, version.value) in r.versions
        then r.versions[(sk.0, version.value) := r.versions[(sk.0, version.value)].(stage := Suspended)]
        else r.versions)
  }

  /** A new version is neither shadowed nor active, whatever its skill. */
  lemma NewVersionKeeps(r: Reg, v: Version, min: int, checks: Option<Checks>)
    requires Sound(r, min, checks) && VersionKey(v) !in r.versions && SkillOf(v) in r.skills
    requires !v.stage.Shadow? && !v.stage.Active? && (v.validation.Passed? ==> SpecPasses(checks, v.spec))
    ensures Sound(WithVersion(r, v), min, checks)
  {
    hide SpecPasses;
    var r' := WithVersion(r, v);
    forall k | k in r'.skills ensures SkillSound(r', r'.skills[k]) {
      assert SkillSound(r, r.skills[k]);
    }
    forall k | k in r'.versions ensures VersionSound(r', r'.versions[k], min, checks) {
      assert k in r.versions ==> VersionSound(r, r.versions[k], min, checks);
    }
  }

  lemma NewSkillKeeps(r: Reg, sk: Skill, min: int, checks: Option<Checks>)
    requires Sound(r, min, checks) && SkillKey(sk) !in r.skills && !sk.stage.Active? && sk.active.None?
    ensures Sound(r.(skills := r.skills[SkillKey(sk) := sk]), min, checks)
  {
    hide SpecPasses;
    var r' := r.(skills := r.skills[SkillKey(sk) := sk]);
    forall k | k in r'.versions ensures VersionSound(r', r'.versions[k], min, checks) {
      assert VersionSound(r, r.versions[k], min, checks);
    }
    forall k | k in r'.skills ensures SkillSound(r', r'.skills[k]) {
      assert k in r.skills ==> SkillSound(r, r.skills[k]);
    }
  }

  lemma ShadowKeeps(r: Reg, v: Key, min: int, checks: Option<Checks>)
    requires Sound(r, min, checks) && v in r.versions && r.versions[v].validation.Passed?
    ensures SkillOf(r.versions[v]) in r.skills && Sound(Shadowed(r, SkillOf(r.versions[v]), v), min, checks)
  {
    hide SpecPasses;
    assert VersionSound(r, r.versions[v], min, checks);
    var r' := Shadowed(r, SkillOf(r.versions[v]), v);
    forall k | k in r'.versions ensures VersionSound(r', r'.versions[k], min, checks) {
      assert VersionSound(r, r.versions[k], min, checks);
    }
    forall k | k in r'.skills ensures SkillSound(r', r'.skills[k]) {
      assert SkillSound(r, r.skills[k]);
      OtherSkillsVersion(r, v, k, min, checks);
    }
  }

  /** The active version of another skill is another version. */
  lemma OtherSkillsVersion(r: Reg, v: Key, k: Key, min: int, checks: Option<Checks>)
    requires Sound(r, min, checks) && v in r.versions && k in r.skills
    ensures r.skills[k].active == Some(v.1) && k.0 == v.0 ==> SkillOf(r.versions[v]) == k
  {
    assert SkillSound(r, r.skills[k]) && VersionKey(r.versions[v]) == v && SkillKey(r.skills[k]) == k;
  }

  lemma ActivationKeeps(r: Reg, v: Key, min: int, checks: Option<Checks>)
    requires Sound(r, min, checks) && v in r.versions && r.versions[v].stage.Shadow? && ShadowTotal(r.versions[v]) >= min
    ensures var sk := SkillOf(r.versions[v]);
            sk in r.skills && Sound(ActivatedBy(r, sk, v, r.skills[sk].active), min, checks)
  {
    hide SpecPasses;
    assert VersionSound(r, r.versions[v], min, checks);
    var sk := SkillOf(r.versions[v]);
    var r' := ActivatedBy(r, sk, v, r.skills[sk].active);
    assert SkillSound(r, r.skills[sk]);
    forall k | k in r'.versions ensures VersionKey(r'.versions[k]) == k && VersionSound(r', r'.versions[k], min, checks) {
      assert VersionSound(r, r.versions[k], min, checks);
    }
    forall k | k in r'.skills ensures SkillSound(r', r'.skills[k]) {
      assert SkillSound(r, r.skills[k]);
      OtherSkillsVersion(r, v, k, min, checks);
      if r.skills[sk].active.Some? {
        OtherSkillsVersion(r, (sk.0, r.skills[sk].active.value), k, min, checks);
      }
    }
  }

  lemma SuspensionKeeps(r: Reg, sk: Key, min: int, checks: Option<Checks>)
    requires Sound(r, min, checks) && sk in r.skills
    ensures Sound(SuspendedBy(r, sk, r.skills[sk].active), min, checks)
  {
    hide SpecPasses;
    var r' := SuspendedBy(r, sk, r.skills[sk].active);
    assert SkillSound(r, r.skills[sk]);
    forall k | k in r'.versions ensures VersionSound(r', r'.versions[k], min, checks) {
      assert VersionSound(r, r.versions[k], min, checks);
    }
    forall k | k in r'.skills ensures SkillSound(r', r'.skills[k]) {
      assert SkillSound(r, r.skills[k]);
      if r.skills[sk].active.Some? {
        OtherSkillsVersion(r, (sk.0, r.skills[sk].active.value), k, min, checks);
      }
    }
  }

  /** Counting outcomes changes neither stage nor validation, and only raises the shadow total. */
  lemma CountingKeeps(r: Reg, v: Version, min: int, checks: Option<Checks>)
    requires Sound(r, min, checks) && VersionKey(v) in r.versions
    requires var was := r.versions[VersionKey(v)];
             && v == was.(shadowSuccesses := v.shadowSuccesses, shadowFailures := v.shadowFailures,
                          successes := v.successes, failures := v.failures)
             && ShadowTotal(v) >= ShadowTotal(was)
    ensures Sound(WithVersion(r, v), min, checks)
  {
    hide SpecPasses;
    var r' := WithVersion(r, v);
    forall k | k in r'.versions ensures VersionSound(r', r'.versions[k], min, checks) {
      assert VersionSound(r, r.versions[k], min, checks);
    }
    forall k | k in r'.skills ensures SkillSound(r', r'.skills[k]) {
      assert SkillSound(r, r.skills[k]);
    }
  }

  function Shadowing(v: Version, success: bool): (r: Version)
    ensures ShadowTotal(r) == ShadowTotal(v) + 1 && VersionKey(r) == VersionKey(v)
  {
    if success then v.(shadowSuccesses := v.shadowSuccesses + 1) else v.(shadowFailures := v.shadowFailures + 1)
  }

  function Lived(v: Version, success: bool): Version {
    if success then v.(successes := v.successes + 1) else v.(failures := v.failures + 1)
  }

  // ---------------------------------------------------------------- validation

  /** A report applied to a version. */
  function ApplyReport(v: Version, ok: bool, normalized: Spec, risk: Risk, approval: bool): Version {
    if ok then v.(spec := normalized.(risk := Level(risk), requiresApproval := approval), validation := Passed, stage := Validated)
    else v.(spec := normalized, validation := Failed)
  }

  /** The version has this spec, but for the approval flag of one that passed: with a validator it is raised
      from HIGH on and otherwise kept; without one it is dropped. */
  predicate AsCompiled(spec: Spec, v: Version, validated: bool) {
    && v.spec == spec.(requiresApproval := v.spec.requiresApproval)
    && (v.spec.requiresApproval <==>
          if !v.validation.Passed? then spec.requiresApproval
          else validated && (spec.requiresApproval || spec.risk == Level(High) || spec.risk == Level(Critical)))
  }

  /** The checks do not look at the approval flag. */
  lemma SpecOkIgnoresApproval(spec: Spec, approval: bool, tools: map<string, ToolDef>, opts: Options)
    requires SpecOk(spec, tools, opts)
    ensures SpecOk(spec.(requiresApproval := approval), tools, opts)
  {
    hide RefAvailable, Mentions, ToolOk;
    var spec' := spec.(requiresApproval := approval);
    forall i | 0 <= i < |spec.steps| ensures RefsOk(spec', tools, i) {
      assert RefsOk(spec, tools, i);
      SameAvailable(spec, spec', tools, i);
    }
    forall i | 0 <= i < |spec.steps| ensures NamesOk(spec', i) {
      assert NamesOk(spec, i);
    }
  }

  lemma {:induction false} SameAvailable(a: Spec, b: Spec, tools: map<string, ToolDef>, i: nat)
    requires a.steps == b.steps && a.inputs == b.inputs && i <= |a.steps|
    ensures AvailableBefore(a, tools, i) == AvailableBefore(b, tools, i)
  {
    if i > 0 {
      SameAvailable(a, b, tools, i - 1);
    }
  }

  /** Normalising twice is normalising once. */
  lemma NormalizeIsIdempotent(spec: Spec)
    requires Normalize(spec).Some?
    ensures Normalize(Normalize(spec).value) == Normalize(spec)
  {
  }

  // ---------------------------------------------------------------- the store

  class MemorySkillRepository {
    var skills: map<Key, Skill>
    var byName: map<Key, string>
    var versions: map<Key, Version>
    var byNumber: map<(string, string, int), string>

    constructor ()
      ensures Indexed() && skills == map[] && versions == map[]
    {
      skills, byName, versions, byNumber := map[], map[], map[], map[];
    }

    ghost function State(): Reg
      reads this
    {
      Reg(skills, versions)
    }

    /** Names are unique per tenant, version numbers per skill. */
    ghost predicate Indexed()
      reads this
    {
      && (forall k | k in skills :: SkillKey(skills[k]) == k && (k.0, skills[k].name) in byName && byName[(k.0, skills[k].name)] == k.1)
      && (forall k | k in versions ::
            var v := versions[k];
            VersionKey(v) == k && (v.tenant, v.skill, v.number) in byNumber && byNumber[(v.tenant, v.skill, v.number)] == v.id)
    }

    /** A new skill with its first version, or None if the name is taken or blank. */
    method SaveCompiled(sk: Skill, ver: Version) returns (r: Option<(Skill, Version)>)
      requires Indexed() && SkillKey(sk) !in skills && (sk.tenant, ver.id) !in versions
      requires forall k | k in versions :: versions[k].skill != sk.id || k.0 != sk.tenant
      modifies this
      ensures Indexed()
      ensures r.Some? <==> sk.tenant != "" && sk.name != "" && (sk.tenant, sk.name) !in old(byName)
      ensures r.None? ==> State() == old(State())
      ensures r.Some? ==>
                && r.value.0 == sk
                && r.value.1 == ver.(tenant := sk.tenant, skill := sk.id, number := if ver.number <= 0 then 1 else ver.number)
                && State() == Added(old(State()), sk, r.value.1)
    {
      if sk.tenant == "" || sk.name == "" || (sk.tenant, sk.name) in byName {
        return None;
      }
      var v := ver.(tenant := sk.tenant, skill := sk.id, number := if ver.number <= 0 then 1 else ver.number);
      skills := skills[SkillKey(sk) := sk];
      byName := byName[(sk.tenant, sk.name) := sk.id];
      versions := versions[VersionKey(v) := v];
      byNumber := byNumber[(v.tenant, v.skill, v.number) := v.id];
      r := Some((sk, v));
    }

    method CreateVersion(ver: Version) returns (ok: bool)
      requires Indexed() && VersionKey(ver) !in versions
      modifies this`versions, this`byNumber
      ensures Indexed()
      ensures ok <==> SkillOf(ver) in skills && (ver.tenant, ver.skill, ver.number) !in old(byNumber)
      ensures State() == if ok then WithVersion(old(State()), ver) else old(State())
    {
      if SkillOf(ver) !in skills || (ver.tenant, ver.skill, ver.number) in byNumber {
        return false;
      }
      versions := versions[VersionKey(ver) := ver];
      byNumber := byNumber[(ver.tenant, ver.skill, ver.number) := ver.id];
      ok := true;
    }

    method GetVersion(k: Key) returns (r: Option<Version>)
      ensures r == if k in versions then Some(versions[k]) else None
    {
      r := if k in versions then Some(versions[k]) else None;
    }

    method GetSkill(k: Key) returns (r: Option<Skill>)
      ensures r == if k in skills then Some(skills[k]) else None
    {
      r := if k in skills then Some(skills[k]) else None;
    }

    /** The highest number in use for a skill, or 0. */
    method NextNumber(tenant: string, skill: string) returns (next: int)
      requires Indexed()
      ensures next >= 1 && forall k | k in versions && SkillOf(versions[k]) == (tenant, skill) :: versions[k].number < next
    {
      next := 1;
      var keys := versions.Keys;
      while keys != {}
        invariant next >= 1 && keys <= versions.Keys
        invariant forall k | k in versions && k !in keys && SkillOf(versions[k]) == (tenant, skill) :: versions[k].number < next
      {
        var k :| k in keys;
        keys := keys - {k};
        if SkillOf(versions[k]) == (tenant, skill) && versions[k].number >= next {
          next := versions[k].number + 1;
        }
      }
    }

    method UpdateVersion(ver: Version) returns (ok: bool)
      requires Indexed()
      requires VersionKey(ver) in versions ==>
                 ver.skill == versions[VersionKey(ver)].skill && ver.number == versions[VersionKey(ver)].number
      modifies this`versions
      ensures Indexed() && (ok <==> VersionKey(ver) in old(versions))
      ensures State() == if ok then WithVersion(old(State()), ver) else old(State())
    {
      if VersionKey(ver) !in versions {
        return false;
      }
      versions := versions[VersionKey(ver) := ver];
      ok := true;
    }

    method TransitionToShadow(tenant: string, skill: string, version: string) returns (ok: bool)
      requires Indexed()
      modifies this`skills, this`versions
      ensures Indexed()
      ensures ok <==> (tenant, skill) in old(skills) && (tenant, version) in old(versions)
                      && old(versions)[(tenant, version)].skill == skill
      ensures ok ==> State() == Shadowed(old(State()), (tenant, skill), (tenant, version))
      ensures !ok ==> State() == old(State())
    {
      if (tenant, skill) !in skills || (tenant, version) !in versions || versions[(tenant, version)].skill != skill {
        return false;
      }
      versions := versions[(tenant, version) := versions[(tenant, version)].(stage := Shadow)];
      skills := skills[(tenant, skill) := skills[(tenant, skill)].(stage := Shadow)];
      ok := true;
    }

    method ActivateVersion(tenant: string, skill: string, version: string, previous: Option<string>) returns (ok: bool)
      requires Indexed()
      modifies this`skills, this`versions
      ensures Indexed()
      ensures ok <==> (tenant, skill) in old(skills) && (tenant, version) in old(versions)
                      && old(versions)[(tenant, version)].skill == skill
      ensures ok ==> State() == ActivatedBy(old(State()), (tenant, skill), (tenant, version), previous)
      ensures !ok ==> State() == old(State())
    {
      if (tenant, skill) !in skills || (tenant, version) !in versions || versions[(tenant, version)].skill != skill {
        return false;
      }
      var ver := versions[(tenant, version)];
      if previous.Some? && previous.value != version && (tenant, previous.value) in versions {
        versions := versions[(tenant, previous.value) := versions[(tenant, previous.value)].(stage := Deprecated)];
      }
      versions := versions[(tenant, version) := ver.(stage := Active)];
      skills := skills[(tenant, skill) := skills[(tenant, skill)].(stage := Active, active := Some(version))];
      ok := true;
    }

    method SuspendActive(tenant: string, skill: string, version: Option<string>) returns (ok: bool)
      requires Indexed()
      modifies this`skills, this`versions
      ensures Indexed() && (ok <==> (tenant, skill) in old(skills))
      ensures State() == if ok then SuspendedBy(old(State()), (tenant, skill), version) else old(State())
    {
      if (tenant, skill) !in skills {
        return false;
      }
      if version.Some? && (tenant, version.value) in versions {
        versions := versions[(tenant, version.value) := versions[(tenant, version.value)].(stage := Suspended)];
      }
      skills := skills[(tenant, skill) := skills[(tenant, skill)].(stage := Suspended)];
      ok := true;
    }

    method IncrementShadowOutcome(k: Key, success: bool) returns (ok: bool)
      requires Indexed()
      modifies this`versions
      ensures Indexed() && (ok <==> k in old(versions))
      ensures ok ==> State() == WithVersion(old(State()), Shadowing(old(versions)[k], success))
      ensures !ok ==> State() == old(State())
    {
      if k !in versions {
        return false;
      }
      var ver := versions[k];
      versions := versions[k := if success then ver.(shadowSuccesses := ver.shadowSuccesses + 1)
                                else ver.(shadowFailures := ver.shadowFailures + 1)];
      ok := true;
    }

    /** What is served: the active versions of the ACTIVE skills. It never looks at a version's own
        stage; soundness makes every one it lists ACTIVE. */
    method ListActiveVersions(tenant: string, ghost min: int, ghost checks: Option<Checks>) returns (out: seq<Version>)
      requires Sound(State(), min, checks)
      ensures forall i | 0 <= i < |out| ::
                && VersionKey(out[i]) in versions && versions[VersionKey(out[i])] == out[i] && out[i].tenant == tenant
                && out[i].stage.Active? && out[i].validation.Passed? && ShadowTotal(out[i]) >= min
      ensures forall k | k in skills && k.0 == tenant && skills[k].stage.Active? ::
                skills[k].active.Some? && (tenant, skills[k].active.value) in versions
                && versions[(tenant, skills[k].active.value)] in out
      ensures forall i, j | 0 <= i < j < |out| :: SkillOf(out[i]) != SkillOf(out[j])
    {
      hide SpecPasses;
      out := [];
      var keys := skills.Keys;
      while keys != {}
        invariant keys <= skills.Keys
        invariant forall i | 0 <= i < |out| :: Listed(out[i], tenant, min) && SkillOf(out[i]) in skills && SkillOf(out[i]) !in keys
        invariant forall k | k in skills && k !in keys && k.0 == tenant && skills[k].stage.Active? ::
                    skills[k].active.Some? && (tenant, skills[k].active.value) in versions
                    && versions[(tenant, skills[k].active.value)] in out
        invariant forall i, j | 0 <= i < j < |out| :: SkillOf(out[i]) != SkillOf(out[j])
      {
        var k :| k in keys;
        keys := keys - {k};
        var sk := skills[k];
        assert SkillSound(State(), sk) && SkillKey(sk) == k;
        if sk.tenant != tenant || sk.stage != Active || sk.active.None? {
          continue;
        }
        var v := (tenant, sk.active.value);
        if v in versions {
          assert VersionSound(State(), versions[v], min, checks) && VersionKey(versions[v]) == v;
          assert SkillOf(versions[v]) == k;
          out := out + [versions[v]];
        }
      }
    }

    ghost predicate Listed(v: Version, tenant: string, min: int)
      reads this
    {
      && VersionKey(v) in versions && versions[VersionKey(v)] == v && v.tenant == tenant
      && v.stage.Active? && v.validation.Passed? && ShadowTotal(v) >= min
    }
  }

  // ---------------------------------------------------------------- the service

  class RegistryService {
    const repo: MemorySkillRepository
    const checks: Option<Checks>
    const config: Config
    var minted: nat

    constructor (repo: MemorySkillRepository, checks: Option<Checks>, config: Config)
      requires repo.Indexed() && repo.skills == map[] && repo.versions == map[]
      ensures this.repo == repo && Valid()
    {
      this.repo, this.checks, this.config, minted := repo, checks, config, 0;
    }

    ghost predicate Valid()
      reads this, repo
    {
      && repo.Indexed() && Sound(repo.State(), config.WithDefaults().shadowMin, checks)
      && (forall k | k in repo.skills :: |k.1| < minted) && (forall k | k in repo.versions :: |k.1| < minted)
    }

    method NewId() returns (id: string)
      modifies this`minted
      ensures |id| == old(minted) && minted == old(minted) + 1
    {
      id := seq(minted, i => 'i');
      minted := minted + 1;
    }

    /** Validates a version; without a validator everything passes as declared. */
    method Check(v: Version) returns (checked: Version)
      requires Normalize(v.spec) == Some(v.spec)
      ensures checked == v.(spec := checked.spec, stage := checked.stage, validation := checked.validation)
      ensures checked.validation.Passed? <==> checks.None? || SpecOk(v.spec, checks.value.tools, checks.value.opts)
      ensures checked.stage == if checked.validation.Passed? then Validated else v.stage
      ensures AsCompiled(v.spec, checked, checks.Some?)
      ensures checked.validation.Passed? ==> SpecPasses(checks, checked.spec)
    {
      hide SpecOk;
      if checks.None? {
        return ApplyReport(v, true, v.spec, v.spec.risk.risk, false);
      }
      var rep := Validate(v.spec, checks.value.tools, checks.value.opts);
      if rep.ok {
        SpecOkIgnoresApproval(rep.normalized, rep.requiresApproval, checks.value.tools, checks.value.opts);
      }
      return ApplyReport(v, rep.ok, rep.normalized, rep.computedRisk, rep.requiresApproval);
    }

    /** Compiles a parsed document into a new skill with its first version. */
    method CompileAndCreate(tenant: string, name: string, doc: Option<Spec>) returns (r: Option<(Skill, Version)>)
      requires Valid()
      modifies this`minted, repo
      ensures Valid()
      ensures r.Some? <==> tenant != "" && name != "" && doc.Some? && Normalize(doc.value).Some?
                           && (tenant, name) !in old(repo.byName)
      ensures r.Some? ==>
                && r.value.1.number == 1 && SkillOf(r.value.1) == SkillKey(r.value.0)
                && repo.State() == Added(old(repo.State()), r.value.0, r.value.1)
                && (if r.value.1.validation.Passed? then r.value.0.stage.Validated? && r.value.1.stage.Validated?
                    else r.value.0.stage.Candidate? && r.value.1.stage.Candidate?)
      ensures r.Some? ==>
                && AsCompiled(Normalize(doc.value).value, r.value.1, checks.Some?)
                && (r.value.1.validation.Passed? <==>
                      checks.None? || SpecOk(Normalize(doc.value).value, checks.value.tools, checks.value.opts))
      ensures r.None? ==> repo.State() == old(repo.State())
    {
      hide VersionSound, SkillSound, SpecPasses, SpecOk;
      if tenant == "" || name == "" || doc.None? {
        return None;
      }
      var spec := Normalize(doc.value);
      if spec.None? {
        return None;
      }
      NormalizeIsIdempotent(doc.value);
      var skillId := NewId();
      var versionId := NewId();
      var draft := Version(tenant, versionId, skillId, 1, spec.value, Candidate, Pending, 0, 0, 0, 0);
      var ver := Check(draft);
      var sk := Skill(tenant, skillId, name, if ver.validation.Passed? then Validated else Candidate, None);
      ghost var before := repo.State();
      NoVersionsOf(SkillKey(sk));
      r := repo.SaveCompiled(sk, ver);
      if r.Some? {
        NewSkillKeeps(before, sk, config.WithDefaults().shadowMin, checks);
        NewVersionKeeps(before.(skills := before.skills[SkillKey(sk) := sk]), r.value.1, config.WithDefaults().shadowMin, checks);
      }
    }

    lemma NoVersionsOf(sk: Key)
      requires Sound(repo.State(), config.WithDefaults().shadowMin, checks) && sk !in repo.skills
      ensures forall k | k in repo.versions :: SkillOf(repo.versions[k]) != sk && k.0 == repo.versions[k].tenant
    {
      forall k | k in repo.versions ensures SkillOf(repo.versions[k]) != sk && k.0 == repo.versions[k].tenant {
        assert VersionSound(repo.State(), repo.versions[k], config.WithDefaults().shadowMin, checks);
      }
    }

    /** The next version of a skill, as a candidate; no earlier version changes. */
    method ProposeRevision(tenant: string, skill: string, doc: Option<Spec>) returns (r: Option<Version>)
      requires Valid()
      modifies this`minted, repo
      ensures Valid()
      ensures r.None? ==> repo.State() == old(repo.State())
      ensures r.Some? ==>
                && repo.State() == WithVersion(old(repo.State()), r.value) && VersionKey(r.value) !in old(repo.versions)
                && r.value.stage.Candidate? && r.value.validation.Pending?
                && forall k | k in old(repo.versions) && SkillOf(old(repo.versions)[k]) == (tenant, skill) ::
                     old(repo.versions)[k].number < r.value.number
    {
      hide VersionSound, SkillSound, SpecPasses;
      if tenant == "" || skill == "" || (tenant, skill) !in repo.skills || doc.None? || Normalize(doc.value).None? {
        return None;
      }
      var number := repo.NextNumber(tenant, skill);
      var id := NewId();
      var ver := Version(tenant, id, skill, number, Normalize(doc.value).value, Candidate, Pending, 0, 0, 0, 0);
      ghost var before := repo.State();
      var ok := repo.CreateVersion(ver);
      if ok {
        NewVersionKeeps(before, ver, config.WithDefaults().shadowMin, checks);
        r := Some(ver);
      } else {
        r := None;
      }
    }

    method MoveToShadow(tenant: string, version: string) returns (ok: bool)
      requires Valid()
      modifies repo
      ensures Valid()
      ensures ok <==> (tenant, version) in old(repo.versions) && old(repo.versions)[(tenant, version)].validation.Passed?
      ensures ok ==> SkillOf(old(repo.versions)[(tenant, version)]) in old(repo.skills)
      ensures ok ==> repo.State() == Shadowed(old(repo.State()), SkillOf(old(repo.versions)[(tenant, version)]), (tenant, version))
      ensures !ok ==> repo.State() == old(repo.State())
    {
      hide VersionSound, SkillSound, SpecPasses;
      var ver := repo.GetVersion((tenant, version));
      if ver.None? || !ver.value.validation.Passed? {
        return false;
      }
      ShadowKeeps(repo.State(), (tenant, version), config.WithDefaults().shadowMin, checks);
      ok := repo.TransitionToShadow(tenant, ver.value.skill, ver.value.id);
    }

    /** The gates a SHADOW version must meet. */
    predicate PassesGates(v: Version) {
      var cfg := config.WithDefaults();
      && v.stage.Shadow? && ShadowTotal(v) >= cfg.shadowMin
      && v.shadowSuccesses as real >= cfg.shadowMinRate * ShadowTotal(v) as real
    }

    lemma RateMeets(successes: nat, total: nat, rate: real)
      requires total > 0
      ensures successes as real / total as real >= rate <==> successes as real >= rate * total as real
    {
      var q := successes as real / total as real;
      assert q * total as real == successes as real;
      if q >= rate {
        assert (q - rate) * total as real >= 0.0;
      } else {
        assert (rate - q) * total as real > 0.0;
      }
    }

    method CheckGates(v: Version) returns (ok: bool)
      ensures ok <==> PassesGates(v)
      ensures ok ==> v.stage.Shadow? && ShadowTotal(v) >= config.WithDefaults().shadowMin
    {
      var cfg := config.WithDefaults();
      if v.stage != Shadow {
        return false;
      }
      var total := ShadowTotal(v);
      if total < cfg.shadowMin {
        return false;
      }
      RateMeets(v.shadowSuccesses, total, cfg.shadowMinRate);
      var rate := v.shadowSuccesses as real / total as real;
      return rate >= cfg.shadowMinRate;
    }

    method Activate(tenant: string, version: string) returns (ok: bool)
      requires Valid()
      modifies repo
      ensures Valid()
      ensures ok <==> (tenant, version) in old(repo.versions) && PassesGates(old(repo.versions)[(tenant, version)])
      ensures ok ==> SkillOf(old(repo.versions)[(tenant, version)]) in old(repo.skills)
      ensures ok ==>
                var sk := SkillOf(old(repo.versions)[(tenant, version)]);
                repo.State() == ActivatedBy(old(repo.State()), sk, (tenant, version), old(repo.skills)[sk].active)
      ensures !ok ==> repo.State() == old(repo.State())
    {
      hide VersionSound, SkillSound, SpecPasses, PassesGates;
      var ver := repo.GetVersion((tenant, version));
      if ver.None? {
        return false;
      }
      var passes := CheckGates(ver.value);
      if !passes {
        return false;
      }
      ActivationKeeps(repo.State(), (tenant, version), config.WithDefaults().shadowMin, checks);
      var sk := repo.GetSkill((tenant, ver.value.skill));
      if sk.None? {
        assert false;
      }
      ok := repo.ActivateVersion(tenant, ver.value.skill, ver.value.id, sk.value.active);
    }

    method Suspend(tenant: string, skill: string) returns (ok: bool)
      requires Valid()
      modifies repo
      ensures Valid() && (ok <==> (tenant, skill) in old(repo.skills))
      ensures repo.State() == if ok then SuspendedBy(old(repo.State()), (tenant, skill), old(repo.skills)[(tenant, skill)].active)
                              else old(repo.State())
    {
      hide VersionSound, SkillSound, SpecPasses;
      var sk := repo.GetSkill((tenant, skill));
      if sk.None? {
        return false;
      }
      SuspensionKeeps(repo.State(), (tenant, skill), config.WithDefaults().shadowMin, checks);
      ok := repo.SuspendActive(tenant, skill, sk.value.active);
    }

    method RecordShadowOutcome(tenant: string, version: string, success: bool) returns (ok: bool)
      requires Valid()
      modifies repo
      ensures Valid() && (ok <==> (tenant, version) in old(repo.versions))
      ensures repo.State() == if ok then WithVersion(old(repo.State()), Shadowing(old(repo.versions)[(tenant, version)], success))
                              else old(repo.State())
    {
      hide VersionSound, SkillSound, SpecPasses;
      var k := (tenant, version);
      if k in repo.versions {
        CountingKeeps(repo.State(), Shadowing(repo.versions[k], success), config.WithDefaults().shadowMin, checks);
      }
      ok := repo.IncrementShadowOutcome(k, success);
    }

    /** A learning event counts a live outcome of a version. */
    method RecordLiveOutcome(tenant: string, version: string, success: bool) returns (ok: bool)
      requires Valid()
      modifies repo
      ensures Valid() && (ok <==> (tenant, version) in old(repo.versions))
      ensures repo.State() == if ok then WithVersion(old(repo.State()), Lived(old(repo.versions)[(tenant, version)], success))
                              else old(repo.State())
    {
      hide VersionSound, SkillSound, SpecPasses;
      var ver := repo.GetVersion((tenant, version));
      if ver.None? {
        return false;
      }
      CountingKeeps(repo.State(), Lived(ver.value, success), config.WithDefaults().shadowMin, checks);
      ok := repo.UpdateVersion(Lived(ver.value, success));
    }

    predicate FailsTooOften(v: Version) {
      var cfg := config.WithDefaults();
      && v.successes + v.failures >= cfg.suspendWindow
      && v.failures as real > cfg.suspendMaxRate * (v.successes + v.failures) as real
    }

    method CheckLiveStats(v: Version) returns (failing: bool)
      ensures failing <==> FailsTooOften(v)
    {
      var cfg := config.WithDefaults();
      var total := v.successes + v.failures;
      if total < cfg.suspendWindow {
        return false;
      }
      RateExceeds(v.failures, total, cfg.suspendMaxRate);
      var rate := v.failures as real / total as real;
      return rate > cfg.suspendMaxRate;
    }

    lemma SuspensionHits(r: Reg, k: Key)
      requires k in r.versions && VersionKey(r.versions[k]) == k && SkillOf(r.versions[k]) in r.skills
      ensures var sk := SkillOf(r.versions[k]);
              var r' := SuspendedBy(r, sk, r.skills[sk].active);
              k in r'.versions && (r'.versions[k].stage.Suspended? <==> r.skills[sk].active == Some(k.1) || r.versions[k].stage.Suspended?)
    {
    }

    /** Suspends the skill of a version that fails too often live. What is suspended with it is the
        skill's active version, so the failing one only if it is that one. */
    method MaybeSuspendFromLiveStats(tenant: string, version: string) returns (suspended: bool)
      requires Valid()
      modifies repo
      ensures Valid()
      ensures suspended <==> (tenant, version) in old(repo.versions) && FailsTooOften(old(repo.versions)[(tenant, version)])
      ensures !suspended ==> repo.State() == old(repo.State())
      ensures suspended ==> SkillOf(old(repo.versions)[(tenant, version)]) in old(repo.skills)
      ensures suspended ==>
                var sk := SkillOf(old(repo.versions)[(tenant, version)]);
                && repo.State() == SuspendedBy(old(repo.State()), sk, old(repo.skills)[sk].active)
                && (repo.versions[(tenant, version)].stage.Suspended? <==>
                      old(repo.skills)[sk].active == Some(version) || old(repo.versions)[(tenant, version)].stage.Suspended?)
    {
      hide VersionSound, SkillSound, SpecPasses, FailsTooOften, SuspendedBy;
      var ver := repo.GetVersion((tenant, version));
      if ver.None? {
        return false;
      }
      var failing := CheckLiveStats(ver.value);
      if !failing {
        return false;
      }
      SkillExists((tenant, version));
      SuspensionHits(repo.State(), (tenant, version));
      suspended := Suspend(tenant, ver.value.skill);
    }

    lemma RateExceeds(failures: nat, total: nat, rate: real)
      requires total > 0
      ensures failures as real / total as real <= rate <==> failures as real <= rate * total as real
    {
      RateMeets(failures, total, rate);
      var q := failures as real / total as real;
      assert q * total as real == failures as real;
      if q == rate {
      } else if q > rate {
        assert (q - rate) * total as real > 0.0;
      } else {
        assert (rate - q) * total as real >= 0.0;
      }
    }

    lemma SkillExists(k: Key)
      requires Sound(repo.State(), config.WithDefaults().shadowMin, checks) && k in repo.versions
      ensures VersionKey(repo.versions[k]) == k && SkillOf(repo.versions[k]) in repo.skills
    {
      assert VersionSound(repo.State(), repo.versions[k], config.WithDefaults().shadowMin, checks);
    }

    /** Shadows the winner of a comparison if need be, then activates it if the gates allow. */
    method PromoteWinner(tenant: string, version: string) returns (ok: bool)
      requires Valid()
      modifies repo
      ensures Valid()
      ensures ok ==> (tenant, version) in repo.versions && repo.versions[(tenant, version)].stage.Active?
      ensures ok ==> old((tenant, version) in repo.versions && repo.versions[(tenant, version)].validation.Passed?)
    {
      hide SpecPasses;
      var ver := repo.GetVersion((tenant, version));
      if ver.None? {
        return false;
      }
      assert VersionSound(repo.State(), ver.value, config.WithDefaults().shadowMin, checks);
      if ver.value.stage.Active? {
        return true;
      }
      if ver.value.stage != Shadow {
        if !ver.value.validation.Passed? {
          return false;
        }
        var moved := MoveToShadow(tenant, version);
        if !moved {
          return false;
        }
      }
      ok := Activate(tenant, version);
    }
  }
}
