/** Histories on which two plausible properties of the runtime fail. */
module ProtocolCounterexamples {
  import opened ExecutionLedger
  import opened RecoveryPlanner
  import opened RuntimeProtocol
  import opened SkillSpec
  import opened Templates
  import opened Wrappers

  const STEP: SkillStep := SkillStep("pay", "charge", map[], "", None, None, FailStep)

  const SPEC: Spec := Spec({}, {}, [], [STEP], Level(Low), false, 0, 0)

  /** One step, one tool with the given idempotency. */
  function OneStep(capability: Capability): Program {
    Program(SPEC, map["charge" := ToolDef(Low, true, capability, {}, map[], {})], Render((v: Value) => "", (v: Value) => ""), 30)
  }

  const REQUEST: Request := Request("acme", "ex", "skill", "v1", Live, "", map[], "ann")

  const FRESH: Execution := Execution(REQUEST, ExecPending, None, "", 0, Lease("", None), 1)

  function Go(w: nat): Action { Work(w, 0, NoReply) }

  /** The first attempt of the step, before it has an id. */
  const ATTEMPT: StepExecution :=
    StepExecution(0, "pay", "charge", map[], map[], StepPending, "", 1, 1, OperationKey("ex", "pay"), 1)

  function Running(until: int): Execution {
    FRESH.(status := ExecRunning, lease := Lease("rw", Some(until)))
  }

  const NO_HISTORY: History := History(map[], [], [], map[], [])

  lemma Enters(capability: Capability)
    ensures Next(OneStep(capability), Initial(FRESH, "rw"), Go(0)) ==
            Sys(Cell(Running(30), []), [Worker("rw", 1, Running(30), Load(0), map[], 0, 0)], 0, NO_HISTORY)
  {
  }

  lemma Loads(capability: Capability)
    ensures Next(OneStep(capability),
                 Sys(Cell(Running(30), []), [Worker("rw", 1, Running(30), Load(0), map[], 0, 0)], 0, NO_HISTORY), Go(0)) ==
            Sys(Cell(Running(30), []),
                [Worker("rw", 1, Running(30), CreateAttempt(ATTEMPT), InputBindings(map[]), 1, 1)], 0, NO_HISTORY)
  {
    var p := OneStep(capability);
    assert ResolveArgs(p.render, STEP.args, InputBindings(map[])) == Some(map[]);
  }

  /** The first worker crashed after creating its row, before marking it RUNNING. */
  const CRASHED: Sys :=
    Sys(Cell(Running(30), [ATTEMPT]),
        [Worker("rw", 1, Running(30), Start(ATTEMPT, false), InputBindings(map[]), 1, 1)], 1, NO_HISTORY)

  lemma Creates(capability: Capability)
    ensures Next(OneStep(capability),
                 Sys(Cell(Running(30), []),
                     [Worker("rw", 1, Running(30), CreateAttempt(ATTEMPT), InputBindings(map[]), 1, 1)], 0, NO_HISTORY),
                 Go(0)) == CRASHED
  {
  }

  // ---------------------------------------------------------------- two recoveries under one epoch

  /** Two claims by the same owner, one right after the other. */
  const CLAIM: Action := Claim("rw", "rw", 60, 0)

  function Claimed(epoch: nat): Execution {
    Running(60).(epoch := epoch)
  }

  function Recovery(epoch: nat): Worker {
    NewWorker("rw", Claimed(epoch), ReadExecution)
  }

  lemma ClaimsTwice(capability: Capability)
    ensures var p := OneStep(capability);
            Next(p, Next(p, CRASHED, CLAIM), CLAIM) ==
            CRASHED.(cell := Cell(Claimed(3), [ATTEMPT]), workers := CRASHED.workers + [Recovery(2), Recovery(3)])
  {
    assert CRASHED.workers + [Recovery(2)] + [Recovery(3)] == CRASHED.workers + [Recovery(2), Recovery(3)];
  }

  /** Worker w reads the execution and its ledger, and finds the PENDING row. */
  lemma FindsPending(capability: Capability, s: Sys, w: nat)
    requires w < |s.workers| && s.workers[w].pc.ReadExecution? && s.workers[w].owner == "rw"
    requires s.cell == Cell(Claimed(3), [ATTEMPT])
    ensures var p := OneStep(capability);
            Next(p, Next(p, s, Go(w)), Go(w)) ==
            s.(workers := s.workers[w := s.workers[w].(ex := Claimed(3), pc := Relabel(0, [ATTEMPT]))])
  {
  }

  lemma PlansPending(capability: Capability, s: Sys, w: nat)
    requires w < |s.workers| && s.workers[w].pc == Relabel(0, [ATTEMPT]) && s.workers[w].ex.cursor == 0
    ensures var p := OneStep(capability);
            Next(p, Next(p, s, Go(w)), Go(w)) ==
            s.(workers := s.workers[w := s.workers[w].(pc := PendCheckpoint(ATTEMPT))])
  {
    assert LatestAttempt([ATTEMPT], "pay") == Some(ATTEMPT);
  }

  lemma Resumes(capability: Capability, s: Sys, w: nat)
    requires w < |s.workers| && s.workers[w].pc == PendCheckpoint(ATTEMPT) && s.workers[w].owner == "rw"
    requires s.workers[w].ex == Claimed(3)
    requires s.cell.ex.epoch == 3 && s.cell.ex.status.ExecRunning?
    ensures Next(OneStep(capability), s, Go(w)) ==
            s.(cell := s.cell.(ex := Running(30).(epoch := 3)),
               workers := s.workers[w := s.workers[w].(ex := Running(30).(epoch := 3), pc := Start(ATTEMPT, true))])
  {
  }

  /** Its RUNNING mark is accepted, and it calls the tool. */
  lemma StartsAndCalls(capability: Capability, s: Sys, w: nat)
    requires w < |s.workers| && s.workers[w].pc == Start(ATTEMPT, true) && s.workers[w].ex.epoch == 3
    requires s.cell.ex.epoch == 3 && s.cell.ex.status.ExecRunning? && |s.cell.rows| == 1 && s.cell.rows[0].id == 0
    ensures var p := OneStep(capability);
            var s' := Next(p, Next(p, s, Go(w)), Go(w));
            && s'.h.calls == s.h.calls + [Call(0, "charge", map[], OperationKey("ex", "pay"))]
            && s'.cell.ex == s.cell.ex && |s'.cell.rows| == 1 && s'.cell.rows[0].id == 0
            && |s'.workers| == |s.workers| && s'.workers == s.workers[w := s'.workers[w]]
  {
    assert FindRow(s.cell.rows, 0) == 0;
  }

  ghost predicate Leads(p: Program, s: Sys, s': Sys) {
    exists history :: Exec(p, s, history) == s'
  }

  lemma LeadsOn(p: Program, s: Sys, s': Sys, a: Action)
    requires Leads(p, s, s')
    ensures Leads(p, s, Next(p, s', a))
  {
    var history :| Exec(p, s, history) == s';
    ExecAppend(p, s, history, a);
    assert Exec(p, s, history + [a]) == Next(p, s', a);
  }

  lemma LeadsTwice(p: Program, s: Sys, s': Sys, a: Action)
    requires Leads(p, s, s')
    ensures Leads(p, s, Next(p, Next(p, s', a), a))
  {
    LeadsOn(p, s, s', a);
    LeadsOn(p, s, Next(p, s', a), a);
  }

  lemma ReachesCrash(capability: Capability)
    ensures Leads(OneStep(capability), Initial(FRESH, "rw"), CRASHED)
  {
    var p := OneStep(capability);
    var s0 := Initial(FRESH, "rw");
    assert Exec(p, s0, []) == s0;
    LeadsOn(p, s0, s0, Go(0));
    Enters(capability);
    LeadsOn(p, s0, Next(p, s0, Go(0)), Go(0));
    Loads(capability);
    LeadsOn(p, s0, Next(p, Next(p, s0, Go(0)), Go(0)), Go(0));
    Creates(capability);
  }

  lemma BothFindPending(capability: Capability) returns (s: Sys)
    ensures Leads(OneStep(capability), Initial(FRESH, "rw"), s)
    ensures s.cell == Cell(Claimed(3), [ATTEMPT]) && |s.workers| == 3 && s.h == NO_HISTORY
    ensures forall w | 1 <= w <= 2 ::
      s.workers[w].pc == PendCheckpoint(ATTEMPT) && s.workers[w].owner == "rw" && s.workers[w].ex == Claimed(3)
  {
    var p := OneStep(capability);
    var s0 := Initial(FRESH, "rw");
    ReachesCrash(capability);
    LeadsTwice(p, s0, CRASHED, CLAIM);
    ClaimsTwice(capability);
    s := Next(p, Next(p, CRASHED, CLAIM), CLAIM);
    s := Finds(capability, s, 1);
    s := Finds(capability, s, 2);
  }

  lemma Finds(capability: Capability, s: Sys, w: nat) returns (s': Sys)
    requires Leads(OneStep(capability), Initial(FRESH, "rw"), s)
    requires w < |s.workers| && s.workers[w].pc.ReadExecution? && s.workers[w].owner == "rw"
    requires s.cell == Cell(Claimed(3), [ATTEMPT])
    ensures Leads(OneStep(capability), Initial(FRESH, "rw"), s')
    ensures s' == s.(workers := s.workers[w := s.workers[w].(ex := Claimed(3), pc := PendCheckpoint(ATTEMPT))])
  {
    var p := OneStep(capability);
    var s0 := Initial(FRESH, "rw");
    LeadsTwice(p, s0, s, Go(w));
    FindsPending(capability, s, w);
    s' := Next(p, Next(p, s, Go(w)), Go(w));
    LeadsTwice(p, s0, s', Go(w));
    PlansPending(capability, s', w);
    s' := Next(p, Next(p, s', Go(w)), Go(w));
  }

  /** When two recoveries claim in turn and only then read the execution, both read back the later
      epoch, both resume the PENDING row, and its tool is called twice under one operation key. */
  lemma SharedEpochCallsTwice(capability: Capability)
    ensures DistinctStepIds(OneStep(capability).spec) && FreshExecution(FRESH)
    ensures exists history ::
      var calls := Exec(OneStep(capability), Initial(FRESH, "rw"), history).h.calls;
      |calls| == 2 && calls[0] == calls[1]
  {
    var p := OneStep(capability);
    var s0 := Initial(FRESH, "rw");
    var s := BothFindPending(capability);
    LeadsOn(p, s0, s, Go(1));
    Resumes(capability, s, 1);
    var s1 := Next(p, s, Go(1));
    LeadsOn(p, s0, s1, Go(2));
    Resumes(capability, s1, 2);
    var s2 := Next(p, s1, Go(2));
    LeadsTwice(p, s0, s2, Go(1));
    StartsAndCalls(capability, s2, 1);
    var s3 := Next(p, Next(p, s2, Go(1)), Go(1));
    LeadsTwice(p, s0, s3, Go(2));
    StartsAndCalls(capability, s3, 2);
    var history :| Exec(p, s0, history) == Next(p, Next(p, s3, Go(2)), Go(2));
    var calls := Exec(p, s0, history).h.calls;
    assert |calls| == 2 && calls[0] == calls[1];
  }
}
