/** A run that ends FAILED although the uninterrupted run of the same skill succeeds. */
module ResumedFailure {
  import opened CrashTransparency
  import opened ExecutionLedger
  import opened LateCalls
  import opened ProtocolCounterexamples
  import opened ProtocolPreservation
  import opened ProtocolTheorems
  import opened ProtocolInvariant
  import opened RecoveryPlanner
  import opened RuntimeProtocol
  import opened SkillSpec
  import opened SoloRuns
  import opened Templates
  import opened Wrappers

  /** The one step may fail without failing the skill. */
  function Optional(): Program {
    OneStep(NoIdempotency).(spec := SPEC.(steps := [STEP.(onError := ContinueStep)]))
  }

  /** Its tool always fails. */
  function Down(): Tools { (tool, input, opKey) => ToolFailed("down", map[]) }

  const DOWN: Reply := ToolReply(ToolFailed("down", map[]))

  function Entering(pc: Pc): Sys {
    Sys(Cell(Running(30), []), [Worker("rw", 1, Running(30), pc, map[], 0, 0)], 0, NO_HISTORY)
  }

  function Creating(): Sys {
    Entering(Load(0)).(workers := [Worker("rw", 1, Running(30), CreateAttempt(ATTEMPT), InputBindings(map[]), 1, 1)])
  }

  lemma Enters()
    ensures Both(Optional(), Initial(FRESH, "rw"), Go(0), Go(0), Creating())
  {
    var p := Optional();
    assert ResolveArgs(p.render, STEP.args, InputBindings(map[])) == Some(map[]);
    assert Next(p, Initial(FRESH, "rw"), Go(0)) == Entering(Load(0));
  }

  lemma Crashes()
    ensures Next(Optional(), Creating(), Go(0)) == CRASHED && ReadsOwnEpoch(Creating(), Go(0))
  {
  }

  /** A second worker claimed it, and has got this far. */
  function Second(rows: Rows, h: History, ex: Execution, l: Worker): Sys {
    Sys(Cell(ex, rows), CRASHED.workers + [l], 1, h)
  }

  const RESUMED: StepExecution := ATTEMPT.(status := StepRunning, epoch := 2)
  const FAILED: StepExecution := RESUMED.(status := StepFailed, errorCode := "down")

  function Marks(): History { NO_HISTORY.(starter := map[0 := 1], starts := [0]) }

  function Calls(): History { Marks().(calls := [Call(0, "charge", map[], OperationKey("ex", "pay"))]) }

  function Listing(): Sys { Second([ATTEMPT], NO_HISTORY, Claimed(2), Recovery(2).(pc := ReadLedger)) }

  lemma Claims()
    ensures Both(Optional(), CRASHED, CLAIM, Go(1), Listing())
  {
  }

  function Planning(): Sys { Second([ATTEMPT], NO_HISTORY, Claimed(2), Recovery(2).(pc := Relabel(1, [ATTEMPT]))) }

  lemma Lists()
    ensures Both(Optional(), Listing(), Go(1), Go(1), Planning())
  {
  }

  function Starting(): Sys {
    Second([ATTEMPT], NO_HISTORY, Recovered(), Recovery(2).(ex := Recovered(), pc := Start(ATTEMPT, true)))
  }

  lemma Resumes()
    ensures Both(Optional(), Planning(), Go(1), Go(1), Starting())
  {
    assert LatestAttempt([ATTEMPT], "pay") == Some(ATTEMPT);
  }

  function Awaiting(): Sys {
    Second([RESUMED], Calls(), Recovered(), Recovery(2).(ex := Recovered(), pc := Await(RESUMED, true)))
  }

  lemma Asks()
    ensures Both(Optional(), Starting(), Go(1), Go(1), Awaiting())
  {
    assert FindRow([ATTEMPT], 0) == 0;
    assert [ATTEMPT][0 := RESUMED] == [RESUMED];
    assert Awaiting().h.calls == Marks().calls + [Call(0, "charge", map[], OperationKey("ex", "pay"))];
  }

  function Finishing(): Sys {
    Second([FAILED], Calls().(replies := map[0 := ToolFailed("down", map[])]), Recovered(),
           Recovery(2).(ex := Recovered(), pc := Finish(ExecFailed, "down", None)))
  }

  lemma Hears()
    ensures Both(Optional(), Awaiting(), Work(1, 0, DOWN), Go(1), Finishing())
  {
    assert FindRow([RESUMED], 0) == 0;
    assert [RESUMED][0 := FAILED] == [FAILED];
  }

  function Ended(): Sys {
    var ex := Recovered().(status := ExecFailed, errorCode := "down");
    Finishing().(cell := Cell(ex, [FAILED]), workers := CRASHED.workers + [Recovery(2).(ex := ex, pc := Done(Finished))])
  }

  lemma Ends()
    ensures Next(Optional(), Finishing(), Go(1)) == Ended()
    ensures ReadsOwnEpoch(Finishing(), Go(1))
  {
    assert Ended().cell.ex == Recovered().(status := ExecFailed, errorCode := "down");
  }

  lemma CrashesFairlyInStep()
    ensures LeadsFairly(Optional(), Initial(FRESH, "rw"), CRASHED)
  {
    hide OwnEpochs, Next, Both;
    var p := Optional();
    var s0 := Initial(FRESH, "rw");
    NoEpochs(p, s0);
    assert Exec(p, s0, []) == s0;
    Enters();
    Fairly(p, s0, s0, Go(0), Go(0), Creating());
    Crashes();
    FairlyOnce(p, s0, Creating(), Go(0), CRASHED);
  }

  /** The worker crashed before its call, the recovery resumed the attempt, and the tool failed: the execution
      ends FAILED, whereas the uninterrupted run passes over the failure and succeeds. */
  lemma ResumedFailureEndsSkill()
    ensures ReferenceRun(Optional(), REQUEST, Down()) == Some(None)
    ensures exists history ::
      var s := After(Optional(), FRESH, "rw", history);
      Genuine(Optional(), FRESH, "rw", history) && Faithful(s, Down()) && s.cell.ex.status.ExecFailed?
  {
    hide Next, Both, OwnEpochs, Optional;
    var p := Optional();
    var s0 := Initial(FRESH, "rw");
    CrashesFairlyInStep();
    Claims();
    Fairly(p, s0, CRASHED, CLAIM, Go(1), Listing());
    Lists();
    Fairly(p, s0, Listing(), Go(1), Go(1), Planning());
    Resumes();
    Fairly(p, s0, Planning(), Go(1), Go(1), Starting());
    Asks();
    Fairly(p, s0, Starting(), Go(1), Go(1), Awaiting());
    Hears();
    Fairly(p, s0, Awaiting(), Work(1, 0, DOWN), Go(1), Finishing());
    Ends();
    FairlyOnce(p, s0, Finishing(), Go(1), Ended());
    var history :| OwnEpochs(p, s0, history) && Exec(p, s0, history) == Ended();
    StepIsOptional();
    assert After(p, FRESH, "rw", history) == Ended() && Genuine(p, FRESH, "rw", history);
  }

  lemma StepIsOptional()
    ensures DistinctStepIds(Optional().spec) && FreshExecution(FRESH) && Faithful(Ended(), Down())
    ensures ReferenceRun(Optional(), REQUEST, Down()) == Some(None)
  {
    var p := Optional();
    var b := InputBindings(map[]);
    assert ResolveArgs(p.render, STEP.args, b) == Some(map[]);
    assert ReferenceStep(p, REQUEST, Down(), b, p.spec.steps[0]) == Some(b);
    assert ReferenceSteps(p, REQUEST, Down(), b, 1) == Some(b);
    assert ReferenceSteps(p, REQUEST, Down(), b, 0) == Some(b);
  }
}
