/** A call that arrives after the next attempt of its step was allowed. */
module LateCalls {
  import opened ExecutionLedger
  import opened ProtocolCounterexamples
  import opened ProtocolInvariant
  import opened ProtocolPreservation
  import opened ProtocolTheorems
  import opened RecoveryPlanner
  import opened RuntimeProtocol
  import opened SkillSpec
  import opened SoloRuns
  import opened Templates
  import opened Wrappers

  /** The two kinds of tool whose ambiguous attempts are followed by another one. */
  predicate Repeatable(c: Capability) { c.Native? || c.QueryReconcile? }

  /** The row of the first attempt, RUNNING, and as a recovery relabels it. */
  const STARTED: StepExecution := ATTEMPT.(status := StepRunning)
  const UNKNOWN: StepExecution := STARTED.(status := StepUnknownOutcome, errorCode := "UNKNOWN_OUTCOME", epoch := 2)
  const SECOND: StepExecution := ATTEMPT.(id := 1, attempt := 2, epoch := 2)
  const SECOND_STARTED: StepExecution := SECOND.(status := StepRunning)

  const SUCCESS: Reply := ToolReply(ToolOk(map[]))
  const NOT_APPLIED: Reply := ReconReply(NotApplied)

  function Recovered(): Execution { Running(30).(epoch := 2) }

  function Marked(): History { NO_HISTORY.(starter := map[0 := 0], starts := [0]) }

  /** The first worker marked its row RUNNING and stalled; the second claimed the expired lease. */
  function Stalled(): Sys {
    Sys(Cell(Claimed(2), [STARTED]),
        [Worker("rw", 1, Running(30), Invoke(STARTED, false), InputBindings(map[]), 1, 1), Recovery(2)], 1, Marked())
  }

  /** Two actions of one worker in a row, neither of which reads back a foreign epoch. */
  ghost predicate Both(p: Program, s: Sys, a: Action, b: Action, s': Sys) {
    && ReadsOwnEpoch(s, a) && ReadsOwnEpoch(Next(p, s, a), b)
    && Next(p, Next(p, s, a), b) == s'
  }

  /** The second worker becomes l. */
  function With(s: Sys, l: Worker): Sys
    requires |s.workers| == 2
  {
    s.(workers := s.workers[1 := l])
  }

  lemma Stalls(c: Capability)
    ensures Both(OneStep(c), CRASHED, Go(0), CLAIM, Stalled())
  {
    assert FindRow([ATTEMPT], 0) == 0;
    assert [ATTEMPT][0 := STARTED] == [STARTED];
    var s := Next(OneStep(c), CRASHED, Go(0));
    assert s.workers + [Recovery(2)] == Stalled().workers;
  }

  /** The recovery reads the ledger, relabels the row, and plans another attempt or to ask the provider. */
  function Listed(): Sys { With(Stalled(), Recovery(2).(pc := Relabel(0, [STARTED]))) }

  function Relabelled(c: Capability): Sys {
    With(Stalled(), Recovery(2).(pc := if c.Native? then Checkpoint(0, 2) else AskReconcile(UNKNOWN))).(cell := Cell(Claimed(2), [UNKNOWN]))
  }

  lemma Reads(c: Capability)
    ensures Both(OneStep(c), Stalled(), Go(1), Go(1), Listed())
  {
  }

  lemma Relabels(c: Capability)
    requires Repeatable(c)
    ensures Both(OneStep(c), Listed(), Go(1), Go(1), Relabelled(c))
  {
    assert FindRow([STARTED], 0) == 0;
    assert [STARTED][0 := UNKNOWN] == [UNKNOWN];
    assert LatestAttempt([UNKNOWN], "pay") == Some(UNKNOWN);
    assert Plan(OneStep(c), Claimed(2), [UNKNOWN]) ==
           if c.Native? then RecoverRetry(2, Some(UNKNOWN)) else RecoverReconcile(UNKNOWN);
  }

  /** The provider, if it is asked, answers NOT_APPLIED, so the recovery enters the step loop for a
      second attempt. */
  function Asked(c: Capability): History {
    if c.Native? then Marked() else Marked().(recons := [(0, NotApplied)])
  }

  function Answered(c: Capability): Sys {
    With(Relabelled(c), Recovery(2).(ex := Recovered(), pc := Enter(2)))
    .(cell := Cell(Recovered(), [UNKNOWN]), h := Asked(c))
  }

  lemma Answers(c: Capability)
    requires Repeatable(c)
    ensures c.Native? ==> ReadsOwnEpoch(Relabelled(c), Go(1)) && Next(OneStep(c), Relabelled(c), Go(1)) == Answered(c)
    ensures c.QueryReconcile? ==> Both(OneStep(c), Relabelled(c), Work(1, 0, NOT_APPLIED), Go(1), Answered(c))
  {
  }

  function Resumed(pc: Pc): Worker { Worker("rw", 2, Recovered(), pc, InputBindings(map[]), 1, 2) }

  function Prepared(c: Capability): Sys {
    With(Answered(c), Resumed(CreateAttempt(SECOND.(id := 0))).(endAttempt := 2))
  }

  function Entering(c: Capability): Sys { With(Answered(c), Recovery(2).(ex := Recovered(), pc := Load(2))) }

  lemma EntersAgain(c: Capability)
    ensures Next(OneStep(c), Answered(c), Go(1)) == Entering(c)
  {
  }

  lemma LoadsAgain(c: Capability)
    ensures Next(OneStep(c), Entering(c), Go(1)) == Prepared(c)
  {
    assert ResolveArgs(OneStep(c).render, STEP.args, InputBindings(map[])) == Some(map[]);
  }

  lemma Prepares(c: Capability)
    ensures Both(OneStep(c), Answered(c), Go(1), Go(1), Prepared(c))
  {
    hide Next, OneStep;
    EntersAgain(c);
    LoadsAgain(c);
  }

  function Restarted(c: Capability): Sys {
    With(Prepared(c), Resumed(Invoke(SECOND_STARTED, false)))
    .(cell := Cell(Recovered(), [UNKNOWN, SECOND_STARTED]), nextId := 2,
      h := Asked(c).(starter := map[0 := 0, 1 := 1], starts := [0, 1]))
  }

  function Added(c: Capability): Sys {
    With(Prepared(c), Resumed(Start(SECOND, false)).(endAttempt := 2))
    .(cell := Cell(Recovered(), [UNKNOWN, SECOND]), nextId := 2)
  }

  lemma Adds(c: Capability)
    ensures Next(OneStep(c), Prepared(c), Go(1)) == Added(c)
  {
    assert [UNKNOWN] + [SECOND] == [UNKNOWN, SECOND];
  }

  lemma Marks(c: Capability)
    ensures Next(OneStep(c), Added(c), Go(1)) == Restarted(c)
  {
    assert FindRow([UNKNOWN, SECOND], 1) == 1;
    assert [UNKNOWN, SECOND][1 := SECOND_STARTED] == [UNKNOWN, SECOND_STARTED];
  }

  lemma Restarts(c: Capability)
    ensures Both(OneStep(c), Prepared(c), Go(1), Go(1), Restarted(c))
  {
    hide Next, OneStep;
    Adds(c);
    Marks(c);
  }

  /** A worker about to call gets through whatever the store says by then. */
  lemma CallGoesThrough(c: Capability, s: Sys, w: nat, row: StepExecution)
    requires w < |s.workers| && s.workers[w].pc == Invoke(row, false) && s.workers[w].ex.cursor == 0
    ensures var p := OneStep(c);
            var s' := Next(p, Next(p, s, Go(w)), Work(w, 0, SUCCESS));
            && Both(p, s, Go(w), Work(w, 0, SUCCESS), s')
            && s'.h.replies == s.h.replies[row.id := ToolOk(map[])] && s'.cell == s.cell
            && |s'.workers| == |s.workers| && s'.workers == s.workers[w := s'.workers[w]]
  {
  }

  // ---------------------------------------------------------------- the history

  ghost predicate LeadsFairly(p: Program, s: Sys, s': Sys) {
    exists history :: OwnEpochs(p, s, history) && Exec(p, s, history) == s'
  }

  lemma Fairly(p: Program, s: Sys, s': Sys, a: Action, b: Action, t: Sys)
    requires LeadsFairly(p, s, s') && Both(p, s', a, b, t)
    ensures LeadsFairly(p, s, t)
  {
    hide Next, OwnEpochs, ReadsOwnEpoch;
    var history :| OwnEpochs(p, s, history) && Exec(p, s, history) == s';
    FairlyOn(p, s, history, a);
    FairlyOn(p, s, history + [a], b);
  }

  lemma FairlyOnce(p: Program, s: Sys, s': Sys, a: Action, t: Sys)
    requires LeadsFairly(p, s, s') && ReadsOwnEpoch(s', a) && Next(p, s', a) == t
    ensures LeadsFairly(p, s, t)
  {
    hide Next, OwnEpochs, ReadsOwnEpoch;
    var history :| OwnEpochs(p, s, history) && Exec(p, s, history) == s';
    FairlyOn(p, s, history, a);
  }

  lemma FairlyOn(p: Program, s: Sys, history: seq<Action>, a: Action)
    requires OwnEpochs(p, s, history) && ReadsOwnEpoch(Exec(p, s, history), a)
    ensures OwnEpochs(p, s, history + [a]) && Exec(p, s, history + [a]) == Next(p, Exec(p, s, history), a)
  {
    hide Next, OwnEpochs, ReadsOwnEpoch;
    ExecAppend(p, s, history, a);
    assert (history + [a])[..|history|] == history;
    MoreEpochs(p, s, history + [a]);
  }

  lemma CrashesFairly(c: Capability)
    ensures LeadsFairly(OneStep(c), Initial(FRESH, "rw"), CRASHED)
  {
    hide OwnEpochs;
    var p := OneStep(c);
    var s0 := Initial(FRESH, "rw");
    NoEpochs(p, s0);
    Enters(c);
    FairlyOn(p, s0, [], Go(0));
    Loads(c);
    FairlyOn(p, s0, [] + [Go(0)], Go(0));
    Creates(c);
    FairlyOn(p, s0, [] + [Go(0)] + [Go(0)], Go(0));
  }

  lemma RestartsFairly(c: Capability)
    requires Repeatable(c)
    ensures LeadsFairly(OneStep(c), Initial(FRESH, "rw"), Restarted(c))
  {
    hide Next, Both, OwnEpochs, OneStep;
    var p := OneStep(c);
    var s0 := Initial(FRESH, "rw");
    CrashesFairly(c);
    Stalls(c);
    Fairly(p, s0, CRASHED, Go(0), CLAIM, Stalled());
    Reads(c);
    Fairly(p, s0, Stalled(), Go(1), Go(1), Listed());
    Relabels(c);
    Fairly(p, s0, Listed(), Go(1), Go(1), Relabelled(c));
    Answers(c);
    if c.Native? {
      FairlyOnce(p, s0, Relabelled(c), Go(1), Answered(c));
    } else {
      Fairly(p, s0, Relabelled(c), Work(1, 0, NOT_APPLIED), Go(1), Answered(c));
    }
    Prepares(c);
    Fairly(p, s0, Answered(c), Go(1), Go(1), Prepared(c));
    Restarts(c);
    Fairly(p, s0, Prepared(c), Go(1), Go(1), Restarted(c));
  }

  /** Both attempts are RUNNING, and each worker is about to call. */
  lemma RestartedIs(c: Capability)
    ensures var s := Restarted(c);
            && s.cell.rows == [UNKNOWN, SECOND_STARTED] && |s.workers| == 2
            && s.workers[0].pc == Invoke(STARTED, false) && s.workers[0].ex.cursor == 0
            && s.workers[1].pc == Invoke(SECOND_STARTED, false) && s.workers[1].ex.cursor == 0
  {
  }

  /** The call of a stalled worker can arrive after the next attempt was allowed, although every worker
      writes under its own epoch: two attempts of one step both succeed. A tool without idempotency
      has no such history. With a provider that can be asked, NOT_APPLIED only spoke of the past; with a
      NATIVE tool both calls carry the same operation key. */
  lemma LateCallSucceedsTwice(c: Capability)
    requires Repeatable(c)
    ensures exists history ::
      var s := After(OneStep(c), FRESH, "rw", history);
      && Genuine(OneStep(c), FRESH, "rw", history)
      && |s.cell.rows| == 2 && s.cell.rows[0].stepId == s.cell.rows[1].stepId
      && s.cell.rows[0].id in s.h.replies && s.h.replies[s.cell.rows[0].id].ToolOk?
      && s.cell.rows[1].id in s.h.replies && s.h.replies[s.cell.rows[1].id].ToolOk?
      && s.cell.rows[0].opKey == s.cell.rows[1].opKey
  {
    hide Next, Both, OwnEpochs, OneStep, Restarted;
    var p := OneStep(c);
    var s0 := Initial(FRESH, "rw");
    RestartsFairly(c);
    RestartedIs(c);
    CallGoesThrough(c, Restarted(c), 1, SECOND_STARTED);
    var s1 := Next(p, Next(p, Restarted(c), Go(1)), Work(1, 0, SUCCESS));
    Fairly(p, s0, Restarted(c), Go(1), Work(1, 0, SUCCESS), s1);
    CallGoesThrough(c, s1, 0, STARTED);
    var s2 := Next(p, Next(p, s1, Go(0)), Work(0, 0, SUCCESS));
    Fairly(p, s0, s1, Go(0), Work(0, 0, SUCCESS), s2);
    var history :| OwnEpochs(p, s0, history) && Exec(p, s0, history) == s2;
    StartsFresh(c);
    assert After(p, FRESH, "rw", history) == s2 && Genuine(p, FRESH, "rw", history);
  }

  lemma StartsFresh(c: Capability)
    ensures DistinctStepIds(OneStep(c).spec) && FreshExecution(FRESH)
  {
  }
}
