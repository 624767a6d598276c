/** Histories in which every answer is the tool's own. They are transparent to crashes, and a recovery
    that starts from the ledger they left continues them. */
module TruthfulRuns {
  import opened CrashTransparency
  import opened ExecutionLedger
  import opened ProtocolInvariant
  import opened ProtocolPreservation
  import opened ProtocolTheorems
  import opened RecoveryPlanner
  import opened RuntimeProtocol
  import opened SkillSpec
  import opened SoloRuns
  import opened Wrappers

  function CallOf(row: StepExecution): Call { Call(row.id, row.tool, row.input, row.opKey) }

  /** An awaited answer is the tool's, or ambiguous; a confirmed operation is reported with the tool's
      answer. */
  predicate TrueReply(tools: Tools, pc: Pc, reply: Reply) {
    && (pc.Await? && reply.ToolReply? ==>
          reply.outcome.Ambiguous? || reply.outcome == tools(pc.row.tool, pc.row.input, pc.row.opKey))
    && (pc.AskReconcile? && reply.ReconReply? && reply.recon.Applied? ==>
          tools(pc.row.tool, pc.row.input, pc.row.opKey) == ToolOk(reply.recon.output))
  }

  predicate TrueAction(s: Sys, a: Action, tools: Tools) {
    a.Work? && a.w < |s.workers| ==> TrueReply(tools, s.workers[a.w].pc, a.reply)
  }

  ghost predicate TrueHistory(p: Program, s: Sys, history: seq<Action>, tools: Tools) {
    forall i | 0 <= i < |history| :: TrueAction(Exec(p, s, history[..i]), history[i], tools)
  }

  lemma TrueAtFirst(p: Program, s: Sys, tools: Tools)
    ensures TrueHistory(p, s, [], tools)
  {
  }

  lemma TrueNext(p: Program, s: Sys, history: seq<Action>, a: Action, tools: Tools)
    ensures TrueHistory(p, s, history + [a], tools) <==> TrueHistory(p, s, history, tools) && TrueAction(Exec(p, s, history), a, tools)
  {
    hide TrueAction, Exec;
    var h := history + [a];
    assert h[..|history|] == history;
    assert forall i | 0 <= i < |history| :: h[..i] == history[..i] && h[i] == history[i];
    if TrueHistory(p, s, h, tools) {
      assert TrueAction(Exec(p, s, h[..|history|]), h[|history|], tools);
      forall i | 0 <= i < |history| ensures TrueAction(Exec(p, s, history[..i]), history[i], tools) {
        assert TrueAction(Exec(p, s, h[..i]), h[i], tools);
      }
    }
  }

  // ---------------------------------------------------------------- where answers belong

  /** What workers ask about is what the ledger says. */
  ghost predicate Traced(rows: Rows, nextId: nat, row: StepExecution) {
    row.id < nextId && SameCall(rows, CallOf(row))
  }

  ghost predicate PcTraced(rows: Rows, nextId: nat, calls: seq<Call>, pc: Pc) {
    match pc
    case Await(row, _) => CallOf(row) in calls
    case AskReconcile(row) => Traced(rows, nextId, row)
    case Relabel(_, existing) => forall i | 0 <= i < |existing| :: Traced(rows, nextId, existing[i])
    case _ => true
  }

  ghost predicate AllTraced(s: Sys) {
    && (forall w | 0 <= w < |s.workers| :: PcTraced(s.cell.rows, s.nextId, s.h.calls, s.workers[w].pc))
    && (forall i | 0 <= i < |s.h.recons| :: s.h.recons[i].0 < s.nextId)
  }

  predicate SameFields(a: StepExecution, b: StepExecution) {
    a.id == b.id && a.tool == b.tool && a.input == b.input && a.opKey == b.opKey
  }

  /** Rows keep what identifies their call, and new rows have new ids. */
  predicate RowsMoved(rows: Rows, nextId: nat, rows': Rows, nextId': nat) {
    && nextId <= nextId'
    && forall j | 0 <= j < |rows'| :: (j < |rows| && SameFields(rows'[j], rows[j])) || rows'[j].id >= nextId
  }

  lemma RewriteMoves(p: Program, s: Sys, w: nat, now: int, reply: Reply)
    requires Holds(p, s, w) && NextAccess(s.workers[w]).PutRow?
    ensures var s' := WorkStep(p, s, w, now, reply); RowsMoved(s.cell.rows, s.nextId, s'.cell.rows, s'.nextId)
  {
    HolderEpoch(p, s, w);
    RewriteAccepted(p, s, w, now, reply);
    TargetRow(p, Core(s.cell), s.h, s.workers[w]);
  }

  lemma RowsMove(p: Program, s: Sys, a: Action)
    requires Inv(p, s)
    ensures var s' := Next(p, s, a); RowsMoved(s.cell.rows, s.nextId, s'.cell.rows, s'.nextId)
  {
    if a.Work? && a.w < |s.workers| && NextAccess(s.workers[a.w]).PutRow? {
      assert WorkerInv(s.h, s.cell.rows, a.w, s.workers[a.w]);
      if a.w == |s.workers| - 1 && Open(s.cell.ex.status) {
        RewriteMoves(p, s, a.w, a.now, a.reply);
      } else {
        OutsiderMovesNone(p, s, a);
      }
    } else {
      OthersMove(p, s, a);
    }
  }

  lemma OutsiderMovesNone(p: Program, s: Sys, a: Action)
    requires a.Work? && a.w < |s.workers| && NextAccess(s.workers[a.w]).PutRow? && Rejected(s, s.workers[a.w])
    ensures var s' := Next(p, s, a); s'.cell == s.cell && s'.nextId == s.nextId
  {
  }

  lemma OthersMove(p: Program, s: Sys, a: Action)
    requires a.Work? && a.w < |s.workers| ==> !NextAccess(s.workers[a.w]).PutRow?
    ensures var s' := Next(p, s, a); RowsMoved(s.cell.rows, s.nextId, s'.cell.rows, s'.nextId)
  {
  }

  lemma TracedMoves(rows: Rows, nextId: nat, rows': Rows, nextId': nat, row: StepExecution)
    requires RowsMoved(rows, nextId, rows', nextId') && Traced(rows, nextId, row)
    ensures Traced(rows', nextId', row)
  {
  }

  lemma PcTracedMoves(s: Sys, s': Sys, pc: Pc)
    requires RowsMoved(s.cell.rows, s.nextId, s'.cell.rows, s'.nextId) && s.h.calls <= s'.h.calls
    requires PcTraced(s.cell.rows, s.nextId, s.h.calls, pc)
    ensures PcTraced(s'.cell.rows, s'.nextId, s'.h.calls, pc)
  {
    hide Traced, RowsMoved;
    match pc
    case AskReconcile(row) => TracedMoves(s.cell.rows, s.nextId, s'.cell.rows, s'.nextId, row);
    case Relabel(_, existing) =>
      forall i | 0 <= i < |existing| ensures Traced(s'.cell.rows, s'.nextId, existing[i]) {
        TracedMoves(s.cell.rows, s.nextId, s'.cell.rows, s'.nextId, existing[i]);
      }
    case _ =>
  }

  lemma {:induction false} LatestIsListed(rows: Rows, stepId: string)
    ensures LatestAttempt(rows, stepId).Some? ==> LatestAttempt(rows, stepId).value in rows
  {
    if rows != [] {
      LatestIsListed(rows[..|rows| - 1], stepId);
    }
  }

  /** Recovery only asks about a row it listed. */
  lemma PlansListed(p: Program, l: Worker, existing: Rows)
    ensures var pc := Planned(p, l, existing).pc;
            && !pc.Await? && !pc.Relabel? && (pc.AskReconcile? ==> pc.row in existing)
  {
    if l.ex.cursor < |p.spec.steps| {
      LatestIsListed(existing, p.spec.steps[l.ex.cursor].id);
    }
  }

  lemma OwnRowsTraced(rows: Rows, nextId: nat, epoch: nat)
    requires RowOrder(rows, nextId, epoch)
    ensures forall i | 0 <= i < |rows| :: Traced(rows, nextId, rows[i])
  {
    OwnIdsDiffer(rows);
  }

  lemma OwnIdsDiffer(rows: Rows)
    requires forall i, j | 0 <= i < j < |rows| :: rows[i].id < rows[j].id
    ensures forall i, j | 0 <= i < |rows| && 0 <= j < |rows| && rows[j].id == rows[i].id :: i == j
  {
  }

  /** Where the acting worker goes is traced, too. */
  lemma ActorTraced(p: Program, s: Sys, a: Action)
    requires Inv(p, s) && AllTraced(s) && a.Work? && a.w < |s.workers|
    ensures var s' := Next(p, s, a);
            a.w < |s'.workers| && PcTraced(s'.cell.rows, s'.nextId, s'.h.calls, s'.workers[a.w].pc)
  {
    var l := s.workers[a.w];
    assert PcTraced(s.cell.rows, s.nextId, s.h.calls, l.pc);
    if NextAccess(l).PutRow? {
      ActorRewrites(p, s, a);
    } else if NextAccess(l).ListSteps? {
      OwnRowsTraced(s.cell.rows, s.nextId, s.cell.ex.epoch);
      ListPc(p, l, s.cell.rows);
    } else {
      RestTraced(p, s, a);
    }
  }

  lemma RestTraced(p: Program, s: Sys, a: Action)
    requires a.Work? && a.w < |s.workers| && !NextAccess(s.workers[a.w]).PutRow? && !NextAccess(s.workers[a.w]).ListSteps?
    requires PcTraced(s.cell.rows, s.nextId, s.h.calls, s.workers[a.w].pc)
    ensures var s' := Next(p, s, a);
            a.w < |s'.workers| && PcTraced(s'.cell.rows, s'.nextId, s'.h.calls, s'.workers[a.w].pc)
  {
    var l := s.workers[a.w];
    match NextAccess(l)
    case Compute =>
      if l.pc.Relabel? && l.pc.k >= |l.pc.existing| {
        PlansListed(p, l, l.pc.existing);
      }
    case PutExecution(_) => PutPc(p, s, a);
    case AwaitTool(row) => HearPc(p, s, a);
    case _ =>
  }

  lemma ListPc(p: Program, l: Worker, rows: Rows)
    requires NextAccess(l).ListSteps?
    ensures var pc := AfterList(p, l, rows).pc;
            !pc.Await? && !pc.AskReconcile? && (pc.Relabel? ==> pc.existing == rows)
  {
  }

  predicate Plain(pc: Pc) { !pc.Await? && !pc.AskReconcile? && !pc.Relabel? }

  lemma PutPc(p: Program, s: Sys, a: Action)
    requires a.Work? && a.w < |s.workers| && NextAccess(s.workers[a.w]).PutExecution?
    ensures var s' := Next(p, s, a); a.w < |s'.workers| && Plain(s'.workers[a.w].pc)
  {
  }

  lemma HearPc(p: Program, s: Sys, a: Action)
    requires a.Work? && a.w < |s.workers| && NextAccess(s.workers[a.w]).AwaitTool?
    ensures var s' := Next(p, s, a);
            a.w < |s'.workers| && (s' == s || Plain(s'.workers[a.w].pc))
  {
  }

  lemma ActorRewrites(p: Program, s: Sys, a: Action)
    requires Inv(p, s) && AllTraced(s) && a.Work? && a.w < |s.workers| && NextAccess(s.workers[a.w]).PutRow?
    ensures var s' := Next(p, s, a);
            a.w < |s'.workers| && PcTraced(s'.cell.rows, s'.nextId, s'.h.calls, s'.workers[a.w].pc)
  {
    var l := s.workers[a.w];
    var s' := Next(p, s, a);
    assert WorkerInv(s.h, s.cell.rows, a.w, l);
    assert PcTraced(s.cell.rows, s.nextId, s.h.calls, l.pc);
    RowsMove(p, s, a);
    PcTracedMoves(s, s', l.pc);
    RewritePc(p, s, a);
  }

  lemma RewritePc(p: Program, s: Sys, a: Action)
    requires a.Work? && a.w < |s.workers| && NextAccess(s.workers[a.w]).PutRow?
    ensures var l := s.workers[a.w];
            var s' := Next(p, s, a);
            && a.w < |s'.workers|
            && var pc := s'.workers[a.w].pc;
               || Plain(pc)
               || (&& l.pc.Relabel? && pc.Relabel? && |pc.existing| == |l.pc.existing|
                   && forall i | 0 <= i < |pc.existing| :: SameFields(pc.existing[i], l.pc.existing[i]))
  {
  }

  lemma OthersStayWhereTheyAre(p: Program, s: Sys, a: Action)
    ensures var s' := Next(p, s, a);
            && |s.workers| <= |s'.workers| && s.h.calls <= s'.h.calls
            && (forall w | 0 <= w < |s.workers| && !(a.Work? && a.w == w) :: s'.workers[w] == s.workers[w])
            && (forall w | |s.workers| <= w < |s'.workers| :: s'.workers[w].pc.ReadExecution?)
  {
  }

  lemma ReconsMove(p: Program, s: Sys, a: Action)
    ensures var s' := Next(p, s, a);
            || s'.h.recons == s.h.recons
            || (&& a.Work? && a.w < |s.workers| && s.workers[a.w].pc.AskReconcile? && a.reply.ReconReply?
                && s'.h.recons == s.h.recons + [(s.workers[a.w].pc.row.id, a.reply.recon)] && s'.nextId == s.nextId)
    ensures Next(p, s, a).nextId >= s.nextId
  {
  }

  lemma TracedNext(p: Program, s: Sys, a: Action)
    requires Inv(p, s) && AllTraced(s)
    ensures AllTraced(Next(p, s, a))
  {
    var s' := Next(p, s, a);
    RowsMove(p, s, a);
    OthersStayWhereTheyAre(p, s, a);
    ReconsMove(p, s, a);
    if a.Work? && a.w < |s.workers| {
      ActorTraced(p, s, a);
      assert PcTraced(s.cell.rows, s.nextId, s.h.calls, s.workers[a.w].pc);
    }
    hide Inv, Next, RowsMoved;
    forall w | 0 <= w < |s'.workers| ensures PcTraced(s'.cell.rows, s'.nextId, s'.h.calls, s'.workers[w].pc) {
      if w < |s.workers| && !(a.Work? && a.w == w) {
        PcTracedMoves(s, s', s.workers[w].pc);
      }
    }
  }

  // ---------------------------------------------------------------- truthful histories are faithful

  lemma CallsMove(p: Program, s: Sys, a: Action)
    ensures var s' := Next(p, s, a);
            || (s'.h.calls == s.h.calls && s'.h.replies == s.h.replies)
            || (&& a.Work? && a.w < |s.workers| && s.workers[a.w].pc.Invoke? && s'.h.replies == s.h.replies
                && s'.h.calls == s.h.calls + [CallOf(s.workers[a.w].pc.row)])
            || (&& a.Work? && a.w < |s.workers| && s.workers[a.w].pc.Await? && a.reply.ToolReply? && s'.h.calls == s.h.calls
                && s'.h.replies == s.h.replies[s.workers[a.w].pc.row.id := a.reply.outcome])
  {
  }

  ghost predicate FaithfulCalls(h: History, tools: Tools) {
    forall i | 0 <= i < |h.calls| && h.calls[i].rowId in h.replies ::
      var call := h.calls[i];
      h.replies[call.rowId].Ambiguous? || h.replies[call.rowId] == tools(call.tool, call.input, call.opKey)
  }

  ghost predicate FaithfulRecons(rows: Rows, recons: seq<(nat, Recon)>, tools: Tools) {
    forall j, output | 0 <= j < |rows| && (rows[j].id, Applied(output)) in recons ::
      tools(rows[j].tool, rows[j].input, rows[j].opKey) == ToolOk(output)
  }

  lemma FaithfulCallsNext(p: Program, s: Sys, a: Action, tools: Tools)
    requires Inv(p, s) && AllTraced(s) && TrueAction(s, a, tools) && FaithfulCalls(s.h, tools)
    ensures FaithfulCalls(Next(p, s, a).h, tools)
  {
    CallsMove(p, s, a);
    if a.Work? && a.w < |s.workers| {
      FaithfulTo(s.h, s.cell.rows, s.nextId, a.w, s.workers[a.w], Next(p, s, a).h, a.reply, tools);
    }
  }

  lemma FaithfulTo(h: History, rows: Rows, nextId: nat, w: nat, l: Worker, h': History, reply: Reply, tools: Tools)
    requires CallsInv(h, rows) && WorkerInv(h, rows, w, l) && PcTraced(rows, nextId, h.calls, l.pc) && TrueReply(tools, l.pc, reply)
    requires FaithfulCalls(h, tools)
    requires || (h'.calls == h.calls && h'.replies == h.replies)
             || (l.pc.Invoke? && h'.replies == h.replies && h'.calls == h.calls + [CallOf(l.pc.row)])
             || (l.pc.Await? && reply.ToolReply? && h'.calls == h.calls && h'.replies == h.replies[l.pc.row.id := reply.outcome])
    ensures FaithfulCalls(h', tools)
  {
  }

  lemma FaithfulReconsNext(p: Program, s: Sys, a: Action, tools: Tools)
    requires Inv(p, s) && AllTraced(s) && TrueAction(s, a, tools) && FaithfulRecons(s.cell.rows, s.h.recons, tools)
    ensures FaithfulRecons(Next(p, s, a).cell.rows, Next(p, s, a).h.recons, tools)
  {
    RowsMove(p, s, a);
    ReconsMove(p, s, a);
    var s' := Next(p, s, a);
    if a.Work? && a.w < |s.workers| {
      assert PcTraced(s.cell.rows, s.nextId, s.h.calls, s.workers[a.w].pc);
    }
    hide Inv, Next;
    forall j, output | 0 <= j < |s'.cell.rows| && (s'.cell.rows[j].id, Applied(output)) in s'.h.recons
      ensures tools(s'.cell.rows[j].tool, s'.cell.rows[j].input, s'.cell.rows[j].opKey) == ToolOk(output)
    {
      if (s'.cell.rows[j].id, Applied(output)) in s.h.recons {
        assert s'.cell.rows[j].id < s.nextId;
        assert (s.cell.rows[j].id, Applied(output)) in s.h.recons;
      } else {
        assert s'.cell.rows[j].id == s.workers[a.w].pc.row.id < s.nextId;
        assert SameCall(s.cell.rows, CallOf(s.workers[a.w].pc.row));
      }
    }
  }

  lemma {:induction false} TruthfulIsFaithful(p: Program, ex: Execution, owner: string, history: seq<Action>, tools: Tools)
    requires Genuine(p, ex, owner, history) && TrueHistory(p, Initial(ex, owner), history, tools)
    ensures AllTraced(After(p, ex, owner, history)) && Faithful(After(p, ex, owner, history), tools)
  {
    hide Next, Inv, TrueAction;
    if history != [] {
      var n := |history| - 1;
      var front := history[..n];
      assert history == front + [history[n]];
      OwnEpochsPrefix(p, Initial(ex, owner), history);
      TrueNext(p, Initial(ex, owner), front, history[n], tools);
      TruthfulIsFaithful(p, ex, owner, front, tools);
      Reached(p, ex, owner, front);
      var s := After(p, ex, owner, front);
      TracedNext(p, s, history[n]);
      FaithfulCallsNext(p, s, history[n], tools);
      FaithfulReconsNext(p, s, history[n], tools);
    }
  }

  /** With tools that answer by operation, and every answer theirs, every history of crashes, claims and
      recoveries that ends SUCCEEDED has the outputs of the uninterrupted run. */
  lemma TruthfulRunsAreTransparent(p: Program, ex: Execution, owner: string, history: seq<Action>, tools: Tools)
    requires Genuine(p, ex, owner, history) && TrueHistory(p, Initial(ex, owner), history, tools)
    requires After(p, ex, owner, history).cell.ex.status.ExecSucceeded?
    ensures ReferenceRun(p, ex.req, tools) == Some(After(p, ex, owner, history).cell.ex.outputs)
  {
    TruthfulIsFaithful(p, ex, owner, history, tools);
    CrashesAreTransparent(p, ex, owner, history, tools);
  }

  // ---------------------------------------------------------------- a recovery continues the run

  /** The same actions by worker w. */
  function By(history: seq<Action>, w: nat): seq<Action> {
    if history == [] then []
    else
      By(history[..|history| - 1], w) +
      [if history[|history| - 1].Work? then history[|history| - 1].(w := w) else history[|history| - 1]]
  }

  /** Worker v of s and worker w of t are the same, before the same store. */
  predicate Twins(s: Sys, v: nat, t: Sys, w: nat) {
    && v < |s.workers| && w < |t.workers| && s.workers[v] == t.workers[w]
    && s.cell == t.cell && s.nextId == t.nextId
  }

  lemma TwinStep(p: Program, s: Sys, v: nat, t: Sys, w: nat, now: int, reply: Reply)
    requires Twins(s, v, t, w)
    ensures Twins(WorkStep(p, s, v, now, reply), v, WorkStep(p, t, w, now, reply), w)
  {
  }

  lemma {:induction false} TwinRun(p: Program, s: Sys, v: nat, t: Sys, w: nat, history: seq<Action>, tools: Tools)
    requires Twins(s, v, t, w) && ByWorker(history, v)
    ensures ByWorker(By(history, w), w) && Twins(Exec(p, s, history), v, Exec(p, t, By(history, w)), w)
    ensures TrueHistory(p, s, history, tools) ==> TrueHistory(p, t, By(history, w), tools)
  {
    hide WorkStep, TrueReply, TrueHistory;
    if history == [] {
      TrueAtFirst(p, t, tools);
    } else {
      var n := |history| - 1;
      var a := history[n];
      assert history == history[..n] + [a];
      TwinRun(p, s, v, t, w, history[..n], tools);
      TwinNext(p, s, v, t, w, history[..n], By(history[..n], w), a, tools);
    }
  }

  lemma TwinNext(p: Program, s: Sys, v: nat, t: Sys, w: nat, front: seq<Action>, front': seq<Action>, a: Action, tools: Tools)
    requires a.Work? && a.w == v && Twins(Exec(p, s, front), v, Exec(p, t, front'), w)
    requires TrueHistory(p, s, front, tools) ==> TrueHistory(p, t, front', tools)
    ensures Twins(Exec(p, s, front + [a]), v, Exec(p, t, front' + [a.(w := w)]), w)
    ensures TrueHistory(p, s, front + [a], tools) ==> TrueHistory(p, t, front' + [a.(w := w)], tools)
  {
    ExecAppend(p, s, front, a);
    ExecAppend(p, t, front', a.(w := w));
    TrueNext(p, s, front, a, tools);
    TrueNext(p, t, front', a.(w := w), tools);
    hide Exec, WorkStep, TrueReply, TrueHistory;
    TwinStep(p, Exec(p, s, front), v, Exec(p, t, front'), w, a.now, a.reply);
  }

  lemma {:induction false} ExecConcat(p: Program, s: Sys, a: seq<Action>, b: seq<Action>, tools: Tools)
    ensures Exec(p, s, a + b) == Exec(p, Exec(p, s, a), b)
    ensures OwnEpochs(p, s, a) && OwnEpochs(p, Exec(p, s, a), b) ==> OwnEpochs(p, s, a + b)
    ensures TrueHistory(p, s, a, tools) && TrueHistory(p, Exec(p, s, a), b, tools) ==> TrueHistory(p, s, a + b, tools)
  {
    hide Next, TrueAction, ReadsOwnEpoch, TrueHistory;
    if b == [] {
      assert a + b == a;
    } else {
      var n := |b| - 1;
      var front := b[..n];
      assert b == front + [b[n]] && a + b == (a + front) + [b[n]];
      ExecConcat(p, s, a, front, tools);
      ExecAppend(p, s, a + front, b[n]);
      TrueNext(p, Exec(p, s, a), front, b[n], tools);
      TrueNext(p, s, a + front, b[n], tools);
      if OwnEpochs(p, s, a) && OwnEpochs(p, Exec(p, s, a), b) {
        OwnEpochsPrefix(p, Exec(p, s, a), b);
        assert ReadsOwnEpoch(Exec(p, Exec(p, s, a), b[..n]), b[n]);
        assert (a + b)[..|a + b| - 1] == a + front;
        MoreEpochs(p, s, a + b);
      }
    }
  }

  lemma {:induction false} NextIdCounts(p: Program, s: Sys, history: seq<Action>)
    requires s.nextId == |s.cell.rows|
    ensures Exec(p, s, history).nextId == |Exec(p, s, history).cell.rows|
  {
    if history != [] {
      NextIdCounts(p, s, history[..|history| - 1]);
      OneIdPerRow(p, Exec(p, s, history[..|history| - 1]), history[|history| - 1]);
    }
  }

  lemma OneIdPerRow(p: Program, s: Sys, a: Action)
    requires s.nextId == |s.cell.rows|
    ensures Next(p, s, a).nextId == |Next(p, s, a).cell.rows|
  {
  }

  /** A worker that claimed the execution of cell c, knowing nothing but the store. */
  function Claimant(c: Cell, leaseOwner: string): Sys {
    Sys(c, [NewWorker(leaseOwner, c.ex, ReadExecution)], |c.rows|, History(map[], [], [], map[], []))
  }

  /** The histories that a ledger and its recovery add up to. */
  function Continued(past: seq<Action>, claim: Action, w: nat, history: seq<Action>): seq<Action> {
    past + [claim] + By(history, w)
  }

  /** What a claimant does alone, from the store a genuine run left, is a genuine continuation of that run. */
  lemma RecoveryContinues(p: Program, ex: Execution, owner: string, past: seq<Action>, claim: Action, history: seq<Action>, tools: Tools)
    requires Genuine(p, ex, owner, past) && claim.Claim? && ByWorker(history, 0)
    requires ClaimExecutionLease(After(p, ex, owner, past).cell, claim.owner, claim.until, claim.now).Some?
    ensures var s := After(p, ex, owner, past);
            var c := ClaimExecutionLease(s.cell, claim.owner, claim.until, claim.now).value;
            var more := By(history, |s.workers|);
            var all := Continued(past, claim, |s.workers|, history);
            && Genuine(p, ex, owner, all) && OwnEpochs(p, Next(p, s, claim), more)
            && After(p, ex, owner, all) == Exec(p, Next(p, s, claim), more)
            && Twins(Exec(p, Claimant(c, claim.leaseOwner), history), 0, After(p, ex, owner, all), |s.workers|)
            && Alone(p, After(p, ex, owner, all), |s.workers|)
            && (TrueHistory(p, Initial(ex, owner), past, tools) && TrueHistory(p, Claimant(c, claim.leaseOwner), history, tools) ==>
                  TrueHistory(p, Initial(ex, owner), all, tools))
  {
    var s0 := Initial(ex, owner);
    var s := After(p, ex, owner, past);
    var w := |s.workers|;
    var c := ClaimExecutionLease(s.cell, claim.owner, claim.until, claim.now).value;
    var t := Next(p, s, claim);
    NextIdCounts(p, s0, past);
    ExecAppend(p, s0, past, claim);
    TrueNext(p, s0, past, claim, tools);
    Reached(p, ex, owner, past);
    ClaimKeeps(p, s, claim);
    assert (past + [claim])[..|past|] == past;
    MoreEpochs(p, s0, past + [claim]);
    TwinRun(p, Claimant(c, claim.leaseOwner), 0, t, w, history, tools);
    AloneRun(p, t, w, By(history, w));
    ExecConcat(p, s0, past + [claim], By(history, w), tools);
  }
}
