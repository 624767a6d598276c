/** Every action of the protocol keeps the invariant. */
module ProtocolPreservation {
  import opened ExecutionLedger
  import opened HistoryLemmas
  import opened HolderLemmas
  import opened LedgerLemmas
  import opened ProtocolInvariant
  import opened RuntimeProtocol
  import opened SkillSpec

  // ---------------------------------------------------------------- claims, renewals, workers without the lease

  lemma ClaimKeeps(p: Program, s: Sys, a: Action)
    requires Inv(p, s) && a.Claim?
    ensures Inv(p, Next(p, s, a))
  {
    var s' := Next(p, s, a);
    if s' != s {
      assert Core(s'.cell) == Core(s.cell).(ex := Core(s.cell).ex.(epoch := s.cell.ex.epoch + 1));
      assert RowOrder(s'.cell.rows, s'.nextId, s'.cell.ex.epoch);
      forall w | 0 <= w < |s'.workers| ensures WorkerInv(s'.h, s'.cell.rows, w, s'.workers[w]) {
        if w < |s.workers| {
          assert WorkerInv(s.h, s.cell.rows, w, s.workers[w]);
        }
      }
    }
  }

  lemma RenewKeeps(p: Program, s: Sys, a: Action)
    requires Inv(p, s) && a.Renew?
    ensures Inv(p, Next(p, s, a))
  {
    var s' := Next(p, s, a);
    if s' != s {
      assert Core(s'.cell) == Core(s.cell);
    }
  }

  /** The holder's invariant survives answers that other workers receive. */
  lemma HolderGrows(p: Program, c: Cell, h: History, h': History, l: Worker)
    requires HolderInv(p, c, h, l) && Grows(h, h', 0) && h'.starter == h.starter
    ensures HolderInv(p, c, h', l)
  {
    if Recovering(l.pc) {
      RecoverGrows(p, c, h, h', l);
    } else if Attempting(l.pc) {
    } else if !l.pc.ReadExecution? {
      LoopGrows(p, c, h, h', l);
    }
  }

  lemma RecoverGrows(p: Program, c: Cell, h: History, h': History, l: Worker)
    requires RecoverInv(p, c, h, l) && Grows(h, h', 0) && h'.starter == h.starter
    ensures RecoverInv(p, c, h', l)
  {
  }

  lemma LoopGrows(p: Program, c: Cell, h: History, h': History, l: Worker)
    requires LoopInv(p, c, h, l) && Grows(h, h', 0) && h'.starter == h.starter
    ensures LoopInv(p, c, h', l)
  {
  }

  /** The store rejects every write of a worker that is not the holder of an open execution. */
  predicate Rejected(s: Sys, l: Worker) {
    l.ex.epoch != s.cell.ex.epoch || !Open(s.cell.ex.status)
  }

  lemma OutsiderQuiet(p: Program, s: Sys, w: nat, now: int, reply: Reply)
    requires w < |s.workers| && Rejected(s, s.workers[w])
    requires !s.workers[w].pc.ReadExecution? && !InFlight(s.workers[w]) && !s.workers[w].pc.AskReconcile?
    ensures var s' := WorkStep(p, s, w, now, reply);
            && |s'.workers| == |s.workers|
            && s' == s.(workers := s.workers[w := s'.workers[w]])
            && (s' == s || MovesOn(s.workers[w], s'.workers[w]))
  {
    var l := s.workers[w];
    var access := NextAccess(l);
    if access.PutExecution? || access.AddRow? || access.PutRow? {
      WritesRejected(p, s, w, now, reply);
    } else {
      if l.pc.Relabel? {
        ComputeMovesOn(p, l);
      }
      ListMovesOn(p, l, s.cell.rows);
    }
  }

  lemma WritesRejected(p: Program, s: Sys, w: nat, now: int, reply: Reply)
    requires w < |s.workers| && Rejected(s, s.workers[w])
    requires var access := NextAccess(s.workers[w]); access.PutExecution? || access.AddRow? || access.PutRow?
    ensures WorkStep(p, s, w, now, reply) == s.(workers := s.workers[w := s.workers[w].(pc := Done(Lost))])
  {
  }

  /** What an access without the lease may change. */
  ghost predicate OutsiderChange(s: Sys, s': Sys, w: nat)
    requires w < |s.workers|
  {
    && HistoryInv(s') && s'.cell == s.cell && s'.nextId == s.nextId
    && s'.h.starter == s.h.starter && s'.h.starts == s.h.starts && Grows(s.h, s'.h, 0)
    && |s'.workers| == |s.workers| && s'.workers == s.workers[w := s'.workers[w]]
  }

  lemma OutsiderAsks(p: Program, s: Sys, a: Action)
    requires HistoryInv(s) && a.Work? && a.w < |s.workers| && s.workers[a.w].pc.AskReconcile?
    ensures OutsiderChange(s, Next(p, s, a), a.w)
  {
    var s' := WorkStep(p, s, a.w, a.now, a.reply);
    if a.reply.ReconReply? {
      AskKeeps(s, s', a.w, a.reply.recon);
    }
  }

  lemma OutsiderCalls(p: Program, s: Sys, a: Action)
    requires HistoryInv(s) && a.Work? && a.w < |s.workers| && s.workers[a.w].pc.Invoke?
    ensures OutsiderChange(s, Next(p, s, a), a.w)
  {
    CallKeeps(s, WorkStep(p, s, a.w, a.now, a.reply), a.w);
  }

  /** The system after worker w heard its tool's answer. */
  function WithReply(p: Program, s: Sys, w: nat, outcome: Outcome): Sys
    requires w < |s.workers| && s.workers[w].pc.Await?
  {
    var row := s.workers[w].pc.row;
    s.(h := s.h.(replies := s.h.replies[row.id := outcome]),
       workers := s.workers[w := AfterReply(p, s.workers[w], row, outcome)])
  }

  lemma OutsiderHears(p: Program, s: Sys, w: nat, outcome: Outcome)
    requires HistoryInv(s) && w < |s.workers| && s.workers[w].pc.Await?
    ensures OutsiderChange(s, WithReply(p, s, w, outcome), w)
  {
    assert WorkerInv(s.h, s.cell.rows, w, s.workers[w]);
    ReplyKeeps(p, s, WithReply(p, s, w, outcome), w, outcome);
  }

  lemma HearAccepted(p: Program, s: Sys, w: nat, now: int, reply: Reply)
    requires w < |s.workers| && s.workers[w].pc.Await?
    ensures WorkStep(p, s, w, now, reply) == if reply.ToolReply? then WithReply(p, s, w, reply.outcome) else s
  {
  }

  lemma OutsiderWrites(p: Program, s: Sys, a: Action)
    requires HistoryInv(s) && a.Work? && a.w < |s.workers| && Rejected(s, s.workers[a.w])
    requires !InFlight(s.workers[a.w]) && !s.workers[a.w].pc.AskReconcile? && !s.workers[a.w].pc.ReadExecution?
    ensures OutsiderChange(s, Next(p, s, a), a.w)
  {
    var s' := WorkStep(p, s, a.w, a.now, a.reply);
    assert WorkerInv(s.h, s.cell.rows, a.w, s.workers[a.w]);
    OutsiderQuiet(p, s, a.w, a.now, a.reply);
    if s' != s {
      AccessKeeps(s, s', a.w);
    }
  }

  lemma OutsiderKeeps(p: Program, s: Sys, a: Action)
    requires Inv(p, s) && a.Work? && a.w < |s.workers| && !s.workers[a.w].pc.ReadExecution?
    requires a.w < |s.workers| - 1 || !Open(s.cell.ex.status)
    ensures OutsiderChange(s, Next(p, s, a), a.w) && Inv(p, Next(p, s, a))
  {
    OutsiderChanges(p, s, a);
    hide Inv, Next, OutsiderChange;
    OutsiderGrows(p, s, Next(p, s, a), a.w);
  }

  lemma OutsiderChanges(p: Program, s: Sys, a: Action)
    requires HistoryInv(s) && a.Work? && a.w < |s.workers| && !s.workers[a.w].pc.ReadExecution?
    requires a.w < |s.workers| - 1 || !Open(s.cell.ex.status)
    ensures OutsiderChange(s, Next(p, s, a), a.w)
  {
    assert WorkerInv(s.h, s.cell.rows, a.w, s.workers[a.w]);
    if s.workers[a.w].pc.Invoke? {
      OutsiderCalls(p, s, a);
    } else if s.workers[a.w].pc.Await? {
      HearAccepted(p, s, a.w, a.now, a.reply);
      if a.reply.ToolReply? {
        OutsiderHears(p, s, a.w, a.reply.outcome);
      }
    } else if s.workers[a.w].pc.AskReconcile? {
      OutsiderAsks(p, s, a);
    } else {
      OutsiderWrites(p, s, a);
    }
  }

  lemma OutsiderGrows(p: Program, s: Sys, s': Sys, w: nat)
    requires Inv(p, s) && w < |s.workers| && (w < |s.workers| - 1 || !Open(s.cell.ex.status))
    requires OutsiderChange(s, s', w)
    ensures Inv(p, s')
  {
    AnswersKeep(p, Core(s.cell), s.nextId, s.h, s'.h);
    if Open(s.cell.ex.status) {
      HolderGrows(p, Core(s.cell), s.h, s'.h, Holder(s));
    }
  }

  lemma ReadKeeps(p: Program, s: Sys, a: Action)
    requires Inv(p, s) && a.Work? && a.w < |s.workers| && s.workers[a.w].pc.ReadExecution? && ReadsOwnEpoch(s, a)
    ensures Inv(p, Next(p, s, a))
  {
    var s' := Next(p, s, a);
    assert WorkerInv(s.h, s.cell.rows, a.w, s.workers[a.w]);
    AccessKeeps(s, s', a.w);
  }

  // ---------------------------------------------------------------- the lease holder

  /** Worker w holds the lease of an open execution. */
  ghost predicate Holds(p: Program, s: Sys, w: nat) {
    && Inv(p, s)
    && w == |s.workers| - 1
    && Open(s.cell.ex.status)
    && !s.workers[w].pc.ReadExecution?
  }

  lemma HolderEpoch(p: Program, s: Sys, w: nat)
    requires Holds(p, s, w)
    ensures s.workers[w].ex.epoch == s.cell.ex.epoch == w + 1
    ensures CoreRecord(s.workers[w].ex) == Core(s.cell).ex
    ensures HolderInv(p, Core(s.cell), s.h, s.workers[w])
    ensures WorkerInv(s.h, s.cell.rows, w, s.workers[w])
  {
  }

  /** w's local step: the store, the history and the other workers are untouched. */
  lemma LocalKeeps(p: Program, s: Sys, w: nat, l': Worker)
    requires Holds(p, s, w) && MovesOn(s.workers[w], l')
    requires HolderInv(p, Core(s.cell), s.h, l')
    ensures Inv(p, s.(workers := s.workers[w := l']))
  {
    HolderEpoch(p, s, w);
    AccessKeeps(s, s.(workers := s.workers[w := l']), w);
  }

  lemma HolderComputes(p: Program, s: Sys, w: nat)
    requires Holds(p, s, w) && NextAccess(s.workers[w]).Compute?
    ensures Inv(p, s.(workers := s.workers[w := AfterCompute(p, s.workers[w])]))
  {
    var l := s.workers[w];
    HolderEpoch(p, s, w);
    ComputeMovesOn(p, l);
    if l.pc.k >= |l.pc.existing| {
      PlanOk(p, Core(s.cell), s.nextId, s.h, l);
    }
    LocalKeeps(p, s, w, AfterCompute(p, l));
  }

  lemma HolderLists(p: Program, s: Sys, w: nat)
    requires Holds(p, s, w) && NextAccess(s.workers[w]).ListSteps?
    ensures Inv(p, s.(workers := s.workers[w := AfterList(p, s.workers[w], s.cell.rows)]))
  {
    var l := s.workers[w];
    HolderEpoch(p, s, w);
    ListMovesOn(p, l, s.cell.rows);
    if l.pc.Load? {
      LoadedOk(p, Core(s.cell), s.nextId, s.h, l, l.pc.attempt);
    }
    LocalKeeps(p, s, w, AfterList(p, l, s.cell.rows));
  }

  /** The system after an accepted write of the execution record. */
  function WithRecord(p: Program, s: Sys, w: nat, now: int, ex: Execution): Sys
    requires w < |s.workers|
  {
    var ex' := TouchLease(p, s.workers[w].owner, ex, now);
    s.(cell := s.cell.(ex := ex'), workers := s.workers[w := AfterPutExecution(p, s.workers[w].(ex := ex'))])
  }

  lemma RecordAccepted(p: Program, s: Sys, w: nat, now: int, reply: Reply)
    requires Holds(p, s, w) && NextAccess(s.workers[w]).PutExecution?
    ensures WorkStep(p, s, w, now, reply) == WithRecord(p, s, w, now, NextAccess(s.workers[w]).ex)
  {
    HolderEpoch(p, s, w);
  }

  lemma TouchCore(p: Program, owner: string, ex: Execution, now: int)
    requires ex.epoch > 0
    ensures CoreRecord(TouchLease(p, owner, ex, now)) == CoreRecord(ex)
  {
  }

  lemma HolderPuts(p: Program, s: Sys, w: nat, now: int)
    requires Holds(p, s, w) && NextAccess(s.workers[w]).PutExecution?
    ensures Inv(p, WithRecord(p, s, w, now, NextAccess(s.workers[w]).ex))
  {
    var l := s.workers[w];
    var ex := NextAccess(l).ex;
    var s' := WithRecord(p, s, w, now, ex);
    HolderEpoch(p, s, w);
    TouchCore(p, l.owner, ex, now);
    var l' := l.(ex := s'.cell.ex);
    PutStoreOk(p, Core(s.cell), Core(s'.cell), s.nextId, s.h, l, l');
    hide StoreInv, HolderInv, LoopHead;
    if l.pc.Advance? {
      LoopHeadMovesOn(p, l', 1);
    }
    AccessKeeps(s, s', w);
  }

  lemma PutStoreOk(p: Program, c: Cell, c': Cell, nextId: nat, h: History, l: Worker, l': Worker)
    requires StoreInv(p, c, nextId, h) && HolderInv(p, c, h, l) && NextAccess(l).PutExecution? && Open(c.ex.status)
    requires c' == c.(ex := CoreRecord(NextAccess(l).ex)) && l' == l.(ex := l'.ex) && CoreRecord(l'.ex) == c'.ex
    ensures StoreInv(p, c', nextId, h)
    ensures Open(c'.ex.status) ==> HolderInv(p, c', h, AfterPutExecution(p, l'))
  {
    match l.pc
    case Checkpoint(_, _) => CheckpointOk(p, c, c', nextId, h, l, AfterPutExecution(p, l'));
    case PendCheckpoint(_) => assert c' == c;
    case Enter(_) => EnterOk(p, c, c', nextId, h, l, AfterPutExecution(p, l'));
    case Advance => AdvanceOk(p, c, c', nextId, h, l, l');
    case Finish(_, _, _) => FinishOk(p, c, c', nextId, h, l);
  }

  /** The system after an accepted new row. */
  function WithRow(p: Program, s: Sys, w: nat, row: StepExecution): Sys
    requires w < |s.workers|
  {
    s.(cell := s.cell.(rows := s.cell.rows + [row]), nextId := s.nextId + 1,
       workers := s.workers[w := AfterAddRow(p, s.workers[w], row)])
  }

  function StoredRow(s: Sys, row: StepExecution): StepExecution {
    row.(id := s.nextId, epoch := s.cell.ex.epoch, attempt := if row.attempt == 0 then 1 else row.attempt)
  }

  lemma RowAccepted(p: Program, s: Sys, w: nat, now: int, reply: Reply)
    requires Holds(p, s, w) && NextAccess(s.workers[w]).AddRow?
    ensures WorkStep(p, s, w, now, reply) == WithRow(p, s, w, StoredRow(s, NextAccess(s.workers[w]).row))
  {
    HolderEpoch(p, s, w);
  }

  lemma HolderAdds(p: Program, s: Sys, w: nat)
    requires DistinctStepIds(p.spec) && Holds(p, s, w) && NextAccess(s.workers[w]).AddRow?
    ensures Inv(p, WithRow(p, s, w, StoredRow(s, NextAccess(s.workers[w]).row)))
  {
    var l := s.workers[w];
    var row := StoredRow(s, NextAccess(l).row);
    var s' := WithRow(p, s, w, row);
    HolderEpoch(p, s, w);
    AddStoreOk(p, Core(s.cell), Core(s'.cell), s.nextId, s.h, l, row);
    AddHistoryOk(p, s, w, row);
  }

  lemma AddHistoryOk(p: Program, s: Sys, w: nat, row: StepExecution)
    requires HistoryInv(s) && w < |s.workers| && NextAccess(s.workers[w]).AddRow? && row.id == s.nextId
    ensures HistoryInv(WithRow(p, s, w, row))
  {
    assert WorkerInv(s.h, s.cell.rows, w, s.workers[w]);
    AddMovesOn(p, s.workers[w], row);
    AppendCompatible(s.h, s.nextId, s.cell.rows, row);
    AccessKeeps(s, WithRow(p, s, w, row), w);
  }

  lemma AddStoreOk(p: Program, c: Cell, c': Cell, nextId: nat, h: History, l: Worker, row: StepExecution)
    requires DistinctStepIds(p.spec) && StoreInv(p, c, nextId, h) && HolderInv(p, c, h, l)
    requires NextAccess(l).AddRow? && nextId !in h.starter && c' == c.(rows := c.rows + [row])
    requires var row0 := NextAccess(l).row;
             row == row0.(id := nextId, epoch := c.ex.epoch, attempt := if row0.attempt == 0 then 1 else row0.attempt)
    ensures StoreInv(p, c', nextId + 1, h)
    ensures HolderInv(p, c', h, AfterAddRow(p, l, row))
  {
    match l.pc
    case CreateSkip(_) => AddSkipOk(p, c, c', nextId, h, l, row);
    case CreateBroken(_) => AddBrokenOk(p, c, c', nextId, h, l, row);
    case CreateAttempt(_) => AddAttemptOk(p, c, c', nextId, h, l, row);
  }

  /** The system after an accepted rewrite of row j. */
  function WithRewrite(p: Program, s: Sys, w: nat, j: nat, row: StepExecution): Sys
    requires w < |s.workers| && j < |s.cell.rows|
  {
    var l := s.workers[w];
    var s' := s.(cell := s.cell.(rows := s.cell.rows[j := row]),
                 workers := s.workers[w := AfterPutRow(p, l, row)]);
    if l.pc.Start? then s'.(h := Started(s.h, row.id, w)) else s'
  }

  function Started(h: History, id: nat, w: nat): History {
    h.(starter := h.starter[id := w], starts := h.starts + [id])
  }

  /** Index of the row the holder is about to rewrite. */
  function Target(p: Program, c: Cell, l: Worker): int {
    if l.pc.Relabel? then l.pc.k
    else if c.ex.cursor < |p.spec.steps| then LastIndex(c.rows, p.spec.steps[c.ex.cursor].id) else -1
  }

  lemma TargetRow(p: Program, c: Cell, h: History, l: Worker)
    requires HolderInv(p, c, h, l) && NextAccess(l).PutRow?
    ensures var j := Target(p, c, l);
            && 0 <= j < |c.rows|
            && var row := NextAccess(l).row;
               row == c.rows[j].(status := row.status, output := row.output, errorCode := row.errorCode)
    ensures !l.pc.Relabel? ==> c.ex.cursor < StepLimit(p.spec)
  {
  }

  lemma RewriteAccepted(p: Program, s: Sys, w: nat, now: int, reply: Reply)
    requires Holds(p, s, w) && NextAccess(s.workers[w]).PutRow?
    ensures var l := s.workers[w];
            var j := Target(p, Core(s.cell), l);
            && 0 <= j < |s.cell.rows|
            && WorkStep(p, s, w, now, reply) ==
               WithRewrite(p, s, w, j, NextAccess(l).row.(epoch := s.cell.ex.epoch))
  {
    var l := s.workers[w];
    HolderEpoch(p, s, w);
    HolderRuns(p, Core(s.cell), s.h, l);
    TargetRow(p, Core(s.cell), s.h, l);
    FindRowAt(s.cell.rows, Target(p, Core(s.cell), l));
  }

  lemma HolderRuns(p: Program, c: Cell, h: History, l: Worker)
    requires HolderInv(p, c, h, l) && NextAccess(l).PutRow?
    ensures c.ex.status.ExecRunning?
  {
  }

  lemma HolderRewrites(p: Program, s: Sys, w: nat)
    requires DistinctStepIds(p.spec) && Holds(p, s, w) && NextAccess(s.workers[w]).PutRow?
    requires 0 <= Target(p, Core(s.cell), s.workers[w]) < |s.cell.rows|
    ensures Inv(p, WithRewrite(p, s, w, Target(p, Core(s.cell), s.workers[w]),
                               NextAccess(s.workers[w]).row.(epoch := s.cell.ex.epoch)))
  {
    var l := s.workers[w];
    var c := Core(s.cell);
    var j := Target(p, c, l);
    var row := NextAccess(l).row.(epoch := s.cell.ex.epoch);
    var s' := WithRewrite(p, s, w, j, row);
    HolderEpoch(p, s, w);
    TargetRow(p, c, s.h, l);
    assert Core(s'.cell) == c.(rows := c.rows[j := row]);
    RewriteStoreOk(p, c, Core(s'.cell), s.nextId, s.h, w, l, row);
    RewriteHistoryOk(p, s, w, j, row);
  }

  lemma RewriteStoreOk(p: Program, c: Cell, c': Cell, nextId: nat, h: History, w: nat, l: Worker, row: StepExecution)
    requires DistinctStepIds(p.spec) && StoreInv(p, c, nextId, h) && HolderInv(p, c, h, l) && NextAccess(l).PutRow?
    requires 0 <= Target(p, c, l) < |c.rows| && row == NextAccess(l).row.(epoch := c.ex.epoch)
    requires Rewrites(c, c', Target(p, c, l), row)
    ensures l.pc.Start? ==> row.id !in h.starter
    ensures var h' := if l.pc.Start? then Started(h, row.id, w) else h;
            StoreInv(p, c', nextId, h') && HolderInv(p, c', h', AfterPutRow(p, l, row))
  {
    TargetRow(p, c, h, l);
    match l.pc
    case Relabel(_, _) => RelabelOk(p, c, c', nextId, h, l, row);
    case ConfirmApplied(_) => ConfirmOk(p, c, c', nextId, h, l, row);
    case Start(_, _) => StartOk(p, c, c', nextId, h, Started(h, row.id, w), w, l, row);
    case Record(_, _) => RecordOk(p, c, c', nextId, h, l, row);
  }

  lemma RewriteHistoryOk(p: Program, s: Sys, w: nat, j: nat, row: StepExecution)
    requires HistoryInv(s) && w < |s.workers| && NextAccess(s.workers[w]).PutRow? && j < |s.cell.rows|
    requires row == s.cell.rows[j].(status := row.status, output := row.output, errorCode := row.errorCode, epoch := row.epoch)
    requires s.workers[w].pc.Start? ==> row.id !in s.h.starter
    requires forall i, k | 0 <= i < k < |s.cell.rows| :: s.cell.rows[i].id < s.cell.rows[k].id
    requires row.id < s.nextId
    ensures HistoryInv(WithRewrite(p, s, w, j, row))
  {
    var l := s.workers[w];
    var s' := WithRewrite(p, s, w, j, row);
    assert WorkerInv(s.h, s.cell.rows, w, l);
    RewriteCompatible(s.h, s'.h, s.cell.rows, j, row);
    CalledFrame(s.h, s'.h);
    if l.pc.Start? {
      assert !Called(s.h, row.id);
      assert row.id !in s.h.replies;
    } else {
      PutRowMovesOn(p, l, row);
    }
    AccessKeeps(s, s', w);
  }

  lemma HolderAsks(p: Program, s: Sys, w: nat, answer: Recon)
    requires Holds(p, s, w) && s.workers[w].pc.AskReconcile?
    ensures var l := s.workers[w];
            Inv(p, s.(h := s.h.(recons := s.h.recons + [(l.pc.row.id, answer)]),
                      workers := s.workers[w := l.(pc := Reconciled(l, l.pc.row, answer))]))
  {
    var l := s.workers[w];
    var h' := s.h.(recons := s.h.recons + [(l.pc.row.id, answer)]);
    var s' := s.(h := h', workers := s.workers[w := l.(pc := Reconciled(l, l.pc.row, answer))]);
    HolderEpoch(p, s, w);
    CursorRowFact(p, Core(s.cell), s.h);
    AnswersKeep(p, Core(s.cell), s.nextId, s.h, h');
    ReconciledOk(p, Core(s.cell), s.h, h', l, answer);
    AskKeeps(s, s', w, answer);
  }

  lemma HolderCalls(p: Program, s: Sys, w: nat)
    requires Holds(p, s, w) && s.workers[w].pc.Invoke?
    ensures var l := s.workers[w];
            var row := l.pc.row;
            Inv(p, s.(h := s.h.(calls := s.h.calls + [Call(row.id, row.tool, row.input, row.opKey)]),
                      workers := s.workers[w := l.(pc := Await(row, l.pc.resumed))]))
  {
    var l := s.workers[w];
    var row := l.pc.row;
    var h' := s.h.(calls := s.h.calls + [Call(row.id, row.tool, row.input, row.opKey)]);
    var s' := s.(h := h', workers := s.workers[w := l.(pc := Await(row, l.pc.resumed))]);
    HolderEpoch(p, s, w);
    AnswersKeep(p, Core(s.cell), s.nextId, s.h, h');
    CallKeeps(s, s', w);
  }

  lemma HolderHears(p: Program, s: Sys, w: nat, outcome: Outcome)
    requires Holds(p, s, w) && s.workers[w].pc.Await?
    ensures Inv(p, WithReply(p, s, w, outcome))
  {
    var l := s.workers[w];
    var s' := WithReply(p, s, w, outcome);
    HolderEpoch(p, s, w);
    CursorRowFact(p, Core(s.cell), s.h);
    AnswersKeep(p, Core(s.cell), s.nextId, s.h, s'.h);
    ReplyKeeps(p, s, s', w, outcome);
    HearsOk(p, Core(s.cell), s.h, s'.h, l, outcome);
  }

  lemma HearsOk(p: Program, c: Cell, h: History, h': History, l: Worker, outcome: Outcome)
    requires HolderInv(p, c, h, l) && l.pc.Await? && l.pc.row.id in h.starter
    requires h' == h.(replies := h.replies[l.pc.row.id := outcome])
    requires c.ex.cursor < |p.spec.steps| ==>
               RowFact(p, h, c.ex.req, BindingsAtCursor(p, c), p.spec.steps[c.ex.cursor], l.pc.row)
    ensures HolderInv(p, c, h', AfterReply(p, l, l.pc.row, outcome))
  {
    if l.pc.resumed {
      ResumedReplyOk(p, c, h, h', l, outcome);
    } else if outcome.ToolFailed? {
      FailedReplyOk(p, c, h, h', l, outcome);
    } else {
      ReplyOk(p, c, h, h', l, outcome);
    }
  }

  lemma HolderKeeps(p: Program, s: Sys, w: nat, now: int, reply: Reply)
    requires DistinctStepIds(p.spec) && Holds(p, s, w)
    ensures Inv(p, WorkStep(p, s, w, now, reply))
  {
    hide Inv;
    var l := s.workers[w];
    match NextAccess(l)
    case Compute => HolderComputes(p, s, w);
    case ListSteps => HolderLists(p, s, w);
    case PutExecution(_) => RecordAccepted(p, s, w, now, reply); HolderPuts(p, s, w, now);
    case AddRow(_) => RowAccepted(p, s, w, now, reply); HolderAdds(p, s, w);
    case PutRow(_) => RewriteAccepted(p, s, w, now, reply); HolderRewrites(p, s, w);
    case QueryProvider(_) => if reply.ReconReply? { HolderAsks(p, s, w, reply.recon); }
    case CallTool(_) => HolderCalls(p, s, w);
    case AwaitTool(_) => HearAccepted(p, s, w, now, reply); if reply.ToolReply? { HolderHears(p, s, w, reply.outcome); }
    case Halt =>
  }

  /** The invariant is inductive, as long as a recovery reads back the epoch it claimed. */
  lemma NextKeeps(p: Program, s: Sys, a: Action)
    requires DistinctStepIds(p.spec) && Inv(p, s) && ReadsOwnEpoch(s, a)
    ensures Inv(p, Next(p, s, a))
  {
    match a
    case Claim(_, _, _, _) => ClaimKeeps(p, s, a);
    case Renew(_, _, _) => RenewKeeps(p, s, a);
    case Work(w, now, reply) =>
      if w < |s.workers| {
        if s.workers[w].pc.ReadExecution? {
          ReadKeeps(p, s, a);
        } else if w < |s.workers| - 1 || !Open(s.cell.ex.status) {
          OutsiderKeeps(p, s, a);
        } else {
          HolderKeeps(p, s, w, now, reply);
        }
      }
  }

  lemma InitialInv(p: Program, ex: Execution, owner: string)
    requires FreshExecution(ex)
    ensures Inv(p, Initial(ex, owner))
  {
    assert CursorRow(p, 0, []).None?;
  }

  /** Every recovery in the history reads back the epoch its claim returned. */
  ghost predicate OwnEpochs(p: Program, s: Sys, history: seq<Action>) {
    forall i | 0 <= i < |history| :: ReadsOwnEpoch(Exec(p, s, history[..i]), history[i])
  }

  lemma OwnEpochsPrefix(p: Program, s: Sys, history: seq<Action>)
    requires OwnEpochs(p, s, history) && history != []
    ensures OwnEpochs(p, s, history[..|history| - 1])
  {
    var front := history[..|history| - 1];
    forall i | 0 <= i < |front| ensures ReadsOwnEpoch(Exec(p, s, front[..i]), front[i]) {
      assert front[..i] == history[..i];
      assert ReadsOwnEpoch(Exec(p, s, history[..i]), history[i]);
    }
  }

  lemma {:induction false} ExecKeeps(p: Program, s: Sys, history: seq<Action>)
    requires DistinctStepIds(p.spec) && Inv(p, s) && OwnEpochs(p, s, history)
    ensures Inv(p, Exec(p, s, history))
  {
    if history != [] {
      var front := history[..|history| - 1];
      OwnEpochsPrefix(p, s, history);
      ExecKeeps(p, s, front);
      NextKeeps(p, Exec(p, s, front), history[|history| - 1]);
    }
  }
}
