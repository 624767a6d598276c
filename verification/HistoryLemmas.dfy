/** How the history and the workers' own invariants survive each kind of access. */
module HistoryLemmas {
  import opened ExecutionLedger
  import opened ProtocolInvariant
  import opened RuntimeProtocol
  import opened SkillSpec

  /** The same worker, somewhere outside a tool call. */
  predicate MovesOn(l: Worker, l': Worker) {
    l'.claimed == l.claimed && l'.ex.epoch == l.ex.epoch && !InFlight(l') && !l'.pc.ReadExecution?
  }

  lemma LoopHeadMovesOn(p: Program, l: Worker, attempt: nat)
    ensures MovesOn(l, LoopHead(p, l, attempt)) && LoopHead(p, l, attempt).ex == l.ex
  {
  }

  lemma ListMovesOn(p: Program, l: Worker, rows: Rows)
    ensures MovesOn(l, AfterList(p, l, rows)) && AfterList(p, l, rows).ex == l.ex
  {
    if l.pc.Load? {
      LoopHeadMovesOn(p, Loaded(p, l, rows, l.pc.attempt), l.pc.attempt);
    }
  }

  lemma ComputeMovesOn(p: Program, l: Worker)
    requires l.pc.Relabel?
    ensures MovesOn(l, AfterCompute(p, l)) && AfterCompute(p, l).ex == l.ex
  {
  }

  lemma AddMovesOn(p: Program, l: Worker, row: StepExecution)
    requires NextAccess(l).AddRow?
    ensures MovesOn(l, AfterAddRow(p, l, row)) && AfterAddRow(p, l, row).ex == l.ex
  {
  }

  lemma PutRowMovesOn(p: Program, l: Worker, row: StepExecution)
    requires NextAccess(l).PutRow? && !l.pc.Start?
    ensures MovesOn(l, AfterPutRow(p, l, row)) && AfterPutRow(p, l, row).ex == l.ex
  {
  }

  lemma ReplyMovesOn(p: Program, l: Worker, row: StepExecution, outcome: Outcome)
    ensures MovesOn(l, AfterReply(p, l, row, outcome)) && AfterReply(p, l, row, outcome).ex == l.ex
  {
  }

  /** History and ledger as seen by the workers only grew; no row got other call data. */
  ghost predicate Compatible(h: History, rows: Rows, h': History, rows': Rows) {
    && (forall id | id in h.starter :: id in h'.starter && h'.starter[id] == h.starter[id])
    && h'.calls == h.calls
    && h'.replies == h.replies
    && (forall call: Call | call.rowId in h.starter && SameCall(rows, call) :: SameCall(rows', call))
  }

  lemma CalledFrame(h: History, h': History)
    requires h'.calls == h.calls
    ensures forall id :: Called(h', id) <==> Called(h, id)
  {
    forall id ensures Called(h', id) <==> Called(h, id) {
      if Called(h, id) {
        var i :| 0 <= i < |h.calls| && h.calls[i].rowId == id;
        assert h'.calls[i].rowId == id;
      }
      if Called(h', id) {
        var i :| 0 <= i < |h'.calls| && h'.calls[i].rowId == id;
        assert h.calls[i].rowId == id;
      }
    }
  }

  lemma WorkerFrame(h: History, rows: Rows, h': History, rows': Rows, w: nat, l: Worker)
    requires WorkerInv(h, rows, w, l) && Compatible(h, rows, h', rows')
    ensures WorkerInv(h', rows', w, l)
  {
    CalledFrame(h, h');
  }

  lemma CallsFrame(h: History, rows: Rows, h': History, rows': Rows)
    requires CallsInv(h, rows) && Compatible(h, rows, h', rows')
    ensures CallsInv(h', rows')
  {
    CalledFrame(h, h');
    forall i | 0 <= i < |h'.calls| ensures h'.calls[i].rowId in h'.starter && SameCall(rows', h'.calls[i]) {
      assert h.calls[i].rowId in h.starter && SameCall(rows, h.calls[i]);
    }
  }

  /** An access of worker w that makes no call: w moves on, the others see a compatible system. */
  lemma AccessKeeps(s: Sys, s': Sys, w: nat)
    requires HistoryInv(s) && w < |s.workers|
    requires s'.cell.ex.epoch == s.cell.ex.epoch
    requires |s'.workers| == |s.workers| && s'.workers == s.workers[w := s'.workers[w]]
    requires Compatible(s.h, s.cell.rows, s'.h, s'.cell.rows)
    requires StartsInv(s'.h, s'.nextId)
    requires WorkerInv(s'.h, s'.cell.rows, w, s'.workers[w])
    ensures HistoryInv(s')
  {
    CallsFrame(s.h, s.cell.rows, s'.h, s'.cell.rows);
    forall v | 0 <= v < |s'.workers| ensures WorkerInv(s'.h, s'.cell.rows, v, s'.workers[v]) {
      if v != w {
        WorkerFrame(s.h, s.cell.rows, s'.h, s'.cell.rows, v, s.workers[v]);
      }
    }
  }

  lemma CallKeeps(s: Sys, s': Sys, w: nat)
    requires HistoryInv(s) && w < |s.workers| && s.workers[w].pc.Invoke?
    requires var row := s.workers[w].pc.row;
             s' == s.(h := s.h.(calls := s.h.calls + [Call(row.id, row.tool, row.input, row.opKey)]),
                      workers := s.workers[w := s.workers[w].(pc := Await(row, s.workers[w].pc.resumed))])
    ensures HistoryInv(s')
  {
    var row := s.workers[w].pc.row;
    var h, h' := s.h, s'.h;
    assert WorkerInv(h, s.cell.rows, w, s.workers[w]);
    forall id ensures Called(h', id) <==> (Called(h, id) || id == row.id) {
      if Called(h, id) {
        var i :| 0 <= i < |h.calls| && h.calls[i].rowId == id;
        assert h'.calls[i].rowId == id;
      }
      assert h'.calls[|h.calls|].rowId == row.id;
      if Called(h', id) && id != row.id {
        var i :| 0 <= i < |h'.calls| && h'.calls[i].rowId == id;
        assert h.calls[i].rowId == id;
      }
    }
    forall i, j | 0 <= i < j < |h'.calls| ensures h'.calls[i].rowId != h'.calls[j].rowId {
      if j == |h.calls| {
        assert !Called(h, row.id);
      }
    }
    forall v | 0 <= v < |s'.workers| ensures WorkerInv(h', s.cell.rows, v, s'.workers[v]) {
      assert WorkerInv(h, s.cell.rows, v, s.workers[v]);
    }
  }

  lemma ReplyKeeps(p: Program, s: Sys, s': Sys, w: nat, outcome: Outcome)
    requires HistoryInv(s) && w < |s.workers| && s.workers[w].pc.Await?
    requires var row := s.workers[w].pc.row;
             s' == s.(h := s.h.(replies := s.h.replies[row.id := outcome]),
                      workers := s.workers[w := AfterReply(p, s.workers[w], row, outcome)])
    ensures HistoryInv(s')
  {
    var l := s.workers[w];
    ReplyMovesOn(p, l, l.pc.row, outcome);
    assert WorkerInv(s.h, s.cell.rows, w, l);
    CalledFrame(s.h, s'.h);
    forall v | 0 <= v < |s'.workers| ensures WorkerInv(s'.h, s'.cell.rows, v, s'.workers[v]) {
      assert WorkerInv(s.h, s.cell.rows, v, s.workers[v]);
    }
  }

  lemma AskKeeps(s: Sys, s': Sys, w: nat, answer: Recon)
    requires HistoryInv(s) && w < |s.workers| && s.workers[w].pc.AskReconcile?
    requires var l := s.workers[w];
             s' == s.(h := s.h.(recons := s.h.recons + [(l.pc.row.id, answer)]),
                      workers := s.workers[w := l.(pc := Reconciled(l, l.pc.row, answer))])
    ensures HistoryInv(s')
  {
    assert WorkerInv(s.h, s.cell.rows, w, s.workers[w]);
    AccessKeeps(s, s', w);
  }

  lemma AppendCompatible(h: History, nextId: nat, rows: Rows, row: StepExecution)
    requires StartsInv(h, nextId) && row.id == nextId
    ensures Compatible(h, rows, h, rows + [row])
  {
    forall call: Call | call.rowId in h.starter && SameCall(rows, call) ensures SameCall(rows + [row], call) {
      assert call.rowId != nextId;
    }
  }

  lemma RewriteCompatible(h: History, h': History, rows: Rows, j: nat, row: StepExecution)
    requires j < |rows|
    requires row.id == rows[j].id && row.tool == rows[j].tool && row.input == rows[j].input && row.opKey == rows[j].opKey
    requires forall id | id in h.starter :: id in h'.starter && h'.starter[id] == h.starter[id]
    requires h'.calls == h.calls && h'.replies == h.replies
    ensures Compatible(h, rows, h', rows[j := row])
  {
    forall call: Call | call.rowId in h.starter && SameCall(rows, call) ensures SameCall(rows[j := row], call) {
    }
  }
}
