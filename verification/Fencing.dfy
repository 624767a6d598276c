/** Fencing over whole runs of the store: any sequence of claims, renewals and fenced writes by
    any callers with any arguments, whether or not they follow the runtime's protocol
    (internal/skillruntime/memory_store.go). */
module Fencing {
  import opened ExecutionLedger
  import opened Wrappers

  datatype StoreOp =
    | ClaimOp(owner: string, until: int, now: int)
    | RenewOp(owner: string, epoch: nat, until: int)
    | WriteExecution(ex: Execution, epoch: nat)
    | CreateStep(st: StepExecution, epoch: nat)
    | UpdateStep(st: StepExecution, epoch: nat)

  /** The cell after the operation, if the store accepted it. */
  function Attempt(c: Cell, op: StoreOp): Option<Cell> {
    match op
    case ClaimOp(owner, until, now) => ClaimExecutionLease(c, owner, until, now)
    case RenewOp(owner, epoch, until) => RenewLease(c, owner, epoch, until)
    case WriteExecution(ex, epoch) => UpdateExecutionFenced(c, ex, epoch)
    case CreateStep(st, epoch) =>
      var w := CreateStepFenced(c, st, epoch);
      if w.Written? then Some(w.cell) else None
    case UpdateStep(st, epoch) =>
      var w := UpdateStepFenced(c, st, epoch);
      if w.Written? then Some(w.cell) else None
  }

  function Apply(c: Cell, op: StoreOp): Cell {
    var r := Attempt(c, op);
    if r.Some? then r.value else c
  }

  function Run(c: Cell, ops: seq<StoreOp>): Cell {
    if ops == [] then c else Apply(Run(c, ops[..|ops| - 1]), ops[|ops| - 1])
  }

  predicate IsWrite(op: StoreOp) { op.WriteExecution? || op.CreateStep? || op.UpdateStep? }

  /** The i-th operation of the run was accepted. */
  predicate Accepted(c: Cell, ops: seq<StoreOp>, i: nat)
    requires i < |ops|
  {
    Attempt(Run(c, ops[..i]), ops[i]).Some?
  }

  /** The epochs of the accepted fenced writes, in order. */
  function WriteLog(c: Cell, ops: seq<StoreOp>): seq<nat> {
    if ops == [] then []
    else
      var i := |ops| - 1;
      var front := WriteLog(c, ops[..i]);
      if IsWrite(ops[i]) && Accepted(c, ops, i) then front + [ops[i].epoch] else front
  }

  predicate Sorted(s: seq<nat>) {
    forall i, j | 0 <= i < j < |s| :: s[i] <= s[j]
  }

  /** The lease fields apart, what a reader of the execution sees. */
  predicate SameContent(c: Cell, c': Cell) {
    c'.rows == c.rows && c'.ex == c.ex.(lease := c'.ex.lease, epoch := c'.ex.epoch)
  }

  // ---------------------------------------------------------------- one operation

  lemma EpochStep(c: Cell, op: StoreOp)
    ensures Apply(c, op).ex.epoch == c.ex.epoch + if op.ClaimOp? && Attempt(c, op).Some? then 1 else 0
    ensures IsWrite(op) && Attempt(c, op).Some? ==> op.epoch == c.ex.epoch
  {
  }

  /** No row was written under an epoch the execution has not reached. */
  predicate RowsFenced(c: Cell) {
    forall j | 0 <= j < |c.rows| :: c.rows[j].epoch <= c.ex.epoch
  }

  lemma RowEpochStep(c: Cell, op: StoreOp)
    requires RowsFenced(c)
    ensures RowsFenced(Apply(c, op))
  {
  }

  lemma ClosedStep(c: Cell, op: StoreOp)
    requires !Open(c.ex.status)
    ensures SameContent(c, Apply(c, op)) && (IsWrite(op) || op.ClaimOp? ==> Attempt(c, op).None?)
  {
  }

  // ---------------------------------------------------------------- whole runs

  lemma {:induction false} RunPrefix(c: Cell, ops: seq<StoreOp>, i: nat)
    requires i <= |ops|
    ensures Run(c, ops).ex.epoch >= Run(c, ops[..i]).ex.epoch
  {
    if i == |ops| {
      assert ops[..i] == ops;
    } else {
      var front := ops[..|ops| - 1];
      RunPrefix(c, front, i);
      assert front[..i] == ops[..i];
      EpochStep(Run(c, front), ops[|ops| - 1]);
    }
  }

  /** A successful claim returns an epoch larger than any the execution had before. */
  lemma ClaimReturnsLargerEpoch(c: Cell, ops: seq<StoreOp>, i: nat, k: nat)
    requires i < |ops| && ops[i].ClaimOp? && Accepted(c, ops, i) && k <= i
    ensures Run(c, ops[..i + 1]).ex.epoch > Run(c, ops[..k]).ex.epoch
  {
    RunPrefix(c, ops[..i], k);
    assert ops[..i][..k] == ops[..k];
    assert ops[..i + 1][..i] == ops[..i];
    EpochStep(Run(c, ops[..i]), ops[i]);
  }

  /** The epochs of accepted writes never decrease, and the last one is at most the current one. */
  lemma {:induction false} AcceptedWritesAreOrdered(c: Cell, ops: seq<StoreOp>)
    ensures Sorted(WriteLog(c, ops))
    ensures forall i | 0 <= i < |WriteLog(c, ops)| :: WriteLog(c, ops)[i] <= Run(c, ops).ex.epoch
  {
    if ops != [] {
      var i := |ops| - 1;
      AcceptedWritesAreOrdered(c, ops[..i]);
      EpochStep(Run(c, ops[..i]), ops[i]);
    }
  }

  /** Once somebody else claimed the execution, no write of an earlier holder is accepted. */
  lemma StaleWritesAreRejected(c: Cell, ops: seq<StoreOp>, i: nat, j: nat)
    requires i < j < |ops| && ops[i].ClaimOp? && Accepted(c, ops, i)
    requires IsWrite(ops[j]) && ops[j].epoch <= Run(c, ops[..i]).ex.epoch
    ensures !Accepted(c, ops, j)
  {
    ClaimReturnsLargerEpoch(c, ops, i, i);
    RunPrefix(c, ops[..j], i + 1);
    assert ops[..j][..i + 1] == ops[..i + 1];
    EpochStep(Run(c, ops[..j]), ops[j]);
  }

  lemma {:induction false} RowEpochsAreBounded(c: Cell, ops: seq<StoreOp>)
    requires RowsFenced(c)
    ensures RowsFenced(Run(c, ops))
  {
    if ops != [] {
      RowEpochsAreBounded(c, ops[..|ops| - 1]);
      RowEpochStep(Run(c, ops[..|ops| - 1]), ops[|ops| - 1]);
    }
  }

  /** Once a write left RUNNING and PENDING, no operation changes the status, the cursor, the
      outputs or the rows again, and no claim or fenced write is ever accepted. */
  lemma {:induction false} ClosedForGood(c: Cell, ops: seq<StoreOp>, i: nat)
    requires i <= |ops| && !Open(Run(c, ops[..i]).ex.status)
    ensures SameContent(Run(c, ops[..i]), Run(c, ops))
    ensures forall k | i <= k < |ops| && (IsWrite(ops[k]) || ops[k].ClaimOp?) :: !Accepted(c, ops, k)
  {
    if i == |ops| {
      assert ops[..i] == ops;
    } else {
      var n := |ops| - 1;
      var front := ops[..n];
      assert front[..i] == ops[..i];
      ClosedForGood(c, front, i);
      ClosedStep(Run(c, front), ops[n]);
      forall k | i <= k < |ops| && (IsWrite(ops[k]) || ops[k].ClaimOp?)
        ensures !Accepted(c, ops, k)
      {
        if k < n {
          assert front[..k] == ops[..k];
          assert !Accepted(c, front, k);
        }
      }
    }
  }

  /** While it is open, a write is accepted exactly if it carries the current epoch; rows also
      need the execution to be RUNNING, and a rewrite needs the row to exist. */
  lemma AcceptedIff(c: Cell, op: StoreOp)
    requires IsWrite(op)
    ensures Attempt(c, op).Some? <==>
            && op.epoch == c.ex.epoch
            && (if op.WriteExecution? then Open(c.ex.status) else c.ex.status == ExecRunning)
            && (op.UpdateStep? ==> exists j :: 0 <= j < |c.rows| && c.rows[j].id == op.st.id)
  {
    if op.UpdateStep? {
      var j := FindRow(c.rows, op.st.id);
    }
  }

  // ---------------------------------------------------------------- what the lease is worth

  /** A claim is accepted exactly while the execution is RUNNING and its lease is missing, over, or the
      claimant's own; it takes the lease under the next epoch and changes nothing else. */
  lemma ClaimAcceptedIff(c: Cell, owner: string, until: int, now: int)
    ensures var r := Attempt(c, ClaimOp(owner, until, now));
            && (r.Some? <==>
                  && c.ex.status.ExecRunning?
                  && (c.ex.lease.until.None? || c.ex.lease.until.value <= now || c.ex.lease.owner == owner))
            && (r.Some? ==> r.value == c.(ex := c.ex.(lease := Lease(owner, Some(until)), epoch := c.ex.epoch + 1)))
  {
  }

  /** A renewal is accepted exactly under the current epoch, by the lease's owner, by nobody in
      particular, or when nobody owns it; it sets the new end, and the owner if it names one. */
  lemma RenewalAcceptedIff(c: Cell, owner: string, epoch: nat, until: int)
    ensures var r := Attempt(c, RenewOp(owner, epoch, until));
            && (r.Some? <==> epoch == c.ex.epoch && (owner == "" || c.ex.lease.owner == "" || c.ex.lease.owner == owner))
            && (r.Some? ==>
                  && r.value == c.(ex := c.ex.(lease := r.value.ex.lease))
                  && r.value.ex.lease.until == Some(until)
                  && r.value.ex.lease.owner == if owner == "" then c.ex.lease.owner else owner)
  {
  }

  /** Operations that write the lease. */
  predicate SetsLease(op: StoreOp) { op.ClaimOp? || op.RenewOp? || op.WriteExecution? }

  /** No accepted operation from the i-th on wrote the lease. */
  predicate LeaseUnset(c: Cell, ops: seq<StoreOp>, i: nat) {
    forall k | i <= k < |ops| && SetsLease(ops[k]) :: !Accepted(c, ops, k)
  }

  lemma OtherOpsLeaveLease(c: Cell, op: StoreOp)
    requires SetsLease(op) ==> Attempt(c, op).None?
    ensures Apply(c, op).ex.lease == c.ex.lease
  {
  }

  /** The lease is what the last accepted operation that writes it left. */
  lemma {:induction false} LeaseStays(c: Cell, ops: seq<StoreOp>, i: nat)
    requires i <= |ops| && LeaseUnset(c, ops, i)
    ensures Run(c, ops).ex.lease == Run(c, ops[..i]).ex.lease
  {
    if i == |ops| {
      assert ops[..i] == ops;
    } else {
      var n := |ops| - 1;
      var front := ops[..n];
      assert front[..i] == ops[..i];
      forall k | i <= k < |front| && SetsLease(front[k]) ensures !Accepted(c, front, k) {
        assert front[..k] == ops[..k];
        assert !Accepted(c, ops, k);
      }
      LeaseStays(c, front, i);
      OtherOpsLeaveLease(Run(c, front), ops[n]);
    }
  }

  /** A lease keeps others out: if the last accepted operation that wrote the lease is a claim or a
      renewal, then a claim is accepted later only at or after the end it set, or for the owner that
      the lease then has: the claimant, the one the renewal names, or the one it found. */
  lemma LeaseKeepsOthersOut(c: Cell, ops: seq<StoreOp>, i: nat, j: nat)
    requires i < j < |ops| && Accepted(c, ops, i) && (ops[i].ClaimOp? || ops[i].RenewOp?)
    requires LeaseUnset(c, ops[..j], i + 1)
    requires ops[j].ClaimOp? && Accepted(c, ops, j)
    ensures || ops[j].now >= ops[i].until
            || ops[j].owner == if ops[i].owner == "" && ops[i].RenewOp? then Run(c, ops[..i]).ex.lease.owner else ops[i].owner
  {
    LeaseStays(c, ops[..j], i + 1);
    assert ops[..j][..i + 1] == ops[..i + 1];
    assert ops[..i + 1][..i] == ops[..i];
    if ops[i].ClaimOp? {
      ClaimAcceptedIff(Run(c, ops[..i]), ops[i].owner, ops[i].until, ops[i].now);
    } else {
      RenewalAcceptedIff(Run(c, ops[..i]), ops[i].owner, ops[i].epoch, ops[i].until);
    }
    ClaimAcceptedIff(Run(c, ops[..j]), ops[j].owner, ops[j].until, ops[j].now);
  }
}
