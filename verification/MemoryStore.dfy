/** The in-memory execution store (internal/skillruntime/memory_store.go): maps that every
    method updates in place. Each method is tied to the operation on one execution's Cell. */
module MemoryStore {
  import opened ExecutionLedger
  import Ledger = ExecutionLedger
  import opened Wrappers

  /** Tenant and id, kept apart. */
  type Key = (string, string)

  datatype ApprovalStatus = ApprovalPending | ApprovalApproved | ApprovalRejected

  datatype Approval = Approval(
    tenant: string,
    id: string,
    executionId: string,
    skillId: string,
    status: ApprovalStatus,
    requester: string,
    approvedBy: string,
    reason: string,
    createdAt: int)

  /** A store answer: accepted, refused, or an error. */
  datatype StoreReply<T> = Accepted(value: T) | Refused | NotFound

  function KeyOf(ex: Execution): Key { (ex.req.tenant, ex.req.id) }

  /** A RUNNING execution whose lease is missing or over. */
  predicate LeaseOver(ex: Execution, olderThan: int) {
    ex.status == ExecRunning && (ex.lease.until.None? || ex.lease.until.value < olderThan)
  }

  class MemoryExecutionStore {
    var executions: map<Key, Execution>
    var byIdem: map<Key, string>
    var steps: map<Key, Rows>
    var approvals: map<Key, Approval>

    constructor ()
      ensures executions == map[] && byIdem == map[] && steps == map[] && approvals == map[]
    {
      executions, byIdem, steps, approvals := map[], map[], map[], map[];
    }

    function RowsOf(k: Key): Rows
      reads this`steps
    {
      if k in steps then steps[k] else []
    }

    function CellOf(k: Key): Cell
      requires k in executions
      reads this`executions, this`steps
    {
      Cell(executions[k], RowsOf(k))
    }

    /** Records are kept under their own key, and the idempotency index points at an execution
        that was created under that key. */
    ghost predicate Valid()
      reads this
    {
      && (forall k | k in executions :: KeyOf(executions[k]) == k)
      && (forall k | k in byIdem ::
            && (k.0, byIdem[k]) in executions
            && executions[(k.0, byIdem[k])].req.idempotencyKey == k.1)
    }

    /** Creating under an idempotency key already in use returns the first execution and changes nothing. */
    method CreateExecution(ex0: Execution) returns (r: Option<Execution>)
      requires Valid() && KeyOf(ex0) !in executions
      modifies this`executions, this`byIdem
      ensures Valid()
      ensures r.None? <==> ex0.req.tenant == ""
      ensures r.None? ==> executions == old(executions) && byIdem == old(byIdem)
      ensures r.Some? ==>
                var idem := (ex0.req.tenant, ex0.req.idempotencyKey);
                if ex0.req.idempotencyKey != "" && idem in old(byIdem)
                then
                  && r.value == old(executions)[(ex0.req.tenant, old(byIdem)[idem])]
                  && executions == old(executions) && byIdem == old(byIdem)
                else
                  && r.value == ex0.(epoch := if ex0.epoch == 0 then 1 else ex0.epoch)
                  && executions == old(executions)[KeyOf(ex0) := r.value]
                  && byIdem == if ex0.req.idempotencyKey == "" then old(byIdem) else old(byIdem)[idem := ex0.req.id]
    {
      if ex0.req.tenant == "" {
        return None;
      }
      var ex := ex0;
      if ex.epoch == 0 {
        ex := ex.(epoch := 1);
      }
      if ex.req.idempotencyKey != "" {
        var idem := (ex.req.tenant, ex.req.idempotencyKey);
        if idem in byIdem {
          var existing := (ex.req.tenant, byIdem[idem]);
          if existing in executions {
            return Some(executions[existing]);
          }
        }
        byIdem := byIdem[idem := ex.req.id];
      }
      executions := executions[KeyOf(ex) := ex];
      return Some(ex);
    }

    /** Unfenced, and therefore refused while RUNNING. */
    method UpdateExecution(ex: Execution) returns (r: StoreReply<Execution>)
      modifies this`executions
      ensures var k := KeyOf(ex);
              if k !in old(executions) then r == NotFound && executions == old(executions)
              else if old(executions)[k].status == ExecRunning then r == Refused && executions == old(executions)
              else r == Accepted(ex) && executions == old(executions)[k := ex]
    {
      var k := KeyOf(ex);
      if k !in executions {
        return NotFound;
      }
      if executions[k].status == ExecRunning {
        return Refused;
      }
      executions := executions[k := ex];
      return Accepted(ex);
    }

    method GetExecution(k: Key) returns (r: Option<Execution>)
      ensures r == if k in executions then Some(executions[k]) else None
    {
      if k !in executions {
        return None;
      }
      return Some(executions[k]);
    }

    method GetExecutionByIdempotency(tenant: string, key: string) returns (r: Option<Execution>)
      ensures r.Some? <==> (tenant, key) in byIdem && (tenant, byIdem[(tenant, key)]) in executions
      ensures r.Some? ==> r.value == executions[(tenant, byIdem[(tenant, key)])]
    {
      if (tenant, key) !in byIdem {
        return None;
      }
      var k := (tenant, byIdem[(tenant, key)]);
      if k !in executions {
        return None;
      }
      return Some(executions[k]);
    }

    method ListSteps(k: Key) returns (rows: Rows)
      ensures rows == RowsOf(k)
    {
      rows := if k in steps then steps[k] else [];
    }

    method CreateStepFenced(k: Key, st0: StepExecution, expectedEpoch: nat) returns (r: StoreReply<StepExecution>)
      modifies this`steps
      ensures k !in executions ==> r == NotFound && steps == old(steps)
      ensures k in executions ==>
                match Ledger.CreateStepFenced(old(CellOf(k)), st0, expectedEpoch)
                case Written(cell, row) => r == Accepted(row) && CellOf(k) == cell && steps == old(steps)[k := cell.rows]
                case _ => r == Refused && steps == old(steps)
    {
      if k !in executions {
        return NotFound;
      }
      var ex := executions[k];
      if ex.epoch != expectedEpoch {
        return Refused;
      }
      if ex.status != ExecRunning {
        return Refused;
      }
      var st := st0.(epoch := expectedEpoch);
      if st.attempt == 0 {
        st := st.(attempt := 1);
      }
      steps := steps[k := (if k in steps then steps[k] else []) + [st]];
      return Accepted(st);
    }

    /** The first row with the id is replaced. */
    method UpdateStepFenced(k: Key, st0: StepExecution, expectedEpoch: nat) returns (r: StoreReply<StepExecution>)
      modifies this`steps
      ensures k !in executions ==> r == NotFound && steps == old(steps)
      ensures k in executions ==>
                match Ledger.UpdateStepFenced(old(CellOf(k)), st0, expectedEpoch)
                case Written(cell, row) => r == Accepted(row) && CellOf(k) == cell && steps == old(steps)[k := cell.rows]
                case Fenced => r == Refused && steps == old(steps)
                case Missing => r == NotFound && steps == old(steps)
    {
      if k !in executions {
        return NotFound;
      }
      var ex := executions[k];
      if ex.epoch != expectedEpoch {
        return Refused;
      }
      if ex.status != ExecRunning {
        return Refused;
      }
      var list := if k in steps then steps[k] else [];
      for i := 0 to |list|
        invariant forall j | 0 <= j < i :: list[j].id != st0.id
        invariant steps == old(steps)
      {
        if list[i].id == st0.id {
          FirstRow(list, st0.id, i);
          var st := st0.(epoch := expectedEpoch);
          steps := steps[k := list[i := st]];
          return Accepted(st);
        }
      }
      return NotFound;
    }

    method RenewLease(k: Key, owner: string, expectedEpoch: nat, until: int) returns (r: StoreReply<Execution>)
      modifies this`executions
      ensures k !in old(executions) ==> r == NotFound && executions == old(executions)
      ensures k in old(executions) ==>
                match Ledger.RenewLease(old(CellOf(k)), owner, expectedEpoch, until)
                case Some(cell) => r == Accepted(cell.ex) && executions == old(executions)[k := cell.ex]
                case None => r == Refused && executions == old(executions)
      ensures r.Accepted? <==>
                && k in old(executions) && old(executions)[k].epoch == expectedEpoch
                && (owner == "" || old(executions)[k].lease.owner == "" || old(executions)[k].lease.owner == owner)
      ensures r.Accepted? ==>
                r.value == old(executions)[k].(lease := Lease(if owner == "" then old(executions)[k].lease.owner else owner, Some(until)))
    {
      if k !in executions {
        return NotFound;
      }
      var ex := executions[k];
      if ex.epoch != expectedEpoch {
        return Refused;
      }
      if owner != "" && ex.lease.owner != "" && ex.lease.owner != owner {
        return Refused;
      }
      ex := ex.(lease := ex.lease.(until := Some(until)));
      if owner != "" {
        ex := ex.(lease := ex.lease.(owner := owner));
      }
      executions := executions[k := ex];
      return Accepted(ex);
    }

    method ClaimExecutionLease(k: Key, owner: string, until: int, now: int) returns (r: Option<Execution>)
      modifies this`executions
      ensures k !in old(executions) ==> r == None && executions == old(executions)
      ensures k in old(executions) ==>
                match Ledger.ClaimExecutionLease(old(CellOf(k)), owner, until, now)
                case Some(cell) => r == Some(cell.ex) && executions == old(executions)[k := cell.ex]
                case None => r == None && executions == old(executions)
      ensures r.Some? <==>
                && k in old(executions) && old(executions)[k].status.ExecRunning?
                && var lease := old(executions)[k].lease;
                   lease.until.None? || lease.until.value <= now || lease.owner == owner
      ensures r.Some? ==> r.value == old(executions)[k].(lease := Lease(owner, Some(until)), epoch := old(executions)[k].epoch + 1)
    {
      if k !in executions || executions[k].status != ExecRunning {
        return None;
      }
      var ex := executions[k];
      if ex.lease.until.Some? && ex.lease.until.value > now && ex.lease.owner != owner {
        return None;
      }
      ex := ex.(lease := Lease(owner, Some(until)), epoch := ex.epoch + 1);
      executions := executions[k := ex];
      return Some(ex);
    }

    method UpdateExecutionFenced(ex0: Execution, expectedEpoch: nat) returns (r: StoreReply<Execution>)
      modifies this`executions
      ensures var k := KeyOf(ex0);
              && (k !in old(executions) ==> r == NotFound && executions == old(executions))
              && (k in old(executions) ==>
                    match Ledger.UpdateExecutionFenced(old(CellOf(k)), ex0, expectedEpoch)
                    case Some(cell) => r == Accepted(cell.ex) && executions == old(executions)[k := cell.ex]
                    case None => r == Refused && executions == old(executions))
    {
      var k := KeyOf(ex0);
      if k !in executions {
        return NotFound;
      }
      var cur := executions[k];
      if cur.epoch != expectedEpoch {
        return Refused;
      }
      if cur.status != ExecRunning && cur.status != ExecPending {
        return Refused;
      }
      var ex := ex0.(epoch := expectedEpoch);
      executions := executions[k := ex];
      return Accepted(ex);
    }

    predicate Stale(k: Key, olderThan: int)
      reads this`executions
    {
      k in executions && LeaseOver(executions[k], olderThan)
    }

    /** Distinct stale executions, all of them unless the limit was reached. */
    method ListStaleRunning(olderThan: int, limit0: int) returns (out: seq<Key>)
      ensures forall i | 0 <= i < |out| :: Stale(out[i], olderThan)
      ensures forall i, j | 0 <= i < j < |out| :: out[i] != out[j]
      ensures |out| <= if limit0 <= 0 then 50 else limit0
      ensures |out| < (if limit0 <= 0 then 50 else limit0) ==> forall k | Stale(k, olderThan) :: k in out
    {
      var limit := if limit0 <= 0 then 50 else limit0;
      out := [];
      var left := executions.Keys;
      while left != {}
        invariant left <= executions.Keys
        invariant forall i | 0 <= i < |out| :: out[i] !in left && Stale(out[i], olderThan)
        invariant forall i, j | 0 <= i < j < |out| :: out[i] != out[j]
        invariant forall k | Stale(k, olderThan) && k !in left :: k in out
        invariant |out| < limit
        decreases |left|
      {
        var k :| k in left;
        left := left - {k};
        var ex := executions[k];
        if ex.status != ExecRunning {
          continue;
        }
        if ex.lease.until.Some? && ex.lease.until.value >= olderThan {
          continue;
        }
        out := out + [k];
        if |out| >= limit {
          break;
        }
      }
    }

    method CreateApproval(req: Approval)
      modifies this`approvals
      ensures approvals == if req.tenant == "" then old(approvals) else old(approvals)[(req.tenant, req.id) := req]
    {
      if req.tenant == "" {
        return;
      }
      approvals := approvals[(req.tenant, req.id) := req];
    }

    method UpdateApproval(req: Approval) returns (r: StoreReply<Approval>)
      modifies this`approvals
      ensures if (req.tenant, req.id) !in old(approvals) then r == NotFound && approvals == old(approvals)
              else r == Accepted(req) && approvals == old(approvals)[(req.tenant, req.id) := req]
    {
      if (req.tenant, req.id) !in approvals {
        return NotFound;
      }
      approvals := approvals[(req.tenant, req.id) := req];
      return Accepted(req);
    }

    predicate ApprovalFor(k: Key, tenant: string, executionId: string)
      reads this`approvals
    {
      k in approvals && approvals[k].tenant == tenant && approvals[k].executionId == executionId
    }

    /** The newest approval of the execution. */
    method GetApprovalByExecution(tenant: string, executionId: string) returns (r: Option<Approval>)
      ensures r.None? ==> forall k :: !ApprovalFor(k, tenant, executionId)
      ensures r.Some? ==> (exists k :: ApprovalFor(k, tenant, executionId) && approvals[k] == r.value)
      ensures r.Some? ==> forall k | ApprovalFor(k, tenant, executionId) :: approvals[k].createdAt <= r.value.createdAt
    {
      r := None;
      var left := approvals.Keys;
      while left != {}
        invariant left <= approvals.Keys
        invariant r.None? ==> forall k | ApprovalFor(k, tenant, executionId) :: k in left
        invariant r.Some? ==> exists k :: ApprovalFor(k, tenant, executionId) && approvals[k] == r.value
        invariant r.Some? ==>
          forall k | ApprovalFor(k, tenant, executionId) && k !in left :: approvals[k].createdAt <= r.value.createdAt
        decreases |left|
      {
        var k :| k in left;
        left := left - {k};
        var req := approvals[k];
        if req.tenant == tenant && req.executionId == executionId {
          if r.None? || req.createdAt > r.value.createdAt {
            assert ApprovalFor(k, tenant, executionId);
            r := Some(req);
          }
        }
      }
    }
  }

  lemma FirstRow(rows: Rows, id: nat, i: nat)
    requires i < |rows| && rows[i].id == id && forall j | 0 <= j < i :: rows[j].id != id
    ensures FindRow(rows, id) == i
  {
    var r := FindRow(rows, id);
  }
}
