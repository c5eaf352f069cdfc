/**
 The database as the services see it: mutable tables, one method per SQL statement, and the
 commit-or-rollback scope. Any statement may fail on its own; `faults` counts those failures.
 */
module Store {
  import opened Results
  import opened Tables
  import opened TransactionState
  import opened LockOrder
  import T = Tables

  lemma SelectedMore(db: Db, rows: seq<Selected>, status: Status, id: Uuid)
    requires Selection(db, rows, status) && id in db.payouts && db.payouts[id].status == status
    requires forall i | 0 <= i < |rows| :: rows[i].id != id
    ensures Selection(db, rows + [Selected(id, db.payouts[id])], status)
    ensures forall p :: Lists(rows + [Selected(id, db.payouts[id])], p) <==> p == id || Lists(rows, p)
  {
    var more := rows + [Selected(id, db.payouts[id])];
    assert more[|rows|].id == id;
    forall p | Lists(rows, p) ensures Lists(more, p) {
      var i :| 0 <= i < |rows| && rows[i].id == p;
      assert more[i].id == p;
    }
  }

  class Queries {
    var accounts: map<Uuid, Account>
    var txs: map<Uuid, Tx>
    var payouts: map<Uuid, Payout>
    var entries: seq<Entry>
    var audit: seq<Audit>
    ghost var faults: nat
    ghost var held: seq<Lock>    // the locks taken since the transaction began, in that order

    constructor (db: Db)
      ensures Snapshot() == db && faults == 0 && held == []
    {
      held := [];
      accounts, txs, payouts, entries, audit := db.accounts, db.txs, db.payouts, db.entries, db.audit;
      faults := 0;
    }

    function Snapshot(): Db
      reads this
    {
      Db(accounts, txs, payouts, entries, audit)
    }

    /** The outcome of running `spec` inside an open transaction: its database on success; its own
        error, or a fault that really happened, on failure. */
    twostate predicate Ran(new spec: Result<Db>, new r: Result<()>)
      reads this
    {
      if r.Ok? then spec == Ok(Snapshot()) && faults == old(faults)
      else if r.error == Fault then faults > old(faults)
      else spec == Err(r.error) && faults == old(faults)
    }

    /** The outcome of a whole transaction or a single statement: on failure nothing has changed. */
    twostate predicate Committed(new spec: Result<Db>, new r: Result<()>)
      reads this
    {
      Ran(spec, r) && (r.Err? ==> Snapshot() == old(Snapshot()))
    }

    method Trip() returns (fault: bool)
      modifies this`faults
      ensures faults == old(faults) + (if fault then 1 else 0)
    {
      if * {
        faults := faults + 1;
        fault := true;
      } else {
        fault := false;
      }
    }

    /** A statement that locks `l` if `there`, and fails by a fault only before it does. */
    twostate predicate Locked(new l: Lock, new there: bool, new faulted: bool)
      reads this
    {
      if there && !faulted && l !in old(held) then held == old(held) + [l] else held == old(held)
    }

    ghost method Acquire(l: Lock)
      modifies this`held
      ensures held == Grab(old(held), l)
    {
      held := Grab(held, l);
    }

    // ---- transaction scope ----

    method BeginTx() returns (before: Db)
      modifies this`held
      ensures before == Snapshot() && held == []
    {
      before := Snapshot();
      held := [];
    }

    /** Ends a transaction begun at `before`: commits when the body succeeded and the commit itself
        does not fail, and otherwise rolls back. */
    method EndTx(before: Db, body: Result<()>) returns (r: Result<()>)
      modifies this
      ensures r.Ok? <==> body.Ok? && faults == old(faults)
      ensures r.Ok? ==> Snapshot() == old(Snapshot())
      ensures r.Err? ==> Snapshot() == before && r.error == (if body.Err? then body.error else Fault)
      ensures faults == old(faults) + (if body.Ok? && r.Err? then 1 else 0) && held == []
    {
      held := [];
      r := body;
      if body.Ok? {
        var fault := Trip();
        if fault {
          r := Err(Fault);
        }
      }
      if r.Err? {
        accounts, txs, payouts := before.accounts, before.txs, before.payouts;
        entries, audit := before.entries, before.audit;
      }
    }

    // ---- statements ----

    method ReadAccount(id: Uuid) returns (r: Result<Account>)
      modifies this`faults
      ensures r.Err? && r.error == Fault ==> faults > old(faults)
      ensures !(r.Err? && r.error == Fault) ==> r == T.GetAccount(Snapshot(), id) && faults == old(faults)
    {
      var fault := Trip();
      if fault {
        return Err(Fault);
      }
      r := if id in accounts then Ok(accounts[id]) else Err(NotFound);
    }

    /** Reads an account row and locks it until the transaction ends. */
    method LockAccount(id: Uuid) returns (r: Result<Account>)
      modifies this`faults, this`held
      ensures r.Err? && r.error == Fault ==> faults > old(faults)
      ensures !(r.Err? && r.error == Fault) ==> r == T.GetAccount(Snapshot(), id) && faults == old(faults)
      ensures Locked(AccountLock(id), id in accounts, r == Err(Fault))
    {
      var fault := Trip();
      if fault {
        return Err(Fault);
      }
      if id !in accounts {
        return Err(NotFound);
      }
      Acquire(AccountLock(id));
      r := Ok(accounts[id]);
    }

    method UpdateAccountBalance(id: Uuid, delta: int) returns (r: Result<()>)
      modifies this
      ensures Committed(T.UpdateAccountBalance(old(Snapshot()), id, delta), r)
      ensures Locked(AccountLock(id), id in old(accounts), r == Err(Fault))
    {
      var fault := Trip();
      if fault {
        return Err(Fault);
      }
      if id !in accounts {
        return Err(UnexpectedRows);
      }
      Acquire(AccountLock(id));
      accounts := accounts[id := accounts[id].(balance := accounts[id].balance + delta)];
      r := Ok(());
    }

    method LockAccountFunds(id: Uuid, amount: int) returns (r: Result<()>)
      modifies this
      ensures Committed(T.LockFunds(old(Snapshot()), id, amount), r)
      ensures Locked(AccountLock(id), id in old(accounts), r == Err(Fault))
    {
      var fault := Trip();
      if fault {
        return Err(Fault);
      }
      if id !in accounts {
        return Err(UnexpectedRows);
      }
      Acquire(AccountLock(id));
      if accounts[id].locked + amount < 0 {
        return Err(CheckViolation);
      }
      accounts := accounts[id := accounts[id].(locked := accounts[id].locked + amount)];
      r := Ok(());
    }

    method ReleaseAccountFunds(id: Uuid, amount: int) returns (r: Result<()>)
      modifies this
      ensures Committed(T.ReleaseFunds(old(Snapshot()), id, amount), r)
      ensures Locked(AccountLock(id), id in old(accounts), r == Err(Fault))
    {
      var fault := Trip();
      if fault {
        return Err(Fault);
      }
      if id !in accounts {
        return Err(UnexpectedRows);
      }
      Acquire(AccountLock(id));
      if accounts[id].locked - amount < 0 {
        return Err(CheckViolation);
      }
      accounts := accounts[id := accounts[id].(locked := accounts[id].locked - amount)];
      r := Ok(());
    }

    method ReleaseAccountFundsSafe(id: Uuid, amount: int) returns (r: Result<()>)
      modifies this
      ensures Committed(Ok(T.ReleaseFundsSafe(old(Snapshot()), id, amount)), r)
      ensures Locked(AccountLock(id), id in old(accounts) && old(accounts)[id].locked >= amount, r == Err(Fault))
    {
      var fault := Trip();
      if fault {
        return Err(Fault);
      }
      if id in accounts && accounts[id].locked >= amount {
        Acquire(AccountLock(id));
        accounts := accounts[id := accounts[id].(locked := accounts[id].locked - amount)];
      }
      r := Ok(());
    }

    method DeductLockedFunds(id: Uuid, amount: int) returns (r: Result<()>)
      modifies this
      ensures Committed(T.DeductLockedFunds(old(Snapshot()), id, amount), r)
      ensures Locked(AccountLock(id), id in old(accounts), r == Err(Fault))
    {
      var fault := Trip();
      if fault {
        return Err(Fault);
      }
      if id !in accounts {
        return Err(UnexpectedRows);
      }
      Acquire(AccountLock(id));
      var a := accounts[id];
      if a.locked - amount < 0 {
        return Err(CheckViolation);
      }
      accounts := accounts[id := a.(locked := a.locked - amount, balance := a.balance - amount)];
      r := Ok(());
    }

    method CreateTransaction(id: Uuid, tx: Tx) returns (r: Result<()>)
      modifies this
      ensures Committed(T.CreateTransaction(old(Snapshot()), id, tx), r)
      ensures Locked(ReferenceLock(tx.reference), r.Ok?, r == Err(Fault))
    {
      var fault := Trip();
      if fault {
        return Err(Fault);
      }
      if id in txs || exists t | t in txs :: txs[t].reference == tx.reference {
        return Err(UniqueViolation);
      }
      if tx.amount <= 0 || !Supported(tx.currency) {
        return Err(CheckViolation);
      }
      Acquire(ReferenceLock(tx.reference));
      txs := txs[id := tx];
      r := Ok(());
    }

    method CreateEntry(e: Entry) returns (r: Result<()>)
      modifies this
      ensures Committed(T.CreateEntry(old(Snapshot()), e), r)
      ensures held == old(held)
    {
      var fault := Trip();
      if fault {
        return Err(Fault);
      }
      if e.tx !in txs || e.account !in accounts || e.amount <= 0 {
        return Err(CheckViolation);
      }
      entries := entries + [e];
      r := Ok(());
    }

    method UpdateTransactionStatus(id: Uuid, status: Status) returns (r: Result<()>)
      modifies this
      ensures Committed(T.UpdateTransactionStatus(old(Snapshot()), id, status), r)
      ensures held == old(held)
    {
      var fault := Trip();
      if fault {
        return Err(Fault);
      }
      if id !in txs {
        return Err(UnexpectedRows);
      }
      if status.ManualReview? {
        return Err(CheckViolation);
      }
      txs := txs[id := txs[id].(status := status)];
      r := Ok(());
    }

    method UpdateTransactionMeta(id: Uuid, meta: Meta) returns (r: Result<()>)
      modifies this
      ensures Committed(T.UpdateTransactionMeta(old(Snapshot()), id, meta), r)
      ensures held == old(held)
    {
      var fault := Trip();
      if fault {
        return Err(Fault);
      }
      if id !in txs {
        return Err(UnexpectedRows);
      }
      txs := txs[id := txs[id].(meta := meta)];
      r := Ok(());
    }

    method WriteAudit(row: Audit) returns (r: Result<()>)
      modifies this
      ensures Committed(Ok(T.WriteAudit(old(Snapshot()), row)), r)
      ensures held == old(held)
    {
      var fault := Trip();
      if fault {
        return Err(Fault);
      }
      audit := audit + [row];
      r := Ok(());
    }

    method InsertPayout(id: Uuid, p: Payout) returns (r: Result<()>)
      modifies this
      ensures Committed(T.InsertPayout(old(Snapshot()), id, p), r)
      ensures held == old(held)
    {
      var fault := Trip();
      if fault {
        return Err(Fault);
      }
      if id in payouts {
        return Err(UniqueViolation);
      }
      if p.tx !in txs || p.account !in accounts || p.amount <= 0 || !Supported(p.currency) || p.status.Reversed? {
        return Err(CheckViolation);
      }
      payouts := payouts[id := p];
      r := Ok(());
    }

    method UpdatePayoutStatus(id: Uuid, status: Status, gatewayRef: Option<string>) returns (r: Result<()>)
      modifies this
      ensures Committed(T.UpdatePayoutStatus(old(Snapshot()), id, status, gatewayRef), r)
      ensures held == old(held)
    {
      var fault := Trip();
      if fault {
        return Err(Fault);
      }
      if id !in payouts {
        return Err(UnexpectedRows);
      }
      if status.Reversed? {
        return Err(CheckViolation);
      }
      payouts := payouts[id := payouts[id].(status := status, gatewayRef := gatewayRef)];
      r := Ok(());
    }

    /** Selects payouts with a status, passing over the given ones (locked by others, or too recent): all that
        are left, or as many as the limit allows. */
    method SelectPayouts(status: Status, limit: int, passed: set<Uuid>) returns (r: Result<seq<Selected>>)
      modifies this`faults
      ensures r.Ok? ==> Selection(Snapshot(), r.value, status) && |r.value| <= limit && faults == old(faults)
      ensures r.Ok? ==> forall i | 0 <= i < |r.value| :: r.value[i].id !in passed
      ensures r.Ok? && |r.value| < limit ==>
                forall p | p in payouts && payouts[p].status == status :: p in passed || Lists(r.value, p)
      ensures r.Err? ==> r.error == Fault && faults > old(faults)
    {
      var fault := Trip();
      if fault {
        return Err(Fault);
      }
      if limit < 0 {
        faults := faults + 1;
        return Err(Fault);
      }
      var rows: seq<Selected> := [];
      var open := payouts;
      while |rows| < limit
        invariant |rows| <= limit && Selection(Snapshot(), rows, status) && faults == old(faults)
        invariant forall i | 0 <= i < |rows| :: rows[i].id !in passed
        invariant forall p | p in payouts && payouts[p].status == status :: p in open || p in passed || Lists(rows, p)
        invariant forall id | id in open ::
                    id in payouts && open[id] == payouts[id] && forall i | 0 <= i < |rows| :: rows[i].id != id
        decreases |open|
      {
        if id :| id in open && open[id].status == status {
          if id !in passed {
            SelectedMore(Snapshot(), rows, status, id);
            rows := rows + [Selected(id, open[id])];
          }
          open := open - {id};
        } else {
          break;
        }
      }
      r := Ok(rows);
    }

    /** Reads the current status under a row lock, checks the move, writes it and its audit row. */
    method TransitionState(id: Uuid, next: Status, action: Action) returns (r: Result<()>)
      modifies this
      ensures Ran(Transition(old(Snapshot()), id, next, action), r)
      ensures held == old(held)
    {
      var fault := Trip();
      if fault {
        return Err(Fault);
      }
      if id !in txs {
        return Err(NotFound);
      }
      var current := txs[id].status;
      if current == next {
        return Ok(());
      }
      if !CanTransition(current, next) {
        return Err(InvalidTransition);
      }
      r := MoveStatus(id, current, next, action);
    }

    method MoveStatus(id: Uuid, current: Status, next: Status, action: Action) returns (r: Result<()>)
      requires id in txs && txs[id].status == current && current != next && CanTransition(current, next)
      modifies this
      ensures Ran(Transition(old(Snapshot()), id, next, action), r)
      ensures held == old(held)
    {
      var _ :- UpdateTransactionStatus(id, next);
      r := WriteAudit(Audit(id, action, Some(current), next));
    }

    /** Looks a transaction up by its unique reference. */
    method FindReference(reference: string) returns (r: Result<(Uuid, Tx)>)
      modifies this`faults
      ensures r.Ok? ==>
                r.value.0 in txs && txs[r.value.0] == r.value.1 && r.value.1.reference == reference &&
                faults == old(faults)
      ensures r.Err? ==> (r.error == Fault && faults > old(faults)) ||
                         (r.error == NotFound && !ReferenceTaken(Snapshot(), reference) && faults == old(faults))
    {
      var fault := Trip();
      if fault {
        return Err(Fault);
      }
      if t :| t in txs && txs[t].reference == reference {
        r := Ok((t, txs[t]));
      } else {
        r := Err(NotFound);
      }
    }
  }
}
