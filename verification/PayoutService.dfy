/** The payout transactions as the service runs them, statement by statement. */
module PayoutService {
  import opened Results
  import opened Tables
  import opened Store
  import Payouts
  import Deltas
  import Acceptance
  import opened LockOrder
  import opened Deadlock
  import opened TransferService

  // ---- transaction bodies ----

  method MoveRow(q: Queries, pid: Uuid, row: Payout, status: Status, action: Action) returns (r: Result<()>)
    modifies q
    ensures q.Ran(Payouts.MoveRow(old(q.Snapshot()), pid, row, status, action), r)
  {
    var _ :- q.UpdatePayoutStatus(pid, status, None);
    r := q.TransitionState(row.tx, status, action);
  }

  /** The loop shared by claiming, requeuing and recovering. */
  method MoveRows(q: Queries, rows: seq<Selected>, status: Status, action: Action) returns (r: Result<()>)
    modifies q
    ensures q.Ran(Payouts.MoveRows(old(q.Snapshot()), rows, status, action), r)
  {
    for i := 0 to |rows|
      invariant Payouts.MoveRows(q.Snapshot(), rows[i..], status, action) ==
                Payouts.MoveRows(old(q.Snapshot()), rows, status, action)
      invariant q.faults == old(q.faults)
    {
      assert rows[i..][0] == rows[i] && rows[i..][1..] == rows[i + 1..];
      var _ :- MoveRow(q, rows[i].id, rows[i].row, status, action);
    }
    r := Ok(());
  }

  method MoveSettledFunds(q: Queries, row: Payout) returns (r: Result<()>)
    modifies q
    ensures q.Ran(Payouts.MoveSettledFunds(old(q.Snapshot()), row), r)
    ensures old(q.held) == [] && SystemAccount(row.currency).Ok? ==>
              Keeps(Plan(Settle(row.account, SystemAccount(row.currency).value)), q.held, r.Ok?)
  {
    var _ :- q.DeductLockedFunds(row.account, row.amount);
    var sys := SystemAccount(row.currency);
    if sys.Err? {
      return Err(sys.error);
    }
    var _ :- q.CreateEntry(Entry(row.tx, row.account, row.amount, Debit));
    var _ :- q.CreateEntry(Entry(row.tx, sys.value, row.amount, Credit));
    r := q.UpdateAccountBalance(sys.value, row.amount);
  }

  method CloseRows(q: Queries, pid: Uuid, tid: Uuid, status: Status, action: Action, gatewayRef: Option<string>)
    returns (r: Result<()>)
    modifies q
    ensures q.Ran(Payouts.CloseRows(old(q.Snapshot()), pid, tid, status, action, gatewayRef), r)
    ensures q.held == old(q.held)
  {
    ghost var was := q.Snapshot();
    var _ :- q.TransitionState(tid, status, action);
    assert Payouts.CloseRows(was, pid, tid, status, action, gatewayRef) ==
           UpdatePayoutStatus(q.Snapshot(), pid, status, gatewayRef);
    r := q.UpdatePayoutStatus(pid, status, gatewayRef);
  }

  method SettleBody(q: Queries, pid: Uuid, row: Payout, action: Action, gatewayRef: Option<string>)
    returns (r: Result<()>)
    modifies q
    ensures q.Ran(Payouts.Settle(old(q.Snapshot()), pid, row, action, gatewayRef), r)
    ensures old(q.held) == [] && SystemAccount(row.currency).Ok? ==>
              Keeps(Plan(Settle(row.account, SystemAccount(row.currency).value)), q.held, r.Ok?)
  {
    var _ :- MoveSettledFunds(q, row);
    r := CloseRows(q, pid, row.tx, Completed, action, gatewayRef);
  }

  method SettleTx(q: Queries, pid: Uuid, row: Payout, gatewayRef: string) returns (r: Result<()>)
    modifies q
    ensures q.Committed(Payouts.Settle(old(q.Snapshot()), pid, row, PayoutCompleted, Some(gatewayRef)), r)
  {
    var before := q.BeginTx();
    var body := SettleBody(q, pid, row, PayoutCompleted, Some(gatewayRef));
    r := q.EndTx(before, body);
  }

  method FailBody(q: Queries, pid: Uuid, row: Payout) returns (r: Result<()>)
    modifies q
    ensures q.Ran(Payouts.FailPayout(old(q.Snapshot()), pid, row), r)
  {
    var _ :- q.ReleaseAccountFunds(row.account, row.amount);
    var fault := q.Trip();
    if fault {
      return Err(Fault);
    }
    if pid !in q.payouts {
      return Err(NotFound);
    }
    r := CloseRows(q, pid, q.payouts[pid].tx, Failed, PayoutFailed, None);
  }

  method FailTx(q: Queries, pid: Uuid, row: Payout) returns (r: Result<()>)
    modifies q
    ensures q.Committed(Payouts.FailPayout(old(q.Snapshot()), pid, row), r)
  {
    var before := q.BeginTx();
    var body := FailBody(q, pid, row);
    r := q.EndTx(before, body);
  }

  datatype Decision = ConfirmSent(replacementRef: Option<string>) | RefundFailed

  function Resolve(db: Db, pid: Uuid, decision: Decision): Result<Db> {
    match decision
    case ConfirmSent(replacementRef) => Payouts.ConfirmReview(db, pid, replacementRef)
    case RefundFailed => Payouts.RefundReview(db, pid)
  }

  /** The row of a resolved payout: COMPLETED with the operator's reference if one was given and the stored
      one otherwise, or FAILED with the stored one. */
  predicate ResolvedAs(was: Payout, now: Payout, decision: Decision) {
    match decision
    case ConfirmSent(Some(ref)) => now == was.(status := Completed, gatewayRef := Some(ref))
    case ConfirmSent(None) => now == was.(status := Completed)
    case RefundFailed => now == was.(status := Failed)
  }

  /** An operator's resolution of a review. Only a payout in review is resolved. */
  method ResolveManualReview(q: Queries, pid: Uuid, decision: Decision) returns (r: Result<()>)
    modifies q
    ensures q.Committed(Resolve(old(q.Snapshot()), pid, decision), r)
    ensures r.Ok? ==>
              && pid in old(q.payouts) && old(q.payouts)[pid].status == ManualReview
              && pid in q.payouts && ResolvedAs(old(q.payouts)[pid], q.payouts[pid], decision)
    ensures q.faults == old(q.faults) && pid !in old(q.payouts) ==> r == Err(NotFound)
    ensures q.faults == old(q.faults) && pid in old(q.payouts) && old(q.payouts)[pid].status != ManualReview ==>
              r == Err(NotInManualReview)
  {
    var before := q.BeginTx();
    var body := ResolveBody(q, pid, decision);
    r := q.EndTx(before, body);
    ResolutionRow(before, pid, decision);
  }

  lemma ResolutionRow(db: Db, pid: Uuid, decision: Decision)
    ensures Resolve(db, pid, decision).Ok? ==>
              && pid in db.payouts && db.payouts[pid].status == ManualReview
              && pid in Resolve(db, pid, decision).value.payouts
              && ResolvedAs(db.payouts[pid], Resolve(db, pid, decision).value.payouts[pid], decision)
    ensures pid !in db.payouts ==> Resolve(db, pid, decision) == Err(NotFound)
    ensures pid in db.payouts && db.payouts[pid].status != ManualReview ==>
              Resolve(db, pid, decision) == Err(NotInManualReview)
  {
    var ref := if decision.ConfirmSent? then decision.replacementRef else None;
    Acceptance.ResolvedRow(db, pid, ref);
    Acceptance.ReviewIff(db, pid, ref);
  }

  method ResolveBody(q: Queries, pid: Uuid, decision: Decision) returns (r: Result<()>)
    modifies q
    ensures q.Ran(Resolve(old(q.Snapshot()), pid, decision), r)
  {
    var fault := q.Trip();
    if fault {
      return Err(Fault);
    }
    if pid !in q.payouts {
      return Err(NotFound);
    }
    var row := q.payouts[pid];
    if row.status != ManualReview {
      return Err(NotInManualReview);
    }
    match decision
    case ConfirmSent(replacementRef) =>
      r := SettleBody(q, pid, row, ReviewConfirmed, if replacementRef.Some? then replacementRef else row.gatewayRef);
    case RefundFailed =>
      var _ :- q.ReleaseAccountFundsSafe(row.account, row.amount);
      r := CloseRows(q, pid, row.tx, Failed, ReviewRefunded, row.gatewayRef);
  }

  method RequestBody(q: Queries, pid: Uuid, tid: Uuid, req: Payouts.PayoutRequest) returns (r: Result<()>)
    requires req.amount > 0 && req.reference != "" && q.held == []
    modifies q
    ensures q.Ran(Payouts.RequestPayout(old(q.Snapshot()), pid, tid, req), r)
    ensures Keeps(Plan(Move([req.account], req.reference)), q.held, r.Ok?)
  {
    var account := q.LockAccount(req.account);
    if account.Err? {
      return Err(if account.error == NotFound then InsufficientFunds else account.error);
    }
    if account.value.balance - account.value.locked < req.amount {
      return Err(InsufficientFunds);
    }
    if account.value.currency != req.currency {
      return Err(CurrencyMismatch);
    }
    assert q.held == [AccountLock(req.account)] == RowLocks([req.account]);
    r := QueuePayout(q, pid, tid, req);
  }

  method QueuePayout(q: Queries, pid: Uuid, tid: Uuid, req: Payouts.PayoutRequest) returns (r: Result<()>)
    requires req.amount > 0 && req.reference != "" && req.account in q.accounts
    requires q.accounts[req.account].balance - q.accounts[req.account].locked >= req.amount
    requires q.accounts[req.account].currency == req.currency
    modifies q
    ensures q.Ran(Payouts.RequestPayout(old(q.Snapshot()), pid, tid, req), r)
    ensures AccountLock(req.account) in old(q.held) ==>
              Asked(old(q.held), q.held, ReferenceLock(req.reference), r.Ok?)
  {
    var _ :- q.LockAccountFunds(req.account, req.amount);
    var _ :- q.CreateTransaction(tid, Tx(req.amount, req.currency, TypePayout, Pending, req.reference, PayoutMeta));
    var _ :- q.WriteAudit(Audit(tid, Created, None, Pending));
    r := q.InsertPayout(pid, Payout(tid, req.account, req.amount, req.currency, Pending, None));
  }

  datatype PayoutReply = PayoutReply(id: Uuid, status: Status)

  /** The payout belongs to the transaction under this reference. */
  predicate Under(db: Db, pid: Uuid, reference: string) {
    pid in db.payouts && db.payouts[pid].tx in db.txs && db.txs[db.payouts[pid].tx].reference == reference
  }

  /** The payout is what the request asks for. */
  predicate IsPayout(db: Db, pid: Uuid, req: Payouts.PayoutRequest) {
    && pid in db.payouts && db.payouts[pid].account == req.account
    && db.payouts[pid].amount == req.amount && db.payouts[pid].currency == req.currency
  }

  predicate PayoutClash(db: Db, req: Payouts.PayoutRequest) {
    exists p | p in db.payouts :: Under(db, p, req.reference) && !IsPayout(db, p, req)
  }

  /** One payout for each transaction, one transaction for each reference. */
  predicate OnePayout(db: Db) {
    && UniqueReferences(db.txs)
    && forall p, r | p in db.payouts && r in db.payouts && p != r :: db.payouts[p].tx != db.payouts[r].tx
  }

  /** A payout request: the payout stored under the reference is reported, otherwise one is queued. `at` is
      what the request's last read or its transaction meets. A success is about this request if and only
      if the reference is not taken by another payout. */
  method RequestPayout(q: Queries, pid: Uuid, tid: Uuid, req: Payouts.PayoutRequest)
    returns (r: Result<PayoutReply>, ghost at: Db)
    modifies q
    ensures r.Ok? ==> Under(q.Snapshot(), r.value.id, req.reference) && q.payouts[r.value.id].status == r.value.status
    ensures Evolved(old(q.Snapshot()), at)
    ensures || q.Snapshot() == at
            || (Payouts.RequestPayout(at, pid, tid, req) == Ok(q.Snapshot()) && r == Ok(PayoutReply(pid, Pending)))
    ensures r.Ok? && OnePayout(at) && PayoutsOwned(at) ==>
              (IsPayout(q.Snapshot(), r.value.id, req) <==> !PayoutClash(at, req))
    ensures r.Err? && r.error != Fault ==>
              q.Snapshot() == at && Payouts.RequestPayout(at, pid, tid, req) == Err(r.error)
    ensures r.Err? && r.error == Fault ==> q.Snapshot() == at && q.faults > old(q.faults)
    ensures Payouts.RequestPayout(at, pid, tid, req).Ok? && q.faults == old(q.faults) ==>
              Payouts.RequestPayout(at, pid, tid, req) == Ok(q.Snapshot())
    ensures forall p | p in old(q.payouts) && Under(old(q.Snapshot()), p, req.reference) ::
              UniqueReferences(old(q.txs)) && q.faults == old(q.faults) && req.amount > 0 && req.reference != "" ==>
                r.Ok?
  {
    at := q.Snapshot();
    if req.amount <= 0 {
      return Err(InvalidAmount), at;
    }
    if req.reference == "" {
      return Err(ReferenceRequired), at;
    }
    var existing := q.FindReference(req.reference);
    if existing.Err? && existing.error != NotFound {
      return Err(existing.error), at;
    }
    Interference(q, tid);
    at := q.Snapshot();
    if existing.Ok? {
      var fault := q.Trip();
      if fault {
        return Err(Fault), at;
      }
      if p :| p in q.payouts && q.payouts[p].tx == existing.value.0 {
        return Ok(PayoutReply(p, q.payouts[p].status)), at;
      }
      Interference(q, tid);
      at := q.Snapshot();
    }
    r := RequestTx(q, pid, tid, req);
  }

  method RequestTx(q: Queries, pid: Uuid, tid: Uuid, req: Payouts.PayoutRequest) returns (r: Result<PayoutReply>)
    requires req.amount > 0 && req.reference != ""
    modifies q
    ensures r.Ok? ==>
              r == Ok(PayoutReply(pid, Pending)) &&
              Payouts.RequestPayout(old(q.Snapshot()), pid, tid, req) == Ok(q.Snapshot())
    ensures r.Ok? ==>
              Under(q.Snapshot(), pid, req.reference) && IsPayout(q.Snapshot(), pid, req) &&
              q.payouts[pid].status == Pending
    ensures r.Ok? && PayoutsOwned(old(q.Snapshot())) ==> !PayoutClash(old(q.Snapshot()), req)
    ensures r.Err? ==> q.Snapshot() == old(q.Snapshot())
    ensures r.Err? && r.error == Fault ==> q.faults > old(q.faults)
    ensures r.Err? && r.error != Fault ==> Payouts.RequestPayout(old(q.Snapshot()), pid, tid, req) == Err(r.error)
  {
    var before := q.BeginTx();
    var body := RequestBody(q, pid, tid, req);
    var done := q.EndTx(before, body);
    if done.Err? {
      return Err(done.error);
    }
    Deltas.RequestChanges(before, pid, tid, req);
    r := Ok(PayoutReply(pid, Pending));
  }

  /** The foreign key of a payout on its transaction. */
  predicate PayoutsOwned(db: Db) {
    forall p | p in db.payouts :: db.payouts[p].tx in db.txs
  }
}
