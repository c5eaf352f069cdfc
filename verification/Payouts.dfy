/** The bodies of the payout transactions, and the separately committed fallback writes. */
module Payouts {
  import opened Results
  import opened Tables
  import opened TransactionState

  datatype PayoutRequest = PayoutRequest(account: Uuid, amount: int, currency: Currency, reference: string)

  function RequestPayout(db: Db, pid: Uuid, tid: Uuid, req: PayoutRequest): Result<Db> {
    if req.amount <= 0 then Err(InvalidAmount)
    else if req.reference == "" then Err(ReferenceRequired)
    else if req.account !in db.accounts then Err(InsufficientFunds)
    else
      var account := db.accounts[req.account];
      if account.balance - account.locked < req.amount then Err(InsufficientFunds)
      else if account.currency != req.currency then Err(CurrencyMismatch)
      else
        var d1 :- LockFunds(db, req.account, req.amount);
        var d2 :- CreateTransaction(d1, tid,
                                    Tx(req.amount, req.currency, TypePayout, Pending, req.reference, PayoutMeta));
        var d3 := WriteAudit(d2, Audit(tid, Created, None, Pending));
        InsertPayout(d3, pid, Payout(tid, req.account, req.amount, req.currency, Pending, None))
  }

  /** Moves a payout row and its transaction together, as claiming and requeuing do. */
  function MoveRow(db: Db, pid: Uuid, row: Payout, status: Status, action: Action): Result<Db> {
    var d1 :- UpdatePayoutStatus(db, pid, status, None);
    Transition(d1, row.tx, status, action)
  }

  /** The loop of one claiming, requeuing or recovering transaction. */
  function MoveRows(db: Db, rows: seq<Selected>, status: Status, action: Action): Result<Db>
    decreases |rows|
  {
    if rows == [] then Ok(db)
    else
      var d :- MoveRow(db, rows[0].id, rows[0].row, status, action);
      MoveRows(d, rows[1..], status, action)
  }

  /** Claims one row the pending query selected. */
  function ClaimRow(db: Db, pid: Uuid): Result<Db> {
    if pid !in db.payouts || db.payouts[pid].status != Pending then Err(NotFound)
    else MoveRow(db, pid, db.payouts[pid], Processing, ProcessingStarted)
  }

  /** Requeues one row the stale query selected. */
  function RecoverRow(db: Db, pid: Uuid): Result<Db> {
    if pid !in db.payouts || db.payouts[pid].status != Processing then Err(NotFound)
    else MoveRow(db, pid, db.payouts[pid], Pending, RequeueStale)
  }

  /** The locked funds leave the account and the liquidity account is credited. */
  function MoveSettledFunds(db: Db, row: Payout): Result<Db> {
    var d1 :- DeductLockedFunds(db, row.account, row.amount);
    var sys :- SystemAccount(row.currency);
    var d2 :- CreateEntry(d1, Entry(row.tx, row.account, row.amount, Debit));
    var d3 :- CreateEntry(d2, Entry(row.tx, sys, row.amount, Credit));
    UpdateAccountBalance(d3, sys, row.amount)
  }

  /** Books a sent payout. Workers and operators settle through the same statements. */
  function Settle(db: Db, pid: Uuid, row: Payout, action: Action, gatewayRef: Option<string>): Result<Db> {
    var moved :- MoveSettledFunds(db, row);
    CloseRows(moved, pid, row.tx, Completed, action, gatewayRef)
  }

  /** Moves the transaction and then the payout to a final status. */
  function CloseRows(db: Db, pid: Uuid, tid: Uuid, status: Status, action: Action,
                     gatewayRef: Option<string>): Result<Db> {
    var d :- Transition(db, tid, status, action);
    UpdatePayoutStatus(d, pid, status, gatewayRef)
  }

  /** Books a refused payout: the funds are released and the payout ends FAILED. */
  function FailPayout(db: Db, pid: Uuid, row: Payout): Result<Db> {
    var d1 :- ReleaseFunds(db, row.account, row.amount);
    if pid !in d1.payouts then Err(NotFound)
    else
      CloseRows(d1, pid, d1.payouts[pid].tx, Failed, PayoutFailed, None)
  }

  function ConfirmReview(db: Db, pid: Uuid, gatewayRef: Option<string>): Result<Db> {
    if pid !in db.payouts then Err(NotFound)
    else if db.payouts[pid].status != ManualReview then Err(NotInManualReview)
    else
      var row := db.payouts[pid];
      Settle(db, pid, row, ReviewConfirmed, if gatewayRef.Some? then gatewayRef else row.gatewayRef)
  }

  function RefundReview(db: Db, pid: Uuid): Result<Db> {
    if pid !in db.payouts then Err(NotFound)
    else if db.payouts[pid].status != ManualReview then Err(NotInManualReview)
    else
      var row := db.payouts[pid];
      var d1 := ReleaseFundsSafe(db, row.account, row.amount);
      CloseRows(d1, pid, row.tx, Failed, ReviewRefunded, row.gatewayRef)
  }
}
