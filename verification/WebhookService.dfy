/** Deposit webhooks after parsing: replay, retry or book. */
module WebhookService {
  import opened Results
  import opened Tables
  import opened TransactionState
  import opened Store
  import opened Ledger
  import opened TransferService
  import Deltas
  import opened LockOrder
  import opened Deadlock

  datatype Reply = Reply(id: Uuid, status: Status)

  method BookDeposit(q: Queries, tid: Uuid, dep: Deposit, sys: Uuid) returns (r: Result<()>)
    modifies q
    ensures q.Ran(Ledger.BookDeposit(old(q.Snapshot()), tid, dep, sys), r)
    ensures AccountLock(dep.account) in old(q.held) ==> Asked(old(q.held), q.held, AccountLock(sys), r.Ok?)
  {
    var _ :- q.CreateEntry(Entry(tid, sys, dep.amount, Debit));
    var _ :- q.CreateEntry(Entry(tid, dep.account, dep.amount, Credit));
    var _ :- q.UpdateAccountBalance(dep.account, dep.amount);
    var _ :- q.UpdateAccountBalance(sys, -dep.amount);
    r := q.TransitionState(tid, Completed, CompletedAction);
  }

  /** The locks of a deposit: the user's account, the reference of a new row, the system's account. */
  function LocksOf(dep: Deposit, sys: Uuid, retry: bool): Job {
    if retry then Settle(dep.account, sys) else Job.Deposit(dep.account, sys, dep.reference)
  }

  method DepositBody(q: Queries, tid: Uuid, retry: bool, dep: Deposit, sys: Uuid) returns (r: Result<()>)
    requires SystemAccount(dep.currency) == Ok(sys) && q.held == []
    modifies q
    ensures q.Ran(DepositFunds(old(q.Snapshot()), tid, retry, dep), r)
    ensures Keeps(Plan(LocksOf(dep, sys, retry)), q.held, r.Ok?)
  {
    var account :- q.LockAccount(dep.account);
    if account.currency != dep.currency {
      return Err(CurrencyMismatch);
    }
    if retry {
      var _ :- q.TransitionState(tid, Processing, RetryStarted);
    } else {
      var _ :- TransferService.StartTransaction(
        q, tid, Tx(dep.amount, dep.currency, TypeDeposit, Pending, dep.reference, DepositMeta(dep.account)));
    }
    r := BookDeposit(q, tid, dep, sys);
  }

  method DepositTx(q: Queries, tid: Uuid, retry: bool, dep: Deposit, sys: Uuid) returns (r: Result<()>)
    requires SystemAccount(dep.currency) == Ok(sys)
    modifies q
    ensures q.Committed(DepositFunds(old(q.Snapshot()), tid, retry, dep), r)
  {
    var before := q.BeginTx();
    var body := DepositBody(q, tid, retry, dep, sys);
    r := q.EndTx(before, body);
  }

  method TransitionTx(q: Queries, tid: Uuid, next: Status, action: Action) returns (r: Result<()>)
    modifies q
    ensures q.Committed(Transition(old(q.Snapshot()), tid, next, action), r)
  {
    var before := q.BeginTx();
    var body := q.TransitionState(tid, next, action);
    r := q.EndTx(before, body);
  }

  /** What a webhook remembers between its reference check and its transaction. */
  datatype Decision = Decision(id: Uuid, retry: bool)

  /** The retried row, if any, still is the deposit of this payload. */
  predicate Matches(db: Db, dep: Deposit, d: Decision) {
    d.retry ==>
      && d.id in db.txs && db.txs[d.id].reference == dep.reference && db.txs[d.id].kind == TypeDeposit
      && db.txs[d.id].amount == dep.amount && db.txs[d.id].currency == dep.currency
      && db.txs[d.id].meta == DepositMeta(dep.account)
  }

  /** A row that answers this webhook: same reference, same payload, COMPLETED. */
  predicate Answers(db: Db, dep: Deposit, id: Uuid) {
    id in db.txs && db.txs[id].reference == dep.reference && EvaluateExisting(dep, db.txs[id]) == Ok(Replay)
  }

  /** The row under this reference refuses the payload with this error. */
  predicate Contradicted(db: Db, dep: Deposit, error: Error) {
    exists t | t in db.txs :: db.txs[t].reference == dep.reference && EvaluateExisting(dep, db.txs[t]) == Err(error)
  }

  /** What a webhook makes of the row it finds under its reference. */
  predicate Decided(verdict: Result<Verdict>, t: Uuid, d: Decision, r: Result<Reply>) {
    match verdict
    case Ok(Replay) => r == Ok(Reply(t, Completed))
    case Ok(Retry) => d == Decision(t, true)
    case Err(error) => r == Err(error)
  }

  /** What a webhook that lost the race for its reference answers: what the winner's row says, and "in
      progress" when that row is gone or could be retried. */
  predicate Settled(db: Db, dep: Deposit, r: Result<Reply>) {
    && (!ReferenceTaken(db, dep.reference) ==> r == Err(DepositInProgress))
    && (forall t | t in db.txs && db.txs[t].reference == dep.reference && UniqueReferences(db.txs) ::
          match EvaluateExisting(dep, db.txs[t])
          case Ok(Replay) => r == Ok(Reply(t, Completed))
          case Ok(Retry) => r == Err(DepositInProgress)
          case Err(error) => r == Err(error))
  }

  /** Handles a webhook. Its transaction, if it runs, meets the database `at` with the decision `d`, and
      `now` is what others have made of the tables when the call last looks at them. A success always
      reports a COMPLETED deposit of this payload under this reference; a failure writes nothing. */
  method HandleDeposit(q: Queries, tid: Uuid, dep: Deposit)
    returns (r: Result<Reply>, ghost at: Db, ghost d: Decision, ghost now: Db)
    requires tid !in q.txs
    modifies q
    ensures Evolved(old(q.Snapshot()), at) && Evolved(at, now)
    ensures r.Ok? ==> Answers(q.Snapshot(), dep, r.value.id) && r.value.status == Completed
    ensures q.Snapshot() == now ||
            (now == at && Matches(at, dep, d) && DepositFunds(at, d.id, d.retry, dep) == Ok(q.Snapshot()) && r.Ok?)
    ensures r.Err? ==> q.Snapshot() == now
    ensures r.Err? && r.error == Fault ==> q.faults > old(q.faults)
    ensures r.Err? && r.error != Fault ==>
              || ValidateDeposit(dep) == Err(r.error)
              || (now == at && Contradicted(at, dep, r.error))
              || DepositFunds(at, d.id, d.retry, dep) == Err(r.error)
              || (DepositFunds(at, d.id, d.retry, dep) == Err(UniqueViolation) &&
                  (r.error == DepositInProgress || Contradicted(now, dep, r.error)))
    ensures ValidateDeposit(dep).Err? ==>
              r.Err? && r.error == ValidateDeposit(dep).error && q.Snapshot() == old(q.Snapshot())
    ensures ValidateDeposit(dep).Ok? && q.faults == old(q.faults) ==>
              && (UniqueReferences(old(q.txs)) ==>
                    forall t | t in old(q.txs) && old(q.txs)[t].reference == dep.reference ::
                      Decided(EvaluateExisting(dep, old(q.txs)[t]), t, d, r))
              && (!ReferenceTaken(old(q.Snapshot()), dep.reference) ==> d == Decision(tid, false))
    ensures ValidateDeposit(dep).Ok? && q.faults == old(q.faults) && DepositFunds(at, d.id, d.retry, dep).Ok? ==>
              DepositFunds(at, d.id, d.retry, dep) == Ok(q.Snapshot()) && r == Ok(Reply(d.id, Completed))
    ensures d.retry && q.faults == old(q.faults) && DepositFunds(at, d.id, d.retry, dep).Err? ==>
              r == Err(DepositFunds(at, d.id, d.retry, dep).error)
    ensures !ReferenceTaken(old(q.Snapshot()), dep.reference) && ValidateDeposit(dep).Ok? && q.faults == old(q.faults)
            ==>
              match DepositFunds(at, tid, false, dep)
              case Ok(_) => true
              case Err(error) => if error == UniqueViolation then Settled(now, dep, r) else r == Err(error)
  {
    at, d, now := q.Snapshot(), Decision(tid, false), q.Snapshot();
    var valid := ValidateDeposit(dep);
    if valid.Err? {
      return Err(valid.error), at, d, now;
    }
    var existing := q.FindReference(dep.reference);
    if existing.Err? && existing.error != NotFound {
      return Err(existing.error), at, d, now;
    }
    var retryExisting, transactionId := false, tid;
    if existing.Ok? {
      var verdict := EvaluateExisting(dep, existing.value.1);
      if verdict.Err? {
        return Err(verdict.error), at, d, now;
      }
      if verdict.value == Replay {
        return Ok(Reply(existing.value.0, existing.value.1.status)), at, d, now;
      }
      retryExisting, transactionId := true, existing.value.0;
    }
    var sys := SystemAccount(dep.currency);
    Interference(q, tid);
    at, d, now := q.Snapshot(), Decision(transactionId, retryExisting), q.Snapshot();
    var done := DepositTx(q, transactionId, retryExisting, dep, sys.value);
    if done.Ok? {
      DepositCommitted(at, dep, d);
      return Ok(Reply(transactionId, Completed)), at, d, now;
    }
    Interference(q, tid);
    now := q.Snapshot();
    if !retryExisting && done.error == UniqueViolation {
      r := ResolveDuplicate(q, dep);
      return;
    }
    if !retryExisting {
      // The rolled-back row is gone, so there is nothing to mark as failed.
      var _ := TransitionTx(q, transactionId, Failed, DepositFailed);
    }
    r := Err(done.error);
  }

  /** After a lost race for the reference: replay the winner's deposit or report it in progress. */
  method ResolveDuplicate(q: Queries, dep: Deposit) returns (r: Result<Reply>)
    modifies q`faults
    ensures r.Ok? ==> Answers(q.Snapshot(), dep, r.value.id) && r.value.status == Completed
    ensures r.Err? && r.error == Fault ==> q.faults > old(q.faults)
    ensures r.Err? ==> r.error == Fault || r.error == DepositInProgress || Contradicted(q.Snapshot(), dep, r.error)
    ensures q.faults == old(q.faults) ==> Settled(q.Snapshot(), dep, r)
    ensures q.faults >= old(q.faults)
  {
    var existing := q.FindReference(dep.reference);
    if existing.Err? {
      return Err(if existing.error == NotFound then DepositInProgress else existing.error);
    }
    var verdict := EvaluateExisting(dep, existing.value.1);
    if verdict.Err? {
      return Err(verdict.error);
    }
    r := if verdict.value == Replay then Ok(Reply(existing.value.0,
                                                  existing.value.1.status)) else Err(DepositInProgress);
  }

  lemma DepositCommitted(db: Db, dep: Deposit, d: Decision)
    requires ValidateDeposit(dep).Ok? && Matches(db, dep, d) && DepositFunds(db, d.id, d.retry, dep).Ok?
    ensures Answers(DepositFunds(db, d.id, d.retry, dep).value, dep, d.id)
  {
    Deltas.DepositChanges(db, d.id, d.retry, dep);
  }
}
