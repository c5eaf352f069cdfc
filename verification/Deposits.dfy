/** Webhooks as runs: when one may go ahead, and that a FAILED deposit can always be booked after all. */
module Deposits {
  import opened Results
  import opened Tables
  import opened Ledger
  import opened Runs
  import opened Entries
  import opened Deltas
  import opened Schema
  import opened Steps
  import opened Acceptance

  /** The row is the deposit of this payload, under its reference. */
  predicate IsDeposit(db: Db, tid: Uuid, dep: Deposit) {
    && tid in db.txs && db.txs[tid].reference == dep.reference && db.txs[tid].kind == TypeDeposit
    && db.txs[tid].amount == dep.amount && db.txs[tid].currency == dep.currency
    && db.txs[tid].meta == DepositMeta(dep.account)
  }

  /** A webhook goes on to its transaction if and only if its payload is valid and its reference is unused,
      or used by its own FAILED deposit. */
  lemma GoesAheadIff(s: Sys, request: nat, dep: Deposit, tid: Uuid)
    requires request !in s.deposits
    ensures (exists s' :: Next(s, CheckDeposit(request, dep, tid), s')) <==>
            && dep.amount > 0 && dep.reference != "" && Supported(dep.currency)
            && (!ReferenceTaken(s.db, dep.reference) || (IsDeposit(s.db, tid, dep) && s.db.txs[tid].status == Failed))
  {
    var e := CheckDeposit(request, dep, tid);
    if tid in s.db.txs {
      EvaluateIff(dep, s.db.txs[tid]);
    }
    ValidateIff(dep);
    if Apply(s, e).Some? {
      NextIffApply(s, e, Apply(s, e).value);
    }
    forall s' | Next(s, e, s') ensures Apply(s, e).Some? {
      NextIffApply(s, e, s');
    }
  }

  lemma CheckRetries(s: Sys, request: nat, dep: Deposit, tid: Uuid) returns (s': Sys)
    requires request !in s.deposits && ValidateDeposit(dep).Ok?
    requires IsDeposit(s.db, tid, dep) && s.db.txs[tid].status == Failed
    ensures Next(s, CheckDeposit(request, dep, tid), s')
    ensures s' == s.(deposits := s.deposits[request := DepositTask(dep, tid, true)])
  {
    EvaluateIff(dep, s.db.txs[tid]);
    s' := s.(deposits := s.deposits[request := DepositTask(dep, tid, true)]);
    NextIffApply(s, CheckDeposit(request, dep, tid), s');
  }

  lemma CommitRetries(s: Sys, request: nat, d: Db) returns (s': Sys)
    requires request in s.deposits
    requires DepositFunds(s.db, s.deposits[request].tid, s.deposits[request].retry, s.deposits[request].dep) == Ok(d)
    ensures Next(s, CommitDeposit(request), s') && s'.db == d
  {
    s' := s.(deposits := s.deposits - {request}, db := d);
    NextIffApply(s, CommitDeposit(request), s');
  }

  /** From every state with a FAILED deposit, its redelivered webhook can be booked: the row ends COMPLETED
      and the account has the amount. */
  lemma RetryCredits(s: Sys, request: nat, dep: Deposit, tid: Uuid) returns (s1: Sys, s2: Sys)
    requires Wellformed(s) && request !in s.deposits && ValidateDeposit(dep).Ok?
    requires IsDeposit(s.db, tid, dep) && s.db.txs[tid].status == Failed && Has(s.db, dep.account, dep.currency)
    ensures Next(s, CheckDeposit(request, dep, tid), s1) && Next(s1, CommitDeposit(request), s2)
    ensures tid in s2.db.txs && s2.db.txs[tid].status == Completed
    ensures dep.account in s2.db.accounts
    ensures s2.db.accounts[dep.account].balance == s.db.accounts[dep.account].balance +
              (if SystemAccount(dep.currency) == Ok(dep.account) then 0 else dep.amount)
  {
    s1 := CheckRetries(s, request, dep, tid);
    DepositIff(s.db, tid, true, dep);
    var d := DepositFunds(s.db, tid, true, dep).value;
    s2 := CommitRetries(s1, request, d);
    RetriedBalance(s.db, tid, dep, d);
  }

  lemma RetriedBalance(db: Db, tid: Uuid, dep: Deposit, d: Db)
    requires ValidateDeposit(dep).Ok? && DepositFunds(db, tid, true, dep) == Ok(d)
    ensures tid in d.txs && d.txs[tid].status == Completed
    ensures dep.account in db.accounts && dep.account in d.accounts
    ensures d.accounts[dep.account].balance == db.accounts[dep.account].balance +
              (if SystemAccount(dep.currency) == Ok(dep.account) then 0 else dep.amount)
  {
    DepositChanges(db, tid, true, dep);
    PairNet(tid, SystemAccount(dep.currency).value, dep.account, dep.amount);
  }
}
