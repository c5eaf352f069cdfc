/**
 The bodies of the ledger transactions: same-currency transfer, four-leg exchange, deposit.
 Each function runs its statements in the order the service issues them and yields the database
 to commit, or the error that rolls everything back.
 */
module Ledger {
  import opened Results
  import opened Tables
  import opened TransactionState

  /** Inserts the transaction row as PENDING, records its creation and moves it to PROCESSING. */
  function StartTransaction(db: Db, tid: Uuid, tx: Tx): Result<Db> {
    var d1 :- CreateTransaction(db, tid, tx.(status := Pending));
    var d2 := WriteAudit(d1, Audit(tid, Created, None, Pending));
    Transition(d2, tid, Processing, ProcessingStarted)
  }

  function Transfer(db: Db, tid: Uuid, from: Uuid, to: Uuid, amount: int, reference: string): Result<Db> {
    if amount <= 0 then Err(InvalidAmount)
    else if reference == "" then Err(ReferenceRequired)
    else if from == to then Err(SameAccountTransfer)
    else
      var sender :- GetAccount(db, from);
      var receiver :- GetAccount(db, to);
      if sender.currency != receiver.currency then Err(CurrencyMismatch)
      else if sender.balance < amount then Err(InsufficientFunds)
      else
        var d1 :- StartTransaction(db, tid, Tx(amount, sender.currency, TypeTransfer, Pending, reference, NoMeta));
        BookTransfer(d1, tid, from, to, amount)
  }

  function BookTransfer(db: Db, tid: Uuid, from: Uuid, to: Uuid, amount: int): Result<Db> {
    var d1 :- CreateEntry(db, Entry(tid, from, amount, Debit));
    var d2 :- CreateEntry(d1, Entry(tid, to, amount, Credit));
    var d3 :- UpdateAccountBalance(d2, from, -amount);
    var d4 :- UpdateAccountBalance(d3, to, amount);
    Transition(d4, tid, Completed, CompletedAction)
  }

  datatype ExchangeCmd = ExchangeCmd(from: Uuid, to: Uuid, amount: int, source: Currency, target: Currency,
                                     reference: string)

  /** The two liquidity accounts of an admissible exchange. */
  function CheckExchange(db: Db, cmd: ExchangeCmd): Result<(Uuid, Uuid)> {
    if cmd.amount <= 0 then Err(InvalidAmount)
    else if cmd.reference == "" then Err(ReferenceRequired)
    else if cmd.from == cmd.to then Err(SameAccountTransfer)
    else if cmd.source == cmd.target then Err(SameCurrencyExchange)
    else
      var liqSource :- SystemAccount(cmd.source);
      var liqTarget :- SystemAccount(cmd.target);
      var sender :- GetAccount(db, cmd.from);
      var _ :- GetAccount(db, liqSource);
      var _ :- GetAccount(db, liqTarget);
      var receiver :- GetAccount(db, cmd.to);
      if sender.currency != cmd.source || receiver.currency != cmd.target then Err(CurrencyMismatch)
      else if sender.balance < cmd.amount then Err(InsufficientFunds)
      else Ok((liqSource, liqTarget))
  }

  /** An exchange that credits the receiver `target` micros, whatever rate was quoted. */
  function Exchange(db: Db, tid: Uuid, cmd: ExchangeCmd, target: int): Result<Db> {
    var (liqSource, liqTarget) :- CheckExchange(db, cmd);
    PostExchange(db, tid, cmd, target, liqSource, liqTarget)
  }

  function PostExchange(db: Db, tid: Uuid, cmd: ExchangeCmd, target: int, liqSource: Uuid,
                        liqTarget: Uuid): Result<Db> {
    var d1 :- StartTransaction(db, tid, Tx(cmd.amount, cmd.source, TypeExchange, Pending, cmd.reference, NoMeta));
    var d2 :- UpdateTransactionMeta(d1, tid, ExchangeMeta(cmd.source, cmd.target, target));
    BookExchange(d2, tid, cmd, target, liqSource, liqTarget)
  }

  function BookExchange(db: Db, tid: Uuid, cmd: ExchangeCmd, target: int, liqSource: Uuid,
                        liqTarget: Uuid): Result<Db> {
    var d1 :- WriteExchangeLegs(db, tid, cmd, target, liqSource, liqTarget);
    var d2 :- MoveExchangeFunds(d1, cmd, target, liqSource, liqTarget);
    Transition(d2, tid, Completed, CompletedAction)
  }

  function WriteExchangeLegs(db: Db, tid: Uuid, cmd: ExchangeCmd, target: int, liqSource: Uuid,
                             liqTarget: Uuid): Result<Db> {
    var d1 :- CreateEntry(db, Entry(tid, cmd.from, cmd.amount, Debit));
    var d2 :- CreateEntry(d1, Entry(tid, liqSource, cmd.amount, Credit));
    var d3 :- CreateEntry(d2, Entry(tid, liqTarget, target, Debit));
    CreateEntry(d3, Entry(tid, cmd.to, target, Credit))
  }

  function MoveExchangeFunds(db: Db, cmd: ExchangeCmd, target: int, liqSource: Uuid, liqTarget: Uuid): Result<Db> {
    var d1 :- UpdateAccountBalance(db, cmd.from, -cmd.amount);
    var d2 :- UpdateAccountBalance(d1, liqSource, cmd.amount);
    var d3 :- UpdateAccountBalance(d2, liqTarget, -target);
    UpdateAccountBalance(d3, cmd.to, target)
  }

  /** A parsed and normalised deposit webhook payload. */
  datatype Deposit = Deposit(account: Uuid, amount: int, currency: Currency, reference: string)

  function ValidateDeposit(dep: Deposit): Result<()> {
    if dep.amount <= 0 then Err(InvalidAmount)
    else if dep.reference == "" then Err(ReferenceRequired)
    else if !Supported(dep.currency) then Err(UnsupportedCurrency)
    else Ok(())
  }

  datatype Verdict = Replay | Retry

  /** What a webhook does about a row that already carries its reference. */
  function EvaluateExisting(dep: Deposit, tx: Tx): Result<Verdict> {
    if tx.kind != TypeDeposit || tx.amount != dep.amount || tx.currency != dep.currency then Err(PayloadMismatch)
    else if tx.meta != DepositMeta(dep.account) then Err(PayloadMismatch)
    else match tx.status
      case Completed => Ok(Replay)
      case Pending => Err(DepositInProgress)
      case Processing => Err(DepositInProgress)
      case Failed => Ok(Retry)
      case _ => Err(UnsupportedState)
  }

  /** A retry re-opens the FAILED row, otherwise a new row is inserted. */
  function OpenDeposit(db: Db, tid: Uuid, retry: bool, dep: Deposit): Result<Db> {
    if retry then Transition(db, tid, Processing, RetryStarted)
    else StartTransaction(db, tid, Tx(dep.amount, dep.currency, TypeDeposit, Pending, dep.reference,
                                      DepositMeta(dep.account)))
  }

  function DepositFunds(db: Db, tid: Uuid, retry: bool, dep: Deposit): Result<Db> {
    var sys :- SystemAccount(dep.currency);
    var account :- GetAccount(db, dep.account);
    if account.currency != dep.currency then Err(CurrencyMismatch)
    else
      var open :- OpenDeposit(db, tid, retry, dep);
      BookDeposit(open, tid, dep, sys)
  }

  function BookDeposit(db: Db, tid: Uuid, dep: Deposit, sys: Uuid): Result<Db> {
    var d1 :- CreateEntry(db, Entry(tid, sys, dep.amount, Debit));
    var d2 :- CreateEntry(d1, Entry(tid, dep.account, dep.amount, Credit));
    var d3 :- UpdateAccountBalance(d2, dep.account, dep.amount);
    var d4 :- UpdateAccountBalance(d3, sys, -dep.amount);
    Transition(d4, tid, Completed, CompletedAction)
  }
}
