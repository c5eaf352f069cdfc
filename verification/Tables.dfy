/**
 The relational state: one datatype per table row, and one function per SQL statement.
 A statement yields the new database, or the error that aborts the surrounding transaction.
 CHECK, UNIQUE and foreign-key constraints are guards of the statements.
 */
module Tables {
  import opened Results

  /** A UUID as the 128-bit number it encodes. The canonical text is fixed-width lower-case
      hexadecimal, so comparing texts and comparing numbers agree. */
  type Uuid = nat

  datatype Currency = USD | EUR | GBP | Unsupported(code: string)

  /** Transaction and payout statuses share one vocabulary; `ManualReview` is for payouts only
      and `Reversed` for transactions only. */
  datatype Status = Pending | Processing | Completed | Failed | Reversed | ManualReview

  datatype Direction = Debit | Credit

  datatype TxType = TypeTransfer | TypeExchange | TypePayout | TypeDeposit

  datatype Meta =
    | NoMeta
    | DepositMeta(account: Uuid)
    | ExchangeMeta(source: Currency, target: Currency, targetAmount: int)
    | PayoutMeta

  datatype Action =
    | Created
    | ProcessingStarted
    | RetryStarted
    | CompletedAction
    | RequeueStale
    | RequeueClaimed
    | PayoutCompleted
    | DepositFailed
    | PayoutFailed
    | PayoutFailedFallback
    | PayoutReview
    | ReviewConfirmed
    | ReviewRefunded

  datatype Account = Account(currency: Currency, balance: int, locked: int)
  datatype Tx = Tx(amount: int, currency: Currency, kind: TxType, status: Status, reference: string, meta: Meta)
  datatype Entry = Entry(tx: Uuid, account: Uuid, amount: int, direction: Direction)
  datatype Payout = Payout(tx: Uuid, account: Uuid, amount: int, currency: Currency, status: Status,
                           gatewayRef: Option<string>)
  datatype Selected = Selected(id: Uuid, row: Payout)
  datatype Audit = Audit(tx: Uuid, action: Action, prev: Option<Status>, next: Status)

  datatype Db = Db(
    accounts: map<Uuid, Account>,
    txs: map<Uuid, Tx>,
    payouts: map<Uuid, Payout>,
    entries: seq<Entry>,
    audit: seq<Audit>)

  const SYSTEM_USD: Uuid := 0x22222222_22222222_22222222_22222222
  const SYSTEM_EUR: Uuid := 0x33333333_33333333_33333333_33333333
  const SYSTEM_GBP: Uuid := 0x44444444_44444444_44444444_44444444

  function SystemAccount(c: Currency): Result<Uuid> {
    match c
    case USD => Ok(SYSTEM_USD)
    case EUR => Ok(SYSTEM_EUR)
    case GBP => Ok(SYSTEM_GBP)
    case Unsupported(_) => Err(UnsupportedCurrency)
  }

  predicate Supported(c: Currency) {
    !c.Unsupported?
  }

  // ---- accounts ----

  function GetAccount(db: Db, id: Uuid): Result<Account> {
    if id in db.accounts then Ok(db.accounts[id]) else Err(NotFound)
  }

  function SetAccount(db: Db, id: Uuid, a: Account): Db {
    db.(accounts := db.accounts[id := a])
  }

  function InsertAccount(db: Db, id: Uuid, c: Currency, balance: int): Result<Db> {
    if id in db.accounts then Err(UniqueViolation)
    else if !Supported(c) then Err(CheckViolation)
    else Ok(SetAccount(db, id, Account(c, balance, 0)))
  }

  function UpdateAccountBalance(db: Db, id: Uuid, delta: int): Result<Db> {
    if id !in db.accounts then Err(UnexpectedRows)
    else Ok(SetAccount(db, id, db.accounts[id].(balance := db.accounts[id].balance + delta)))
  }

  function LockFunds(db: Db, id: Uuid, amount: int): Result<Db> {
    if id !in db.accounts then Err(UnexpectedRows)
    else if db.accounts[id].locked + amount < 0 then Err(CheckViolation)
    else Ok(SetAccount(db, id, db.accounts[id].(locked := db.accounts[id].locked + amount)))
  }

  function ReleaseFunds(db: Db, id: Uuid, amount: int): Result<Db> {
    if id !in db.accounts then Err(UnexpectedRows)
    else if db.accounts[id].locked - amount < 0 then Err(CheckViolation)
    else Ok(SetAccount(db, id, db.accounts[id].(locked := db.accounts[id].locked - amount)))
  }

  predicate Releasable(db: Db, id: Uuid, amount: int) {
    id in db.accounts && db.accounts[id].locked >= amount
  }

  /** The guarded release: touches no row when less than `amount` is locked. */
  function ReleaseFundsSafe(db: Db, id: Uuid, amount: int): Db {
    if Releasable(db, id, amount)
    then SetAccount(db, id, db.accounts[id].(locked := db.accounts[id].locked - amount))
    else db
  }

  function DeductLockedFunds(db: Db, id: Uuid, amount: int): Result<Db> {
    if id !in db.accounts then Err(UnexpectedRows)
    else if db.accounts[id].locked - amount < 0 then Err(CheckViolation)
    else
      var a := db.accounts[id];
      Ok(SetAccount(db, id, a.(locked := a.locked - amount, balance := a.balance - amount)))
  }

  // ---- transactions, entries, audit log ----

  predicate ReferenceTaken(db: Db, reference: string) {
    exists t | t in db.txs :: db.txs[t].reference == reference
  }

  /** The UNIQUE constraint on references. */
  predicate UniqueReferences(txs: map<Uuid, Tx>) {
    forall t, u | t in txs && u in txs && t != u :: txs[t].reference != txs[u].reference
  }

  /** The foreign key of an entry on its transaction. */
  predicate EntriesOwned(db: Db) {
    forall e | e in db.entries :: e.tx in db.txs
  }

  function CreateTransaction(db: Db, id: Uuid, tx: Tx): Result<Db> {
    if id in db.txs || ReferenceTaken(db, tx.reference) then Err(UniqueViolation)
    else if tx.amount <= 0 || !Supported(tx.currency) then Err(CheckViolation)
    else Ok(db.(txs := db.txs[id := tx]))
  }

  function CreateEntry(db: Db, e: Entry): Result<Db> {
    if e.tx !in db.txs || e.account !in db.accounts || e.amount <= 0 then Err(CheckViolation)
    else Ok(db.(entries := db.entries + [e]))
  }

  function UpdateTransactionStatus(db: Db, id: Uuid, status: Status): Result<Db> {
    if id !in db.txs then Err(UnexpectedRows)
    else if status.ManualReview? then Err(CheckViolation)
    else Ok(db.(txs := db.txs[id := db.txs[id].(status := status)]))
  }

  function UpdateTransactionMeta(db: Db, id: Uuid, meta: Meta): Result<Db> {
    if id !in db.txs then Err(UnexpectedRows)
    else Ok(db.(txs := db.txs[id := db.txs[id].(meta := meta)]))
  }

  function WriteAudit(db: Db, row: Audit): Db {
    db.(audit := db.audit + [row])
  }

  // ---- payouts ----

  function InsertPayout(db: Db, id: Uuid, p: Payout): Result<Db> {
    if id in db.payouts then Err(UniqueViolation)
    else if
      || p.tx !in db.txs || p.account !in db.accounts || p.amount <= 0
      || !Supported(p.currency) || p.status.Reversed?
    then Err(CheckViolation)
    else Ok(db.(payouts := db.payouts[id := p]))
  }

  predicate Lists(rows: seq<Selected>, p: Uuid) {
    exists i | 0 <= i < |rows| :: rows[i].id == p
  }

  /** A result of a SELECT over payouts with one status: existing rows, each once. */
  predicate Selection(db: Db, rows: seq<Selected>, status: Status) {
    && (forall i | 0 <= i < |rows| ::
          rows[i].id in db.payouts && db.payouts[rows[i].id] == rows[i].row && rows[i].row.status == status)
    && (forall i, j | 0 <= i < j < |rows| :: rows[i].id != rows[j].id)
  }

  function UpdatePayoutStatus(db: Db, id: Uuid, status: Status, gatewayRef: Option<string>): Result<Db> {
    if id !in db.payouts then Err(UnexpectedRows)
    else if status.Reversed? then Err(CheckViolation)
    else Ok(db.(payouts := db.payouts[id := db.payouts[id].(status := status, gatewayRef := gatewayRef)]))
  }
}
