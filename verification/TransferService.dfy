/** Transfers and exchanges as the service runs them, statement by statement. */
module TransferService {
  import opened Results
  import opened Tables
  import opened Store
  import opened LockOrder
  import Ledger
  import Money
  import Deltas
  import Acceptance
  import opened Deadlock
  import opened Entries

  /** What a caller learns about a transaction. */
  datatype Receipt = Receipt(id: Uuid, tx: Tx)

  /** The receipt describes a row that is in the table under the reference. */
  predicate Describes(db: Db, receipt: Receipt, reference: string) {
    receipt.id in db.txs && db.txs[receipt.id] == receipt.tx && receipt.tx.reference == reference
  }

  /** What other requests may do to the tables between two statements of this one: rows are never
      removed, and what identifies a transaction, and the transaction of a payout, never changes. */
  ghost predicate Evolved(d: Db, d': Db) {
    && (forall t | t in d.txs :: t in d'.txs && d'.txs[t] == d.txs[t].(status := d'.txs[t].status))
    && (forall p | p in d.payouts :: p in d'.payouts && d'.payouts[p].tx == d.payouts[p].tx)
  }

  /** Nobody else uses the fresh id this request has drawn. */
  method Interference(q: Queries, mine: Uuid)
    modifies q
    ensures Evolved(old(q.Snapshot()), q.Snapshot()) && q.faults == old(q.faults)
    ensures mine !in old(q.txs) ==> mine !in q.txs
  {
    // Whatever commits here is up to the environment.
  }

  method StartTransaction(q: Queries, tid: Uuid, tx: Tx) returns (r: Result<()>)
    modifies q
    ensures q.Ran(Ledger.StartTransaction(old(q.Snapshot()), tid, tx), r)
    ensures Asked(old(q.held), q.held, ReferenceLock(tx.reference), r.Ok?)
  {
    var _ :- q.CreateTransaction(tid, tx.(status := Pending));
    var _ :- q.WriteAudit(Audit(tid, Created, None, Pending));
    r := q.TransitionState(tid, Processing, ProcessingStarted);
  }

  method BookTransfer(q: Queries, tid: Uuid, from: Uuid, to: Uuid, amount: int) returns (r: Result<()>)
    modifies q
    ensures q.Ran(Ledger.BookTransfer(old(q.Snapshot()), tid, from, to, amount), r)
    ensures AccountLock(from) in old(q.held) && AccountLock(to) in old(q.held) ==> q.held == old(q.held)
  {
    var _ :- q.CreateEntry(Entry(tid, from, amount, Debit));
    var _ :- q.CreateEntry(Entry(tid, to, amount, Credit));
    var _ :- q.UpdateAccountBalance(from, -amount);
    var _ :- q.UpdateAccountBalance(to, amount);
    r := q.TransitionState(tid, Completed, CompletedAction);
  }

  /** The two accounts are locked in ascending order before anything is read, and the reference after them. */
  method TransferBody(q: Queries, tid: Uuid, from: Uuid, to: Uuid, amount: int, reference: string)
    returns (r: Result<()>)
    requires amount > 0 && reference != "" && from != to && q.held == []
    modifies q
    ensures q.Ran(Ledger.Transfer(old(q.Snapshot()), tid, from, to, amount, reference), r)
    ensures Keeps(Plan(Move(LockPair(from, to), reference)), q.held, r.Ok?)
  {
    var plan := LockPair(from, to);
    var _ :- q.LockAccount(plan[0]);
    var _ :- q.LockAccount(plan[1]);
    assert q.held == RowLocks(plan) && q.held + [ReferenceLock(reference)] == Plan(Move(plan, reference));
    r := TransferLocked(q, tid, from, to, amount, reference);
  }

  method TransferLocked(q: Queries, tid: Uuid, from: Uuid, to: Uuid, amount: int, reference: string)
    returns (r: Result<()>)
    requires amount > 0 && reference != "" && from != to
    modifies q
    ensures q.Ran(Ledger.Transfer(old(q.Snapshot()), tid, from, to, amount, reference), r)
    ensures AccountLock(from) in old(q.held) && AccountLock(to) in old(q.held) ==>
              Asked(old(q.held), q.held, ReferenceLock(reference), r.Ok?)
  {
    var sender :- q.ReadAccount(from);
    var receiver :- q.ReadAccount(to);
    if sender.currency != receiver.currency {
      return Err(CurrencyMismatch);
    }
    if sender.balance < amount {
      return Err(InsufficientFunds);
    }
    var _ :- StartTransaction(q, tid, Tx(amount, sender.currency, TypeTransfer, Pending, reference, NoMeta));
    r := BookTransfer(q, tid, from, to, amount);
  }

  /** The transfer transaction: commits exactly the ledger's transfer, or leaves no trace. */
  method TransferTx(q: Queries, tid: Uuid, from: Uuid, to: Uuid, amount: int, reference: string) returns (r: Result<()>)
    requires amount > 0 && reference != "" && from != to
    modifies q
    ensures q.Committed(Ledger.Transfer(old(q.Snapshot()), tid, from, to, amount, reference), r)
  {
    var before := q.BeginTx();
    var body := TransferBody(q, tid, from, to, amount, reference);
    r := q.EndTx(before, body);
  }

  /** The row is a transfer of this amount between these accounts. */
  predicate IsTransfer(db: Db, id: Uuid, from: Uuid, to: Uuid, amount: int) {
    && id in db.txs && db.txs[id].kind == TypeTransfer && db.txs[id].amount == amount
    && Of(db.entries, id) == PairLegs(id, from, to, amount)
  }

  /** The reference is taken by something else than this transfer. */
  predicate TransferClash(db: Db, reference: string, from: Uuid, to: Uuid, amount: int) {
    exists t | t in db.txs :: db.txs[t].reference == reference && !IsTransfer(db, t, from, to, amount)
  }

  /** A transfer request from validation to response. Its transaction meets `at`; `now` is what others have
      made of the tables when this call last looks at them. A success reports whatever is stored under
      the reference: it is about this request if and only if the reference is not taken otherwise. */
  method Transfer(q: Queries, tid: Uuid, from: Uuid, to: Uuid, amount: int, reference: string)
    returns (r: Result<Receipt>, ghost at: Db, ghost now: Db)
    modifies q
    ensures r.Ok? ==> Describes(q.Snapshot(), r.value, reference)
    ensures Evolved(old(q.Snapshot()), at) && Evolved(at, now)
    ensures || q.Snapshot() == now
            || (now == at && Ledger.Transfer(at, tid, from, to, amount, reference) == Ok(q.Snapshot()))
    ensures ReferenceTaken(old(q.Snapshot()), reference) ==> q.Snapshot() == old(q.Snapshot())
    ensures r.Ok? && UniqueReferences(now.txs) && EntriesOwned(now) ==>
              (IsTransfer(q.Snapshot(), r.value.id, from, to, amount) <==> !TransferClash(now, reference, from, to,
                                                                                          amount))
    ensures r.Err? && r.error == Fault ==> q.faults > old(q.faults)
    ensures r.Err? && r.error != Fault ==>
              q.Snapshot() == now && Ledger.Transfer(at, tid, from, to, amount, reference) == Err(r.error)
    ensures Ledger.Transfer(at, tid, from, to, amount, reference).Ok? && q.faults == old(q.faults) ==>
              Ledger.Transfer(at, tid, from, to, amount, reference) == Ok(q.Snapshot()) && r.Ok? && r.value.id == tid
    ensures ReferenceTaken(old(q.Snapshot()), reference) && q.faults == old(q.faults) ==>
              (amount > 0 && reference != "" && from != to ==> r.Ok?)
    ensures r == Err(UniqueViolation) && q.faults == old(q.faults) ==> !ReferenceTaken(now, reference)
  {
    at, now := q.Snapshot(), q.Snapshot();
    if amount <= 0 {
      return Err(InvalidAmount), at, now;
    }
    if reference == "" {
      return Err(ReferenceRequired), at, now;
    }
    if from == to {
      return Err(SameAccountTransfer), at, now;
    }
    Acceptance.TransferIff(at, tid, from, to, amount, reference);
    var existing := q.FindReference(reference);
    if existing.Ok? {
      return Ok(Receipt(existing.value.0, existing.value.1)), at, now;
    }
    if existing.error != NotFound {
      return Err(existing.error), at, now;
    }
    Interference(q, tid);
    at, now := q.Snapshot(), q.Snapshot();
    var done := TransferTx(q, tid, from, to, amount, reference);
    if done.Ok? {
      TransferCommitted(at, tid, from, to, amount, reference);
      return Ok(Receipt(tid, q.txs[tid])), at, now;
    }
    if done.error == UniqueViolation {
      Interference(q, tid);
      now := q.Snapshot();
      existing := q.FindReference(reference);
      if existing.Ok? {
        return Ok(Receipt(existing.value.0, existing.value.1)), at, now;
      }
    }
    r := Err(done.error);
  }

  lemma TransferCommitted(db: Db, tid: Uuid, from: Uuid, to: Uuid, amount: int, reference: string)
    requires Ledger.Transfer(db, tid, from, to, amount, reference).Ok?
    ensures var d' := Ledger.Transfer(db, tid, from, to, amount, reference).value;
            && tid in d'.txs && d'.txs[tid].reference == reference && d'.txs[tid].status == Completed
            && (EntriesOwned(db) ==> IsTransfer(d', tid, from, to, amount))
    ensures !ReferenceTaken(db, reference)
  {
    Deltas.TransferChanges(db, tid, from, to, amount, reference);
    FreshLegs(db, tid, PairLegs(tid, from, to, amount));
  }

  lemma FreshLegs(db: Db, tid: Uuid, legs: seq<Entry>)
    requires forall e | e in legs :: e.tx == tid
    ensures EntriesOwned(db) && tid !in db.txs ==> Of(db.entries + legs, tid) == legs
  {
    OfAppend(db.entries, legs, tid);
    OfOwn(db.entries, tid);
    OfOwn(legs, tid);
  }

  // ---- exchange ----

  method WriteExchangeLegs(q: Queries, tid: Uuid, cmd: Ledger.ExchangeCmd, target: int, liqSource: Uuid,
                           liqTarget: Uuid)
    returns (r: Result<()>)
    modifies q
    ensures q.Ran(Ledger.WriteExchangeLegs(old(q.Snapshot()), tid, cmd, target, liqSource, liqTarget), r)
    ensures q.held == old(q.held)
  {
    var _ :- q.CreateEntry(Entry(tid, cmd.from, cmd.amount, Debit));
    var _ :- q.CreateEntry(Entry(tid, liqSource, cmd.amount, Credit));
    var _ :- q.CreateEntry(Entry(tid, liqTarget, target, Debit));
    r := q.CreateEntry(Entry(tid, cmd.to, target, Credit));
  }

  method MoveExchangeFunds(q: Queries, cmd: Ledger.ExchangeCmd, target: int, liqSource: Uuid, liqTarget: Uuid)
    returns (r: Result<()>)
    modifies q
    ensures q.Ran(Ledger.MoveExchangeFunds(old(q.Snapshot()), cmd, target, liqSource, liqTarget), r)
    ensures HoldsFour(old(q.held), cmd, liqSource, liqTarget) ==> q.held == old(q.held)
  {
    var _ :- q.UpdateAccountBalance(cmd.from, -cmd.amount);
    var _ :- q.UpdateAccountBalance(liqSource, cmd.amount);
    var _ :- q.UpdateAccountBalance(liqTarget, -target);
    r := q.UpdateAccountBalance(cmd.to, target);
  }

  method BookExchange(q: Queries, tid: Uuid, cmd: Ledger.ExchangeCmd, target: int, liqSource: Uuid, liqTarget: Uuid)
    returns (r: Result<()>)
    modifies q
    ensures q.Ran(Ledger.BookExchange(old(q.Snapshot()), tid, cmd, target, liqSource, liqTarget), r)
    ensures HoldsFour(old(q.held), cmd, liqSource, liqTarget) ==> q.held == old(q.held)
  {
    var _ :- WriteExchangeLegs(q, tid, cmd, target, liqSource, liqTarget);
    var _ :- MoveExchangeFunds(q, cmd, target, liqSource, liqTarget);
    r := q.TransitionState(tid, Completed, CompletedAction);
  }

  method PostExchange(q: Queries, tid: Uuid, cmd: Ledger.ExchangeCmd, target: int, liqSource: Uuid, liqTarget: Uuid)
    returns (r: Result<()>)
    modifies q
    ensures q.Ran(Ledger.PostExchange(old(q.Snapshot()), tid, cmd, target, liqSource, liqTarget), r)
    ensures HoldsFour(old(q.held), cmd, liqSource, liqTarget) ==>
              Asked(old(q.held), q.held, ReferenceLock(cmd.reference), r.Ok?)
  {
    var _ :- StartTransaction(q, tid, Tx(cmd.amount, cmd.source, TypeExchange, Pending, cmd.reference, NoMeta));
    var _ :- q.UpdateTransactionMeta(tid, ExchangeMeta(cmd.source, cmd.target, target));
    r := BookExchange(q, tid, cmd, target, liqSource, liqTarget);
  }

  /** Locks every account of the plan in order; fails on the first one that does not exist. */
  method LockAll(q: Queries, plan: seq<Uuid>) returns (r: Result<()>)
    requires q.held == [] && Ascending(plan)
    modifies q`faults, q`held
    ensures Keeps(RowLocks(plan), q.held, r.Ok?)
    ensures r.Ok? ==> (forall id | id in plan :: id in q.accounts) && q.faults == old(q.faults)
    ensures r.Err? ==> (r.error == Fault && q.faults > old(q.faults)) ||
                       (r.error == NotFound && q.faults == old(q.faults) && exists id | id in plan :: id !in q.accounts)
  {
    for i := 0 to |plan|
      invariant forall k | 0 <= k < i :: plan[k] in q.accounts
      invariant q.faults == old(q.faults) && q.held == RowLocks(plan)[..i]
    {
      var _ :- q.LockAccount(plan[i]);
    }
    r := Ok(());
  }

  /** The four accounts of an exchange are locked. */
  predicate HoldsFour(held: seq<Lock>, cmd: Ledger.ExchangeCmd, liqSource: Uuid, liqTarget: Uuid) {
    && AccountLock(cmd.from) in held && AccountLock(cmd.to) in held
    && AccountLock(liqSource) in held && AccountLock(liqTarget) in held
  }

  predicate ValidExchange(cmd: Ledger.ExchangeCmd) {
    cmd.amount > 0 && cmd.reference != "" && cmd.from != cmd.to && cmd.source != cmd.target
  }

  /** Runs the checks of an exchange under locks taken in ascending order. */
  method CheckExchange(q: Queries, cmd: Ledger.ExchangeCmd, liqSource: Uuid, liqTarget: Uuid)
    returns (r: Result<()>, ghost plan: seq<Uuid>)
    requires ValidExchange(cmd) && SystemAccount(cmd.source) == Ok(liqSource)
    requires SystemAccount(cmd.target) == Ok(liqTarget) && q.held == []
    modifies q`faults, q`held
    ensures Ascending(plan) && Elements(plan) == {cmd.from, cmd.to, liqSource, liqTarget}
    ensures Keeps(RowLocks(plan), q.held, r.Ok?) && (r.Ok? ==> HoldsFour(q.held, cmd, liqSource, liqTarget))
    ensures r.Ok? ==> Ledger.CheckExchange(q.Snapshot(), cmd) == Ok((liqSource, liqTarget)) && q.faults == old(q.faults)
    ensures r.Err? ==> (r.error == Fault && q.faults > old(q.faults)) ||
                       (Ledger.CheckExchange(q.Snapshot(), cmd) == Err(r.error) && q.faults == old(q.faults))
  {
    var wanted := [cmd.from, liqSource, liqTarget, cmd.to];
    var order := LockList(wanted);
    plan := order;
    assert Elements(wanted) == {cmd.from, cmd.to, liqSource, liqTarget};
    RowsLocked(plan);
    r := LockAll(q, order);
    if r.Err? {
      return;
    }
    r := TestExchange(q, cmd, liqSource, liqTarget);
  }

  lemma RowsLocked(ids: seq<Uuid>)
    ensures forall id :: id in ids <==> id in Elements(ids)
    ensures forall id | id in ids :: AccountLock(id) in RowLocks(ids)
  {
    forall id | id in ids ensures AccountLock(id) in RowLocks(ids) {
      var k :| 0 <= k < |ids| && ids[k] == id;
      assert RowLocks(ids)[k] == AccountLock(id);
    }
  }

  method TestExchange(q: Queries, cmd: Ledger.ExchangeCmd, liqSource: Uuid, liqTarget: Uuid) returns (r: Result<()>)
    requires ValidExchange(cmd) && SystemAccount(cmd.source) == Ok(liqSource)
    requires SystemAccount(cmd.target) == Ok(liqTarget)
    requires cmd.from in q.accounts && cmd.to in q.accounts && liqSource in q.accounts && liqTarget in q.accounts
    modifies q`faults
    ensures r.Ok? ==> Ledger.CheckExchange(q.Snapshot(), cmd) == Ok((liqSource, liqTarget)) && q.faults == old(q.faults)
    ensures r.Err? ==> (r.error == Fault && q.faults > old(q.faults)) ||
                       (Ledger.CheckExchange(q.Snapshot(), cmd) == Err(r.error) && q.faults == old(q.faults))
  {
    var sender :- q.ReadAccount(cmd.from);
    var receiver :- q.ReadAccount(cmd.to);
    if sender.currency != cmd.source || receiver.currency != cmd.target {
      return Err(CurrencyMismatch);
    }
    if sender.balance < cmd.amount {
      return Err(InsufficientFunds);
    }
    r := Ok(());
  }

  /** The accounts of an exchange are locked in ascending order, each once, and the reference after them. */
  method ExchangeBody(q: Queries, tid: Uuid, cmd: Ledger.ExchangeCmd, target: int, liqSource: Uuid, liqTarget: Uuid)
    returns (r: Result<()>, ghost plan: seq<Uuid>)
    requires ValidExchange(cmd) && SystemAccount(cmd.source) == Ok(liqSource)
    requires SystemAccount(cmd.target) == Ok(liqTarget) && q.held == []
    modifies q
    ensures q.Ran(Ledger.Exchange(old(q.Snapshot()), tid, cmd, target), r)
    ensures Ascending(plan) && Elements(plan) == {cmd.from, cmd.to, liqSource, liqTarget}
    ensures Keeps(Plan(Move(plan, cmd.reference)), q.held, r.Ok?)
  {
    r, plan := CheckExchange(q, cmd, liqSource, liqTarget);
    if r.Ok? {
      r := PostExchange(q, tid, cmd, target, liqSource, liqTarget);
    }
  }

  method ExchangeTx(q: Queries, tid: Uuid, cmd: Ledger.ExchangeCmd, target: int, liqSource: Uuid, liqTarget: Uuid)
    returns (r: Result<()>)
    requires ValidExchange(cmd) && SystemAccount(cmd.source) == Ok(liqSource)
    requires SystemAccount(cmd.target) == Ok(liqTarget)
    modifies q
    ensures q.Committed(Ledger.Exchange(old(q.Snapshot()), tid, cmd, target), r)
  {
    var before := q.BeginTx();
    var body, _ := ExchangeBody(q, tid, cmd, target, liqSource, liqTarget);
    r := q.EndTx(before, body);
  }

  /** What the receiver gets at the service's rate; nothing for a pair without one. */
  function QuotedTarget(cmd: Ledger.ExchangeCmd): int {
    var rate := Money.ExchangeRate(cmd.source, cmd.target);
    if rate.Ok? then Money.Convert(cmd.amount, rate.value) else 0
  }

  /** The row is this exchange, at this service's rate. */
  predicate IsExchange(db: Db, id: Uuid, cmd: Ledger.ExchangeCmd) {
    && id in db.txs && db.txs[id].kind == TypeExchange && db.txs[id].amount == cmd.amount
    && db.txs[id].meta == ExchangeMeta(cmd.source, cmd.target, QuotedTarget(cmd))
    && |Of(db.entries, id)| == 4 && Of(db.entries, id)[0] == Entry(id, cmd.from, cmd.amount, Debit)
    && Of(db.entries, id)[3] == Entry(id, cmd.to, QuotedTarget(cmd), Credit)
  }

  predicate ExchangeClash(db: Db, cmd: Ledger.ExchangeCmd) {
    exists t | t in db.txs :: db.txs[t].reference == cmd.reference && !IsExchange(db, t, cmd)
  }

  /** An exchange request from validation to response, at the service's own rates; `at` and `now` as for a
      transfer. */
  method TransferExchange(q: Queries, tid: Uuid, cmd: Ledger.ExchangeCmd)
    returns (r: Result<Receipt>, ghost at: Db, ghost now: Db)
    modifies q
    ensures r.Ok? ==> Describes(q.Snapshot(), r.value, cmd.reference)
    ensures Evolved(old(q.Snapshot()), at) && Evolved(at, now)
    ensures q.Snapshot() == now || (now == at && Ledger.Exchange(at, tid, cmd, QuotedTarget(cmd)) == Ok(q.Snapshot()))
    ensures ReferenceTaken(old(q.Snapshot()), cmd.reference) ==> q.Snapshot() == old(q.Snapshot())
    ensures r.Ok? && UniqueReferences(now.txs) && EntriesOwned(now) ==>
              (IsExchange(q.Snapshot(), r.value.id, cmd) <==> !ExchangeClash(now, cmd))
    ensures r.Err? && r.error == Fault ==> q.faults > old(q.faults)
    ensures r.Err? && r.error != Fault ==>
              q.Snapshot() == now && Ledger.Exchange(at, tid, cmd, QuotedTarget(cmd)) == Err(r.error)
    ensures Ledger.Exchange(at, tid, cmd, QuotedTarget(cmd)).Ok? && q.faults == old(q.faults) ==>
              Ledger.Exchange(at, tid, cmd, QuotedTarget(cmd)) == Ok(q.Snapshot()) && r.Ok? && r.value.id == tid
    ensures ReferenceTaken(old(q.Snapshot()), cmd.reference) && q.faults == old(q.faults) ==>
              (ValidExchange(cmd) ==> r.Ok?)
    ensures r == Err(UniqueViolation) && q.faults == old(q.faults) ==> !ReferenceTaken(now, cmd.reference)
  {
    at, now := q.Snapshot(), q.Snapshot();
    if cmd.amount <= 0 {
      return Err(InvalidAmount), at, now;
    }
    if cmd.reference == "" {
      return Err(ReferenceRequired), at, now;
    }
    if cmd.from == cmd.to {
      return Err(SameAccountTransfer), at, now;
    }
    if cmd.source == cmd.target {
      return Err(SameCurrencyExchange), at, now;
    }
    var existing := q.FindReference(cmd.reference);
    if existing.Ok? {
      TakenRefused(at, tid, cmd);
      return Ok(Receipt(existing.value.0, existing.value.1)), at, now;
    }
    if existing.error != NotFound {
      return Err(existing.error), at, now;
    }
    Interference(q, tid);
    at := q.Snapshot();
    r, now := ExchangeNew(q, tid, cmd);
  }

  lemma TakenRefused(db: Db, tid: Uuid, cmd: Ledger.ExchangeCmd)
    requires ReferenceTaken(db, cmd.reference)
    ensures Ledger.Exchange(db, tid, cmd, QuotedTarget(cmd)).Err?
  {
    Acceptance.ExchangeIff(db, tid, cmd, QuotedTarget(cmd));
  }

  /** What comes of an exchange whose transaction meets `at`, when the call last looks at the tables `now`
      and leaves them as `end`. */
  ghost predicate Attempted(at: Db, now: Db, end: Db, tid: Uuid, cmd: Ledger.ExchangeCmd, r: Result<Receipt>,
                            faulted: bool)
  {
    var spec := Ledger.Exchange(at, tid, cmd, QuotedTarget(cmd));
    && Evolved(at, now) && (end == now || (now == at && spec == Ok(end)))
    && (r.Ok? ==> Describes(end, r.value, cmd.reference))
    && (r.Ok? && UniqueReferences(now.txs) && EntriesOwned(now) ==>
          (IsExchange(end, r.value.id, cmd) <==> !ExchangeClash(now, cmd)))
    && (r.Err? && r.error == Fault ==> faulted)
    && (r.Err? && r.error != Fault ==> end == now && spec == Err(r.error))
    && (spec.Ok? && !faulted ==> spec == Ok(end) && r.Ok? && r.value.id == tid)
    && (r == Err(UniqueViolation) && !faulted ==> !ReferenceTaken(now, cmd.reference))
  }

  method ExchangeNew(q: Queries, tid: Uuid, cmd: Ledger.ExchangeCmd) returns (r: Result<Receipt>, ghost now: Db)
    requires ValidExchange(cmd)
    modifies q
    ensures Attempted(old(q.Snapshot()), now, q.Snapshot(), tid, cmd, r, q.faults != old(q.faults))
    ensures q.faults >= old(q.faults)
  {
    var rate := Money.ExchangeRate(cmd.source, cmd.target);
    var liqSource, liqTarget := SystemAccount(cmd.source), SystemAccount(cmd.target);
    if rate.Err? || liqSource.Err? || liqTarget.Err? {
      return Err(UnsupportedCurrency), q.Snapshot();
    }
    r, now := ExchangeOnce(q, tid, cmd, Money.Convert(cmd.amount, rate.value), liqSource.value, liqTarget.value);
  }

  /** The exchange's transaction, and what is stored under the reference when another request has won it. */
  method ExchangeOnce(q: Queries, tid: Uuid, cmd: Ledger.ExchangeCmd, target: int, liqSource: Uuid, liqTarget: Uuid)
    returns (r: Result<Receipt>, ghost now: Db)
    requires ValidExchange(cmd) && target == QuotedTarget(cmd)
    requires SystemAccount(cmd.source) == Ok(liqSource) && SystemAccount(cmd.target) == Ok(liqTarget)
    modifies q
    ensures Attempted(old(q.Snapshot()), now, q.Snapshot(), tid, cmd, r, q.faults != old(q.faults))
    ensures q.faults >= old(q.faults)
  {
    now := q.Snapshot();
    var done := ExchangeTx(q, tid, cmd, target, liqSource, liqTarget);
    if done.Ok? {
      ExchangeCommitted(now, tid, cmd);
      return Ok(Receipt(tid, q.txs[tid])), now;
    }
    if done.error == UniqueViolation {
      Interference(q, tid);
      now := q.Snapshot();
      var existing := q.FindReference(cmd.reference);
      if existing.Ok? {
        return Ok(Receipt(existing.value.0, existing.value.1)), now;
      }
    }
    r := Err(done.error);
  }

  lemma ExchangeCommitted(db: Db, tid: Uuid, cmd: Ledger.ExchangeCmd)
    requires Ledger.Exchange(db, tid, cmd, QuotedTarget(cmd)).Ok?
    ensures var d' := Ledger.Exchange(db, tid, cmd, QuotedTarget(cmd)).value;
            && tid in d'.txs && d'.txs[tid].reference == cmd.reference && d'.txs[tid].status == Completed
            && (EntriesOwned(db) ==> IsExchange(d', tid, cmd))
    ensures !ReferenceTaken(db, cmd.reference)
  {
    var (liqSource, liqTarget) := Ledger.CheckExchange(db, cmd).value;
    Deltas.PostExchangeChanges(db, tid, cmd, QuotedTarget(cmd), liqSource, liqTarget);
    ExchangeRecorded(db, Ledger.Exchange(db, tid, cmd, QuotedTarget(cmd)).value, tid, cmd, liqSource, liqTarget);
  }

  lemma ExchangeRecorded(d: Db, d': Db, tid: Uuid, cmd: Ledger.ExchangeCmd, liqSource: Uuid, liqTarget: Uuid)
    requires Deltas.Changes(d, d', Deltas.ExchangeDelta(tid, cmd, QuotedTarget(cmd), liqSource, liqTarget))
    requires tid !in d.txs
    ensures tid in d'.txs && d'.txs[tid].reference == cmd.reference && d'.txs[tid].status == Completed
    ensures EntriesOwned(d) ==> IsExchange(d', tid, cmd)
  {
    FreshLegs(d, tid, ExchangeLegs(tid, cmd, QuotedTarget(cmd), liqSource, liqTarget));
  }
}
