/**
 Referential facts every committed state satisfies, and the description of every event. Nothing
 here depends on how workers, operators and faults interleave.
 */
module Schema {
  import opened Results
  import opened Tables
  import opened Ledger
  import opened Payouts
  import opened Runs
  import opened Steps
  import opened Entries
  import opened Deltas

  /** Two copies of a payout row agree on everything but status and gateway reference. */
  predicate SameRow(p: Payout, q: Payout) {
    p.tx == q.tx && p.account == q.account && p.amount == q.amount && p.currency == q.currency
  }

  predicate RowOk(db: Db, p: Payout) {
    && p.amount > 0
    && p.tx in db.txs && db.txs[p.tx].kind == TypePayout
    && p.account in db.accounts && db.accounts[p.account].currency == p.currency
    && Supported(p.currency)
  }

  /** A webhook that decided to retry holds a deposit row that matches its payload. */
  predicate TaskOk(db: Db, task: DepositTask) {
    && ValidateDeposit(task.dep).Ok?
    && (task.retry ==>
          && task.tid in db.txs
          && db.txs[task.tid].kind == TypeDeposit
          && db.txs[task.tid].amount == task.dep.amount
          && db.txs[task.tid].currency == task.dep.currency
          && db.txs[task.tid].meta == DepositMeta(task.dep.account))
  }

  ghost predicate UniquePayoutTx(payouts: map<Uuid, Payout>) {
    forall p, q | p in payouts && q in payouts && p != q :: payouts[p].tx != payouts[q].tx
  }

  ghost predicate WellformedDb(db: Db) {
    && Seeded(db)
    && (forall a | a in db.accounts :: Supported(db.accounts[a].currency))
    && UniqueReferences(db.txs)
    && (forall e | e in db.entries :: e.tx in db.txs && e.account in db.accounts)
    && (forall r | r in db.audit :: r.tx in db.txs)
    && (forall p | p in db.payouts :: RowOk(db, db.payouts[p]))
    && UniquePayoutTx(db.payouts)
  }

  ghost predicate ClaimsOk(s: Sys) {
    forall h | h in s.claims :: h.payout in s.db.payouts && SameRow(s.claims[h].row, s.db.payouts[h.payout])
  }

  ghost predicate Wellformed(s: Sys) {
    && WellformedDb(s.db)
    && s.db.accounts.Keys == s.opening.Keys
    && ClaimsOk(s)
    && (forall r | r in s.deposits :: TaskOk(s.db, s.deposits[r]))
  }

  // ---- sound descriptions ----

  predicate SoundTx(d: Db, x: Delta) {
    x.tx.Some? ==>
      var (t, tx) := x.tx.value;
      if t in d.txs then tx == d.txs[t].(status := tx.status) else !ReferenceTaken(d, tx.reference)
  }

  ghost predicate SoundLegs(d: Db, x: Delta) {
    x.legs != [] ==> x.tx.Some? && Balanced(d.accounts, x.legs) && x.legs[0].tx == x.tx.value.0
  }

  predicate SoundPayout(d: Db, x: Delta) {
    x.payout.Some? ==>
      var (p, row) := x.payout.value;
      if p in d.payouts then SameRow(row, d.payouts[p])
      else
        && x.tx.Some? && x.tx.value.0 == row.tx && row.tx !in d.txs && x.tx.value.1.kind == TypePayout
        && row.amount > 0 && Supported(row.currency)
        && row.account in d.accounts && d.accounts[row.account].currency == row.currency
  }

  ghost predicate Sound(d: Db, x: Delta) {
    && SoundTx(d, x) && SoundLegs(d, x) && SoundPayout(d, x)
    && (forall r | r in x.rows :: r.tx in d.txs || (x.tx.Some? && r.tx == x.tx.value.0))
  }

  /** A sound change keeps the tables well formed. */
  lemma SoundKeeps(d: Db, d': Db, x: Delta)
    requires WellformedDb(d) && Changes(d, d', x) && Sound(d, x)
    ensures WellformedDb(d')
  {
    SoundKeepsReferences(d, d', x);
    SoundKeepsLogs(d, d', x);
    SoundKeepsRows(d, d', x);
  }

  lemma SoundKeepsLogs(d: Db, d': Db, x: Delta)
    requires Changes(d, d', x) && Sound(d, x)
    requires forall e | e in d.entries :: e.tx in d.txs && e.account in d.accounts
    requires forall r | r in d.audit :: r.tx in d.txs
    ensures (forall e | e in d'.entries :: e.tx in d'.txs && e.account in d'.accounts)
    ensures (forall r | r in d'.audit :: r.tx in d'.txs)
  {
    forall e | e in d'.entries ensures e.tx in d'.txs && e.account in d'.accounts {
      assert e in d.entries || e in x.legs;
    }
    forall r | r in d'.audit ensures r.tx in d'.txs {
      assert r in d.audit || r in x.rows;
    }
  }

  lemma SoundKeepsRows(d: Db, d': Db, x: Delta)
    requires Changes(d, d', x) && SoundTx(d, x) && SoundPayout(d, x)
    requires (forall p | p in d.payouts :: RowOk(d, d.payouts[p])) && UniquePayoutTx(d.payouts)
    ensures (forall p | p in d'.payouts :: RowOk(d', d'.payouts[p])) && UniquePayoutTx(d'.payouts)
  {
    forall p, q | p in d'.payouts && q in d'.payouts && p != q ensures d'.payouts[p].tx != d'.payouts[q].tx {
      assert p in d.payouts ==> RowOk(d, d.payouts[p]);
      assert q in d.payouts ==> RowOk(d, d.payouts[q]);
    }
    forall p | p in d'.payouts ensures RowOk(d', d'.payouts[p]) {
      assert p in d.payouts ==> RowOk(d, d.payouts[p]);
    }
  }

  lemma SoundKeepsReferences(d: Db, d': Db, x: Delta)
    requires UniqueReferences(d.txs) && Changes(d, d', x) && SoundTx(d, x)
    ensures UniqueReferences(d'.txs)
  {
  }

  // ---- the description of each event ----

  const NOTHING := Delta([], 0, 0, None, None, [])

  lemma NothingChanges(d: Db)
    ensures Changes(d, d, NOTHING) && Sound(d, NOTHING)
  {
    assert d.entries + [] == d.entries && d.audit + [] == d.audit;
  }

  // Changes to a single table.

  lemma PayoutOnly(d: Db, pid: Uuid, row: Payout)
    requires pid in d.payouts && SameRow(row, d.payouts[pid])
    ensures var x := NOTHING.(payout := Some((pid, row)));
            Changes(d, d.(payouts := d.payouts[pid := row]), x) && Sound(d, x)
  {
    NothingChanges(d);
  }

  lemma TxOnly(d: Db, tid: Uuid, status: Status)
    requires tid in d.txs
    ensures var x := NOTHING.(tx := Some((tid, d.txs[tid].(status := status))));
            Changes(d, d.(txs := d.txs[tid := d.txs[tid].(status := status)]), x) && Sound(d, x)
  {
    NothingChanges(d);
  }

  lemma AuditOnly(d: Db, row: Audit)
    requires row.tx in d.txs
    ensures var x := NOTHING.(rows := [row]);
            Changes(d, WriteAudit(d, row), x) && Sound(d, x)
  {
    NothingChanges(d);
  }

  lemma ReleaseOnly(d: Db, id: Uuid, amount: int)
    requires Releasable(d, id, amount)
    ensures var x := NOTHING.(lockAccount := id, lockBy := -amount);
            Changes(d, ReleaseFundsSafe(d, id, amount), x) && Sound(d, x)
  {
    NothingChanges(d);
  }

  lemma TransferSound(db: Db, tid: Uuid, from: Uuid, to: Uuid, amount: int, reference: string)
    requires Transfer(db, tid, from, to, amount, reference).Ok?
    ensures from in db.accounts
    ensures var x := TransferDelta(db, tid, from, to, amount, reference);
            Changes(db, Transfer(db, tid, from, to, amount, reference).value, x) && Sound(db, x)
  {
    TransferChanges(db, tid, from, to, amount, reference);
    PairBalanced(db.accounts, tid, from, to, amount);
  }

  lemma CheckedExchange(db: Db, cmd: ExchangeCmd)
    requires Seeded(db) && CheckExchange(db, cmd).Ok?
    ensures var (liqSource, liqTarget) := CheckExchange(db, cmd).value;
            && SameCurrency(db.accounts, cmd.from, liqSource) && SameCurrency(db.accounts, liqTarget, cmd.to)
            && 0 < cmd.amount <= db.accounts[cmd.from].balance
  {
  }

  lemma ExchangeSound(db: Db, tid: Uuid, cmd: ExchangeCmd, target: int)
    requires Seeded(db) && Exchange(db, tid, cmd, target).Ok?
    ensures CheckExchange(db, cmd).Ok?
    ensures var (liqSource, liqTarget) := CheckExchange(db, cmd).value;
            var x := ExchangeDelta(tid, cmd, target, liqSource, liqTarget);
            Changes(db, Exchange(db, tid, cmd, target).value, x) && Sound(db, x)
  {
    CheckedExchange(db, cmd);
    var (liqSource, liqTarget) := CheckExchange(db, cmd).value;
    PostExchangeChanges(db, tid, cmd, target, liqSource, liqTarget);
    ExchangeBalanced(db.accounts, tid, cmd, target, liqSource, liqTarget);
  }

  lemma DepositSound(db: Db, task: DepositTask)
    requires Seeded(db) && TaskOk(db, task) && DepositFunds(db, task.tid, task.retry, task.dep).Ok?
    ensures SystemAccount(task.dep.currency).Ok?
    ensures var x := DepositDelta(db, task.tid, task.retry, task.dep, SystemAccount(task.dep.currency).value);
            Changes(db, DepositFunds(db, task.tid, task.retry, task.dep).value, x) && Sound(db, x)
  {
    DepositChanges(db, task.tid, task.retry, task.dep);
    PairBalanced(db.accounts, task.tid, SystemAccount(task.dep.currency).value, task.dep.account, task.dep.amount);
  }

  lemma DepositTrail(db: Db, task: DepositTask)
    requires DepositFunds(db, task.tid, task.retry, task.dep).Ok?
    ensures SystemAccount(task.dep.currency).Ok? && (task.retry ==> task.tid in db.txs)
    ensures Trailed(db, DepositDelta(db, task.tid, task.retry, task.dep, SystemAccount(task.dep.currency).value))
  {
    DepositChanges(db, task.tid, task.retry, task.dep);
    if task.retry {
      RetryFollows(task.tid, db.txs[task.tid].status);
    } else {
      StraightThroughFollows(task.tid);
    }
  }

  lemma SettleSound(db: Db, pid: Uuid, row: Payout, action: Action, ref: Option<string>)
    requires Seeded(db) && Settle(db, pid, row, action, ref).Ok?
    requires pid in db.payouts && SameRow(row, db.payouts[pid]) && RowOk(db, db.payouts[pid])
    ensures row.tx in db.txs && SystemAccount(row.currency).Ok?
    ensures var x := SettleDelta(db, pid, row, action, ref, SystemAccount(row.currency).value);
            Changes(db, Settle(db, pid, row, action, ref).value, x) && Sound(db, x) && Trailed(db, x)
  {
    SettleChanges(db, pid, row, action, ref);
    MoveRowsFollow(row.tx, db.txs[row.tx].status, Completed, action);
    PairBalanced(db.accounts, row.tx, row.account, SystemAccount(row.currency).value, row.amount);
  }

  /** The next database is the old one changed by a sound description. */
  ghost predicate Described(s: Sys, s': Sys, x: Delta) {
    Changes(s.db, s'.db, x) && Sound(s.db, x)
  }

  /** The only transaction row touched, if any, belongs to a payout. */
  predicate OnPayout(d: Db, x: Delta) {
    x.tx.Some? ==> x.tx.value.0 in d.txs && d.txs[x.tx.value.0].kind == TypePayout
  }

  /** No payout but the event's subject, and no transaction of another payout, is touched. */
  predicate Confined(d: Db, x: Delta, e: Event) {
    && (x.payout.Some? ==> Subject(e) == Some(x.payout.value.0))
    && (x.tx.Some? && x.tx.value.0 in d.txs && d.txs[x.tx.value.0].kind == TypePayout ==>
          Subject(e).Some? && Subject(e).value in d.payouts && d.payouts[Subject(e).value].tx == x.tx.value.0)
  }

  /** What later proofs need to know about the tables after one event: a sound description, confined to the
      event's own payout, that keeps the audit trail unless the event bypasses it. */
  ghost predicate Told(s: Sys, e: Event, s': Sys, x: Delta) {
    && Described(s, s', x) && Confined(s.db, x, e)
    && (!e.AuditReview? && !e.Fallback? ==> Trailed(s.db, x))
    && (!IsLedger(e) ==> OnPayout(s.db, x))
  }

  // ---- ledger events ----

  lemma TellTransfer(s: Sys, tid: Uuid, from: Uuid, to: Uuid, amount: int, reference: string, s': Sys)
    returns (x: Delta)
    requires Next(s, DoTransfer(tid, from, to, amount, reference), s')
    ensures Told(s, DoTransfer(tid, from, to, amount, reference), s', x)
  {
    TransferIs(s, tid, from, to, amount, reference, s');
    TransferSound(s.db, tid, from, to, amount, reference);
    TransferChanges(s.db, tid, from, to, amount, reference);
    StraightThroughFollows(tid);
    x := TransferDelta(s.db, tid, from, to, amount, reference);
  }

  lemma TellExchange(s: Sys, tid: Uuid, cmd: ExchangeCmd, target: int, s': Sys) returns (x: Delta)
    requires Next(s, DoExchange(tid, cmd, target), s') && Seeded(s.db)
    ensures Told(s, DoExchange(tid, cmd, target), s', x)
  {
    ExchangeIs(s, tid, cmd, target, s');
    x := ExchangeTold(s.db, tid, cmd, target);
  }

  lemma ExchangeTold(db: Db, tid: Uuid, cmd: ExchangeCmd, target: int) returns (x: Delta)
    requires Seeded(db) && Exchange(db, tid, cmd, target).Ok?
    ensures Changes(db, Exchange(db, tid, cmd, target).value, x) && Sound(db, x)
    ensures Trailed(db, x) && x.payout.None? && x.tx.Some? && x.tx.value.0 !in db.txs
  {
    ExchangeSound(db, tid, cmd, target);
    var (liqSource, liqTarget) := CheckExchange(db, cmd).value;
    PostExchangeChanges(db, tid, cmd, target, liqSource, liqTarget);
    StraightThroughFollows(tid);
    x := ExchangeDelta(tid, cmd, target, liqSource, liqTarget);
  }

  lemma TellCheck(s: Sys, request: nat, dep: Deposit, tid: Uuid, s': Sys) returns (x: Delta)
    requires Next(s, CheckDeposit(request, dep, tid), s')
    ensures Told(s, CheckDeposit(request, dep, tid), s', x)
  {
    CheckIs(s, request, dep, tid, s');
    NothingChanges(s.db);
    x := NOTHING;
  }

  lemma TellCommit(s: Sys, request: nat, s': Sys) returns (x: Delta)
    requires Next(s, CommitDeposit(request), s') && Seeded(s.db)
    requires request in s.deposits && TaskOk(s.db, s.deposits[request])
    ensures Told(s, CommitDeposit(request), s', x)
  {
    CommitIs(s, request, s');
    x := DepositTold(s.db, s.deposits[request]);
  }

  lemma DepositTold(db: Db, task: DepositTask) returns (x: Delta)
    requires Seeded(db) && TaskOk(db, task) && DepositFunds(db, task.tid, task.retry, task.dep).Ok?
    ensures Changes(db, DepositFunds(db, task.tid, task.retry, task.dep).value, x) && Sound(db, x)
    ensures Trailed(db, x) && x.payout.None? && x.tx.Some?
    ensures x.tx.value.0 in db.txs ==> db.txs[x.tx.value.0].kind == TypeDeposit
  {
    DepositSound(db, task);
    DepositTrail(db, task);
    DepositChanges(db, task.tid, task.retry, task.dep);
    x := DepositDelta(db, task.tid, task.retry, task.dep, SystemAccount(task.dep.currency).value);
  }

  lemma TellRequest(s: Sys, pid: Uuid, tid: Uuid, req: PayoutRequest, s': Sys) returns (x: Delta)
    requires Next(s, DoRequest(pid, tid, req), s')
    ensures Told(s, DoRequest(pid, tid, req), s', x)
  {
    RequestIs(s, pid, tid, req, s');
    RequestSound(s.db, s'.db, pid, tid, req);
    x := RequestDelta(pid, tid, req);
  }

  lemma RequestSound(d: Db, d': Db, pid: Uuid, tid: Uuid, req: PayoutRequest)
    requires RequestPayout(d, pid, tid, req) == Ok(d')
    ensures var x := RequestDelta(pid, tid, req);
            Changes(d, d', x) && Sound(d, x) && Trailed(d, x) && pid !in d.payouts && tid !in d.txs
  {
    RequestChanges(d, pid, tid, req);
  }

  lemma TellLedger(s: Sys, e: Event, s': Sys) returns (x: Delta)
    requires Next(s, e, s') && IsLedger(e) && Seeded(s.db) && forall r | r in s.deposits :: TaskOk(s.db, s.deposits[r])
    ensures Told(s, e, s', x)
  {
    match e
    case DoTransfer(tid, from, to, amount, reference) => x := TellTransfer(s, tid, from, to, amount, reference, s');
    case DoExchange(tid, cmd, target) => x := TellExchange(s, tid, cmd, target, s');
    case CheckDeposit(request, dep, tid) => x := TellCheck(s, request, dep, tid, s');
    case CommitDeposit(request) =>
      CommitIs(s, request, s');
      x := TellCommit(s, request, s');
    case DoRequest(pid, tid, req) => x := TellRequest(s, pid, tid, req, s');
  }

  // ---- events about one payout ----

  /** What well-formedness says about one payout and one holder. */
  predicate HolderOk(s: Sys, h: Holder) {
    && Seeded(s.db)
    && h.payout in s.db.payouts && RowOk(s.db, s.db.payouts[h.payout])
    && (h in s.claims ==> SameRow(s.claims[h].row, s.db.payouts[h.payout]))
  }

  /** The description is about one payout and its transaction. */
  ghost predicate Owned(db: Db, x: Delta, pid: Uuid)
    requires pid in db.payouts
  {
    && Sound(db, x) && OnPayout(db, x) && Trailed(db, x)
    && (x.payout.Some? ==> x.payout.value.0 == pid)
    && (x.tx.Some? ==> x.tx.value.0 == db.payouts[pid].tx)
  }

  lemma OwnedIsTold(s: Sys, e: Event, s': Sys, x: Delta, pid: Uuid)
    requires Subject(e) == Some(pid) && pid in s.db.payouts && Changes(s.db, s'.db, x) && Owned(s.db, x, pid)
    ensures Told(s, e, s', x)
  {
  }

  lemma MoveSound(db: Db, pid: Uuid, row: Payout, status: Status, action: Action) returns (x: Delta)
    requires MoveRow(db, pid, row, status, action).Ok? && pid in db.payouts && RowOk(db, db.payouts[pid])
    requires SameRow(row, db.payouts[pid])
    ensures Changes(db, MoveRow(db, pid, row, status, action).value, x) && Owned(db, x, pid)
  {
    MoveRowChanges(db, pid, row, status, action);
    x := StatusDelta(db, pid, status, None, row.tx, status, action);
  }

  lemma FailSound(db: Db, pid: Uuid, row: Payout) returns (x: Delta)
    requires FailPayout(db, pid, row).Ok? && pid in db.payouts && RowOk(db, db.payouts[pid])
    requires SameRow(row, db.payouts[pid])
    ensures Changes(db, FailPayout(db, pid, row).value, x) && Owned(db, x, pid)
  {
    FailChanges(db, pid, row);
    x := ReleaseDelta(db, pid, row, None, PayoutFailed, true);
  }

  lemma RefundSound(db: Db, pid: Uuid) returns (x: Delta)
    requires RefundReview(db, pid).Ok? && pid in db.payouts && RowOk(db, db.payouts[pid])
    ensures Changes(db, RefundReview(db, pid).value, x) && Owned(db, x, pid)
  {
    var row := db.payouts[pid];
    RefundChanges(db, pid);
    x := ReleaseDelta(db, pid, row, row.gatewayRef, ReviewRefunded, Releasable(db, row.account, row.amount));
  }

  lemma SettleOwned(db: Db, pid: Uuid, row: Payout, action: Action, ref: Option<string>) returns (x: Delta)
    requires Seeded(db) && Settle(db, pid, row, action, ref).Ok?
    requires pid in db.payouts && SameRow(row, db.payouts[pid]) && RowOk(db, db.payouts[pid])
    ensures Changes(db, Settle(db, pid, row, action, ref).value, x) && Owned(db, x, pid)
  {
    SettleSound(db, pid, row, action, ref);
    x := SettleDelta(db, pid, row, action, ref, SystemAccount(row.currency).value);
  }

  lemma TellRecover(s: Sys, pid: Uuid, s': Sys) returns (x: Delta)
    requires Next(s, DoRecover(pid), s') && (pid in s.db.payouts ==> RowOk(s.db, s.db.payouts[pid]))
    ensures Told(s, DoRecover(pid), s', x)
  {
    RecoverIs(s, pid, s');
    x := MoveSound(s.db, pid, s.db.payouts[pid], Pending, RequeueStale);
    OwnedIsTold(s, DoRecover(pid), s', x, pid);
  }

  lemma TellConfirm(s: Sys, pid: Uuid, replacementRef: Option<string>, s': Sys) returns (x: Delta)
    requires Next(s, DoConfirm(pid, replacementRef), s') && Seeded(s.db)
    requires pid in s.db.payouts ==> RowOk(s.db, s.db.payouts[pid])
    ensures Told(s, DoConfirm(pid, replacementRef), s', x)
  {
    x := ConfirmOwned(s, pid, replacementRef, s');
    OwnedIsTold(s, DoConfirm(pid, replacementRef), s', x, pid);
  }

  lemma ConfirmOwned(s: Sys, pid: Uuid, replacementRef: Option<string>, s': Sys) returns (x: Delta)
    requires Next(s, DoConfirm(pid, replacementRef), s') && Seeded(s.db)
    requires pid in s.db.payouts ==> RowOk(s.db, s.db.payouts[pid])
    ensures pid in s.db.payouts && Changes(s.db, s'.db, x) && Owned(s.db, x, pid)
  {
    var ref := ConfirmIs(s, pid, replacementRef, s');
    x := SettleOwned(s.db, pid, s.db.payouts[pid], ReviewConfirmed, ref);
  }

  lemma TellRefund(s: Sys, pid: Uuid, s': Sys) returns (x: Delta)
    requires Next(s, DoRefund(pid), s') && (pid in s.db.payouts ==> RowOk(s.db, s.db.payouts[pid]))
    ensures Told(s, DoRefund(pid), s', x)
  {
    x := RefundOwned(s, pid, s');
    OwnedIsTold(s, DoRefund(pid), s', x, pid);
  }

  lemma RefundOwned(s: Sys, pid: Uuid, s': Sys) returns (x: Delta)
    requires Next(s, DoRefund(pid), s') && (pid in s.db.payouts ==> RowOk(s.db, s.db.payouts[pid]))
    ensures pid in s.db.payouts && Changes(s.db, s'.db, x) && Owned(s.db, x, pid)
  {
    RefundIs(s, pid, s');
    x := RefundSound(s.db, pid);
  }

  lemma TellOperator(s: Sys, e: Event, s': Sys) returns (x: Delta)
    requires Next(s, e, s') && IsOperator(e) && Seeded(s.db)
    requires e.pid in s.db.payouts ==> RowOk(s.db, s.db.payouts[e.pid])
    ensures Told(s, e, s', x)
  {
    match e
    case DoRecover(pid) => x := TellRecover(s, pid, s');
    case DoConfirm(pid, replacementRef) => x := TellConfirm(s, pid, replacementRef, s');
    case DoRefund(pid) => x := TellRefund(s, pid, s');
  }

  lemma TellLocal(s: Sys, e: Event, s': Sys) returns (x: Delta)
    requires Next(s, e, s') && IsLocal(e)
    ensures Told(s, e, s', x) && x == NOTHING
  {
    LocalFramed(s, e, s');
    NothingChanges(s.db);
    x := NOTHING;
  }

  lemma TellWorker(s: Sys, e: Event, s': Sys) returns (x: Delta)
    requires Next(s, e, s') && (e.DoClaim? || e.DoRequeue? || e.DoSettle? || e.DoFail?) && HolderOk(s, e.h)
    ensures Told(s, e, s', x)
  {
    var pid := e.h.payout;
    match e {
      case DoClaim(h) =>
        ClaimIs(s, h, s');
        x := MoveSound(s.db, pid, s.db.payouts[pid], Processing, ProcessingStarted);
      case DoRequeue(h) =>
        RequeueIs(s, h, s');
        x := MoveSound(s.db, pid, s.claims[h].row, Pending, RequeueClaimed);
      case DoSettle(h) =>
        SettleIs(s, h, s');
        x := SettleOwned(s.db, pid, s.claims[h].row, PayoutCompleted, Some(s.claims[h].phase.gatewayRef));
      case DoFail(h) =>
        FailIs(s, h, s');
        x := FailSound(s.db, pid, s.claims[h].row);
    }
    OwnedIsTold(s, e, s', x, pid);
  }

  lemma TellMark(s: Sys, h: Holder, s': Sys) returns (x: Delta)
    requires Next(s, MarkReview(h), s') && HolderOk(s, h)
    ensures Told(s, MarkReview(h), s', x)
  {
    MarkIs(s, h, s');
    var row := s'.db.payouts[h.payout];
    PayoutOnly(s.db, h.payout, row);
    x := NOTHING.(payout := Some((h.payout, row)));
  }

  lemma TellNote(s: Sys, h: Holder, s': Sys) returns (x: Delta)
    requires Next(s, AuditReview(h), s') && HolderOk(s, h)
    ensures Told(s, AuditReview(h), s', x)
  {
    NoteIs(s, h, s');
    var note := Audit(s.claims[h].row.tx, PayoutReview, Some(Processing), Processing);
    AuditOnly(s.db, note);
    x := NOTHING.(rows := [note]);
  }

  lemma TellFallback(s: Sys, h: Holder, succeeds: bool, s': Sys) returns (x: Delta)
    requires Next(s, Fallback(h, succeeds), s') && HolderOk(s, h)
    ensures Told(s, Fallback(h, succeeds), s', x)
  {
    FallbackIs(s, h, succeeds, s');
    x := FallbackDelta(s, h, succeeds);
  }

  /** The description of a fallback step, by the point the fallback has reached. */
  lemma FallbackDelta(s: Sys, h: Holder, succeeds: bool) returns (x: Delta)
    requires HolderOk(s, h) && h in s.claims && FallbackStep(s, h, succeeds).Some?
    ensures Changes(s.db, FallbackStep(s, h, succeeds).value.db, x) && Sound(s.db, x) && OnPayout(s.db, x)
    ensures Confined(s.db, x, Fallback(h, succeeds))
  {
    if !succeeds || In(s, h, FallbackRead) {
      NothingChanges(s.db);
      x := NOTHING;
    } else if In(s, h, FallbackRelease) {
      x := FallbackLock(s, h);
    } else if In(s, h, FallbackTx) {
      x := FallbackFail(s, h);
    } else {
      x := FallbackWrite(s, h);
    }
  }

  lemma FallbackLock(s: Sys, h: Holder) returns (x: Delta)
    requires HolderOk(s, h) && In(s, h, FallbackRelease)
    ensures Changes(s.db, FallbackStep(s, h, true).value.db, x) && Sound(s.db, x) && OnPayout(s.db, x)
    ensures Confined(s.db, x, Fallback(h, true))
  {
    var row := s.claims[h].row;
    if Releasable(s.db, row.account, row.amount) {
      ReleaseOnly(s.db, row.account, row.amount);
      x := NOTHING.(lockAccount := row.account, lockBy := -row.amount);
    } else {
      NothingChanges(s.db);
      x := NOTHING;
    }
  }

  lemma FallbackFail(s: Sys, h: Holder) returns (x: Delta)
    requires HolderOk(s, h) && In(s, h, FallbackTx)
    ensures Changes(s.db, FallbackStep(s, h, true).value.db, x) && Sound(s.db, x) && OnPayout(s.db, x)
    ensures Confined(s.db, x, Fallback(h, true))
  {
    var row := s.claims[h].row;
    TxOnly(s.db, row.tx, Failed);
    x := NOTHING.(tx := Some((row.tx, s.db.txs[row.tx].(status := Failed))));
  }

  lemma FallbackWrite(s: Sys, h: Holder) returns (x: Delta)
    requires HolderOk(s, h) && (In(s, h, FallbackAudit) || In(s, h, FallbackPayout))
    ensures Changes(s.db, FallbackStep(s, h, true).value.db, x) && Sound(s.db, x) && OnPayout(s.db, x)
    ensures Confined(s.db, x, Fallback(h, true))
  {
    var row := s.claims[h].row;
    if In(s, h, FallbackAudit) {
      AuditOnly(s.db, Audit(row.tx, PayoutFailedFallback, None, Failed));
      x := NOTHING.(rows := [Audit(row.tx, PayoutFailedFallback, None, Failed)]);
    } else {
      var closed := s.db.payouts[h.payout].(status := Failed, gatewayRef := None);
      PayoutOnly(s.db, h.payout, closed);
      x := NOTHING.(payout := Some((h.payout, closed)));
    }
  }

  lemma TellAbout(s: Sys, e: Event, s': Sys) returns (x: Delta)
    requires Next(s, e, s') && (IsWorker(e) || e.Fallback?) && HolderOk(s, e.h)
    ensures Told(s, e, s', x)
  {
    match e
    case MarkReview(h) => x := TellMark(s, h, s');
    case AuditReview(h) => x := TellNote(s, h, s');
    case Fallback(h, succeeds) => x := TellFallback(s, h, succeeds, s');
    case _ => x := TellWorker(s, e, s');
  }

  /** Every event but the opening of an account changes the tables by a sound description. */
  lemma Tell(s: Sys, e: Event, s': Sys) returns (x: Delta)
    requires Wellformed(s) && Next(s, e, s') && !e.OpenAccount?
    ensures Told(s, e, s', x)
  {
    if IsLedger(e) {
      x := TellLedger(s, e, s');
    } else if IsOperator(e) {
      x := TellOperator(s, e, s');
    } else if IsLocal(e) {
      x := TellLocal(s, e, s');
    } else {
      HolderSound(s, e, s');
      x := TellAbout(s, e, s');
    }
  }

  lemma HolderSound(s: Sys, e: Event, s': Sys)
    requires Wellformed(s) && Next(s, e, s') && Own(e).Some?
    ensures HolderOk(s, e.h)
  {
    if e.DoClaim? {
      ClaimIs(s, e.h, s');
    } else {
      StepFramed(s, e, s');
    }
    assert RowOk(s.db, s.db.payouts[e.h.payout]);
  }

  // ---- well-formedness over runs ----

  /** Claims and webhook tasks of the next state: kept, or made from the current tables. */
  ghost predicate TasksFrom(s: Sys, s': Sys) {
    && (forall h | h in s'.claims ::
          || (h in s.claims && SameRow(s'.claims[h].row, s.claims[h].row))
          || (h.payout in s.db.payouts && s'.claims[h].row == s.db.payouts[h.payout]))
    && (forall r | r in s'.deposits ::
          (r in s.deposits && s'.deposits[r] == s.deposits[r]) || TaskOk(s.db, s'.deposits[r]))
  }

  lemma CheckedTask(s: Sys, request: nat, dep: Deposit, tid: Uuid, s': Sys)
    requires Next(s, CheckDeposit(request, dep, tid), s')
    ensures TasksFrom(s, s')
  {
    CheckIs(s, request, dep, tid, s');
    StepFramed(s, CheckDeposit(request, dep, tid), s');
  }

  /** The fallback moves or drops its own claim; only its read replaces the row it works on. */
  lemma FallbackRowIs(s: Sys, h: Holder, succeeds: bool, s': Sys)
    requires Next(s, Fallback(h, succeeds), s') && h in s'.claims
    ensures h in s.claims
    ensures || s'.claims[h].row == s.claims[h].row
            || (h.payout in s.db.payouts && s'.claims[h].row == s.db.payouts[h.payout])
  {
    FallbackIs(s, h, succeeds, s');
  }

  lemma OwnRow(s: Sys, e: Event, s': Sys)
    requires Next(s, e, s') && Own(e).Some? && e.h in s'.claims
    ensures || (e.h in s.claims && s'.claims[e.h].row == s.claims[e.h].row)
            || (e.h.payout in s.db.payouts && s'.claims[e.h].row == s.db.payouts[e.h.payout])
  {
    if IsLocal(e) {
      LocalIs(s, e, s');
    } else {
      match e
      case DoClaim(h) => ClaimIs(s, h, s');
      case DoRequeue(h) => RequeueIs(s, h, s');
      case DoSettle(h) => SettleIs(s, h, s');
      case MarkReview(h) => MarkIs(s, h, s');
      case AuditReview(h) => NoteIs(s, h, s');
      case DoFail(h) => FailIs(s, h, s');
      case Fallback(h, succeeds) => FallbackRowIs(s, h, succeeds, s');
    }
  }

  lemma TasksKept(s: Sys, e: Event, s': Sys)
    requires Next(s, e, s')
    ensures TasksFrom(s, s')
  {
    if e.CheckDeposit? {
      CheckedTask(s, e.request, e.dep, e.tid, s');
    } else if e.CommitDeposit? {
      CommittedTask(s, e.request, s');
    } else if Own(e).Some? {
      OwnTask(s, e, s');
    } else {
      StepFramed(s, e, s');
    }
  }

  lemma CommittedTask(s: Sys, request: nat, s': Sys)
    requires Next(s, CommitDeposit(request), s')
    ensures TasksFrom(s, s')
  {
    CommitIs(s, request, s');
    StepFramed(s, CommitDeposit(request), s');
  }

  lemma OwnTask(s: Sys, e: Event, s': Sys)
    requires Next(s, e, s') && Own(e).Some?
    ensures TasksFrom(s, s')
  {
    StepFramed(s, e, s');
    if e.h in s'.claims {
      OwnRow(s, e, s');
      ClaimReplaced(s, s', e.h);
    }
  }

  lemma ClaimReplaced(s: Sys, s': Sys, h: Holder)
    requires s'.deposits == s.deposits && h in s'.claims
    requires s'.claims == s.claims - {h} || s'.claims == s.claims[h := s'.claims[h]]
    requires || (h in s.claims && s'.claims[h].row == s.claims[h].row)
             || (h.payout in s.db.payouts && s'.claims[h].row == s.db.payouts[h.payout])
    ensures TasksFrom(s, s')
  {
  }

  lemma WellformedStep(s: Sys, e: Event, s': Sys)
    requires Wellformed(s) && Next(s, e, s')
    ensures Wellformed(s')
  {
    if e.OpenAccount? {
      OpenAccountKeeps(s, e.id, e.currency, e.balance, s');
    } else {
      var x := Tell(s, e, s');
      SoundKeeps(s.db, s'.db, x);
      TasksKept(s, e, s');
      TasksStay(s, s', x);
      StepFramed(s, e, s');
    }
  }

  lemma TasksStay(s: Sys, s': Sys, x: Delta)
    requires Wellformed(s) && Described(s, s', x) && TasksFrom(s, s')
    ensures ClaimsOk(s') && forall r | r in s'.deposits :: TaskOk(s'.db, s'.deposits[r])
  {
    ClaimsStay(s, s', x);
    forall r | r in s'.deposits ensures TaskOk(s'.db, s'.deposits[r]) {
      TaskStays(s.db, s'.db, x, s'.deposits[r]);
    }
  }

  lemma ClaimsStay(s: Sys, s': Sys, x: Delta)
    requires ClaimsOk(s) && Changes(s.db, s'.db, x) && SoundPayout(s.db, x) && TasksFrom(s, s')
    ensures ClaimsOk(s')
  {
  }

  lemma TaskStays(d: Db, d': Db, x: Delta, task: DepositTask)
    requires Changes(d, d', x) && SoundTx(d, x) && TaskOk(d, task)
    ensures TaskOk(d', task)
  {
  }

  lemma OpenAccountKeeps(s: Sys, id: Uuid, currency: Currency, balance: int, s': Sys)
    requires Wellformed(s) && Next(s, OpenAccount(id, currency, balance), s')
    ensures Wellformed(s')
  {
    OpenIs(s, id, currency, balance, s');
    StepFramed(s, OpenAccount(id, currency, balance), s');
    OpenedDb(s.db, s'.db, id);
    OpenedTasks(s, s', id);
  }

  lemma OpenedTasks(s: Sys, s': Sys, id: Uuid)
    requires s'.claims == s.claims && s'.deposits == s.deposits && id in s'.db.accounts
    requires s'.db == SetAccount(s.db, id, s'.db.accounts[id]) && ClaimsOk(s)
    requires forall r | r in s.deposits :: TaskOk(s.db, s.deposits[r])
    ensures ClaimsOk(s') && forall r | r in s'.deposits :: TaskOk(s'.db, s'.deposits[r])
  {
    forall r | r in s'.deposits ensures TaskOk(s'.db, s'.deposits[r]) {
      assert TaskOk(s.db, s.deposits[r]);
    }
  }

  lemma OpenedDb(d: Db, d': Db, id: Uuid)
    requires WellformedDb(d) && id !in d.accounts && id in d'.accounts && d' == SetAccount(d, id, d'.accounts[id])
    requires Supported(d'.accounts[id].currency)
    ensures WellformedDb(d')
  {
    forall p | p in d'.payouts ensures RowOk(d', d'.payouts[p]) {
      assert RowOk(d, d.payouts[p]);
    }
  }

  lemma InitWellformed(s: Sys)
    requires Init(s)
    ensures Wellformed(s)
  {
  }
}
