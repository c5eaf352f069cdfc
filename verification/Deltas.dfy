/**
 What each transaction changes, in one uniform shape. Every committed step appends entries and
 audit rows, moves balances by exactly those entries, and touches at most one account's lock, one
 transaction row and one payout row. The invariants are proved from these descriptions.
 */
module Deltas {
  import opened Results
  import opened Tables
  import opened TransactionState
  import opened Ledger
  import opened Payouts
  import opened Entries

  datatype Delta = Delta(
    legs: seq<Entry>,
    lockAccount: Uuid,
    lockBy: int,
    tx: Option<(Uuid, Tx)>,
    payout: Option<(Uuid, Payout)>,
    rows: seq<Audit>)

  ghost predicate Changes(d: Db, d': Db, x: Delta) {
    && d'.accounts.Keys == d.accounts.Keys
    && (forall a | a in d.accounts ::
          d'.accounts[a] == Account(d.accounts[a].currency,
                                    d.accounts[a].balance + Total(x.legs, ByAccount(a)),
                                    d.accounts[a].locked + (if a == x.lockAccount then x.lockBy else 0)))
    && d'.txs == (if x.tx.Some? then d.txs[x.tx.value.0 := x.tx.value.1] else d.txs)
    && d'.payouts == (if x.payout.Some? then d.payouts[x.payout.value.0 := x.payout.value.1] else d.payouts)
    && d'.entries == d.entries + x.legs
    && d'.audit == d.audit + x.rows
  }

  /** The rows a fresh transaction leaves when it runs to COMPLETED in one go. */
  function StraightThrough(t: Uuid): seq<Audit> {
    [Audit(t, Created, None, Pending),
     Audit(t, ProcessingStarted, Some(Pending), Processing),
     Audit(t, CompletedAction, Some(Processing), Completed)]
  }

  /** The row written by a transition: none when the transaction is already there. */
  function TransitionRows(t: Uuid, current: Status, next: Status, action: Action): seq<Audit> {
    if current == next then [] else [Audit(t, action, Some(current), next)]
  }

  function BookedTx(tid: Uuid, tx: Tx, legs: seq<Entry>): Delta {
    Delta(legs, 0, 0, Some((tid, tx)), None, StraightThrough(tid))
  }

  function TransferDelta(db: Db, tid: Uuid, from: Uuid, to: Uuid, amount: int, reference: string): Delta
    requires from in db.accounts
  {
    BookedTx(tid, Tx(amount, db.accounts[from].currency, TypeTransfer, Completed, reference, NoMeta),
             PairLegs(tid, from, to, amount))
  }

  function ExchangeDelta(tid: Uuid, cmd: ExchangeCmd, target: int, liqSource: Uuid, liqTarget: Uuid): Delta {
    BookedTx(tid,
             Tx(cmd.amount, cmd.source, TypeExchange, Completed, cmd.reference,
                ExchangeMeta(cmd.source, cmd.target, target)),
             ExchangeLegs(tid, cmd, target, liqSource, liqTarget))
  }

  function DepositDelta(db: Db, tid: Uuid, retry: bool, dep: Deposit, sys: Uuid): Delta
    requires retry ==> tid in db.txs
  {
    var legs := PairLegs(tid, sys, dep.account, dep.amount);
    if retry then
      Delta(legs, 0, 0, Some((tid, db.txs[tid].(status := Completed))), None,
            TransitionRows(tid, db.txs[tid].status, Processing, RetryStarted) +
            [Audit(tid, CompletedAction, Some(Processing), Completed)])
    else BookedTx(tid, Tx(dep.amount, dep.currency, TypeDeposit, Completed, dep.reference, DepositMeta(dep.account)),
                  legs)
  }

  function RequestDelta(pid: Uuid, tid: Uuid, req: PayoutRequest): Delta {
    Delta([], req.account, req.amount,
          Some((tid, Tx(req.amount, req.currency, TypePayout, Pending, req.reference, PayoutMeta))),
          Some((pid, Payout(tid, req.account, req.amount, req.currency, Pending, None))),
          [Audit(tid, Created, None, Pending)])
  }

  /** A payout row and a transaction moving to new statuses. */
  function StatusDelta(db: Db, pid: Uuid, payoutStatus: Status, ref: Option<string>, tid: Uuid, txStatus: Status,
                       action: Action): Delta
    requires pid in db.payouts && tid in db.txs
  {
    Delta([], 0, 0, Some((tid, db.txs[tid].(status := txStatus))),
          Some((pid, db.payouts[pid].(status := payoutStatus, gatewayRef := ref))),
          TransitionRows(tid, db.txs[tid].status, txStatus, action))
  }

  function SettleDelta(db: Db, pid: Uuid, row: Payout, action: Action, ref: Option<string>, sys: Uuid): Delta
    requires pid in db.payouts && row.tx in db.txs
  {
    StatusDelta(db, pid, Completed, ref, row.tx, Completed, action).(
      legs := PairLegs(row.tx, row.account, sys, row.amount), lockAccount := row.account, lockBy := -row.amount)
  }

  function ReleaseDelta(db: Db, pid: Uuid, row: Payout, ref: Option<string>, action: Action, released: bool): Delta
    requires pid in db.payouts && row.tx in db.txs
  {
    StatusDelta(db, pid, Failed, ref, row.tx, Failed, action).(lockAccount := row.account,
                                                               lockBy := if released then -row.amount else 0)
  }

  /** A transition to `next` is possible from here: already there, or allowed. */
  predicate Movable(db: Db, t: Uuid, next: Status) {
    t in db.txs && (db.txs[t].status == next || CanTransition(db.txs[t].status, next))
  }

  // ---- each transaction body is its description ----

  lemma TransferChanges(db: Db, tid: Uuid, from: Uuid, to: Uuid, amount: int, reference: string)
    requires Transfer(db, tid, from, to, amount, reference).Ok?
    ensures SameCurrency(db.accounts, from, to) && from != to && 0 < amount <= db.accounts[from].balance
    ensures tid !in db.txs && !ReferenceTaken(db, reference)
    ensures Changes(db, Transfer(db, tid, from, to, amount, reference).value,
                    TransferDelta(db, tid, from, to, amount, reference))
  {
    var tx := Tx(amount, db.accounts[from].currency, TypeTransfer, Pending, reference, NoMeta);
    var open := StartTransaction(db, tid, tx).value;
    StartTransactionIs(db, tid, tx);
    BookTransferChanges(open, tid, from, to, amount);
    OpenedAndBooked(db, open, BookTransfer(open, tid, from, to, amount).value, tid, tx,
                    PairLegs(tid, from, to, amount));
  }

  lemma BookTransferChanges(db: Db, tid: Uuid, from: Uuid, to: Uuid, amount: int)
    requires BookTransfer(db, tid, from, to, amount).Ok? && tid in db.txs && db.txs[tid].status == Processing
    requires from != to
    ensures Changes(db, BookTransfer(db, tid, from, to, amount).value,
                    BookDelta(db, tid, PairLegs(tid, from, to, amount)))
  {
    PairNet(tid, from, to, amount);
    assert BookTransfer(db, tid, from, to, amount).value.entries == db.entries + PairLegs(tid, from, to, amount);
  }

  lemma StartTransactionIs(db: Db, tid: Uuid, tx: Tx)
    requires StartTransaction(db, tid, tx).Ok?
    ensures tid !in db.txs && !ReferenceTaken(db, tx.reference)
    ensures StartTransaction(db, tid, tx).value == db.(
              txs := db.txs[tid := tx.(status := Processing)],
              audit := db.audit + [Audit(tid, Created, None, Pending),
                                   Audit(tid, ProcessingStarted, Some(Pending), Processing)])
  {
  }

  lemma WriteExchangeLegsIs(db: Db, tid: Uuid, cmd: ExchangeCmd, target: int, liqSource: Uuid, liqTarget: Uuid)
    requires WriteExchangeLegs(db, tid, cmd, target, liqSource, liqTarget).Ok?
    ensures target > 0
    ensures WriteExchangeLegs(db, tid, cmd, target, liqSource, liqTarget).value ==
            db.(entries := db.entries + ExchangeLegs(tid, cmd, target, liqSource, liqTarget))
  {
    var d' := WriteExchangeLegs(db, tid, cmd, target, liqSource, liqTarget).value;
    assert d'.entries == db.entries + ExchangeLegs(tid, cmd, target, liqSource, liqTarget);
  }

  /** Booking legs on a transaction in PROCESSING, and completing it. */
  function BookDelta(db: Db, tid: Uuid, legs: seq<Entry>): Delta
    requires tid in db.txs
  {
    Delta(legs, 0, 0, Some((tid, db.txs[tid].(status := Completed))), None,
          [Audit(tid, CompletedAction, Some(Processing), Completed)])
  }

  lemma BookExchangeChanges(db: Db, tid: Uuid, cmd: ExchangeCmd, target: int, liqSource: Uuid, liqTarget: Uuid)
    requires BookExchange(db, tid, cmd, target, liqSource, liqTarget).Ok? && tid in db.txs
    requires db.txs[tid].status == Processing
    ensures target > 0
    ensures Changes(db, BookExchange(db, tid, cmd, target, liqSource, liqTarget).value,
                    BookDelta(db, tid, ExchangeLegs(tid, cmd, target, liqSource, liqTarget)))
  {
    WriteExchangeLegsIs(db, tid, cmd, target, liqSource, liqTarget);
    var d1 := db.(entries := db.entries + ExchangeLegs(tid, cmd, target, liqSource, liqTarget));
    MoveExchangeChanges(d1, cmd, target, liqSource, liqTarget);
    ExchangeNet(tid, cmd, target, liqSource, liqTarget);
  }

  /** Booking what was just opened is the straight-through description. */
  lemma OpenedAndBooked(db: Db, open: Db, d': Db, tid: Uuid, tx: Tx, legs: seq<Entry>)
    requires open == db.(txs := db.txs[tid := tx.(status := Processing)],
                         audit := db.audit + [Audit(tid, Created, None, Pending),
                                              Audit(tid, ProcessingStarted, Some(Pending), Processing)])
    requires Changes(open, d', BookDelta(open, tid, legs))
    ensures Changes(db, d', BookedTx(tid, tx.(status := Completed), legs))
  {
    assert d'.txs == db.txs[tid := tx.(status := Completed)];
    assert d'.audit == db.audit + StraightThrough(tid);
  }

  lemma NotedTransaction(db: Db, tid: Uuid, tx: Tx, noted: Meta)
    requires StartTransaction(db, tid, tx).Ok?
    ensures tid !in db.txs && !ReferenceTaken(db, tx.reference)
    ensures UpdateTransactionMeta(StartTransaction(db, tid, tx).value, tid, noted) == Ok(db.(
              txs := db.txs[tid := tx.(status := Processing, meta := noted)],
              audit := db.audit + [Audit(tid, Created, None, Pending),
                                   Audit(tid, ProcessingStarted, Some(Pending), Processing)]))
  {
    StartTransactionIs(db, tid, tx);
    var d := StartTransaction(db, tid, tx).value;
    assert d.txs[tid := d.txs[tid].(meta := noted)] == db.txs[tid := tx.(status := Processing, meta := noted)];
  }

  lemma PostExchangeChanges(db: Db, tid: Uuid, cmd: ExchangeCmd, target: int, liqSource: Uuid, liqTarget: Uuid)
    requires PostExchange(db, tid, cmd, target, liqSource, liqTarget).Ok?
    ensures tid !in db.txs && !ReferenceTaken(db, cmd.reference) && target > 0
    ensures Changes(db, PostExchange(db, tid, cmd, target, liqSource, liqTarget).value,
                    ExchangeDelta(tid, cmd, target, liqSource, liqTarget))
  {
    var tx := Tx(cmd.amount, cmd.source, TypeExchange, Pending, cmd.reference, NoMeta);
    var noted := ExchangeMeta(cmd.source, cmd.target, target);
    var d2 := UpdateTransactionMeta(StartTransaction(db, tid, tx).value, tid, noted).value;
    NotedTransaction(db, tid, tx, noted);
    BookExchangeChanges(d2, tid, cmd, target, liqSource, liqTarget);
    OpenedAndBooked(db, d2, BookExchange(d2, tid, cmd, target, liqSource, liqTarget).value, tid, tx.(meta := noted),
                    ExchangeLegs(tid, cmd, target, liqSource, liqTarget));
  }

  lemma MoveExchangeChanges(db: Db, cmd: ExchangeCmd, target: int, liqSource: Uuid, liqTarget: Uuid)
    requires MoveExchangeFunds(db, cmd, target, liqSource, liqTarget).Ok?
    ensures var d' := MoveExchangeFunds(db, cmd, target, liqSource, liqTarget).value;
            && d' == db.(accounts := d'.accounts)
            && d'.accounts.Keys == db.accounts.Keys
            && (forall a | a in db.accounts ::
                  d'.accounts[a] == db.accounts[a].(balance := db.accounts[a].balance
                    + (if a == liqSource then cmd.amount else 0) - (if a == cmd.from then cmd.amount else 0)
                    + (if a == cmd.to then target else 0) - (if a == liqTarget then target else 0)))
  {
  }

  lemma DepositChanges(db: Db, tid: Uuid, retry: bool, dep: Deposit)
    requires DepositFunds(db, tid, retry, dep).Ok?
    ensures SystemAccount(dep.currency).Ok? && dep.account in db.accounts
    ensures db.accounts[dep.account].currency == dep.currency
    ensures if retry then Movable(db, tid, Processing) else tid !in db.txs && !ReferenceTaken(db, dep.reference)
    ensures dep.amount > 0
    ensures Changes(db, DepositFunds(db, tid, retry, dep).value,
                    DepositDelta(db, tid, retry, dep, SystemAccount(dep.currency).value))
  {
    var sys := SystemAccount(dep.currency).value;
    var legs := PairLegs(tid, sys, dep.account, dep.amount);
    if retry {
      var open := Transition(db, tid, Processing, RetryStarted).value;
      BookDepositChanges(open, tid, dep, sys);
      ReopenedAndBooked(db, tid, BookDeposit(open, tid, dep, sys).value, legs);
    } else {
      var tx := Tx(dep.amount, dep.currency, TypeDeposit, Pending, dep.reference, DepositMeta(dep.account));
      var open := StartTransaction(db, tid, tx).value;
      StartTransactionIs(db, tid, tx);
      BookDepositChanges(open, tid, dep, sys);
      OpenedAndBooked(db, open, BookDeposit(open, tid, dep, sys).value, tid, tx, legs);
    }
  }

  lemma ReopenedAndBooked(db: Db, tid: Uuid, d': Db, legs: seq<Entry>)
    requires Transition(db, tid, Processing, RetryStarted).Ok?
    requires var open := Transition(db, tid, Processing, RetryStarted).value;
             Changes(open, d', BookDelta(open, tid, legs))
    ensures Changes(db, d', Delta(legs, 0, 0, Some((tid, db.txs[tid].(status := Completed))), None,
              TransitionRows(tid, db.txs[tid].status, Processing, RetryStarted) +
            [Audit(tid, CompletedAction, Some(Processing), Completed)]))
  {
    assert d'.txs == db.txs[tid := db.txs[tid].(status := Completed)];
  }

  lemma BookDepositChanges(db: Db, tid: Uuid, dep: Deposit, sys: Uuid)
    requires BookDeposit(db, tid, dep, sys).Ok? && tid in db.txs && db.txs[tid].status == Processing
    ensures dep.amount > 0
    ensures Changes(db, BookDeposit(db, tid, dep, sys).value,
                    BookDelta(db, tid, PairLegs(tid, sys, dep.account, dep.amount)))
  {
    PairNet(tid, sys, dep.account, dep.amount);
    assert BookDeposit(db, tid, dep, sys).value.entries == db.entries + PairLegs(tid, sys, dep.account, dep.amount);
  }

  lemma RequestChanges(db: Db, pid: Uuid, tid: Uuid, req: PayoutRequest)
    requires RequestPayout(db, pid, tid, req).Ok?
    ensures req.account in db.accounts && db.accounts[req.account].currency == req.currency && Supported(req.currency)
    ensures 0 < req.amount <= db.accounts[req.account].balance - db.accounts[req.account].locked
    ensures pid !in db.payouts && tid !in db.txs && !ReferenceTaken(db, req.reference)
    ensures Changes(db, RequestPayout(db, pid, tid, req).value, RequestDelta(pid, tid, req))
  {
  }

  lemma MoveRowChanges(db: Db, pid: Uuid, row: Payout, status: Status, action: Action)
    requires MoveRow(db, pid, row, status, action).Ok?
    ensures pid in db.payouts && Movable(db, row.tx, status)
    ensures Changes(db, MoveRow(db, pid, row, status, action).value,
                    StatusDelta(db, pid, status, None, row.tx, status, action))
  {
  }

  lemma MoveSettledChanges(db: Db, row: Payout)
    requires MoveSettledFunds(db, row).Ok?
    ensures row.account in db.accounts && SystemAccount(row.currency).Ok? && row.tx in db.txs
    ensures db.accounts[row.account].locked >= row.amount
    ensures Changes(db, MoveSettledFunds(db, row).value,
                    Delta(PairLegs(row.tx, row.account, SystemAccount(row.currency).value, row.amount), row.account,
                          -row.amount, None, None, []))
  {
    var sys := SystemAccount(row.currency).value;
    PairNet(row.tx, row.account, sys, row.amount);
    assert MoveSettledFunds(db, row).value.entries == db.entries + PairLegs(row.tx, row.account, sys, row.amount);
  }

  lemma CloseRowsIs(db: Db, pid: Uuid, tid: Uuid, status: Status, action: Action, ref: Option<string>)
    requires CloseRows(db, pid, tid, status, action, ref).Ok?
    ensures pid in db.payouts && Movable(db, tid, status)
    ensures CloseRows(db, pid, tid, status, action, ref).value == db.(
              txs := db.txs[tid := db.txs[tid].(status := status)],
              payouts := db.payouts[pid := db.payouts[pid].(status := status, gatewayRef := ref)],
              audit := db.audit + TransitionRows(tid, db.txs[tid].status, status, action))
  {
    var d' := CloseRows(db, pid, tid, status, action, ref).value;
    assert d'.txs == db.txs[tid := db.txs[tid].(status := status)];
    assert d'.audit == db.audit + TransitionRows(tid, db.txs[tid].status, status, action);
  }

  /** Closing the rows after the money has moved adds the status changes to the description. */
  lemma CloseChanges(db: Db, moved: Db, x: Delta, pid: Uuid, tid: Uuid, status: Status, action: Action,
                     ref: Option<string>)
    requires x.tx.None? && x.payout.None? && x.rows == [] && Changes(db, moved, x)
    requires CloseRows(moved, pid, tid, status, action, ref).Ok?
    ensures pid in db.payouts && Movable(db, tid, status)
    ensures var y := StatusDelta(db, pid, status, ref, tid, status, action);
            Changes(db, CloseRows(moved, pid, tid, status, action, ref).value,
                    y.(legs := x.legs, lockAccount := x.lockAccount, lockBy := x.lockBy))
  {
    CloseRowsIs(moved, pid, tid, status, action, ref);
    assert moved.txs == db.txs && moved.payouts == db.payouts && moved.audit == db.audit + [];
    assert db.audit + [] == db.audit;
  }

  lemma SettleChanges(db: Db, pid: Uuid, row: Payout, action: Action, ref: Option<string>)
    requires Settle(db, pid, row, action, ref).Ok?
    ensures pid in db.payouts && row.account in db.accounts && Movable(db, row.tx, Completed)
    ensures SystemAccount(row.currency).Ok?
    ensures db.accounts[row.account].locked >= row.amount
    ensures Changes(db, Settle(db, pid, row, action, ref).value,
                    SettleDelta(db, pid, row, action, ref, SystemAccount(row.currency).value))
  {
    MoveSettledChanges(db, row);
    var x := Delta(PairLegs(row.tx, row.account, SystemAccount(row.currency).value, row.amount), row.account,
                   -row.amount, None, None, []);
    CloseChanges(db, MoveSettledFunds(db, row).value, x, pid, row.tx, Completed, action, ref);
  }

  lemma FailChanges(db: Db, pid: Uuid, row: Payout)
    requires FailPayout(db, pid, row).Ok? && pid in db.payouts && db.payouts[pid].tx == row.tx
    ensures row.account in db.accounts && Movable(db, row.tx, Failed)
    ensures db.accounts[row.account].locked >= row.amount
    ensures Changes(db, FailPayout(db, pid, row).value, ReleaseDelta(db, pid, row, None, PayoutFailed, true))
  {
  }

  lemma RefundChanges(db: Db, pid: Uuid)
    requires RefundReview(db, pid).Ok?
    ensures pid in db.payouts && db.payouts[pid].status == ManualReview && Movable(db, db.payouts[pid].tx, Failed)
    ensures var row := db.payouts[pid];
            Changes(db, RefundReview(db, pid).value,
                    ReleaseDelta(db, pid, row, row.gatewayRef, ReviewRefunded, Releasable(db, row.account, row.amount)))
  {
  }

  // ---- audit rows that replay a status change ----

  /** The rows lead transaction t from `from` (None before it exists) to `to`, link by link. */
  predicate Follows(rows: seq<Audit>, t: Uuid, from: Option<Status>, to: Status) {
    if rows == [] then from == Some(to)
    else
      && rows[0].tx == t
      && (if from.None? then rows[0] == Audit(t, Created, None, Pending) else Link(rows[0]) && rows[0].prev == from)
      && Follows(rows[1..], t, Some(rows[0].next), to)
  }

  function StatusOf(d: Db, t: Uuid): Option<Status> {
    if t in d.txs then Some(d.txs[t].status) else None
  }

  /** The audit rows of a change replay exactly its change of transaction status. */
  predicate Trailed(d: Db, x: Delta) {
    if x.tx.None? then x.rows == []
    else Follows(x.rows, x.tx.value.0, StatusOf(d, x.tx.value.0), x.tx.value.1.status)
  }

  lemma StraightThroughFollows(t: Uuid)
    ensures Follows(StraightThrough(t), t, None, Completed)
  {
    var rows := StraightThrough(t);
    assert rows[1..][0] == rows[1] && rows[1..][1..] == [rows[2]];
    assert Follows([rows[2]], t, Some(Processing), Completed);
  }

  lemma MoveRowsFollow(t: Uuid, current: Status, next: Status, action: Action)
    requires current == next || CanTransition(current, next)
    ensures Follows(TransitionRows(t, current, next, action), t, Some(current), next)
  {
  }

  lemma RetryFollows(t: Uuid, current: Status)
    requires current == Processing || CanTransition(current, Processing)
    ensures Follows(TransitionRows(t, current, Processing, RetryStarted) +
                    [Audit(t, CompletedAction, Some(Processing), Completed)], t, Some(current), Completed)
  {
    var done := [Audit(t, CompletedAction, Some(Processing), Completed)];
    assert Follows(done, t, Some(Processing), Completed);
    var rows := TransitionRows(t, current, Processing, RetryStarted) + done;
    assert current != Processing ==> rows[1..] == done;
    assert current == Processing ==> rows == done;
  }
}
