/**
 When each transaction is accepted, in terms of the tables it meets, and with which error it is refused.
 Together with what a committed transaction changes, this fixes every body completely.
 */
module Acceptance {
  import opened Results
  import opened Tables
  import opened TransactionState
  import opened Ledger
  import opened Payouts

  // ---- transactions ----

  /** The id and the reference are free for a new transaction row. */
  predicate Fresh(db: Db, tid: Uuid, reference: string) {
    tid !in db.txs && !ReferenceTaken(db, reference)
  }

  predicate Has(db: Db, id: Uuid, c: Currency) {
    id in db.accounts && db.accounts[id].currency == c
  }

  lemma StartIff(db: Db, tid: Uuid, tx: Tx)
    ensures StartTransaction(db, tid, tx).Ok? <==>
            Fresh(db, tid, tx.reference) && tx.amount > 0 && Supported(tx.currency)
    ensures !Fresh(db, tid, tx.reference) ==> StartTransaction(db, tid, tx) == Err(UniqueViolation)
    ensures Fresh(db, tid, tx.reference) && !(tx.amount > 0 && Supported(tx.currency)) ==>
              StartTransaction(db, tid, tx) == Err(CheckViolation)
    ensures StartTransaction(db, tid, tx).Ok? ==>
              var d := StartTransaction(db, tid, tx).value;
              d.accounts == db.accounts && d.txs == db.txs[tid := tx.(status := Processing)]
  {
  }

  // ---- transfers ----

  lemma TransferIff(db: Db, tid: Uuid, from: Uuid, to: Uuid, amount: int, reference: string)
    ensures Transfer(db, tid, from, to, amount, reference).Ok? <==>
            && amount > 0 && reference != "" && from != to
            && from in db.accounts && to in db.accounts
            && db.accounts[from].currency == db.accounts[to].currency && Supported(db.accounts[from].currency)
            && amount <= db.accounts[from].balance
            && Fresh(db, tid, reference)
  {
    if amount > 0 && reference != "" && from != to && from in db.accounts && to in db.accounts {
      var tx := Tx(amount, db.accounts[from].currency, TypeTransfer, Pending, reference, NoMeta);
      StartIff(db, tid, tx);
      if StartTransaction(db, tid, tx).Ok? {
        BookTransferOk(StartTransaction(db, tid, tx).value, tid, from, to, amount);
      }
    }
  }

  lemma BookTransferOk(db: Db, tid: Uuid, from: Uuid, to: Uuid, amount: int)
    requires tid in db.txs && db.txs[tid].status == Processing && amount > 0
    requires from in db.accounts && to in db.accounts
    ensures BookTransfer(db, tid, from, to, amount).Ok?
  {
  }

  /** The first thing that is wrong with a transfer is what it is refused for. */
  lemma TransferRefused(db: Db, tid: Uuid, from: Uuid, to: Uuid, amount: int, reference: string)
    ensures var r := Transfer(db, tid, from, to, amount, reference);
            && (amount <= 0 ==> r == Err(InvalidAmount))
            && (amount > 0 && reference == "" ==> r == Err(ReferenceRequired))
            && (amount > 0 && reference != "" ==>
                  && (from == to ==> r == Err(SameAccountTransfer))
                  && (from != to && (from !in db.accounts || to !in db.accounts) ==> r == Err(NotFound))
                  && (from != to && from in db.accounts && to in db.accounts ==>
                        TransferRefusedOver(db, tid, from, to, amount, reference, r)))
  {
    if from in db.accounts && to in db.accounts {
      StartIff(db, tid, Tx(amount, db.accounts[from].currency, TypeTransfer, Pending, reference, NoMeta));
    }
  }

  /** Between two existing accounts. */
  predicate TransferRefusedOver(db: Db, tid: Uuid, from: Uuid, to: Uuid, amount: int, reference: string, r: Result<Db>)
    requires from in db.accounts && to in db.accounts
  {
    var (sender, receiver) := (db.accounts[from], db.accounts[to]);
    && (sender.currency != receiver.currency ==> r == Err(CurrencyMismatch))
    && (sender.currency == receiver.currency && sender.balance < amount ==> r == Err(InsufficientFunds))
    && (sender.currency == receiver.currency && sender.balance >= amount && !Fresh(db, tid, reference) ==>
          r == Err(UniqueViolation))
  }

  // ---- exchanges ----

  /** The two liquidity accounts. */
  predicate Liquidity(db: Db, cmd: ExchangeCmd) {
    && SystemAccount(cmd.source).Ok? && SystemAccount(cmd.target).Ok?
    && SystemAccount(cmd.source).value in db.accounts && SystemAccount(cmd.target).value in db.accounts
  }

  lemma CheckIff(db: Db, cmd: ExchangeCmd)
    ensures CheckExchange(db, cmd).Ok? <==>
            && cmd.amount > 0 && cmd.reference != "" && cmd.from != cmd.to && cmd.source != cmd.target
            && Supported(cmd.source) && Supported(cmd.target) && Liquidity(db, cmd)
            && Has(db, cmd.from, cmd.source) && Has(db, cmd.to, cmd.target)
            && cmd.amount <= db.accounts[cmd.from].balance
    ensures CheckExchange(db, cmd).Ok? ==>
              CheckExchange(db, cmd) == Ok((SystemAccount(cmd.source).value, SystemAccount(cmd.target).value))
  {
  }

  lemma PostIff(db: Db, tid: Uuid, cmd: ExchangeCmd, target: int, liqSource: Uuid, liqTarget: Uuid)
    requires cmd.amount > 0 && Supported(cmd.source) && cmd.from in db.accounts && cmd.to in db.accounts
    requires liqSource in db.accounts && liqTarget in db.accounts
    ensures PostExchange(db, tid, cmd, target, liqSource, liqTarget).Ok? <==>
            target > 0 && Fresh(db, tid, cmd.reference)
    ensures !Fresh(db, tid, cmd.reference) ==>
              PostExchange(db, tid, cmd, target, liqSource, liqTarget) == Err(UniqueViolation)
    ensures Fresh(db, tid, cmd.reference) && target <= 0 ==>
              PostExchange(db, tid, cmd, target, liqSource, liqTarget) == Err(CheckViolation)
  {
    var tx := Tx(cmd.amount, cmd.source, TypeExchange, Pending, cmd.reference, NoMeta);
    StartIff(db, tid, tx);
    if StartTransaction(db, tid, tx).Ok? {
      var d := StartTransaction(db, tid, tx).value;
      BookExchangeIff(UpdateTransactionMeta(d, tid, ExchangeMeta(cmd.source, cmd.target, target)).value, tid, cmd,
                      target, liqSource, liqTarget);
    }
  }

  lemma BookExchangeIff(db: Db, tid: Uuid, cmd: ExchangeCmd, target: int, liqSource: Uuid, liqTarget: Uuid)
    requires tid in db.txs && db.txs[tid].status == Processing && cmd.amount > 0
    requires cmd.from in db.accounts && cmd.to in db.accounts && liqSource in db.accounts && liqTarget in db.accounts
    ensures target > 0 ==> BookExchange(db, tid, cmd, target, liqSource, liqTarget).Ok?
    ensures target <= 0 ==> BookExchange(db, tid, cmd, target, liqSource, liqTarget) == Err(CheckViolation)
  {
    LegsIff(db, tid, cmd, target, liqSource, liqTarget);
    if target > 0 {
      FundsMove(WriteExchangeLegs(db, tid, cmd, target, liqSource, liqTarget).value, cmd, target, liqSource, liqTarget);
    }
  }

  lemma LegsIff(db: Db, tid: Uuid, cmd: ExchangeCmd, target: int, liqSource: Uuid, liqTarget: Uuid)
    requires tid in db.txs && cmd.amount > 0
    requires cmd.from in db.accounts && cmd.to in db.accounts && liqSource in db.accounts && liqTarget in db.accounts
    ensures var r := WriteExchangeLegs(db, tid, cmd, target, liqSource, liqTarget);
            if target > 0 then r.Ok? && r.value == db.(entries := r.value.entries) else r == Err(CheckViolation)
  {
  }

  lemma FundsMove(db: Db, cmd: ExchangeCmd, target: int, liqSource: Uuid, liqTarget: Uuid)
    requires cmd.from in db.accounts && cmd.to in db.accounts && liqSource in db.accounts && liqTarget in db.accounts
    ensures var r := MoveExchangeFunds(db, cmd, target, liqSource, liqTarget);
            r.Ok? && r.value == db.(accounts := r.value.accounts)
  {
  }

  lemma ExchangeIff(db: Db, tid: Uuid, cmd: ExchangeCmd, target: int)
    ensures Exchange(db, tid, cmd, target).Ok? <==>
            && cmd.amount > 0 && target > 0 && cmd.reference != "" && cmd.from != cmd.to && cmd.source != cmd.target
            && Supported(cmd.source) && Supported(cmd.target) && Liquidity(db, cmd)
            && Has(db, cmd.from, cmd.source) && Has(db, cmd.to, cmd.target)
            && cmd.amount <= db.accounts[cmd.from].balance
            && Fresh(db, tid, cmd.reference)
  {
    CheckIff(db, cmd);
    if CheckExchange(db, cmd).Ok? {
      var (liqSource, liqTarget) := CheckExchange(db, cmd).value;
      PostIff(db, tid, cmd, target, liqSource, liqTarget);
    }
  }

  /** The first thing that is wrong with an exchange is what it is refused for. */
  lemma ExchangeRefused(db: Db, tid: Uuid, cmd: ExchangeCmd, target: int)
    ensures var r := Exchange(db, tid, cmd, target);
            && (cmd.amount <= 0 ==> r == Err(InvalidAmount))
            && (cmd.amount > 0 && cmd.reference == "" ==> r == Err(ReferenceRequired))
            && (cmd.amount > 0 && cmd.reference != "" && cmd.from == cmd.to ==> r == Err(SameAccountTransfer))
            && (cmd.amount > 0 && cmd.reference != "" && cmd.from != cmd.to ==>
                  && (cmd.source == cmd.target ==> r == Err(SameCurrencyExchange))
                  && (cmd.source != cmd.target ==> ExchangeRefusedOver(db, tid, cmd, target, r)))
  {
    CheckIff(db, cmd);
    if CheckExchange(db, cmd).Ok? {
      var (liqSource, liqTarget) := CheckExchange(db, cmd).value;
      PostIff(db, tid, cmd, target, liqSource, liqTarget);
    }
  }

  /** A well-formed command. */
  predicate ExchangeRefusedOver(db: Db, tid: Uuid, cmd: ExchangeCmd, target: int, r: Result<Db>) {
    if !(Supported(cmd.source) && Supported(cmd.target)) then r == Err(UnsupportedCurrency)
    else if !(Liquidity(db, cmd) && cmd.from in db.accounts && cmd.to in db.accounts) then r == Err(NotFound)
    else if !(Has(db, cmd.from, cmd.source) && Has(db, cmd.to, cmd.target)) then r == Err(CurrencyMismatch)
    else if db.accounts[cmd.from].balance < cmd.amount then r == Err(InsufficientFunds)
    else if !Fresh(db, tid, cmd.reference) then r == Err(UniqueViolation)
    else if target <= 0 then r == Err(CheckViolation)
    else r.Ok?
  }

  // ---- deposits ----

  /** What a webhook answers about the row under its reference. */
  lemma EvaluateIff(dep: Deposit, tx: Tx)
    ensures var same := tx.kind == TypeDeposit && tx.amount == dep.amount && tx.currency == dep.currency &&
                        tx.meta == DepositMeta(dep.account);
            var r := EvaluateExisting(dep, tx);
            && (r == Err(PayloadMismatch) <==> !same)
            && (r == Ok(Replay) <==> same && tx.status == Completed)
            && (r == Ok(Retry) <==> same && tx.status == Failed)
            && (r == Err(DepositInProgress) <==> same && (tx.status == Pending || tx.status == Processing))
            && (r == Err(UnsupportedState) <==> same && (tx.status == Reversed || tx.status == ManualReview))
  {
  }

  lemma ValidateIff(dep: Deposit)
    ensures ValidateDeposit(dep).Ok? <==> dep.amount > 0 && dep.reference != "" && Supported(dep.currency)
    ensures dep.amount <= 0 ==> ValidateDeposit(dep) == Err(InvalidAmount)
    ensures dep.amount > 0 && dep.reference == "" ==> ValidateDeposit(dep) == Err(ReferenceRequired)
    ensures dep.amount > 0 && dep.reference != "" && !Supported(dep.currency) ==>
              ValidateDeposit(dep) == Err(UnsupportedCurrency)
  {
  }

  /** A row that a retry may open again. */
  predicate Reopenable(db: Db, tid: Uuid) {
    tid in db.txs && (db.txs[tid].status == Pending || db.txs[tid].status == Processing || db.txs[tid].status == Failed)
  }

  lemma OpenIff(db: Db, tid: Uuid, retry: bool, dep: Deposit)
    requires dep.amount > 0 && Supported(dep.currency)
    ensures OpenDeposit(db, tid, retry, dep).Ok? <==>
            if retry then Reopenable(db, tid) else Fresh(db, tid, dep.reference)
    ensures OpenDeposit(db, tid, retry, dep).Ok? ==>
              var d := OpenDeposit(db, tid, retry, dep).value;
              d.accounts == db.accounts && tid in d.txs && d.txs[tid].status == Processing
    ensures retry && tid !in db.txs ==> OpenDeposit(db, tid, retry, dep) == Err(NotFound)
    ensures retry && tid in db.txs && !Reopenable(db, tid) ==>
              OpenDeposit(db, tid, retry, dep) == Err(InvalidTransition)
    ensures !retry && !Fresh(db, tid, dep.reference) ==> OpenDeposit(db, tid, retry, dep) == Err(UniqueViolation)
  {
    if !retry {
      StartIff(db, tid, Tx(dep.amount, dep.currency, TypeDeposit, Pending, dep.reference, DepositMeta(dep.account)));
    }
  }

  lemma BookDepositIff(db: Db, tid: Uuid, dep: Deposit, sys: Uuid)
    requires tid in db.txs && db.txs[tid].status == Processing && dep.amount > 0 && dep.account in db.accounts
    ensures BookDeposit(db, tid, dep, sys).Ok? <==> sys in db.accounts
    ensures sys !in db.accounts ==> BookDeposit(db, tid, dep, sys) == Err(CheckViolation)
  {
  }

  lemma DepositIff(db: Db, tid: Uuid, retry: bool, dep: Deposit)
    requires ValidateDeposit(dep).Ok?
    ensures DepositFunds(db, tid, retry, dep).Ok? <==>
            && Has(db, dep.account, dep.currency) && SystemAccount(dep.currency).value in db.accounts
            && if retry then Reopenable(db, tid) else Fresh(db, tid, dep.reference)
  {
    if Has(db, dep.account, dep.currency) {
      OpenIff(db, tid, retry, dep);
      if OpenDeposit(db, tid, retry, dep).Ok? {
        BookDepositIff(OpenDeposit(db, tid, retry, dep).value, tid, dep, SystemAccount(dep.currency).value);
      }
    }
  }

  lemma DepositRefused(db: Db, tid: Uuid, retry: bool, dep: Deposit)
    requires ValidateDeposit(dep).Ok?
    ensures var r := DepositFunds(db, tid, retry, dep);
            if dep.account !in db.accounts then r == Err(NotFound)
            else if !Has(db, dep.account, dep.currency) then r == Err(CurrencyMismatch)
            else if !retry && !Fresh(db, tid, dep.reference) then r == Err(UniqueViolation)
            else if retry && tid !in db.txs then r == Err(NotFound)
            else if retry && !Reopenable(db, tid) then r == Err(InvalidTransition)
            else SystemAccount(dep.currency).value !in db.accounts ==> r == Err(CheckViolation)
  {
    if Has(db, dep.account, dep.currency) {
      OpenIff(db, tid, retry, dep);
      if OpenDeposit(db, tid, retry, dep).Ok? {
        BookDepositIff(OpenDeposit(db, tid, retry, dep).value, tid, dep, SystemAccount(dep.currency).value);
      }
    }
  }

  // ---- payout requests ----

  lemma RequestIff(db: Db, pid: Uuid, tid: Uuid, req: PayoutRequest)
    ensures RequestPayout(db, pid, tid, req).Ok? <==>
            && req.amount > 0 && req.reference != "" && Has(db, req.account, req.currency) && Supported(req.currency)
            && req.amount <= db.accounts[req.account].balance - db.accounts[req.account].locked
            && db.accounts[req.account].locked + req.amount >= 0
            && Fresh(db, tid, req.reference) && pid !in db.payouts
  {
  }

  lemma RequestRefused(db: Db, pid: Uuid, tid: Uuid, req: PayoutRequest)
    ensures var r := RequestPayout(db, pid, tid, req);
            if req.amount <= 0 then r == Err(InvalidAmount)
            else if req.reference == "" then r == Err(ReferenceRequired)
            else if req.account !in db.accounts then r == Err(InsufficientFunds)
            else if db.accounts[req.account].balance - db.accounts[req.account].locked < req.amount then
              r == Err(InsufficientFunds)
            else if !Has(db, req.account, req.currency) then r == Err(CurrencyMismatch)
            else if db.accounts[req.account].locked + req.amount < 0 then r == Err(CheckViolation)
            else if !Fresh(db, tid, req.reference) then r == Err(UniqueViolation)
            else Supported(req.currency) && pid in db.payouts ==> r == Err(UniqueViolation)
  {
  }

  // ---- payouts ----

  /** The status may be kept, or left for `next`. */
  predicate Movable(db: Db, tid: Uuid, next: Status) {
    tid in db.txs && (db.txs[tid].status == next || CanTransition(db.txs[tid].status, next))
  }

  /** Which statuses a transaction may come from, status by status. */
  lemma Predecessors(s: Status)
    ensures CanTransition(s, Pending) <==> s == Processing
    ensures CanTransition(s, Processing) <==> s == Pending || s == Failed
    ensures CanTransition(s, Completed) <==> s == Processing
    ensures CanTransition(s, Failed) <==> s == Pending || s == Processing
    ensures CanTransition(s, Reversed) <==> s == Processing || s == Completed || s == Failed
    ensures !CanTransition(s, ManualReview)
  {
  }

  lemma MoveIff(db: Db, pid: Uuid, row: Payout, status: Status, action: Action)
    requires status == Pending || status == Processing
    ensures MoveRow(db, pid, row, status, action).Ok? <==> pid in db.payouts && Movable(db, row.tx, status)
    ensures pid !in db.payouts ==> MoveRow(db, pid, row, status, action) == Err(UnexpectedRows)
    ensures pid in db.payouts && row.tx !in db.txs ==> MoveRow(db, pid, row, status, action) == Err(NotFound)
    ensures pid in db.payouts && row.tx in db.txs && !Movable(db, row.tx, status) ==>
              MoveRow(db, pid, row, status, action) == Err(InvalidTransition)
  {
  }

  lemma CloseIff(db: Db, pid: Uuid, tid: Uuid, status: Status, action: Action, ref: Option<string>)
    requires status == Completed || status == Failed
    ensures CloseRows(db, pid, tid, status, action, ref).Ok? <==> Movable(db, tid, status) && pid in db.payouts
    ensures tid !in db.txs ==> CloseRows(db, pid, tid, status, action, ref) == Err(NotFound)
    ensures tid in db.txs && !Movable(db, tid, status) ==>
              CloseRows(db, pid, tid, status, action, ref) == Err(InvalidTransition)
    ensures Movable(db, tid, status) && pid !in db.payouts ==>
              CloseRows(db, pid, tid, status, action, ref) == Err(UnexpectedRows)
  {
  }

  lemma MoveSettledIff(db: Db, row: Payout)
    ensures MoveSettledFunds(db, row).Ok? <==>
            && Releasable(db, row.account, row.amount) && SystemAccount(row.currency).Ok?
            && SystemAccount(row.currency).value in db.accounts && row.tx in db.txs && row.amount > 0
    ensures MoveSettledFunds(db, row).Ok? ==>
              MoveSettledFunds(db, row).value.txs == db.txs && MoveSettledFunds(db, row).value.payouts == db.payouts
  {
  }

  /** A settlement, by a worker or an operator, is accepted exactly when the lock covers the amount, the
      liquidity account exists, and the transaction is PROCESSING or already COMPLETED. */
  lemma SettleIff(db: Db, pid: Uuid, row: Payout, action: Action, ref: Option<string>)
    ensures Settle(db, pid, row, action, ref).Ok? <==>
            && pid in db.payouts && row.amount > 0 && Releasable(db, row.account, row.amount)
            && SystemAccount(row.currency).Ok? && SystemAccount(row.currency).value in db.accounts
            && row.tx in db.txs && (db.txs[row.tx].status == Processing || db.txs[row.tx].status == Completed)
  {
    MoveSettledIff(db, row);
    if MoveSettledFunds(db, row).Ok? {
      CloseIff(MoveSettledFunds(db, row).value, pid, row.tx, Completed, action, ref);
    }
  }

  lemma FailIff(db: Db, pid: Uuid, row: Payout)
    ensures FailPayout(db, pid, row).Ok? <==>
            && Releasable(db, row.account, row.amount) && pid in db.payouts
            && Movable(db, db.payouts[pid].tx, Failed)
  {
    if Releasable(db, row.account, row.amount) && pid in db.payouts {
      CloseIff(ReleaseFunds(db, row.account, row.amount).value, pid, db.payouts[pid].tx, Failed, PayoutFailed, None);
    }
  }

  /** An operator resolves exactly what is in review. */
  lemma ReviewIff(db: Db, pid: Uuid, replacementRef: Option<string>)
    ensures pid !in db.payouts ==>
              ConfirmReview(db, pid, replacementRef) == Err(NotFound) && RefundReview(db, pid) == Err(NotFound)
    ensures pid in db.payouts && db.payouts[pid].status != ManualReview ==>
              && ConfirmReview(db, pid, replacementRef) == Err(NotInManualReview)
              && RefundReview(db, pid) == Err(NotInManualReview)
    ensures ConfirmReview(db, pid, replacementRef).Ok? <==>
            && pid in db.payouts && db.payouts[pid].status == ManualReview
            && var row := db.payouts[pid];
               && row.amount > 0 && Releasable(db, row.account, row.amount)
               && SystemAccount(row.currency).Ok? && SystemAccount(row.currency).value in db.accounts
               && row.tx in db.txs && (db.txs[row.tx].status == Processing || db.txs[row.tx].status == Completed)
    ensures RefundReview(db, pid).Ok? <==>
            pid in db.payouts && db.payouts[pid].status == ManualReview && Movable(db, db.payouts[pid].tx, Failed)
  {
    if pid in db.payouts && db.payouts[pid].status == ManualReview {
      var row := db.payouts[pid];
      SettleIff(db, pid, row, ReviewConfirmed, if replacementRef.Some? then replacementRef else row.gatewayRef);
      CloseIff(ReleaseFundsSafe(db, row.account, row.amount), pid, row.tx, Failed, ReviewRefunded, row.gatewayRef);
    }
  }

  /** What a resolution leaves in the row: a confirmation stores the operator's reference when one is given
      and otherwise keeps the stored one; a refund keeps it. */
  lemma ResolvedRow(db: Db, pid: Uuid, replacementRef: Option<string>)
    ensures ConfirmReview(db, pid, replacementRef).Ok? ==>
              && pid in db.payouts && pid in ConfirmReview(db, pid, replacementRef).value.payouts
              && var row := ConfirmReview(db, pid, replacementRef).value.payouts[pid];
                 && row == db.payouts[pid].(status := Completed, gatewayRef := row.gatewayRef)
                 && (replacementRef.Some? ==> row.gatewayRef == replacementRef)
                 && (replacementRef.None? ==> row.gatewayRef == db.payouts[pid].gatewayRef)
    ensures RefundReview(db, pid).Ok? ==>
              && pid in db.payouts && pid in RefundReview(db, pid).value.payouts
              && RefundReview(db, pid).value.payouts[pid] == db.payouts[pid].(status := Failed)
  {
    if ConfirmReview(db, pid, replacementRef).Ok? {
      var row := db.payouts[pid];
      MoveSettledIff(db, row);
    }
  }
}
