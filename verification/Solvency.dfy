/**
 When are locked funds backed by the balance? Transfers and exchanges test the balance alone, so
 `locked <= balance` is not kept by every run. It is kept by every run that never moves more than
 the available funds out of the account, and a transfer or exchange keeps it exactly in that case.
 */
module Solvency {
  import opened Results
  import opened Tables
  import opened Ledger
  import opened Payouts
  import opened Runs
  import opened Entries
  import opened Deltas
  import opened Schema
  import opened Steps
  import opened PayoutProtocol

  predicate IsSystem(a: Uuid) {
    a == SYSTEM_USD || a == SYSTEM_EUR || a == SYSTEM_GBP
  }

  predicate Backed(acc: Account) {
    0 <= acc.locked <= acc.balance
  }

  function Available(db: Db, a: Uuid): int
    requires a in db.accounts
  {
    db.accounts[a].balance - db.accounts[a].locked
  }

  /** The account opens with a non-negative balance, and nothing beyond the available funds is
      transferred or exchanged out of it. Nothing is asked of workers and operators. */
  predicate PrudentStep(a: Uuid, s: Sys, e: Event) {
    && (e.OpenAccount? && e.id == a ==> e.balance >= 0)
    && (e.DoTransfer? && e.from == a && a in s.db.accounts ==> e.amount <= Available(s.db, a))
    && (e.DoExchange? && e.cmd.from == a && a in s.db.accounts ==> e.cmd.amount <= Available(s.db, a))
  }

  function Prudent(a: Uuid): (Sys, Event) -> bool {
    (s: Sys, e: Event) => PrudentStep(a, s, e)
  }

  ghost predicate BackedIn(s: Sys, a: Uuid) {
    Wellformed(s) && (a in s.db.accounts ==> Backed(s.db.accounts[a]))
  }

  ghost function BackedInv(a: Uuid): Sys -> bool {
    (s: Sys) => BackedIn(s, a)
  }

  lemma DepositBacked(db: Db, task: DepositTask, a: Uuid)
    requires DepositFunds(db, task.tid, task.retry, task.dep).Ok? && !IsSystem(a)
    requires a in db.accounts && Backed(db.accounts[a])
    ensures var d' := DepositFunds(db, task.tid, task.retry, task.dep).value;
            a in d'.accounts && Backed(d'.accounts[a])
  {
    DepositChanges(db, task.tid, task.retry, task.dep);
    PairNet(task.tid, SystemAccount(task.dep.currency).value, task.dep.account, task.dep.amount);
  }

  lemma TransferBacked(db: Db, tid: Uuid, from: Uuid, to: Uuid, amount: int, reference: string, a: Uuid)
    requires Transfer(db, tid, from, to, amount, reference).Ok? && a in db.accounts && Backed(db.accounts[a])
    ensures var d' := Transfer(db, tid, from, to, amount, reference).value;
            a in d'.accounts && (Backed(d'.accounts[a]) <==> (a == from ==> amount <= Available(db, a)))
  {
    TransferChanges(db, tid, from, to, amount, reference);
    PairNet(tid, from, to, amount);
  }

  lemma ExchangeBacked(db: Db, tid: Uuid, cmd: ExchangeCmd, target: int, a: Uuid)
    requires Seeded(db) && Exchange(db, tid, cmd, target).Ok? && !IsSystem(a)
    requires a in db.accounts && Backed(db.accounts[a])
    ensures var d' := Exchange(db, tid, cmd, target).value;
            a in d'.accounts && (Backed(d'.accounts[a]) <==> (a == cmd.from ==> cmd.amount <= Available(db, a)))
  {
    ExchangeOnUser(db, tid, cmd, target, a);
  }

  lemma RequestBacked(db: Db, pid: Uuid, tid: Uuid, req: PayoutRequest, a: Uuid)
    requires RequestPayout(db, pid, tid, req).Ok? && a in db.accounts && Backed(db.accounts[a])
    ensures var d' := RequestPayout(db, pid, tid, req).value;
            a in d'.accounts && Backed(d'.accounts[a])
  {
    RequestChanges(db, pid, tid, req);
  }

  lemma LedgerBackedIff(s: Sys, e: Event, s': Sys, a: Uuid)
    requires Seeded(s.db) && IsLedger(e) && Next(s, e, s') && !IsSystem(a)
    requires a in s.db.accounts && Backed(s.db.accounts[a])
    ensures a in s'.db.accounts && (Backed(s'.db.accounts[a]) <==> PrudentStep(a, s, e))
  {
    match e
    case DoTransfer(tid, from, to, amount, reference) =>
      TransferIs(s, tid, from, to, amount, reference, s');
      TransferBacked(s.db, tid, from, to, amount, reference, a);
    case DoExchange(tid, cmd, target) =>
      ExchangeIs(s, tid, cmd, target, s');
      ExchangeBacked(s.db, tid, cmd, target, a);
    case CommitDeposit(request) =>
      CommitIs(s, request, s');
      DepositBacked(s.db, s.deposits[request], a);
    case DoRequest(pid, tid, req) =>
      RequestIs(s, pid, tid, req, s');
      RequestBacked(s.db, pid, tid, req, a);
    case CheckDeposit(request, dep, tid) =>
      CheckIs(s, request, dep, tid, s');
  }

  lemma AvailableSettle(db: Db, q: Uuid, row: Payout, action: Action, ref: Option<string>, a: Uuid)
    requires Settle(db, q, row, action, ref).Ok? && row.amount > 0 && !IsSystem(a) && a in db.accounts
    ensures a in Settle(db, q, row, action, ref).value.accounts
    ensures Available(Settle(db, q, row, action, ref).value, a) == Available(db, a)
    ensures db.accounts[a].locked >= 0 ==> Settle(db, q, row, action, ref).value.accounts[a].locked >= 0
  {
    SettleChanges(db, q, row, action, ref);
    PairNet(row.tx, row.account, SystemAccount(row.currency).value, row.amount);
  }

  /** Funds are only unlocked, and no more of them than are locked. */
  predicate Eased(d: Db, d': Db, a: Uuid) {
    && a in d.accounts && a in d'.accounts && Available(d', a) >= Available(d, a)
    && (d.accounts[a].locked >= 0 ==> d'.accounts[a].locked >= 0)
  }

  lemma AvailableOperator(s: Sys, e: Event, s': Sys, a: Uuid)
    requires IsOperator(e) && Next(s, e, s') && !IsSystem(a) && a in s.db.accounts
    requires e.pid in s.db.payouts && s.db.payouts[e.pid].amount > 0
    ensures Eased(s.db, s'.db, a)
  {
    match e
    case DoRecover(pid) =>
      RecoverIs(s, pid, s');
      MoveRowChanges(s.db, pid, s.db.payouts[pid], Pending, RequeueStale);
    case DoConfirm(pid, replacementRef) =>
      var ref := ConfirmIs(s, pid, replacementRef, s');
      AvailableSettle(s.db, pid, s.db.payouts[pid], ReviewConfirmed, ref, a);
    case DoRefund(pid) =>
      RefundIs(s, pid, s');
      RefundChanges(s.db, pid);
  }

  lemma AvailableMove(s: Sys, e: Event, s': Sys, a: Uuid)
    requires (e.DoClaim? || e.DoRequeue?) && Next(s, e, s') && a in s.db.accounts
    requires e.h in s.claims ==> e.h.payout in s.db.payouts && SameRow(s.claims[e.h].row, s.db.payouts[e.h.payout])
    ensures Eased(s.db, s'.db, a)
  {
    match e
    case DoClaim(h) =>
      ClaimIs(s, h, s');
      MoveRowChanges(s.db, h.payout, s.db.payouts[h.payout], Processing, ProcessingStarted);
    case DoRequeue(h) =>
      RequeueIs(s, h, s');
      MoveRowChanges(s.db, h.payout, s.claims[h].row, Pending, RequeueClaimed);
  }

  lemma AvailableClose(s: Sys, e: Event, s': Sys, a: Uuid)
    requires (e.DoSettle? || e.DoFail?) && Next(s, e, s') && !IsSystem(a) && a in s.db.accounts
    requires e.h in s.claims ==> s.claims[e.h].row.amount > 0
    requires e.h in s.claims ==> e.h.payout in s.db.payouts && SameRow(s.claims[e.h].row, s.db.payouts[e.h.payout])
    ensures Eased(s.db, s'.db, a)
  {
    match e
    case DoSettle(h) =>
      SettleIs(s, h, s');
      AvailableSettle(s.db, h.payout, s.claims[h].row, PayoutCompleted, Some(s.claims[h].phase.gatewayRef), a);
    case DoFail(h) =>
      FailIs(s, h, s');
      FailChanges(s.db, h.payout, s.claims[h].row);
  }

  lemma AvailableReview(s: Sys, e: Event, s': Sys, a: Uuid)
    requires (e.MarkReview? || e.AuditReview?) && Next(s, e, s') && a in s.db.accounts
    ensures Eased(s.db, s'.db, a)
  {
    match e
    case MarkReview(h) => MarkIs(s, h, s');
    case AuditReview(h) => NoteIs(s, h, s');
  }

  lemma AvailableFallback(s: Sys, h: Holder, succeeds: bool, s': Sys, a: Uuid)
    requires Next(s, Fallback(h, succeeds), s') && a in s.db.accounts
    requires h in s.claims ==> s.claims[h].row.amount > 0
    ensures Eased(s.db, s'.db, a)
  {
    FallbackIs(s, h, succeeds, s');
    FallbackEases(s, h, succeeds, s', a);
  }

  lemma FallbackEases(s: Sys, h: Holder, succeeds: bool, s': Sys, a: Uuid)
    requires h in s.claims && FallbackStep(s, h, succeeds) == Some(s') && a in s.db.accounts
    requires s.claims[h].row.amount > 0
    ensures Eased(s.db, s'.db, a)
  {
  }

  lemma AvailableWorker(s: Sys, e: Event, s': Sys, a: Uuid)
    requires (IsWorker(e) || e.Fallback?) && HolderOk(s, e.h) && Next(s, e, s') && !IsSystem(a) && a in s.db.accounts
    ensures Eased(s.db, s'.db, a)
  {
    if e.Fallback? {
      AvailableFallback(s, e.h, e.succeeds, s', a);
    } else if e.DoClaim? || e.DoRequeue? {
      AvailableMove(s, e, s', a);
    } else if e.DoSettle? || e.DoFail? {
      AvailableClose(s, e, s', a);
    } else {
      AvailableReview(s, e, s', a);
    }
  }

  /** No step of the payout protocol takes from the available funds or unlocks more than is locked. */
  lemma AvailablePayoutStep(s: Sys, e: Event, s': Sys, a: Uuid)
    requires Wellformed(s) && Next(s, e, s') && !IsSystem(a) && a in s.db.accounts && !IsLedger(e)
    ensures Eased(s.db, s'.db, a)
  {
    if e.OpenAccount? {
      OpenIs(s, e.id, e.currency, e.balance, s');
    } else if IsOperator(e) {
      AvailableOperated(s, e, s', a);
    } else if IsLocal(e) {
      StepFramed(s, e, s');
    } else {
      AvailableHeld(s, e, s', a);
    }
  }

  lemma AvailableOperated(s: Sys, e: Event, s': Sys, a: Uuid)
    requires Wellformed(s) && IsOperator(e) && Next(s, e, s') && !IsSystem(a) && a in s.db.accounts
    ensures Eased(s.db, s'.db, a)
  {
    SubjectExists(s, e, s', e.pid);
    assert RowOk(s.db, s.db.payouts[e.pid]);
    AvailableOperator(s, e, s', a);
  }

  lemma AvailableHeld(s: Sys, e: Event, s': Sys, a: Uuid)
    requires Wellformed(s) && (IsWorker(e) || e.Fallback?) && Next(s, e, s') && !IsSystem(a) && a in s.db.accounts
    ensures Eased(s.db, s'.db, a)
  {
    HolderSound(s, e, s');
    AvailableWorker(s, e, s', a);
  }

  /** A step keeps a user account backed if and only if it is prudent, whatever workers and operators do. */
  lemma BackedStepIff(s: Sys, e: Event, s': Sys, a: Uuid)
    requires BackedIn(s, a) && Next(s, e, s') && !IsSystem(a)
    ensures BackedIn(s', a) <==> PrudentStep(a, s, e)
  {
    WellformedStep(s, e, s');
    if a !in s.db.accounts {
      NewBackedIff(s, e, s', a);
    } else if IsLedger(e) {
      LedgerBackedIff(s, e, s', a);
    } else {
      AvailablePayoutStep(s, e, s', a);
      OpenedElsewhere(s, e, s', a);
    }
  }

  lemma OpenedElsewhere(s: Sys, e: Event, s': Sys, a: Uuid)
    requires Next(s, e, s') && a in s.db.accounts && !IsLedger(e)
    ensures PrudentStep(a, s, e)
  {
    if e.OpenAccount? {
      OpenIs(s, e.id, e.currency, e.balance, s');
    }
  }

  lemma NewBackedIff(s: Sys, e: Event, s': Sys, a: Uuid)
    requires Wellformed(s) && Next(s, e, s') && a !in s.db.accounts
    ensures (a in s'.db.accounts ==> Backed(s'.db.accounts[a])) <==> PrudentStep(a, s, e)
  {
    if e.OpenAccount? {
      OpenIs(s, e.id, e.currency, e.balance, s');
    } else {
      var x := Tell(s, e, s');
    }
  }

  /** A user account with a non-negative opening balance stays backed in every run that moves no more than
      the available funds out of it, through any mix of deposits, incoming credits and payout steps: double
      settlements, lost writes and crashes included. */
  lemma StaysBacked(s: Sys, run: seq<Event>, a: Uuid)
    requires Init(s) && Exec(s, run).Some? && Along(s, run, Prudent(a)) && !IsSystem(a)
    requires a in s.db.accounts ==> s.db.accounts[a].balance >= 0
    ensures a in Exec(s, run).value.db.accounts ==> Backed(Exec(s, run).value.db.accounts[a])
  {
    InitWellformed(s);
    forall s: Sys, e: Event, s': Sys | BackedInv(a)(s) && Prudent(a)(s, e) && Next(s, e, s')
      ensures BackedInv(a)(s')
    {
      BackedStepIff(s, e, s', a);
    }
    RunKeeps(s, run, BackedInv(a), Prudent(a));
  }

  /** A committed transfer leaves its sender backed if and only if it moved no more than the
      available funds. */
  lemma TransferBackedIff(db: Db, tid: Uuid, from: Uuid, to: Uuid, amount: int, reference: string)
    requires Transfer(db, tid, from, to, amount, reference).Ok? && from in db.accounts && db.accounts[from].locked >= 0
    ensures var d' := Transfer(db, tid, from, to, amount, reference).value;
            from in d'.accounts && (Backed(d'.accounts[from]) <==> amount <= Available(db, from))
  {
    TransferChanges(db, tid, from, to, amount, reference);
    PairNet(tid, from, to, amount);
  }

  /** A committed exchange: who is who, and what it did to any account that is not a system one. */
  lemma ExchangeOnUser(db: Db, tid: Uuid, cmd: ExchangeCmd, target: int, a: Uuid)
    requires Seeded(db) && Exchange(db, tid, cmd, target).Ok? && !IsSystem(a) && a in db.accounts
    ensures var d' := Exchange(db, tid, cmd, target).value;
            a in d'.accounts && d'.accounts[a] == db.accounts[a].(balance := db.accounts[a].balance
              - (if a == cmd.from then cmd.amount else 0) + (if a == cmd.to then target else 0))
    ensures cmd.from != cmd.to && target > 0
  {
    CheckedSystem(db, cmd);
    var (liqSource, liqTarget) := CheckExchange(db, cmd).value;
    PostExchangeChanges(db, tid, cmd, target, liqSource, liqTarget);
    ExchangeDeltaOnUser(db, PostExchange(db, tid, cmd, target, liqSource, liqTarget).value, tid, cmd, target,
                        liqSource, liqTarget, a);
  }

  lemma CheckedSystem(db: Db, cmd: ExchangeCmd)
    requires CheckExchange(db, cmd).Ok?
    ensures var (liqSource, liqTarget) := CheckExchange(db, cmd).value;
            IsSystem(liqSource) && IsSystem(liqTarget) && cmd.from != cmd.to
  {
  }

  lemma ExchangeDeltaOnUser(d: Db, d': Db, tid: Uuid, cmd: ExchangeCmd, target: int, liqSource: Uuid, liqTarget: Uuid,
                            a: Uuid)
    requires Changes(d, d', ExchangeDelta(tid, cmd, target, liqSource, liqTarget)) && a in d.accounts
    requires a != liqSource && a != liqTarget
    ensures a in d'.accounts && d'.accounts[a] == d.accounts[a].(balance := d.accounts[a].balance
              - (if a == cmd.from then cmd.amount else 0) + (if a == cmd.to then target else 0))
  {
    ExchangeNet(tid, cmd, target, liqSource, liqTarget);
  }

  lemma ExchangeBackedIff(db: Db, tid: Uuid, cmd: ExchangeCmd, target: int)
    requires Seeded(db) && Exchange(db, tid, cmd, target).Ok? && !IsSystem(cmd.from)
    requires cmd.from in db.accounts && db.accounts[cmd.from].locked >= 0
    ensures var d' := Exchange(db, tid, cmd, target).value;
            cmd.from in d'.accounts && (Backed(d'.accounts[cmd.from]) <==> cmd.amount <= Available(db, cmd.from))
  {
    ExchangeOnUser(db, tid, cmd, target, cmd.from);
  }
}
