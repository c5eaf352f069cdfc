/**
 The transition function unfolded once: what each kind of event does, as facts about two states. Later
 proofs read these facts and never the transition function itself.
 */
module Steps {
  import opened Results
  import opened Tables
  import opened Ledger
  import opened Payouts
  import opened Runs

  // ---- kinds of events ----

  predicate IsLedger(e: Event) {
    e.DoTransfer? || e.DoExchange? || e.CheckDeposit? || e.CommitDeposit? || e.DoRequest?
  }

  predicate IsOperator(e: Event) {
    e.DoRecover? || e.DoConfirm? || e.DoRefund?
  }

  /** A worker event that touches no table. */
  predicate IsLocal(e: Event) {
    e.GatewayTakes? || e.GatewayAccepts? || e.GatewayRefuses? || e.SettleAborts? || e.FailAborts? || e.GiveUp?
  }

  /** A worker event that commits something about its payout. */
  predicate IsWorker(e: Event) {
    e.DoClaim? || e.DoRequeue? || e.DoSettle? || e.MarkReview? || e.AuditReview? || e.DoFail?
  }

  /** The claim an event is about. */
  function Own(e: Event): Option<Holder> {
    if IsLocal(e) || IsWorker(e) || e.Fallback? then Some(e.h) else None
  }

  /** The payout an event is about. */
  function Subject(e: Event): Option<Uuid> {
    if IsLocal(e) || IsWorker(e) || e.Fallback? then Some(e.h.payout)
    else if IsOperator(e) || e.DoRequest? then Some(e.pid)
    else None
  }

  /** The gateway takes a payout, whether or not the worker will hear of it. */
  predicate IsSend(e: Event) {
    e.GatewayAccepts? || e.GatewayTakes?
  }

  // ---- what no event touches outside its own concern ----

  /** Openings, webhook tasks, sends, releases and claims change only where the event says so. */
  ghost predicate Framed(s: Sys, e: Event, s': Sys) {
    && (!e.OpenAccount? ==> s'.opening == s.opening)
    && (!e.CheckDeposit? && !e.CommitDeposit? ==> s'.deposits == s.deposits)
    && s'.sent == (if IsSend(e) then s.sent + [e.h.payout] else s.sent)
    && (!e.Fallback? ==> s'.released == s.released)
    && (e.Fallback? ==> forall p | p != e.h.payout :: p in s'.released <==> p in s.released)
    && (Own(e).None? ==> s'.claims == s.claims)
    && (Own(e).Some? ==>
          || s'.claims == s.claims - {e.h}
          || (e.h in s'.claims && s'.claims == s.claims[e.h := s'.claims[e.h]]))
    && (Own(e).Some? && !e.DoClaim? ==> e.h in s.claims)
    && (IsLocal(e) ==> s'.db == s.db)
  }

  lemma TransferFramed(s: Sys, e: Event, s': Sys)
    requires Next(s, e, s') && e.DoTransfer?
    ensures Framed(s, e, s')
  {
    assert NextAt(s, e, s', 0);
  }

  lemma ExchangeOnly(s: Sys, e: Event, s': Sys)
    requires Next(s, e, s') && e.DoExchange?
    ensures s' == s.(db := s'.db)
  {
    assert NextAt(s, e, s', 0);
  }

  lemma ExchangeFramed(s: Sys, e: Event, s': Sys)
    requires Next(s, e, s') && e.DoExchange?
    ensures Framed(s, e, s')
  {
    ExchangeOnly(s, e, s');
  }

  lemma RequestFramed(s: Sys, e: Event, s': Sys)
    requires Next(s, e, s') && e.DoRequest?
    ensures Framed(s, e, s')
  {
    assert NextAt(s, e, s', 0);
  }

  lemma TaskFramed(s: Sys, e: Event, s': Sys)
    requires Next(s, e, s') && (e.CheckDeposit? || e.CommitDeposit?)
    ensures Framed(s, e, s')
  {
    assert NextAt(s, e, s', 0);
  }

  lemma OperatorFramed(s: Sys, e: Event, s': Sys)
    requires Next(s, e, s') && IsOperator(e)
    ensures Framed(s, e, s')
  {
    assert NextAt(s, e, s', 0);
  }

  lemma LocalFramed(s: Sys, e: Event, s': Sys)
    requires Next(s, e, s') && IsLocal(e)
    ensures Framed(s, e, s')
  {
    assert NextAt(s, e, s', 0);
  }

  lemma MoverFramed(s: Sys, e: Event, s': Sys)
    requires Next(s, e, s') && (e.DoClaim? || e.DoRequeue?)
    ensures Framed(s, e, s')
  {
    assert NextAt(s, e, s', 0);
  }

  lemma ReviewFramed(s: Sys, e: Event, s': Sys)
    requires Next(s, e, s') && (e.MarkReview? || e.AuditReview?)
    ensures Framed(s, e, s')
  {
    assert NextAt(s, e, s', 0);
  }

  lemma CloserFramed(s: Sys, e: Event, s': Sys)
    requires Next(s, e, s') && (e.DoSettle? || e.DoFail?)
    ensures Framed(s, e, s')
  {
    assert NextAt(s, e, s', 0);
  }

  /** The fallback's last write drops its claim. */
  lemma CloseFramed(s: Sys, h: Holder, succeeds: bool, s': Sys)
    requires h in s.claims && FallbackStep(s, h, succeeds) == Some(s') && In(s, h, FallbackPayout)
    ensures Framed(s, Fallback(h, succeeds), s')
  {
  }

  lemma MiddleFramed(s: Sys, h: Holder, succeeds: bool, s': Sys)
    requires h in s.claims && FallbackStep(s, h, succeeds) == Some(s') && !In(s, h, FallbackPayout)
    ensures Framed(s, Fallback(h, succeeds), s')
  {
  }

  lemma FallbackFramed(s: Sys, e: Event, s': Sys)
    requires Next(s, e, s') && e.Fallback?
    ensures Framed(s, e, s')
  {
    FallbackIs(s, e.h, e.succeeds, s');
    if In(s, e.h, FallbackPayout) {
      CloseFramed(s, e.h, e.succeeds, s');
    } else {
      MiddleFramed(s, e.h, e.succeeds, s');
    }
  }

  lemma AccountFramed(s: Sys, e: Event, s': Sys)
    requires Next(s, e, s') && e.OpenAccount?
    ensures Framed(s, e, s')
  {
    assert NextAt(s, e, s', 0);
  }

  lemma StepFramed(s: Sys, e: Event, s': Sys)
    requires Next(s, e, s')
    ensures Framed(s, e, s')
  {
    if e.DoTransfer? {
      TransferFramed(s, e, s');
    } else if e.DoExchange? {
      ExchangeFramed(s, e, s');
    } else if e.DoRequest? {
      RequestFramed(s, e, s');
    } else if e.OpenAccount? {
      AccountFramed(s, e, s');
    } else if IsLedger(e) {
      TaskFramed(s, e, s');
    } else if IsOperator(e) {
      OperatorFramed(s, e, s');
    } else if IsLocal(e) {
      LocalFramed(s, e, s');
    } else if e.DoSettle? || e.DoFail? {
      CloserFramed(s, e, s');
    } else if e.MarkReview? || e.AuditReview? {
      ReviewFramed(s, e, s');
    } else if IsWorker(e) {
      MoverFramed(s, e, s');
    } else {
      FallbackFramed(s, e, s');
    }
  }

  lemma ReleasedKept(s: Sys, e: Event, s': Sys)
    requires Next(s, e, s') && !e.Fallback?
    ensures s'.released == s.released
  {
    StepFramed(s, e, s');
  }

  /** An event that is nobody's claim's touches no claim. */
  lemma ClaimsKept(s: Sys, e: Event, s': Sys)
    requires Next(s, e, s') && Own(e).None?
    ensures s'.claims == s.claims && s'.released == s.released
  {
    StepFramed(s, e, s');
  }

  // ---- ledger events ----

  lemma OpenIs(s: Sys, id: Uuid, currency: Currency, balance: int, s': Sys)
    requires Next(s, OpenAccount(id, currency, balance), s')
    ensures id !in s.db.accounts && Supported(currency)
    ensures s'.db == SetAccount(s.db, id, Account(currency, balance, 0)) && s'.opening == s.opening[id := balance]
    ensures s'.deposits == s.deposits
  {
    assert NextAt(s, OpenAccount(id, currency, balance), s', 0);
  }

  lemma TransferIs(s: Sys, tid: Uuid, from: Uuid, to: Uuid, amount: int, reference: string, s': Sys)
    requires Next(s, DoTransfer(tid, from, to, amount, reference), s')
    ensures Transfer(s.db, tid, from, to, amount, reference) == Ok(s'.db)
  {
    assert NextAt(s, DoTransfer(tid, from, to, amount, reference), s', 0);
  }

  lemma ExchangeIs(s: Sys, tid: Uuid, cmd: ExchangeCmd, target: int, s': Sys)
    requires Next(s, DoExchange(tid, cmd, target), s')
    ensures Exchange(s.db, tid, cmd, target) == Ok(s'.db)
  {
    assert NextAt(s, DoExchange(tid, cmd, target), s', 0);
  }

  lemma CheckIs(s: Sys, request: nat, dep: Deposit, tid: Uuid, s': Sys)
    requires Next(s, CheckDeposit(request, dep, tid), s')
    ensures s'.db == s.db && ValidateDeposit(dep).Ok?
    ensures exists retry :: s'.deposits == s.deposits[request := DepositTask(dep, tid, retry)] &&
                            (retry ==> tid in s.db.txs && s.db.txs[tid].reference == dep.reference &&
                                       EvaluateExisting(dep, s.db.txs[tid]) == Ok(Retry))
  {
    assert NextAt(s, CheckDeposit(request, dep, tid), s', 0);
    if ReferenceTaken(s.db, dep.reference) {
      assert s'.deposits == s.deposits[request := DepositTask(dep, tid, true)];
    } else {
      assert s'.deposits == s.deposits[request := DepositTask(dep, tid, false)];
    }
  }

  lemma CommitIs(s: Sys, request: nat, s': Sys)
    requires Next(s, CommitDeposit(request), s')
    ensures request in s.deposits && s'.deposits == s.deposits - {request}
    ensures DepositFunds(s.db, s.deposits[request].tid, s.deposits[request].retry, s.deposits[request].dep) == Ok(s'.db)
  {
    assert NextAt(s, CommitDeposit(request), s', 0);
  }

  lemma RequestIs(s: Sys, pid: Uuid, tid: Uuid, req: PayoutRequest, s': Sys)
    requires Next(s, DoRequest(pid, tid, req), s')
    ensures RequestPayout(s.db, pid, tid, req) == Ok(s'.db)
  {
    assert NextAt(s, DoRequest(pid, tid, req), s', 0);
  }

  // ---- operators ----

  lemma RecoverIs(s: Sys, pid: Uuid, s': Sys)
    requires Next(s, DoRecover(pid), s')
    ensures pid in s.db.payouts && s.db.payouts[pid].status == Processing
    ensures MoveRow(s.db, pid, s.db.payouts[pid], Pending, RequeueStale) == Ok(s'.db)
  {
    assert NextAt(s, DoRecover(pid), s', 0);
  }

  lemma ConfirmIs(s: Sys, pid: Uuid, replacementRef: Option<string>, s': Sys) returns (ref: Option<string>)
    requires Next(s, DoConfirm(pid, replacementRef), s')
    ensures pid in s.db.payouts && s.db.payouts[pid].status == ManualReview
    ensures Settle(s.db, pid, s.db.payouts[pid], ReviewConfirmed, ref) == Ok(s'.db)
    ensures ref == if replacementRef.Some? then replacementRef else s.db.payouts[pid].gatewayRef
    ensures pid in s'.db.payouts && s'.db.payouts[pid].gatewayRef == ref
  {
    assert NextAt(s, DoConfirm(pid, replacementRef), s', 0);
    ref := if replacementRef.Some? then replacementRef else s.db.payouts[pid].gatewayRef;
    SettleRewrites(s.db, pid, s.db.payouts[pid], ReviewConfirmed, ref);
  }

  lemma RefundIs(s: Sys, pid: Uuid, s': Sys)
    requires Next(s, DoRefund(pid), s')
    ensures pid in s.db.payouts && s.db.payouts[pid].status == ManualReview && RefundReview(s.db, pid) == Ok(s'.db)
  {
    assert NextAt(s, DoRefund(pid), s', 0);
  }

  // ---- workers ----

  lemma ClaimIs(s: Sys, h: Holder, s': Sys)
    requires Next(s, DoClaim(h), s')
    ensures h !in s.claims && h.payout in s.db.payouts && s.db.payouts[h.payout].status == Pending
    ensures MoveRow(s.db, h.payout, s.db.payouts[h.payout], Processing, ProcessingStarted) == Ok(s'.db)
    ensures s'.claims == s.claims[h := Claim(s.db.payouts[h.payout], Claimed)]
  {
    assert NextAt(s, DoClaim(h), s', 0);
  }

  lemma RequeueIs(s: Sys, h: Holder, s': Sys)
    requires Next(s, DoRequeue(h), s')
    ensures Unheard(s, h) && s'.claims == s.claims - {h}
    ensures MoveRow(s.db, h.payout, s.claims[h].row, Pending, RequeueClaimed) == Ok(s'.db)
  {
    assert NextAt(s, DoRequeue(h), s', 0);
  }

  lemma SettleIs(s: Sys, h: Holder, s': Sys)
    requires Next(s, DoSettle(h), s')
    ensures h in s.claims && s.claims[h].phase.Sent? && s'.claims == s.claims - {h}
    ensures Settle(s.db, h.payout, s.claims[h].row, PayoutCompleted, Some(s.claims[h].phase.gatewayRef)) == Ok(s'.db)
  {
    assert NextAt(s, DoSettle(h), s', 0);
  }

  lemma MarkIs(s: Sys, h: Holder, s': Sys)
    requires Next(s, MarkReview(h), s')
    ensures h in s.claims && s.claims[h].phase.Unsettled? && s'.claims == s.claims[h := s.claims[h].(phase := Marked)]
    ensures UpdatePayoutStatus(s.db, h.payout, ManualReview, Some(s.claims[h].phase.gatewayRef)) == Ok(s'.db)
  {
    assert NextAt(s, MarkReview(h), s', 0);
  }

  lemma NoteIs(s: Sys, h: Holder, s': Sys)
    requires Next(s, AuditReview(h), s')
    ensures In(s, h, Marked) && s'.claims == s.claims - {h}
    ensures s'.db == WriteAudit(s.db, Audit(s.claims[h].row.tx, PayoutReview, Some(Processing), Processing))
  {
    assert NextAt(s, AuditReview(h), s', 0);
  }

  lemma FailIs(s: Sys, h: Holder, s': Sys)
    requires Next(s, DoFail(h), s')
    ensures In(s, h, Refused) && s'.claims == s.claims - {h}
    ensures FailPayout(s.db, h.payout, s.claims[h].row) == Ok(s'.db)
  {
    assert NextAt(s, DoFail(h), s', 0);
  }

  /** A local step moves its claim from one point to the next, or drops it. */
  lemma LocalIs(s: Sys, e: Event, s': Sys)
    requires Next(s, e, s') && IsLocal(e)
    ensures e.h in s.claims && (IsSend(e) ==> In(s, e.h, Claimed)) && (e.GatewayRefuses? ==> Unheard(s, e.h))
    ensures e.SettleAborts? ==> s.claims[e.h].phase.Sent?
    ensures e.FailAborts? ==> In(s, e.h, Refused)
    ensures s'.claims == if e.GiveUp? then s.claims - {e.h} else s.claims[e.h := s.claims[e.h].(phase := Heard(s, e))]
  {
    assert NextAt(s, e, s', 0);
  }

  function Heard(s: Sys, e: Event): Phase
    requires IsLocal(e) && e.h in s.claims
  {
    match e
    case GatewayTakes(_) => Unanswered
    case GatewayAccepts(_, gatewayRef) => Sent(gatewayRef)
    case GatewayRefuses(_) => Refused
    case SettleAborts(h) =>
      if s.claims[h].phase.Sent? then Unsettled(s.claims[h].phase.gatewayRef) else s.claims[h].phase
    case FailAborts(_) => FallbackRead
    case GiveUp(h) => s.claims[h].phase
  }

  // ---- the fallback ----

  lemma FallbackIs(s: Sys, h: Holder, succeeds: bool, s': Sys)
    requires Next(s, Fallback(h, succeeds), s')
    ensures h in s.claims && FallbackStep(s, h, succeeds) == Some(s')
  {
    assert NextAt(s, Fallback(h, succeeds), s', 0);
  }

  // ---- the shape of a step: guards, claims and payout rows ----

  predicate InFallback(phase: Phase) {
    || phase == FallbackRead || phase == FallbackRelease || phase == FallbackTx
    || phase == FallbackAudit || phase == FallbackPayout
  }

  /** Where an event about a payout may happen. */
  predicate Guarded(s: Sys, e: Event) {
    match e
    case DoClaim(h) => h !in s.claims && h.payout in s.db.payouts && s.db.payouts[h.payout].status == Pending
    case DoRequeue(h) => Unheard(s, h)
    case GatewayTakes(h) => In(s, h, Claimed)
    case GatewayAccepts(h, _) => In(s, h, Claimed)
    case GatewayRefuses(h) => Unheard(s, h)
    case DoSettle(h) => h in s.claims && s.claims[h].phase.Sent?
    case SettleAborts(h) => h in s.claims && s.claims[h].phase.Sent?
    case MarkReview(h) => h in s.claims && s.claims[h].phase.Unsettled?
    case AuditReview(h) => In(s, h, Marked)
    case DoFail(h) => In(s, h, Refused)
    case FailAborts(h) => In(s, h, Refused)
    case Fallback(h, _) => h in s.claims && InFallback(s.claims[h].phase)
    case GiveUp(h) => h in s.claims
    case DoRecover(pid) => pid in s.db.payouts && s.db.payouts[pid].status == Processing
    case DoConfirm(pid, _) => pid in s.db.payouts && s.db.payouts[pid].status == ManualReview
    case DoRefund(pid) => pid in s.db.payouts && s.db.payouts[pid].status == ManualReview
    case _ => true
  }

  /** What the event makes of its claim. */
  ghost predicate Reclaimed(s: Sys, e: Event, s': Sys)
    requires Guarded(s, e)
  {
    match e
    case DoClaim(h) => s'.claims == s.claims[h := Claim(s.db.payouts[h.payout], Claimed)]
    case MarkReview(h) => s'.claims == s.claims[h := s.claims[h].(phase := Marked)]
    case Fallback(h, _) =>
      if In(s, h, FallbackPayout) then s'.claims == s.claims - {h}
      else h in s'.claims && s'.claims == s.claims[h := s'.claims[h]] && InFallback(s'.claims[h].phase)
    case GatewayTakes(h) => s'.claims == s.claims[h := s.claims[h].(phase := Unanswered)]
    case GatewayAccepts(h, gatewayRef) => s'.claims == s.claims[h := s.claims[h].(phase := Sent(gatewayRef))]
    case GatewayRefuses(h) => s'.claims == s.claims[h := s.claims[h].(phase := Refused)]
    case SettleAborts(h) => s'.claims == s.claims[h := s.claims[h].(phase := Unsettled(s.claims[h].phase.gatewayRef))]
    case FailAborts(h) => s'.claims == s.claims[h := s.claims[h].(phase := FallbackRead)]
    case _ => if Own(e).Some? then s'.claims == s.claims - {e.h} else s'.claims == s.claims
  }

  /** The status the event gives its payout, if it writes one. */
  function Written(s: Sys, e: Event): Option<Status> {
    match e
    case DoClaim(_) => Some(Processing)
    case DoRequeue(_) => Some(Pending)
    case DoRecover(_) => Some(Pending)
    case DoSettle(_) => Some(Completed)
    case DoConfirm(_, _) => Some(Completed)
    case MarkReview(_) => Some(ManualReview)
    case DoFail(_) => Some(Failed)
    case DoRefund(_) => Some(Failed)
    case Fallback(h, succeeds) =>
      if succeeds && In(s, h, FallbackPayout) && h.payout in s.db.payouts then Some(Failed) else None
    case _ => None
  }

  /** What the event makes of the payouts table; a request adds a row and is not covered here. */
  predicate Rewritten(s: Sys, e: Event, s': Sys) {
    if Written(s, e).None? then s'.db.payouts == s.db.payouts
    else
      && Subject(e).Some? && Subject(e).value in s.db.payouts && Subject(e).value in s'.db.payouts
      && var p := Subject(e).value;
         && s'.db.payouts == s.db.payouts[p := s'.db.payouts[p]]
         && s'.db.payouts[p] ==
            s.db.payouts[p].(status := Written(s, e).value, gatewayRef := s'.db.payouts[p].gatewayRef)
  }

  ghost predicate Shaped(s: Sys, e: Event, s': Sys) {
    Guarded(s, e) && Reclaimed(s, e, s') && Rewritten(s, e, s')
  }

  lemma MoveRewrites(db: Db, pid: Uuid, row: Payout, status: Status, action: Action)
    requires MoveRow(db, pid, row, status, action).Ok?
    ensures pid in db.payouts
    ensures MoveRow(db, pid, row, status, action).value.payouts ==
            db.payouts[pid := db.payouts[pid].(status := status, gatewayRef := None)]
  {
  }

  lemma CloseRewrites(db: Db, pid: Uuid, tid: Uuid, status: Status, action: Action, ref: Option<string>)
    requires CloseRows(db, pid, tid, status, action, ref).Ok?
    ensures pid in db.payouts
    ensures CloseRows(db, pid, tid, status, action, ref).value.payouts ==
            db.payouts[pid := db.payouts[pid].(status := status, gatewayRef := ref)]
  {
  }

  lemma SettleRewrites(db: Db, pid: Uuid, row: Payout, action: Action, ref: Option<string>)
    requires Settle(db, pid, row, action, ref).Ok?
    ensures pid in db.payouts
    ensures Settle(db, pid, row, action, ref).value.payouts ==
            db.payouts[pid := db.payouts[pid].(status := Completed, gatewayRef := ref)]
  {
    CloseRewrites(MoveSettledFunds(db, row).value, pid, row.tx, Completed, action, ref);
  }

  lemma FailRewrites(db: Db, pid: Uuid, row: Payout)
    requires FailPayout(db, pid, row).Ok?
    ensures pid in db.payouts
    ensures FailPayout(db, pid, row).value.payouts ==
            db.payouts[pid := db.payouts[pid].(status := Failed, gatewayRef := None)]
  {
  }

  lemma RefundRewrites(db: Db, pid: Uuid)
    requires RefundReview(db, pid).Ok?
    ensures pid in db.payouts
    ensures RefundReview(db, pid).value.payouts ==
            db.payouts[pid := db.payouts[pid].(status := Failed, gatewayRef := db.payouts[pid].gatewayRef)]
  {
  }

  lemma ShapedMove(s: Sys, e: Event, s': Sys)
    requires Next(s, e, s') && (e.DoClaim? || e.DoRequeue?)
    ensures Shaped(s, e, s')
  {
    match e
    case DoClaim(h) =>
      ClaimIs(s, h, s');
      MoveRewrites(s.db, h.payout, s.db.payouts[h.payout], Processing, ProcessingStarted);
    case DoRequeue(h) =>
      RequeueIs(s, h, s');
      MoveRewrites(s.db, h.payout, s.claims[h].row, Pending, RequeueClaimed);
  }

  lemma ShapedRecovery(s: Sys, pid: Uuid, s': Sys)
    requires Next(s, DoRecover(pid), s')
    ensures Shaped(s, DoRecover(pid), s')
  {
    RecoverIs(s, pid, s');
    OperatorFramed(s, DoRecover(pid), s');
    MoveRewrites(s.db, pid, s.db.payouts[pid], Pending, RequeueStale);
  }

  lemma ShapedSettle(s: Sys, h: Holder, s': Sys)
    requires Next(s, DoSettle(h), s')
    ensures Shaped(s, DoSettle(h), s')
  {
    SettleIs(s, h, s');
    SettleRewrites(s.db, h.payout, s.claims[h].row, PayoutCompleted, Some(s.claims[h].phase.gatewayRef));
  }

  lemma ShapedConfirm(s: Sys, pid: Uuid, replacementRef: Option<string>, s': Sys)
    requires Next(s, DoConfirm(pid, replacementRef), s')
    ensures Shaped(s, DoConfirm(pid, replacementRef), s')
  {
    var ref := ConfirmIs(s, pid, replacementRef, s');
    OperatorFramed(s, DoConfirm(pid, replacementRef), s');
    SettleRewrites(s.db, pid, s.db.payouts[pid], ReviewConfirmed, ref);
  }

  lemma ShapedFail(s: Sys, h: Holder, s': Sys)
    requires Next(s, DoFail(h), s')
    ensures Shaped(s, DoFail(h), s')
  {
    FailIs(s, h, s');
    FailRewrites(s.db, h.payout, s.claims[h].row);
  }

  lemma ShapedRefund(s: Sys, pid: Uuid, s': Sys)
    requires Next(s, DoRefund(pid), s')
    ensures Shaped(s, DoRefund(pid), s')
  {
    RefundIs(s, pid, s');
    OperatorFramed(s, DoRefund(pid), s');
    RefundRewrites(s.db, pid);
  }

  lemma ShapedLocal(s: Sys, e: Event, s': Sys)
    requires Next(s, e, s') && IsLocal(e)
    ensures Shaped(s, e, s')
  {
    LocalIs(s, e, s');
    LocalFramed(s, e, s');
  }

  lemma ShapedReview(s: Sys, e: Event, s': Sys)
    requires Next(s, e, s') && (e.MarkReview? || e.AuditReview?)
    ensures Shaped(s, e, s')
  {
    match e
    case MarkReview(h) => MarkIs(s, h, s');
    case AuditReview(h) => NoteIs(s, h, s');
  }

  lemma ShapedClose(s: Sys, h: Holder, succeeds: bool, s': Sys)
    requires In(s, h, FallbackPayout) && FallbackStep(s, h, succeeds) == Some(s')
    ensures Shaped(s, Fallback(h, succeeds), s')
  {
  }

  lemma ShapedMiddle(s: Sys, h: Holder, succeeds: bool, s': Sys)
    requires h in s.claims && !In(s, h, FallbackPayout) && FallbackStep(s, h, succeeds) == Some(s')
    ensures Shaped(s, Fallback(h, succeeds), s')
  {
    MiddleWrites(s, h, succeeds, s');
  }

  /** Until its last write the fallback leaves the payouts alone and keeps its claim. */
  lemma MiddleWrites(s: Sys, h: Holder, succeeds: bool, s': Sys)
    requires h in s.claims && !In(s, h, FallbackPayout) && FallbackStep(s, h, succeeds) == Some(s')
    ensures InFallback(s.claims[h].phase) && s'.db.payouts == s.db.payouts && h in s'.claims
    ensures s'.claims == s.claims[h := s'.claims[h]] && InFallback(s'.claims[h].phase)
  {
  }

  lemma ShapedFallback(s: Sys, h: Holder, succeeds: bool, s': Sys)
    requires Next(s, Fallback(h, succeeds), s')
    ensures Shaped(s, Fallback(h, succeeds), s')
  {
    FallbackIs(s, h, succeeds, s');
    if In(s, h, FallbackPayout) {
      ShapedClose(s, h, succeeds, s');
    } else {
      ShapedMiddle(s, h, succeeds, s');
    }
  }

  /** The shape of every event about an existing payout. */
  lemma StepShaped(s: Sys, e: Event, s': Sys)
    requires Next(s, e, s') && Subject(e).Some? && !e.DoRequest?
    ensures Shaped(s, e, s')
  {
    match e
    case DoSettle(h) => ShapedSettle(s, h, s');
    case DoFail(h) => ShapedFail(s, h, s');
    case Fallback(h, succeeds) => ShapedFallback(s, h, succeeds, s');
    case DoRecover(pid) => ShapedRecovery(s, pid, s');
    case DoConfirm(pid, replacementRef) => ShapedConfirm(s, pid, replacementRef, s');
    case DoRefund(pid) => ShapedRefund(s, pid, s');
    case _ =>
      if IsLocal(e) {
        ShapedLocal(s, e, s');
      } else if e.MarkReview? || e.AuditReview? {
        ShapedReview(s, e, s');
      } else {
        ShapedMove(s, e, s');
      }
  }

  /** A request never meets an existing payout. */
  lemma RequestIsNew(s: Sys, e: Event, s': Sys)
    requires Next(s, e, s') && e.DoRequest?
    ensures e.pid !in s.db.payouts
  {
    RequestIs(s, e.pid, e.tid, e.req, s');
  }

  lemma StepGuarded(s: Sys, e: Event, s': Sys, p: Uuid)
    requires Next(s, e, s') && Subject(e) == Some(p) && p in s.db.payouts
    ensures !e.DoRequest? && Guarded(s, e)
  {
    if e.DoRequest? {
      RequestIsNew(s, e, s');
    } else {
      StepShaped(s, e, s');
    }
  }
}
