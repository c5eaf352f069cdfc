/** Steps in closed form: what an event whose guard holds leaves of the state, one lemma per kind of event. */
module WorkerSteps {
  import opened Results
  import opened Tables
  import opened Runs
  import Ledger
  import Payouts

  // ---- requests, transfers and resolutions ----

  lemma TransferNext(s: Sys, tid: Uuid, from: Uuid, to: Uuid, amount: int, reference: string, d: Db)
    requires Ledger.Transfer(s.db, tid, from, to, amount, reference) == Ok(d)
    ensures Next(s, DoTransfer(tid, from, to, amount, reference), s.(db := d))
  {
  }

  lemma RequestNext(s: Sys, pid: Uuid, tid: Uuid, req: Payouts.PayoutRequest, d: Db)
    requires Payouts.RequestPayout(s.db, pid, tid, req) == Ok(d)
    ensures Next(s, DoRequest(pid, tid, req), s.(db := d))
  {
  }

  lemma ConfirmNext(s: Sys, pid: Uuid, replacementRef: Option<string>, d: Db)
    requires Payouts.ConfirmReview(s.db, pid, replacementRef) == Ok(d)
    ensures Next(s, DoConfirm(pid, replacementRef), s.(db := d))
  {
    assert WithDb(s, Payouts.ConfirmReview(s.db, pid, replacementRef)) == Some(s.(db := d));
  }

  // ---- claiming and letting go ----

  lemma ClaimNext(s: Sys, h: Holder)
    requires h !in s.claims && h.payout in s.db.payouts && s.db.payouts[h.payout].status == Pending
    requires Payouts.MoveRow(s.db, h.payout, s.db.payouts[h.payout], Processing, ProcessingStarted).Ok?
    ensures var d := Payouts.MoveRow(s.db, h.payout, s.db.payouts[h.payout], Processing, ProcessingStarted).value;
            Next(s, DoClaim(h), s.(db := d, claims := s.claims[h := Claim(s.db.payouts[h.payout], Claimed)]))
  {
  }

  lemma RequeueNext(s: Sys, h: Holder)
    requires Unheard(s, h) && Payouts.MoveRow(s.db, h.payout, s.claims[h].row, Pending, RequeueClaimed).Ok?
    ensures Next(s, DoRequeue(h),
                 Drop(s, h).(db := Payouts.MoveRow(s.db, h.payout, s.claims[h].row, Pending, RequeueClaimed).value))
  {
  }

  lemma RecoverNext(s: Sys, p: Uuid)
    requires p in s.db.payouts && s.db.payouts[p].status == Processing
    requires Payouts.MoveRow(s.db, p, s.db.payouts[p], Pending, RequeueStale).Ok?
    ensures Next(s, DoRecover(p), s.(db := Payouts.MoveRow(s.db, p, s.db.payouts[p], Pending, RequeueStale).value))
  {
  }

  // ---- the gateway's answer ----

  lemma TakesNext(s: Sys, h: Holder)
    requires In(s, h, Claimed)
    ensures Next(s, GatewayTakes(h), At(s.(sent := s.sent + [h.payout]), h, Unanswered))
  {
  }

  lemma AcceptsNext(s: Sys, h: Holder, gatewayRef: string)
    requires In(s, h, Claimed)
    ensures Next(s, GatewayAccepts(h, gatewayRef), At(s.(sent := s.sent + [h.payout]), h, Sent(gatewayRef)))
  {
  }

  lemma RefusesNext(s: Sys, h: Holder)
    requires Unheard(s, h)
    ensures Next(s, GatewayRefuses(h), At(s, h, Refused))
  {
  }

  lemma GivesUpNext(s: Sys, h: Holder)
    requires h in s.claims
    ensures Next(s, GiveUp(h), Drop(s, h))
  {
  }

  // ---- after an acceptance ----

  lemma SettlesNext(s: Sys, h: Holder, gatewayRef: string, d: Db)
    requires In(s, h, Sent(gatewayRef))
    requires Payouts.Settle(s.db, h.payout, s.claims[h].row, PayoutCompleted, Some(gatewayRef)) == Ok(d)
    ensures Next(s, DoSettle(h), Drop(s, h).(db := d))
  {
  }

  lemma AbortsNext(s: Sys, h: Holder, gatewayRef: string)
    requires In(s, h, Sent(gatewayRef))
    ensures Next(s, SettleAborts(h), At(s, h, Unsettled(gatewayRef)))
  {
  }

  lemma MarksNext(s: Sys, h: Holder, gatewayRef: string, d: Db)
    requires In(s, h, Unsettled(gatewayRef))
    requires UpdatePayoutStatus(s.db, h.payout, ManualReview, Some(gatewayRef)) == Ok(d)
    ensures Next(s, MarkReview(h), At(s, h, Marked).(db := d))
  {
  }

  lemma NotesNext(s: Sys, h: Holder)
    requires In(s, h, Marked)
    ensures var note := Audit(s.claims[h].row.tx, PayoutReview, Some(Processing), Processing);
            Next(s, AuditReview(h), Drop(s, h).(db := WriteAudit(s.db, note)))
  {
  }

  // ---- after a refusal ----

  lemma FailsNext(s: Sys, h: Holder, d: Db)
    requires In(s, h, Refused) && Payouts.FailPayout(s.db, h.payout, s.claims[h].row) == Ok(d)
    ensures Next(s, DoFail(h), Drop(s, h).(db := d))
  {
  }

  lemma FailAbortsNext(s: Sys, h: Holder)
    requires In(s, h, Refused)
    ensures Next(s, FailAborts(h), At(s, h, FallbackRead))
  {
  }

  lemma ReadNext(s: Sys, h: Holder, ok: bool)
    requires In(s, h, FallbackRead) && h.payout in s.db.payouts
    ensures Next(s, Fallback(h, ok),
                 if ok then s.(claims := s.claims[h := Claim(s.db.payouts[h.payout], FallbackRelease)])
                 else At(s, h, FallbackPayout))
  {
  }

  lemma ReleaseNext(s: Sys, h: Holder, row: Payout, d: Db, ok: bool) returns (released: set<Uuid>)
    requires In(s, h, FallbackRelease) && s.claims[h].row == row
    requires d == if ok then ReleaseFundsSafe(s.db, row.account, row.amount) else s.db
    ensures Next(s, Fallback(h, ok), At(s.(db := d, released := released), h, FallbackTx))
  {
    released := if ok && Releasable(s.db, row.account, row.amount) then s.released + {h.payout} else s.released;
  }

  lemma TxNext(s: Sys, h: Holder, row: Payout, d: Db, ok: bool)
    requires In(s, h, FallbackTx) && s.claims[h].row == row
    requires if ok then UpdateTransactionStatus(s.db, row.tx, Failed) == Ok(d) else d == s.db
    ensures Next(s, Fallback(h, ok), At(s.(db := d), h, if ok then FallbackAudit else FallbackPayout))
  {
  }

  lemma NoteNext(s: Sys, h: Holder, row: Payout, d: Db, ok: bool)
    requires In(s, h, FallbackAudit) && s.claims[h].row == row
    requires d == if ok then WriteAudit(s.db, Audit(row.tx, PayoutFailedFallback, None, Failed)) else s.db
    ensures Next(s, Fallback(h, ok), At(s.(db := d), h, FallbackPayout))
  {
  }

  lemma CloseNext(s: Sys, h: Holder, d: Db, ok: bool) returns (released: set<Uuid>)
    requires In(s, h, FallbackPayout)
    requires if ok then UpdatePayoutStatus(s.db, h.payout, Failed, None) == Ok(d) else d == s.db
    ensures Next(s, Fallback(h, ok), Drop(s.(db := d, released := released), h))
  {
    released := if ok then s.released - {h.payout} else s.released;
  }
}
