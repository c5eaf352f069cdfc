/**
 The payout protocol with any number of workers, requests and operators, one account at a time. It holds of
 an account under two hypotheses on the account's own payouts: stale recovery takes only payouts nobody is
 working on, and a failure fallback that has released funds runs to its end.
 */
module PayoutProtocol {
  import opened Results
  import opened Tables
  import opened Ledger
  import opened Payouts
  import opened Runs
  import opened Entries
  import opened Deltas
  import opened Schema
  import opened Steps
  import opened Held

  predicate AfterRelease(phase: Phase) {
    phase == FallbackTx || phase == FallbackAudit || phase == FallbackPayout
  }

  /** The hypotheses. "Single holder" is the first clause; the other two let the fallback finish
      (its audit row may still be lost). */
  predicate Tame(s: Sys, e: Event) {
    match e
    case DoRecover(pid) => forall h | h in s.claims :: h.payout != pid
    case Fallback(h, succeeds) => succeeds || In(s, h, FallbackAudit)
    case GiveUp(h) => h in s.claims ==> !AfterRelease(s.claims[h].phase)
    case _ => true
  }

  /** Payout and transaction statuses agree; a review pairs with PROCESSING, and while a fallback
      closes the rows the transaction may be FAILED first. */
  predicate Coupled(payout: Status, tx: Status, released: bool) {
    match payout
    case Pending => tx == Pending && !released
    case Processing => tx == Processing || (tx == Failed && released)
    case Completed => tx == Completed && !released
    case Failed => tx == Failed && !released
    case ManualReview => tx == Processing && !released
    case Reversed => false
  }

  /** Where a worker stands implies where its payout and transaction stand. */
  predicate Phased(phase: Phase, payout: Status, tx: Status, released: bool) {
    if phase == Marked then payout == ManualReview || payout == Completed || payout == Failed
    else
      && payout == Processing
      && (tx == Failed <==> phase == FallbackAudit || phase == FallbackPayout)
      && (released <==> AfterRelease(phase))
  }

  function SettledLegs(row: Payout): seq<Entry> {
    if row.status == Completed && SystemAccount(row.currency).Ok?
    then PairLegs(row.tx, row.account, SystemAccount(row.currency).value, row.amount)
    else []
  }

  predicate Live(s: Sys, h: Holder, p: Uuid) {
    h in s.claims && h.payout == p && s.claims[h].phase != Marked
  }

  /** Everything the protocol promises about one payout: coupled statuses, entries exactly when it
      is COMPLETED, at most one live holder, and a holder behind every half-closed row. */
  ghost predicate PayoutOk(s: Sys, p: Uuid)
    requires p in s.db.payouts && s.db.payouts[p].tx in s.db.txs
  {
    var row := s.db.payouts[p];
    var tx := s.db.txs[row.tx].status;
    && Coupled(row.status, tx, p in s.released)
    && Of(s.db.entries, row.tx) == SettledLegs(row)
    && (forall h | h in s.claims && h.payout == p :: Phased(s.claims[h].phase, row.status, tx, p in s.released))
    && (forall g, h | Live(s, g, p) && Live(s, h, p) :: g == h)
    && (p in s.released ==> exists h :: Live(s, h, p))
  }

  /** locked = sum of the open payouts, less what a running fallback has already released. */
  ghost predicate LockedOn(s: Sys, a: Uuid) {
    a in s.db.accounts ==> s.db.accounts[a].locked == HeldOn(s.db.payouts, s.released, a)
  }

  ghost predicate RowsOn(s: Sys, a: Uuid) {
    forall p | p in s.db.payouts && s.db.payouts[p].account == a :: s.db.payouts[p].tx in s.db.txs && PayoutOk(s, p)
  }

  /** The protocol as seen from one account: its lock and its payouts are in order. */
  ghost predicate AccountInv(s: Sys, a: Uuid) {
    Wellformed(s) && s.released <= s.db.payouts.Keys && LockedOn(s, a) && RowsOn(s, a)
  }

  ghost predicate RowsOk(s: Sys) {
    forall p | p in s.db.payouts :: s.db.payouts[p].tx in s.db.txs && PayoutOk(s, p)
  }

  ghost predicate ProtocolInv(s: Sys) {
    Wellformed(s) && s.released <= s.db.payouts.Keys && (forall a :: LockedOn(s, a)) && RowsOk(s)
  }

  lemma ProtocolOnAccount(s: Sys, a: Uuid)
    requires ProtocolInv(s)
    ensures AccountInv(s, a)
  {
  }

  lemma AccountsGiveProtocol(s: Sys)
    requires forall a :: AccountInv(s, a)
    ensures ProtocolInv(s)
  {
    assert AccountInv(s, 0);
    forall p | p in s.db.payouts ensures s.db.payouts[p].tx in s.db.txs && PayoutOk(s, p) {
      assert AccountInv(s, s.db.payouts[p].account);
    }
    forall a ensures LockedOn(s, a) {
      assert AccountInv(s, a);
    }
  }

  // ---- frames ----

  /** Nothing that PayoutOk looks at changed for payout p. */
  ghost predicate Untouched(s: Sys, s': Sys, p: Uuid)
    requires p in s.db.payouts && s.db.payouts[p].tx in s.db.txs
  {
    var t := s.db.payouts[p].tx;
    && p in s'.db.payouts && s'.db.payouts[p] == s.db.payouts[p]
    && t in s'.db.txs && s'.db.txs[t] == s.db.txs[t]
    && Of(s'.db.entries, t) == Of(s.db.entries, t)
    && (p in s'.released <==> p in s.released)
    && (forall h: Holder | h.payout == p :: h in s'.claims <==> h in s.claims)
    && (forall h | h in s.claims && h.payout == p :: s'.claims[h].phase == s.claims[h].phase)
  }

  lemma UntouchedOk(s: Sys, s': Sys, p: Uuid)
    requires p in s.db.payouts && s.db.payouts[p].tx in s.db.txs && PayoutOk(s, p) && Untouched(s, s', p)
    ensures PayoutOk(s', p)
  {
    forall g, h | Live(s', g, p) && Live(s', h, p) ensures g == h {
      assert Live(s, g, p) && Live(s, h, p);
    }
    if p in s.released {
      var h :| Live(s, h, p);
      assert Live(s', h, p);
    }
  }

  /** Holders and releases of other payouts stay as they are. */
  ghost predicate OthersHeld(s: Sys, s': Sys, q: Option<Uuid>) {
    && (forall p | q != Some(p) :: p in s'.released <==> p in s.released)
    && (forall h: Holder | q != Some(h.payout) :: h in s'.claims <==> h in s.claims)
    && (forall h | h in s.claims && q != Some(h.payout) :: s'.claims[h].phase == s.claims[h].phase)
  }

  lemma OthersUntouched(s: Sys, s': Sys, e: Event, x: Delta, p: Uuid)
    requires Wellformed(s) && Described(s, s', x) && Confined(s.db, x, e) && OthersHeld(s, s', Subject(e))
    requires p in s.db.payouts && Subject(e) != Some(p)
    ensures s.db.payouts[p].tx in s.db.txs && Untouched(s, s', p)
  {
    OtherTx(s, e, x, p);
    OtherRows(s, s', e, x, p);
  }

  lemma OtherTx(s: Sys, e: Event, x: Delta, p: Uuid)
    requires Wellformed(s) && Confined(s.db, x, e) && p in s.db.payouts && Subject(e) != Some(p)
    ensures s.db.payouts[p].tx in s.db.txs && (x.tx.Some? ==> x.tx.value.0 != s.db.payouts[p].tx)
  {
    assert RowOk(s.db, s.db.payouts[p]);
  }

  lemma OtherRows(s: Sys, s': Sys, e: Event, x: Delta, p: Uuid)
    requires Described(s, s', x) && OthersHeld(s, s', Subject(e))
    requires (x.payout.Some? ==> Subject(e) == Some(x.payout.value.0))
    requires p in s.db.payouts && Subject(e) != Some(p)
    requires s.db.payouts[p].tx in s.db.txs && (x.tx.Some? ==> x.tx.value.0 != s.db.payouts[p].tx)
    ensures Untouched(s, s', p)
  {
    OtherLegs(s.db, s'.db, x, s.db.payouts[p].tx);
  }

  lemma OtherLegs(d: Db, d': Db, x: Delta, t: Uuid)
    requires Changes(d, d', x) && SoundLegs(d, x) && (x.tx.Some? ==> x.tx.value.0 != t)
    ensures Of(d'.entries, t) == Of(d.entries, t)
  {
    OfAppend(d.entries, x.legs, t);
    OfOwn(x.legs, t);
  }

  /** The lock moves on the payout's account exactly as the contribution of the payout does. */
  lemma LockedStep(s: Sys, s': Sys, x: Delta, q: Uuid, row: Payout)
    requires LockedOn(s, row.account) && Changes(s.db, s'.db, x)
    requires s'.db.payouts == s.db.payouts[q := row]
    requires forall p | p != q :: p in s'.released <==> p in s.released
    requires (if row.account == x.lockAccount then x.lockBy else 0) ==
             Weight(q, row, s'.released, row.account) -
             (if q in s.db.payouts then Weight(q, s.db.payouts[q], s.released, row.account) else 0)
    ensures LockedOn(s', row.account)
  {
    HeldUpdate(s.db.payouts, s.released, s'.released, row.account, q, row);
  }

  lemma Others(s: Sys, e: Event, s': Sys)
    requires Next(s, e, s')
    ensures OthersHeld(s, s', Subject(e))
  {
    StepFramed(s, e, s');
  }

  // ---- the payout an event is about ----

  /** The part of the invariant one payout's event needs. */
  ghost predicate Here(s: Sys, q: Uuid) {
    && Seeded(s.db)
    && q in s.db.payouts && RowOk(s.db, s.db.payouts[q]) && PayoutOk(s, q) && LockedOn(s, s.db.payouts[q].account)
    && (forall h | h in s.claims && h.payout == q :: SameRow(s.claims[h].row, s.db.payouts[q]))
  }

  /** What an event must show about its own payout. */
  ghost predicate There(s: Sys, q: Uuid) {
    q in s.db.payouts && s.db.payouts[q].tx in s.db.txs && PayoutOk(s, q) && LockedOn(s, s.db.payouts[q].account)
  }

  /** While somebody works on a payout, nobody else does. */
  lemma SoleHolder(s: Sys, q: Uuid, h: Holder)
    requires Here(s, q) && Live(s, h, q)
    ensures forall g | g in s.claims && g.payout == q :: g == h
  {
    forall g | g in s.claims && g.payout == q ensures g == h {
      if s.claims[g].phase != Marked {
        assert Live(s, g, q);
      }
    }
  }

  lemma RequestOwn(s: Sys, pid: Uuid, tid: Uuid, req: PayoutRequest, s': Sys)
    requires LockedOn(s, req.account) && s.released <= s.db.payouts.Keys
    requires forall e | e in s.db.entries :: e.tx in s.db.txs
    requires forall h | h in s.claims :: h.payout in s.db.payouts
    requires Next(s, DoRequest(pid, tid, req), s')
    ensures There(s', pid)
  {
    RequestIs(s, pid, tid, req, s');
    ClaimsKept(s, DoRequest(pid, tid, req), s');
    var x := RequestDelta(pid, tid, req);
    RequestChanges(s.db, pid, tid, req);
    LockedStep(s, s', x, pid, x.payout.value.1);
    RequestedRow(s, s', pid, tid, req);
  }

  lemma RequestedRow(s: Sys, s': Sys, pid: Uuid, tid: Uuid, req: PayoutRequest)
    requires Changes(s.db, s'.db, RequestDelta(pid, tid, req)) && pid !in s.db.payouts && tid !in s.db.txs
    requires forall e | e in s.db.entries :: e.tx in s.db.txs
    requires s'.claims == s.claims && forall h | h in s.claims :: h.payout in s.db.payouts
    requires s'.released == s.released && s.released <= s.db.payouts.Keys
    ensures s'.db.payouts[pid].tx in s'.db.txs && PayoutOk(s', pid)
  {
    OfOwn(s.db.entries, tid);
    assert s'.db.entries == s.db.entries;
    assert forall h | h in s'.claims :: h.payout != pid;
  }

  /** Moving both rows between PENDING and PROCESSING, with the claims that go with it. */
  lemma MovedOwn(s: Sys, s': Sys, q: Uuid, status: Status, action: Action)
    requires Here(s, q) && Open(s.db.payouts[q].status) && q !in s.released && s'.released == s.released
    requires Changes(s.db, s'.db, StatusDelta(s.db, q, status, None, s.db.payouts[q].tx, status, action))
    requires status == Pending || status == Processing
    requires forall h | h in s'.claims && h.payout == q :: status == Processing && s'.claims[h].phase == Claimed
    requires forall g, h | g in s'.claims && h in s'.claims && g.payout == q && h.payout == q :: g == h
    ensures There(s', q)
  {
    var x := StatusDelta(s.db, q, status, None, s.db.payouts[q].tx, status, action);
    LockedStep(s, s', x, q, x.payout.value.1);
    MovedRow(s, s', q, status);
  }

  /** Both rows stand at the same open status, and whoever holds the payout has just claimed it. */
  lemma MovedRow(s: Sys, s': Sys, q: Uuid, status: Status)
    requires q in s.db.payouts && s.db.payouts[q].tx in s.db.txs && PayoutOk(s, q) && Open(s.db.payouts[q].status)
    requires status == Pending || status == Processing
    requires q in s'.db.payouts && s'.db.payouts[q].status == status && SameRow(s'.db.payouts[q], s.db.payouts[q])
    requires s.db.payouts[q].tx in s'.db.txs && s'.db.txs[s.db.payouts[q].tx].status == status
    requires s'.db.entries == s.db.entries && q !in s'.released
    requires forall h | h in s'.claims && h.payout == q :: status == Processing && s'.claims[h].phase == Claimed
    requires forall g, h | g in s'.claims && h in s'.claims && g.payout == q && h.payout == q :: g == h
    ensures PayoutOk(s', q)
  {
  }

  lemma ClaimOwn(s: Sys, h: Holder, s': Sys)
    requires Here(s, h.payout) && Next(s, DoClaim(h), s')
    ensures There(s', h.payout)
  {
    ClaimIs(s, h, s');
    ReleasedKept(s, DoClaim(h), s');
    MoveRowChanges(s.db, h.payout, s.db.payouts[h.payout], Processing, ProcessingStarted);
    assert forall g | g in s.claims :: g.payout != h.payout;
    MovedOwn(s, s', h.payout, Processing, ProcessingStarted);
  }

  lemma RequeueOwn(s: Sys, h: Holder, s': Sys)
    requires Here(s, h.payout) && Next(s, DoRequeue(h), s')
    ensures There(s', h.payout)
  {
    RequeueChanged(s, h, s');
    DroppedSole(s, s', h);
    MovedOwn(s, s', h.payout, Pending, RequeueClaimed);
  }

  /** Dropping a live claim leaves its payout unheld; the payout was PROCESSING and, before a release, not
      released. */
  lemma DroppedSole(s: Sys, s': Sys, h: Holder)
    requires Here(s, h.payout) && Live(s, h, h.payout) && s'.claims == s.claims - {h}
    ensures forall g | g in s'.claims :: g.payout != h.payout
    ensures s.db.payouts[h.payout].status == Processing
    ensures !AfterRelease(s.claims[h].phase) ==> h.payout !in s.released
  {
    SoleHolder(s, h.payout, h);
  }

  lemma RequeueChanged(s: Sys, h: Holder, s': Sys)
    requires Next(s, DoRequeue(h), s')
    requires h.payout in s.db.payouts && (h in s.claims ==> s.claims[h].row.tx == s.db.payouts[h.payout].tx)
    ensures Unheard(s, h) && s'.claims == s.claims - {h} && s'.released == s.released
    ensures s.db.payouts[h.payout].tx in s.db.txs
    ensures Changes(s.db, s'.db,
                    StatusDelta(s.db, h.payout, Pending, None, s.db.payouts[h.payout].tx, Pending, RequeueClaimed))
  {
    RequeueIs(s, h, s');
    ReleasedKept(s, DoRequeue(h), s');
    MoveRowChanges(s.db, h.payout, s.claims[h].row, Pending, RequeueClaimed);
  }

  lemma RecoverOwn(s: Sys, q: Uuid, s': Sys)
    requires Here(s, q) && Next(s, DoRecover(q), s') && Tame(s, DoRecover(q))
    ensures There(s', q)
  {
    RecoverIs(s, q, s');
    ClaimsKept(s, DoRecover(q), s');
    MoveRowChanges(s.db, q, s.db.payouts[q], Pending, RequeueStale);
    assert q !in s.released;
    MovedOwn(s, s', q, Pending, RequeueStale);
  }

  /** Both rows closed with the same final status: the payout is as the protocol wants it, provided
      the entries are. */
  lemma ClosedOk(s: Sys, q: Uuid)
    requires q in s.db.payouts && s.db.payouts[q].tx in s.db.txs && q !in s.released
    requires s.db.payouts[q].status == Completed || s.db.payouts[q].status == Failed
    requires s.db.txs[s.db.payouts[q].tx].status == s.db.payouts[q].status
    requires Of(s.db.entries, s.db.payouts[q].tx) == SettledLegs(s.db.payouts[q])
    requires forall h | h in s.claims && h.payout == q :: s.claims[h].phase == Marked
    ensures PayoutOk(s, q)
  {
  }

  lemma SettledEntries(d: Db, d': Db, x: Delta, t: Uuid)
    requires d'.entries == d.entries + x.legs && Of(d.entries, t) == [] && forall e | e in x.legs :: e.tx == t
    ensures Of(d'.entries, t) == x.legs
  {
    OfAppend(d.entries, x.legs, t);
    OfOwn(x.legs, t);
  }

  /** Settling, by a worker or by an operator, posts the pair exactly once. */
  lemma SettleOwn(s: Sys, s': Sys, q: Uuid, row: Payout, action: Action, ref: Option<string>)
    requires Here(s, q) && SameRow(row, s.db.payouts[q]) && SystemAccount(row.currency).Ok?
    requires Changes(s.db, s'.db, SettleDelta(s.db, q, row, action, ref, SystemAccount(row.currency).value))
    requires Open(s.db.payouts[q].status) && q !in s.released && s'.released == s.released
    requires forall h | h in s'.claims && h.payout == q :: s'.claims[h].phase == Marked
    ensures There(s', q)
  {
    var x := SettleDelta(s.db, q, row, action, ref, SystemAccount(row.currency).value);
    LockedStep(s, s', x, q, x.payout.value.1);
    SettledEntries(s.db, s'.db, x, row.tx);
    ClosedOk(s', q);
  }

  /** Releasing the funds and failing the payout, by a worker or by an operator. */
  lemma ReleaseOwn(s: Sys, s': Sys, q: Uuid, row: Payout, ref: Option<string>, action: Action)
    requires Here(s, q) && SameRow(row, s.db.payouts[q])
    requires Changes(s.db, s'.db, ReleaseDelta(s.db, q, row, ref, action, true))
    requires Open(s.db.payouts[q].status) && q !in s.released && s'.released == s.released
    requires forall h | h in s'.claims && h.payout == q :: s'.claims[h].phase == Marked
    ensures There(s', q)
  {
    var x := ReleaseDelta(s.db, q, row, ref, action, true);
    LockedStep(s, s', x, q, x.payout.value.1);
    RefusedRow(s, s', q, row, ref, action);
  }

  lemma RefusedRow(s: Sys, s': Sys, q: Uuid, row: Payout, ref: Option<string>, action: Action)
    requires q in s.db.payouts && s.db.payouts[q].tx in s.db.txs && PayoutOk(s, q) && SameRow(row, s.db.payouts[q])
    requires Changes(s.db, s'.db, ReleaseDelta(s.db, q, row, ref, action, true))
    requires Open(s.db.payouts[q].status) && q !in s'.released
    requires forall h | h in s'.claims && h.payout == q :: s'.claims[h].phase == Marked
    ensures q in s'.db.payouts && s'.db.payouts[q].tx in s'.db.txs && PayoutOk(s', q)
  {
    assert s'.db.entries == s.db.entries + [] == s.db.entries;
    ClosedOk(s', q);
  }

  /** Locked funds always cover an open payout, so the guarded release fires and no CHECK does. */
  lemma LockCovers(s: Sys, q: Uuid)
    requires q in s.db.payouts && Open(s.db.payouts[q].status) && q !in s.released
    requires LockedOn(s, s.db.payouts[q].account) && s.db.payouts[q].account in s.db.accounts
    requires forall p | p in s.db.payouts :: s.db.payouts[p].amount > 0
    ensures Releasable(s.db, s.db.payouts[q].account, s.db.payouts[q].amount)
  {
    HeldCovers(s.db.payouts, s.released, q);
  }

  lemma SettleStepOwn(s: Sys, h: Holder, s': Sys)
    requires Here(s, h.payout) && Next(s, DoSettle(h), s')
    ensures There(s', h.payout)
  {
    SettleChanged(s, h, s');
    DroppedSole(s, s', h);
    SettleOwn(s, s', h.payout, s.claims[h].row, PayoutCompleted, Some(s.claims[h].phase.gatewayRef));
  }

  lemma SettleChanged(s: Sys, h: Holder, s': Sys)
    requires Next(s, DoSettle(h), s')
    requires h.payout in s.db.payouts && (h in s.claims ==> s.claims[h].row.tx == s.db.payouts[h.payout].tx)
    ensures h in s.claims && s.claims[h].phase.Sent? && s'.claims == s.claims - {h} && s'.released == s.released
    ensures var row := s.claims[h].row;
            && SystemAccount(row.currency).Ok? && row.tx in s.db.txs
            && Changes(s.db, s'.db, SettleDelta(s.db, h.payout, row, PayoutCompleted,
                                                Some(s.claims[h].phase.gatewayRef), SystemAccount(row.currency).value))
  {
    SettleIs(s, h, s');
    ReleasedKept(s, DoSettle(h), s');
    SettleChanges(s.db, h.payout, s.claims[h].row, PayoutCompleted, Some(s.claims[h].phase.gatewayRef));
  }

  lemma ConfirmOwn(s: Sys, q: Uuid, replacementRef: Option<string>, s': Sys)
    requires Here(s, q) && Next(s, DoConfirm(q, replacementRef), s')
    ensures There(s', q)
  {
    var ref := ConfirmIs(s, q, replacementRef, s');
    ClaimsKept(s, DoConfirm(q, replacementRef), s');
    SettleChanges(s.db, q, s.db.payouts[q], ReviewConfirmed, ref);
    SettleOwn(s, s', q, s.db.payouts[q], ReviewConfirmed, ref);
  }

  lemma FailOwn(s: Sys, h: Holder, s': Sys)
    requires Here(s, h.payout) && Next(s, DoFail(h), s')
    ensures There(s', h.payout)
  {
    FailChanged(s, h, s');
    DroppedSole(s, s', h);
    ReleaseOwn(s, s', h.payout, s.claims[h].row, None, PayoutFailed);
  }

  lemma FailChanged(s: Sys, h: Holder, s': Sys)
    requires Next(s, DoFail(h), s')
    requires h.payout in s.db.payouts && (h in s.claims ==> s.claims[h].row.tx == s.db.payouts[h.payout].tx)
    ensures In(s, h, Refused) && s'.claims == s.claims - {h} && s'.released == s.released
    ensures s.claims[h].row.tx in s.db.txs
    ensures Changes(s.db, s'.db, ReleaseDelta(s.db, h.payout, s.claims[h].row, None, PayoutFailed, true))
  {
    FailIs(s, h, s');
    ReleasedKept(s, DoFail(h), s');
    FailChanges(s.db, h.payout, s.claims[h].row);
  }

  lemma RefundOwn(s: Sys, q: Uuid, s': Sys)
    requires Here(s, q) && Next(s, DoRefund(q), s') && forall p | p in s.db.payouts :: s.db.payouts[p].amount > 0
    ensures There(s', q)
  {
    RefundIs(s, q, s');
    ClaimsKept(s, DoRefund(q), s');
    RefundChanges(s.db, q);
    LockCovers(s, q);
    ReleaseOwn(s, s', q, s.db.payouts[q], s.db.payouts[q].gatewayRef, ReviewRefunded);
  }

  lemma MarkOwn(s: Sys, h: Holder, s': Sys)
    requires Here(s, h.payout) && Next(s, MarkReview(h), s')
    ensures There(s', h.payout)
  {
    MarkIs(s, h, s');
    ReleasedKept(s, MarkReview(h), s');
    var q := h.payout;
    assert Live(s, h, q);
    SoleHolder(s, q, h);
    var row := s'.db.payouts[q];
    PayoutOnly(s.db, q, row);
    LockedStep(s, s', NOTHING.(payout := Some((q, row))), q, row);
    MarkedRow(s, s', h);
  }

  lemma MarkedRow(s: Sys, s': Sys, h: Holder)
    requires h.payout in s.db.payouts && s.db.payouts[h.payout].tx in s.db.txs && PayoutOk(s, h.payout)
    requires Live(s, h, h.payout) && s.claims[h].phase.Unsettled?
    requires h.payout in s'.db.payouts && SameRow(s'.db.payouts[h.payout], s.db.payouts[h.payout])
    requires s'.db.payouts[h.payout].status == ManualReview && s'.db.txs == s.db.txs && s'.db.entries == s.db.entries
    requires s'.released == s.released
    requires forall g | g in s'.claims && g.payout == h.payout :: s'.claims[g].phase == Marked
    ensures PayoutOk(s', h.payout)
  {
  }

  /** Nothing that the protocol looks at changed but one claim, which went, or moved on between two points
      before any release. */
  ghost predicate ClaimOnly(s: Sys, s': Sys, h: Holder) {
    && h in s.claims && s'.released == s.released
    && s'.db.payouts == s.db.payouts && s'.db.entries == s.db.entries
    && s'.db.txs == s.db.txs && s'.db.accounts == s.db.accounts
    && (|| s'.claims == s.claims - {h}
        || (&& h in s'.claims && s'.claims == s.claims[h := s'.claims[h]]
            && s.claims[h].phase != Marked && s'.claims[h].phase != Marked
            && !AfterRelease(s.claims[h].phase) && !AfterRelease(s'.claims[h].phase)))
  }

  lemma LocalShape(s: Sys, e: Event, s': Sys)
    requires IsLocal(e) && Next(s, e, s')
    ensures ClaimOnly(s, s', e.h)
  {
    LocalIs(s, e, s');
    StepFramed(s, e, s');
  }

  lemma NoteShape(s: Sys, h: Holder, s': Sys)
    requires Next(s, AuditReview(h), s')
    ensures ClaimOnly(s, s', h) && In(s, h, Marked)
  {
    NoteIs(s, h, s');
    ReleasedKept(s, AuditReview(h), s');
  }

  lemma LocalOwn(s: Sys, s': Sys, h: Holder)
    requires Here(s, h.payout) && ClaimOnly(s, s', h) && (h !in s'.claims ==> !AfterRelease(s.claims[h].phase))
    ensures There(s', h.payout)
  {
    var q := h.payout;
    if Live(s, h, q) {
      SoleHolder(s, q, h);
    }
    forall g, k | Live(s', g, q) && Live(s', k, q) ensures g == k {
      assert Live(s, g, q) && Live(s, k, q);
    }
  }

  lemma FallbackReleaseOwn(s: Sys, h: Holder, s': Sys)
    requires Here(s, h.payout) && In(s, h, FallbackRelease) && FallbackStep(s, h, true) == Some(s')
    requires forall p | p in s.db.payouts :: s.db.payouts[p].amount > 0
    ensures There(s', h.payout)
  {
    var row := s.claims[h].row;
    assert Live(s, h, h.payout);
    SoleHolder(s, h.payout, h);
    LockCovers(s, h.payout);
    ReleaseWrites(s, h, s');
    ReleasedOwn(s, s', h, row);
  }

  lemma ReleaseWrites(s: Sys, h: Holder, s': Sys)
    requires In(s, h, FallbackRelease) && FallbackStep(s, h, true) == Some(s')
    requires Releasable(s.db, s.claims[h].row.account, s.claims[h].row.amount)
    ensures var row := s.claims[h].row;
            && Changes(s.db, s'.db, NOTHING.(lockAccount := row.account, lockBy := -row.amount))
            && s'.released == s.released + {h.payout} && s'.claims == s.claims[h := Claim(row, FallbackTx)]
  {
    ReleaseOnly(s.db, s.claims[h].row.account, s.claims[h].row.amount);
  }

  lemma ReleasedOwn(s: Sys, s': Sys, h: Holder, row: Payout)
    requires Here(s, h.payout) && In(s, h, FallbackRelease) && row == s.claims[h].row
    requires forall g | g in s.claims && g.payout == h.payout :: g == h
    requires Changes(s.db, s'.db, NOTHING.(lockAccount := row.account, lockBy := -row.amount))
    requires s'.released == s.released + {h.payout} && s'.claims == s.claims[h := Claim(row, FallbackTx)]
    ensures There(s', h.payout)
  {
    var q := h.payout;
    assert s'.db.payouts == s.db.payouts[q := s.db.payouts[q]];
    LockedStep(s, s', NOTHING.(lockAccount := row.account, lockBy := -row.amount), q, s.db.payouts[q]);
    ReleasedRow(s, s', h);
  }

  lemma ReleasedRow(s: Sys, s': Sys, h: Holder)
    requires h.payout in s.db.payouts && s.db.payouts[h.payout].tx in s.db.txs && PayoutOk(s, h.payout)
    requires In(s, h, FallbackRelease) && s'.db.payouts == s.db.payouts && s'.db.txs == s.db.txs
    requires s'.db.entries == s.db.entries && h.payout in s'.released
    requires In(s', h, FallbackTx) && forall g | g in s'.claims && g.payout == h.payout :: g == h
    ensures PayoutOk(s', h.payout)
  {
    assert Live(s', h, h.payout);
  }

  lemma FallbackPayoutOwn(s: Sys, h: Holder, s': Sys)
    requires Here(s, h.payout) && In(s, h, FallbackPayout) && FallbackStep(s, h, true) == Some(s')
    ensures There(s', h.payout)
  {
    var q := h.payout;
    assert Live(s, h, q);
    SoleHolder(s, q, h);
    var closed := s'.db.payouts[q];
    PayoutOnly(s.db, q, closed);
    LockedStep(s, s', NOTHING.(payout := Some((q, closed))), q, closed);
    ClosedOk(s', q);
  }

  /** The read, transaction and audit writes of a fallback touch at most the transaction's status. */
  ghost predicate MiddleOnly(s: Sys, s': Sys, h: Holder, succeeds: bool) {
    && h in s.claims && s'.released == s.released
    && s'.db.payouts == s.db.payouts && s'.db.accounts == s.db.accounts && s'.db.entries == s.db.entries
    && h in s'.claims && s'.claims == s.claims[h := s'.claims[h]]
    && match s.claims[h].phase
       case FallbackRead => s'.db.txs == s.db.txs && (succeeds ==> s'.claims[h].phase == FallbackRelease)
       case FallbackTx =>
         succeeds ==>
           && s'.claims[h].phase == FallbackAudit && s.claims[h].row.tx in s.db.txs
           && s'.db.txs == s.db.txs[s.claims[h].row.tx := s.db.txs[s.claims[h].row.tx].(status := Failed)]
       case FallbackAudit => s'.db.txs == s.db.txs && s'.claims[h].phase == FallbackPayout
       case _ => false
  }

  lemma FallbackMiddle(s: Sys, h: Holder, succeeds: bool, s': Sys)
    requires HolderOk(s, h) && h in s.claims && FallbackStep(s, h, succeeds) == Some(s')
    requires s.claims[h].phase != FallbackRelease && s.claims[h].phase != FallbackPayout
    ensures MiddleOnly(s, s', h, succeeds)
  {
  }

  lemma FallbackMiddleOwn(s: Sys, s': Sys, h: Holder, succeeds: bool)
    requires Here(s, h.payout) && MiddleOnly(s, s', h, succeeds) && (succeeds || In(s, h, FallbackAudit))
    ensures There(s', h.payout)
  {
    var q := h.payout;
    assert Live(s, h, q);
    SoleHolder(s, q, h);
    assert Live(s', h, q);
    assert forall g | g in s'.claims && g.payout == q :: g == h;
    assert s'.db.entries == s.db.entries;
  }

  // ---- the invariant over runs ----

  lemma FallbackOwn(s: Sys, h: Holder, succeeds: bool, s': Sys)
    requires Here(s, h.payout) && Tame(s, Fallback(h, succeeds)) && Next(s, Fallback(h, succeeds), s')
    requires forall p | p in s.db.payouts :: s.db.payouts[p].amount > 0
    ensures There(s', h.payout)
  {
    FallbackIs(s, h, succeeds, s');
    if In(s, h, FallbackRelease) {
      FallbackReleaseOwn(s, h, s');
    } else if In(s, h, FallbackPayout) {
      FallbackPayoutOwn(s, h, s');
    } else {
      FallbackMiddle(s, h, succeeds, s');
      FallbackMiddleOwn(s, s', h, succeeds);
    }
  }

  lemma WorkerOwn(s: Sys, e: Event, s': Sys)
    requires IsWorker(e) && Here(s, e.h.payout) && Next(s, e, s')
    ensures There(s', e.h.payout)
  {
    match e
    case DoClaim(h) => ClaimOwn(s, h, s');
    case DoRequeue(h) => RequeueOwn(s, h, s');
    case DoSettle(h) => SettleStepOwn(s, h, s');
    case MarkReview(h) => MarkOwn(s, h, s');
    case DoFail(h) => FailOwn(s, h, s');
    case AuditReview(h) => NoteOwn(s, h, s');
  }

  lemma NoteOwn(s: Sys, h: Holder, s': Sys)
    requires Here(s, h.payout) && Next(s, AuditReview(h), s')
    ensures There(s', h.payout)
  {
    NoteShape(s, h, s');
    LocalOwn(s, s', h);
  }

  lemma PrivateOwn(s: Sys, e: Event, s': Sys)
    requires IsLocal(e) && Here(s, e.h.payout) && Tame(s, e) && Next(s, e, s')
    ensures There(s', e.h.payout)
  {
    LocalShape(s, e, s');
    LocalIs(s, e, s');
    LocalOwn(s, s', e.h);
  }

  lemma HereFromAccount(s: Sys, q: Uuid)
    requires q in s.db.payouts && AccountInv(s, s.db.payouts[q].account)
    ensures Here(s, q) && forall p | p in s.db.payouts :: s.db.payouts[p].amount > 0
  {
    forall p | p in s.db.payouts ensures s.db.payouts[p].amount > 0 {
      assert RowOk(s.db, s.db.payouts[p]);
    }
  }

  lemma HereFromClaim(s: Sys, h: Holder)
    requires h in s.claims && AccountInv(s, s.claims[h].row.account)
    ensures Here(s, h.payout) && forall p | p in s.db.payouts :: s.db.payouts[p].amount > 0
  {
    HereFromAccount(s, h.payout);
  }

  lemma HereFromInv(s: Sys, q: Uuid)
    requires ProtocolInv(s) && q in s.db.payouts
    ensures Here(s, q) && forall p | p in s.db.payouts :: s.db.payouts[p].amount > 0
  {
    ProtocolOnAccount(s, s.db.payouts[q].account);
    HereFromAccount(s, q);
  }

  lemma SubjectExists(s: Sys, e: Event, s': Sys, q: Uuid)
    requires ClaimsOk(s) && Next(s, e, s') && Subject(e) == Some(q) && !e.DoRequest?
    ensures q in s.db.payouts
  {
    StepShaped(s, e, s');
  }

  lemma OperatorOwn(s: Sys, e: Event, s': Sys)
    requires IsOperator(e) && Here(s, e.pid) && Tame(s, e) && Next(s, e, s')
    requires forall p | p in s.db.payouts :: s.db.payouts[p].amount > 0
    ensures There(s', e.pid)
  {
    match e
    case DoRecover(q) => RecoverOwn(s, q, s');
    case DoConfirm(q, replacementRef) => ConfirmOwn(s, q, replacementRef, s');
    case DoRefund(q) => RefundOwn(s, q, s');
  }

  /** An existing payout keeps its account, and ends up as the protocol wants it. */
  lemma OwnStep(s: Sys, e: Event, s': Sys, q: Uuid)
    requires q in s.db.payouts && AccountInv(s, s.db.payouts[q].account) && Tame(s, e) && Next(s, e, s')
    requires Subject(e) == Some(q)
    ensures There(s', q) && s'.db.payouts[q].account == s.db.payouts[q].account
  {
    StepGuarded(s, e, s', q);
    HereFromAccount(s, q);
    AccountStays(s, e, s', q);
    OwnFrom(s, e, s');
  }

  lemma AccountStays(s: Sys, e: Event, s': Sys, q: Uuid)
    requires q in s.db.payouts && Next(s, e, s') && Subject(e) == Some(q) && !e.DoRequest?
    ensures q in s'.db.payouts && s'.db.payouts == s.db.payouts[q := s'.db.payouts[q]]
    ensures s'.db.payouts[q].account == s.db.payouts[q].account
  {
    StepShaped(s, e, s');
  }

  lemma OwnFrom(s: Sys, e: Event, s': Sys)
    requires Subject(e).Some? && !e.DoRequest? && Here(s, Subject(e).value) && Tame(s, e) && Next(s, e, s')
    requires forall p | p in s.db.payouts :: s.db.payouts[p].amount > 0
    ensures There(s', Subject(e).value)
  {
    if Own(e).Some? {
      HolderOwn(s, e, s');
    } else {
      OperatorOwn(s, e, s');
    }
  }

  lemma HolderOwn(s: Sys, e: Event, s': Sys)
    requires Own(e).Some? && Here(s, e.h.payout) && Tame(s, e) && Next(s, e, s')
    requires forall p | p in s.db.payouts :: s.db.payouts[p].amount > 0
    ensures There(s', e.h.payout)
  {
    if IsLocal(e) {
      PrivateOwn(s, e, s');
    } else if e.Fallback? {
      FallbackOwn(s, e.h, e.succeeds, s');
    } else {
      WorkerOwn(s, e, s');
    }
  }

  // ---- locks of other accounts ----

  /** The lock on an account is as it was. */
  predicate LockKept(d: Db, d': Db, a: Uuid) {
    (a in d'.accounts <==> a in d.accounts) && (a in d.accounts ==> d'.accounts[a].locked == d.accounts[a].locked)
  }

  lemma MoveKeepsLock(s: Sys, e: Event, s': Sys, a: Uuid)
    requires Next(s, e, s') && (e.DoClaim? || e.DoRequeue? || e.DoRecover?)
    ensures LockKept(s.db, s'.db, a)
  {
    match e
    case DoClaim(h) => ClaimIs(s, h, s');
    case DoRequeue(h) => RequeueIs(s, h, s');
    case DoRecover(p) => RecoverIs(s, p, s');
  }

  lemma SettleKeepsLock(db: Db, q: Uuid, row: Payout, action: Action, ref: Option<string>, a: Uuid)
    requires Settle(db, q, row, action, ref).Ok? && row.account != a
    ensures LockKept(db, Settle(db, q, row, action, ref).value, a)
  {
    SettleChanges(db, q, row, action, ref);
  }

  lemma SettlingKeepsLock(s: Sys, e: Event, s': Sys, a: Uuid)
    requires Next(s, e, s') && (e.DoSettle? || e.DoConfirm?) && ClaimsOk(s)
    requires Subject(e).value in s.db.payouts && s.db.payouts[Subject(e).value].account != a
    ensures LockKept(s.db, s'.db, a)
  {
    match e
    case DoSettle(h) =>
      SettleIs(s, h, s');
      SettleKeepsLock(s.db, h.payout, s.claims[h].row, PayoutCompleted, Some(s.claims[h].phase.gatewayRef), a);
    case DoConfirm(q, replacementRef) =>
      var ref := ConfirmIs(s, q, replacementRef, s');
      SettleKeepsLock(s.db, q, s.db.payouts[q], ReviewConfirmed, ref, a);
  }

  lemma FailKeepsLock(db: Db, q: Uuid, row: Payout, a: Uuid)
    requires FailPayout(db, q, row).Ok? && q in db.payouts && db.payouts[q].tx == row.tx && row.account != a
    ensures LockKept(db, FailPayout(db, q, row).value, a)
  {
    FailChanges(db, q, row);
  }

  lemma RefundKeepsLock(db: Db, q: Uuid, a: Uuid)
    requires RefundReview(db, q).Ok? && q in db.payouts && db.payouts[q].account != a
    ensures LockKept(db, RefundReview(db, q).value, a)
  {
    RefundChanges(db, q);
  }

  lemma FailingKeepsLock(s: Sys, e: Event, s': Sys, a: Uuid)
    requires Next(s, e, s') && (e.DoFail? || e.DoRefund?) && ClaimsOk(s)
    requires Subject(e).value in s.db.payouts && s.db.payouts[Subject(e).value].account != a
    ensures LockKept(s.db, s'.db, a)
  {
    match e
    case DoFail(h) =>
      FailIs(s, h, s');
      FailKeepsLock(s.db, h.payout, s.claims[h].row, a);
    case DoRefund(q) =>
      RefundIs(s, q, s');
      RefundKeepsLock(s.db, q, a);
  }

  lemma ReviewKeepsLock(s: Sys, e: Event, s': Sys, a: Uuid)
    requires Next(s, e, s') && (e.MarkReview? || e.AuditReview?)
    ensures LockKept(s.db, s'.db, a)
  {
    match e
    case MarkReview(h) => MarkIs(s, h, s');
    case AuditReview(h) => NoteIs(s, h, s');
  }

  lemma FallbackKeepsLock(s: Sys, h: Holder, succeeds: bool, s': Sys, a: Uuid)
    requires h in s.claims && FallbackStep(s, h, succeeds) == Some(s') && s.claims[h].row.account != a
    ensures LockKept(s.db, s'.db, a)
  {
  }

  /** An event about a payout touches only the lock of the payout's account. */
  lemma OwnLockOnly(s: Sys, e: Event, s': Sys, q: Uuid, a: Uuid)
    requires ClaimsOk(s) && Next(s, e, s') && Subject(e) == Some(q) && !e.DoRequest?
    requires q in s.db.payouts && s.db.payouts[q].account != a
    ensures LockKept(s.db, s'.db, a)
  {
    if IsLocal(e) {
      StepFramed(s, e, s');
    } else if e.Fallback? {
      FallbackIs(s, e.h, e.succeeds, s');
      FallbackKeepsLock(s, e.h, e.succeeds, s', a);
    } else if e.DoSettle? || e.DoConfirm? {
      SettlingKeepsLock(s, e, s', a);
    } else if e.DoFail? || e.DoRefund? {
      FailingKeepsLock(s, e, s', a);
    } else if e.MarkReview? || e.AuditReview? {
      ReviewKeepsLock(s, e, s', a);
    } else {
      MoveKeepsLock(s, e, s', a);
    }
  }

  /** The sum of an account does not see a payout of another. */
  lemma HeldElsewhere(s: Sys, s': Sys, q: Uuid, row: Payout, a: Uuid)
    requires LockedOn(s, a) && LockKept(s.db, s'.db, a) && row.account != a
    requires s'.db.payouts == s.db.payouts[q := row] && (q in s.db.payouts ==> s.db.payouts[q].account != a)
    requires forall p | p != q :: p in s'.released <==> p in s.released
    ensures LockedOn(s', a)
  {
    HeldUpdate(s.db.payouts, s.released, s'.released, a, q, row);
  }

  lemma OwnElsewhere(s: Sys, e: Event, s': Sys, q: Uuid, a: Uuid)
    requires ClaimsOk(s) && LockedOn(s, a) && Next(s, e, s') && Subject(e) == Some(q)
    requires q in s.db.payouts && s.db.payouts[q].account != a
    ensures LockedOn(s', a)
  {
    StepGuarded(s, e, s', q);
    AccountStays(s, e, s', q);
    OwnLockOnly(s, e, s', q, a);
    Others(s, e, s');
    HeldElsewhere(s, s', q, s'.db.payouts[q], a);
  }

  lemma RequestElsewhere(s: Sys, e: Event, s': Sys, a: Uuid)
    requires LockedOn(s, a) && e.DoRequest? && Next(s, e, s') && e.req.account != a
    ensures LockedOn(s', a)
  {
    RequestIs(s, e.pid, e.tid, e.req, s');
    RequestChanges(s.db, e.pid, e.tid, e.req);
    ClaimsKept(s, e, s');
    HeldElsewhere(s, s', e.pid, s'.db.payouts[e.pid], a);
  }

  /** Transfers, exchanges, deposits and new accounts leave locks and payouts alone. */
  lemma LocksUntouched(s: Sys, e: Event, s': Sys, a: Uuid)
    requires Wellformed(s) && LockedOn(s, a) && Next(s, e, s') && Subject(e).None?
    ensures LockedOn(s', a)
  {
    ClaimsKept(s, e, s');
    if e.OpenAccount? {
      OpenIs(s, e.id, e.currency, e.balance, s');
      NothingHeld(s.db.payouts, s.released, e.id, s.db);
    } else {
      var x := UnlockedDelta(s, e, s');
    }
  }

  lemma UnlockedDelta(s: Sys, e: Event, s': Sys) returns (x: Delta)
    requires Wellformed(s) && IsLedger(e) && Next(s, e, s') && Subject(e).None?
    ensures Changes(s.db, s'.db, x) && x.payout.None? && x.lockBy == 0
  {
    match e
    case DoTransfer(tid, from, to, amount, reference) =>
      TransferIs(s, tid, from, to, amount, reference, s');
      TransferSound(s.db, tid, from, to, amount, reference);
      x := TransferDelta(s.db, tid, from, to, amount, reference);
    case DoExchange(tid, cmd, target) => x := UnlockedExchange(s, tid, cmd, target, s');
    case CommitDeposit(request) =>
      CommitIs(s, request, s');
      var task := s.deposits[request];
      DepositSound(s.db, task);
      x := DepositDelta(s.db, task.tid, task.retry, task.dep, SystemAccount(task.dep.currency).value);
    case CheckDeposit(request, dep, tid) =>
      CheckIs(s, request, dep, tid, s');
      NothingChanges(s.db);
      x := NOTHING;
  }

  lemma UnlockedExchange(s: Sys, tid: Uuid, cmd: ExchangeCmd, target: int, s': Sys) returns (x: Delta)
    requires Seeded(s.db) && Next(s, DoExchange(tid, cmd, target), s')
    ensures Changes(s.db, s'.db, x) && x.payout.None? && x.lockBy == 0
  {
    ExchangeIs(s, tid, cmd, target, s');
    ExchangeSound(s.db, tid, cmd, target);
    var (liqSource, liqTarget) := CheckExchange(s.db, cmd).value;
    x := ExchangeDelta(tid, cmd, target, liqSource, liqTarget);
  }

  lemma {:induction false} NothingHeld(ps: map<Uuid, Payout>, released: set<Uuid>, a: Uuid, db: Db)
    requires a !in db.accounts && forall p | p in ps :: RowOk(db, ps[p])
    ensures HeldOn(ps, released, a) == 0
    decreases |ps|
  {
    if ps != map[] {
      var p :| p in ps;
      HeldSplit(ps, released, a, p);
      NothingHeld(ps - {p}, released, a, db);
    }
  }

  /** A payout is never removed, and changes only by an event about it. */
  lemma RowsStay(s: Sys, e: Event, s': Sys, p: Uuid)
    requires Wellformed(s) && Next(s, e, s') && p in s.db.payouts
    ensures p in s'.db.payouts && (Subject(e) != Some(p) ==> s'.db.payouts[p] == s.db.payouts[p])
  {
    if e.OpenAccount? {
      OpenIs(s, e.id, e.currency, e.balance, s');
    } else {
      RowsTold(s, e, s', p);
    }
  }

  lemma RowsTold(s: Sys, e: Event, s': Sys, p: Uuid)
    requires Wellformed(s) && Next(s, e, s') && !e.OpenAccount? && p in s.db.payouts
    ensures p in s'.db.payouts && (Subject(e) != Some(p) ==> s'.db.payouts[p] == s.db.payouts[p])
  {
    var x := Tell(s, e, s');
  }

  lemma ReleasedStep(s: Sys, e: Event, s': Sys)
    requires s.released <= s.db.payouts.Keys && Wellformed(s) && Next(s, e, s')
    ensures s'.released <= s'.db.payouts.Keys
  {
    StepFramed(s, e, s');
    forall p | p in s'.released ensures p in s'.db.payouts {
      if e.Fallback? && p == e.h.payout {
        SubjectExists(s, e, s', p);
      }
      RowsStay(s, e, s', p);
    }
  }

  lemma OpenAccountUntouched(s: Sys, e: Event, s': Sys, p: Uuid)
    requires Wellformed(s) && e.OpenAccount? && Next(s, e, s') && p in s.db.payouts
    ensures s.db.payouts[p].tx in s.db.txs && Untouched(s, s', p)
  {
    OpenIs(s, e.id, e.currency, e.balance, s');
    ClaimsKept(s, e, s');
    PayoutTx(s, p);
    SameUntouched(s, s', p);
  }

  lemma PayoutTx(s: Sys, p: Uuid)
    requires Wellformed(s) && p in s.db.payouts
    ensures s.db.payouts[p].tx in s.db.txs
  {
    assert RowOk(s.db, s.db.payouts[p]);
  }

  lemma SameUntouched(s: Sys, s': Sys, p: Uuid)
    requires p in s.db.payouts && s.db.payouts[p].tx in s.db.txs
    requires s'.db.payouts == s.db.payouts && s'.db.txs == s.db.txs && s'.db.entries == s.db.entries
    requires s'.claims == s.claims && s'.released == s.released
    ensures Untouched(s, s', p)
  {
  }

  /** An event about something else touches nothing of a payout. */
  lemma Elsewhere(s: Sys, e: Event, s': Sys, p: Uuid)
    requires Wellformed(s) && Next(s, e, s') && p in s.db.payouts && Subject(e) != Some(p)
    ensures s.db.payouts[p].tx in s.db.txs && Untouched(s, s', p)
  {
    if e.OpenAccount? {
      OpenAccountUntouched(s, e, s', p);
    } else {
      var x := Tell(s, e, s');
      Others(s, e, s');
      OthersUntouched(s, s', e, x, p);
    }
  }

  lemma NoneAppears(s: Sys, e: Event, s': Sys, p: Uuid)
    requires Wellformed(s) && Next(s, e, s') && p !in s.db.payouts && Subject(e) != Some(p)
    ensures p !in s'.db.payouts
  {
    if e.OpenAccount? {
      OpenIs(s, e.id, e.currency, e.balance, s');
    } else {
      var x := Tell(s, e, s');
    }
  }

  // ---- one account ----

  /** The event is about a payout of this account. */
  predicate Concerns(s: Sys, e: Event, a: Uuid) {
    Subject(e).Some? && Subject(e).value in s.db.payouts && s.db.payouts[Subject(e).value].account == a
  }

  /** The hypotheses, asked only of payouts of this account. */
  predicate TameOn(s: Sys, e: Event, a: Uuid) {
    Concerns(s, e, a) ==> Tame(s, e)
  }

  function TameFor(a: Uuid): (Sys, Event) -> bool {
    (s: Sys, e: Event) => TameOn(s, e, a)
  }

  lemma RequestedOwn(s: Sys, e: Event, s': Sys)
    requires e.DoRequest? && AccountInv(s, e.req.account) && Next(s, e, s')
    ensures There(s', e.pid) && s'.db.payouts[e.pid].account == e.req.account
  {
    RequestOwn(s, e.pid, e.tid, e.req, s');
    RequestIs(s, e.pid, e.tid, e.req, s');
    RequestChanges(s.db, e.pid, e.tid, e.req);
  }

  /** A payout an event is not about stays as the protocol wants it. */
  lemma OtherRowOk(s: Sys, e: Event, s': Sys, a: Uuid, p: Uuid)
    requires AccountInv(s, a) && Next(s, e, s') && Subject(e) != Some(p)
    requires p in s'.db.payouts && s'.db.payouts[p].account == a
    ensures s'.db.payouts[p].tx in s'.db.txs && PayoutOk(s', p)
  {
    if p !in s.db.payouts {
      NoneAppears(s, e, s', p);
    }
    Elsewhere(s, e, s', p);
    UntouchedOk(s, s', p);
  }

  /** The payout an event is about, if it is of this account. */
  lemma SubjectOk(s: Sys, e: Event, s': Sys, a: Uuid, q: Uuid)
    requires AccountInv(s, a) && TameOn(s, e, a) && Next(s, e, s') && Subject(e) == Some(q)
    requires q in s'.db.payouts && s'.db.payouts[q].account == a
    ensures There(s', q)
  {
    if e.DoRequest? {
      RequestedHere(s, e, s', a);
    } else {
      SubjectExists(s, e, s', q);
      AccountStays(s, e, s', q);
      OwnStep(s, e, s', q);
    }
  }

  lemma RequestedHere(s: Sys, e: Event, s': Sys, a: Uuid)
    requires e.DoRequest? && AccountInv(s, a) && Next(s, e, s')
    requires e.pid in s'.db.payouts && s'.db.payouts[e.pid].account == a
    ensures There(s', e.pid)
  {
    RequestIs(s, e.pid, e.tid, e.req, s');
    RequestChanges(s.db, e.pid, e.tid, e.req);
    RequestedOwn(s, e, s');
  }

  lemma AccountRows(s: Sys, e: Event, s': Sys, a: Uuid)
    requires AccountInv(s, a) && TameOn(s, e, a) && Next(s, e, s')
    ensures RowsOn(s', a)
  {
    forall p | p in s'.db.payouts && s'.db.payouts[p].account == a
      ensures s'.db.payouts[p].tx in s'.db.txs && PayoutOk(s', p)
    {
      if Subject(e) == Some(p) {
        SubjectOk(s, e, s', a, p);
      } else {
        OtherRowOk(s, e, s', a, p);
      }
    }
  }

  lemma AccountLock(s: Sys, e: Event, s': Sys, a: Uuid)
    requires AccountInv(s, a) && TameOn(s, e, a) && Next(s, e, s')
    ensures LockedOn(s', a)
  {
    if Subject(e).None? {
      LocksUntouched(s, e, s', a);
    } else if e.DoRequest? {
      RequestLock(s, e, s', a);
    } else {
      SubjectLock(s, e, s', a, Subject(e).value);
    }
  }

  lemma RequestLock(s: Sys, e: Event, s': Sys, a: Uuid)
    requires e.DoRequest? && AccountInv(s, a) && Next(s, e, s')
    ensures LockedOn(s', a)
  {
    if e.req.account == a {
      RequestedOwn(s, e, s');
    } else {
      RequestElsewhere(s, e, s', a);
    }
  }

  lemma SubjectLock(s: Sys, e: Event, s': Sys, a: Uuid, q: Uuid)
    requires AccountInv(s, a) && TameOn(s, e, a) && Next(s, e, s') && Subject(e) == Some(q) && !e.DoRequest?
    ensures LockedOn(s', a)
  {
    SubjectExists(s, e, s', q);
    if s.db.payouts[q].account == a {
      OwnStep(s, e, s', q);
    } else {
      OwnElsewhere(s, e, s', q, a);
    }
  }

  lemma AccountStep(s: Sys, e: Event, s': Sys, a: Uuid)
    requires AccountInv(s, a) && TameOn(s, e, a) && Next(s, e, s')
    ensures AccountInv(s', a)
  {
    WellformedStep(s, e, s');
    ReleasedStep(s, e, s');
    AccountRows(s, e, s', a);
    AccountLock(s, e, s', a);
  }

  lemma ProtocolStep(s: Sys, e: Event, s': Sys)
    requires ProtocolInv(s) && Tame(s, e) && Next(s, e, s')
    ensures ProtocolInv(s')
  {
    forall a ensures AccountInv(s', a) {
      ProtocolOnAccount(s, a);
      AccountStep(s, e, s', a);
    }
    AccountsGiveProtocol(s');
  }

  // ---- the hypotheses are needed, step by step ----

  /** A payout the protocol does not want as it is. */
  ghost predicate Astray(s: Sys, p: Uuid) {
    p in s.db.payouts && !(s.db.payouts[p].tx in s.db.txs && PayoutOk(s, p))
  }

  /** Recovering a payout somebody holds leaves a live claim on a PENDING row. */
  lemma HeldRecoveryStrays(s: Sys, q: Uuid, h: Holder, s': Sys)
    requires Here(s, q) && Next(s, DoRecover(q), s') && h in s.claims && h.payout == q
    ensures Astray(s', q)
  {
    RecoverIs(s, q, s');
    ClaimsKept(s, DoRecover(q), s');
    MoveRowChanges(s.db, q, s.db.payouts[q], Pending, RequeueStale);
    assert !Phased(s'.claims[h].phase, Pending, s'.db.txs[s'.db.payouts[q].tx].status, q in s'.released);
  }

  /** Released funds without a worker behind them leave a half-closed payout. */
  lemma UnheldReleaseStrays(s: Sys, s': Sys, h: Holder)
    requires Here(s, h.payout) && Live(s, h, h.payout)
    requires s'.claims == s.claims - {h} && h.payout in s'.released && h.payout in s'.db.payouts
    ensures Astray(s', h.payout)
  {
    SoleHolder(s, h.payout, h);
    assert forall g :: !Live(s', g, h.payout);
  }

  /** A lost read, release or transaction write sends the fallback on to a point it has not earned. */
  lemma LostWriteStrays(s: Sys, h: Holder, s': Sys)
    requires Here(s, h.payout) && Next(s, Fallback(h, false), s') && !In(s, h, FallbackAudit)
    ensures Astray(s', h.payout)
  {
    FallbackIs(s, h, false, s');
    assert Live(s, h, h.payout);
    assert Phased(s.claims[h].phase, s.db.payouts[h.payout].status, s.db.txs[s.db.payouts[h.payout].tx].status,
                  h.payout in s.released);
    if s.claims[h].phase == FallbackPayout {
      UnheldReleaseStrays(s, s', h);
    } else {
      LostMiddle(s, h, s');
      UnearnedStrays(s, s', h);
    }
  }

  /** A lost read skips to the last write; a lost release or transaction write moves on by one. */
  lemma LostMiddle(s: Sys, h: Holder, s': Sys)
    requires h in s.claims && FallbackStep(s, h, false) == Some(s')
    requires s.claims[h].phase != FallbackAudit && s.claims[h].phase != FallbackPayout
    ensures s'.db == s.db && s'.released == s.released && h in s'.claims
    ensures s'.claims[h].phase == (if In(s, h, FallbackRelease) then FallbackTx else FallbackPayout)
    ensures In(s, h, FallbackRead) || In(s, h, FallbackRelease) || In(s, h, FallbackTx)
  {
  }

  lemma UnearnedStrays(s: Sys, s': Sys, h: Holder)
    requires h in s.claims && h in s'.claims && h.payout in s.db.payouts && s.db.payouts[h.payout].tx in s.db.txs
    requires Phased(s.claims[h].phase, s.db.payouts[h.payout].status, s.db.txs[s.db.payouts[h.payout].tx].status,
                    h.payout in s.released)
    requires s'.db == s.db && s'.released == s.released
    requires s'.claims[h].phase == (if In(s, h, FallbackRelease) then FallbackTx else FallbackPayout)
    requires In(s, h, FallbackRead) || In(s, h, FallbackRelease) || In(s, h, FallbackTx)
    ensures Astray(s', h.payout)
  {
    assert !Phased(s'.claims[h].phase, s.db.payouts[h.payout].status, s.db.txs[s.db.payouts[h.payout].tx].status,
                   h.payout in s.released);
  }

  lemma LateGiveUpStrays(s: Sys, h: Holder, s': Sys)
    requires Here(s, h.payout) && Next(s, GiveUp(h), s') && h in s.claims && AfterRelease(s.claims[h].phase)
    ensures Astray(s', h.payout)
  {
    var row := s.db.payouts[h.payout];
    assert Live(s, h, h.payout);
    assert Phased(s.claims[h].phase, row.status, s.db.txs[row.tx].status, h.payout in s.released);
    LocalIs(s, GiveUp(h), s');
    StepFramed(s, GiveUp(h), s');
    UnheldReleaseStrays(s, s', h);
  }

  lemma UntameStrays(s: Sys, e: Event, s': Sys, q: Uuid)
    requires q in s.db.payouts && AccountInv(s, s.db.payouts[q].account)
    requires Next(s, e, s') && !Tame(s, e) && Subject(e) == Some(q)
    ensures Astray(s', q) && s'.db.payouts[q].account == s.db.payouts[q].account
  {
    StepGuarded(s, e, s', q);
    AccountStays(s, e, s', q);
    HereFromAccount(s, q);
    StraysFrom(s, e, s', q);
  }

  lemma StraysFrom(s: Sys, e: Event, s': Sys, q: Uuid)
    requires Here(s, q) && Next(s, e, s') && !Tame(s, e) && Subject(e) == Some(q)
    ensures Astray(s', q)
  {
    match e
    case DoRecover(pid) =>
      var h :| h in s.claims && h.payout == pid;
      HeldRecoveryStrays(s, pid, h, s');
    case Fallback(h, _) => LostWriteStrays(s, h, s');
    case GiveUp(h) => LateGiveUpStrays(s, h, s');
  }

  /** A step keeps one account's lock and payouts in order if and only if it is tame or about something
      else: each of recovering a held payout of the account, losing a read, release, transaction or payout
      write of its fallback, and giving up after the release breaks it, from every state. */
  lemma AccountStepIff(s: Sys, e: Event, s': Sys, a: Uuid)
    requires AccountInv(s, a) && Next(s, e, s')
    ensures AccountInv(s', a) <==> TameOn(s, e, a)
  {
    if TameOn(s, e, a) {
      AccountStep(s, e, s', a);
    } else {
      UntameStrays(s, e, s', Subject(e).value);
      AstrayBreaks(s', Subject(e).value);
    }
  }

  lemma AstrayBreaks(s: Sys, p: Uuid)
    requires Astray(s, p)
    ensures !AccountInv(s, s.db.payouts[p].account)
  {
  }

  /** A step of the protocol keeps the whole invariant if and only if it is tame. */
  lemma ProtocolStepIff(s: Sys, e: Event, s': Sys)
    requires ProtocolInv(s) && Next(s, e, s')
    ensures ProtocolInv(s') <==> Tame(s, e)
  {
    if Tame(s, e) {
      ProtocolStep(s, e, s');
    } else {
      UntameBreaks(s, e, s');
    }
  }

  lemma UntameBreaks(s: Sys, e: Event, s': Sys)
    requires ProtocolInv(s) && Next(s, e, s') && !Tame(s, e)
    ensures !ProtocolInv(s')
  {
    assert Subject(e).Some?;
    SubjectExists(s, e, s', Subject(e).value);
    var a := s.db.payouts[Subject(e).value].account;
    ProtocolOnAccount(s, a);
    AccountStepIff(s, e, s', a);
    if ProtocolInv(s') {
      ProtocolOnAccount(s', a);
    }
  }

  // ---- runs ----

  lemma InitProtocol(s: Sys)
    requires Init(s)
    ensures ProtocolInv(s)
  {
    InitWellformed(s);
  }

  ghost function OnAccount(a: Uuid): Sys -> bool {
    (s: Sys) => AccountInv(s, a)
  }

  /** The protocol theorem for one account: in every run that is tame on its payouts. */
  lemma AccountHolds(s: Sys, run: seq<Event>, a: Uuid)
    requires Init(s) && Exec(s, run).Some? && Along(s, run, TameFor(a))
    ensures AccountInv(Exec(s, run).value, a)
  {
    InitProtocol(s);
    ProtocolOnAccount(s, a);
    forall s: Sys, e: Event, s': Sys | OnAccount(a)(s) && TameFor(a)(s, e) && Next(s, e, s') ensures OnAccount(a)(s') {
      AccountStep(s, e, s', a);
    }
    RunKeeps(s, run, OnAccount(a), TameFor(a));
  }

  /** The protocol theorem: in every tame run from an initial state, on every payout. */
  lemma ProtocolHolds(s: Sys, run: seq<Event>)
    requires Init(s) && Exec(s, run).Some? && Along(s, run, Tame)
    ensures ProtocolInv(Exec(s, run).value)
  {
    InitProtocol(s);
    forall s: Sys, e: Event, s': Sys | ProtocolInv(s) && Tame(s, e) && Next(s, e, s') ensures ProtocolInv(s') {
      ProtocolStep(s, e, s');
    }
    RunKeeps(s, run, ProtocolInv, Tame);
  }
}
