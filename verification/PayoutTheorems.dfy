/** Consequences of the payout protocol: locked funds, and what commits. */
module PayoutTheorems {
  import opened Results
  import opened Tables
  import opened Payouts
  import opened Runs
  import opened Schema
  import opened Steps
  import opened Held
  import opened PayoutProtocol

  // ---- locked funds ----

  /** In every run that is tame on the payouts of an account, whatever happens to others: with no fallback
      of the account half way, locked is exactly the sum of its open payouts. */
  lemma LockedIsOpenSum(s: Sys, run: seq<Event>, a: Uuid)
    requires Init(s) && Exec(s, run).Some? && Along(s, run, TameFor(a))
    requires a in Exec(s, run).value.db.accounts
    requires forall h | h in Exec(s, run).value.claims && Exec(s, run).value.claims[h].row.account == a ::
               !AfterRelease(Exec(s, run).value.claims[h].phase)
    ensures Exec(s, run).value.db.accounts[a].locked == HeldOn(Exec(s, run).value.db.payouts, {}, a)
  {
    AccountHolds(s, run, a);
    NothingReleased(Exec(s, run).value, a);
  }

  lemma NothingReleased(s: Sys, a: Uuid)
    requires AccountInv(s, a) && a in s.db.accounts
    requires forall h | h in s.claims && s.claims[h].row.account == a :: !AfterRelease(s.claims[h].phase)
    ensures s.db.accounts[a].locked == HeldOn(s.db.payouts, {}, a)
  {
    forall p | p in s.db.payouts && s.db.payouts[p].account == a ensures p !in s.released {
      assert PayoutOk(s, p);
    }
    HeldSame(s.db.payouts, s.released, {}, a);
  }

  // ---- business rules never abort a finalisation ----

  /** From any state in which the account's payouts are in order, every finalising transaction commits unless
      the database itself fails: the lock covers the amount, the guarded release fires, the transition is
      legal. */
  lemma FinalisationCommits(s: Sys, h: Holder, ref: string)
    requires h in s.claims && AccountInv(s, s.claims[h].row.account)
    requires s.claims[h].phase == Sent(ref) || s.claims[h].phase == Refused || Unheard(s, h)
    ensures Settle(s.db, h.payout, s.claims[h].row, PayoutCompleted, Some(ref)).Ok?
    ensures FailPayout(s.db, h.payout, s.claims[h].row).Ok?
    ensures MoveRow(s.db, h.payout, s.claims[h].row, Pending, RequeueClaimed).Ok?
  {
    HereFromClaim(s, h);
    LiveCommits(s, h);
    SettleOk(s.db, h.payout, s.claims[h].row, PayoutCompleted, Some(ref));
    FailOk(s.db, h.payout, s.claims[h].row);
  }

  lemma LiveCommits(s: Sys, h: Holder)
    requires Here(s, h.payout) && h in s.claims && forall p | p in s.db.payouts :: s.db.payouts[p].amount > 0
    requires s.claims[h].phase.Sent? || s.claims[h].phase == Refused || Unheard(s, h)
    ensures var row := s.claims[h].row;
            && Seeded(s.db) && SameRow(row, s.db.payouts[h.payout]) && RowOk(s.db, s.db.payouts[h.payout])
            && Releasable(s.db, row.account, row.amount) && s.db.txs[row.tx].status == Processing
  {
    LockCovers(s, h.payout);
  }

  lemma SettleOk(db: Db, q: Uuid, row: Payout, action: Action, ref: Option<string>)
    requires Seeded(db) && q in db.payouts && SameRow(row, db.payouts[q]) && RowOk(db, db.payouts[q])
    requires Releasable(db, row.account, row.amount) && db.txs[row.tx].status == Processing
    ensures Settle(db, q, row, action, ref).Ok?
  {
  }

  lemma FailOk(db: Db, q: Uuid, row: Payout)
    requires q in db.payouts && SameRow(row, db.payouts[q]) && RowOk(db, db.payouts[q])
    requires Releasable(db, row.account, row.amount) && db.txs[row.tx].status == Processing
    ensures FailPayout(db, q, row).Ok? && MoveRow(db, q, row, Pending, RequeueClaimed).Ok?
  {
  }

  lemma RefundOk(db: Db, q: Uuid)
    requires q in db.payouts && RowOk(db, db.payouts[q]) && db.payouts[q].status == ManualReview
    requires db.txs[db.payouts[q].tx].status == Processing
    ensures RefundReview(db, q).Ok?
  {
  }

  lemma ResolutionCommits(s: Sys, q: Uuid, replacementRef: Option<string>)
    requires q in s.db.payouts && AccountInv(s, s.db.payouts[q].account) && s.db.payouts[q].status == ManualReview
    ensures ConfirmReview(s.db, q, replacementRef).Ok? && RefundReview(s.db, q).Ok?
    ensures Releasable(s.db, s.db.payouts[q].account, s.db.payouts[q].amount)
  {
    HereFromAccount(s, q);
    ReviewCommits(s, q, replacementRef);
  }

  lemma ReviewCommits(s: Sys, q: Uuid, replacementRef: Option<string>)
    requires Here(s, q) && s.db.payouts[q].status == ManualReview
    requires forall p | p in s.db.payouts :: s.db.payouts[p].amount > 0
    ensures ConfirmReview(s.db, q, replacementRef).Ok? && RefundReview(s.db, q).Ok?
    ensures Releasable(s.db, s.db.payouts[q].account, s.db.payouts[q].amount)
  {
    LockCovers(s, q);
    var row := s.db.payouts[q];
    SettleOk(s.db, q, row, ReviewConfirmed, if replacementRef.Some? then replacementRef else row.gatewayRef);
    RefundOk(s.db, q);
  }
}
