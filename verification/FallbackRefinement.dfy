/** The separately committed failure fallback, run to its end, ends where the atomic failure ends. */
module FallbackRefinement {
  import opened Results
  import opened Tables
  import opened Payouts
  import opened Runs
  import opened Schema
  import opened Steps
  import opened WorkerSteps
  import opened Held
  import opened PayoutProtocol

  /** The aborted failure transaction followed by the five fallback writes. */
  function FallbackRun(h: Holder): seq<Event> {
    [FailAborts(h), Fallback(h, true), Fallback(h, true), Fallback(h, true), Fallback(h, true), Fallback(h, true)]
  }

  /** The run's state with the worker at `phase`. */
  function Stage(s: Sys, h: Holder, row: Payout, phase: Phase, db: Db, released: set<Uuid>): Sys {
    s.(db := db, released := released, claims := s.claims[h := Claim(row, phase)])
  }

  lemma Restage(s: Sys, h: Holder, row: Payout, phase: Phase, next: Phase, db: Db, released: set<Uuid>)
    ensures At(Stage(s, h, row, phase, db, released), h, next) == Stage(s, h, row, next, db, released)
  {
    assert s.claims[h := Claim(row, phase)][h := Claim(row, next)] == s.claims[h := Claim(row, next)];
  }

  lemma ReadWrite(s: Sys, h: Holder, row: Payout)
    requires h in s.claims && h.payout in s.db.payouts
    ensures Next(Stage(s, h, row, FallbackRead, s.db, s.released), Fallback(h, true),
                 Stage(s, h, s.db.payouts[h.payout], FallbackRelease, s.db, s.released))
  {
    var reread := Claim(s.db.payouts[h.payout], FallbackRelease);
    assert s.claims[h := Claim(row, FallbackRead)][h := reread] == s.claims[h := reread];
  }

  lemma ReleaseWrite(s: Sys, h: Holder, row: Payout, db: Db, released: set<Uuid>)
    requires Releasable(db, row.account, row.amount)
    ensures Next(Stage(s, h, row, FallbackRelease, db, released), Fallback(h, true),
                 Stage(s, h, row, FallbackTx, ReleaseFundsSafe(db, row.account, row.amount), released + {h.payout}))
  {
    Restage(s, h, row, FallbackRelease, FallbackTx, ReleaseFundsSafe(db, row.account, row.amount),
            released + {h.payout});
  }

  function FailTx(db: Db, t: Uuid): Db
    requires t in db.txs
  {
    db.(txs := db.txs[t := db.txs[t].(status := Failed)])
  }

  lemma TxWrite(s: Sys, h: Holder, row: Payout, db: Db, released: set<Uuid>)
    requires row.tx in db.txs
    ensures Next(Stage(s, h, row, FallbackTx, db, released), Fallback(h, true),
                 Stage(s, h, row, FallbackAudit, FailTx(db, row.tx), released))
  {
    Restage(s, h, row, FallbackTx, FallbackAudit, FailTx(db, row.tx), released);
  }

  lemma AuditWrite(s: Sys, h: Holder, row: Payout, db: Db, released: set<Uuid>)
    ensures Next(Stage(s, h, row, FallbackAudit, db, released), Fallback(h, true),
                 Stage(s, h, row, FallbackPayout, WriteAudit(db, Audit(row.tx, PayoutFailedFallback, None, Failed)),
                       released))
  {
    Restage(s, h, row, FallbackAudit, FallbackPayout,
            WriteAudit(db, Audit(row.tx, PayoutFailedFallback, None, Failed)), released);
  }

  lemma PayoutWrite(s: Sys, h: Holder, row: Payout, db: Db)
    requires h.payout in db.payouts && h.payout !in s.released
    ensures Next(Stage(s, h, row, FallbackPayout, db, s.released + {h.payout}), Fallback(h, true),
                 Drop(s, h).(db := UpdatePayoutStatus(db, h.payout, Failed, None).value))
  {
    assert s.released + {h.payout} - {h.payout} == s.released;
    assert s.claims[h := Claim(row, FallbackPayout)] - {h} == s.claims - {h};
  }

  /** The database before the last write, given that the lock covers the amount. */
  function BeforeClose(db: Db, row: Payout): Db
    requires row.tx in db.txs
  {
    var d := ReleaseFundsSafe(db, row.account, row.amount);
    WriteAudit(FailTx(d, row.tx), Audit(row.tx, PayoutFailedFallback, None, Failed))
  }

  /** The database the five writes build. */
  function FallbackDb(db: Db, q: Uuid, row: Payout): Db
    requires q in db.payouts && row.tx in db.txs
  {
    UpdatePayoutStatus(BeforeClose(db, row), q, Failed, None).value
  }

  /** A refused payout whose funds can be released. */
  predicate Closable(s: Sys, h: Holder) {
    && In(s, h, Refused) && h.payout in s.db.payouts && h.payout !in s.released
    && s.db.payouts[h.payout].tx in s.db.txs
    && Releasable(s.db, s.db.payouts[h.payout].account, s.db.payouts[h.payout].amount)
  }

  /** The state before the last write. */
  function Closing(s: Sys, h: Holder): Sys
    requires Closable(s, h)
  {
    var row := s.db.payouts[h.payout];
    Stage(s, h, row, FallbackPayout, BeforeClose(s.db, row), s.released + {h.payout})
  }

  lemma FallbackWrites(s: Sys, h: Holder, closes: bool, s': Sys)
    requires Closable(s, h) && Next(Closing(s, h), Fallback(h, closes), s')
    ensures NextAll(s, if closes then FallbackRun(h) else LostCloseRun(h), s')
  {
    var row, held := s.db.payouts[h.payout], s.claims[h].row;
    var released := s.released + {h.payout};
    var d1 := ReleaseFundsSafe(s.db, row.account, row.amount);
    var d2 := FailTx(d1, row.tx);
    FailAbortsNext(s, h);
    ReadWrite(s, h, held);
    ReleaseWrite(s, h, row, s.db, s.released);
    TxWrite(s, h, row, d1, released);
    AuditWrite(s, h, row, d2, released);
    FallbackExec(s, Stage(s, h, held, FallbackRead, s.db, s.released),
                 Stage(s, h, row, FallbackRelease, s.db, s.released), Stage(s, h, row, FallbackTx, d1, released),
                 Stage(s, h, row, FallbackAudit, d2, released), Closing(s, h), s', h, closes);
  }

  lemma FallbackResult(s: Sys, h: Holder)
    requires Closable(s, h)
    ensures NextAll(s, FallbackRun(h), Drop(s, h).(db := FallbackDb(s.db, h.payout, s.db.payouts[h.payout])))
  {
    var row := s.db.payouts[h.payout];
    PayoutWrite(s, h, row, BeforeClose(s.db, row));
    FallbackWrites(s, h, true, Drop(s, h).(db := FallbackDb(s.db, h.payout, row)));
  }

  lemma FallbackExec(s: Sys, s1: Sys, s2: Sys, s3: Sys, s4: Sys, s5: Sys, s6: Sys, h: Holder, closes: bool)
    requires Next(s, FailAborts(h), s1) && Next(s1, Fallback(h, true), s2) && Next(s2, Fallback(h, true), s3)
    requires Next(s3, Fallback(h, true), s4) && Next(s4, Fallback(h, true), s5) && Next(s5, Fallback(h, closes), s6)
    ensures NextAll(s, if closes then FallbackRun(h) else LostCloseRun(h), s6)
  {
    var w, c := Fallback(h, true), Fallback(h, closes);
    assert [c] + [] == [c] && [w] + [c] == [w, c] && [w] + [w, c] == [w, w, c] && [w] + [w, w, c] == [w, w, w, c];
    assert [w] + [w, w, w, c] == [w, w, w, w, c];
    NextAllNowhere(s6);
    NextAllFrom(s5, c, s6, [], s6);
    NextAllFrom(s4, w, s5, [c], s6);
    NextAllFrom(s3, w, s4, [w, c], s6);
    NextAllFrom(s2, w, s3, [w, w, c], s6);
    NextAllFrom(s1, w, s2, [w, w, w, c], s6);
    NextAllFrom(s, FailAborts(h), s1, [w, w, w, w, c], s6);
    assert [FailAborts(h)] + [w, w, w, w, c] == if closes then FallbackRun(h) else LostCloseRun(h);
  }

  lemma FailResult(db: Db, q: Uuid, held: Payout)
    requires q in db.payouts && RowOk(db, db.payouts[q]) && db.txs[db.payouts[q].tx].status == Processing
    requires SameRow(held, db.payouts[q])
    requires Releasable(db, held.account, held.amount)
    ensures var row := db.payouts[q];
            && FailPayout(db, q, held).Ok?
            && FailPayout(db, q, held).value ==
               FallbackDb(db, q, row).(audit := db.audit + [Audit(row.tx, PayoutFailed, Some(Processing), Failed)])
  {
  }

  /** From any state in which the account's payouts are in order, a refused payout whose failure transaction
      aborts and whose fallback writes all succeed ends with the same accounts, transactions, payouts, entries
      and claims as the atomic failure; only the wording of the audit row differs. */
  lemma FallbackRefinesFailure(s: Sys, h: Holder) returns (slow: Sys, atomic: Sys)
    requires In(s, h, Refused) && AccountInv(s, s.claims[h].row.account)
    ensures NextAll(s, FallbackRun(h), slow) && Next(s, DoFail(h), atomic)
    ensures slow == atomic.(db := atomic.db.(audit := slow.db.audit))
  {
    HereFromClaim(s, h);
    RefusedFacts(s, h);
    slow, atomic := RefinesFrom(s, h);
  }

  lemma RefinesFrom(s: Sys, h: Holder) returns (slow: Sys, atomic: Sys)
    requires Closable(s, h) && RowOk(s.db, s.db.payouts[h.payout])
    requires SameRow(s.claims[h].row, s.db.payouts[h.payout])
    requires s.db.txs[s.db.payouts[h.payout].tx].status == Processing
    ensures NextAll(s, FallbackRun(h), slow) && Next(s, DoFail(h), atomic)
    ensures slow == atomic.(db := atomic.db.(audit := slow.db.audit))
  {
    FallbackResult(s, h);
    FailResult(s.db, h.payout, s.claims[h].row);
    FailsNext(s, h, FailPayout(s.db, h.payout, s.claims[h].row).value);
    slow := Drop(s, h).(db := FallbackDb(s.db, h.payout, s.db.payouts[h.payout]));
    atomic := Drop(s, h).(db := FailPayout(s.db, h.payout, s.claims[h].row).value);
  }

  lemma RefusedFacts(s: Sys, h: Holder)
    requires Here(s, h.payout) && In(s, h, Refused) && forall p | p in s.db.payouts :: s.db.payouts[p].amount > 0
    ensures var row := s.db.payouts[h.payout];
            Closable(s, h) && s.db.txs[row.tx].status == Processing && SameRow(s.claims[h].row, row)
  {
    LockCovers(s, h.payout);
  }

  /** The hypothesis that a fallback runs to its end is needed, from every state with a refused payout:
      when the fallback's read is lost, the payout ends FAILED while its transaction stays PROCESSING
      and its funds stay locked, with no open payout to account for them. */
  lemma LostReadLeaks(s: Sys, h: Holder) returns (lost: Sys)
    requires In(s, h, Refused) && AccountInv(s, s.claims[h].row.account)
    ensures NextAll(s, LostReadRun(h), lost)
    ensures var row := s.db.payouts[h.payout];
            && h.payout in lost.db.payouts && lost.db.payouts[h.payout].status == Failed
            && lost.db.txs == s.db.txs && s.db.txs[row.tx].status == Processing
            && row.account in lost.db.accounts
            && lost.db.accounts[row.account].locked == HeldOn(lost.db.payouts, lost.released, row.account) + row.amount
  {
    HereFromClaim(s, h);
    RefusedFacts(s, h);
    LostReadResult(s, h);
    lost := Drop(s, h).(db := UpdatePayoutStatus(s.db, h.payout, Failed, None).value);
    StillLocked(s, h);
  }

  lemma StillLocked(s: Sys, h: Holder)
    requires Here(s, h.payout) && In(s, h, Refused) && h.payout !in s.released
    ensures var row := s.db.payouts[h.payout];
            var closed := s.db.payouts[h.payout := row.(status := Failed, gatewayRef := None)];
            && row.account in s.db.accounts
            && s.db.accounts[row.account].locked == HeldOn(closed, s.released, row.account) + row.amount
  {
    var row := s.db.payouts[h.payout];
    HeldUpdate(s.db.payouts, s.released, s.released, row.account, h.payout, row.(status := Failed, gatewayRef := None));
  }

  /** The aborted failure transaction and a fallback that loses its read and closes the payout row. */
  function LostReadRun(h: Holder): seq<Event> {
    [FailAborts(h), Fallback(h, false), Fallback(h, true)]
  }

  lemma LostReadResult(s: Sys, h: Holder)
    requires In(s, h, Refused) && h.payout in s.db.payouts && h.payout !in s.released
    ensures NextAll(s, LostReadRun(h), Drop(s, h).(db := UpdatePayoutStatus(s.db, h.payout, Failed, None).value))
  {
    var held := s.claims[h].row;
    var s1 := Stage(s, h, held, FallbackRead, s.db, s.released);
    var s2 := Stage(s, h, held, FallbackPayout, s.db, s.released);
    FailAbortsNext(s, h);
    LostRead(s, h, held);
    LostPayoutWrite(s, h, held);
    var lost, closed := Fallback(h, false), Fallback(h, true);
    var s3 := Drop(s, h).(db := UpdatePayoutStatus(s.db, h.payout, Failed, None).value);
    assert [closed] + [] == [closed] && [lost] + [closed] == [lost, closed];
    NextAllNowhere(s3);
    NextAllFrom(s2, closed, s3, [], s3);
    NextAllFrom(s1, lost, s2, [closed], s3);
    NextAllFrom(s, FailAborts(h), s1, [lost, closed], s3);
    assert [FailAborts(h)] + [lost, closed] == LostReadRun(h);
  }

  lemma LostRead(s: Sys, h: Holder, held: Payout)
    requires h.payout in s.db.payouts
    ensures Next(Stage(s, h, held, FallbackRead, s.db, s.released), Fallback(h, false),
                 Stage(s, h, held, FallbackPayout, s.db, s.released))
  {
    ReadNext(Stage(s, h, held, FallbackRead, s.db, s.released), h, false);
    Restage(s, h, held, FallbackRead, FallbackPayout, s.db, s.released);
  }

  lemma LostPayoutWrite(s: Sys, h: Holder, held: Payout)
    requires h.payout in s.db.payouts && h.payout !in s.released
    ensures Next(Stage(s, h, held, FallbackPayout, s.db, s.released), Fallback(h, true),
                 Drop(s, h).(db := UpdatePayoutStatus(s.db, h.payout, Failed, None).value))
  {
    assert s.released - {h.payout} == s.released;
    assert s.claims[h := Claim(held, FallbackPayout)] - {h} == s.claims - {h};
  }

  /** The aborted failure transaction and a fallback that loses only its last write. */
  function LostCloseRun(h: Holder): seq<Event> {
    [FailAborts(h), Fallback(h, true), Fallback(h, true), Fallback(h, true), Fallback(h, true), Fallback(h, false)]
  }

  lemma LostClose(s: Sys, h: Holder, row: Payout, db: Db, released: set<Uuid>)
    ensures Next(Stage(s, h, row, FallbackPayout, db, released), Fallback(h, false),
                 Drop(s, h).(db := db, released := released))
  {
    assert s.claims[h := Claim(row, FallbackPayout)] - {h} == s.claims - {h};
  }

  lemma LostCloseResult(s: Sys, h: Holder) returns (s': Sys)
    requires Closable(s, h)
    ensures NextAll(s, LostCloseRun(h), s')
    ensures s' == Drop(s, h).(db := BeforeClose(s.db, s.db.payouts[h.payout]), released := s.released + {h.payout})
  {
    var row := s.db.payouts[h.payout];
    s' := Drop(s, h).(db := BeforeClose(s.db, row), released := s.released + {h.payout});
    LostClose(s, h, row, BeforeClose(s.db, row), s.released + {h.payout});
    FallbackWrites(s, h, false, s');
  }
}
