/**
 What "single holder" on one payout gives its transaction, whatever happens to fallbacks, crashes, lost
 writes and other payouts: the money moves exactly once. And exactly which steps keep the status of a
 payout and the status of its transaction in agreement.
 */
module Settlement {
  import opened Results
  import opened Tables
  import opened Payouts
  import opened Runs
  import opened Entries
  import opened Deltas
  import opened Schema
  import opened Steps
  import opened PayoutProtocol
  import opened SingleHolder

  // ---- entries ----

  /** The payout's transaction carries its two legs when it is COMPLETED, and nothing otherwise. */
  predicate LegsOk(db: Db, p: Uuid) {
    p in db.payouts ==> Of(db.entries, db.payouts[p].tx) == SettledLegs(db.payouts[p])
  }

  ghost predicate OnceOk(s: Sys, p: Uuid) {
    Wellformed(s) && HeldOk(s, p) && LegsOk(s.db, p)
  }

  ghost function OnceInv(p: Uuid): Sys -> bool {
    (s: Sys) => OnceOk(s, p)
  }

  lemma MoveKeepsEntries(s: Sys, e: Event, s': Sys)
    requires Next(s, e, s') && (e.DoClaim? || e.DoRequeue? || e.DoRecover?)
    ensures s'.db.entries == s.db.entries
  {
    match e
    case DoClaim(h) => ClaimIs(s, h, s');
    case DoRequeue(h) => RequeueIs(s, h, s');
    case DoRecover(pid) => RecoverIs(s, pid, s');
  }

  lemma FailKeepsEntries(s: Sys, e: Event, s': Sys)
    requires Next(s, e, s') && (e.DoFail? || e.DoRefund?)
    ensures s'.db.entries == s.db.entries
  {
    match e
    case DoFail(h) => FailIs(s, h, s');
    case DoRefund(pid) => RefundIs(s, pid, s');
  }

  lemma ReviewKeepsEntries(s: Sys, e: Event, s': Sys)
    requires Next(s, e, s') && (e.MarkReview? || e.AuditReview?)
    ensures s'.db.entries == s.db.entries
  {
    match e
    case MarkReview(h) => MarkIs(s, h, s');
    case AuditReview(h) => NoteIs(s, h, s');
  }

  lemma FallbackKeepsEntries(s: Sys, h: Holder, succeeds: bool, s': Sys)
    requires h in s.claims && FallbackStep(s, h, succeeds) == Some(s')
    ensures s'.db.entries == s.db.entries
  {
  }

  /** Of all events about an existing payout only the two settlements write entries. */
  lemma EntriesStay(s: Sys, e: Event, s': Sys)
    requires Next(s, e, s') && Subject(e).Some? && !e.DoRequest? && !e.DoSettle? && !e.DoConfirm?
    ensures s'.db.entries == s.db.entries
  {
    if IsLocal(e) {
      StepFramed(s, e, s');
    } else if e.Fallback? {
      FallbackIs(s, e.h, e.succeeds, s');
      FallbackKeepsEntries(s, e.h, e.succeeds, s');
    } else if e.DoFail? || e.DoRefund? {
      FailKeepsEntries(s, e, s');
    } else if e.MarkReview? || e.AuditReview? {
      ReviewKeepsEntries(s, e, s');
    } else {
      MoveKeepsEntries(s, e, s');
    }
  }

  /** A settlement of an unsettled payout posts its two legs. */
  lemma SettledOnce(d: Db, d': Db, p: Uuid, row: Payout, action: Action, ref: Option<string>)
    requires Settle(d, p, row, action, ref) == Ok(d')
    requires p in d.payouts && SameRow(row, d.payouts[p]) && Of(d.entries, row.tx) == []
    ensures LegsOk(d', p)
  {
    SettleChanges(d, p, row, action, ref);
    SettledEntries(d, d', SettleDelta(d, p, row, action, ref, SystemAccount(row.currency).value), row.tx);
  }

  lemma WorkerSettles(s: Sys, h: Holder, s': Sys)
    requires OnceOk(s, h.payout) && Next(s, DoSettle(h), s')
    ensures LegsOk(s'.db, h.payout)
  {
    SettleIs(s, h, s');
    assert Seen(s, h);
    SettledOnce(s.db, s'.db, h.payout, s.claims[h].row, PayoutCompleted, Some(s.claims[h].phase.gatewayRef));
  }

  lemma OperatorSettles(s: Sys, p: Uuid, replacementRef: Option<string>, s': Sys)
    requires LegsOk(s.db, p) && Next(s, DoConfirm(p, replacementRef), s')
    ensures LegsOk(s'.db, p)
  {
    var ref := ConfirmIs(s, p, replacementRef, s');
    SettledOnce(s.db, s'.db, p, s.db.payouts[p], ReviewConfirmed, ref);
  }

  /** Any other event about the payout leaves a COMPLETED one alone and completes no other. */
  lemma UnsettledStays(s: Sys, e: Event, s': Sys, p: Uuid)
    requires HeldOk(s, p) && p in s.db.payouts && LegsOk(s.db, p)
    requires Next(s, e, s') && Subject(e) == Some(p) && !e.DoSettle? && !e.DoConfirm?
    ensures LegsOk(s'.db, p)
  {
    StepGuarded(s, e, s', p);
    EntriesStay(s, e, s');
    if s.db.payouts[p].status == Completed {
      FinalSubject(s, e, s', p);
    } else {
      NotCompleted(s, e, s', p);
    }
  }

  lemma NotCompleted(s: Sys, e: Event, s': Sys, p: Uuid)
    requires p in s.db.payouts && s.db.payouts[p].status != Completed
    requires Next(s, e, s') && Subject(e) == Some(p) && !e.DoRequest? && !e.DoSettle? && !e.DoConfirm?
    ensures p in s'.db.payouts && s'.db.payouts[p].status != Completed && s'.db.payouts[p].tx == s.db.payouts[p].tx
  {
    StepShaped(s, e, s');
  }

  lemma RequestedBare(s: Sys, e: Event, s': Sys)
    requires WellformedDb(s.db) && e.DoRequest? && Next(s, e, s')
    ensures LegsOk(s'.db, e.pid)
  {
    RequestIs(s, e.pid, e.tid, e.req, s');
    RequestChanges(s.db, e.pid, e.tid, e.req);
    OfOwn(s.db.entries, e.tid);
    assert s'.db.entries == s.db.entries;
  }

  lemma LegsAbout(s: Sys, e: Event, s': Sys, p: Uuid)
    requires OnceOk(s, p) && Next(s, e, s') && Subject(e) == Some(p)
    ensures LegsOk(s'.db, p)
  {
    if e.DoRequest? {
      RequestedBare(s, e, s');
    } else if e.DoSettle? {
      WorkerSettles(s, e.h, s');
    } else if e.DoConfirm? {
      OperatorSettles(s, p, e.replacementRef, s');
    } else {
      SubjectExists(s, e, s', p);
      UnsettledStays(s, e, s', p);
    }
  }

  lemma LegsElsewhere(s: Sys, e: Event, s': Sys, p: Uuid)
    requires Wellformed(s) && LegsOk(s.db, p) && Next(s, e, s') && Subject(e) != Some(p)
    ensures LegsOk(s'.db, p)
  {
    if p in s.db.payouts {
      Elsewhere(s, e, s', p);
    } else {
      NoneAppears(s, e, s', p);
    }
  }

  /** Whatever may happen, a step keeps a payout's claims in order and its legs right if and only if it
      does not recover the payout while somebody holds it. */
  lemma OnceStepIff(s: Sys, e: Event, s': Sys, p: Uuid)
    requires OnceOk(s, p) && Next(s, e, s')
    ensures OnceOk(s', p) <==> SingleOn(s, e, p)
  {
    WellformedStep(s, e, s');
    HeldStepIff(s, e, s', p);
    if Subject(e) == Some(p) {
      LegsAbout(s, e, s', p);
    } else {
      LegsElsewhere(s, e, s', p);
    }
  }

  /** In every run in which this payout is recovered only unheld, its transaction carries one debit of the
      user and one credit of the liquidity account, for its amount, when the payout is COMPLETED, and no
      entry otherwise, whoever settled it. */
  lemma SettledExactlyOnce(s: Sys, run: seq<Event>, p: Uuid)
    requires Init(s) && Exec(s, run).Some? && Along(s, run, Single(p))
    requires p in Exec(s, run).value.db.payouts
    ensures var db := Exec(s, run).value.db;
            var row := db.payouts[p];
            && row.tx in db.txs && SystemAccount(row.currency).Ok?
            && (row.status == Completed ==>
                  Of(db.entries, row.tx) == [Entry(row.tx, row.account, row.amount, Debit),
                                             Entry(row.tx, SystemAccount(row.currency).value, row.amount, Credit)])
            && (row.status != Completed ==> Of(db.entries, row.tx) == [])
  {
    InitWellformed(s);
    assert OnceInv(p)(s);
    forall s: Sys, e: Event, s': Sys | OnceInv(p)(s) && Single(p)(s, e) && Next(s, e, s') ensures OnceInv(p)(s') {
      OnceStepIff(s, e, s', p);
    }
    RunKeeps(s, run, OnceInv(p), Single(p));
    var s' := Exec(s, run).value;
    assert RowOk(s'.db, s'.db.payouts[p]);
  }

  // ---- statuses ----

  /** The status of a payout's transaction when nobody works on the payout. */
  function Matching(status: Status): Status {
    if status == ManualReview then Processing else status
  }

  /** The fallback has failed the transaction and not yet the payout. */
  predicate Between(phase: Phase) {
    phase == FallbackAudit || phase == FallbackPayout
  }

  ghost predicate Unlived(s: Sys, p: Uuid) {
    forall h :: !Live(s, h, p)
  }

  ghost predicate Agree(s: Sys, p: Uuid)
    requires p in s.db.payouts && s.db.payouts[p].tx in s.db.txs
  {
    var tx := s.db.txs[s.db.payouts[p].tx].status;
    && (forall h | Live(s, h, p) :: tx == if Between(s.claims[h].phase) then Failed else Processing)
    && (Unlived(s, p) ==> tx == Matching(s.db.payouts[p].status))
  }

  ghost predicate AgreeOk(s: Sys, p: Uuid) {
    Wellformed(s) && HeldOk(s, p) && (p in s.db.payouts ==> s.db.payouts[p].tx in s.db.txs && Agree(s, p))
  }

  ghost function AgreeInv(p: Uuid): Sys -> bool {
    (s: Sys) => AgreeOk(s, p)
  }

  /** This payout is recovered only unheld; its fallback does not lose its read, its transaction write or
      its payout write, and is not given up between the last two. */
  predicate KeepsAgreement(s: Sys, e: Event, p: Uuid) {
    && SingleOn(s, e, p)
    && (e.Fallback? && e.h.payout == p && !e.succeeds ==> In(s, e.h, FallbackRelease) || In(s, e.h, FallbackAudit))
    && (e.GiveUp? && e.h.payout == p && e.h in s.claims ==> !Between(s.claims[e.h].phase))
  }

  function Agreeable(p: Uuid): (Sys, Event) -> bool {
    (s: Sys, e: Event) => KeepsAgreement(s, e, p)
  }

  lemma AgreeKept(s: Sys, s': Sys, p: Uuid)
    requires p in s.db.payouts && s.db.payouts[p].tx in s.db.txs && Agree(s, p) && Untouched(s, s', p)
    ensures Agree(s', p)
  {
    forall h ensures Live(s', h, p) <==> Live(s, h, p) {
    }
  }

  /** Both rows have been given one status; whoever holds the payout has just claimed it. */
  lemma WrittenAgree(s: Sys, p: Uuid, status: Status)
    requires p in s.db.payouts && s.db.payouts[p].tx in s.db.txs && status != ManualReview
    requires s.db.payouts[p].status == status && s.db.txs[s.db.payouts[p].tx].status == status
    requires forall h | Live(s, h, p) :: s.claims[h].phase == Claimed && status == Processing
    ensures Agree(s, p)
  {
  }

  /** The transaction is left alone and one claim moves on or goes. */
  lemma MovedAgree(s: Sys, s': Sys, h: Holder)
    requires HeldOk(s, h.payout) && Live(s, h, h.payout) && h.payout in s'.db.payouts
    requires s'.db.payouts[h.payout].tx in s'.db.txs
    requires s'.claims == s.claims - {h} || (h in s'.claims && s'.claims == s.claims[h := s'.claims[h]])
    requires var tx := s'.db.txs[s'.db.payouts[h.payout].tx].status;
             if Live(s', h, h.payout) then tx == (if Between(s'.claims[h].phase) then Failed else Processing)
             else tx == Matching(s'.db.payouts[h.payout].status)
    ensures Agree(s', h.payout)
  {
    SoleLive(s, h.payout, h);
    assert forall g | Live(s', g, h.payout) :: g == h;
  }

  /** A worker whose payout is parked goes without a trace. */
  lemma MarkedGone(s: Sys, s': Sys, h: Holder)
    requires In(s, h, Marked) && s'.claims == s.claims - {h}
    requires h.payout in s.db.payouts && s.db.payouts[h.payout].tx in s.db.txs && Agree(s, h.payout)
    requires s'.db.payouts == s.db.payouts && s'.db.txs == s.db.txs
    ensures Agree(s', h.payout)
  {
    forall g ensures Live(s', g, h.payout) <==> Live(s, g, h.payout) {
    }
  }

  // ---- steps that write both rows ----

  predicate WritesBoth(e: Event) {
    || e.DoClaim? || e.DoRequeue? || e.DoRecover? || e.DoSettle? || e.DoConfirm? || e.DoFail? || e.DoRefund?
  }

  /** Payout and transaction stand at the status the event writes. */
  ghost predicate BothAt(s: Sys, e: Event, s': Sys, p: Uuid) {
    && p in s'.db.payouts && s'.db.payouts[p].tx in s'.db.txs && Written(s, e).Some?
    && s'.db.payouts[p].status == s'.db.txs[s'.db.payouts[p].tx].status == Written(s, e).value
  }

  /** A payout and its transaction have been given one status. */
  predicate BothSet(d: Db, d': Db, p: Uuid, t: Uuid, status: Status) {
    && p in d.payouts && p in d'.payouts && d'.payouts[p].tx == d.payouts[p].tx
    && t in d'.txs && d'.payouts[p].status == d'.txs[t].status == status
  }

  lemma MoveSets(db: Db, p: Uuid, row: Payout, status: Status, action: Action)
    requires MoveRow(db, p, row, status, action).Ok?
    ensures BothSet(db, MoveRow(db, p, row, status, action).value, p, row.tx, status)
  {
  }

  lemma SettleSets(db: Db, p: Uuid, row: Payout, action: Action, ref: Option<string>)
    requires Settle(db, p, row, action, ref).Ok?
    ensures BothSet(db, Settle(db, p, row, action, ref).value, p, row.tx, Completed)
  {
    SettleChanges(db, p, row, action, ref);
  }

  lemma FailSets(db: Db, p: Uuid, row: Payout, d: Db)
    requires FailPayout(db, p, row) == Ok(d) && p in db.payouts && db.payouts[p].tx == row.tx
    ensures BothSet(db, d, p, row.tx, Failed)
  {
    FailChanges(db, p, row);
  }

  lemma RefundSets(db: Db, p: Uuid)
    requires RefundReview(db, p).Ok? && p in db.payouts
    ensures BothSet(db, RefundReview(db, p).value, p, db.payouts[p].tx, Failed)
  {
    RefundChanges(db, p);
  }

  lemma WorkerMovesBoth(s: Sys, e: Event, s': Sys)
    requires ClaimsOk(s) && Next(s, e, s') && (e.DoClaim? || e.DoRequeue?)
    ensures BothAt(s, e, s', e.h.payout)
  {
    match e
    case DoClaim(h) =>
      ClaimIs(s, h, s');
      MoveSets(s.db, h.payout, s.db.payouts[h.payout], Processing, ProcessingStarted);
    case DoRequeue(h) =>
      RequeueIs(s, h, s');
      MoveSets(s.db, h.payout, s.claims[h].row, Pending, RequeueClaimed);
  }

  lemma SettlesBoth(s: Sys, h: Holder, s': Sys)
    requires ClaimsOk(s) && Next(s, DoSettle(h), s')
    ensures BothAt(s, DoSettle(h), s', h.payout)
  {
    SettleIs(s, h, s');
    SettleSets(s.db, h.payout, s.claims[h].row, PayoutCompleted, Some(s.claims[h].phase.gatewayRef));
  }

  lemma FailsBoth(s: Sys, h: Holder, s': Sys)
    requires ClaimsOk(s) && Next(s, DoFail(h), s')
    ensures BothAt(s, DoFail(h), s', h.payout)
  {
    FailIs(s, h, s');
    assert s.claims[h].row.tx == s.db.payouts[h.payout].tx;
    FailSets(s.db, h.payout, s.claims[h].row, s'.db);
  }

  lemma RecoversBoth(s: Sys, p: Uuid, s': Sys)
    requires Next(s, DoRecover(p), s')
    ensures BothAt(s, DoRecover(p), s', p)
  {
    RecoverIs(s, p, s');
    MoveSets(s.db, p, s.db.payouts[p], Pending, RequeueStale);
  }

  lemma ConfirmsBoth(s: Sys, p: Uuid, replacementRef: Option<string>, s': Sys)
    requires Next(s, DoConfirm(p, replacementRef), s')
    ensures BothAt(s, DoConfirm(p, replacementRef), s', p)
  {
    var ref := ConfirmIs(s, p, replacementRef, s');
    SettleSets(s.db, p, s.db.payouts[p], ReviewConfirmed, ref);
  }

  lemma RefundsBoth(s: Sys, p: Uuid, s': Sys)
    requires Next(s, DoRefund(p), s')
    ensures BothAt(s, DoRefund(p), s', p)
  {
    RefundIs(s, p, s');
    RefundSets(s.db, p);
  }

  lemma WritesBothRows(s: Sys, e: Event, s': Sys, p: Uuid)
    requires ClaimsOk(s) && Next(s, e, s') && Subject(e) == Some(p) && WritesBoth(e)
    ensures BothAt(s, e, s', p)
  {
    match e
    case DoRecover(_) => RecoversBoth(s, p, s');
    case DoConfirm(_, replacementRef) => ConfirmsBoth(s, p, replacementRef, s');
    case DoRefund(_) => RefundsBoth(s, p, s');
    case DoSettle(h) => SettlesBoth(s, h, s');
    case DoFail(h) => FailsBoth(s, h, s');
    case _ => WorkerMovesBoth(s, e, s');
  }

  /** After such a step nobody works on the payout but its new claimant. */
  lemma WritersLive(s: Sys, e: Event, s': Sys, p: Uuid)
    requires HeldOk(s, p) && Next(s, e, s') && Subject(e) == Some(p) && WritesBoth(e) && SingleOn(s, e, p)
    ensures forall h | Live(s', h, p) :: e == DoClaim(h) && s'.claims[h].phase == Claimed
  {
    StepShaped(s, e, s');
    if Own(e).Some? && !e.DoClaim? {
      SoleLive(s, p, e.h);
    }
  }

  lemma AgreeWritten(s: Sys, e: Event, s': Sys, p: Uuid)
    requires ClaimsOk(s) && HeldOk(s, p) && Next(s, e, s') && Subject(e) == Some(p) && WritesBoth(e)
    requires SingleOn(s, e, p)
    ensures p in s'.db.payouts && s'.db.payouts[p].tx in s'.db.txs && Agree(s', p)
  {
    WritesBothRows(s, e, s', p);
    WritersLive(s, e, s', p);
    WrittenAgree(s', p, Written(s, e).value);
  }

  // ---- steps of the worker alone ----

  lemma AgreeLocal(s: Sys, e: Event, s': Sys)
    requires IsLocal(e) && HeldOk(s, e.h.payout) && Next(s, e, s')
    requires e.h.payout in s.db.payouts && s.db.payouts[e.h.payout].tx in s.db.txs && Agree(s, e.h.payout)
    ensures e.h in s.claims && s'.db == s.db
    ensures Agree(s', e.h.payout) <==> !(e.GiveUp? && Between(s.claims[e.h].phase))
  {
    LocalIs(s, e, s');
    StepFramed(s, e, s');
    if In(s, e.h, Marked) {
      MarkedGone(s, s', e.h);
    } else {
      assert Live(s, e.h, e.h.payout);
      SoleLive(s, e.h.payout, e.h);
      if e.GiveUp? {
        DroppedIff(s, s', e.h);
      } else {
        MovedAgree(s, s', e.h);
      }
    }
  }

  /** A dropped live claim leaves the payout PROCESSING, so the transaction must be PROCESSING too. */
  lemma DroppedIff(s: Sys, s': Sys, h: Holder)
    requires HeldOk(s, h.payout) && Live(s, h, h.payout) && s'.claims == s.claims - {h}
    requires h.payout in s.db.payouts && s.db.payouts[h.payout].tx in s.db.txs && Agree(s, h.payout)
    requires s'.db.payouts == s.db.payouts && s'.db.txs == s.db.txs
    ensures Agree(s', h.payout) <==> !Between(s.claims[h].phase)
  {
    SoleLive(s, h.payout, h);
    assert Unlived(s', h.payout);
  }

  lemma AgreeReview(s: Sys, e: Event, s': Sys)
    requires (e.MarkReview? || e.AuditReview?) && HeldOk(s, e.h.payout) && Next(s, e, s')
    requires e.h.payout in s.db.payouts && s.db.payouts[e.h.payout].tx in s.db.txs && Agree(s, e.h.payout)
    ensures e.h.payout in s'.db.payouts && s'.db.payouts[e.h.payout].tx in s'.db.txs && Agree(s', e.h.payout)
  {
    if e.MarkReview? {
      MarkIs(s, e.h, s');
      assert Live(s, e.h, e.h.payout);
      MovedAgree(s, s', e.h);
    } else {
      NoteIs(s, e.h, s');
      MarkedGone(s, s', e.h);
    }
  }

  // ---- the fallback ----

  lemma AgreeFallback(s: Sys, h: Holder, succeeds: bool, s': Sys)
    requires ClaimsOk(s) && HeldOk(s, h.payout) && Next(s, Fallback(h, succeeds), s')
    requires h.payout in s.db.payouts && s.db.payouts[h.payout].tx in s.db.txs && Agree(s, h.payout)
    ensures h.payout in s'.db.payouts && s'.db.payouts[h.payout].tx in s'.db.txs
    ensures Agree(s', h.payout) <==> succeeds || In(s, h, FallbackRelease) || In(s, h, FallbackAudit)
  {
    FallbackIs(s, h, succeeds, s');
    assert Live(s, h, h.payout);
    SoleLive(s, h.payout, h);
    if In(s, h, FallbackPayout) {
      ClosedIff(s, h, succeeds, s');
    } else {
      PassedIff(s, h, succeeds, s');
    }
  }

  lemma ClosedIff(s: Sys, h: Holder, succeeds: bool, s': Sys)
    requires HeldOk(s, h.payout) && In(s, h, FallbackPayout) && FallbackStep(s, h, succeeds) == Some(s')
    requires h.payout in s.db.payouts && s.db.payouts[h.payout].tx in s.db.txs && Agree(s, h.payout)
    ensures h.payout in s'.db.payouts && s'.db.payouts[h.payout].tx in s'.db.txs
    ensures Agree(s', h.payout) <==> succeeds
  {
    assert Live(s, h, h.payout);
    if succeeds {
      MovedAgree(s, s', h);
    } else {
      DroppedIff(s, s', h);
    }
  }

  /** What a write before the last makes of the transaction's status. */
  lemma PassedTx(s: Sys, h: Holder, succeeds: bool, s': Sys)
    requires h in s.claims && !In(s, h, FallbackPayout) && FallbackStep(s, h, succeeds) == Some(s')
    requires s.claims[h].row.tx in s.db.txs
    ensures var t := s.claims[h].row.tx;
            t in s'.db.txs &&
            s'.db.txs[t].status == if succeeds && In(s, h, FallbackTx) then Failed else s.db.txs[t].status
  {
  }

  /** Where it sends the worker. */
  lemma PassedPhase(s: Sys, h: Holder, succeeds: bool, s': Sys)
    requires h in s.claims && !In(s, h, FallbackPayout) && FallbackStep(s, h, succeeds) == Some(s')
    requires h.payout in s.db.payouts && s.claims[h].row.tx in s.db.txs
    ensures h in s'.claims
    ensures s'.claims[h].phase ==
            if In(s, h, FallbackRead) then (if succeeds then FallbackRelease else FallbackPayout)
            else if In(s, h, FallbackRelease) then FallbackTx
            else if In(s, h, FallbackTx) then (if succeeds then FallbackAudit else FallbackPayout)
            else FallbackPayout
  {
  }

  lemma PassedIff(s: Sys, h: Holder, succeeds: bool, s': Sys)
    requires ClaimsOk(s) && HeldOk(s, h.payout) && h in s.claims && !In(s, h, FallbackPayout)
    requires FallbackStep(s, h, succeeds) == Some(s')
    requires h.payout in s.db.payouts && s.db.payouts[h.payout].tx in s.db.txs && Agree(s, h.payout)
    ensures h.payout in s'.db.payouts && s'.db.payouts[h.payout].tx in s'.db.txs
    ensures Agree(s', h.payout) <==> succeeds || In(s, h, FallbackRelease) || In(s, h, FallbackAudit)
  {
    MiddleWrites(s, h, succeeds, s');
    PassedTx(s, h, succeeds, s');
    PassedPhase(s, h, succeeds, s');
    assert Live(s, h, h.payout) && Live(s', h, h.payout);
    if succeeds || In(s, h, FallbackRelease) || In(s, h, FallbackAudit) {
      MovedAgree(s, s', h);
    }
  }

  // ---- every step ----

  lemma AgreeAbout(s: Sys, e: Event, s': Sys, p: Uuid)
    requires AgreeOk(s, p) && Next(s, e, s') && Subject(e) == Some(p) && SingleOn(s, e, p)
    ensures p in s'.db.payouts && s'.db.payouts[p].tx in s'.db.txs && (Agree(s', p) <==> KeepsAgreement(s, e, p))
  {
    if e.DoRequest? {
      AgreeRequested(s, e, s');
    } else {
      SubjectExists(s, e, s', p);
      AgreeExisting(s, e, s', p);
    }
  }

  lemma AgreeExisting(s: Sys, e: Event, s': Sys, p: Uuid)
    requires ClaimsOk(s) && HeldOk(s, p) && p in s.db.payouts && s.db.payouts[p].tx in s.db.txs && Agree(s, p)
    requires Next(s, e, s') && Subject(e) == Some(p) && SingleOn(s, e, p) && !e.DoRequest?
    ensures p in s'.db.payouts && s'.db.payouts[p].tx in s'.db.txs && (Agree(s', p) <==> KeepsAgreement(s, e, p))
  {
    if WritesBoth(e) {
      AgreeWritten(s, e, s', p);
    } else if IsLocal(e) {
      AgreeLocal(s, e, s');
    } else if e.Fallback? {
      AgreeFallback(s, e.h, e.succeeds, s');
    } else {
      AgreeReview(s, e, s');
    }
  }

  lemma AgreeRequested(s: Sys, e: Event, s': Sys)
    requires ClaimsOk(s) && e.DoRequest? && Next(s, e, s')
    ensures e.pid in s'.db.payouts && s'.db.payouts[e.pid].tx in s'.db.txs && Agree(s', e.pid)
  {
    RequestIs(s, e.pid, e.tid, e.req, s');
    RequestChanges(s.db, e.pid, e.tid, e.req);
    ClaimsKept(s, e, s');
    assert forall h | h in s'.claims :: h.payout != e.pid;
  }

  lemma AgreeElsewhere(s: Sys, e: Event, s': Sys, p: Uuid)
    requires AgreeOk(s, p) && Next(s, e, s') && Subject(e) != Some(p)
    ensures p in s'.db.payouts ==> s'.db.payouts[p].tx in s'.db.txs && Agree(s', p)
  {
    if p in s.db.payouts {
      Elsewhere(s, e, s', p);
      AgreeKept(s, s', p);
    } else {
      NoneAppears(s, e, s', p);
    }
  }

  /** A step keeps the claims on a payout in order and its status in agreement with its transaction's if and
      only if it satisfies KeepsAgreement; nothing is asked of other payouts. */
  lemma AgreeStepIff(s: Sys, e: Event, s': Sys, p: Uuid)
    requires AgreeOk(s, p) && Next(s, e, s')
    ensures AgreeOk(s', p) <==> KeepsAgreement(s, e, p)
  {
    WellformedStep(s, e, s');
    HeldStepIff(s, e, s', p);
    if SingleOn(s, e, p) {
      AgreeNext(s, e, s', p);
    }
  }

  lemma AgreeNext(s: Sys, e: Event, s': Sys, p: Uuid)
    requires AgreeOk(s, p) && Next(s, e, s') && SingleOn(s, e, p)
    ensures (p in s'.db.payouts ==> s'.db.payouts[p].tx in s'.db.txs && Agree(s', p)) <==> KeepsAgreement(s, e, p)
  {
    if Subject(e) == Some(p) {
      AgreeAbout(s, e, s', p);
    } else {
      AgreeElsewhere(s, e, s', p);
    }
  }

  /** In every run of such steps payout and transaction have the same status, a review pairing with
      PROCESSING, except that a fallback fails the transaction first. */
  lemma StatusesAgree(s: Sys, run: seq<Event>, p: Uuid)
    requires Init(s) && Exec(s, run).Some? && Along(s, run, Agreeable(p))
    requires p in Exec(s, run).value.db.payouts
    ensures var s' := Exec(s, run).value;
            var row := s'.db.payouts[p];
            && row.tx in s'.db.txs
            && s'.db.txs[row.tx].status ==
               if exists h :: Live(s', h, p) && Between(s'.claims[h].phase) then Failed else Matching(row.status)
  {
    InitWellformed(s);
    assert AgreeInv(p)(s);
    forall s: Sys, e: Event, s': Sys | AgreeInv(p)(s) && Agreeable(p)(s, e) && Next(s, e, s')
      ensures AgreeInv(p)(s')
    {
      AgreeStepIff(s, e, s', p);
    }
    RunKeeps(s, run, AgreeInv(p), Agreeable(p));
    AgreeSays(Exec(s, run).value, p);
  }

  lemma ProtocolAgrees(s: Sys, p: Uuid)
    requires ProtocolInv(s)
    ensures AgreeOk(s, p)
  {
    ProtocolHeld(s, p);
    if p in s.db.payouts {
      assert PayoutOk(s, p);
      PayoutAgrees(s, p);
    }
  }

  lemma PayoutAgrees(s: Sys, p: Uuid)
    requires p in s.db.payouts && s.db.payouts[p].tx in s.db.txs && PayoutOk(s, p)
    ensures Agree(s, p)
  {
  }

  lemma AgreeSays(s: Sys, p: Uuid)
    requires AgreeOk(s, p) && p in s.db.payouts
    ensures s.db.txs[s.db.payouts[p].tx].status ==
            if exists h :: Live(s, h, p) && Between(s.claims[h].phase) then Failed
            else Matching(s.db.payouts[p].status)
  {
    if h :| Live(s, h, p) {
      SoleLive(s, p, h);
    }
  }
}
