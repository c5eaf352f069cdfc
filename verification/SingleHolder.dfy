/**
 What "single holder" alone gives, payout by payout and with no assumption on fallbacks, lost writes or
 other payouts: a claim that is still live is on a PROCESSING row and is the only one, final statuses
 never change, and a parked payout is never sent again.
 */
module SingleHolder {
  import opened Results
  import opened Tables
  import opened Runs
  import opened Deltas
  import opened Schema
  import opened Steps
  import opened PayoutProtocol

  predicate Final(s: Status) {
    s == Completed || s == Failed
  }

  /** A payout the gateway must not see again: settled, failed or parked for review. */
  predicate Parked(s: Status) {
    Final(s) || s == ManualReview
  }

  /** What a claim says about its row. */
  predicate Seen(s: Sys, h: Holder)
    requires h in s.claims
  {
    && h.payout in s.db.payouts
    && if s.claims[h].phase == Marked then Parked(s.db.payouts[h.payout].status)
       else s.db.payouts[h.payout].status == Processing
  }

  /** The claims on one payout: live ones on a PROCESSING row and at most one of them; a worker that
      has only its review note left to write finds the payout parked. */
  ghost predicate HeldOk(s: Sys, p: Uuid) {
    && (forall h | h in s.claims && h.payout == p ::
          Seen(s, h))
    && (forall g, h | Live(s, g, p) && Live(s, h, p) :: g == h)
  }

  /** Stale recovery of this payout finds it unheld. */
  predicate SingleOn(s: Sys, e: Event, p: Uuid) {
    e == DoRecover(p) ==> forall h | h in s.claims :: h.payout != p
  }

  function Single(p: Uuid): (Sys, Event) -> bool {
    (s: Sys, e: Event) => SingleOn(s, e, p)
  }

  lemma ProtocolHeld(s: Sys, p: Uuid)
    requires ProtocolInv(s)
    ensures HeldOk(s, p)
  {
    forall h | h in s.claims && h.payout == p ensures Seen(s, h) {
      assert PayoutOk(s, p);
    }
    if exists h :: h in s.claims && h.payout == p {
      assert PayoutOk(s, p);
    }
  }

  // ---- the invariant ----

  /** The row and the claims on a payout are as they were. */
  ghost predicate SameHold(s: Sys, s': Sys, p: Uuid) {
    && (p in s.db.payouts ==> p in s'.db.payouts && s'.db.payouts[p].status == s.db.payouts[p].status)
    && (forall h: Holder | h.payout == p :: h in s'.claims <==> h in s.claims)
    && (forall h | h in s.claims && h.payout == p :: s'.claims[h].phase == s.claims[h].phase)
  }

  lemma HeldKept(s: Sys, s': Sys, p: Uuid)
    requires HeldOk(s, p) && SameHold(s, s', p)
    ensures HeldOk(s', p)
  {
    forall g, h | Live(s', g, p) && Live(s', h, p) ensures g == h {
      assert Live(s, g, p) && Live(s, h, p);
    }
  }

  lemma ClaimsElsewhere(s: Sys, e: Event, s': Sys, p: Uuid)
    requires Next(s, e, s') && Subject(e) != Some(p)
    ensures forall h: Holder | h.payout == p :: h in s'.claims <==> h in s.claims
    ensures forall h | h in s.claims && h.payout == p :: s'.claims[h].phase == s.claims[h].phase
  {
    Others(s, e, s');
  }

  lemma HeldOther(s: Sys, e: Event, s': Sys, p: Uuid)
    requires Wellformed(s) && HeldOk(s, p) && Next(s, e, s') && Subject(e) != Some(p)
    ensures HeldOk(s', p)
  {
    ClaimsElsewhere(s, e, s', p);
    if p in s.db.payouts {
      RowsStay(s, e, s', p);
    }
    HeldKept(s, s', p);
  }

  /** How the claims on a payout and its status may move together. */
  ghost predicate Moves(s: Sys, s': Sys, h: Holder) {
    && h in s.claims && h.payout in s.db.payouts && h.payout in s'.db.payouts
    && (s'.claims == s.claims - {h} || (h in s'.claims && s'.claims == s.claims[h := s'.claims[h]]))
    && var (was, now) := (s.db.payouts[h.payout].status, s'.db.payouts[h.payout].status);
       if s.claims[h].phase == Marked then s'.claims == s.claims - {h} && now == was
       else if h in s'.claims then (if s'.claims[h].phase == Marked then now == ManualReview else now == was)
       else now == was || now == Pending || Final(now)
  }

  /** A live claim is the only claim on its payout. */
  lemma SoleLive(s: Sys, p: Uuid, h: Holder)
    requires HeldOk(s, p) && Live(s, h, p)
    ensures forall g | g in s.claims && g.payout == p :: g == h
    ensures p in s.db.payouts && s.db.payouts[p].status == Processing
  {
    forall g | g in s.claims && g.payout == p ensures g == h {
      if s.claims[g].phase != Marked {
        assert Live(s, g, p);
      }
    }
  }

  lemma MovesKeep(s: Sys, s': Sys, h: Holder)
    requires HeldOk(s, h.payout) && Moves(s, s', h)
    ensures HeldOk(s', h.payout)
  {
    var p := h.payout;
    if s.claims[h].phase != Marked {
      SoleLive(s, p, h);
    }
    forall g, k | Live(s', g, p) && Live(s', k, p) ensures g == k {
      assert Live(s, g, p) && Live(s, k, p);
    }
  }

  /** Every worker event but a claim is such a move. */
  lemma OwnMoves(s: Sys, e: Event, s': Sys)
    requires Own(e).Some? && !e.DoClaim? && Next(s, e, s') && OnPayouts(s)
    ensures Moves(s, s', e.h)
  {
    if IsLocal(e) {
      LocalMoves(s, e, s');
    } else if e.Fallback? {
      FallbackMoves(s, e, s');
    } else {
      WorkerMoves(s, e, s');
    }
  }

  lemma LocalMoves(s: Sys, e: Event, s': Sys)
    requires IsLocal(e) && Next(s, e, s') && OnPayouts(s)
    ensures Moves(s, s', e.h)
  {
    StepShaped(s, e, s');
  }

  lemma FallbackMoves(s: Sys, e: Event, s': Sys)
    requires e.Fallback? && Next(s, e, s') && OnPayouts(s)
    ensures Moves(s, s', e.h)
  {
    StepShaped(s, e, s');
  }

  lemma WorkerMoves(s: Sys, e: Event, s': Sys)
    requires IsWorker(e) && !e.DoClaim? && Next(s, e, s') && OnPayouts(s)
    ensures Moves(s, s', e.h)
  {
    StepShaped(s, e, s');
  }

  lemma ClaimHeld(s: Sys, h: Holder, s': Sys)
    requires HeldOk(s, h.payout) && Next(s, DoClaim(h), s')
    ensures HeldOk(s', h.payout)
  {
    StepShaped(s, DoClaim(h), s');
    assert forall g | g in s.claims :: g.payout != h.payout;
  }

  /** Resolving a review leaves it parked and touches no claim. */
  lemma OperatorHeld(s: Sys, e: Event, s': Sys)
    requires IsOperator(e) && HeldOk(s, e.pid) && Next(s, e, s')
    ensures HeldOk(s', e.pid) <==> SingleOn(s, e, e.pid)
  {
    StepShaped(s, e, s');
    forall g, h | Live(s', g, e.pid) && Live(s', h, e.pid) ensures g == h {
      assert Live(s, g, e.pid) && Live(s, h, e.pid);
    }
  }

  predicate OnPayouts(s: Sys) {
    forall h | h in s.claims :: h.payout in s.db.payouts
  }

  lemma RequestHeld(s: Sys, e: Event, s': Sys)
    requires OnPayouts(s) && e.DoRequest? && Next(s, e, s')
    ensures HeldOk(s', e.pid)
  {
    RequestIs(s, e.pid, e.tid, e.req, s');
    RequestChanges(s.db, e.pid, e.tid, e.req);
    StepFramed(s, e, s');
    assert forall h | h in s'.claims :: h.payout != e.pid;
  }

  /** A step keeps the claims on a payout in order if and only if it is not the recovery of that
      payout while somebody holds it. */
  lemma HeldStepIff(s: Sys, e: Event, s': Sys, p: Uuid)
    requires Wellformed(s) && HeldOk(s, p) && Next(s, e, s')
    ensures HeldOk(s', p) <==> SingleOn(s, e, p)
  {
    if Subject(e) != Some(p) {
      HeldOther(s, e, s', p);
    } else {
      HeldOwn(s, e, s', p);
    }
  }

  lemma HeldOwn(s: Sys, e: Event, s': Sys, p: Uuid)
    requires OnPayouts(s) && HeldOk(s, p) && Next(s, e, s') && Subject(e) == Some(p)
    ensures HeldOk(s', p) <==> SingleOn(s, e, p)
  {
    if e.DoRequest? {
      RequestHeld(s, e, s');
    } else {
      HeldAbout(s, e, s', p);
    }
  }

  lemma HeldAbout(s: Sys, e: Event, s': Sys, p: Uuid)
    requires OnPayouts(s) && HeldOk(s, p) && Next(s, e, s') && Subject(e) == Some(p) && !e.DoRequest?
    ensures HeldOk(s', p) <==> SingleOn(s, e, p)
  {
    if IsOperator(e) {
      OperatorHeld(s, e, s');
    } else {
      WorkerHeld(s, e, s');
    }
  }

  lemma WorkerHeld(s: Sys, e: Event, s': Sys)
    requires OnPayouts(s) && Own(e).Some? && HeldOk(s, e.h.payout) && Next(s, e, s')
    ensures HeldOk(s', e.h.payout)
  {
    if e.DoClaim? {
      ClaimHeld(s, e.h, s');
    } else {
      OwnMoves(s, e, s');
      MovesKeep(s, s', e.h);
    }
  }

  // ---- final statuses ----

  predicate Resolves(e: Event, p: Uuid) {
    (e.DoConfirm? || e.DoRefund?) && e.pid == p
  }

  predicate AtRest(s: Sys, e: Event, p: Uuid)
    requires p in s.db.payouts
  {
    Final(s.db.payouts[p].status) || (s.db.payouts[p].status == ManualReview && !Resolves(e, p))
  }

  /** COMPLETED and FAILED payouts never change; a payout leaves MANUAL_REVIEW only by resolution. */
  lemma FinalStays(s: Sys, e: Event, s': Sys, p: Uuid)
    requires Wellformed(s) && HeldOk(s, p) && Next(s, e, s') && p in s.db.payouts
    ensures p in s'.db.payouts
    ensures AtRest(s, e, p) ==> s'.db.payouts[p] == s.db.payouts[p]
  {
    RowsStay(s, e, s', p);
    if Subject(e) == Some(p) && AtRest(s, e, p) {
      FinalSubject(s, e, s', p);
    }
  }

  lemma FinalSubject(s: Sys, e: Event, s': Sys, p: Uuid)
    requires HeldOk(s, p) && p in s.db.payouts && Next(s, e, s') && Subject(e) == Some(p) && AtRest(s, e, p)
    ensures s'.db.payouts == s.db.payouts
  {
    StepGuarded(s, e, s', p);
    StepShaped(s, e, s');
    RestingUnwritten(s, e, p);
  }

  /** Nobody is at a point from which a resting payout could be written. */
  lemma RestingUnwritten(s: Sys, e: Event, p: Uuid)
    requires HeldOk(s, p) && p in s.db.payouts && Guarded(s, e) && Subject(e) == Some(p) && AtRest(s, e, p)
    ensures Written(s, e).None?
  {
    if Own(e).Some? {
      assert e.h in s.claims ==> s.claims[e.h].phase == Marked;
    }
  }

  lemma ResolvedStatus(s: Sys, e: Event, s': Sys)
    requires (e.DoConfirm? || e.DoRefund?) && Next(s, e, s')
    ensures e.pid in s'.db.payouts && Final(s'.db.payouts[e.pid].status)
  {
    StepShaped(s, e, s');
  }

  // ---- sends ----

  function Sends(sent: seq<Uuid>, p: Uuid): nat {
    if sent == [] then 0 else Sends(sent[..|sent| - 1], p) + (if sent[|sent| - 1] == p then 1 else 0)
  }

  lemma {:induction false} SendsAbsent(sent: seq<Uuid>, p: Uuid)
    ensures Sends(sent, p) == 0 <==> p !in sent
  {
    if sent != [] {
      SendsAbsent(sent[..|sent| - 1], p);
      assert sent == sent[..|sent| - 1] + [sent[|sent| - 1]];
    }
  }

  lemma SendsAppend(sent: seq<Uuid>, q: Uuid, p: Uuid)
    ensures Sends(sent + [q], p) == Sends(sent, p) + (if q == p then 1 else 0)
  {
    assert (sent + [q])[..|sent|] == sent;
  }

  lemma SentBy(s: Sys, e: Event, s': Sys, p: Uuid)
    requires Next(s, e, s')
    ensures s'.sent == if IsSend(e) then s.sent + [e.h.payout] else s.sent
    ensures Sends(s'.sent, p) == Sends(s.sent, p) + (if IsSend(e) && e.h.payout == p then 1 else 0)
    ensures IsSend(e) ==> In(s, e.h, Claimed)
  {
    StepFramed(s, e, s');
    if IsSend(e) {
      LocalIs(s, e, s');
      SendsAppend(s.sent, e.h.payout, p);
    }
  }

  ghost predicate ParkedAt(s: Sys, p: Uuid, n: nat) {
    Wellformed(s) && HeldOk(s, p) && p in s.db.payouts && Parked(s.db.payouts[p].status) && Sends(s.sent, p) == n
  }

  ghost function ParkedInv(p: Uuid, n: nat): Sys -> bool {
    (s: Sys) => ParkedAt(s, p, n)
  }

  lemma ParkedStep(s: Sys, e: Event, s': Sys, p: Uuid, n: nat)
    requires ParkedAt(s, p, n) && SingleOn(s, e, p) && Next(s, e, s')
    ensures ParkedAt(s', p, n)
  {
    WellformedStep(s, e, s');
    HeldStepIff(s, e, s', p);
    ParkedUnsent(s, e, s', p);
    ParkedStays(s, e, s', p);
  }

  lemma ParkedUnsent(s: Sys, e: Event, s': Sys, p: Uuid)
    requires HeldOk(s, p) && p in s.db.payouts && Parked(s.db.payouts[p].status) && Next(s, e, s')
    ensures Sends(s'.sent, p) == Sends(s.sent, p)
  {
    SentBy(s, e, s', p);
  }

  lemma ParkedStays(s: Sys, e: Event, s': Sys, p: Uuid)
    requires Wellformed(s) && HeldOk(s, p) && Next(s, e, s') && p in s.db.payouts && Parked(s.db.payouts[p].status)
    ensures p in s'.db.payouts && Parked(s'.db.payouts[p].status)
  {
    FinalStays(s, e, s', p);
    if Resolves(e, p) {
      ResolvedStatus(s, e, s');
    }
  }

  /** Once the settlement or the review mark after a send has been written, the payout is never sent
      again, and it stays settled, failed or in review. */
  lemma NeverSentAgain(s: Sys, run: seq<Event>, p: Uuid)
    requires Wellformed(s) && HeldOk(s, p) && p in s.db.payouts && Parked(s.db.payouts[p].status)
    requires Exec(s, run).Some? && Along(s, run, Single(p))
    ensures var s' := Exec(s, run).value;
            p in s'.db.payouts && Parked(s'.db.payouts[p].status) && Sends(s'.sent, p) == Sends(s.sent, p)
  {
    var n := Sends(s.sent, p);
    forall s: Sys, e: Event, s': Sys | ParkedInv(p, n)(s) && Single(p)(s, e) && Next(s, e, s')
      ensures ParkedInv(p, n)(s')
    {
      ParkedStep(s, e, s', p, n);
    }
    RunKeeps(s, run, ParkedInv(p, n), Single(p));
  }
}
