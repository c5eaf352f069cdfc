/**
 How often the gateway is sent a payout: exactly which steps keep "at most once", exactly which states
 still allow another send, and what an answer lost after the send does.
 */
module Sending {
  import opened Results
  import opened Tables
  import opened Payouts
  import opened Runs
  import opened WorkerSteps
  import opened Deltas
  import opened Schema
  import opened Steps
  import opened PayoutProtocol
  import opened PayoutTheorems
  import opened SingleHolder

  // ---- sent at most once ----

  /** A worker lets go of a payout the gateway has taken before the payout is settled, failed or parked:
      it requeues it, gives it up, or loses the last write of its fallback. */
  predicate LetsGo(s: Sys, e: Event) {
    && (|| e.DoRequeue?
        || (e.GiveUp? && e.h in s.claims && s.claims[e.h].phase != Marked)
        || (e.Fallback? && !e.succeeds && In(s, e.h, FallbackPayout)))
    && e.h.payout in s.sent
  }

  predicate NoLostSend(s: Sys, e: Event) {
    Tame(s, e) && !LetsGo(s, e)
  }

  /** The same for one payout; nothing is asked of others, nor of the other writes of its fallback. */
  predicate KeepsSend(s: Sys, e: Event, p: Uuid) {
    SingleOn(s, e, p) && !(LetsGo(s, e) && Subject(e) == Some(p))
  }

  function Kept(p: Uuid): (Sys, Event) -> bool {
    (s: Sys, e: Event) => KeepsSend(s, e, p)
  }

  /** A payout the gateway has taken is parked, or a worker is past its send. */
  ghost predicate SentOk(s: Sys, p: Uuid) {
    && p in s.db.payouts
    && (Parked(s.db.payouts[p].status) || exists h :: Live(s, h, p) && s.claims[h].phase != Claimed)
  }

  ghost predicate SentOn(s: Sys, p: Uuid) {
    p in s.sent ==> SentOk(s, p) && Sends(s.sent, p) == 1
  }

  ghost predicate SentHere(s: Sys, p: Uuid) {
    Wellformed(s) && HeldOk(s, p) && SentOn(s, p)
  }

  ghost function SentInv(p: Uuid): Sys -> bool {
    (s: Sys) => SentHere(s, p)
  }

  /** A payout about to be sent has not been sent. */
  lemma NotYetSent(s: Sys, h: Holder)
    requires HeldOk(s, h.payout) && In(s, h, Claimed)
    ensures !SentOk(s, h.payout)
  {
    assert Live(s, h, h.payout);
    SoleLive(s, h.payout, h);
  }

  lemma SendOk(s: Sys, e: Event, s': Sys)
    requires IsSend(e) && Next(s, e, s') && e.h.payout in s.db.payouts
    ensures SentOk(s', e.h.payout)
  {
    StepShaped(s, e, s');
    assert Live(s', e.h, e.h.payout) && s'.claims[e.h].phase != Claimed;
  }

  lemma SentOther(s: Sys, e: Event, s': Sys, p: Uuid)
    requires Wellformed(s) && SentOk(s, p) && Next(s, e, s') && Subject(e) != Some(p)
    ensures SentOk(s', p)
  {
    RowsStay(s, e, s', p);
    if !Parked(s.db.payouts[p].status) {
      var g :| Live(s, g, p) && s.claims[g].phase != Claimed;
      ClaimsElsewhere(s, e, s', p);
      assert Live(s', g, p) && s'.claims[g].phase != Claimed;
    }
  }

  /** The worker past its send takes the payout on, or closes it. */
  lemma PastSendStep(s: Sys, e: Event, s': Sys, g: Holder)
    requires HeldOk(s, g.payout) && Live(s, g, g.payout) && s.claims[g].phase != Claimed && g.payout in s.sent
    requires KeepsSend(s, e, g.payout) && Next(s, e, s') && Subject(e) == Some(g.payout)
    ensures SentOk(s', g.payout)
  {
    SoleLive(s, g.payout, g);
    OwnEvent(s, e, s', g);
    PastSendOwn(s, e, s');
  }

  /** While a worker holds a payout, every step about the payout is the worker's. */
  lemma OwnEvent(s: Sys, e: Event, s': Sys, g: Holder)
    requires HeldOk(s, g.payout) && Live(s, g, g.payout) && SingleOn(s, e, g.payout) && Next(s, e, s')
    requires Subject(e) == Some(g.payout)
    ensures Own(e) == Some(g) && !e.DoClaim?
  {
    SoleLive(s, g.payout, g);
    StepGuarded(s, e, s', g.payout);
    OwnGuarded(s, e, g);
  }

  lemma OwnGuarded(s: Sys, e: Event, g: Holder)
    requires g in s.claims && g.payout in s.db.payouts && s.db.payouts[g.payout].status == Processing
    requires forall h | h in s.claims && h.payout == g.payout :: h == g
    requires SingleOn(s, e, g.payout) && Guarded(s, e) && Subject(e) == Some(g.payout) && !e.DoRequest?
    ensures Own(e) == Some(g) && !e.DoClaim?
  {
  }

  lemma PastSendOwn(s: Sys, e: Event, s': Sys)
    requires Own(e).Some? && e.h in s.claims && s.claims[e.h].phase != Claimed && s.claims[e.h].phase != Marked
    requires e.h.payout in s.db.payouts && e.h.payout in s.sent && !LetsGo(s, e) && Next(s, e, s')
    ensures SentOk(s', e.h.payout)
  {
    if IsLocal(e) {
      PastSendLocal(s, e, s');
    } else {
      PastSendWrite(s, e, s');
    }
  }

  lemma PastSendLocal(s: Sys, e: Event, s': Sys)
    requires IsLocal(e) && e.h in s.claims && s.claims[e.h].phase != Claimed && s.claims[e.h].phase != Marked
    requires e.h.payout in s.db.payouts && e.h.payout in s.sent && !LetsGo(s, e) && Next(s, e, s')
    ensures SentOk(s', e.h.payout)
  {
    LocalIs(s, e, s');
    StepFramed(s, e, s');
    assert Live(s', e.h, e.h.payout) && s'.claims[e.h].phase != Claimed;
  }

  lemma PastSendWrite(s: Sys, e: Event, s': Sys)
    requires (IsWorker(e) || e.Fallback?) && e.h in s.claims
    requires s.claims[e.h].phase != Claimed && s.claims[e.h].phase != Marked
    requires e.h.payout in s.db.payouts && e.h.payout in s.sent && !LetsGo(s, e) && Next(s, e, s')
    ensures SentOk(s', e.h.payout)
  {
    if e.Fallback? {
      PastSendFallback(s, e, s');
    } else {
      StepShaped(s, e, s');
      assert Parked(s'.db.payouts[e.h.payout].status);
    }
  }

  lemma PastSendFallback(s: Sys, e: Event, s': Sys)
    requires e.Fallback? && e.h in s.claims && e.h.payout in s.db.payouts && e.h.payout in s.sent
    requires !LetsGo(s, e) && Next(s, e, s')
    ensures SentOk(s', e.h.payout)
  {
    StepShaped(s, e, s');
    if In(s, e.h, FallbackPayout) {
      assert Parked(s'.db.payouts[e.h.payout].status);
    } else {
      assert Live(s', e.h, e.h.payout) && s'.claims[e.h].phase != Claimed;
    }
  }

  lemma SentOwn(s: Sys, e: Event, s': Sys, p: Uuid)
    requires HeldOk(s, p) && SentOk(s, p) && p in s.sent && KeepsSend(s, e, p) && Next(s, e, s')
    requires Subject(e) == Some(p)
    ensures SentOk(s', p)
  {
    if Parked(s.db.payouts[p].status) {
      if AtRest(s, e, p) {
        FinalSubject(s, e, s', p);
      } else {
        ResolvedStatus(s, e, s');
      }
    } else {
      var g :| Live(s, g, p) && s.claims[g].phase != Claimed;
      PastSendStep(s, e, s', g);
    }
  }

  lemma StillSent(s: Sys, e: Event, s': Sys, p: Uuid)
    requires Wellformed(s) && HeldOk(s, p) && SentOk(s, p) && p in s.sent && KeepsSend(s, e, p) && Next(s, e, s')
    ensures SentOk(s', p)
  {
    if Subject(e) == Some(p) {
      SentOwn(s, e, s', p);
    } else {
      SentOther(s, e, s', p);
    }
  }

  lemma SentPoint(s: Sys, e: Event, s': Sys, p: Uuid)
    requires SentHere(s, p) && KeepsSend(s, e, p) && Next(s, e, s')
    ensures SentOn(s', p)
  {
    if IsSend(e) && e.h.payout == p {
      FirstSend(s, e, s');
    } else {
      LaterOn(s, e, s', p);
    }
  }

  lemma LaterOn(s: Sys, e: Event, s': Sys, p: Uuid)
    requires SentHere(s, p) && KeepsSend(s, e, p) && Next(s, e, s') && !(IsSend(e) && e.h.payout == p)
    ensures SentOn(s', p)
  {
    SentBy(s, e, s', p);
    if p in s.sent {
      StillSent(s, e, s', p);
    }
  }

  lemma FirstSend(s: Sys, e: Event, s': Sys)
    requires IsSend(e) && SentHere(s, e.h.payout) && Next(s, e, s')
    ensures SentOk(s', e.h.payout) && Sends(s'.sent, e.h.payout) == 1
  {
    SubjectExists(s, e, s', e.h.payout);
    SentBy(s, e, s', e.h.payout);
    SendsAbsent(s.sent, e.h.payout);
    NotYetSent(s, e.h);
    SendOk(s, e, s');
  }

  /** Letting go of a sent payout leaves it neither parked nor held. */
  lemma LetGoStrays(s: Sys, e: Event, s': Sys)
    requires LetsGo(s, e) && HeldOk(s, e.h.payout) && Next(s, e, s')
    ensures e.h.payout in s'.sent && !SentOk(s', e.h.payout)
  {
    StepFramed(s, e, s');
    GoneUnparked(s, e, s');
    assert Live(s, e.h, e.h.payout);
    SoleLive(s, e.h.payout, e.h);
    assert forall g :: !Live(s', g, e.h.payout);
  }

  lemma GoneUnparked(s: Sys, e: Event, s': Sys)
    requires LetsGo(s, e) && HeldOk(s, e.h.payout) && Next(s, e, s')
    ensures e.h in s.claims && s.claims[e.h].phase != Marked && s'.claims == s.claims - {e.h}
    ensures e.h.payout in s'.db.payouts ==> !Parked(s'.db.payouts[e.h.payout].status)
  {
    StepShaped(s, e, s');
    assert Live(s, e.h, e.h.payout);
    SoleLive(s, e.h.payout, e.h);
  }

  /** A step keeps the claims on a payout in order and "sent at most once, and then parked or still worked
      on" if and only if it neither recovers the payout while held nor lets go of it after the send. */
  lemma SentStepIff(s: Sys, e: Event, s': Sys, p: Uuid)
    requires SentHere(s, p) && Next(s, e, s')
    ensures SentHere(s', p) <==> KeepsSend(s, e, p)
  {
    WellformedStep(s, e, s');
    HeldStepIff(s, e, s', p);
    if SingleOn(s, e, p) {
      SentNext(s, e, s', p);
    }
  }

  lemma SentNext(s: Sys, e: Event, s': Sys, p: Uuid)
    requires SentHere(s, p) && Next(s, e, s') && SingleOn(s, e, p)
    ensures SentOn(s', p) <==> KeepsSend(s, e, p)
  {
    if KeepsSend(s, e, p) {
      SentPoint(s, e, s', p);
    } else {
      LetGoStrays(s, e, s');
    }
  }

  /** In every run in which this payout is recovered only unheld and nobody lets go of it after its send,
      the gateway takes it at most once, acknowledged or not, whatever happens to other payouts. */
  lemma SentAtMostOnce(s: Sys, run: seq<Event>, p: Uuid)
    requires Init(s) && Exec(s, run).Some? && Along(s, run, Kept(p))
    ensures Sends(Exec(s, run).value.sent, p) <= 1
  {
    InitWellformed(s);
    assert SentInv(p)(s);
    forall s: Sys, e: Event, s': Sys | SentInv(p)(s) && Kept(p)(s, e) && Next(s, e, s') ensures SentInv(p)(s') {
      SentStepIff(s, e, s', p);
    }
    RunKeeps(s, run, SentInv(p), Kept(p));
    SendsAbsent(Exec(s, run).value.sent, p);
  }

  // ---- which states allow another send ----

  /** A tame run that sends the payout again. */
  ghost predicate Resends(s: Sys, run: seq<Event>, p: Uuid) {
    Exec(s, run).Some? && Along(s, run, Tame) && Sends(Exec(s, run).value.sent, p) > Sends(s.sent, p)
  }

  lemma ResendLater(s: Sys, e: Event, s': Sys, run: seq<Event>, p: Uuid)
    requires Next(s, e, s') && Tame(s, e) && Resends(s', run, p)
    ensures Resends(s, [e] + run, p)
  {
    RunCons(s, e, s', run, Tame);
    SentBy(s, e, s', p);
  }

  /** A claimed payout can be sent at once. */
  lemma ClaimedSend(s: Sys, h: Holder)
    requires In(s, h, Claimed)
    ensures Resends(s, [GatewayAccepts(h, "")] + [], h.payout)
  {
    var s' := At(s.(sent := s.sent + [h.payout]), h, Sent(""));
    AcceptsNext(s, h, "");
    SentBy(s, GatewayAccepts(h, ""), s', h.payout);
    RunCons(s, GatewayAccepts(h, ""), s', [], Tame);
    assert Exec(s', []) == Some(s') && Along(s', [], Tame);
  }

  lemma QueuedResend(s: Sys, p: Uuid) returns (run: seq<Event>)
    requires ProtocolInv(s) && p in s.db.payouts && s.db.payouts[p].status == Pending
    ensures Resends(s, run, p)
  {
    var h := Holder(0, p);
    var s' := ClaimCommits(s, h);
    ClaimedSend(s', h);
    run := [GatewayAccepts(h, "")] + [];
    ResendLater(s, DoClaim(h), s', run, p);
    run := [DoClaim(h)] + run;
  }

  lemma ClaimCommits(s: Sys, h: Holder) returns (s': Sys)
    requires ProtocolInv(s) && h.payout in s.db.payouts && s.db.payouts[h.payout].status == Pending
    ensures Next(s, DoClaim(h), s') && In(s', h, Claimed)
  {
    ClaimMoves(s, h);
    ClaimNext(s, h);
    s' := s.(db := MoveRow(s.db, h.payout, s.db.payouts[h.payout], Processing, ProcessingStarted).value,
             claims := s.claims[h := Claim(s.db.payouts[h.payout], Claimed)]);
  }

  lemma ClaimMoves(s: Sys, h: Holder)
    requires ProtocolInv(s) && h.payout in s.db.payouts && s.db.payouts[h.payout].status == Pending
    ensures h !in s.claims
    ensures MoveRow(s.db, h.payout, s.db.payouts[h.payout], Processing, ProcessingStarted).Ok?
  {
    HereFromInv(s, h.payout);
    PendingUnheld(s, h);
    PendingMoves(s.db, h.payout);
  }

  lemma PendingUnheld(s: Sys, h: Holder)
    requires Here(s, h.payout) && s.db.payouts[h.payout].status == Pending
    ensures h !in s.claims && s.db.txs[s.db.payouts[h.payout].tx].status == Pending
  {
  }

  lemma PendingMoves(db: Db, p: Uuid)
    requires p in db.payouts && db.payouts[p].tx in db.txs && db.txs[db.payouts[p].tx].status == Pending
    ensures MoveRow(db, p, db.payouts[p], Processing, ProcessingStarted).Ok?
  {
  }

  lemma RecoverMoves(s: Sys, p: Uuid)
    requires Here(s, p) && s.db.payouts[p].status == Processing && forall h | h in s.claims :: h.payout != p
    ensures MoveRow(s.db, p, s.db.payouts[p], Pending, RequeueStale).Ok?
  {
    assert p !in s.released;
  }

  lemma UnheldRecovers(s: Sys, p: Uuid) returns (s': Sys)
    requires ProtocolInv(s) && p in s.db.payouts && s.db.payouts[p].status == Processing
    requires forall h | h in s.claims :: h.payout != p
    ensures Next(s, DoRecover(p), s') && p in s'.db.payouts && s'.db.payouts[p].status == Pending
  {
    HereFromInv(s, p);
    RecoverMoves(s, p);
    MoveRewrites(s.db, p, s.db.payouts[p], Pending, RequeueStale);
    RecoverNext(s, p);
    s' := s.(db := MoveRow(s.db, p, s.db.payouts[p], Pending, RequeueStale).value);
  }

  lemma UnheldResend(s: Sys, p: Uuid) returns (run: seq<Event>)
    requires ProtocolInv(s) && p in s.db.payouts && s.db.payouts[p].status == Processing
    requires forall h | h in s.claims :: h.payout != p
    ensures Resends(s, run, p)
  {
    var s' := UnheldRecovers(s, p);
    ProtocolStep(s, DoRecover(p), s');
    var rest := QueuedResend(s', p);
    ResendLater(s, DoRecover(p), s', rest, p);
    run := [DoRecover(p)] + rest;
  }

  lemma HeldResend(s: Sys, h: Holder) returns (run: seq<Event>)
    requires ProtocolInv(s) && Live(s, h, h.payout) && h.payout !in s.released
    ensures Resends(s, run, h.payout)
  {
    var s' := Drop(s, h);
    LonelyDrop(s, h);
    GivesUpNext(s, h);
    ProtocolStep(s, GiveUp(h), s');
    var rest := UnheldResend(s', h.payout);
    ResendLater(s, GiveUp(h), s', rest, h.payout);
    run := [GiveUp(h)] + rest;
  }

  lemma LonelyDrop(s: Sys, h: Holder)
    requires ProtocolInv(s) && Live(s, h, h.payout) && h.payout !in s.released
    ensures Tame(s, GiveUp(h)) && h.payout in s.db.payouts && s.db.payouts[h.payout].status == Processing
    ensures forall g | g in Drop(s, h).claims :: g.payout != h.payout
  {
    HereFromInv(s, h.payout);
    SoleHolder(s, h.payout, h);
    assert PayoutOk(s, h.payout);
  }

  /** A payout that can only end FAILED, or has ended. */
  ghost predicate Closing(s: Sys, p: Uuid, n: nat) {
    ProtocolInv(s) && p in s.db.payouts && (Parked(s.db.payouts[p].status) || p in s.released) && Sends(s.sent, p) == n
  }

  ghost function ClosingInv(p: Uuid, n: nat): Sys -> bool {
    (s: Sys) => Closing(s, p, n)
  }

  lemma ClosingNotClaimed(s: Sys, p: Uuid, h: Holder)
    requires Here(s, p) && (Parked(s.db.payouts[p].status) || p in s.released) && h.payout == p
    ensures !In(s, h, Claimed)
  {
  }

  lemma ReleasedCloses(s: Sys, e: Event, s': Sys, p: Uuid)
    requires p in s.released && p in s.db.payouts && Tame(s, e) && Next(s, e, s')
    ensures p in s'.released || (p in s'.db.payouts && s'.db.payouts[p].status == Failed)
  {
    if e.Fallback? {
      FallbackIs(s, e.h, e.succeeds, s');
      FallbackCloses(s, e.h, e.succeeds, s', p);
    } else {
      StepFramed(s, e, s');
    }
  }

  lemma FallbackCloses(s: Sys, h: Holder, succeeds: bool, s': Sys, p: Uuid)
    requires p in s.released && p in s.db.payouts && h in s.claims && FallbackStep(s, h, succeeds) == Some(s')
    ensures p in s'.released || (p in s'.db.payouts && s'.db.payouts[p].status == Failed)
  {
  }

  lemma ClosingStep(s: Sys, e: Event, s': Sys, p: Uuid, n: nat)
    requires Closing(s, p, n) && Tame(s, e) && Next(s, e, s')
    ensures Closing(s', p, n)
  {
    ProtocolStep(s, e, s');
    RowsStay(s, e, s', p);
    ClosingUnsent(s, e, s', p);
    if Parked(s.db.payouts[p].status) {
      ProtocolHeld(s, p);
      ParkedStays(s, e, s', p);
    } else {
      ReleasedCloses(s, e, s', p);
    }
  }

  lemma ClosingUnsent(s: Sys, e: Event, s': Sys, p: Uuid)
    requires ProtocolInv(s) && p in s.db.payouts && (Parked(s.db.payouts[p].status) || p in s.released)
    requires Next(s, e, s')
    ensures Sends(s'.sent, p) == Sends(s.sent, p)
  {
    HereFromInv(s, p);
    SentBy(s, e, s', p);
    if IsSend(e) && e.h.payout == p {
      ClosingNotClaimed(s, p, e.h);
    }
  }

  lemma ClosingNeverResent(s: Sys, run: seq<Event>, p: Uuid)
    requires ProtocolInv(s) && p in s.db.payouts && (Parked(s.db.payouts[p].status) || p in s.released)
    requires Exec(s, run).Some? && Along(s, run, Tame)
    ensures Sends(Exec(s, run).value.sent, p) == Sends(s.sent, p)
  {
    var n := Sends(s.sent, p);
    forall s: Sys, e: Event, s': Sys | ClosingInv(p, n)(s) && Tame(s, e) && Next(s, e, s')
      ensures ClosingInv(p, n)(s')
    {
      ClosingStep(s, e, s', p, n);
    }
    RunKeeps(s, run, ClosingInv(p, n), Tame);
  }

  /** From any state of the protocol, some tame run sends a payout (again) if and only if the payout is
      neither parked nor already released by a fallback. */
  lemma CanResendIff(s: Sys, p: Uuid)
    requires ProtocolInv(s) && p in s.db.payouts
    ensures (exists run :: Resends(s, run, p)) <==> !Parked(s.db.payouts[p].status) && p !in s.released
  {
    if Parked(s.db.payouts[p].status) || p in s.released {
      forall run ensures !Resends(s, run, p) {
        if Exec(s, run).Some? && Along(s, run, Tame) {
          ClosingNeverResent(s, run, p);
        }
      }
    } else {
      OpenResend(s, p);
    }
  }

  lemma OpenResend(s: Sys, p: Uuid)
    requires ProtocolInv(s) && p in s.db.payouts && !Parked(s.db.payouts[p].status) && p !in s.released
    ensures exists run :: Resends(s, run, p)
  {
    assert PayoutOk(s, p);
    if s.db.payouts[p].status == Pending {
      var run := QueuedResend(s, p);
    } else if h :| h in s.claims && h.payout == p {
      var run := HeldResend(s, h);
    } else {
      var run := UnheldResend(s, p);
    }
  }

  // ---- an answer lost after the send ----

  lemma TwoSteps(s: Sys, e1: Event, s1: Sys, e2: Event, s2: Sys)
    requires Next(s, e1, s1) && Tame(s, e1) && Next(s1, e2, s2) && Tame(s1, e2)
    ensures Leads(s, [e1, e2], s2, Tame)
  {
    LeadsNowhere(s2, Tame);
    LeadsFrom(s1, e2, s2, [], s2, Tame);
    LeadsFrom(s, e1, s1, [e2] + [], s2, Tame);
    assert [e1, e2] == [e1] + ([e2] + []);
  }

  lemma ThreeSteps(s: Sys, e1: Event, s1: Sys, e2: Event, s2: Sys, e3: Event, s3: Sys)
    requires Next(s, e1, s1) && Tame(s, e1) && Next(s1, e2, s2) && Tame(s1, e2) && Next(s2, e3, s3) && Tame(s2, e3)
    ensures Leads(s, [e1, e2, e3], s3, Tame)
  {
    TwoSteps(s1, e2, s2, e3, s3);
    LeadsFrom(s, e1, s1, [e2, e3], s3, Tame);
    assert [e1, e2, e3] == [e1] + [e2, e3];
  }

  lemma TakeStep(s: Sys, h: Holder) returns (s1: Sys)
    requires ProtocolInv(s) && In(s, h, Claimed)
    ensures Next(s, GatewayTakes(h), s1) && ProtocolInv(s1) && In(s1, h, Unanswered)
    ensures s1.db == s.db && h.payout in s1.sent
  {
    s1 := At(s.(sent := s.sent + [h.payout]), h, Unanswered);
    TakesNext(s, h);
    ProtocolStep(s, GatewayTakes(h), s1);
  }

  /** From every state, a call cut off after the gateway took the payout puts it back in the queue with
      the gateway holding it: a tame run, after which another send is possible. */
  lemma TimeoutRequeues(s: Sys, h: Holder) returns (s': Sys)
    requires ProtocolInv(s) && In(s, h, Claimed)
    ensures Leads(s, [GatewayTakes(h), DoRequeue(h)], s', Tame)
    ensures h.payout in s'.sent && h.payout in s'.db.payouts && s'.db.payouts[h.payout].status == Pending
    ensures exists run :: Resends(s', run, h.payout)
  {
    var s1 := TakeStep(s, h);
    s' := RequeueStep(s1, h);
    TwoSteps(s, GatewayTakes(h), s1, DoRequeue(h), s');
    var run := QueuedResend(s', h.payout);
  }

  lemma RequeueStep(s: Sys, h: Holder) returns (s': Sys)
    requires ProtocolInv(s) && In(s, h, Unanswered)
    ensures Next(s, DoRequeue(h), s') && ProtocolInv(s') && s'.sent == s.sent
    ensures h.payout in s'.db.payouts && s'.db.payouts[h.payout].status == Pending
  {
    ProtocolOnAccount(s, s.claims[h].row.account);
    FinalisationCommits(s, h, "");
    MoveRewrites(s.db, h.payout, s.claims[h].row, Pending, RequeueClaimed);
    RequeueNext(s, h);
    s' := Drop(s, h).(db := MoveRow(s.db, h.payout, s.claims[h].row, Pending, RequeueClaimed).value);
    ProtocolStep(s, DoRequeue(h), s');
  }

  /** From every state, a send the gateway took and the worker heard as an error is failed: its funds
      are released with no operator asked, in a tame run. */
  lemma TakenIsFailed(s: Sys, h: Holder) returns (s': Sys)
    requires ProtocolInv(s) && In(s, h, Claimed)
    ensures Leads(s, [GatewayTakes(h), GatewayRefuses(h), DoFail(h)], s', Tame)
    ensures h.payout in s'.sent && h.payout in s'.db.payouts && s'.db.payouts[h.payout].status == Failed
    ensures SomeReleased(s, s', h.payout)
  {
    var s1, s2;
    s1, s2, s' := TakenFails(s, h);
    ThreeSteps(s, GatewayTakes(h), s1, GatewayRefuses(h), s2, DoFail(h), s');
  }

  lemma TakenFails(s: Sys, h: Holder) returns (s1: Sys, s2: Sys, s3: Sys)
    requires ProtocolInv(s) && In(s, h, Claimed)
    ensures Next(s, GatewayTakes(h), s1) && Next(s1, GatewayRefuses(h), s2) && Next(s2, DoFail(h), s3)
    ensures h.payout in s3.sent && h.payout in s3.db.payouts && s3.db.payouts[h.payout].status == Failed
    ensures SomeReleased(s, s3, h.payout)
  {
    s1, s2 := TakenRefused(s, h);
    s3 := FailStep(s2, h);
  }

  lemma TakenRefused(s: Sys, h: Holder) returns (s1: Sys, s2: Sys)
    requires ProtocolInv(s) && In(s, h, Claimed)
    ensures Next(s, GatewayTakes(h), s1) && Next(s1, GatewayRefuses(h), s2)
    ensures ProtocolInv(s2) && In(s2, h, Refused) && s2.db == s.db && h.payout in s2.sent
  {
    s1 := TakeStep(s, h);
    s2 := RefuseStep(s1, h);
  }

  lemma RefuseStep(s: Sys, h: Holder) returns (s': Sys)
    requires ProtocolInv(s) && In(s, h, Unanswered)
    ensures Next(s, GatewayRefuses(h), s') && ProtocolInv(s') && In(s', h, Refused) && s'.db == s.db
    ensures s'.sent == s.sent
  {
    s' := At(s, h, Refused);
    RefusesNext(s, h);
    ProtocolStep(s, GatewayRefuses(h), s');
  }

  lemma FailStep(s: Sys, h: Holder) returns (s': Sys)
    requires ProtocolInv(s) && In(s, h, Refused)
    ensures Next(s, DoFail(h), s') && s'.sent == s.sent
    ensures h.payout in s'.db.payouts && s'.db.payouts[h.payout].status == Failed && SomeReleased(s, s', h.payout)
  {
    ProtocolOnAccount(s, s.claims[h].row.account);
    FinalisationCommits(s, h, "");
    HereFromInv(s, h.payout);
    var d := FailPayout(s.db, h.payout, s.claims[h].row).value;
    FailReleases(s, h, d);
    FailsNext(s, h, d);
    s' := Drop(s, h).(db := d);
  }

  /** The payout's amount has been unlocked and nothing was debited. */
  ghost predicate SomeReleased(s: Sys, s': Sys, p: Uuid) {
    && p in s.db.payouts
    && var (a, amount) := (s.db.payouts[p].account, s.db.payouts[p].amount);
       && a in s.db.accounts && a in s'.db.accounts
       && s'.db.accounts[a] == s.db.accounts[a].(locked := s.db.accounts[a].locked - amount)
  }

  lemma FailReleases(s: Sys, h: Holder, d: Db)
    requires In(s, h, Refused) && h.payout in s.db.payouts && SameRow(s.claims[h].row, s.db.payouts[h.payout])
    requires FailPayout(s.db, h.payout, s.claims[h].row) == Ok(d)
    ensures h.payout in d.payouts && d.payouts[h.payout].status == Failed
    ensures SomeReleased(s, s.(db := d), h.payout)
  {
    FailRewrites(s.db, h.payout, s.claims[h].row);
    FailChanges(s.db, h.payout, s.claims[h].row);
  }

  // ---- when only operators fail a sent payout ----

  predicate Carrying(phase: Phase) {
    phase == Unanswered || phase.Sent? || phase.Unsettled?
  }

  /** And no worker hears a refusal of this payout after the gateway has taken it. */
  predicate Truthful(s: Sys, e: Event, p: Uuid) {
    KeepsSend(s, e, p) && (e.GatewayRefuses? && e.h.payout == p ==> p !in s.sent)
  }

  function Truth(p: Uuid): (Sys, Event) -> bool {
    (s: Sys, e: Event) => Truthful(s, e, p)
  }

  ghost predicate CarriedOn(s: Sys, p: Uuid) {
    forall h | Live(s, h, p) :: Carrying(s.claims[h].phase)
  }

  ghost predicate CarriedHere(s: Sys, p: Uuid) {
    SentHere(s, p) && (p in s.sent ==> CarriedOn(s, p))
  }

  ghost function CarriedInv(p: Uuid): Sys -> bool {
    (s: Sys) => CarriedHere(s, p)
  }

  lemma CarriedPoint(s: Sys, e: Event, s': Sys, p: Uuid)
    requires CarriedHere(s, p) && Truthful(s, e, p) && Next(s, e, s') && p in s'.sent
    ensures CarriedOn(s', p)
  {
    SentBy(s, e, s', p);
    if Subject(e) != Some(p) {
      CarriedOther(s, e, s', p);
    } else if IsSend(e) {
      CarriedSend(s, e, s');
    } else {
      CarriedOwn(s, e, s', p);
    }
  }

  lemma CarriedOther(s: Sys, e: Event, s': Sys, p: Uuid)
    requires CarriedOn(s, p) && Next(s, e, s') && Subject(e) != Some(p)
    ensures CarriedOn(s', p)
  {
    ClaimsElsewhere(s, e, s', p);
    forall h | Live(s', h, p) ensures Carrying(s'.claims[h].phase) {
      assert Live(s, h, p);
    }
  }

  lemma CarriedSend(s: Sys, e: Event, s': Sys)
    requires IsSend(e) && HeldOk(s, e.h.payout) && Next(s, e, s')
    ensures CarriedOn(s', e.h.payout)
  {
    LocalIs(s, e, s');
    assert Live(s, e.h, e.h.payout);
    SoleLive(s, e.h.payout, e.h);
  }

  lemma CarriedOwn(s: Sys, e: Event, s': Sys, p: Uuid)
    requires HeldOk(s, p) && SentOk(s, p) && p in s.sent && CarriedOn(s, p)
    requires Truthful(s, e, p) && !IsSend(e) && Next(s, e, s') && Subject(e) == Some(p)
    ensures CarriedOn(s', p)
  {
    if Parked(s.db.payouts[p].status) {
      CarriedParked(s, e, s', p);
    } else {
      var g :| Live(s, g, p);
      SoleLive(s, p, g);
      OwnEvent(s, e, s', g);
      CarriedMove(s, e, s');
    }
  }

  /** No live claim comes to a parked payout. */
  lemma CarriedParked(s: Sys, e: Event, s': Sys, p: Uuid)
    requires HeldOk(s, p) && p in s.db.payouts && Parked(s.db.payouts[p].status)
    requires Next(s, e, s') && Subject(e) == Some(p)
    ensures forall h :: !Live(s', h, p)
  {
    assert forall h | h in s.claims && h.payout == p :: s.claims[h].phase == Marked;
    StepGuarded(s, e, s', p);
    MarkedStays(s, e, s', p);
  }

  lemma MarkedStays(s: Sys, e: Event, s': Sys, p: Uuid)
    requires p in s.db.payouts && Parked(s.db.payouts[p].status)
    requires forall h | h in s.claims && h.payout == p :: s.claims[h].phase == Marked
    requires Next(s, e, s') && Subject(e) == Some(p) && !e.DoRequest?
    ensures forall h :: !Live(s', h, p)
  {
    StepShaped(s, e, s');
  }

  lemma CarriedMove(s: Sys, e: Event, s': Sys)
    requires Own(e).Some? && !e.DoClaim? && !IsSend(e) && !e.GatewayRefuses? && Next(s, e, s')
    requires e.h in s.claims && Carrying(s.claims[e.h].phase)
    requires forall h | h in s.claims && h.payout == e.h.payout :: h == e.h
    ensures CarriedOn(s', e.h.payout)
  {
    if e.SettleAborts? {
      LocalIs(s, e, s');
    } else {
      CarriedGone(s, e, s');
    }
  }

  /** Every other step of a worker that carries a send drops or parks its claim. */
  lemma CarriedGone(s: Sys, e: Event, s': Sys)
    requires Own(e).Some? && !e.DoClaim? && !IsSend(e) && !e.GatewayRefuses? && !e.SettleAborts? && Next(s, e, s')
    requires e.h in s.claims && Carrying(s.claims[e.h].phase)
    requires forall h | h in s.claims && h.payout == e.h.payout :: h == e.h
    ensures forall h :: !Live(s', h, e.h.payout)
  {
    StepShaped(s, e, s');
    assert s'.claims == s.claims - {e.h} || s'.claims == s.claims[e.h := s.claims[e.h].(phase := Marked)];
  }

  /** A step also keeps "every live claim on the sent payout still carries the send" if and only if it is
      truthful about the payout. */
  lemma CarriedStepIff(s: Sys, e: Event, s': Sys, p: Uuid)
    requires CarriedHere(s, p) && Next(s, e, s')
    ensures CarriedHere(s', p) <==> Truthful(s, e, p)
  {
    SentStepIff(s, e, s', p);
    if Truthful(s, e, p) {
      if p in s'.sent {
        CarriedPoint(s, e, s', p);
      }
    } else if KeepsSend(s, e, p) {
      RefusalDrops(s, e, s');
    }
  }

  lemma RefusalDrops(s: Sys, e: Event, s': Sys)
    requires e.GatewayRefuses? && e.h.payout in s.sent && Next(s, e, s')
    ensures e.h.payout in s'.sent && !CarriedOn(s', e.h.payout)
  {
    StepFramed(s, e, s');
    LocalIs(s, e, s');
    assert Live(s', e.h, e.h.payout);
  }

  lemma CarriedHolds(s: Sys, run: seq<Event>, p: Uuid)
    requires Init(s) && Exec(s, run).Some? && Along(s, run, Truth(p))
    ensures CarriedHere(Exec(s, run).value, p)
  {
    InitWellformed(s);
    assert CarriedInv(p)(s);
    forall s: Sys, e: Event, s': Sys | CarriedInv(p)(s) && Truth(p)(s, e) && Next(s, e, s') ensures CarriedInv(p)(s') {
      CarriedStepIff(s, e, s', p);
    }
    RunKeeps(s, run, CarriedInv(p), Truth(p));
  }

  /** In runs truthful about a payout only an operator's refund fails it once the gateway has taken it. */
  lemma OperatorsFailSent(s: Sys, run: seq<Event>, e: Event, s': Sys, p: Uuid)
    requires Init(s) && Exec(s, run).Some? && Along(s, run, Truth(p)) && Next(Exec(s, run).value, e, s')
    requires p in Exec(s, run).value.sent
    ensures p in Exec(s, run).value.db.payouts && p in s'.db.payouts
    ensures Exec(s, run).value.db.payouts[p].status != Failed && s'.db.payouts[p].status == Failed ==> e == DoRefund(p)
  {
    CarriedHolds(s, run, p);
    FailedBy(Exec(s, run).value, e, s', p);
  }

  lemma FailedBy(s: Sys, e: Event, s': Sys, p: Uuid)
    requires CarriedHere(s, p) && p in s.sent && Next(s, e, s')
    ensures p in s.db.payouts && p in s'.db.payouts
    ensures s.db.payouts[p].status != Failed && s'.db.payouts[p].status == Failed ==> e == DoRefund(p)
  {
    RowsStay(s, e, s', p);
    if Subject(e) == Some(p) {
      FailedOwn(s, e, s', p);
    }
  }

  lemma FailedOwn(s: Sys, e: Event, s': Sys, p: Uuid)
    requires p in s.db.payouts && p in s'.db.payouts && CarriedOn(s, p) && Next(s, e, s') && Subject(e) == Some(p)
    ensures s.db.payouts[p].status != Failed && s'.db.payouts[p].status == Failed ==> e == DoRefund(p)
  {
    if s.db.payouts[p].status != Failed && s'.db.payouts[p].status == Failed && e != DoRefund(p) {
      FailingStep(s, e, s', p);
      assert Live(s, e.h, p);
    }
  }

  /** The steps that fail a payout: a refund, the failing transaction, the fallback's last write. */
  lemma FailingStep(s: Sys, e: Event, s': Sys, p: Uuid)
    requires p in s.db.payouts && Next(s, e, s') && Subject(e) == Some(p) && p in s'.db.payouts
    requires e != DoRefund(p)
    requires s.db.payouts[p].status != Failed && s'.db.payouts[p].status == Failed
    ensures (e.DoFail? && In(s, e.h, Refused)) || (e.Fallback? && In(s, e.h, FallbackPayout))
  {
    StepGuarded(s, e, s', p);
    StepShaped(s, e, s');
  }
}
