/**
 The payout worker's batch loop, statement by statement, with every database fault, gateway answer
 and cancellation, and with other processes running between any two of its transactions. Beside the
 mutable tables it keeps the run of the transition system that has happened so far, its own steps
 and the others' alike, so what is proved of runs applies at each of its program points.
 */
module PayoutWorker {
  import opened Results
  import opened Tables
  import opened Store
  import opened Runs
  import opened PayoutProtocol
  import opened SingleHolder
  import opened Histories
  import opened Traces
  import opened Batches
  import opened Guidance
  import opened Reports
  import opened WorkerSteps
  import opened FallbackRefinement
  import Payouts
  import Service = PayoutService

  /** Reads the parked payout again and writes its note in a transaction of its own. */
  method ReviewAudit(q: Queries, pid: Uuid) returns (r: Result<()>)
    modifies q
    ensures q.faults >= old(q.faults) && (r.Err? ==> q.Snapshot() == old(q.Snapshot()))
    ensures r.Err? ==> q.faults > old(q.faults) || pid !in old(q.payouts)
    ensures r.Ok? ==> pid in old(q.payouts)
    ensures r.Ok? ==>
              q.Snapshot() == WriteAudit(old(q.Snapshot()),
                                         Audit(old(q.payouts)[pid].tx, PayoutReview, Some(Processing), Processing))
  {
    var fault := q.Trip();
    if fault {
      return Err(Fault);
    }
    if pid !in q.payouts {
      return Err(NotFound);
    }
    var before := q.BeginTx();
    var body := q.WriteAudit(Audit(q.payouts[pid].tx, PayoutReview, Some(Processing), Processing));
    r := q.EndTx(before, body);
  }

  class Worker {
    const id: nat
    const q: Queries
    ghost var hist: History
    ghost var sys: Sys           // where the history has led

    ghost predicate Valid()
      reads this, q
    {
      Reached(hist, sys) && sys.db == q.Snapshot()
    }

    constructor (id: nat, q: Queries, ghost origin: Sys)
      requires origin.db == q.Snapshot() && ProtocolInv(origin)
      ensures Valid() && this.id == id && this.q == q && sys == origin && hist == Start(origin)
    {
      this.id, this.q := id, q;
      hist, sys := Start(origin), origin;
    }

    // ---- the history ----

    /** The latest event. */
    ghost predicate Did(e: Event)
      reads this
    {
      hist.events != [] && hist.events[|hist.events| - 1] == e
    }

    /** The event that just took effect becomes part of the history. */
    ghost method Record(e: Event, next: Sys)
      requires Reached(hist, sys) && Next(sys, e, next) && next.db == q.Snapshot()
      modifies `hist, `sys
      ensures Went() && sys == next && Did(e)
      ensures forall m: Mark, h: Holder ::
                Times(hist.events, m, h) == Times(old(hist).events, m, h) + (if Marks(e, m, h) then 1 else 0)
      ensures forall h: Holder ::
                Mine(hist.events, h) == Mine(old(hist).events, h) + (if Own(e) == Some(h) then [e] else [])
    {
      NextReached(hist, sys, e, next);
      hist, sys := Then(hist, e, next), next;
      assert hist.events[..|old(hist).events|] == old(hist).events;
    }

    /** An event that moves this worker's claim on a payout to `c`. */
    ghost method RecordMove(e: Event, pid: Uuid, c: Claim, next: Sys)
      requires Reached(hist, sys) && Next(sys, e, next) && next.db == q.Snapshot() && !e.DoClaim? && !e.GatewayAccepts?
      requires next.claims == sys.claims[Holder(id, pid) := c] && Own(e) == Some(Holder(id, pid))
      modifies `hist, `sys
      ensures Went() && Quiet() && KeptBut(Some(pid)) && Did(e) && Acts(pid, [e])
      ensures Holder(id, pid) in sys.claims && sys.claims[Holder(id, pid)] == c
      ensures Lost(pid, if e == Fallback(Holder(id, pid), false) then 1 else 0)
    {
      Record(e, next);
    }

    /** An event after which this worker has let go of a payout. */
    ghost method RecordDrop(e: Event, pid: Uuid, next: Sys)
      requires Reached(hist, sys) && Next(sys, e, next) && next.db == q.Snapshot() && !e.DoClaim? && !e.GatewayAccepts?
      requires next.claims == sys.claims - {Holder(id, pid)} && Own(e) == Some(Holder(id, pid))
      modifies `hist, `sys
      ensures Went() && Quiet() && KeptBut(Some(pid)) && Did(e) && Let(pid) && Acts(pid, [e])
      ensures Lost(pid, if e == Fallback(Holder(id, pid), false) then 1 else 0)
    {
      Record(e, next);
    }

    ghost method RecordAll(events: seq<Event>, next: Sys)
      requires Reached(hist, sys) && NextAll(sys, events, next) && next.db == q.Snapshot()
      modifies `hist, `sys
      ensures Went() && sys == next && hist.events == old(hist).events + events
    {
      var more := NextAllReached(hist, sys, events, next);
      hist, sys := more, next;
    }

    /** Events none of which takes a payout or has one accepted. */
    ghost method RecordQuiet(events: seq<Event>, next: Sys)
      requires Reached(hist, sys) && NextAll(sys, events, next) && next.db == q.Snapshot()
      requires forall i | 0 <= i < |events| :: !events[i].DoClaim? && !events[i].GatewayAccepts?
      modifies `hist, `sys
      ensures Went() && Quiet() && sys == next && hist.events == old(hist).events + events
    {
      RecordAll(events, next);
      forall m: Mark, p: Uuid | m != Lose
        ensures Times(hist.events, m, Holder(id, p)) == Times(old(hist).events, m, Holder(id, p))
      {
        TimesAppend(old(hist).events, events, m, Holder(id, p));
        TimesNone(events, m, Holder(id, p));
      }
    }

    /** Other processes take any steps of their own. */
    method Others() returns (ghost more: seq<Event>)
      requires Valid()
      modifies this, q
      ensures NotBy(id, more) && Exec(old(sys), more) == Some(sys) && hist == Onward(old(hist), old(sys), more)
      ensures sys.db == q.Snapshot() && q.faults == old(q.faults)
    {
      // Whatever commits here is up to the environment.
      more := [];
    }

    /** The history has only grown, and it has not become calm or steady. */
    twostate predicate Went()
      reads this, q
    {
      && Valid() && Extends(old(hist), hist) && q.faults >= old(q.faults)
      && (Calm(hist) ==> Calm(old(hist))) && (forall p :: Steady(hist, p) ==> Steady(old(hist), p))
    }

    /** This worker has taken nothing and had nothing accepted. */
    twostate predicate Quiet()
      reads this
    {
      forall m: Mark, p: Uuid | m != Lose ::
        Times(hist.events, m, Holder(id, p)) == Times(old(hist).events, m, Holder(id, p))
    }

    /** This worker has done nothing at all. */
    twostate predicate Still()
      reads this
    {
      && (forall p: Uuid :: Mine(hist.events, Holder(id, p)) == Mine(old(hist).events, Holder(id, p)))
      && (forall m: Mark, p: Uuid :: Times(hist.events, m, Holder(id, p)) == Times(old(hist).events, m, Holder(id, p)))
    }

    /** This is what the worker has done about a payout. */
    twostate predicate Acts(new pid: Uuid, new steps: seq<Event>)
      reads this
    {
      Mine(hist.events, Holder(id, pid)) == Mine(old(hist).events, Holder(id, pid)) + steps
    }

    /** So many more fallback writes on a payout have been lost. */
    twostate predicate Lost(new pid: Uuid, new n: int)
      reads this
    {
      Times(hist.events, Lose, Holder(id, pid)) == Times(old(hist).events, Lose, Holder(id, pid)) + n
    }

    /** One fallback write, recorded as lost only after a fault. */
    twostate predicate Wrote(new pid: Uuid, new ok: bool)
      reads this, q
    {
      Acts(pid, [Fallback(Holder(id, pid), ok)]) && Lost(pid, if ok then 0 else 1) && (!ok ==> q.faults > old(q.faults))
    }

    /** Every fallback write recorded as lost was lost to a fault; without a fault the worker has taken
        exactly `n` fallback steps on this payout, all of them successful. */
    twostate predicate Fell(new pid: Uuid, new n: nat)
      reads this, q
    {
      && Times(hist.events, Lose, Holder(id, pid)) - Times(old(hist).events, Lose, Holder(id, pid)) <=
         q.faults - old(q.faults)
      && (q.faults == old(q.faults) ==> Acts(pid, Wins(Holder(id, pid), n)))
    }

    /** This worker's claims on payouts other than `pid` are as they were. */
    twostate predicate KeptBut(new pid: Option<Uuid>)
      reads this
    {
      forall p: Uuid | pid != Some(p) ::
        && (Holder(id, p) in sys.claims <==> Holder(id, p) in old(sys).claims)
        && (Holder(id, p) in sys.claims ==> sys.claims[Holder(id, p)] == old(sys).claims[Holder(id, p)])
    }

    method Yield()
      requires Valid()
      modifies this, q
      ensures Went() && Quiet() && KeptBut(None) && q.faults == old(q.faults) && Still()
    {
      var more := Others();
      OnwardReached(old(hist), old(sys), more);
      OnwardExtends(old(hist), old(sys), more);
      forall p ensures Steady(hist, p) ==> Steady(old(hist), p) {
        OnwardSteady(old(hist), old(sys), more, p);
      }
      forall p: Uuid
        ensures Holder(id, p) in sys.claims <==> Holder(id, p) in old(sys).claims
        ensures Holder(id, p) in sys.claims ==> sys.claims[Holder(id, p)] == old(sys).claims[Holder(id, p)]
      {
        OthersKeep(old(sys), more, id, p);
      }
      forall p: Uuid ensures Mine(hist.events, Holder(id, p)) == Mine(old(hist).events, Holder(id, p)) {
        MineAppend(old(hist).events, more, Holder(id, p));
        MineNone(more, Holder(id, p));
      }
      forall m: Mark, p: Uuid
        ensures Times(hist.events, m, Holder(id, p)) == Times(old(hist).events, m, Holder(id, p))
      {
        TimesAppend(old(hist).events, more, m, Holder(id, p));
        TimesNone(more, m, Holder(id, p));
      }
    }

    ghost predicate Holding(pid: Uuid, phase: Phase)
      reads this
    {
      In(sys, Holder(id, pid), phase)
    }

    ghost predicate Let(pid: Uuid)
      reads this
    {
      Holder(id, pid) !in sys.claims
    }

    /** The payout is where the worker left it, unless a review was resolved or a recovery found it held. */
    ghost predicate Lands(pid: Uuid, end: Status)
      reads this, q
    {
      Steady(hist, pid) ==>
        && pid in q.payouts
        && (q.payouts[pid].status == end || (end == ManualReview && Final(q.payouts[pid].status)))
    }

    // ---- after an acceptance ----

    /** Writes the audit note of a review that has been marked; the note may be lost. */
    method NoteReview(pid: Uuid)
      requires Valid() && Holding(pid, Marked)
      modifies this, q
      ensures Went() && Quiet() && KeptBut(Some(pid)) && Let(pid)
      ensures q.payouts == old(q.payouts)
      ensures q.faults == old(q.faults) ==> Acts(pid, [AuditReview(Holder(id, pid))])
    {
      ClaimedRow(hist, sys, Holder(id, pid));
      var noted := ReviewAudit(q, pid);
      ghost var h := Holder(id, pid);
      if noted.Ok? {
        NotesNext(sys, h);
        RecordDrop(AuditReview(h), pid, Drop(sys, h).(db := q.Snapshot()));
      } else {
        GivesUpNext(sys, h);
        RecordDrop(GiveUp(h), pid, Drop(sys, h));
      }
    }

    /** The write that parks a payout; when it is lost the worker lets go of a PROCESSING row. */
    method MarkRow(pid: Uuid, gatewayRef: string) returns (marked: bool)
      requires Valid() && Holding(pid, Unsettled(gatewayRef))
      modifies this, q
      ensures Went() && Quiet() && KeptBut(Some(pid)) && Lands(pid, if marked then ManualReview else Processing)
      ensures if marked then Holding(pid, Marked) else Let(pid)
      ensures q.faults == old(q.faults) ==> marked && Acts(pid, [MarkReview(Holder(id, pid))])
    {
      ClaimedRow(hist, sys, Holder(id, pid));
      var write := q.UpdatePayoutStatus(pid, ManualReview, Some(gatewayRef));
      marked := write.Ok?;
      ghost var h := Holder(id, pid);
      if marked {
        MarksNext(sys, h, gatewayRef, q.Snapshot());
        RecordMove(MarkReview(h), pid, sys.claims[h].(phase := Marked), At(sys, h, Marked).(db := q.Snapshot()));
      } else {
        GivesUpNext(sys, h);
        RecordDrop(GiveUp(h), pid, Drop(sys, h));
      }
    }

    method ParkRow(pid: Uuid, gatewayRef: string) returns (marked: bool)
      requires Valid() && Holding(pid, Unsettled(gatewayRef))
      modifies this, q
      ensures Went() && Quiet() && KeptBut(Some(pid)) && Lands(pid, if marked then ManualReview else Processing)
      ensures if marked then Holding(pid, Marked) else Let(pid)
      ensures q.faults == old(q.faults) ==> marked && Acts(pid, [MarkReview(Holder(id, pid))])
    {
      Yield();
      marked := MarkRow(pid, gatewayRef);
    }

    /** Parks a payout whose settlement did not commit. */
    method MarkManualReview(pid: Uuid, gatewayRef: string) returns (end: Status)
      requires Valid() && Holding(pid, Unsettled(gatewayRef))
      modifies this, q
      ensures Went() && Quiet() && KeptBut(Some(pid)) && Let(pid)
      ensures (end == ManualReview || end == Processing) && Lands(pid, end)
      ensures q.faults == old(q.faults) ==>
                end == ManualReview && Acts(pid, [MarkReview(Holder(id, pid)), AuditReview(Holder(id, pid))])
    {
      var marked := ParkRow(pid, gatewayRef);
      if !marked {
        return Processing;
      }
      LateNote(pid);
      end := ManualReview;
    }

    /** The note follows the mark after any steps of others, who may have resolved the review. */
    method LateNote(pid: Uuid)
      requires Valid() && Holding(pid, Marked) && Lands(pid, ManualReview)
      modifies this, q
      ensures Went() && Quiet() && KeptBut(Some(pid)) && Let(pid) && Lands(pid, ManualReview)
      ensures q.faults == old(q.faults) ==> Acts(pid, [AuditReview(Holder(id, pid))])
    {
      ghost var was, s := hist, sys;
      Yield();
      if Steady(hist, pid) {
        SteadyRests(was, s, hist, sys, pid, ManualReview);
      }
      NoteReview(pid);
    }

    ghost method NoteSettled(pid: Uuid, row: Payout, gatewayRef: string)
      requires Reached(hist, sys) && Holding(pid, Sent(gatewayRef)) && sys.claims[Holder(id, pid)].row == row
      requires Payouts.Settle(sys.db, pid, row, PayoutCompleted, Some(gatewayRef)) == Ok(q.Snapshot())
      modifies `hist, `sys
      ensures Went() && Quiet() && KeptBut(Some(pid)) && Let(pid) && Acts(pid, [DoSettle(Holder(id, pid))])
      ensures pid in q.payouts && q.payouts[pid].status == Completed
    {
      SettledRow(sys.db, pid, row, gatewayRef);
      SettlesNext(sys, Holder(id, pid), gatewayRef, q.Snapshot());
      RecordDrop(DoSettle(Holder(id, pid)), pid, Drop(sys, Holder(id, pid)).(db := q.Snapshot()));
    }

    ghost method NoteAborted(pid: Uuid, gatewayRef: string)
      requires Valid() && Holding(pid, Sent(gatewayRef))
      modifies `hist, `sys
      ensures Went() && Quiet() && KeptBut(Some(pid)) && Holding(pid, Unsettled(gatewayRef))
      ensures Acts(pid, [SettleAborts(Holder(id, pid))])
    {
      ghost var h, phase := Holder(id, pid), Unsettled(gatewayRef);
      AbortsNext(sys, h, gatewayRef);
      RecordMove(SettleAborts(h), pid, sys.claims[h].(phase := phase), At(sys, h, phase));
    }

    /** The settling transaction of an accepted payout. */
    method TrySettle(pid: Uuid, row: Payout, gatewayRef: string) returns (settled: bool)
      requires Valid() && Holding(pid, Sent(gatewayRef)) && sys.claims[Holder(id, pid)].row == row
      modifies this, q
      ensures Went() && Quiet() && KeptBut(Some(pid))
      ensures if settled then Let(pid) && Lands(pid, Completed) else Holding(pid, Unsettled(gatewayRef))
      ensures Acts(pid, [if settled then DoSettle(Holder(id, pid)) else SettleAborts(Holder(id, pid))])
      ensures Calm(hist) && q.faults == old(q.faults) ==> settled
    {
      ghost var open := !Calm(hist) || Payouts.Settle(sys.db, pid, row, PayoutCompleted, Some(gatewayRef)).Ok?;
      assert open by {
        if Calm(hist) {
          CalmFinalises(hist, sys, Holder(id, pid), gatewayRef);
        }
      }
      var done := Service.SettleTx(q, pid, row, gatewayRef);
      settled := done.Ok?;
      if settled {
        NoteSettled(pid, row, gatewayRef);
      } else {
        NoteAborted(pid, gatewayRef);
      }
    }

    /** The settlement after others have taken any steps. */
    method SettleSoon(pid: Uuid, row: Payout, gatewayRef: string) returns (settled: bool)
      requires Valid() && Holding(pid, Sent(gatewayRef)) && sys.claims[Holder(id, pid)].row == row
      modifies this, q
      ensures Went() && Quiet() && KeptBut(Some(pid))
      ensures if settled then Let(pid) && Lands(pid, Completed) else Holding(pid, Unsettled(gatewayRef))
      ensures Acts(pid, [if settled then DoSettle(Holder(id, pid)) else SettleAborts(Holder(id, pid))])
      ensures Calm(hist) && q.faults == old(q.faults) ==> settled
    {
      Yield();
      settled := TrySettle(pid, row, gatewayRef);
    }

    /** Settles an accepted payout, or parks it for review. */
    method HandlePayoutSuccess(pid: Uuid, row: Payout, gatewayRef: string) returns (end: Status)
      requires Valid() && Holding(pid, Sent(gatewayRef)) && sys.claims[Holder(id, pid)].row == row
      modifies this, q
      ensures Went() && Quiet() && KeptBut(Some(pid)) && Let(pid)
      ensures (end == Completed || end == ManualReview || end == Processing) && Lands(pid, end)
      ensures q.faults == old(q.faults) ==> end != Processing && (Calm(hist) ==> end == Completed)
      ensures q.faults == old(q.faults) ==> Acts(pid, Finish(Holder(id, pid), end))
    {
      var settled := SettleSoon(pid, row, gatewayRef);
      if settled {
        end := Completed;
      } else {
        end := MarkManualReview(pid, gatewayRef);
      }
    }

    // ---- after a refusal ----

    ghost method NoteFailed(pid: Uuid, row: Payout)
      requires Reached(hist, sys) && Holding(pid, Refused) && sys.claims[Holder(id, pid)].row == row
      requires Payouts.FailPayout(sys.db, pid, row) == Ok(q.Snapshot())
      modifies `hist, `sys
      ensures Went() && Quiet() && KeptBut(Some(pid)) && Let(pid) && Acts(pid, [DoFail(Holder(id, pid))])
      ensures pid in q.payouts && q.payouts[pid].status == Failed
    {
      FailedRow(sys.db, pid, row);
      FailsNext(sys, Holder(id, pid), q.Snapshot());
      RecordDrop(DoFail(Holder(id, pid)), pid, Drop(sys, Holder(id, pid)).(db := q.Snapshot()));
    }

    ghost method NoteFailAborted(pid: Uuid)
      requires Valid() && Holding(pid, Refused)
      modifies `hist, `sys
      ensures Went() && Quiet() && KeptBut(Some(pid)) && Holding(pid, FallbackRead)
      ensures Acts(pid, [FailAborts(Holder(id, pid))])
    {
      ghost var h := Holder(id, pid);
      FailAbortsNext(sys, h);
      RecordMove(FailAborts(h), pid, sys.claims[h].(phase := FallbackRead), At(sys, h, FallbackRead));
    }

    /** The transaction that books a refusal. */
    method TryFail(pid: Uuid, row: Payout) returns (failed: bool)
      requires Valid() && Holding(pid, Refused) && sys.claims[Holder(id, pid)].row == row
      modifies this, q
      ensures Went() && Quiet() && KeptBut(Some(pid))
      ensures if failed then Let(pid) && Lands(pid, Failed) else Holding(pid, FallbackRead)
      ensures Acts(pid, [if failed then DoFail(Holder(id, pid)) else FailAborts(Holder(id, pid))])
      ensures Calm(hist) && q.faults == old(q.faults) ==> failed
    {
      ghost var open := !Calm(hist) || Payouts.FailPayout(sys.db, pid, row).Ok?;
      assert open by {
        if Calm(hist) {
          CalmFinalises(hist, sys, Holder(id, pid), "");
        }
      }
      var done := Service.FailTx(q, pid, row);
      failed := done.Ok?;
      if failed {
        NoteFailed(pid, row);
      } else {
        NoteFailAborted(pid);
      }
    }

    /** The failure transaction after others have taken any steps. */
    method FailSoon(pid: Uuid, row: Payout) returns (failed: bool)
      requires Valid() && Holding(pid, Refused) && sys.claims[Holder(id, pid)].row == row
      modifies this, q
      ensures Went() && Quiet() && KeptBut(Some(pid))
      ensures if failed then Let(pid) && Lands(pid, Failed) else Holding(pid, FallbackRead)
      ensures Acts(pid, [if failed then DoFail(Holder(id, pid)) else FailAborts(Holder(id, pid))])
      ensures Calm(hist) && q.faults == old(q.faults) ==> failed
    {
      Yield();
      failed := TryFail(pid, row);
    }

    /** Books a refusal, or falls back to single writes. If no write is lost and nobody else moves meanwhile,
        either way ends where the failure transaction would have ended. */
    method HandlePayoutFailure(pid: Uuid, row: Payout) returns (end: Status)
      requires Valid() && Holding(pid, Refused) && sys.claims[Holder(id, pid)].row == row
      modifies this, q
      ensures Went() && Quiet() && KeptBut(Some(pid)) && Let(pid)
      ensures (end == Failed || end == Processing) && Lands(pid, end)
      ensures q.faults == old(q.faults) ==> end == Failed && Failing(pid)
      ensures q.faults == old(q.faults) && Undisturbed(pid) && AccountInv(old(sys), row.account) ==>
                LikeFailure(old(sys), sys, Holder(id, pid))
    {
      end := FailOrFallBack(pid, row);
      ghost var h := Holder(id, pid);
      if q.faults == old(q.faults) && Undisturbed(pid) && AccountInv(old(sys), row.account) {
        ghost var steps := if Acts(pid, [DoFail(h)]) then [DoFail(h)] else FallbackRun(h);
        AloneSteps(old(hist).events, hist.events, h, steps);
        FailsAsOne(old(hist), old(sys), hist, sys, h, steps);
      }
    }

    /** The failure transaction, or its abort and the five fallback writes. */
    twostate predicate Failing(new pid: Uuid)
      reads this
    {
      Acts(pid, [DoFail(Holder(id, pid))]) || Acts(pid, FallbackRun(Holder(id, pid)))
    }

    /** Nothing has happened but what this worker did about this payout. */
    twostate predicate Undisturbed(new pid: Uuid)
      reads this
    {
      var (h, was) := (Holder(id, pid), old(hist).events);
      |hist.events| - |was| == |Mine(hist.events, h)| - |Mine(was, h)|
    }

    method FailOrFallBack(pid: Uuid, row: Payout) returns (end: Status)
      requires Valid() && Holding(pid, Refused) && sys.claims[Holder(id, pid)].row == row
      modifies this, q
      ensures Went() && Quiet() && KeptBut(Some(pid)) && Let(pid)
      ensures (end == Failed || end == Processing) && Lands(pid, end)
      ensures q.faults == old(q.faults) ==> end == Failed && Failing(pid)
    {
      FallbackSteps(Mine(hist.events, Holder(id, pid)), Holder(id, pid));
      var failed := FailSoon(pid, row);
      if failed {
        end := Failed;
      } else {
        end := UpdatePayoutFailed(pid);
      }
    }

    /** The fallback: read the payout, release its funds, fail its transaction, note it, fail the
        payout. Each write commits on its own; a lost one is skipped, and none is skipped that was not lost.
        The last event is the payout's own write, and the row ends FAILED exactly when that write succeeds. */
    method UpdatePayoutFailed(pid: Uuid) returns (end: Status)
      requires Valid() && Holding(pid, FallbackRead)
      modifies this, q
      ensures Went() && Quiet() && KeptBut(Some(pid)) && Let(pid)
      ensures (end == Failed || end == Processing) && Lands(pid, end) && Did(Fallback(Holder(id, pid), end == Failed))
      ensures q.faults == old(q.faults) ==> end == Failed
      ensures Fell(pid, 5)
    {
      WinsMore(Mine(hist.events, Holder(id, pid)), Holder(id, pid), 4, 1);
      FallbackOpen(pid);
      end := FallbackFailPayout(pid);
    }

    /** Everything before the payout row itself. */
    method FallbackOpen(pid: Uuid)
      requires Valid() && Holding(pid, FallbackRead)
      modifies this, q
      ensures Went() && Quiet() && KeptBut(Some(pid)) && Holding(pid, FallbackPayout) && Fell(pid, 4)
    {
      WinsMore(Mine(hist.events, Holder(id, pid)), Holder(id, pid), 1, 3);
      var row := FallbackReadRow(pid);
      if row.Some? {
        FallbackRows(pid, row.value);
      }
    }

    method FallbackRows(pid: Uuid, row: Payout)
      requires Valid() && Holding(pid, FallbackRelease) && sys.claims[Holder(id, pid)].row == row
      modifies this, q
      ensures Went() && Quiet() && KeptBut(Some(pid)) && Holding(pid, FallbackPayout) && Fell(pid, 3)
    {
      WinsMore(Mine(hist.events, Holder(id, pid)), Holder(id, pid), 1, 2);
      FallbackReleaseFunds(pid, row);
      FallbackFailTx(pid, row);
    }

    method FallbackReadRow(pid: Uuid) returns (row: Option<Payout>)
      requires Valid() && Holding(pid, FallbackRead)
      modifies this, q
      ensures Went() && Quiet() && KeptBut(Some(pid))
      ensures if row.None? then Holding(pid, FallbackPayout)
              else Holding(pid, FallbackRelease) && sys.claims[Holder(id, pid)].row == row.value
      ensures (q.faults == old(q.faults) ==> row.Some?) && Fell(pid, 1)
    {
      Yield();
      row := ReadPayout(pid);
    }

    method ReadPayout(pid: Uuid) returns (row: Option<Payout>)
      requires Valid() && Holding(pid, FallbackRead)
      modifies this, q
      ensures Went() && Quiet() && KeptBut(Some(pid))
      ensures if row.None? then Holding(pid, FallbackPayout)
              else Holding(pid, FallbackRelease) && sys.claims[Holder(id, pid)].row == row.value
      ensures Wrote(pid, row.Some?)
    {
      ClaimedRow(hist, sys, Holder(id, pid));
      var fault := q.Trip();
      row := if !fault && pid in q.payouts then Some(q.payouts[pid]) else None;
      ghost var h := Holder(id, pid);
      ReadNext(sys, h, !fault);
      ghost var c := if fault then sys.claims[h].(phase := FallbackPayout)
                     else Claim(sys.db.payouts[pid], FallbackRelease);
      RecordMove(Fallback(h, !fault), pid, c, sys.(claims := sys.claims[h := c]));
    }

    method FallbackReleaseFunds(pid: Uuid, row: Payout)
      requires Valid() && Holding(pid, FallbackRelease) && sys.claims[Holder(id, pid)].row == row
      modifies this, q
      ensures Went() && Quiet() && KeptBut(Some(pid))
      ensures Holding(pid, FallbackTx) && sys.claims[Holder(id, pid)].row == row
      ensures Fell(pid, 1)
    {
      Yield();
      var _ := ReleaseFunds(pid, row);
    }

    method ReleaseFunds(pid: Uuid, row: Payout) returns (ok: bool)
      requires Valid() && Holding(pid, FallbackRelease) && sys.claims[Holder(id, pid)].row == row
      modifies this, q
      ensures Went() && Quiet() && KeptBut(Some(pid))
      ensures Holding(pid, FallbackTx) && sys.claims[Holder(id, pid)].row == row
      ensures Wrote(pid, ok)
    {
      var done := q.ReleaseAccountFundsSafe(row.account, row.amount);
      ok := done.Ok?;
      ghost var h, c := Holder(id, pid), Claim(row, FallbackTx);
      ghost var released := ReleaseNext(sys, h, row, q.Snapshot(), done.Ok?);
      RecordMove(Fallback(h, done.Ok?), pid, c, At(sys.(db := q.Snapshot(), released := released), h, FallbackTx));
    }

    method FallbackFailTx(pid: Uuid, row: Payout)
      requires Valid() && Holding(pid, FallbackTx) && sys.claims[Holder(id, pid)].row == row
      modifies this, q
      ensures Went() && Quiet() && KeptBut(Some(pid)) && Holding(pid, FallbackPayout) && Fell(pid, 2)
    {
      WinsMore(Mine(hist.events, Holder(id, pid)), Holder(id, pid), 1, 1);
      var marked := FallbackMarkTx(pid, row);
      if marked {
        FallbackNote(pid, row);
      }
    }

    method FallbackMarkTx(pid: Uuid, row: Payout) returns (marked: bool)
      requires Valid() && Holding(pid, FallbackTx) && sys.claims[Holder(id, pid)].row == row
      modifies this, q
      ensures Went() && Quiet() && KeptBut(Some(pid))
      ensures Holding(pid, if marked then FallbackAudit else FallbackPayout) && sys.claims[Holder(id, pid)].row == row
      ensures (q.faults == old(q.faults) ==> marked) && Fell(pid, 1)
    {
      Yield();
      marked := MarkTx(pid, row);
    }

    method MarkTx(pid: Uuid, row: Payout) returns (marked: bool)
      requires Valid() && Holding(pid, FallbackTx) && sys.claims[Holder(id, pid)].row == row
      modifies this, q
      ensures Went() && Quiet() && KeptBut(Some(pid))
      ensures Holding(pid, if marked then FallbackAudit else FallbackPayout) && sys.claims[Holder(id, pid)].row == row
      ensures Wrote(pid, marked)
    {
      ClaimedTx(hist, sys, Holder(id, pid));
      var failed := q.UpdateTransactionStatus(row.tx, Failed);
      marked := failed.Ok?;
      ghost var h, phase := Holder(id, pid), if marked then FallbackAudit else FallbackPayout;
      TxNext(sys, h, row, q.Snapshot(), marked);
      RecordMove(Fallback(h, marked), pid, Claim(row, phase), At(sys.(db := q.Snapshot()), h, phase));
    }

    method FallbackNote(pid: Uuid, row: Payout)
      requires Valid() && Holding(pid, FallbackAudit) && sys.claims[Holder(id, pid)].row == row
      modifies this, q
      ensures Went() && Quiet() && KeptBut(Some(pid)) && Holding(pid, FallbackPayout)
      ensures Fell(pid, 1)
    {
      Yield();
      var _ := NoteFallback(pid, row);
    }

    method NoteFallback(pid: Uuid, row: Payout) returns (ok: bool)
      requires Valid() && Holding(pid, FallbackAudit) && sys.claims[Holder(id, pid)].row == row
      modifies this, q
      ensures Went() && Quiet() && KeptBut(Some(pid)) && Holding(pid, FallbackPayout)
      ensures Wrote(pid, ok)
    {
      var before := q.BeginTx();
      var body := q.WriteAudit(Audit(row.tx, PayoutFailedFallback, None, Failed));
      var noted := q.EndTx(before, body);
      ok := noted.Ok?;
      ghost var h := Holder(id, pid);
      ghost var next := At(sys.(db := q.Snapshot()), h, FallbackPayout);
      NoteNext(sys, h, row, q.Snapshot(), noted.Ok?);
      RecordMove(Fallback(h, noted.Ok?), pid, Claim(row, FallbackPayout), next);
    }

    method FallbackFailPayout(pid: Uuid) returns (end: Status)
      requires Valid() && Holding(pid, FallbackPayout)
      modifies this, q
      ensures Went() && Quiet() && KeptBut(Some(pid)) && Let(pid)
      ensures (end == Failed || end == Processing) && Lands(pid, end) && Did(Fallback(Holder(id, pid), end == Failed))
      ensures q.faults == old(q.faults) ==> end == Failed
      ensures Fell(pid, 1)
    {
      Yield();
      end := ClosePayout(pid);
    }

    method ClosePayout(pid: Uuid) returns (end: Status)
      requires Valid() && Holding(pid, FallbackPayout)
      modifies this, q
      ensures Went() && Quiet() && KeptBut(Some(pid)) && Let(pid)
      ensures (end == Failed || end == Processing) && Lands(pid, end) && Did(Fallback(Holder(id, pid), end == Failed))
      ensures Wrote(pid, end == Failed)
    {
      ClaimedRow(hist, sys, Holder(id, pid));
      var write := q.UpdatePayoutStatus(pid, Failed, None);
      end := if write.Ok? then Failed else Processing;
      ghost var h := Holder(id, pid);
      ghost var released := CloseNext(sys, h, q.Snapshot(), write.Ok?);
      RecordDrop(Fallback(h, write.Ok?), pid, Drop(sys.(db := q.Snapshot(), released := released), h));
    }

    // ---- claiming, requeuing, recovering ----

    /** Nothing is claimed by this worker. */
    ghost predicate Idle()
      reads this
    {
      forall p: Uuid :: Holder(id, p) !in sys.claims
    }

    /** Exactly the listed payouts are claimed by this worker, and none has been sent. */
    ghost predicate Queued(rows: seq<Selected>)
      reads this
    {
      && Waiting(sys, id, rows) && AllClaimed(sys, id, rows)
      && forall p: Uuid | Holder(id, p) in sys.claims :: Lists(rows, p)
    }

    /** One transaction puts stale PROCESSING payouts back in the queue. */
    method RecoverStale(limit: int, recent: set<Uuid>) returns (r: Result<seq<Selected>>)
      requires Valid() && Idle()
      modifies this, q
      ensures Went() && Quiet() && Idle()
      ensures r.Ok? ==> |r.value| <= limit
      ensures r.Ok? ==> forall i | 0 <= i < |r.value| ::
                          r.value[i].row.status == Processing && Requeued(r.value[i].id)
      ensures r.Ok? ==> Swept(hist, |old(hist).events|, Processing, recent, limit)
      ensures r.Err? && r.error == Fault ==> q.faults > old(q.faults)
      ensures r.Err? && r.error != Fault ==> r.error == InvalidTransition && Obstructed(q.Snapshot())
      ensures r.Err? && r.error != Fault && Calm(hist) ==>
                exists h :: h in sys.claims && AfterRelease(sys.claims[h].phase)
    {
      Yield();
      ghost var from := |hist.events|;
      r := RecoverNow(limit, recent);
      RecoveredSince(hist, from, |old(hist).events|, limit);
      if r.Ok? {
        SweptNow(hist, sys, |old(hist).events|, Processing, recent, limit);
      }
    }

    method RecoverNow(limit: int, recent: set<Uuid>) returns (r: Result<seq<Selected>>)
      requires Valid() && Idle()
      modifies this, q
      ensures Went() && Quiet() && Idle()
      ensures r.Ok? ==> |r.value| <= limit
      ensures r.Ok? ==> forall i | 0 <= i < |r.value| ::
                          r.value[i].row.status == Processing && Requeued(r.value[i].id)
      ensures r.Ok? ==> NoneLeft(q.Snapshot(), Processing, recent) || Recovered(hist, |old(hist).events|, limit)
      ensures r.Err? && r.error == Fault ==> q.faults > old(q.faults)
      ensures r.Err? && r.error != Fault ==> r.error == InvalidTransition && Obstructed(q.Snapshot())
      ensures r.Err? && r.error != Fault && Calm(hist) ==>
                exists h :: h in sys.claims && AfterRelease(sys.claims[h].phase)
    {
      var before := q.BeginTx();
      var stale := q.SelectPayouts(Processing, limit, recent);
      if stale.Err? {
        return Err(stale.error);
      }
      var body := Service.MoveRows(q, stale.value, Pending, RequeueStale);
      var done := q.EndTx(before, body);
      if done.Err? {
        if done.error != Fault {
          RecoveryObstructed(hist, sys, stale.value);
        }
        return Err(done.error);
      }
      if |stale.value| < limit {
        AllMoved(before, stale.value, Processing, Pending, RequeueStale, recent);
      }
      RecordRecovered(stale.value);
      r := Ok(stale.value);
    }

    predicate Requeued(pid: Uuid)
      reads q
    {
      pid in q.payouts && q.payouts[pid].status == Pending && q.payouts[pid].gatewayRef == None
    }

    ghost method RecordRecovered(rows: seq<Selected>)
      requires Reached(hist, sys) && Selection(sys.db, rows, Processing)
      requires Payouts.MoveRows(sys.db, rows, Pending, RequeueStale) == Ok(q.Snapshot())
      modifies `hist, `sys
      ensures Went() && Quiet() && KeptBut(None)
      ensures forall i | 0 <= i < |rows| :: Requeued(rows[i].id)
      ensures Recovered(hist, |old(hist).events|, |rows|)
    {
      MovedListed(sys.db, rows, Pending, RequeueStale);
      RecoversNext(sys, rows, q.Snapshot());
      RecordQuiet(Recoveries(rows), sys.(db := q.Snapshot()));
      assert RecoveredAt(hist, |old(hist).events|, |rows|);
    }

    /** One transaction claims pending payouts, up to the batch size. */
    method ClaimPending(limit: int, busy: set<Uuid>) returns (r: Result<seq<Selected>>)
      requires Valid() && Idle()
      modifies this, q
      ensures Went()
      ensures r.Err? ==> Idle() && Quiet()
      ensures r.Ok? ==> Queued(r.value) && |r.value| <= limit && Taken(r.value)
      ensures r.Ok? ==> forall i | 0 <= i < |r.value| :: r.value[i].id !in busy
      ensures r.Ok? ==> |r.value| == limit || NoneLeft(q.Snapshot(), Pending, busy)
      ensures Calm(hist) && q.faults == old(q.faults) ==> r.Ok?
      ensures r.Err? && r.error == Fault ==> q.faults > old(q.faults)
      ensures r.Err? ==> r.error == Fault || (!Calm(hist) && r.error != Canceled)
    {
      Yield();
      r := ClaimNow(limit, busy);
    }

    method ClaimNow(limit: int, busy: set<Uuid>) returns (r: Result<seq<Selected>>)
      requires Valid() && Idle()
      modifies this, q
      ensures Went()
      ensures r.Err? ==> Idle() && Quiet()
      ensures r.Ok? ==> Queued(r.value) && |r.value| <= limit && Taken(r.value)
      ensures r.Ok? ==> forall i | 0 <= i < |r.value| :: r.value[i].id !in busy
      ensures r.Ok? ==> |r.value| == limit || NoneLeft(q.Snapshot(), Pending, busy)
      ensures Calm(hist) && q.faults == old(q.faults) ==> r.Ok?
      ensures r.Err? && r.error == Fault ==> q.faults > old(q.faults)
      ensures r.Err? ==> r.error == Fault || (!Calm(hist) && r.error != Canceled)
    {
      var before := q.BeginTx();
      var pending := q.SelectPayouts(Pending, limit, busy);
      if pending.Err? {
        return Err(pending.error);
      }
      ghost var open := !Calm(hist) || Payouts.MoveRows(before, pending.value, Processing, ProcessingStarted).Ok?;
      assert open by {
        if Calm(hist) {
          CalmClaims(hist, sys, pending.value);
        }
      }
      var body := Service.MoveRows(q, pending.value, Processing, ProcessingStarted);
      var done := q.EndTx(before, body);
      if done.Err? {
        MoveRefused(before, pending.value, Processing, ProcessingStarted);
        return Err(done.error);
      }
      if |pending.value| < limit {
        AllMoved(before, pending.value, Pending, Processing, ProcessingStarted, busy);
      }
      RecordClaimed(pending.value);
      r := Ok(pending.value);
    }

    /** Each listed payout has been taken once more, no other, and nothing was accepted. */
    twostate predicate Taken(new rows: seq<Selected>)
      reads this
    {
      forall p: Uuid ::
        && Times(hist.events, Take, Holder(id, p)) ==
           Times(old(hist).events, Take, Holder(id, p)) + (if Lists(rows, p) then 1 else 0)
        && Times(hist.events, Send, Holder(id, p)) == Times(old(hist).events, Send, Holder(id, p))
    }

    ghost method RecordClaimed(rows: seq<Selected>)
      requires Reached(hist, sys) && Idle() && Selection(sys.db, rows, Pending)
      requires Payouts.MoveRows(sys.db, rows, Processing, ProcessingStarted) == Ok(q.Snapshot())
      modifies `hist, `sys
      ensures Went() && Queued(rows) && Taken(rows)
    {
      var next := ClaimsNext(sys, id, rows, q.Snapshot());
      RecordAll(Claims(id, rows), next);
      forall p: Uuid
        ensures Times(hist.events, Take, Holder(id, p)) ==
                Times(old(hist).events, Take, Holder(id, p)) + (if Lists(rows, p) then 1 else 0)
        ensures Times(hist.events, Send, Holder(id, p)) == Times(old(hist).events, Send, Holder(id, p))
      {
        ClaimsCounted(old(hist).events, id, rows, p);
      }
    }

    /** Gives claimed payouts back in one transaction. If it fails they stay PROCESSING and unheld. */
    method RequeueClaimed(rows: seq<Selected>) returns (end: Status)
      requires Valid() && Waiting(sys, id, rows)
      modifies this, q
      ensures Went() && Quiet() && Released(rows)
      ensures end == Pending || end == Processing
      ensures forall i | 0 <= i < |rows| :: Lands(rows[i].id, end)
      ensures Calm(hist) && q.faults == old(q.faults) ==> end == Pending
    {
      Yield();
      end := RequeueNow(rows);
    }

    method RequeueNow(rows: seq<Selected>) returns (end: Status)
      requires Valid() && Waiting(sys, id, rows)
      modifies this, q
      ensures Went() && Quiet() && Released(rows)
      ensures end == Pending || end == Processing
      ensures forall i | 0 <= i < |rows| :: Lands(rows[i].id, end)
      ensures Calm(hist) && q.faults == old(q.faults) ==> end == Pending
    {
      ghost var open := !Calm(hist) || Payouts.MoveRows(sys.db, rows, Pending, Action.RequeueClaimed).Ok?;
      assert open by {
        if Calm(hist) {
          CalmRequeues(hist, sys, id, rows);
        }
      }
      var before := q.BeginTx();
      var body := Service.MoveRows(q, rows, Pending, Action.RequeueClaimed);
      var done := q.EndTx(before, body);
      if done.Ok? {
        RecordRequeued(rows);
        end := Pending;
      } else {
        RecordAbandoned(rows);
        end := Processing;
      }
    }

    /** This worker has let go of the listed payouts and of nothing else. */
    twostate predicate Released(new rows: seq<Selected>)
      reads this
    {
      forall p: Uuid ::
        && (Holder(id, p) in sys.claims <==> Holder(id, p) in old(sys).claims && !Lists(rows, p))
        && (Holder(id, p) in sys.claims ==> sys.claims[Holder(id, p)] == old(sys).claims[Holder(id, p)])
    }

    ghost method RecordRequeued(rows: seq<Selected>)
      requires Reached(hist, sys) && Waiting(sys, id, rows)
      requires Payouts.MoveRows(sys.db, rows, Pending, Action.RequeueClaimed) == Ok(q.Snapshot())
      modifies `hist, `sys
      ensures Went() && Quiet() && Released(rows)
      ensures forall i | 0 <= i < |rows| :: Requeued(rows[i].id)
    {
      MovedListed(sys.db, rows, Pending, Action.RequeueClaimed);
      var next := RequeuesNext(sys, id, rows, q.Snapshot());
      RecordQuiet(Requeues(id, rows), next);
    }

    /** The worker forgets payouts it has not sent; their rows stay as they are. */
    ghost method RecordAbandoned(rows: seq<Selected>)
      requires Valid() && Waiting(sys, id, rows)
      modifies `hist, `sys
      ensures Went() && Quiet() && Released(rows)
      ensures forall i | 0 <= i < |rows| :: Lands(rows[i].id, Processing)
    {
      forall i | 0 <= i < |rows|
        ensures rows[i].id in q.payouts && (Steady(hist, rows[i].id) ==> q.payouts[rows[i].id].status == Processing)
      {
        assert Pends(sys, id, rows[i]);
        ClaimedRow(hist, sys, Holder(id, rows[i].id));
      }
      var next := AbandonsNext(sys, id, rows);
      RecordQuiet(Abandons(id, rows), next);
    }

    // ---- the batch ----

    /** Nothing was taken; at most `pid` was accepted, once, when `accepted`. */
    twostate predicate SentOnly(new pid: Uuid, new accepted: bool)
      reads this
    {
      forall p: Uuid ::
        && Times(hist.events, Take, Holder(id, p)) == Times(old(hist).events, Take, Holder(id, p))
        && Times(hist.events, Send, Holder(id, p)) ==
           Times(old(hist).events, Send, Holder(id, p)) + (if p == pid && accepted then 1 else 0)
    }

    ghost predicate Unanswered(pid: Uuid, row: Payout)
      reads this
    {
      Unheard(sys, Holder(id, pid)) && sys.claims[Holder(id, pid)].row == row
    }

    /** The gateway may have taken a payout whose call ends badly; the worker cannot tell. */
    method MaybeTaken(pid: Uuid, row: Payout)
      requires Valid() && Holding(pid, Claimed) && sys.claims[Holder(id, pid)].row == row
      modifies this
      ensures Went() && Quiet() && KeptBut(Some(pid)) && Unanswered(pid, row)
    {
      ghost var taken: bool := *;
      if taken {
        ghost var h, c := Holder(id, pid), Claim(row, Phase.Unanswered);
        TakesNext(sys, h);
        RecordMove(GatewayTakes(h), pid, c, At(sys.(sent := sys.sent + [pid]), h, Phase.Unanswered));
      }
    }

    /** A refusal by the gateway, or a payout not sent because its transaction could not be read. */
    method Refuse(pid: Uuid, row: Payout) returns (end: Status)
      requires Valid() && Unanswered(pid, row)
      modifies this, q
      ensures Went() && Quiet() && KeptBut(Some(pid)) && Let(pid)
      ensures (end == Failed || end == Processing) && Lands(pid, end)
      ensures q.faults == old(q.faults) ==> end == Failed
    {
      ghost var h := Holder(id, pid);
      RefusesNext(sys, h);
      RecordMove(GatewayRefuses(h), pid, Claim(row, Refused), At(sys, h, Refused));
      end := HandlePayoutFailure(pid, row);
    }

    ghost method RecordAccepted(pid: Uuid, gatewayRef: string)
      requires Valid() && Holding(pid, Claimed)
      modifies `hist, `sys
      ensures Went() && SentOnly(pid, true) && KeptBut(Some(pid)) && Holding(pid, Sent(gatewayRef))
      ensures sys.claims[Holder(id, pid)].row == old(sys).claims[Holder(id, pid)].row
    {
      ghost var h := Holder(id, pid);
      AcceptsNext(sys, h, gatewayRef);
      Record(GatewayAccepts(h, gatewayRef), At(sys.(sent := sys.sent + [pid]), h, Sent(gatewayRef)));
    }

    method Accept(pid: Uuid, row: Payout, gatewayRef: string) returns (end: Status)
      requires Valid() && Holding(pid, Claimed) && sys.claims[Holder(id, pid)].row == row
      modifies this, q
      ensures Went() && SentOnly(pid, true) && KeptBut(Some(pid)) && Let(pid)
      ensures (end == Completed || end == ManualReview || end == Processing) && Lands(pid, end)
      ensures q.faults == old(q.faults) ==> end != Processing && (Calm(hist) ==> end == Completed)
    {
      RecordAccepted(pid, gatewayRef);
      end := HandlePayoutSuccess(pid, row, gatewayRef);
    }

    method GiveBack(pid: Uuid, row: Payout) returns (end: Status)
      requires Valid() && Unanswered(pid, row)
      modifies this, q
      ensures Went() && Quiet() && KeptBut(Some(pid)) && Let(pid)
      ensures (end == Pending || end == Processing) && Lands(pid, end)
      ensures Calm(hist) && q.faults == old(q.faults) ==> end == Pending
    {
      var one := [Selected(pid, row)];
      assert Pends(sys, id, one[0]);
      assert forall p: Uuid :: Lists(one, p) <==> p == pid by {
        assert one[0].id == pid;
      }
      end := RequeueClaimed(one);
      assert Lands(one[0].id, end);
    }

    /** The gateway's answer and what follows from it: an acceptance is settled or parked, a refusal is
        failed, an interrupted call is given back and never parked. */
    method Answer(pid: Uuid, row: Payout, world: World) returns (rep: Report)
      requires Valid() && Holding(pid, Claimed) && sys.claims[Holder(id, pid)].row == row
      modifies this, q
      ensures Went() && SentOnly(pid, rep.Accepted()) && KeptBut(Some(pid)) && Let(pid)
      ensures rep.id == pid && rep.fate == Asked(world.gateway(pid)) && Outcome(rep) && Lands(pid, rep.end)
      ensures Calm(hist) && q.faults == old(q.faults) ==> rep.end == Due(rep.fate, false)
      ensures q.faults == old(q.faults) ==> Firm(rep)
    {
      var answer := world.gateway(pid);
      var end;
      match answer {
        case Accepted(gatewayRef) =>
          end := Accept(pid, row, gatewayRef);
        case Declined =>
          MaybeTaken(pid, row);
          end := Refuse(pid, row);
        case Interrupted =>
          MaybeTaken(pid, row);
          end := GiveBack(pid, row);
      }
      rep := Report(pid, Asked(answer), end);
    }

    /** One turn of the batch loop. The pass stops if and only if the gateway call was interrupted. */
    method ProcessOne(pid: Uuid, row: Payout, world: World) returns (rep: Report, stop: bool)
      requires Valid() && Holding(pid, Claimed) && sys.claims[Holder(id, pid)].row == row
      modifies this, q
      ensures Went() && SentOnly(pid, rep.Accepted()) && KeptBut(Some(pid)) && Let(pid)
      ensures rep.id == pid && Outcome(rep) && Lands(pid, rep.end)
      ensures rep.fate == Asked(world.gateway(pid)) || (rep.fate == Unread && q.faults > old(q.faults))
      ensures stop <==> rep.Interrupted()
      ensures Calm(hist) && q.faults == old(q.faults) ==> rep.end == Due(rep.fate, false)
      ensures q.faults == old(q.faults) ==> Firm(rep)
    {
      Yield();
      rep := Attempt(pid, row, world);
      stop := rep.Interrupted();
    }

    /** Reads the payout's transaction and asks the gateway; a failed read is a refusal. */
    method Attempt(pid: Uuid, row: Payout, world: World) returns (rep: Report)
      requires Valid() && Holding(pid, Claimed) && sys.claims[Holder(id, pid)].row == row
      modifies this, q
      ensures Went() && SentOnly(pid, rep.Accepted()) && KeptBut(Some(pid)) && Let(pid)
      ensures rep.id == pid && Outcome(rep) && Lands(pid, rep.end)
      ensures rep.fate == Asked(world.gateway(pid)) || (rep.fate == Unread && q.faults > old(q.faults))
      ensures Calm(hist) && q.faults == old(q.faults) ==> rep.end == Due(rep.fate, false)
      ensures q.faults == old(q.faults) ==> Firm(rep)
    {
      ClaimedTx(hist, sys, Holder(id, pid));
      var fault := q.Trip();
      if fault || row.tx !in q.txs {
        var end := Refuse(pid, row);
        rep := Report(pid, Unread, end);
      } else {
        rep := Answer(pid, row, world);
      }
    }

    ghost predicate Stands(rep: Report, from: nat)
      reads this, q
    {
      StandsIn(hist, q.Snapshot(), id, rep, from)
    }

    /** The payouts reported so far. */
    ghost predicate Reported(claimed: seq<Selected>, report: seq<Report>, from: nat)
      reads this, q
    {
      ReportedIn(hist, q.Snapshot(), id, claimed, report, from)
    }

    ghost predicate Accounted(was: seq<Event>, report: seq<Report>)
      reads this
    {
      AccountedIn(was, hist.events, id, report)
    }

    /** Processes the first of the payouts still queued. */
    method ProcessNext(claimed: seq<Selected>, i: nat, world: World) returns (rep: Report, stop: bool)
      requires i < |claimed| && Valid() && Queued(claimed[i..])
      modifies this, q
      ensures Went() && SentOnly(claimed[i].id, rep.Accepted()) && Queued(claimed[i + 1..])
      ensures rep.id == claimed[i].id && Outcome(rep) && LandsIn(hist, sys, id, rep.id, rep.end)
      ensures rep.fate == Asked(world.gateway(rep.id)) || (rep.fate == Unread && q.faults > old(q.faults))
      ensures stop <==> rep.Interrupted()
      ensures Calm(hist) && q.faults == old(q.faults) ==> rep.end == Due(rep.fate, false)
      ensures q.faults == old(q.faults) ==> Firm(rep)
    {
      assert claimed[i..][0] == claimed[i];
      ghost var s0 := sys;
      rep, stop := ProcessOne(claimed[i].id, claimed[i].row, world);
      QueuedNext(s0, sys, id, claimed, i);
    }

    /** One more turn: the next payout is processed and its outcome reported. */
    method Turn(claimed: seq<Selected>, report: seq<Report>, world: World, ghost was: seq<Event>)
      returns (rep: Report, stop: bool)
      requires |report| < |claimed| && Distinct(claimed) && NoneSkipped(report) && was <= hist.events
      requires Valid() && Queued(claimed[|report|..]) && Reported(claimed, report, |was|) && Accounted(was, report)
      modifies this, q
      ensures Went() && Queued(claimed[|report| + 1..]) && was <= hist.events
      ensures Reported(claimed, report + [rep], |was|) && Accounted(was, report + [rep])
      ensures rep.fate == Asked(world.gateway(rep.id)) || (rep.fate == Unread && q.faults > old(q.faults))
      ensures stop <==> rep.Interrupted()
      ensures Calm(hist) && q.faults == old(q.faults) ==> rep.end == Due(rep.fate, false)
      ensures q.faults == old(q.faults) ==> Firm(rep)
    {
      ghost var h0, s0 := hist, sys;
      rep, stop := ProcessNext(claimed, |report|, world);
      TurnReported(h0, s0, hist, sys, id, claimed, report, rep, was);
    }

    method NextTurn(claimed: seq<Selected>, report: seq<Report>, world: World, ghost was: seq<Event>,
                    ghost smooth: bool)
      returns (report': seq<Report>, stop: bool)
      requires |report| < |claimed| && Distinct(claimed) && NoneSkipped(report) && was <= hist.events
      requires Valid() && Queued(claimed[|report|..]) && Reported(claimed, report, |was|) && Accounted(was, report)
      requires Heard(report, world, smooth) && Running(report, world) && !Broken(report) && !world.cancelled(|report|)
      modifies this, q
      ensures |report'| == |report| + 1 && NoneSkipped(report') && was <= hist.events
      ensures Went() && Queued(claimed[|report'|..]) && Reported(claimed, report', |was|) && Accounted(was, report')
      ensures Broken(report') <==> stop
      ensures Heard(report', world, smooth && q.faults == old(q.faults)) && Running(report', world)
      ensures Calm(hist) && q.faults == old(q.faults) && Fulfilled(report) ==> Fulfilled(report')
    {
      var rep;
      rep, stop := Turn(claimed, report, world, was);
      report' := report + [rep];
      FulfilledSnoc(report, rep);
      HeardSnoc(report, rep, world, smooth, smooth && q.faults == old(q.faults));
    }

    /** Lets go of everything not yet processed: requeued on cancellation, otherwise abandoned. */
    method Leave(claimed: seq<Selected>, report: seq<Report>, requeue: bool, ghost was: seq<Event>)
      returns (report': seq<Report>, ghost end: Status)
      requires |report| <= |claimed| && Distinct(claimed) && NoneSkipped(report) && was <= hist.events
      requires Valid() && Queued(claimed[|report|..]) && Reported(claimed, report, |was|) && Accounted(was, report)
      modifies this, q
      ensures |report'| == |claimed| && report <= report' && was <= hist.events
      ensures Went() && Idle() && Reported(claimed, report', |was|) && Accounted(was, report')
      ensures report' == report + Unsent(claimed[|report|..], end)
      ensures Calm(hist) && q.faults == old(q.faults) && Fulfilled(report) && (requeue <==> !Broken(report)) ==>
                Fulfilled(report')
    {
      var rest := claimed[|report|..];
      ghost var h0, s0 := hist, sys;
      var left := LetGoAll(rest, requeue);
      report', end := report + Unsent(rest, left), left;
      forall k | |report| <= k < |claimed| ensures LandsIn(hist, sys, id, claimed[k].id, end) {
        assert rest[k - |report|] == claimed[k];
      }
      ReportedStill(h0, s0, hist, sys, id, claimed, report, |was|);
      ReportedRest(hist, sys, id, claimed, report, end, |was|);
      FulfilledRest(report, rest, end);
      AccountedRest(was, h0.events, hist.events, id, report, rest, end);
    }

    method LetGoAll(rest: seq<Selected>, requeue: bool) returns (end: Status)
      requires Valid() && Queued(rest)
      modifies this, q
      ensures Went() && Quiet() && Idle() && (end == Pending || end == Processing)
      ensures forall i | 0 <= i < |rest| :: Lands(rest[i].id, end)
      ensures Calm(hist) && q.faults == old(q.faults) ==> end == if requeue then Pending else Processing
    {
      if requeue {
        end := RequeueClaimed(rest);
      } else {
        RecordAbandoned(rest);
        end := Processing;
      }
    }

    /** A worker's pass: recover stale payouts, claim a batch, and take each claimed payout to an
        outcome unless the pass is cancelled. The report covers exactly the payouts it took, says
        truly which of them the gateway accepted and how each was left, and what it says of finished
        payouts lasts. Whatever is left PENDING or PROCESSING can be worked on again. */
    method ProcessPayouts(limit: int, world: World) returns (r: Result<()>, report: seq<Report>)
      requires Valid() && Idle()
      modifies this, q
      ensures Went() && Idle()
      ensures |report| <= limit || report == []
      ensures r.Err? && r.error == Fault ==> q.faults > old(q.faults)
      ensures Counted(report) && Obeys(report, world, q.faults == old(q.faults))
      ensures r.Ok? || r.error == Canceled ==>
                && (|report| == limit || Cleared(hist, |old(hist).events|, Pending, world.busy))
                && Swept(hist, |old(hist).events|, Processing, world.recent, limit)
      ensures Upheld(report, |old(hist).events|)
      ensures r.Ok? || r.error == Canceled ==> (r.Ok? <==> Whole(report))
      ensures Calm(hist) && q.faults == old(q.faults) ==> Fulfilled(report)
      ensures r.Err? && Calm(hist) && r.error != Fault && r.error != Canceled ==>
                report == [] && Obstructed(q.Snapshot())
    {
      var recovered := RecoverStale(limit, world.recent);
      if recovered.Ok? {
        ghost var mid := hist;
        r, report := ClaimAndProcess(limit, world, |old(hist).events|);
        SweptLater(mid, hist, |old(hist).events|, Processing, world.recent, limit);
      } else {
        r, report := Err(recovered.error), [];
        assert Whole(report) && Fulfilled(report) && Counted(report);
      }
    }

    /** Every report is an outcome that stands in the tables and in the history since `since`; in a calm
        history every reported payout can be worked on again. */
    ghost predicate Upheld(report: seq<Report>, since: nat)
      reads this, q
    {
      && (forall k | 0 <= k < |report| :: Outcome(report[k]) && Stands(report[k], since))
      && (Calm(hist) ==> forall k | 0 <= k < |report| :: Workable(sys, report[k].id))
    }

    method ClaimAndProcess(limit: int, world: World, ghost since: nat) returns (r: Result<()>, report: seq<Report>)
      requires Valid() && Idle() && since <= |hist.events|
      modifies this, q
      ensures Went() && Idle()
      ensures |report| <= limit || report == []
      ensures r.Err? && r.error == Fault ==> q.faults > old(q.faults)
      ensures Counted(report) && Obeys(report, world, q.faults == old(q.faults))
      ensures r.Ok? || r.error == Canceled ==> |report| == limit || Cleared(hist, since, Pending, world.busy)
      ensures Upheld(report, since)
      ensures r.Ok? || r.error == Canceled ==> (r.Ok? <==> Whole(report))
      ensures Calm(hist) && q.faults == old(q.faults) ==> Fulfilled(report)
      ensures r.Err? && Calm(hist) ==> r.error == Fault || r.error == Canceled
    {
      var batch := ClaimPending(limit, world.busy);
      if batch.Ok? {
        ghost var mid, from := hist, |hist.events|;
        ghost var cleared := NoneLeft(q.Snapshot(), Pending, world.busy);
        r, report := ProcessClaimed(batch.value, world);
        NamedAll(batch.value, report);
        if cleared {
          ClearedLater(mid, hist, since, Pending, world.busy);
        }
        StandsSince(hist, q.Snapshot(), id, report, from, since);
      } else {
        r, report := Err(batch.error), [];
        assert Whole(report) && Fulfilled(report) && Counted(report);
      }
    }

    /** Exactly the named payouts have been taken, and exactly the accepted ones accepted, once each. */
    twostate predicate Counted(new report: seq<Report>)
      reads this
    {
      forall p: Uuid ::
        && Times(hist.events, Take, Holder(id, p)) ==
           Times(old(hist).events, Take, Holder(id, p)) + (if Named(report, p) then 1 else 0)
        && Times(hist.events, Send, Holder(id, p)) ==
           Times(old(hist).events, Send, Holder(id, p)) + (if SentIn(report, p) then 1 else 0)
    }

    /** The loop over the claimed payouts. On a cancellation with no lost write everything not reached is
        PENDING again; after an interrupted call it stays PROCESSING. */
    method ProcessClaimed(claimed: seq<Selected>, world: World) returns (r: Result<()>, report: seq<Report>)
      requires Valid() && Queued(claimed) && forall k | 0 <= k < |claimed| :: claimed[k].id !in world.busy
      modifies this, q
      ensures Went() && Idle() && |report| == |claimed| && (r.Ok? || r.error == Canceled)
      ensures Reported(claimed, report, |old(hist).events|) && Accounted(old(hist).events, report)
      ensures Calm(hist) ==> forall k | 0 <= k < |report| :: Workable(sys, report[k].id)
      ensures r.Ok? <==> Whole(report)
      ensures Obeys(report, world, q.faults == old(q.faults))
      ensures Calm(hist) && q.faults == old(q.faults) ==> Fulfilled(report)
    {
      r, report := TakeTurns(claimed, world);
      if Calm(hist) {
        AllWorkable(old(hist), old(sys), hist, sys, id, claimed);
      }
    }

    method TakeTurns(claimed: seq<Selected>, world: World) returns (r: Result<()>, report: seq<Report>)
      requires Valid() && Queued(claimed) && forall k | 0 <= k < |claimed| :: claimed[k].id !in world.busy
      modifies this, q
      ensures Went() && Idle() && |report| == |claimed| && (r.Ok? || r.error == Canceled)
      ensures Reported(claimed, report, |old(hist).events|) && Accounted(old(hist).events, report)
      ensures r.Ok? <==> Whole(report)
      ensures Obeys(report, world, q.faults == old(q.faults))
      ensures Calm(hist) && q.faults == old(q.faults) ==> Fulfilled(report)
    {
      var cancelled, stop;
      report, cancelled, stop := Turns(claimed, world);
      r := if cancelled || stop then Err(Canceled) else Ok(());
      ghost var done, end, smooth := report, Pending, q.faults == old(q.faults);
      if cancelled || stop {
        report, end := Leave(claimed, report, cancelled, old(hist).events);
      }
      assert report == done + Unsent(claimed[|done|..], end);
      WholeIff(done, report);
      ObeysRest(done, claimed[|done|..], end, world, smooth, q.faults == old(q.faults));
    }

    /** Turns until every claimed payout has had its own, a cancellation, or an interrupted call. */
    method Turns(claimed: seq<Selected>, world: World) returns (report: seq<Report>, cancelled: bool, stop: bool)
      requires Valid() && Queued(claimed)
      modifies this, q
      ensures |report| <= |claimed| && NoneSkipped(report) && Distinct(claimed) && old(hist).events <= hist.events
      ensures Went() && Queued(claimed[|report|..]) && Accounted(old(hist).events, report)
      ensures Reported(claimed, report, |old(hist).events|)
      ensures (stop <==> Broken(report)) && !(stop && cancelled) && (cancelled ==> |report| < |claimed|)
      ensures !stop && !cancelled ==> |report| == |claimed|
      ensures Heard(report, world, q.faults == old(q.faults)) && Running(report, world)
      ensures cancelled ==> world.cancelled(|report|)
      ensures Calm(hist) && q.faults == old(q.faults) ==> Fulfilled(report)
    {
      report, cancelled, stop := [], false, false;
      assert claimed[0..] == claimed;
      while |report| < |claimed| && !cancelled && !stop
        invariant |report| <= |claimed| && Distinct(claimed) && NoneSkipped(report) && old(hist).events <= hist.events
        invariant Went() && Queued(claimed[|report|..]) && Accounted(old(hist).events, report)
        invariant Reported(claimed, report, |old(hist).events|)
        invariant (stop <==> Broken(report)) && !(stop && cancelled) && (cancelled ==> |report| < |claimed|)
        invariant Heard(report, world, q.faults == old(q.faults)) && Running(report, world)
        invariant cancelled ==> world.cancelled(|report|)
        invariant Calm(hist) && q.faults == old(q.faults) ==> Fulfilled(report)
        decreases |claimed| - |report|, !cancelled
      {
        cancelled := world.cancelled(|report|);
        if !cancelled {
          report, stop := NextTurn(claimed, report, world, old(hist).events, q.faults == old(q.faults));
        }
      }
    }
  }

  lemma WinsMore(m: seq<Event>, h: Holder, a: nat, b: nat)
    ensures m + Wins(h, a) + Wins(h, b) == m + Wins(h, a + b)
  {
  }

  lemma FallbackSteps(m: seq<Event>, h: Holder)
    ensures m + [FailAborts(h)] + Wins(h, 5) == m + FallbackRun(h)
  {
  }

  /** At some point since `from` every payout with this status was one the pass could not see. */
  ghost predicate Cleared(hist: History, from: nat, status: Status, passed: set<Uuid>) {
    exists j: nat | from <= j < |hist.states| :: NoneLeft(hist.states[j].db, status, passed)
  }

  /** Since `from` a whole batch of recoveries has followed one another. */
  ghost predicate Recovered(hist: History, from: nat, n: int) {
    exists j: nat | from <= j :: RecoveredAt(hist, j, n)
  }

  predicate RecoveredAt(hist: History, j: nat, n: int) {
    j + n <= |hist.events| && forall i | j <= i < j + n :: hist.events[i].DoRecover?
  }

  lemma RecoveredSince(hist: History, late: nat, early: nat, n: int)
    requires early <= late
    ensures Recovered(hist, late, n) ==> Recovered(hist, early, n)
  {
    if Recovered(hist, late, n) {
      var j: nat :| late <= j && RecoveredAt(hist, j, n);
      assert early <= j;
    }
  }

  ghost predicate Swept(hist: History, from: nat, status: Status, passed: set<Uuid>, n: int) {
    Cleared(hist, from, status, passed) || Recovered(hist, from, n)
  }

  lemma ClearedLater(was: History, hist: History, from: nat, status: Status, passed: set<Uuid>)
    requires Extends(was, hist) && Cleared(was, from, status, passed)
    ensures Cleared(hist, from, status, passed)
  {
    var j: nat :| from <= j < |was.states| && NoneLeft(was.states[j].db, status, passed);
    assert hist.states[j] == was.states[j];
  }

  lemma SweptNow(hist: History, s: Sys, from: nat, status: Status, passed: set<Uuid>, n: int)
    requires Reached(hist, s) && from <= |hist.events| && (NoneLeft(s.db, status, passed) || Recovered(hist, from, n))
    ensures Swept(hist, from, status, passed, n)
  {
    assert hist.states[|hist.events|] == s;
  }

  lemma SweptLater(was: History, hist: History, from: nat, status: Status, passed: set<Uuid>, n: int)
    requires Extends(was, hist) && Swept(was, from, status, passed, n)
    ensures Swept(hist, from, status, passed, n)
  {
    if Cleared(was, from, status, passed) {
      ClearedLater(was, hist, from, status, passed);
    } else {
      var j: nat :| from <= j && RecoveredAt(was, j, n);
      assert RecoveredAt(hist, j, n);
    }
  }

  /** How a worker ends with an accepted payout when no write is lost. */
  function Finish(h: Holder, end: Status): seq<Event> {
    if end == Completed then [DoSettle(h)] else [SettleAborts(h), MarkReview(h), AuditReview(h)]
  }

  /** Successful fallback writes. */
  function Wins(h: Holder, n: nat): seq<Event> {
    seq(n, _ => Fallback(h, true))
  }

  /** What a report says of one payout: the row was left like that at some point since `from`, and an
      outcome that lasts has lasted. Nothing is asked of other payouts. */
  ghost predicate StandsIn(hist: History, db: Db, w: nat, rep: Report, from: nat) {
    Steady(hist, rep.id) ==> Rests(db, rep.id, rep.end) && Left(hist, from, Holder(w, rep.id), rep.end)
  }

  ghost predicate ReportedIn(hist: History, db: Db, w: nat, claimed: seq<Selected>, report: seq<Report>, from: nat) {
    && |report| <= |claimed|
    && (forall k | 0 <= k < |report| ::
          report[k].id == claimed[k].id && Outcome(report[k]) && StandsIn(hist, db, w, report[k], from))
  }

  /** Between two points of the history exactly the reported acceptances have happened. */
  ghost predicate AccountedIn(was: seq<Event>, events: seq<Event>, w: nat, report: seq<Report>) {
    forall p: Uuid ::
      && Times(events, Take, Holder(w, p)) == Times(was, Take, Holder(w, p))
      && Times(events, Send, Holder(w, p)) == Times(was, Send, Holder(w, p)) + (if SentIn(report, p) then 1 else 0)
  }

  lemma AccountedMore(was: seq<Event>, events: seq<Event>, more: seq<Event>, w: nat, claimed: seq<Selected>,
                      report: seq<Report>, rep: Report)
    requires AccountedIn(was, events, w, report) && Distinct(claimed) && |report| < |claimed|
    requires rep.id == claimed[|report|].id && forall k | 0 <= k < |report| :: report[k].id == claimed[k].id
    requires forall p: Uuid ::
               && Times(more, Take, Holder(w, p)) == Times(events, Take, Holder(w, p))
               && Times(more, Send, Holder(w, p)) ==
                  Times(events, Send, Holder(w, p)) + (if p == rep.id && rep.Accepted() then 1 else 0)
    ensures AccountedIn(was, more, w, report + [rep])
  {
    forall p: Uuid ensures SentIn(report + [rep], p) <==> SentIn(report, p) || (p == rep.id && rep.Accepted()) {
      SentInSnoc(report, rep, p);
    }
    NotYetReported(claimed, report);
  }

  lemma AccountedRest(was: seq<Event>, events: seq<Event>, more: seq<Event>, w: nat, report: seq<Report>,
                      rest: seq<Selected>, end: Status)
    requires AccountedIn(was, events, w, report)
    requires forall m: Mark, p: Uuid | m != Lose :: Times(more, m, Holder(w, p)) == Times(events, m, Holder(w, p))
    ensures AccountedIn(was, more, w, report + Unsent(rest, end))
  {
    forall p: Uuid ensures SentIn(report + Unsent(rest, end), p) <==> SentIn(report, p) {
      UnsentAdds(report, rest, end, p);
    }
  }

  /** Where the worker has just let go of a payout. */
  ghost predicate LandsIn(hist: History, s: Sys, w: nat, p: Uuid, end: Status) {
    && Holder(w, p) !in s.claims
    && (Steady(hist, p) ==>
          && p in s.db.payouts
          && (s.db.payouts[p].status == end || (end == ManualReview && Final(s.db.payouts[p].status))))
  }

  lemma StandsNow(hist: History, s: Sys, w: nat, rep: Report, from: nat)
    requires Reached(hist, s) && from <= |hist.events| && LandsIn(hist, s, w, rep.id, rep.end)
    ensures StandsIn(hist, s.db, w, rep, from)
  {
    if Steady(hist, rep.id) {
      assert LeftAt(hist, |hist.events|, Holder(w, rep.id), rep.end);
    }
  }

  lemma StandsStill(was: History, s: Sys, hist: History, s': Sys, w: nat, rep: Report, from: nat)
    requires Reached(was, s) && Reached(hist, s') && Extends(was, hist) && StandsIn(was, s.db, w, rep, from)
    requires Steady(hist, rep.id) ==> Steady(was, rep.id)
    ensures StandsIn(hist, s'.db, w, rep, from)
  {
    if Steady(hist, rep.id) {
      SteadyRests(was, s, hist, s', rep.id, rep.end);
      LeftLater(was, hist, from, Holder(w, rep.id), rep.end);
    }
  }

  lemma ReportedStill(was: History, s: Sys, hist: History, s': Sys, w: nat, claimed: seq<Selected>,
                      report: seq<Report>, from: nat)
    requires Reached(was, s) && Reached(hist, s') && Extends(was, hist)
    requires (forall p :: Steady(hist, p) ==> Steady(was, p))
    requires ReportedIn(was, s.db, w, claimed, report, from)
    ensures ReportedIn(hist, s'.db, w, claimed, report, from)
  {
    forall k | 0 <= k < |report| ensures StandsIn(hist, s'.db, w, report[k], from) {
      StandsStill(was, s, hist, s', w, report[k], from);
    }
  }

  lemma ReportedMore(hist: History, s: Sys, w: nat, claimed: seq<Selected>, report: seq<Report>, rep: Report, from: nat)
    requires Reached(hist, s) && ReportedIn(hist, s.db, w, claimed, report, from) && from <= |hist.events|
    requires |report| < |claimed| && rep.id == claimed[|report|].id && Outcome(rep)
    requires LandsIn(hist, s, w, rep.id, rep.end)
    ensures ReportedIn(hist, s.db, w, claimed, report + [rep], from)
  {
    StandsNow(hist, s, w, rep, from);
    assert forall k | 0 <= k < |report| :: (report + [rep])[k] == report[k];
  }

  lemma ReportedNext(was: History, s: Sys, hist: History, s': Sys, w: nat, claimed: seq<Selected>, report: seq<Report>,
                     rep: Report, from: nat)
    requires Reached(was, s) && Reached(hist, s') && Extends(was, hist)
    requires forall p :: Steady(hist, p) ==> Steady(was, p)
    requires ReportedIn(was, s.db, w, claimed, report, from) && from <= |hist.events|
    requires |report| < |claimed| && rep.id == claimed[|report|].id && Outcome(rep)
    requires LandsIn(hist, s', w, rep.id, rep.end)
    ensures ReportedIn(hist, s'.db, w, claimed, report + [rep], from)
  {
    ReportedStill(was, s, hist, s', w, claimed, report, from);
    ReportedMore(hist, s', w, claimed, report, rep, from);
  }

  lemma TurnReported(was: History, s: Sys, hist: History, s': Sys, w: nat, claimed: seq<Selected>, report: seq<Report>,
                     rep: Report, start: seq<Event>)
    requires Reached(was, s) && Reached(hist, s') && Extends(was, hist)
    requires forall p :: Steady(hist, p) ==> Steady(was, p)
    requires ReportedIn(was, s.db, w, claimed, report, |start|) && start <= hist.events
    requires |report| < |claimed| && Distinct(claimed) && rep.id == claimed[|report|].id && Outcome(rep)
    requires LandsIn(hist, s', w, rep.id, rep.end) && AccountedIn(start, was.events, w, report)
    requires forall p: Uuid ::
               && Times(hist.events, Take, Holder(w, p)) == Times(was.events, Take, Holder(w, p))
               && Times(hist.events, Send, Holder(w, p)) ==
                  Times(was.events, Send, Holder(w, p)) + (if p == rep.id && rep.Accepted() then 1 else 0)
    ensures ReportedIn(hist, s'.db, w, claimed, report + [rep], |start|)
    ensures AccountedIn(start, hist.events, w, report + [rep])
  {
    ReportedNext(was, s, hist, s', w, claimed, report, rep, |start|);
    AccountedMore(start, was.events, hist.events, w, claimed, report, rep);
  }

  lemma ReportedRest(hist: History, s: Sys, w: nat, claimed: seq<Selected>, report: seq<Report>, end: Status, from: nat)
    requires Reached(hist, s) && ReportedIn(hist, s.db, w, claimed, report, from) && from <= |hist.events|
    requires end == Pending || end == Processing
    requires forall k | |report| <= k < |claimed| :: LandsIn(hist, s, w, claimed[k].id, end)
    ensures ReportedIn(hist, s.db, w, claimed, report + Unsent(claimed[|report|..], end), from)
  {
    var report' := report + Unsent(claimed[|report|..], end);
    forall k | 0 <= k < |report'|
      ensures report'[k].id == claimed[k].id && Outcome(report'[k]) && StandsIn(hist, s.db, w, report'[k], from)
    {
      if k < |report| {
        assert report'[k] == report[k];
      } else {
        assert report'[k] == Report(claimed[k].id, Skipped, end);
        StandsNow(hist, s, w, report'[k], from);
      }
    }
  }

  lemma StandsSince(hist: History, db: Db, w: nat, report: seq<Report>, late: nat, early: nat)
    requires (forall k | 0 <= k < |report| :: StandsIn(hist, db, w, report[k], late)) && early <= late
    ensures forall k | 0 <= k < |report| :: StandsIn(hist, db, w, report[k], early)
  {
    forall k | 0 <= k < |report| ensures StandsIn(hist, db, w, report[k], early) {
      if Steady(hist, report[k].id) {
        var j: nat :| late <= j && LeftAt(hist, j, Holder(w, report[k].id), report[k].end);
        assert early <= j;
      }
    }
  }

  lemma AllWorkable(was: History, s: Sys, hist: History, s': Sys, w: nat, claimed: seq<Selected>)
    requires Reached(was, s) && Reached(hist, s') && Extends(was, hist) && Waiting(s, w, claimed) && Calm(hist)
    ensures forall k | 0 <= k < |claimed| :: Workable(s', claimed[k].id)
  {
    forall k | 0 <= k < |claimed| ensures Workable(s', claimed[k].id) {
      assert Pends(s, w, claimed[k]);
      ClaimedRow(was, s, Holder(w, claimed[k].id));
      StillThere(was, s, hist, s', claimed[k].id);
      CalmWorkable(hist, s', claimed[k].id);
    }
  }

  /** The claims that remain queued when the first of them has been dealt with. */
  lemma QueuedNext(s: Sys, s': Sys, w: nat, claimed: seq<Selected>, i: nat)
    requires i < |claimed| && Waiting(s, w, claimed[i..])
    requires (forall p: Uuid | Holder(w, p) in s.claims :: Lists(claimed[i..], p))
    requires AllClaimed(s, w, claimed[i..])
    requires Holder(w, claimed[i].id) !in s'.claims
    requires forall p: Uuid | p != claimed[i].id ::
               && (Holder(w, p) in s'.claims <==> Holder(w, p) in s.claims)
               && (Holder(w, p) in s'.claims ==> s'.claims[Holder(w, p)] == s.claims[Holder(w, p)])
    ensures Waiting(s', w, claimed[i + 1..]) && forall p: Uuid | Holder(w, p) in s'.claims :: Lists(claimed[i + 1..], p)
    ensures AllClaimed(s', w, claimed[i + 1..])
  {
    var rest := claimed[i..];
    assert rest[1..] == claimed[i + 1..] && rest[0] == claimed[i];
    forall p: Uuid | Holder(w, p) in s'.claims ensures Lists(claimed[i + 1..], p) {
      ListsTail(rest, p);
    }
    forall k | 0 <= k < |rest[1..]| ensures Pends(s', w, rest[1..][k]) && In(s', Holder(w, rest[1..][k].id), Claimed) {
      assert rest[1..][k] == rest[k + 1] && rest[k + 1].id != rest[0].id;
      assert Pends(s, w, rest[k + 1]);
    }
  }

  lemma SettledRow(db: Db, pid: Uuid, row: Payout, gatewayRef: string)
    requires Payouts.Settle(db, pid, row, PayoutCompleted, Some(gatewayRef)).Ok?
    ensures var d' := Payouts.Settle(db, pid, row, PayoutCompleted, Some(gatewayRef)).value;
            pid in d'.payouts && d'.payouts[pid].status == Completed
  {
  }

  lemma FailedRow(db: Db, pid: Uuid, row: Payout)
    requires Payouts.FailPayout(db, pid, row).Ok?
    ensures var d' := Payouts.FailPayout(db, pid, row).value;
            pid in d'.payouts && d'.payouts[pid].status == Failed
  {
  }
}
