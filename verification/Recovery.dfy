/**
 Recovery of stale payouts: exactly when a recovering transaction commits, why it always does for payouts
 nobody holds, and the one kind of payout that blocks it for good.
 */
module Recovery {
  import opened Results
  import opened Tables
  import opened TransactionState
  import opened Payouts
  import opened Runs
  import opened Deltas
  import opened Schema
  import opened Steps
  import opened PayoutProtocol
  import opened SingleHolder
  import opened Settlement
  import opened Batches
  import FallbackRefinement

  /** A transaction of this status may go back to PENDING, or is there. */
  predicate Requeueable(status: Status) {
    status == Pending || CanTransition(status, Pending)
  }

  /** Existing payouts of distinct transactions. */
  ghost predicate Lined(db: Db, rows: seq<Selected>) {
    && (forall i | 0 <= i < |rows| :: rows[i].id in db.payouts && rows[i].row.tx in db.txs)
    && (forall i, j | 0 <= i < j < |rows| :: rows[i].row.tx != rows[j].row.tx)
  }

  predicate AllRequeueable(db: Db, rows: seq<Selected>)
    requires forall i | 0 <= i < |rows| :: rows[i].row.tx in db.txs
  {
    forall i | 0 <= i < |rows| :: Requeueable(db.txs[rows[i].row.tx].status)
  }

  lemma MoveOneIff(db: Db, r: Selected, action: Action)
    requires r.id in db.payouts && r.row.tx in db.txs
    ensures MoveRow(db, r.id, r.row, Pending, action).Ok? <==> Requeueable(db.txs[r.row.tx].status)
    ensures MoveRow(db, r.id, r.row, Pending, action).Err? ==>
              MoveRow(db, r.id, r.row, Pending, action) == Err(InvalidTransition)
    ensures MoveRow(db, r.id, r.row, Pending, action).Ok? ==>
              var d := MoveRow(db, r.id, r.row, Pending, action).value;
              d.payouts.Keys == db.payouts.Keys && d.txs == db.txs[r.row.tx := db.txs[r.row.tx].(status := Pending)]
  {
    if db.txs[r.row.tx].status == Pending {
      assert db.txs[r.row.tx := db.txs[r.row.tx].(status := Pending)] == db.txs;
    }
  }

  lemma LinedTail(db: Db, d: Db, rows: seq<Selected>)
    requires rows != [] && Lined(db, rows) && d.payouts.Keys == db.payouts.Keys
    requires d.txs == db.txs[rows[0].row.tx := db.txs[rows[0].row.tx].(status := Pending)]
    ensures Lined(d, rows[1..])
    ensures AllRequeueable(db, rows) <==> Requeueable(db.txs[rows[0].row.tx].status) && AllRequeueable(d, rows[1..])
  {
    var rest := rows[1..];
    forall i | 0 <= i < |rest| ensures rest[i] == rows[i + 1] && rows[i + 1].row.tx != rows[0].row.tx {
    }
    if Requeueable(db.txs[rows[0].row.tx].status) && AllRequeueable(d, rest) {
      forall i | 0 <= i < |rows| ensures Requeueable(db.txs[rows[i].row.tx].status) {
        assert i > 0 ==> rest[i - 1] == rows[i];
      }
    }
  }

  lemma {:induction false} LinedMovesIff(db: Db, rows: seq<Selected>, action: Action)
    requires Lined(db, rows)
    ensures MoveRows(db, rows, Pending, action).Ok? <==> AllRequeueable(db, rows)
    ensures MoveRows(db, rows, Pending, action).Err? ==> MoveRows(db, rows, Pending, action) == Err(InvalidTransition)
    decreases |rows|
  {
    if rows != [] {
      MoveOneIff(db, rows[0], action);
      if Requeueable(db.txs[rows[0].row.tx].status) {
        var d := MoveRow(db, rows[0].id, rows[0].row, Pending, action).value;
        LinedTail(db, d, rows);
        LinedMovesIff(d, rows[1..], action);
      }
    }
  }

  /** A recovering transaction commits if and only if every selected payout's transaction can go back to
      PENDING; one that cannot makes the whole transaction fail as an invalid transition. */
  lemma RecoveryIff(db: Db, rows: seq<Selected>)
    requires WellformedDb(db) && Selection(db, rows, Processing)
    ensures Lined(db, rows)
    ensures MoveRows(db, rows, Pending, RequeueStale).Ok? <==> AllRequeueable(db, rows)
    ensures MoveRows(db, rows, Pending, RequeueStale).Err? ==>
              MoveRows(db, rows, Pending, RequeueStale) == Err(InvalidTransition)
  {
    forall i | 0 <= i < |rows| ensures rows[i].row.tx in db.txs {
      assert RowOk(db, db.payouts[rows[i].id]);
    }
    LinedMovesIff(db, rows, RequeueStale);
  }

  /** While its status agrees with its transaction's, a PROCESSING payout's transaction is PROCESSING too,
      unless a worker is closing it after a refusal. */
  lemma UnheldRequeueable(s: Sys, p: Uuid)
    requires AgreeOk(s, p) && p in s.db.payouts && s.db.payouts[p].status == Processing
    ensures s.db.payouts[p].tx in s.db.txs
    ensures || Requeueable(s.db.txs[s.db.payouts[p].tx].status)
            || exists h :: Live(s, h, p) && AfterRelease(s.claims[h].phase)
  {
    AgreeSays(s, p);
    if h :| Live(s, h, p) && Between(s.claims[h].phase) {
      assert AfterRelease(s.claims[h].phase);
    }
  }

  /** Payouts nobody holds, in agreement with their transactions, are recoverable: their recovery is refused
      by no rule. */
  lemma RecoveryCommits(s: Sys, rows: seq<Selected>)
    requires WellformedDb(s.db) && Selection(s.db, rows, Processing)
    requires AllUnheld(s, rows) && forall i | 0 <= i < |rows| :: AgreeOk(s, rows[i].id)
    ensures MoveRows(s.db, rows, Pending, RequeueStale).Ok?
  {
    RecoveryIff(s.db, rows);
    forall i | 0 <= i < |rows| ensures Requeueable(s.db.txs[rows[i].row.tx].status) {
      assert Unheld(s, rows[i].id);
      UnheldRequeueable(s, rows[i].id);
    }
  }

  // ---- payouts that block recovery ----

  /** A PROCESSING payout nobody works on whose transaction is FAILED. */
  ghost predicate Jammed(s: Sys, p: Uuid) {
    && p in s.db.payouts && s.db.payouts[p].status == Processing
    && s.db.payouts[p].tx in s.db.txs && s.db.txs[s.db.payouts[p].tx].status == Failed
    && forall h | h in s.claims :: h.payout != p
  }

  ghost function JammedInv(p: Uuid): Sys -> bool {
    (s: Sys) => Wellformed(s) && Jammed(s, p)
  }

  /** Nothing can happen to such a payout: nobody holds it, and its transaction lets no recovery through. */
  lemma JammedOwn(s: Sys, e: Event, s': Sys, p: Uuid)
    requires Jammed(s, p) && Subject(e) == Some(p)
    ensures !Next(s, e, s')
  {
    if Next(s, e, s') {
      StepGuarded(s, e, s', p);
      JammedGuard(s, e, p);
      RecoverIs(s, p, s');
      MoveRowChanges(s.db, p, s.db.payouts[p], Pending, RequeueStale);
    }
  }

  lemma JammedGuard(s: Sys, e: Event, p: Uuid)
    requires Jammed(s, p) && Subject(e) == Some(p) && !e.DoRequest? && Guarded(s, e)
    ensures e == DoRecover(p)
  {
  }

  lemma JammedStep(s: Sys, e: Event, s': Sys, p: Uuid)
    requires Wellformed(s) && Jammed(s, p) && Next(s, e, s')
    ensures Wellformed(s') && Jammed(s', p)
  {
    WellformedStep(s, e, s');
    if Subject(e) == Some(p) {
      JammedOwn(s, e, s', p);
    } else {
      JammedElsewhere(s, e, s', p);
    }
  }

  lemma JammedElsewhere(s: Sys, e: Event, s': Sys, p: Uuid)
    requires Wellformed(s) && Jammed(s, p) && Next(s, e, s') && Subject(e) != Some(p)
    ensures Jammed(s', p)
  {
    Elsewhere(s, e, s', p);
  }

  /** In every run at all, with no hypothesis, such a payout stays as it is: it is never recovered,
      claimed, settled or failed. */
  lemma JammedForever(s: Sys, run: seq<Event>, p: Uuid)
    requires Wellformed(s) && Jammed(s, p) && Exec(s, run).Some?
    ensures Wellformed(Exec(s, run).value) && Jammed(Exec(s, run).value, p)
  {
    forall s: Sys, e: Event, s': Sys | JammedInv(p)(s) && Anything(s, e) && Next(s, e, s')
      ensures JammedInv(p)(s')
    {
      JammedStep(s, e, s', p);
    }
    AlongAnything(s, run);
    RunKeeps(s, run, JammedInv(p), Anything);
  }

  /** And every recovery that selects it fails as a whole, in every later state. */
  lemma JammedBlocks(s: Sys, run: seq<Event>, p: Uuid, rows: seq<Selected>)
    requires Wellformed(s) && Jammed(s, p) && Exec(s, run).Some?
    requires Selection(Exec(s, run).value.db, rows, Processing) && Lists(rows, p)
    ensures MoveRows(Exec(s, run).value.db, rows, Pending, RequeueStale) == Err(InvalidTransition)
  {
    JammedForever(s, run, p);
    JammedRefuses(Exec(s, run).value, p, rows);
  }

  lemma JammedRefuses(s: Sys, p: Uuid, rows: seq<Selected>)
    requires WellformedDb(s.db) && Jammed(s, p) && Selection(s.db, rows, Processing) && Lists(rows, p)
    ensures MoveRows(s.db, rows, Pending, RequeueStale) == Err(InvalidTransition)
  {
    RecoveryIff(s.db, rows);
    JammedStuck(s, p, rows);
  }

  lemma JammedStuck(s: Sys, p: Uuid, rows: seq<Selected>)
    requires Jammed(s, p) && Selection(s.db, rows, Processing) && Lists(rows, p)
    requires forall i | 0 <= i < |rows| :: rows[i].row.tx in s.db.txs
    ensures !AllRequeueable(s.db, rows)
  {
    var i :| 0 <= i < |rows| && rows[i].id == p;
    assert !Requeueable(s.db.txs[rows[i].row.tx].status);
  }

  /** A fallback that loses only its last write jams its payout, from every state in which the payouts of its
      account are in order. */
  lemma LostCloseJams(s: Sys, h: Holder) returns (s': Sys)
    requires In(s, h, Refused) && AccountInv(s, s.claims[h].row.account)
    ensures NextAll(s, FallbackRefinement.LostCloseRun(h), s') && Jammed(s', h.payout)
  {
    HereFromClaim(s, h);
    FallbackRefinement.RefusedFacts(s, h);
    SoleHolder(s, h.payout, h) by {
      assert Live(s, h, h.payout);
    }
    s' := FallbackRefinement.LostCloseResult(s, h);
  }
}
