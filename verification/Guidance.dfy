/** What a worker may rely on at a program point, derived from the history that led there. */
module Guidance {
  import opened Results
  import opened Tables
  import opened Runs
  import opened Schema
  import opened Steps
  import opened PayoutProtocol
  import opened PayoutTheorems
  import opened SingleHolder
  import Settlement
  import opened Recovery
  import opened Histories
  import opened Traces
  import opened Batches
  import opened Payouts
  import opened FallbackRefinement

  lemma ReachedWellformed(hist: History, s: Sys)
    requires Reached(hist, s)
    ensures Wellformed(s)
    ensures Calm(hist) ==> ProtocolInv(s)
  {
    HistoryKeeps(hist, |hist.events|);
  }

  lemma ReachedHeld(hist: History, s: Sys, p: Uuid)
    requires Reached(hist, s) && Steady(hist, p)
    ensures HeldOk(s, p)
  {
    HistoryHolds(hist, p, |hist.events|);
  }

  /** A claim is on an existing row of the claim's transaction; a live claim is on a PROCESSING row
      unless a recovery has found the payout held. */
  lemma ClaimedRow(hist: History, s: Sys, h: Holder)
    requires Reached(hist, s) && h in s.claims
    ensures h.payout in s.db.payouts && s.db.payouts[h.payout].tx == s.claims[h].row.tx
    ensures Steady(hist, h.payout) && s.claims[h].phase != Marked ==> s.db.payouts[h.payout].status == Processing
  {
    ReachedWellformed(hist, s);
    if Steady(hist, h.payout) {
      ReachedHeld(hist, s, h.payout);
    }
  }

  lemma ClaimedTx(hist: History, s: Sys, h: Holder)
    requires Reached(hist, s) && h in s.claims
    ensures s.claims[h].row.tx in s.db.txs
  {
    ReachedWellformed(hist, s);
  }

  /** In a calm history no business rule stands in the way of a settlement or a failure. */
  lemma CalmFinalises(hist: History, s: Sys, h: Holder, ref: string)
    requires Reached(hist, s) && Calm(hist) && (In(s, h, Sent(ref)) || In(s, h, Refused))
    ensures Settle(s.db, h.payout, s.claims[h].row, PayoutCompleted, Some(ref)).Ok?
    ensures FailPayout(s.db, h.payout, s.claims[h].row).Ok?
  {
    ReachedWellformed(hist, s);
    ProtocolOnAccount(s, s.claims[h].row.account);
    FinalisationCommits(s, h, ref);
  }

  lemma CalmClaims(hist: History, s: Sys, rows: seq<Selected>)
    requires Reached(hist, s) && Calm(hist) && Selection(s.db, rows, Pending)
    ensures MoveRows(s.db, rows, Processing, ProcessingStarted).Ok?
  {
    ReachedWellformed(hist, s);
    forall i | 0 <= i < |rows| ensures rows[i].row.tx in s.db.txs && s.db.txs[rows[i].row.tx].status == Pending {
      assert PayoutOk(s, rows[i].id);
    }
    ReadyMoves(s.db, rows, Pending, Processing, ProcessingStarted);
  }

  lemma CalmRequeues(hist: History, s: Sys, w: nat, rows: seq<Selected>)
    requires Reached(hist, s) && Calm(hist) && Waiting(s, w, rows)
    ensures MoveRows(s.db, rows, Pending, RequeueClaimed).Ok?
  {
    ReachedWellformed(hist, s);
    WaitingReady(s, w, rows);
    ReadyMoves(s.db, rows, Processing, Pending, RequeueClaimed);
  }

  lemma WaitingReady(s: Sys, w: nat, rows: seq<Selected>)
    requires ProtocolInv(s) && Waiting(s, w, rows)
    ensures Ready(s.db, rows, Processing)
  {
    forall i | 0 <= i < |rows|
      ensures rows[i].id in s.db.payouts && rows[i].row.tx == s.db.payouts[rows[i].id].tx
      ensures rows[i].row.tx in s.db.txs && s.db.txs[rows[i].row.tx].status == Processing
    {
      assert Pends(s, w, rows[i]);
      PendsReady(s, w, rows[i]);
    }
  }

  lemma PendsReady(s: Sys, w: nat, r: Selected)
    requires ProtocolInv(s) && Pends(s, w, r)
    ensures r.id in s.db.payouts && r.row.tx == s.db.payouts[r.id].tx
    ensures r.row.tx in s.db.txs && s.db.txs[r.row.tx].status == Processing
  {
    assert PayoutOk(s, r.id);
  }

  /** A refused recovery has met a transaction that cannot go back; in a calm history its payout is being
      closed by a worker that has already released the funds. */
  lemma RecoveryObstructed(hist: History, s: Sys, rows: seq<Selected>)
    requires Reached(hist, s) && Selection(s.db, rows, Processing) && MoveRows(s.db, rows, Pending, RequeueStale).Err?
    ensures MoveRows(s.db, rows, Pending, RequeueStale) == Err(InvalidTransition) && Obstructed(s.db)
    ensures Calm(hist) ==> exists h :: h in s.claims && AfterRelease(s.claims[h].phase)
  {
    ReachedWellformed(hist, s);
    RecoveryIff(s.db, rows);
    var i :| 0 <= i < |rows| && !Requeueable(s.db.txs[rows[i].row.tx].status);
    assert rows[i].id in s.db.payouts;
    if Calm(hist) {
      Settlement.ProtocolAgrees(s, rows[i].id);
      UnheldRequeueable(s, rows[i].id);
    }
  }

  /** Some PROCESSING payout's transaction cannot go back to PENDING. */
  predicate Obstructed(db: Db) {
    exists p | p in db.payouts ::
      db.payouts[p].status == Processing && db.payouts[p].tx in db.txs && !Requeueable(db.txs[db.payouts[p].tx].status)
  }

  /** A payout a worker has left behind can be worked on again: claimed if PENDING, recovered if
      PROCESSING and nobody holds it. */
  ghost predicate Workable(s: Sys, p: Uuid) {
    && p in s.db.payouts
    && (s.db.payouts[p].status == Pending ==> ClaimRow(s.db, p).Ok?)
    && (s.db.payouts[p].status == Processing && (forall h | h in s.claims :: h.payout != p) ==> RecoverRow(s.db, p).Ok?)
  }

  lemma CalmWorkable(hist: History, s: Sys, p: Uuid)
    requires Reached(hist, s) && Calm(hist) && p in s.db.payouts
    ensures Workable(s, p)
  {
    ReachedWellformed(hist, s);
    if s.db.payouts[p].status == Pending {
      PendingClaimable(hist, s, p);
    } else if s.db.payouts[p].status == Processing && forall h | h in s.claims :: h.payout != p {
      UnheldRecoverable(s, p);
    }
  }

  lemma PendingClaimable(hist: History, s: Sys, p: Uuid)
    requires Reached(hist, s) && Calm(hist) && p in s.db.payouts && s.db.payouts[p].status == Pending
    ensures ClaimRow(s.db, p).Ok?
  {
    var one := [Selected(p, s.db.payouts[p])];
    CalmClaims(hist, s, one);
    MoveTail(s.db, one, Processing, ProcessingStarted);
  }

  lemma UnheldRecoverable(s: Sys, p: Uuid)
    requires ProtocolInv(s) && p in s.db.payouts && s.db.payouts[p].status == Processing
    requires forall h | h in s.claims :: h.payout != p
    ensures RecoverRow(s.db, p).Ok?
  {
    var one := [Selected(p, s.db.payouts[p])];
    Settlement.ProtocolAgrees(s, p);
    RecoveryCommits(s, one);
    MoveTail(s.db, one, Pending, RequeueStale);
  }

  /** Rows are never removed. */
  lemma StillThere(was: History, s: Sys, hist: History, s': Sys, p: Uuid)
    requires Reached(was, s) && Reached(hist, s') && Extends(was, hist) && p in s.db.payouts
    ensures p in s'.db.payouts
  {
    assert hist.states[|was.events|] == s;
    RowsLast(hist, |was.events|, |hist.events|, p);
  }

  lemma {:induction false} RowsLast(hist: History, k: nat, n: nat, p: Uuid)
    requires Lawful(hist) && k <= n < |hist.states|
    requires p in hist.states[k].db.payouts
    ensures p in hist.states[n].db.payouts
  {
    if k < n {
      RowsLast(hist, k, n - 1, p);
      HistoryKeeps(hist, n - 1);
      assert StepAt(hist, n - 1);
      RowsStay(hist.states[n - 1], hist.events[n - 1], hist.states[n], p);
    }
  }

  // ---- a worker that nobody interrupts ----

  lemma {:induction false} HistoryExec(hist: History, k: nat, n: nat)
    requires Lawful(hist) && k <= n < |hist.states|
    ensures NextAll(hist.states[k], hist.events[k..n], hist.states[n])
    decreases n - k
  {
    if k == n {
      NextAllNowhere(hist.states[k]);
    } else {
      HistoryExec(hist, k + 1, n);
      assert StepAt(hist, k);
      NextAllFrom(hist.states[k], hist.events[k], hist.states[k + 1], hist.events[k + 1..n], hist.states[n]);
      assert hist.events[k..n] == [hist.events[k]] + hist.events[k + 1..n];
    }
  }

  /** The state is the one the atomic failure leads to, up to the wording of the audit rows. */
  ghost predicate LikeFailure(s: Sys, s': Sys, h: Holder) {
    exists atomic :: Next(s, DoFail(h), atomic) && s' == atomic.(db := atomic.db.(audit := s'.db.audit))
  }

  /** A refused payout that is failed while nobody else moves, by its transaction or write by write, ends
      where the atomic failure ends. */
  lemma FailsAsOne(was: History, s: Sys, hist: History, s': Sys, h: Holder, steps: seq<Event>)
    requires Reached(was, s) && Reached(hist, s') && Extends(was, hist) && hist.events == was.events + steps
    requires steps == [DoFail(h)] || steps == FallbackRun(h)
    requires In(s, h, Refused) && AccountInv(s, s.claims[h].row.account)
    ensures LikeFailure(s, s', h)
  {
    SinceExec(was, s, hist, s', steps);
    if steps == [DoFail(h)] {
      OneStep(s, DoFail(h), s');
    } else {
      FallsBackAsOne(s, s', h);
    }
  }

  lemma SinceExec(was: History, s: Sys, hist: History, s': Sys, steps: seq<Event>)
    requires Reached(was, s) && Reached(hist, s') && Extends(was, hist) && hist.events == was.events + steps
    ensures NextAll(s, steps, s')
  {
    var n := |was.events|;
    assert hist.events[n..|hist.events|] == steps && hist.states[n] == s;
    HistoryExec(hist, n, |hist.events|);
  }

  lemma OneStep(s: Sys, e: Event, s': Sys)
    requires NextAll(s, [e], s')
    ensures Next(s, e, s')
  {
    NextAllIffExec(s, [e], s');
    var s1 := FirstStep(s, [e]);
  }

  lemma FallsBackAsOne(s: Sys, s': Sys, h: Holder)
    requires In(s, h, Refused) && AccountInv(s, s.claims[h].row.account) && NextAll(s, FallbackRun(h), s')
    ensures LikeFailure(s, s', h)
  {
    var slow, atomic := FallbackRefinesFailure(s, h);
    NextAllIffExec(s, FallbackRun(h), slow);
    NextAllIffExec(s, FallbackRun(h), s');
  }

  /** If a worker's own steps are all that happened, what it did is what happened. */
  lemma AloneSteps(was: seq<Event>, events: seq<Event>, h: Holder, steps: seq<Event>)
    requires was <= events && |events| == |was| + |steps| && Mine(events, h) == Mine(was, h) + steps
    ensures events == was + steps
  {
    var more := events[|was|..];
    assert events == was + more;
    MineAppend(was, more, h);
    assert Mine(more, h) == (Mine(was, h) + Mine(more, h))[|Mine(was, h)|..] == steps;
    MineWhole(more, h);
  }

  lemma {:induction false} MineWhole(run: seq<Event>, h: Holder)
    ensures |Mine(run, h)| <= |run| && (|Mine(run, h)| == |run| ==> Mine(run, h) == run)
    decreases |run|
  {
    if run != [] {
      MineWhole(run[..|run| - 1], h);
    }
  }

  lemma SteadyRests(was: History, s: Sys, hist: History, s': Sys, p: Uuid, end: Status)
    requires Reached(was, s) && Reached(hist, s') && Extends(was, hist) && Steady(hist, p) && Rests(s.db, p, end)
    ensures Rests(s'.db, p, end)
  {
    assert hist.states[|was.events|] == s;
    RestsOn(hist, |was.events|, |hist.events|, p, end);
  }
}
