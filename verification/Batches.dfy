/**
 One transaction over many payouts is a run of one event per payout: claiming, requeuing and
 recovering a whole list commit together, and nothing else happens in between.
 */
module Batches {
  import opened Results
  import opened Tables
  import opened TransactionState
  import opened Runs
  import opened WorkerSteps
  import opened Payouts
  import opened PayoutProtocol
  import opened Histories

  /** Claimed by the worker with the row it selected, and not answered well by the gateway. */
  predicate Pends(s: Sys, w: nat, r: Selected) {
    Unheard(s, Holder(w, r.id)) && s.claims[Holder(w, r.id)].row == r.row
  }

  /** Distinct such payouts. */
  predicate Waiting(s: Sys, w: nat, rows: seq<Selected>) {
    && (forall i | 0 <= i < |rows| :: Pends(s, w, rows[i]))
    && (forall i, j | 0 <= i < j < |rows| :: rows[i].id != rows[j].id)
  }

  predicate AllClaimed(s: Sys, w: nat, rows: seq<Selected>) {
    forall i | 0 <= i < |rows| :: In(s, Holder(w, rows[i].id), Claimed)
  }

  lemma ListsTail(rows: seq<Selected>, p: Uuid)
    requires rows != []
    ensures Lists(rows, p) <==> rows[0].id == p || Lists(rows[1..], p)
  {
    if Lists(rows, p) && rows[0].id != p {
      var i :| 0 <= i < |rows| && rows[i].id == p;
      assert rows[1..][i - 1].id == p;
    }
    if Lists(rows[1..], p) {
      var i :| 0 <= i < |rows[1..]| && rows[1..][i].id == p;
      assert rows[i + 1].id == p;
    }
  }

  function Claims(w: nat, rows: seq<Selected>): seq<Event> {
    seq(|rows|, i requires 0 <= i < |rows| => DoClaim(Holder(w, rows[i].id)))
  }

  function Requeues(w: nat, rows: seq<Selected>): seq<Event> {
    seq(|rows|, i requires 0 <= i < |rows| => DoRequeue(Holder(w, rows[i].id)))
  }

  function Recoveries(rows: seq<Selected>): seq<Event> {
    seq(|rows|, i requires 0 <= i < |rows| => DoRecover(rows[i].id))
  }

  function Abandons(w: nat, rows: seq<Selected>): seq<Event> {
    seq(|rows|, i requires 0 <= i < |rows| => GiveUp(Holder(w, rows[i].id)))
  }

  /** The claims of `s'` are those of `s` with the listed payouts newly waiting. */
  ghost predicate Took(s: Sys, s': Sys, w: nat, rows: seq<Selected>) {
    && Waiting(s', w, rows) && AllClaimed(s', w, rows)
    && (forall h: Holder | h.worker != w || !Lists(rows, h.payout) :: h in s'.claims <==> h in s.claims)
    && (forall h: Holder | h in s.claims && (h.worker != w || !Lists(rows, h.payout)) ::
          h in s'.claims && s'.claims[h] == s.claims[h])
  }

  /** The claims of `s'` are those of `s` without the listed ones. */
  ghost predicate LetGo(s: Sys, s': Sys, w: nat, rows: seq<Selected>) {
    && (forall h: Holder :: h in s'.claims <==> h in s.claims && !(h.worker == w && Lists(rows, h.payout)))
    && (forall h: Holder | h in s'.claims :: s'.claims[h] == s.claims[h])
  }

  /** The payouts a moved list ends with: listed rows carry the new status, others are untouched. */
  ghost predicate Moved(d: Db, d': Db, rows: seq<Selected>, status: Status) {
    && d'.payouts.Keys == d.payouts.Keys
    && (forall p | p in d.payouts ::
          d'.payouts[p] == if Lists(rows, p) then d.payouts[p].(status := status, gatewayRef := None) else d.payouts[p])
  }

  lemma MovedOne(db: Db, p: Uuid, row: Payout, status: Status, action: Action)
    requires MoveRow(db, p, row, status, action).Ok?
    ensures p in db.payouts
    ensures MoveRow(db, p, row, status, action).value.payouts ==
            db.payouts[p := db.payouts[p].(status := status, gatewayRef := None)]
  {
  }

  lemma MoveTail(db: Db, rows: seq<Selected>, status: Status, action: Action)
    requires rows != [] && MoveRows(db, rows, status, action).Ok?
    ensures var d := MoveRow(db, rows[0].id, rows[0].row, status, action);
            && d.Ok? && rows[0].id in db.payouts
            && d.value.payouts == db.payouts[rows[0].id := db.payouts[rows[0].id].(status := status,
                                                                                   gatewayRef := None)]
            && MoveRows(d.value, rows[1..], status, action) == MoveRows(db, rows, status, action)
  {
    MovedOne(db, rows[0].id, rows[0].row, status, action);
  }

  lemma {:induction false} MovedAll(db: Db, rows: seq<Selected>, status: Status, action: Action)
    requires MoveRows(db, rows, status, action).Ok?
    ensures Moved(db, MoveRows(db, rows, status, action).value, rows, status)
    decreases |rows|
  {
    if rows != [] {
      MoveTail(db, rows, status, action);
      var d := MoveRow(db, rows[0].id, rows[0].row, status, action).value;
      MovedAll(d, rows[1..], status, action);
      forall p ensures Lists(rows, p) <==> rows[0].id == p || Lists(rows[1..], p) { ListsTail(rows, p); }
    }
  }

  lemma {:induction false} MovedPresent(db: Db, rows: seq<Selected>, status: Status, action: Action)
    requires MoveRows(db, rows, status, action).Ok?
    ensures forall i | 0 <= i < |rows| :: rows[i].id in db.payouts
    decreases |rows|
  {
    if rows != [] {
      MoveTail(db, rows, status, action);
      MovedPresent(MoveRow(db, rows[0].id, rows[0].row, status, action).value, rows[1..], status, action);
      forall i | 0 <= i < |rows| ensures rows[i].id in db.payouts {
        assert i > 0 ==> rows[1..][i - 1] == rows[i];
      }
    }
  }

  lemma MovedListed(db: Db, rows: seq<Selected>, status: Status, action: Action)
    requires MoveRows(db, rows, status, action).Ok?
    ensures var d' := MoveRows(db, rows, status, action).value;
            forall i | 0 <= i < |rows| ::
              && rows[i].id in d'.payouts
              && d'.payouts[rows[i].id].status == status && d'.payouts[rows[i].id].gatewayRef == None
  {
    MovedPresent(db, rows, status, action);
    MovedAll(db, rows, status, action);
    forall i | 0 <= i < |rows| ensures Lists(rows, rows[i].id) {
    }
  }

  lemma {:induction false} MoveRefused(db: Db, rows: seq<Selected>, status: Status, action: Action)
    ensures MoveRows(db, rows, status, action).Err? ==> Refusal(MoveRows(db, rows, status, action).error)
    decreases |rows|
  {
    if rows != [] && MoveRow(db, rows[0].id, rows[0].row, status, action).Ok? {
      MoveRefused(MoveRow(db, rows[0].id, rows[0].row, status, action).value, rows[1..], status, action);
    }
  }

  /** The ways in which a rule refuses to move a payout and its transaction. */
  predicate Refusal(error: Error) {
    error == NotFound || error == UnexpectedRows || error == CheckViolation || error == InvalidTransition
  }

  /** Every payout with this status is among those a SELECT passes over. */
  predicate NoneLeft(db: Db, status: Status, passed: set<Uuid>) {
    forall p | p in db.payouts && db.payouts[p].status == status :: p in passed
  }

  /** A transaction that moves every row its SELECT can see leaves none behind. */
  lemma AllMoved(db: Db, rows: seq<Selected>, from: Status, status: Status, action: Action, passed: set<Uuid>)
    requires MoveRows(db, rows, status, action).Ok? && from != status
    requires forall p | p in db.payouts && db.payouts[p].status == from :: p in passed || Lists(rows, p)
    ensures NoneLeft(MoveRows(db, rows, status, action).value, from, passed)
  {
    MovedAll(db, rows, status, action);
  }

  /** Distinct existing payouts of distinct transactions, all of one status. */
  ghost predicate Ready(db: Db, rows: seq<Selected>, from: Status) {
    && (forall i | 0 <= i < |rows| ::
          rows[i].id in db.payouts && rows[i].row.tx in db.txs && db.txs[rows[i].row.tx].status == from)
    && (forall i, j | 0 <= i < j < |rows| :: rows[i].row.tx != rows[j].row.tx)
  }

  lemma ReadyTail(db: Db, rows: seq<Selected>, from: Status, status: Status, action: Action)
    requires rows != [] && Ready(db, rows, from) && CanTransition(from, status) && status != ManualReview
    requires status != Reversed
    ensures MoveRow(db, rows[0].id, rows[0].row, status, action).Ok?
    ensures Ready(MoveRow(db, rows[0].id, rows[0].row, status, action).value, rows[1..], from)
  {
    var d := MoveRow(db, rows[0].id, rows[0].row, status, action);
    assert d.Ok?;
    forall i | 0 <= i < |rows[1..]|
      ensures var r := rows[1..][i];
              r.id in d.value.payouts && r.row.tx in d.value.txs && d.value.txs[r.row.tx].status == from
    {
      assert rows[1..][i] == rows[i + 1] && rows[0].row.tx != rows[i + 1].row.tx;
    }
  }

  lemma {:induction false} ReadyMoves(db: Db, rows: seq<Selected>, from: Status, status: Status, action: Action)
    requires Ready(db, rows, from) && CanTransition(from, status) && status != ManualReview && status != Reversed
    ensures MoveRows(db, rows, status, action).Ok?
    decreases |rows|
  {
    if rows != [] {
      ReadyTail(db, rows, from, status, action);
      ReadyMoves(MoveRow(db, rows[0].id, rows[0].row, status, action).value, rows[1..], from, status, action);
    }
  }

  // ---- claiming ----

  lemma {:induction false} ClaimRun(s: Sys, w: nat, rows: seq<Selected>) returns (s': Sys)
    requires Selection(s.db, rows, Pending) && (forall i | 0 <= i < |rows| :: Holder(w, rows[i].id) !in s.claims)
    requires MoveRows(s.db, rows, Processing, ProcessingStarted).Ok?
    ensures Leads(s, Claims(w, rows), s', Tame)
    ensures s'.db == MoveRows(s.db, rows, Processing, ProcessingStarted).value && Took(s, s', w, rows)
    decreases |rows|
  {
    if rows == [] {
      s' := s;
      LeadsNowhere(s, Tame);
      assert Claims(w, rows) == [];
    } else {
      var s1 := ClaimFirst(s, w, rows);
      s' := ClaimRun(s1, w, rows[1..]);
      ClaimsFrom(s, s1, s', w, rows);
      TookMore(s, s1, s', w, rows);
    }
  }

  lemma ClaimsFrom(s: Sys, s1: Sys, s2: Sys, w: nat, rows: seq<Selected>)
    requires rows != [] && Next(s, DoClaim(Holder(w, rows[0].id)), s1) && Leads(s1, Claims(w, rows[1..]), s2, Tame)
    ensures Leads(s, Claims(w, rows), s2, Tame)
  {
    LeadsFrom(s, DoClaim(Holder(w, rows[0].id)), s1, Claims(w, rows[1..]), s2, Tame);
    assert Claims(w, rows) == [DoClaim(Holder(w, rows[0].id))] + Claims(w, rows[1..]);
  }

  lemma ClaimFirst(s: Sys, w: nat, rows: seq<Selected>) returns (s1: Sys)
    requires rows != [] && Selection(s.db, rows, Pending)
    requires forall i | 0 <= i < |rows| :: Holder(w, rows[i].id) !in s.claims
    requires MoveRows(s.db, rows, Processing, ProcessingStarted).Ok?
    ensures Next(s, DoClaim(Holder(w, rows[0].id)), s1)
    ensures s1.claims == s.claims[Holder(w, rows[0].id) := Claim(rows[0].row, Claimed)]
    ensures Selection(s1.db, rows[1..], Pending)
    ensures forall i | 0 <= i < |rows[1..]| :: Holder(w, rows[1..][i].id) !in s1.claims
    ensures MoveRows(s1.db, rows[1..], Processing, ProcessingStarted) ==
            MoveRows(s.db, rows, Processing, ProcessingStarted)
  {
    var h := Holder(w, rows[0].id);
    MoveTail(s.db, rows, Processing, ProcessingStarted);
    ClaimNext(s, h);
    s1 := s.(db := MoveRow(s.db, h.payout, rows[0].row, Processing, ProcessingStarted).value,
             claims := s.claims[h := Claim(rows[0].row, Claimed)]);
  }

  lemma TookMore(s: Sys, s1: Sys, s2: Sys, w: nat, rows: seq<Selected>)
    requires rows != [] && (forall i | 0 < i < |rows| :: rows[i].id != rows[0].id)
    requires s1.claims == s.claims[Holder(w, rows[0].id) := Claim(rows[0].row, Claimed)]
    requires Took(s1, s2, w, rows[1..])
    ensures Took(s, s2, w, rows)
  {
    forall p ensures Lists(rows, p) <==> rows[0].id == p || Lists(rows[1..], p) { ListsTail(rows, p); }
    assert !Lists(rows[1..], rows[0].id);
    assert Holder(w, rows[0].id) in s1.claims;
    forall i | 0 <= i < |rows| ensures Pends(s2, w, rows[i]) && In(s2, Holder(w, rows[i].id), Claimed) {
      if i > 0 {
        assert rows[1..][i - 1] == rows[i];
      }
    }
    forall i, j | 0 <= i < j < |rows| ensures rows[i].id != rows[j].id {
      if i > 0 {
        assert rows[1..][i - 1] == rows[i] && rows[1..][j - 1] == rows[j];
      }
    }
  }

  /** A claiming transaction takes each listed payout once. */
  lemma {:induction false} ClaimTimes(w: nat, rows: seq<Selected>, p: Uuid)
    requires forall i, j | 0 <= i < j < |rows| :: rows[i].id != rows[j].id
    ensures Times(Claims(w, rows), Take, Holder(w, p)) == if Lists(rows, p) then 1 else 0
    decreases |rows|
  {
    var run := Claims(w, rows);
    if rows != [] {
      var n := |rows| - 1;
      assert run[..n] == Claims(w, rows[..n]) && run[n] == DoClaim(Holder(w, rows[n].id));
      ClaimTimes(w, rows[..n], p);
      assert Lists(rows, p) <==> rows[n].id == p || Lists(rows[..n], p) by {
        if Lists(rows[..n], p) {
          var i :| 0 <= i < n && rows[..n][i].id == p;
          assert rows[i].id == p;
        }
        if Lists(rows, p) && rows[n].id != p {
          var i :| 0 <= i < |rows| && rows[i].id == p;
          assert rows[..n][i].id == p;
        }
      }
    }
  }

  lemma ClaimsCounted(events: seq<Event>, w: nat, rows: seq<Selected>, p: Uuid)
    requires forall i, j | 0 <= i < j < |rows| :: rows[i].id != rows[j].id
    ensures Times(events + Claims(w, rows), Take, Holder(w, p)) ==
            Times(events, Take, Holder(w, p)) + (if Lists(rows, p) then 1 else 0)
    ensures Times(events + Claims(w, rows), Send, Holder(w, p)) == Times(events, Send, Holder(w, p))
  {
    TimesAppend(events, Claims(w, rows), Take, Holder(w, p));
    TimesAppend(events, Claims(w, rows), Send, Holder(w, p));
    ClaimTimes(w, rows, p);
    TimesNone(Claims(w, rows), Send, Holder(w, p));
  }

  // ---- letting go ----

  lemma LetGoMore(s: Sys, s1: Sys, s2: Sys, w: nat, rows: seq<Selected>)
    requires rows != [] && s1.claims == s.claims - {Holder(w, rows[0].id)} && LetGo(s1, s2, w, rows[1..])
    ensures LetGo(s, s2, w, rows)
  {
    forall p ensures Lists(rows, p) <==> rows[0].id == p || Lists(rows[1..], p) { ListsTail(rows, p); }
  }

  lemma WaitingTail(s: Sys, s1: Sys, w: nat, rows: seq<Selected>)
    requires rows != [] && Waiting(s, w, rows) && s1.claims == s.claims - {Holder(w, rows[0].id)}
    ensures Waiting(s1, w, rows[1..])
  {
  }

  lemma {:induction false} RequeueRun(s: Sys, w: nat, rows: seq<Selected>) returns (s': Sys)
    requires Waiting(s, w, rows) && MoveRows(s.db, rows, Pending, RequeueClaimed).Ok?
    ensures Leads(s, Requeues(w, rows), s', Tame)
    ensures s'.db == MoveRows(s.db, rows, Pending, RequeueClaimed).value && LetGo(s, s', w, rows)
    decreases |rows|
  {
    if rows == [] {
      s' := s;
      LeadsNowhere(s, Tame);
      assert Requeues(w, rows) == [];
    } else {
      var s1 := RequeueFirst(s, w, rows);
      s' := RequeueRun(s1, w, rows[1..]);
      RequeuesFrom(s, s1, s', w, rows);
      LetGoMore(s, s1, s', w, rows);
    }
  }

  lemma RequeueFirst(s: Sys, w: nat, rows: seq<Selected>) returns (s1: Sys)
    requires rows != [] && Waiting(s, w, rows) && MoveRows(s.db, rows, Pending, RequeueClaimed).Ok?
    ensures Next(s, DoRequeue(Holder(w, rows[0].id)), s1) && Waiting(s1, w, rows[1..])
    ensures s1.claims == s.claims - {Holder(w, rows[0].id)}
    ensures MoveRows(s1.db, rows[1..], Pending, RequeueClaimed) == MoveRows(s.db, rows, Pending, RequeueClaimed)
  {
    var h := Holder(w, rows[0].id);
    MoveTail(s.db, rows, Pending, RequeueClaimed);
    assert Pends(s, w, rows[0]);
    RequeueNext(s, h);
    s1 := Drop(s, h).(db := MoveRow(s.db, h.payout, rows[0].row, Pending, RequeueClaimed).value);
    WaitingTail(s, s1, w, rows);
  }

  lemma RequeuesFrom(s: Sys, s1: Sys, s2: Sys, w: nat, rows: seq<Selected>)
    requires rows != [] && Next(s, DoRequeue(Holder(w, rows[0].id)), s1)
    requires Leads(s1, Requeues(w, rows[1..]), s2, Tame)
    ensures Leads(s, Requeues(w, rows), s2, Tame)
  {
    LeadsFrom(s, DoRequeue(Holder(w, rows[0].id)), s1, Requeues(w, rows[1..]), s2, Tame);
    assert Requeues(w, rows) == [DoRequeue(Holder(w, rows[0].id))] + Requeues(w, rows[1..]);
  }

  lemma {:induction false} AbandonRun(s: Sys, w: nat, rows: seq<Selected>) returns (s': Sys)
    requires Waiting(s, w, rows)
    ensures Leads(s, Abandons(w, rows), s', Tame) && s'.db == s.db && LetGo(s, s', w, rows)
    decreases |rows|
  {
    if rows == [] {
      s' := s;
      LeadsNowhere(s, Tame);
      assert Abandons(w, rows) == [];
    } else {
      var h := Holder(w, rows[0].id);
      assert Pends(s, w, rows[0]);
      GivesUpNext(s, h);
      WaitingTail(s, Drop(s, h), w, rows);
      s' := AbandonRun(Drop(s, h), w, rows[1..]);
      LeadsFrom(s, GiveUp(h), Drop(s, h), Abandons(w, rows[1..]), s', Tame);
      assert Abandons(w, rows) == [GiveUp(h)] + Abandons(w, rows[1..]);
      LetGoMore(s, Drop(s, h), s', w, rows);
    }
  }

  // ---- recovering ----

  predicate Unheld(s: Sys, p: Uuid) {
    forall h | h in s.claims :: h.payout != p
  }

  predicate AllUnheld(s: Sys, rows: seq<Selected>) {
    forall i | 0 <= i < |rows| :: Unheld(s, rows[i].id)
  }

  /** Recovering a list is tame exactly when nobody holds any of its payouts. */
  lemma {:induction false} RecoverRun(s: Sys, rows: seq<Selected>) returns (s': Sys)
    requires Selection(s.db, rows, Processing) && MoveRows(s.db, rows, Pending, RequeueStale).Ok?
    ensures s' == s.(db := MoveRows(s.db, rows, Pending, RequeueStale).value) && NextAll(s, Recoveries(rows), s')
    ensures Leads(s, Recoveries(rows), s', Tame) <==> AllUnheld(s, rows)
    decreases |rows|
  {
    if rows == [] {
      s' := s;
      NextAllNowhere(s);
      LeadsNowhere(s, Tame);
      assert Recoveries(rows) == [];
    } else {
      var s1 := RecoverFirst(s, rows);
      s' := RecoverRun(s1, rows[1..]);
      RecoveriesFrom(s, s1, s', rows);
      TameSplit(s, rows);
    }
  }

  lemma RecoveriesFrom(s: Sys, s1: Sys, s2: Sys, rows: seq<Selected>)
    requires rows != [] && Next(s, DoRecover(rows[0].id), s1) && NextAll(s1, Recoveries(rows[1..]), s2)
    ensures NextAll(s, Recoveries(rows), s2)
    ensures Leads(s, Recoveries(rows), s2, Tame) <==>
            Unheld(s, rows[0].id) && Leads(s1, Recoveries(rows[1..]), s2, Tame)
  {
    NextAllFrom(s, DoRecover(rows[0].id), s1, Recoveries(rows[1..]), s2);
    LeadsFromIff(s, DoRecover(rows[0].id), s1, Recoveries(rows[1..]), s2, Tame);
    assert Recoveries(rows) == [DoRecover(rows[0].id)] + Recoveries(rows[1..]);
  }

  lemma RecoverFirst(s: Sys, rows: seq<Selected>) returns (s1: Sys)
    requires rows != [] && Selection(s.db, rows, Processing) && MoveRows(s.db, rows, Pending, RequeueStale).Ok?
    ensures Next(s, DoRecover(rows[0].id), s1) && s1 == s.(db := s1.db) && Selection(s1.db, rows[1..], Processing)
    ensures MoveRows(s1.db, rows[1..], Pending, RequeueStale) == MoveRows(s.db, rows, Pending, RequeueStale)
  {
    MoveTail(s.db, rows, Pending, RequeueStale);
    RecoverNext(s, rows[0].id);
    s1 := s.(db := MoveRow(s.db, rows[0].id, rows[0].row, Pending, RequeueStale).value);
  }

  lemma TameSplit(s: Sys, rows: seq<Selected>)
    requires rows != []
    ensures AllUnheld(s, rows) <==> Unheld(s, rows[0].id) && AllUnheld(s, rows[1..])
  {
    if Unheld(s, rows[0].id) && AllUnheld(s, rows[1..]) {
      forall i | 0 <= i < |rows| ensures Unheld(s, rows[i].id) {
        assert i > 0 ==> rows[1..][i - 1] == rows[i];
      }
    }
  }

  // ---- the same as steps of the whole system ----

  lemma ClaimsNext(s: Sys, w: nat, rows: seq<Selected>, d: Db) returns (s': Sys)
    requires Selection(s.db, rows, Pending) && (forall i | 0 <= i < |rows| :: Holder(w, rows[i].id) !in s.claims)
    requires MoveRows(s.db, rows, Processing, ProcessingStarted) == Ok(d)
    ensures NextAll(s, Claims(w, rows), s') && s'.db == d && Took(s, s', w, rows)
  {
    s' := ClaimRun(s, w, rows);
    LeadsThere(s, Claims(w, rows), s', Tame);
  }

  lemma RequeuesNext(s: Sys, w: nat, rows: seq<Selected>, d: Db) returns (s': Sys)
    requires Waiting(s, w, rows) && MoveRows(s.db, rows, Pending, RequeueClaimed) == Ok(d)
    ensures NextAll(s, Requeues(w, rows), s') && s'.db == d && LetGo(s, s', w, rows)
  {
    s' := RequeueRun(s, w, rows);
    LeadsThere(s, Requeues(w, rows), s', Tame);
  }

  lemma AbandonsNext(s: Sys, w: nat, rows: seq<Selected>) returns (s': Sys)
    requires Waiting(s, w, rows)
    ensures NextAll(s, Abandons(w, rows), s') && s'.db == s.db && LetGo(s, s', w, rows)
  {
    s' := AbandonRun(s, w, rows);
    LeadsThere(s, Abandons(w, rows), s', Tame);
  }

  lemma RecoversNext(s: Sys, rows: seq<Selected>, d: Db)
    requires Selection(s.db, rows, Processing) && MoveRows(s.db, rows, Pending, RequeueStale) == Ok(d)
    ensures NextAll(s, Recoveries(rows), s.(db := d))
  {
    var s' := RecoverRun(s, rows);
  }
}
