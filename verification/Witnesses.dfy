/**
 Runs showing that the hypotheses of the theorems are needed. Each works for every amount n > 0.
 */
module Witnesses {
  import opened Results
  import opened Tables
  import opened TransactionState
  import opened Payouts
  import opened Ledger
  import opened Runs
  import opened WorkerSteps
  import opened Entries
  import opened Deltas
  import opened Schema
  import opened Steps
  import opened PayoutProtocol
  import opened SingleHolder
  import opened Sending

  const ALICE: Uuid := 1
  const BOB: Uuid := 2

  /** The liquidity accounts, Alice with `funds` micros, and Bob with none. */
  function Bank(funds: int): Sys {
    var accounts := map[SYSTEM_USD := Account(USD, 0, 0), SYSTEM_EUR := Account(EUR, 0, 0), SYSTEM_GBP := Account(GBP,
                                              0, 0),
                        ALICE := Account(USD, funds, 0), BOB := Account(USD, 0, 0)];
    var opening := map[SYSTEM_USD := 0, SYSTEM_EUR := 0, SYSTEM_GBP := 0, ALICE := funds, BOB := 0];
    Sys(Db(accounts, map[], map[], [], []), opening, map[], map[], {}, [])
  }

  lemma BankIsInitial(funds: int)
    ensures Init(Bank(funds))
  {
  }

  // ---- locked funds without backing ----

  /** Requesting a payout of the whole balance and then transferring the balance away leaves locked
      funds without backing, in a tame run. */
  lemma UnbackedLock(n: int) returns (run: seq<Event>, s: Sys)
    requires n > 0
    ensures Init(Bank(n)) && Leads(Bank(n), run, s, Tame)
    ensures ALICE in s.db.accounts && s.db.accounts[ALICE] == Account(USD, 0, n)
  {
    BankIsInitial(n);
    var e0, e1 := DoRequest(10, 20, PayoutRequest(ALICE, n, USD, "payout")), DoTransfer(21, ALICE, BOB, n, "transfer");
    var s1 := LockedUp(n);
    s := SpentAnyway(n, s1);
    LeadsNowhere(Bank(n), Tame);
    LeadsOn(Bank(n), [], Bank(n), e0, s1, Tame);
    LeadsOn(Bank(n), [] + [e0], s1, e1, s, Tame);
    run := [] + [e0] + [e1];
  }

  lemma LockedUp(n: int) returns (s: Sys)
    requires n > 0
    ensures Next(Bank(n), DoRequest(10, 20, PayoutRequest(ALICE, n, USD, "payout")), s)
    ensures s.db.accounts == Bank(n).db.accounts[ALICE := Account(USD, n, n)]
    ensures 21 !in s.db.txs && !ReferenceTaken(s.db, "transfer")
  {
    var req := PayoutRequest(ALICE, n, USD, "payout");
    assert Bank(n).db.accounts[ALICE] == Account(USD, n, 0);
    var d := RequestPayout(Bank(n).db, 10, 20, req).value;
    RequestChanges(Bank(n).db, 10, 20, req);
    RequestNext(Bank(n), 10, 20, req, d);
    s := Bank(n).(db := d);
  }

  lemma SpentAnyway(n: int, m: Sys) returns (s: Sys)
    requires n > 0 && m.db.accounts == Bank(n).db.accounts[ALICE := Account(USD, n, n)]
    requires 21 !in m.db.txs && !ReferenceTaken(m.db, "transfer")
    ensures Next(m, DoTransfer(21, ALICE, BOB, n, "transfer"), s)
    ensures ALICE in s.db.accounts && s.db.accounts[ALICE] == Account(USD, 0, n)
  {
    SpentTables(n, m.db);
    var d := Transfer(m.db, 21, ALICE, BOB, n, "transfer").value;
    TransferNext(m, 21, ALICE, BOB, n, "transfer", d);
    s := m.(db := d);
  }

  lemma SpentTables(n: int, db: Db)
    requires n > 0 && 21 !in db.txs && !ReferenceTaken(db, "transfer")
    requires ALICE in db.accounts && db.accounts[ALICE] == Account(USD, n, n)
    requires BOB in db.accounts && db.accounts[BOB] == Account(USD, 0, 0)
    ensures var d := Transfer(db, 21, ALICE, BOB, n, "transfer");
            d.Ok? && ALICE in d.value.accounts && d.value.accounts[ALICE] == Account(USD, 0, n)
  {
  }

  // ---- a bank with two pending payouts of n from an account holding 2n ----

  const WORKER1 := Holder(1, 10)
  const WORKER2 := Holder(2, 10)

  function Row(n: int, t: Uuid, status: Status, ref: Option<string>): Payout {
    Payout(t, ALICE, n, USD, status, ref)
  }

  function FirstRequest(n: int): Event {
    DoRequest(10, 20, PayoutRequest(ALICE, n, USD, "first"))
  }

  function SecondRequest(n: int): Event {
    DoRequest(11, 21, PayoutRequest(ALICE, n, USD, "second"))
  }

  const CREATED := [Audit(20, Created, None, Pending), Audit(21, Created, None, Pending)]

  /** Payout 10 of transaction 20 in the given statuses, payout 11 of transaction 21 still pending. */
  function SceneDb(n: int, tx: Status, row: Payout, audit: seq<Audit>): Db {
    var txs := map[20 := Tx(n, USD, TypePayout, tx, "first", PayoutMeta),
                   21 := Tx(n, USD, TypePayout, Pending, "second", PayoutMeta)];
    Db(Bank(2 * n).db.accounts[ALICE := Account(USD, 2 * n, 2 * n)], txs,
       map[10 := row, 11 := Row(n, 21, Pending, None)], [], audit)
  }

  function Scene(n: int, tx: Status, row: Payout, audit: seq<Audit>, claims: map<Holder, Claim>, sent: seq<Uuid>): Sys {
    Bank(2 * n).(db := SceneDb(n, tx, row, audit), claims := claims, sent := sent)
  }

  function Requested(n: int): Sys {
    Scene(n, Pending, Row(n, 20, Pending, None), CREATED, map[], [])
  }

  lemma RequestsRun(n: int)
    requires n > 0
    ensures Leads(Bank(2 * n), [FirstRequest(n), SecondRequest(n)], Requested(n), NoLostSend)
  {
    var s0 := Bank(2 * n);
    FirstRequested(n);
    SecondRequested(n);
    LeadsNowhere(s0, NoLostSend);
    LeadsOn(s0, [], s0, FirstRequest(n), OneRequested(n), NoLostSend);
    LeadsOn(s0, [] + [FirstRequest(n)], OneRequested(n), SecondRequest(n), Requested(n), NoLostSend);
    assert [] + [FirstRequest(n)] + [SecondRequest(n)] == [FirstRequest(n), SecondRequest(n)];
  }

  function OneRequested(n: int): Sys {
    var bank := Bank(2 * n);
    bank.(db := Db(bank.db.accounts[ALICE := Account(USD, 2 * n, n)],
                   map[20 := Tx(n, USD, TypePayout, Pending, "first", PayoutMeta)],
                   map[10 := Row(n, 20, Pending, None)], [], [Audit(20, Created, None, Pending)]))
  }

  lemma RequestCommits(db: Db, pid: Uuid, tid: Uuid, req: PayoutRequest)
    requires req.amount > 0 && req.reference != "" && req.account in db.accounts && req.currency == USD
    requires db.accounts[req.account].currency == USD && db.accounts[req.account].locked >= 0
    requires db.accounts[req.account].balance - db.accounts[req.account].locked >= req.amount
    requires pid !in db.payouts && tid !in db.txs && !ReferenceTaken(db, req.reference)
    ensures var account := db.accounts[req.account];
            RequestPayout(db, pid, tid, req) ==
            Ok(Db(db.accounts[req.account := account.(locked := account.locked + req.amount)],
                  db.txs[tid := Tx(req.amount, USD, TypePayout, Pending, req.reference, PayoutMeta)],
                  db.payouts[pid := Payout(tid, req.account, req.amount, USD, Pending, None)], db.entries,
                  db.audit + [Audit(tid, Created, None, Pending)]))
  {
  }

  lemma FirstRequested(n: int)
    requires n > 0
    ensures Next(Bank(2 * n), FirstRequest(n), OneRequested(n))
  {
    var s := Bank(2 * n);
    var req := PayoutRequest(ALICE, n, USD, "first");
    assert s.db.accounts[ALICE] == Account(USD, 2 * n, 0);
    assert s.db.txs[20 := Tx(n, USD, TypePayout, Pending, "first", PayoutMeta)] == OneRequested(n).db.txs;
    assert s.db.payouts[10 := Row(n, 20, Pending, None)] == OneRequested(n).db.payouts;
    assert s.db.audit + [Audit(20, Created, None, Pending)] == OneRequested(n).db.audit;
    RequestCommits(s.db, 10, 20, req);
    RequestNext(s, 10, 20, req, OneRequested(n).db);
  }

  lemma SecondRequested(n: int)
    requires n > 0
    ensures Next(OneRequested(n), SecondRequest(n), Requested(n))
  {
    var s, t := OneRequested(n), Requested(n);
    var req := PayoutRequest(ALICE, n, USD, "second");
    assert s.db.accounts[ALICE] == Account(USD, 2 * n, n);
    assert s.db.accounts[ALICE := Account(USD, 2 * n, 2 * n)] == t.db.accounts;
    assert s.db.txs[21 := Tx(n, USD, TypePayout, Pending, "second", PayoutMeta)] == t.db.txs;
    assert s.db.payouts[11 := Row(n, 21, Pending, None)] == t.db.payouts;
    assert s.db.audit + [Audit(21, Created, None, Pending)] == t.db.audit;
    RequestCommits(s.db, 11, 21, req);
    RequestNext(s, 11, 21, req, t.db);
  }

  const CLAIMED_TRAIL := CREATED + [Audit(20, ProcessingStarted, Some(Pending), Processing)]

  /** Payout 10 claimed by worker 1, at the given phase. */
  function Working(n: int, phase: Phase, sent: seq<Uuid>): Sys {
    Scene(n, Processing, Row(n, 20, Processing, None), CLAIMED_TRAIL,
          map[WORKER1 := Claim(Row(n, 20, Pending, None), phase)], sent)
  }

  lemma ClaimRun(n: int)
    ensures Next(Requested(n), DoClaim(WORKER1), Working(n, Claimed, []))
  {
    var s, t := Requested(n), Working(n, Claimed, []);
    ClaimTables(n);
    ClaimNext(s, WORKER1);
    assert s.claims[WORKER1 := Claim(Row(n, 20, Pending, None), Claimed)] == t.claims;
  }

  lemma ClaimTables(n: int)
    ensures MoveRow(Requested(n).db, 10, Row(n, 20, Pending, None), Processing, ProcessingStarted) ==
            Ok(Working(n, Claimed, []).db)
  {
    var d := Requested(n).db;
    assert d.payouts[10 := Row(n, 20, Processing, None)] == Working(n, Claimed, []).db.payouts;
    assert d.txs[20 := d.txs[20].(status := Processing)] == Working(n, Claimed, []).db.txs;
    Moved(d, 10, Row(n, 20, Pending, None), Processing, ProcessingStarted);
  }

  lemma Moved(d: Db, p: Uuid, row: Payout, status: Status, action: Action)
    requires p in d.payouts && row.tx in d.txs && CanTransition(d.txs[row.tx].status, status) && !status.Reversed?
    ensures MoveRow(d, p, row, status, action) ==
            Ok(d.(payouts := d.payouts[p := d.payouts[p].(status := status, gatewayRef := None)],
                  txs := d.txs[row.tx := d.txs[row.tx].(status := status)],
                  audit := d.audit + [Audit(row.tx, action, Some(d.txs[row.tx].status), status)]))
  {
  }

  /** Worker 1 changes only its phase. */
  lemma WorkingAt(n: int, phase: Phase, next: Phase, sent: seq<Uuid>)
    ensures At(Working(n, phase, sent), WORKER1, next) == Working(n, next, sent)
  {
    assert Working(n, phase, sent).claims[WORKER1 := Claim(Row(n, 20, Pending, None), next)] ==
           Working(n, next, sent).claims;
  }

  lemma AcceptRun(n: int)
    ensures Next(Working(n, Claimed, []), GatewayAccepts(WORKER1, "a"), Working(n, Sent("a"), [10]))
  {
    AcceptsNext(Working(n, Claimed, []), WORKER1, "a");
    assert Working(n, Claimed, []).(sent := [] + [10]) == Working(n, Claimed, [10]);
    WorkingAt(n, Claimed, Sent("a"), [10]);
  }

  /** Payout 10 has been accepted by the gateway; worker 1 is about to settle it. */
  lemma AcceptedRun(n: int) returns (run: seq<Event>)
    requires n > 0
    ensures Leads(Bank(2 * n), run, Working(n, Sent("a"), [10]), NoLostSend)
    ensures forall e | e in run :: !e.MarkReview?
  {
    RequestsRun(n);
    ClaimRun(n);
    AcceptRun(n);
    run := [FirstRequest(n), SecondRequest(n)];
    LeadsOn(Bank(2 * n), run, Requested(n), DoClaim(WORKER1), Working(n, Claimed, []), NoLostSend);
    run := run + [DoClaim(WORKER1)];
    LeadsOn(Bank(2 * n), run, Working(n, Claimed, []), GatewayAccepts(WORKER1, "a"), Working(n, Sent("a"), [10]),
            NoLostSend);
    run := run + [GatewayAccepts(WORKER1, "a")];
  }

  // ---- the review note can arrive after the resolution ----

  function InReview(n: int): Sys {
    Scene(n, Processing, Row(n, 20, ManualReview, Some("a")), CLAIMED_TRAIL,
          map[WORKER1 := Claim(Row(n, 20, Pending, None), Marked)], [10])
  }

  lemma MarkRun(n: int)
    ensures Next(Working(n, Unsettled("a"), [10]), MarkReview(WORKER1), InReview(n))
  {
    var s := Working(n, Unsettled("a"), [10]);
    assert s.db.payouts[10 := Row(n, 20, ManualReview, Some("a"))] == InReview(n).db.payouts;
    MarksNext(s, WORKER1, "a", InReview(n).db);
    WorkingAt(n, Unsettled("a"), Marked, [10]);
  }

  lemma ConfirmRun(n: int) returns (s: Sys)
    requires n > 0
    ensures Next(InReview(n), DoConfirm(10, None), s)
    ensures 20 in s.db.txs && s.db.txs[20].status == Completed && s.claims == InReview(n).claims
  {
    ConfirmTables(n);
    var d := ConfirmReview(InReview(n).db, 10, None).value;
    ConfirmNext(InReview(n), 10, None, d);
    s := InReview(n).(db := d);
  }

  lemma ConfirmTables(n: int)
    requires n > 0
    ensures ConfirmReview(InReview(n).db, 10, None).Ok?
    ensures var d := ConfirmReview(InReview(n).db, 10, None).value;
            20 in d.txs && d.txs[20].status == Completed
  {
    assert InReview(n).db.accounts[ALICE] == Account(USD, 2 * n, 2 * n);
  }

  /** A worker parks a payout for review, an operator confirms it, and only then the worker's note
      reaches the log: a tame run whose audit trail no longer replays. */
  lemma LateReviewNote(n: int) returns (run: seq<Event>, s: Sys)
    requires n > 0
    ensures Init(Bank(2 * n)) && Leads(Bank(2 * n), run, s, NoLostSend)
    ensures 20 in s.db.txs && !Chain(s.db.audit, 20, s.db.txs[20].status)
  {
    BankIsInitial(2 * n);
    var confirmed;
    run, confirmed := ConfirmedRun(n);
    s := LateNote(confirmed);
    LeadsOn(Bank(2 * n), run, confirmed, AuditReview(WORKER1), s, NoLostSend);
    run := run + [AuditReview(WORKER1)];
  }

  lemma ConfirmedRun(n: int) returns (run: seq<Event>, s: Sys)
    requires n > 0
    ensures Leads(Bank(2 * n), run, s, NoLostSend)
    ensures 20 in s.db.txs && s.db.txs[20].status == Completed && In(s, WORKER1, Marked)
    ensures s.claims[WORKER1].row.tx == 20
  {
    run := ReviewRun(n);
    s := ConfirmRun(n);
    LeadsOn(Bank(2 * n), run, InReview(n), DoConfirm(10, None), s, NoLostSend);
    run := run + [DoConfirm(10, None)];
  }

  lemma ReviewRun(n: int) returns (run: seq<Event>)
    requires n > 0
    ensures Leads(Bank(2 * n), run, InReview(n), NoLostSend)
  {
    run := AcceptedRun(n);
    Aborted(n);
    MarkRun(n);
    LeadsOn(Bank(2 * n), run, Working(n, Sent("a"), [10]), SettleAborts(WORKER1), Working(n, Unsettled("a"), [10]),
            NoLostSend);
    run := run + [SettleAborts(WORKER1)];
    LeadsOn(Bank(2 * n), run, Working(n, Unsettled("a"), [10]), MarkReview(WORKER1), InReview(n), NoLostSend);
    run := run + [MarkReview(WORKER1)];
  }

  lemma LateNote(m: Sys) returns (s: Sys)
    requires 20 in m.db.txs && m.db.txs[20].status == Completed && In(m, WORKER1, Marked)
    requires m.claims[WORKER1].row.tx == 20
    ensures Next(m, AuditReview(WORKER1), s)
    ensures 20 in s.db.txs && !Chain(s.db.audit, 20, s.db.txs[20].status)
  {
    NotesNext(m, WORKER1);
    s := Drop(m, WORKER1).(db := WriteAudit(m.db, Audit(20, PayoutReview, Some(Processing), Processing)));
    assert s.db.audit[|s.db.audit| - 1] == Audit(20, PayoutReview, Some(Processing), Processing);
  }

  // ---- a lost review mark allows a second send ----

  function Recovered(n: int, claims: map<Holder, Claim>): Sys {
    Scene(n, Pending, Row(n, 20, Pending, None), CLAIMED_TRAIL + [Audit(20, RequeueStale, Some(Processing), Pending)],
          claims, [10])
  }

  /** Payout 10 in PROCESSING after one acceptance, held as given. */
  function Stuck(n: int, claims: map<Holder, Claim>): Sys {
    Scene(n, Processing, Row(n, 20, Processing, None), CLAIMED_TRAIL, claims, [10])
  }

  lemma RecoverRun(n: int, claims: map<Holder, Claim>)
    ensures Next(Stuck(n, claims), DoRecover(10), Recovered(n, claims))
  {
    RecoverTables(n, CLAIMED_TRAIL);
    RecoverNext(Stuck(n, claims), 10);
  }

  lemma RecoverTables(n: int, trail: seq<Audit>)
    ensures MoveRow(SceneDb(n, Processing, Row(n, 20, Processing, None), trail), 10, Row(n, 20, Processing, None),
                    Pending, RequeueStale) ==
            Ok(SceneDb(n, Pending, Row(n, 20, Pending, None),
                       trail + [Audit(20, RequeueStale, Some(Processing), Pending)]))
  {
    var d := SceneDb(n, Processing, Row(n, 20, Processing, None), trail);
    var t := SceneDb(n, Pending, Row(n, 20, Pending, None),
                     trail + [Audit(20, RequeueStale, Some(Processing), Pending)]);
    assert d.payouts[10 := Row(n, 20, Pending, None)] == t.payouts;
    assert d.txs[20 := d.txs[20].(status := Pending)] == t.txs;
    Moved(d, 10, Row(n, 20, Processing, None), Pending, RequeueStale);
  }

  /** Worker 2 claims the recovered payout and the gateway accepts it again. */
  lemma ResendRun(n: int, claims: map<Holder, Claim>) returns (claimed: Sys, s: Sys)
    requires WORKER2 !in claims
    ensures Next(Recovered(n, claims), DoClaim(WORKER2), claimed)
    ensures Next(claimed, GatewayAccepts(WORKER2, "b"), s)
    ensures s.sent == [10, 10] && s.claims == claims[WORKER2 := Claim(Row(n, 20, Pending, None), Sent("b"))]
    ensures s.db.accounts == Recovered(n, claims).db.accounts && s.db.entries == []
    ensures 10 in s.db.payouts && s.db.payouts[10] == Row(n, 20, Processing, None)
    ensures 20 in s.db.txs && s.db.txs[20].status == Processing
  {
    var m := Recovered(n, claims);
    ReclaimTables(n, claims);
    var d := MoveRow(m.db, 10, Row(n, 20, Pending, None), Processing, ProcessingStarted).value;
    ClaimNext(m, WORKER2);
    claimed := m.(db := d, claims := claims[WORKER2 := Claim(Row(n, 20, Pending, None), Claimed)]);
    AcceptsNext(claimed, WORKER2, "b");
    s := At(claimed.(sent := [10] + [10]), WORKER2, Sent("b"));
    assert s.claims == claims[WORKER2 := Claim(Row(n, 20, Pending, None), Sent("b"))];
  }

  lemma ReclaimTables(n: int, claims: map<Holder, Claim>)
    ensures var m := Recovered(n, claims).db;
            var d := MoveRow(m, 10, Row(n, 20, Pending, None), Processing, ProcessingStarted);
            && d.Ok? && d.value.accounts == m.accounts && d.value.entries == []
            && 10 in d.value.payouts && d.value.payouts[10] == Row(n, 20, Processing, None)
            && 20 in d.value.txs && d.value.txs[20].status == Processing
  {
  }

  /** If the settlement aborts and then the review mark is lost, stale recovery hands the payout out
      again: a tame run that sends it twice. */
  lemma LostMarkResends(n: int) returns (run: seq<Event>, s: Sys)
    requires n > 0
    ensures Init(Bank(2 * n)) && Leads(Bank(2 * n), run, s, Tame) && Sends(s.sent, 10) == 2
    ensures SettleAborts(WORKER1) in run && forall e | e in run :: !e.MarkReview?
  {
    BankIsInitial(2 * n);
    run := LostAndRecovered(n);
    var claimed;
    claimed, s := ResendRun(n, map[]);
    LeadsOn(Bank(2 * n), run, Recovered(n, map[]), DoClaim(WORKER2), claimed, Tame);
    run := run + [DoClaim(WORKER2)];
    LeadsOn(Bank(2 * n), run, claimed, GatewayAccepts(WORKER2, "b"), s, Tame);
    run := run + [GatewayAccepts(WORKER2, "b")];
    SendsTwice();
  }

  lemma LostAndRecovered(n: int) returns (run: seq<Event>)
    requires n > 0
    ensures Leads(Bank(2 * n), run, Recovered(n, map[]), Tame)
    ensures SettleAborts(WORKER1) in run && forall e | e in run :: !e.MarkReview?
  {
    run := LostMarkRun(n);
    RecoverRun(n, map[]);
    LeadsOn(Bank(2 * n), run, Stuck(n, map[]), DoRecover(10), Recovered(n, map[]), Tame);
    run := run + [DoRecover(10)];
  }

  /** The settlement aborts, the review mark is lost, and the worker moves on. */
  lemma LostMarkRun(n: int) returns (run: seq<Event>)
    requires n > 0
    ensures Leads(Bank(2 * n), run, Stuck(n, map[]), Tame)
    ensures SettleAborts(WORKER1) in run && forall e | e in run :: !e.MarkReview?
  {
    run := AcceptedRun(n);
    LeadsWeaker(Bank(2 * n), run, Working(n, Sent("a"), [10]), NoLostSend, Tame);
    Aborted(n);
    LeadsOn(Bank(2 * n), run, Working(n, Sent("a"), [10]), SettleAborts(WORKER1), Working(n, Unsettled("a"), [10]),
            Tame);
    run := run + [SettleAborts(WORKER1)];
    Abandoned(n);
    LeadsOn(Bank(2 * n), run, Working(n, Unsettled("a"), [10]), GiveUp(WORKER1), Stuck(n, map[]), Tame);
    run := run + [GiveUp(WORKER1)];
  }

  lemma Aborted(n: int)
    ensures Next(Working(n, Sent("a"), [10]), SettleAborts(WORKER1), Working(n, Unsettled("a"), [10]))
  {
    AbortsNext(Working(n, Sent("a"), [10]), WORKER1, "a");
    WorkingAt(n, Sent("a"), Unsettled("a"), [10]);
  }

  lemma Abandoned(n: int)
    ensures Next(Working(n, Unsettled("a"), [10]), GiveUp(WORKER1), Stuck(n, map[]))
    ensures Tame(Working(n, Unsettled("a"), [10]), GiveUp(WORKER1))
  {
    GivesUpNext(Working(n, Unsettled("a"), [10]), WORKER1);
    assert Working(n, Unsettled("a"), [10]).claims - {WORKER1} == map[];
    assert Drop(Working(n, Unsettled("a"), [10]), WORKER1) == Stuck(n, map[]);
  }

  lemma SendsTwice()
    ensures Sends([10, 10], 10) == 2
  {
    SendsAppend([], 10, 10);
    SendsAppend([10], 10, 10);
    assert [] + [10] == [10] && [10] + [10] == [10, 10];
  }

  // ---- without the single holder, one payout settles twice ----

  /** A worker that still holds a payout which has already been settled commits a second settlement
      exactly when other payouts keep enough funds locked on the account; nothing else stops it. */
  lemma StaleSettleIff(db: Db, pid: Uuid, row: Payout, ref: string)
    requires Seeded(db) && pid in db.payouts && row.account in db.accounts && row.amount > 0
    requires row.tx in db.txs && db.txs[row.tx].status == Completed && Supported(row.currency)
    ensures Settle(db, pid, row, PayoutCompleted, Some(ref)).Ok? <==> db.accounts[row.account].locked >= row.amount
    ensures Settle(db, pid, row, PayoutCompleted, Some(ref)).Ok? ==>
              Settle(db, pid, row, PayoutCompleted, Some(ref)).value.entries ==
              db.entries + PairLegs(row.tx, row.account, SystemAccount(row.currency).value, row.amount)
  {
    if Settle(db, pid, row, PayoutCompleted, Some(ref)).Ok? {
      SettleChanges(db, pid, row, PayoutCompleted, Some(ref));
    }
  }

  /** Stale recovery takes a payout whose worker is merely slow; both workers settle it. */
  lemma DoubleSettlement(n: int) returns (run: seq<Event>, s: Sys)
    requires n > 0
    ensures Init(Bank(2 * n)) && Leads(Bank(2 * n), run, s, Anything)
    ensures 10 in s.db.payouts && s.db.payouts[10].status == Completed
    ensures s.db.entries == PairLegs(20, ALICE, SYSTEM_USD, n) + PairLegs(20, ALICE, SYSTEM_USD, n)
  {
    BankIsInitial(2 * n);
    var resent, once;
    run, resent := ResentRun(n);
    once, s := SettleTwice(n, resent);
    LeadsOn(Bank(2 * n), run, resent, DoSettle(WORKER2), once, Anything);
    run := run + [DoSettle(WORKER2)];
    LeadsOn(Bank(2 * n), run, once, DoSettle(WORKER1), s, Anything);
    run := run + [DoSettle(WORKER1)];
  }

  /** Both workers hold the payout, each with an acceptance. */
  ghost predicate HeldTwice(n: int, m: Sys) {
    && Seeded(m.db) && m.db.entries == []
    && ALICE in m.db.accounts && m.db.accounts[ALICE] == Account(USD, 2 * n, 2 * n)
    && 10 in m.db.payouts && 20 in m.db.txs && m.db.txs[20].status == Processing
    && In(m, WORKER1, Sent("a")) && In(m, WORKER2, Sent("b"))
    && SameRow(m.claims[WORKER1].row, Row(n, 20, Pending, None))
    && SameRow(m.claims[WORKER2].row, Row(n, 20, Pending, None))
  }

  lemma ResentRun(n: int) returns (run: seq<Event>, s: Sys)
    requires n > 0
    ensures Leads(Bank(2 * n), run, s, Anything) && HeldTwice(n, s)
  {
    run := AcceptedRun(n);
    LeadsWeaker(Bank(2 * n), run, Working(n, Sent("a"), [10]), NoLostSend, Anything);
    var claims := map[WORKER1 := Claim(Row(n, 20, Pending, None), Sent("a"))];
    RecoverRun(n, claims);
    LeadsOn(Bank(2 * n), run, Stuck(n, claims), DoRecover(10), Recovered(n, claims), Anything);
    run := run + [DoRecover(10)];
    var claimed;
    claimed, s := ResendRun(n, claims);
    LeadsOn(Bank(2 * n), run, Recovered(n, claims), DoClaim(WORKER2), claimed, Anything);
    run := run + [DoClaim(WORKER2)];
    LeadsOn(Bank(2 * n), run, claimed, GatewayAccepts(WORKER2, "b"), s, Anything);
    run := run + [GatewayAccepts(WORKER2, "b")];
  }

  lemma SettleTwice(n: int, m: Sys) returns (once: Sys, s: Sys)
    requires n > 0 && HeldTwice(n, m)
    ensures Next(m, DoSettle(WORKER2), once) && Next(once, DoSettle(WORKER1), s)
    ensures 10 in s.db.payouts && s.db.payouts[10].status == Completed
    ensures s.db.entries == PairLegs(20, ALICE, SYSTEM_USD, n) + PairLegs(20, ALICE, SYSTEM_USD, n)
  {
    var row := m.claims[WORKER2].row;
    FirstSettle(n, m.db, row);
    var d := Settle(m.db, 10, row, PayoutCompleted, Some("b")).value;
    SettlesNext(m, WORKER2, "b", d);
    once := Drop(m, WORKER2).(db := d);
    s := SecondSettle(n, once);
  }

  lemma FirstSettle(n: int, db: Db, row: Payout)
    requires n > 0 && Seeded(db) && db.entries == [] && SameRow(row, Row(n, 20, Pending, None))
    requires ALICE in db.accounts && db.accounts[ALICE] == Account(USD, 2 * n, 2 * n)
    requires 10 in db.payouts && 20 in db.txs && db.txs[20].status == Processing
    ensures var d := Settle(db, 10, row, PayoutCompleted, Some("b"));
            && d.Ok? && Seeded(d.value) && d.value.entries == PairLegs(20, ALICE, SYSTEM_USD, n)
            && ALICE in d.value.accounts && d.value.accounts[ALICE] == Account(USD, n, n)
            && 10 in d.value.payouts && 20 in d.value.txs && d.value.txs[20].status == Completed
  {
    assert Settle(db, 10, row, PayoutCompleted, Some("b")).Ok?;
    SettleChanges(db, 10, row, PayoutCompleted, Some("b"));
    PairNet(20, ALICE, SYSTEM_USD, n);
  }

  lemma SecondSettle(n: int, m: Sys) returns (s: Sys)
    requires n > 0 && Seeded(m.db) && m.db.entries == PairLegs(20, ALICE, SYSTEM_USD, n)
    requires ALICE in m.db.accounts && m.db.accounts[ALICE] == Account(USD, n, n)
    requires 10 in m.db.payouts && 20 in m.db.txs && m.db.txs[20].status == Completed
    requires In(m, WORKER1, Sent("a")) && SameRow(m.claims[WORKER1].row, Row(n, 20, Pending, None))
    ensures Next(m, DoSettle(WORKER1), s) && 10 in s.db.payouts && s.db.payouts[10].status == Completed
    ensures s.db.entries == PairLegs(20, ALICE, SYSTEM_USD, n) + PairLegs(20, ALICE, SYSTEM_USD, n)
  {
    var row := m.claims[WORKER1].row;
    StaleSettleIff(m.db, 10, row, "a");
    SettleRewrites(m.db, 10, row, PayoutCompleted, Some("a"));
    var d := Settle(m.db, 10, row, PayoutCompleted, Some("a")).value;
    SettlesNext(m, WORKER1, "a", d);
    s := Drop(m, WORKER1).(db := d);
  }
}
