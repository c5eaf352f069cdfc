/**
 The whole backend as a labelled transition system. One event is one committed database
 transaction, one separately committed write, one gateway answer, or one process giving up.
 Every choice made by the environment (which request arrives, whether the gateway accepts, which
 write is lost, who crashes) is in the label, so a run is just a list of events.
 */
module Runs {
  import opened Results
  import opened Tables
  import opened Ledger
  import opened Payouts
  import opened TransactionState

  /** Where a worker stands with one payout it claimed. `Unanswered`: the gateway has taken the payout
      but its answer will not say so (a timeout, a cancelled call, an error after the send).
      `Fallback*` are the program points of the failure fallback, whose writes commit one by one. */
  datatype Phase =
    | Claimed
    | Unanswered
    | Sent(gatewayRef: string)
    | Unsettled(gatewayRef: string)
    | Marked
    | Refused
    | FallbackRead
    | FallbackRelease
    | FallbackTx
    | FallbackAudit
    | FallbackPayout

  datatype Holder = Holder(worker: nat, payout: Uuid)

  /** A worker's local copy of the claimed row, and its program point. */
  datatype Claim = Claim(row: Payout, phase: Phase)

  /** A webhook between its reference check and its transaction. */
  datatype DepositTask = DepositTask(dep: Deposit, tid: Uuid, retry: bool)

  /** `opening`, `released` and `sent` are history: the balance each account started with, the payouts
      whose fallback has released funds but not yet closed the row, and the payouts the gateway took,
      acknowledged or not. */
  datatype Sys = Sys(
    db: Db,
    opening: map<Uuid, int>,
    deposits: map<nat, DepositTask>,
    claims: map<Holder, Claim>,
    released: set<Uuid>,
    sent: seq<Uuid>)

  datatype Event =
    | OpenAccount(id: Uuid, currency: Currency, balance: int)
    | DoTransfer(tid: Uuid, from: Uuid, to: Uuid, amount: int, reference: string)
    | DoExchange(tid: Uuid, cmd: ExchangeCmd, target: int)
    | CheckDeposit(request: nat, dep: Deposit, tid: Uuid)
    | CommitDeposit(request: nat)
    | DoRequest(pid: Uuid, tid: Uuid, req: PayoutRequest)
    | DoClaim(h: Holder)
    | DoRequeue(h: Holder)
    | DoRecover(pid: Uuid)
    | GatewayTakes(h: Holder)
    | GatewayAccepts(h: Holder, gatewayRef: string)
    | GatewayRefuses(h: Holder)
    | DoSettle(h: Holder)
    | SettleAborts(h: Holder)
    | MarkReview(h: Holder)
    | AuditReview(h: Holder)
    | DoFail(h: Holder)
    | FailAborts(h: Holder)
    | Fallback(h: Holder, succeeds: bool)
    | GiveUp(h: Holder)
    | DoConfirm(pid: Uuid, replacementRef: Option<string>)
    | DoRefund(pid: Uuid)

  function WithDb(s: Sys, d: Result<Db>): Option<Sys> {
    if d.Ok? then Some(s.(db := d.value)) else None
  }

  function At(s: Sys, h: Holder, phase: Phase): Sys
    requires h in s.claims
  {
    s.(claims := s.claims[h := s.claims[h].(phase := phase)])
  }

  function Drop(s: Sys, h: Holder): Sys {
    s.(claims := s.claims - {h})
  }

  predicate In(s: Sys, h: Holder, phase: Phase) {
    h in s.claims && s.claims[h].phase == phase
  }

  /** The worker has heard nothing good from the gateway: it may still requeue or fail the payout. */
  predicate Unheard(s: Sys, h: Holder) {
    In(s, h, Claimed) || In(s, h, Unanswered)
  }

  /** One write of the failure fallback. A lost write is logged and the fallback moves on; a lost
      read skips straight to the payout row. */
  function FallbackStep(s: Sys, h: Holder, succeeds: bool): Option<Sys>
    requires h in s.claims
  {
    var row := s.claims[h].row;
    match s.claims[h].phase
    case FallbackRead =>
      if succeeds && h.payout in s.db.payouts
      then Some(s.(claims := s.claims[h := Claim(s.db.payouts[h.payout], FallbackRelease)]))
      else Some(At(s, h, FallbackPayout))
    case FallbackRelease =>
      if succeeds && Releasable(s.db, row.account, row.amount)
      then Some(At(s.(db := ReleaseFundsSafe(s.db, row.account, row.amount), released := s.released + {h.payout}), h,
                   FallbackTx))
      else Some(At(s, h, FallbackTx))
    case FallbackTx =>
      var d := UpdateTransactionStatus(s.db, row.tx, Failed);
      if succeeds && d.Ok? then Some(At(s.(db := d.value), h, FallbackAudit))
      else Some(At(s, h, FallbackPayout))
    case FallbackAudit =>
      if succeeds then Some(At(s.(db := WriteAudit(s.db, Audit(row.tx, PayoutFailedFallback, None, Failed))), h,
                               FallbackPayout))
      else Some(At(s, h, FallbackPayout))
    case FallbackPayout =>
      var d := UpdatePayoutStatus(s.db, h.payout, Failed, None);
      if succeeds && d.Ok? then Some(Drop(s.(db := d.value, released := s.released - {h.payout}), h))
      else Some(Drop(s, h))
    case _ => None
  }

  function ClaimStep(s: Sys, h: Holder): Option<Sys> {
    var d := ClaimRow(s.db, h.payout);
    if d.Err? || h in s.claims then None
    else Some(s.(db := d.value, claims := s.claims[h := Claim(s.db.payouts[h.payout], Claimed)]))
  }

  function CheckDepositStep(s: Sys, request: nat, dep: Deposit, tid: Uuid): Option<Sys> {
    if request in s.deposits || ValidateDeposit(dep).Err? then None
    else if !ReferenceTaken(s.db, dep.reference) then
      Some(s.(deposits := s.deposits[request := DepositTask(dep, tid, false)]))
    else if
      && tid in s.db.txs && s.db.txs[tid].reference == dep.reference
      && EvaluateExisting(dep, s.db.txs[tid]) == Ok(Retry)
    then
      Some(s.(deposits := s.deposits[request := DepositTask(dep, tid, true)]))
    else None
  }

  /** The state after an event, or None when the event cannot happen. */
  function Apply(s: Sys, e: Event): Option<Sys> {
    match e
    case OpenAccount(id, currency, balance) =>
      var d := InsertAccount(s.db, id, currency, balance);
      if d.Ok? then Some(s.(db := d.value, opening := s.opening[id := balance])) else None
    case DoTransfer(tid, from, to, amount, reference) => WithDb(s, Transfer(s.db, tid, from, to, amount, reference))
    case DoExchange(tid, cmd, target) => WithDb(s, Exchange(s.db, tid, cmd, target))
    case CheckDeposit(request, dep, tid) => CheckDepositStep(s, request, dep, tid)
    case CommitDeposit(request) =>
      if request !in s.deposits then None
      else
        var task := s.deposits[request];
        WithDb(s.(deposits := s.deposits - {request}), DepositFunds(s.db, task.tid, task.retry, task.dep))
    case DoRequest(pid, tid, req) => WithDb(s, RequestPayout(s.db, pid, tid, req))
    case DoClaim(h) => ClaimStep(s, h)
    case DoRequeue(h) =>
      if !Unheard(s, h) then None
      else WithDb(Drop(s, h), MoveRow(s.db, h.payout, s.claims[h].row, Pending, RequeueClaimed))
    case DoRecover(pid) => WithDb(s, RecoverRow(s.db, pid))
    case GatewayTakes(h) =>
      if In(s, h, Claimed) then Some(At(s.(sent := s.sent + [h.payout]), h, Unanswered)) else None
    case GatewayAccepts(h, gatewayRef) =>
      if In(s, h, Claimed) then Some(At(s.(sent := s.sent + [h.payout]), h, Sent(gatewayRef))) else None
    case GatewayRefuses(h) =>
      if Unheard(s, h) then Some(At(s, h, Refused)) else None
    case DoSettle(h) =>
      if h !in s.claims || !s.claims[h].phase.Sent? then None
      else WithDb(Drop(s, h), Settle(s.db, h.payout, s.claims[h].row, PayoutCompleted,
                                     Some(s.claims[h].phase.gatewayRef)))
    case SettleAborts(h) =>
      if h !in s.claims || !s.claims[h].phase.Sent? then None
      else Some(At(s, h, Unsettled(s.claims[h].phase.gatewayRef)))
    case MarkReview(h) =>
      if h !in s.claims || !s.claims[h].phase.Unsettled? then None
      else WithDb(At(s, h, Marked), UpdatePayoutStatus(s.db, h.payout, ManualReview,
                                                       Some(s.claims[h].phase.gatewayRef)))
    case AuditReview(h) =>
      if !In(s, h, Marked) then None
      else Some(Drop(s, h).(db := WriteAudit(s.db, Audit(s.claims[h].row.tx, PayoutReview, Some(Processing),
                                                         Processing))))
    case DoFail(h) =>
      if !In(s, h, Refused) then None
      else WithDb(Drop(s, h), FailPayout(s.db, h.payout, s.claims[h].row))
    case FailAborts(h) =>
      if In(s, h, Refused) then Some(At(s, h, FallbackRead)) else None
    case Fallback(h, succeeds) =>
      if h in s.claims then FallbackStep(s, h, succeeds) else None
    case GiveUp(h) => if h in s.claims then Some(Drop(s, h)) else None
    case DoConfirm(pid, replacementRef) => WithDb(s, ConfirmReview(s.db, pid, replacementRef))
    case DoRefund(pid) => WithDb(s, RefundReview(s.db, pid))
  }

  // ---- runs ----

  function Exec(s: Sys, run: seq<Event>): Option<Sys>
    decreases |run|
  {
    if run == [] then Some(s)
    else
      var next := Apply(s, run[0]);
      if next.None? then None else Exec(next.value, run[1..])
  }

  // ---- steps as facts ----

  predicate NextAt(s: Sys, e: Event, s': Sys, n: nat) {
    n == 0 && Apply(s, e) == Some(s')
  }

  /** One step, kept under a quantifier so that a proof meets the transition function only where it
      asserts `NextAt`. */
  ghost predicate Next(s: Sys, e: Event, s': Sys) {
    forall n: nat | n == 0 :: NextAt(s, e, s', n)
  }

  predicate NextAllAt(s: Sys, events: seq<Event>, s': Sys, n: nat) {
    n == 0 && Exec(s, events) == Some(s')
  }

  ghost predicate NextAll(s: Sys, events: seq<Event>, s': Sys) {
    forall n: nat | n == 0 :: NextAllAt(s, events, s', n)
  }

  /** Every event of the run satisfies a condition on the state it meets. */
  ghost predicate Along(s: Sys, run: seq<Event>, allowed: (Sys, Event) -> bool)
    decreases |run|
  {
    run == [] ||
    (allowed(s, run[0]) && (Apply(s, run[0]).Some? ==> Along(Apply(s, run[0]).value, run[1..], allowed)))
  }

  ghost predicate LeadsAt(s: Sys, run: seq<Event>, s': Sys, allowed: (Sys, Event) -> bool, n: nat) {
    n == 0 && Exec(s, run) == Some(s') && Along(s, run, allowed)
  }

  /** A run from one state to another, every event of which satisfies the condition. */
  ghost predicate Leads(s: Sys, run: seq<Event>, s': Sys, allowed: (Sys, Event) -> bool) {
    forall n: nat | n == 0 :: LeadsAt(s, run, s', allowed, n)
  }

  lemma NextIffApply(s: Sys, e: Event, s': Sys)
    ensures Next(s, e, s') <==> Apply(s, e) == Some(s')
  {
    if Next(s, e, s') {
      assert NextAt(s, e, s', 0);
    }
  }

  lemma NextAllIffExec(s: Sys, run: seq<Event>, s': Sys)
    ensures NextAll(s, run, s') <==> Exec(s, run) == Some(s')
  {
    if NextAll(s, run, s') {
      assert NextAllAt(s, run, s', 0);
    }
  }

  lemma LeadsIff(s: Sys, run: seq<Event>, s': Sys, allowed: (Sys, Event) -> bool)
    ensures Leads(s, run, s', allowed) <==> Exec(s, run) == Some(s') && Along(s, run, allowed)
  {
    if Leads(s, run, s', allowed) {
      assert LeadsAt(s, run, s', allowed, 0);
    }
  }

  /** A run that begins with a step. */
  lemma RunCons(s: Sys, e: Event, s': Sys, run: seq<Event>, allowed: (Sys, Event) -> bool)
    requires Next(s, e, s')
    ensures Exec(s, [e] + run) == Exec(s', run)
    ensures Along(s, [e] + run, allowed) <==> allowed(s, e) && Along(s', run, allowed)
  {
    NextIffApply(s, e, s');
    assert ([e] + run)[1..] == run;
  }

  lemma NextAllNowhere(s: Sys)
    ensures NextAll(s, [], s)
  {
  }

  lemma NextAllFrom(s: Sys, e: Event, s1: Sys, run: seq<Event>, s2: Sys)
    requires Next(s, e, s1) && NextAll(s1, run, s2)
    ensures NextAll(s, [e] + run, s2)
  {
    RunCons(s, e, s1, run, Anything);
    NextAllIffExec(s1, run, s2);
  }

  lemma LeadsNowhere(s: Sys, allowed: (Sys, Event) -> bool)
    ensures Leads(s, [], s, allowed)
  {
  }

  lemma LeadsFrom(s: Sys, e: Event, s1: Sys, run: seq<Event>, s2: Sys, allowed: (Sys, Event) -> bool)
    requires Next(s, e, s1) && allowed(s, e) && Leads(s1, run, s2, allowed)
    ensures Leads(s, [e] + run, s2, allowed)
  {
    LeadsFromIff(s, e, s1, run, s2, allowed);
  }

  lemma LeadsFromIff(s: Sys, e: Event, s1: Sys, run: seq<Event>, s2: Sys, allowed: (Sys, Event) -> bool)
    requires Next(s, e, s1)
    ensures Leads(s, [e] + run, s2, allowed) <==> allowed(s, e) && Leads(s1, run, s2, allowed)
  {
    RunCons(s, e, s1, run, allowed);
    LeadsIff(s1, run, s2, allowed);
    LeadsIff(s, [e] + run, s2, allowed);
  }

  lemma LeadsThere(s: Sys, run: seq<Event>, s': Sys, allowed: (Sys, Event) -> bool)
    requires Leads(s, run, s', allowed)
    ensures NextAll(s, run, s')
  {
    LeadsIff(s, run, s', allowed);
  }

  lemma {:induction false} LeadsOn(s: Sys, run: seq<Event>, s1: Sys, e: Event, s2: Sys, allowed: (Sys, Event) -> bool)
    requires Leads(s, run, s1, allowed) && Next(s1, e, s2) && allowed(s1, e)
    ensures Leads(s, run + [e], s2, allowed)
    decreases |run|
  {
    if run == [] {
      LeadsIff(s, run, s1, allowed);
      LeadsNowhere(s2, allowed);
      LeadsFrom(s1, e, s2, [], s2, allowed);
      assert run + [e] == [e] + [];
    } else {
      var k := LeadsFirst(s, run, s1, allowed);
      LeadsOn(k, run[1..], s1, e, s2, allowed);
      LeadsFrom(s, run[0], k, run[1..] + [e], s2, allowed);
      assert run + [e] == [run[0]] + (run[1..] + [e]);
    }
  }

  lemma LeadsFirst(s: Sys, run: seq<Event>, s2: Sys, allowed: (Sys, Event) -> bool) returns (s1: Sys)
    requires run != [] && Leads(s, run, s2, allowed)
    ensures Next(s, run[0], s1) && allowed(s, run[0]) && Leads(s1, run[1..], s2, allowed)
  {
    LeadsIff(s, run, s2, allowed);
    s1 := FirstStep(s, run);
    LeadsIff(s1, run[1..], s2, allowed);
  }

  lemma FirstStep(s: Sys, run: seq<Event>) returns (s': Sys)
    requires run != [] && Exec(s, run).Some?
    ensures Next(s, run[0], s') && Exec(s', run[1..]) == Exec(s, run)
    ensures Apply(s, run[0]) == Some(s')
  {
    s' := Apply(s, run[0]).value;
    NextIffApply(s, run[0], s');
  }

  ghost predicate Inductive(inv: Sys -> bool, allowed: (Sys, Event) -> bool) {
    forall s: Sys, e: Event, s': Sys :: inv(s) && allowed(s, e) && Next(s, e, s') ==> inv(s')
  }

  /** What every event keeps, every run keeps. */
  lemma {:induction false} RunKeeps(s: Sys, run: seq<Event>, inv: Sys -> bool, allowed: (Sys, Event) -> bool)
    requires Inductive(inv, allowed)
    requires inv(s) && Along(s, run, allowed) && Exec(s, run).Some?
    ensures inv(Exec(s, run).value)
    decreases |run|
  {
    if run != [] {
      var s' := FirstStep(s, run);
      RunKeeps(s', run[1..], inv, allowed);
    }
  }

  predicate Anything(s: Sys, e: Event) {
    true
  }

  lemma {:induction false} AlongAnything(s: Sys, run: seq<Event>)
    ensures Along(s, run, Anything)
    decreases |run|
  {
    if run != [] && Apply(s, run[0]).Some? {
      AlongAnything(Apply(s, run[0]).value, run[1..]);
    }
  }

  lemma {:induction false} LeadsWeaker(s: Sys, run: seq<Event>, s': Sys, strong: (Sys, Event) -> bool,
                                       weak: (Sys, Event) -> bool)
    requires Leads(s, run, s', strong) && forall s: Sys, e: Event :: strong(s, e) ==> weak(s, e)
    ensures Leads(s, run, s', weak)
    decreases |run|
  {
    if run == [] {
      LeadsIff(s, run, s', strong);
    } else {
      var s1 := LeadsFirst(s, run, s', strong);
      LeadsWeaker(s1, run[1..], s', strong, weak);
      LeadsFrom(s, run[0], s1, run[1..], s', weak);
      assert run == [run[0]] + run[1..];
    }
  }

  // ---- the initial state ----

  /** A transaction left over from before the run: a FAILED deposit that moved no money. */
  predicate LeftoverDeposit(db: Db, t: Uuid)
    requires t in db.txs
  {
    var tx := db.txs[t];
    && tx.kind == TypeDeposit && tx.status == Failed && tx.meta.DepositMeta?
    && tx.amount > 0 && Supported(tx.currency)
  }

  /** The liquidity account of a currency exists and is kept in that currency. */
  predicate Liquid(db: Db, c: Currency) {
    && SystemAccount(c).Ok?
    && SystemAccount(c).value in db.accounts
    && db.accounts[SystemAccount(c).value].currency == c
  }

  predicate Seeded(db: Db) {
    Liquid(db, USD) && Liquid(db, EUR) && Liquid(db, GBP)
  }

  /** Accounts with nothing locked, the seeded liquidity accounts, leftover FAILED deposits with
      distinct references and their audit trails, and nothing else. */
  ghost predicate Init(s: Sys) {
    && Seeded(s.db)
    && s.db.accounts.Keys == s.opening.Keys
    && (forall a | a in s.db.accounts ::
          && s.db.accounts[a].locked == 0 && s.db.accounts[a].balance == s.opening[a]
          && Supported(s.db.accounts[a].currency))
    && (forall t | t in s.db.txs :: LeftoverDeposit(s.db, t))
    && (forall t, u | t in s.db.txs && u in s.db.txs && t != u :: s.db.txs[t].reference != s.db.txs[u].reference)
    && (forall t | t in s.db.txs :: Chain(s.db.audit, t, Failed))
    && (forall r | r in s.db.audit :: r.tx in s.db.txs)
    && s.db.payouts == map[] && s.db.entries == []
    && s.deposits == map[] && s.claims == map[] && s.released == {} && s.sent == []
  }
}
