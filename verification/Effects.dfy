/**
 At most one effect per reference, in every interleaving and with no assumption at all: each
 reference has one transaction row, and a transfer, exchange or deposit has written its entries
 exactly once when it is COMPLETED and not at all otherwise.
 */
module Effects {
  import opened Results
  import opened Tables
  import opened Ledger
  import opened Payouts
  import opened Runs
  import opened Entries
  import opened Deltas
  import opened Schema
  import opened Steps

  /** The legs a committed transfer, exchange or deposit must have; none for a FAILED deposit. */
  predicate EffectOk(db: Db, t: Uuid)
    requires t in db.txs
  {
    var tx := db.txs[t];
    var legs := Of(db.entries, t);
    match tx.kind
    case TypePayout => true
    case TypeTransfer =>
      && tx.status == Completed && |legs| == 2
      && legs == PairLegs(t, legs[0].account, legs[1].account, tx.amount)
      && SameCurrency(db.accounts, legs[0].account, legs[1].account)
      && legs[0].account != legs[1].account
      && db.accounts[legs[0].account].currency == tx.currency
    case TypeExchange =>
      && tx.status == Completed && tx.meta.ExchangeMeta? && |legs| == 4
      && SystemAccount(tx.meta.source).Ok? && SystemAccount(tx.meta.target).Ok?
      && legs == PairLegs(t, legs[0].account, SystemAccount(tx.meta.source).value, tx.amount)
                 + PairLegs(t, SystemAccount(tx.meta.target).value, legs[3].account, tx.meta.targetAmount)
      && legs[0].account in db.accounts && db.accounts[legs[0].account].currency == tx.meta.source == tx.currency
      && legs[3].account in db.accounts && db.accounts[legs[3].account].currency == tx.meta.target != tx.currency
    case TypeDeposit =>
      && tx.meta.DepositMeta? && SystemAccount(tx.currency).Ok?
      && if tx.status == Completed then legs == PairLegs(t, SystemAccount(tx.currency).value, tx.meta.account,
                                                         tx.amount)
         else tx.status == Failed && legs == []
  }

  ghost predicate EffectsInv(s: Sys) {
    Wellformed(s) && forall t | t in s.db.txs :: EffectOk(s.db, t)
  }

  /** A change to another transaction, or no entries at all, leaves an effect as it was. */
  lemma EffectFramed(d: Db, d': Db, x: Delta, t: Uuid)
    requires Changes(d, d', x) && SoundLegs(d, x) && SoundTx(d, x)
    requires t in d.txs && EffectOk(d, t) && (x.tx.None? || x.tx.value.0 != t)
    ensures EffectOk(d', t)
  {
    OfAppend(d.entries, x.legs, t);
    OfOwn(x.legs, t);
    assert Of(d'.entries, t) == Of(d.entries, t);
  }

  lemma NoEntriesYet(es: seq<Entry>, txs: map<Uuid, Tx>, t: Uuid)
    requires t !in txs && forall e | e in es :: e.tx in txs
    ensures Of(es, t) == []
  {
    OfOwn(es, t);
  }

  /** A fresh transaction, or a deposit row without entries, gets exactly the legs that are posted. */
  lemma OwnLegs(d: Db, d': Db, x: Delta)
    requires Changes(d, d', x) && SoundLegs(d, x) && x.legs != []
    requires Of(d.entries, x.tx.value.0) == []
    ensures Of(d'.entries, x.tx.value.0) == x.legs
  {
    var t := x.tx.value.0;
    OfAppend(d.entries, x.legs, t);
    OfOwn(x.legs, t);
  }

  lemma EffectsLedger(s: Sys, e: Event, s': Sys)
    requires EffectsInv(s) && IsLedger(e) && Next(s, e, s')
    ensures forall t | t in s'.db.txs :: EffectOk(s'.db, t)
  {
    match e
    case DoTransfer(tid, from, to, amount, reference) =>
      TransferIs(s, tid, from, to, amount, reference, s');
      TransferEffect(s.db, tid, from, to, amount, reference);
    case DoExchange(tid, cmd, target) => ExchangedEffect(s, tid, cmd, target, s');
    case CheckDeposit(request, dep, tid) => CheckIs(s, request, dep, tid, s');
    case CommitDeposit(request) =>
      CommitIs(s, request, s');
      DepositEffect(s.db, s.deposits[request]);
    case DoRequest(pid, tid, req) =>
      RequestIs(s, pid, tid, req, s');
      RequestEffect(s.db, pid, tid, req);
  }

  lemma ExchangedEffect(s: Sys, tid: Uuid, cmd: ExchangeCmd, target: int, s': Sys)
    requires EffectsInv(s) && Next(s, DoExchange(tid, cmd, target), s')
    ensures forall t | t in s'.db.txs :: EffectOk(s'.db, t)
  {
    ExchangeIs(s, tid, cmd, target, s');
    FreshTid(s, tid, cmd, target);
    ExchangeEffect(s.db, tid, cmd, target);
  }

  lemma RequestEffect(d: Db, pid: Uuid, tid: Uuid, req: PayoutRequest)
    requires RequestPayout(d, pid, tid, req).Ok? && forall t | t in d.txs :: EffectOk(d, t)
    ensures var d' := RequestPayout(d, pid, tid, req).value;
            forall t | t in d'.txs :: EffectOk(d', t)
  {
    RequestChanges(d, pid, tid, req);
    var d' := RequestPayout(d, pid, tid, req).value;
    forall t | t in d'.txs ensures EffectOk(d', t) {
      if t != tid {
        EffectFramed(d, d', RequestDelta(pid, tid, req), t);
      }
    }
  }

  lemma FreshTid(s: Sys, tid: Uuid, cmd: ExchangeCmd, target: int)
    requires Wellformed(s) && Exchange(s.db, tid, cmd, target).Ok?
    ensures Of(s.db.entries, tid) == []
  {
    var (liqSource, liqTarget) := CheckExchange(s.db, cmd).value;
    PostExchangeChanges(s.db, tid, cmd, target, liqSource, liqTarget);
    NoEntriesYet(s.db.entries, s.db.txs, tid);
  }

  /** One transaction gets its legs, the others keep theirs. */
  lemma Booked(d: Db, d': Db, x: Delta)
    requires Changes(d, d', x) && Sound(d, x) && x.legs != []
    requires Of(d.entries, x.tx.value.0) == []
    requires forall t | t in d.txs :: EffectOk(d, t)
    ensures Of(d'.entries, x.tx.value.0) == x.legs
    ensures forall t | t in d'.txs && t != x.tx.value.0 :: EffectOk(d', t)
  {
    OwnLegs(d, d', x);
    forall t | t in d'.txs && t != x.tx.value.0 ensures EffectOk(d', t) {
      EffectFramed(d, d', x, t);
    }
  }

  lemma TransferEffect(d: Db, tid: Uuid, from: Uuid, to: Uuid, amount: int, reference: string)
    requires Transfer(d, tid, from, to, amount, reference).Ok?
    requires (forall e | e in d.entries :: e.tx in d.txs) && forall t | t in d.txs :: EffectOk(d, t)
    ensures var d' := Transfer(d, tid, from, to, amount, reference).value;
            forall t | t in d'.txs :: EffectOk(d', t)
  {
    TransferSound(d, tid, from, to, amount, reference);
    TransferChanges(d, tid, from, to, amount, reference);
    NoEntriesYet(d.entries, d.txs, tid);
    Booked(d, Transfer(d, tid, from, to, amount, reference).value, TransferDelta(d, tid, from, to, amount, reference));
  }

  lemma ExchangeEffect(d: Db, tid: Uuid, cmd: ExchangeCmd, target: int)
    requires Seeded(d) && Exchange(d, tid, cmd, target).Ok? && Of(d.entries, tid) == []
    requires forall t | t in d.txs :: EffectOk(d, t)
    ensures var d' := Exchange(d, tid, cmd, target).value;
            forall t | t in d'.txs :: EffectOk(d', t)
  {
    ExchangeSound(d, tid, cmd, target);
    CheckedPair(d, cmd);
    var (liqSource, liqTarget) := CheckExchange(d, cmd).value;
    ExchangePosted(d, Exchange(d, tid, cmd, target).value, tid, cmd, target, liqSource, liqTarget);
  }

  lemma CheckedPair(d: Db, cmd: ExchangeCmd)
    requires CheckExchange(d, cmd).Ok?
    ensures var (liqSource, liqTarget) := CheckExchange(d, cmd).value;
            SystemAccount(cmd.source) == Ok(liqSource) && SystemAccount(cmd.target) == Ok(liqTarget)
    ensures cmd.source != cmd.target
    ensures cmd.from in d.accounts && d.accounts[cmd.from].currency == cmd.source
    ensures cmd.to in d.accounts && d.accounts[cmd.to].currency == cmd.target
  {
  }

  lemma ExchangePosted(d: Db, d': Db, tid: Uuid, cmd: ExchangeCmd, target: int, liqSource: Uuid, liqTarget: Uuid)
    requires Of(d.entries, tid) == [] && forall t | t in d.txs :: EffectOk(d, t)
    requires var x := ExchangeDelta(tid, cmd, target, liqSource, liqTarget);
             Changes(d, d', x) && Sound(d, x)
    requires SystemAccount(cmd.source) == Ok(liqSource) && SystemAccount(cmd.target) == Ok(liqTarget)
    requires cmd.source != cmd.target
    requires cmd.from in d.accounts && d.accounts[cmd.from].currency == cmd.source
    requires cmd.to in d.accounts && d.accounts[cmd.to].currency == cmd.target
    ensures forall t | t in d'.txs :: EffectOk(d', t)
  {
    Booked(d, d', ExchangeDelta(tid, cmd, target, liqSource, liqTarget));
    ExchangeRow(d', tid, cmd, target);
  }

  lemma ExchangeRow(d: Db, t: Uuid, cmd: ExchangeCmd, target: int)
    requires SystemAccount(cmd.source).Ok? && SystemAccount(cmd.target).Ok? && cmd.source != cmd.target
    requires t in d.txs
    requires d.txs[t] ==
             Tx(cmd.amount, cmd.source, TypeExchange, Completed, cmd.reference,
                ExchangeMeta(cmd.source, cmd.target, target))
    requires Of(d.entries, t) ==
             ExchangeLegs(t, cmd, target, SystemAccount(cmd.source).value, SystemAccount(cmd.target).value)
    requires cmd.from in d.accounts && d.accounts[cmd.from].currency == cmd.source
    requires cmd.to in d.accounts && d.accounts[cmd.to].currency == cmd.target
    ensures EffectOk(d, t)
  {
    var legs := Of(d.entries, t);
    assert legs[0].account == cmd.from && legs[3].account == cmd.to;
  }

  lemma DepositEffect(d: Db, task: DepositTask)
    requires Seeded(d) && TaskOk(d, task) && DepositFunds(d, task.tid, task.retry, task.dep).Ok?
    requires forall e | e in d.entries :: e.tx in d.txs
    requires forall t | t in d.txs :: EffectOk(d, t)
    ensures var d' := DepositFunds(d, task.tid, task.retry, task.dep).value;
            forall t | t in d'.txs :: EffectOk(d', t)
  {
    DepositSound(d, task);
    DepositFresh(d, task);
    DepositPosted(d, DepositFunds(d, task.tid, task.retry, task.dep).value, task);
  }

  lemma DepositFresh(d: Db, task: DepositTask)
    requires TaskOk(d, task) && DepositFunds(d, task.tid, task.retry, task.dep).Ok?
    requires (forall e | e in d.entries :: e.tx in d.txs) && forall t | t in d.txs :: EffectOk(d, t)
    ensures Of(d.entries, task.tid) == [] && (task.retry ==> task.tid in d.txs)
  {
    DepositChanges(d, task.tid, task.retry, task.dep);
    if task.retry {
      RetriedFailed(d, task);
      FailedBare(d, task.tid);
    } else {
      NoEntriesYet(d.entries, d.txs, task.tid);
    }
  }

  lemma RetriedFailed(d: Db, task: DepositTask)
    requires TaskOk(d, task) && DepositFunds(d, task.tid, task.retry, task.dep).Ok? && task.retry
    ensures task.tid in d.txs && d.txs[task.tid].kind == TypeDeposit && d.txs[task.tid].status != Completed
  {
    DepositChanges(d, task.tid, task.retry, task.dep);
  }

  lemma FailedBare(d: Db, t: Uuid)
    requires t in d.txs && EffectOk(d, t) && d.txs[t].kind == TypeDeposit && d.txs[t].status != Completed
    ensures Of(d.entries, t) == []
  {
  }

  lemma DepositPosted(d: Db, d': Db, task: DepositTask)
    requires TaskOk(d, task) && Of(d.entries, task.tid) == [] && (forall t | t in d.txs :: EffectOk(d, t))
    requires SystemAccount(task.dep.currency).Ok? && (task.retry ==> task.tid in d.txs)
    requires var x := DepositDelta(d, task.tid, task.retry, task.dep, SystemAccount(task.dep.currency).value);
             Changes(d, d', x) && Sound(d, x)
    ensures forall t | t in d'.txs :: EffectOk(d', t)
  {
    var x := DepositDelta(d, task.tid, task.retry, task.dep, SystemAccount(task.dep.currency).value);
    Booked(d, d', x);
    DepositRow(d', task.tid, x.tx.value.1);
  }

  lemma DepositRow(d: Db, t: Uuid, tx: Tx)
    requires t in d.txs && d.txs[t] == tx && tx.kind == TypeDeposit && tx.status == Completed && tx.meta.DepositMeta?
    requires SystemAccount(tx.currency).Ok?
    requires Of(d.entries, t) == PairLegs(t, SystemAccount(tx.currency).value, tx.meta.account, tx.amount)
    ensures EffectOk(d, t)
  {
  }

  lemma EffectsQuiet(d: Db, d': Db, x: Delta)
    requires Changes(d, d', x) && Sound(d, x) && OnPayout(d, x) && forall t | t in d.txs :: EffectOk(d, t)
    ensures forall t | t in d'.txs :: EffectOk(d', t)
  {
    forall t | t in d'.txs ensures EffectOk(d', t) {
      if d.txs[t].kind != TypePayout {
        EffectFramed(d, d', x, t);
      }
    }
  }

  lemma EffectsStep(s: Sys, e: Event, s': Sys)
    requires EffectsInv(s) && Next(s, e, s')
    ensures EffectsInv(s')
  {
    WellformedStep(s, e, s');
    if IsLedger(e) {
      EffectsLedger(s, e, s');
    } else if !e.OpenAccount? {
      var x := Tell(s, e, s');
      EffectsQuiet(s.db, s'.db, x);
    } else {
      OpenIs(s, e.id, e.currency, e.balance, s');
      EffectsOpen(s.db, s'.db, e.id);
    }
  }

  lemma EffectsOpen(d: Db, d': Db, id: Uuid)
    requires id !in d.accounts && id in d'.accounts && d' == SetAccount(d, id, d'.accounts[id])
    requires forall t | t in d.txs :: EffectOk(d, t)
    ensures forall t | t in d'.txs :: EffectOk(d', t)
  {
    forall t | t in d'.txs ensures EffectOk(d', t) {
      assert EffectOk(d, t);
    }
  }

  /** In every run, each reference has at most one row, and that row's effect happened exactly once
      (COMPLETED) or not at all (FAILED deposit). */
  lemma OneEffectPerReference(s: Sys, run: seq<Event>)
    requires Init(s) && Exec(s, run).Some?
    ensures EffectsInv(Exec(s, run).value)
    ensures UniqueReferences(Exec(s, run).value.db.txs)
  {
    InitWellformed(s);
    assert EffectsInv(s);
    forall s: Sys, e: Event, s': Sys | EffectsInv(s) && Anything(s, e) && Next(s, e, s') ensures EffectsInv(s') {
      EffectsStep(s, e, s');
    }
    AlongAnything(s, run);
    RunKeeps(s, run, EffectsInv, Anything);
  }

  /** Of two webhooks that both decided to retry one FAILED deposit, the second to commit is refused. */
  lemma SecondRetryAborts(s: Sys, first: nat, second: nat)
    requires EffectsInv(s) && first in s.deposits && second in s.deposits && first != second
    requires s.deposits[first].retry && s.deposits[second].retry && s.deposits[first].tid == s.deposits[second].tid
    requires Apply(s, CommitDeposit(first)).Some?
    ensures Apply(Apply(s, CommitDeposit(first)).value, CommitDeposit(second)).None?
  {
    var s' := Apply(s, CommitDeposit(first)).value;
    RetriedOnce(s, first, s');
    RetryRefused(s'.db, s.deposits[second].tid, s.deposits[second].dep);
  }

  lemma RetriedOnce(s: Sys, request: nat, s': Sys)
    requires Wellformed(s) && Next(s, CommitDeposit(request), s') && request in s.deposits
    ensures s.deposits[request].tid in s'.db.txs && s'.db.txs[s.deposits[request].tid].status == Completed
  {
    CommitIs(s, request, s');
    DepositSound(s.db, s.deposits[request]);
  }

  lemma RetryRefused(db: Db, tid: Uuid, dep: Deposit)
    requires tid in db.txs && db.txs[tid].status == Completed
    ensures DepositFunds(db, tid, true, dep).Err?
  {
    assert OpenDeposit(db, tid, true, dep).Err?;
  }
}
