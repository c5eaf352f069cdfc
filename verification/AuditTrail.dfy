/**
 The audit log replays every transaction from its creation to its current status, link by link.
 Three late writes can break that; the exact condition under which each keeps the trail is proved.
 */
module AuditTrail {
  import opened Results
  import opened Tables
  import opened TransactionState
  import opened Runs
  import opened Deltas
  import opened Schema
  import opened Steps

  ghost predicate TrailsComplete(db: Db) {
    forall t | t in db.txs :: Chain(db.audit, t, db.txs[t].status)
  }

  ghost predicate AuditInv(s: Sys) {
    Wellformed(s) && TrailsComplete(s.db)
  }

  lemma {:induction false} FollowsMentions(rows: seq<Audit>, t: Uuid, from: Option<Status>, to: Status)
    requires Follows(rows, t, from, to)
    ensures forall r | r in rows :: r.tx == t
  {
    if rows != [] {
      FollowsMentions(rows[1..], t, Some(rows[0].next), to);
    }
  }

  lemma {:induction false} ChainFollows(log: seq<Audit>, rows: seq<Audit>, t: Uuid, from: Option<Status>, to: Status)
    requires Follows(rows, t, from, to)
    requires if from.None? then !Mentions(log, t) else Chain(log, t, from.value)
    ensures Chain(log + rows, t, to)
    decreases |rows|
  {
    if rows == [] {
      assert log + rows == log;
    } else {
      var head := rows[0];
      assert (log + [head])[..|log|] == log;
      if from.Some? {
        ChainExtend(log, head, t, from.value);
      }
      ChainFollows(log + [head], rows[1..], t, Some(head.next), to);
      assert log + [head] + rows[1..] == log + rows;
    }
  }

  lemma {:induction false} ChainOther(log: seq<Audit>, rows: seq<Audit>, t: Uuid, status: Status)
    requires Chain(log, t, status) && forall r | r in rows :: r.tx != t
    ensures Chain(log + rows, t, status)
    decreases |rows|
  {
    if rows == [] {
      assert log + rows == log;
    } else {
      ChainExtend(log, rows[0], t, status);
      ChainOther(log + [rows[0]], rows[1..], t, status);
      assert log + [rows[0]] + rows[1..] == log + rows;
    }
  }

  lemma TrailedKeeps(d: Db, d': Db, x: Delta)
    requires WellformedDb(d) && TrailsComplete(d) && Changes(d, d', x) && Trailed(d, x)
    ensures TrailsComplete(d')
  {
    forall t | t in d'.txs ensures Chain(d'.audit, t, d'.txs[t].status) {
      if x.tx.None? {
        assert d'.audit == d.audit;
      } else {
        var (u, tx) := x.tx.value;
        FollowsMentions(x.rows, u, StatusOf(d, u), tx.status);
        if t == u {
          ChainFollows(d.audit, x.rows, u, StatusOf(d, u), tx.status);
        } else {
          ChainOther(d.audit, x.rows, t, d.txs[t].status);
        }
      }
    }
  }

  /** The writes that bypass the audited transition, each with the state in which it does no harm:
      the review note must still find the transaction PROCESSING, the fallback's bare status write
      must find it FAILED already, and the fallback's own row never fits. */
  predicate KeepsTrail(s: Sys, e: Event) {
    match e
    case AuditReview(h) =>
      h in s.claims && s.claims[h].row.tx in s.db.txs && s.db.txs[s.claims[h].row.tx].status == Processing
    case Fallback(h, true) =>
      h in s.claims && s.claims[h].row.tx in s.db.txs &&
      (match s.claims[h].phase
       case FallbackTx => s.db.txs[s.claims[h].row.tx].status == Failed
       case FallbackAudit => false
       case _ => true)
    case _ => true
  }

  lemma ReviewNoteIff(d: Db, t: Uuid)
    requires TrailsComplete(d) && t in d.txs
    ensures TrailsComplete(WriteAudit(d, Audit(t, PayoutReview, Some(Processing), Processing))) <==>
              d.txs[t].status == Processing
  {
    var row := Audit(t, PayoutReview, Some(Processing), Processing);
    var d' := WriteAudit(d, row);
    assert d'.audit[..|d'.audit| - 1] == d.audit;
    forall u | u in d.txs && d.txs[t].status == Processing ensures Chain(d'.audit, u, d'.txs[u].status) {
      ChainExtend(d.audit, row, u, d.txs[u].status);
    }
    if TrailsComplete(d') {
      assert Chain(d'.audit, t, d'.txs[t].status);
    }
  }

  lemma BareStatusIff(d: Db, t: Uuid)
    requires TrailsComplete(d) && t in d.txs
    ensures TrailsComplete(d.(txs := d.txs[t := d.txs[t].(status := Failed)])) <==> d.txs[t].status == Failed
  {
    var d' := d.(txs := d.txs[t := d.txs[t].(status := Failed)]);
    if d.txs[t].status == Failed {
      assert d'.txs == d.txs;
    } else if TrailsComplete(d') {
      assert Chain(d'.audit, t, d'.txs[t].status);
      ChainUnique(d.audit, t, d.txs[t].status, Failed);
    }
  }

  lemma FallbackRowBreaks(d: Db, t: Uuid)
    requires t in d.txs
    ensures !TrailsComplete(WriteAudit(d, Audit(t, PayoutFailedFallback, None, Failed)))
  {
    var d' := WriteAudit(d, Audit(t, PayoutFailedFallback, None, Failed));
    assert d'.audit[|d'.audit| - 1] == Audit(t, PayoutFailedFallback, None, Failed);
    assert t in d'.txs && !Chain(d'.audit, t, d'.txs[t].status);
  }

  /** What one write of the fallback does to transactions and audit rows. */
  predicate FallbackLogged(s: Sys, h: Holder, succeeds: bool, d: Db) {
    && h in s.claims && s.claims[h].row.tx in s.db.txs
    && var t := s.claims[h].row.tx;
       if succeeds && s.claims[h].phase == FallbackTx then
         d == s.db.(txs := s.db.txs[t := s.db.txs[t].(status := Failed)])
       else if succeeds && s.claims[h].phase == FallbackAudit then
         d == WriteAudit(s.db, Audit(t, PayoutFailedFallback, None, Failed))
       else d.txs == s.db.txs && d.audit == s.db.audit
  }

  lemma FallbackLog(s: Sys, h: Holder, succeeds: bool, s': Sys)
    requires h in s.claims && s.claims[h].row.tx in s.db.txs && FallbackStep(s, h, succeeds) == Some(s')
    ensures FallbackLogged(s, h, succeeds, s'.db)
  {
  }

  lemma FallbackLogs(s: Sys, h: Holder, succeeds: bool, s': Sys)
    requires Wellformed(s) && Next(s, Fallback(h, succeeds), s')
    ensures FallbackLogged(s, h, succeeds, s'.db)
  {
    FallbackIs(s, h, succeeds, s');
    ClaimTx(s, h);
    FallbackLog(s, h, succeeds, s');
  }

  lemma FallbackTrail(s: Sys, h: Holder, succeeds: bool, s': Sys)
    requires AuditInv(s) && Next(s, Fallback(h, succeeds), s')
    ensures TrailsComplete(s'.db) <==> KeepsTrail(s, Fallback(h, succeeds))
  {
    FallbackLogs(s, h, succeeds, s');
    LoggedTrail(s, h, succeeds, s'.db);
  }

  lemma LoggedTrail(s: Sys, h: Holder, succeeds: bool, d: Db)
    requires TrailsComplete(s.db) && FallbackLogged(s, h, succeeds, d)
    ensures TrailsComplete(d) <==> KeepsTrail(s, Fallback(h, succeeds))
  {
    var t := s.claims[h].row.tx;
    if succeeds && s.claims[h].phase == FallbackTx {
      BareStatusIff(s.db, t);
    } else if succeeds && s.claims[h].phase == FallbackAudit {
      FallbackRowBreaks(s.db, t);
    } else {
      SameLogSameTrails(s.db, d);
    }
  }

  lemma SameLogSameTrails(d: Db, d': Db)
    requires TrailsComplete(d) && d'.txs == d.txs && d'.audit == d.audit
    ensures TrailsComplete(d')
  {
  }

  /** A step keeps every trail complete if and only if it satisfies KeepsTrail. */
  lemma TrailStepIff(s: Sys, e: Event, s': Sys)
    requires AuditInv(s) && Next(s, e, s')
    ensures AuditInv(s') <==> KeepsTrail(s, e)
  {
    WellformedStep(s, e, s');
    if e.AuditReview? {
      NoteTrail(s, e.h, s');
    } else if e.Fallback? {
      FallbackTrail(s, e.h, e.succeeds, s');
    } else {
      AuditedTrail(s, e, s');
    }
  }

  lemma NoteTrail(s: Sys, h: Holder, s': Sys)
    requires AuditInv(s) && Next(s, AuditReview(h), s')
    ensures TrailsComplete(s'.db) <==> KeepsTrail(s, AuditReview(h))
  {
    NoteIs(s, h, s');
    ClaimTx(s, h);
    ReviewNoteIff(s.db, s.claims[h].row.tx);
  }

  /** Every other event writes its status changes through the audited transition. */
  lemma AuditedTrail(s: Sys, e: Event, s': Sys)
    requires AuditInv(s) && Next(s, e, s') && !e.AuditReview? && !e.Fallback?
    ensures TrailsComplete(s'.db)
  {
    if e.OpenAccount? {
      OpenIs(s, e.id, e.currency, e.balance, s');
      SameLogSameTrails(s.db, s'.db);
    } else {
      var x := Tell(s, e, s');
      TrailedKeeps(s.db, s'.db, x);
    }
  }

  lemma ClaimTx(s: Sys, h: Holder)
    requires Wellformed(s) && h in s.claims
    ensures s.claims[h].row.tx in s.db.txs
  {
    assert RowOk(s.db, s.db.payouts[h.payout]);
  }

  /** In every run whose late writes satisfy KeepsTrail, each transaction's rows form an unbroken
      chain from its creation to its current status. */
  lemma TrailsHold(s: Sys, run: seq<Event>)
    requires Init(s) && Exec(s, run).Some? && Along(s, run, KeepsTrail)
    ensures TrailsComplete(Exec(s, run).value.db)
  {
    InitWellformed(s);
    assert AuditInv(s);
    forall s: Sys, e: Event, s': Sys | AuditInv(s) && KeepsTrail(s, e) && Next(s, e, s') ensures AuditInv(s') {
      TrailStepIff(s, e, s');
    }
    RunKeeps(s, run, AuditInv, KeepsTrail);
  }
}
