/** The transaction state machine and its audited transition. */
module TransactionState {
  import opened Results
  import opened Tables

  function Successors(s: Status): set<Status> {
    match s
    case Pending => {Processing, Failed}
    case Processing => {Pending, Completed, Failed, Reversed}
    case Completed => {Reversed}
    case Failed => {Processing, Reversed}
    case Reversed => {}
    case ManualReview => {}
  }

  predicate CanTransition(current: Status, next: Status) {
    next in Successors(current)
  }

  /** Moves a transaction to `next` and records the move. A transaction already there is left
      alone and no row is written. */
  function Transition(db: Db, id: Uuid, next: Status, action: Action): Result<Db> {
    if id !in db.txs then Err(NotFound)
    else
      var current := db.txs[id].status;
      if current == next then Ok(db)
      else if !CanTransition(current, next) then Err(InvalidTransition)
      else
        var d :- UpdateTransactionStatus(db, id, next);
        Ok(WriteAudit(d, Audit(id, action, Some(current), next)))
  }

  /** A link of an audit trail: an allowed transition, or the PROCESSING note of a manual review. */
  predicate Link(row: Audit) {
    row.prev.Some? &&
    (|| CanTransition(row.prev.value, row.next)
     || (row.action == PayoutReview && row.prev.value == row.next == Processing))
  }

  predicate Mentions(log: seq<Audit>, t: Uuid) {
    exists r | r in log :: r.tx == t
  }

  /** The rows of the log about transaction t replay from its creation to `status` without a gap. */
  predicate Chain(log: seq<Audit>, t: Uuid, status: Status) {
    if log == [] then false
    else
      var rest, last := log[..|log| - 1], log[|log| - 1];
      if last.tx != t then Chain(rest, t, status)
      else if last.prev.None? then last == Audit(t, Created, None, Pending) && status == Pending && !Mentions(rest, t)
      else last.next == status && Link(last) && Chain(rest, t, last.prev.value)
  }

  lemma ChainExtend(log: seq<Audit>, row: Audit, t: Uuid, status: Status)
    requires Chain(log, t, status)
    ensures row.tx != t ==> Chain(log + [row], t, status)
    ensures row.tx == t && Link(row) && row.prev.value == status ==> Chain(log + [row], t, row.next)
    ensures row.tx == t && !(Link(row) && row.prev.value == status) ==> !Chain(log + [row], t, row.next)
  {
    assert (log + [row])[..|log|] == log;
    if row.tx == t && row.prev.None? {
      ChainMentions(log, t, status);
    } else if row.tx == t && row.prev.Some? {
      ChainUnique(log, t, status, row.prev.value);
    }
  }

  lemma {:induction false} ChainMentions(log: seq<Audit>, t: Uuid, status: Status)
    requires Chain(log, t, status)
    ensures Mentions(log, t)
  {
    if log[|log| - 1].tx == t {
      assert log[|log| - 1] in log;
    } else {
      ChainMentions(log[..|log| - 1], t, status);
      var r :| r in log[..|log| - 1] && r.tx == t;
      assert r in log;
    }
  }

  /** A trail ends in one status only. */
  lemma {:induction false} ChainUnique(log: seq<Audit>, t: Uuid, s1: Status, s2: Status)
    requires Chain(log, t, s1)
    ensures Chain(log, t, s2) ==> s1 == s2
  {
    if log[|log| - 1].tx != t {
      ChainUnique(log[..|log| - 1], t, s1, s2);
    }
  }
}
