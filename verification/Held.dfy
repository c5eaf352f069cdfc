/** Funds held for open payouts: a sum over the payouts table. */
module Held {
  import opened Tables

  predicate Open(s: Status) {
    s == Pending || s == Processing || s == ManualReview
  }

  /** What payout p contributes to the funds locked on account a. A payout whose fallback already
      released its funds contributes nothing while its row is still being closed. */
  function Weight(p: Uuid, row: Payout, released: set<Uuid>, a: Uuid): int {
    if row.account == a && Open(row.status) && p !in released then row.amount else 0
  }

  ghost function HeldOn(ps: map<Uuid, Payout>, released: set<Uuid>, a: Uuid): int {
    if ps == map[] then 0
    else
      var p :| p in ps;
      Weight(p, ps[p], released, a) + HeldOn(ps - {p}, released, a)
  }

  lemma {:induction false} HeldSplit(ps: map<Uuid, Payout>, released: set<Uuid>, a: Uuid, q: Uuid)
    requires q in ps
    ensures HeldOn(ps, released, a) == Weight(q, ps[q], released, a) + HeldOn(ps - {q}, released, a)
    decreases |ps|
  {
    var p :| p in ps && HeldOn(ps, released, a) == Weight(p, ps[p], released, a) + HeldOn(ps - {p}, released, a);
    if p != q {
      HeldSplit(ps - {p}, released, a, q);
      HeldSplit(ps - {q}, released, a, p);
      assert ps - {p} - {q} == ps - {q} - {p};
    }
  }

  lemma {:induction false} HeldSame(ps: map<Uuid, Payout>, r1: set<Uuid>, r2: set<Uuid>, a: Uuid)
    requires forall p | p in ps && ps[p].account == a :: p in r1 <==> p in r2
    ensures HeldOn(ps, r1, a) == HeldOn(ps, r2, a)
    decreases |ps|
  {
    if ps != map[] {
      var p :| p in ps;
      HeldSplit(ps, r1, a, p);
      HeldSplit(ps, r2, a, p);
      HeldSame(ps - {p}, r1, r2, a);
    }
  }

  /** Changing one row, or whether its funds are released, changes the sum by its own contribution. */
  lemma HeldUpdate(ps: map<Uuid, Payout>, r1: set<Uuid>, r2: set<Uuid>, a: Uuid, q: Uuid, row: Payout)
    requires forall p | p in ps && p != q :: p in r1 <==> p in r2
    ensures HeldOn(ps[q := row], r2, a) ==
            HeldOn(ps, r1, a) - (if q in ps then Weight(q, ps[q], r1, a) else 0) + Weight(q, row, r2, a)
  {
    HeldSplit(ps[q := row], r2, a, q);
    assert ps[q := row] - {q} == ps - {q};
    HeldSame(ps - {q}, r1, r2, a);
    if q in ps {
      HeldSplit(ps, r1, a, q);
    } else {
      assert ps - {q} == ps;
    }
  }

  lemma {:induction false} HeldNonNegative(ps: map<Uuid, Payout>, released: set<Uuid>, a: Uuid)
    requires forall p | p in ps :: ps[p].amount > 0
    ensures HeldOn(ps, released, a) >= 0
    decreases |ps|
  {
    if ps != map[] {
      var p :| p in ps;
      HeldSplit(ps, released, a, p);
      HeldNonNegative(ps - {p}, released, a);
    }
  }

  /** Each open payout is covered by the sum. */
  lemma HeldCovers(ps: map<Uuid, Payout>, released: set<Uuid>, q: Uuid)
    requires q in ps && Open(ps[q].status) && q !in released
    requires forall p | p in ps :: ps[p].amount > 0
    ensures HeldOn(ps, released, ps[q].account) >= ps[q].amount
  {
    HeldSplit(ps, released, ps[q].account, q);
    HeldNonNegative(ps - {q}, released, ps[q].account);
  }
}
