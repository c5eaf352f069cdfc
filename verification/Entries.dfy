/** Weighted sums over ledger entries, and the legs the services post. */
module Entries {
  import opened Tables
  import opened Ledger

  function Signed(e: Entry): int {
    if e.direction == Credit then e.amount else -e.amount
  }

  function Total(es: seq<Entry>, w: Entry -> int): int {
    if es == [] then 0 else Total(es[..|es| - 1], w) + w(es[|es| - 1])
  }

  function ByAccount(a: Uuid): Entry -> int {
    (e: Entry) => if e.account == a then Signed(e) else 0
  }

  /** The entry is booked on an account kept in currency c. */
  predicate Books(accounts: map<Uuid, Account>, e: Entry, c: Currency) {
    e.account in accounts && accounts[e.account].currency == c
  }

  function ByCurrency(accounts: map<Uuid, Account>, c: Currency): Entry -> int {
    (e: Entry) => if Books(accounts, e, c) then Signed(e) else 0
  }

  function ByTxCurrency(accounts: map<Uuid, Account>, t: Uuid, c: Currency): Entry -> int {
    (e: Entry) => if e.tx == t && Books(accounts, e, c) then Signed(e) else 0
  }

  lemma {:induction false} TotalAppend(es: seq<Entry>, fs: seq<Entry>, w: Entry -> int)
    ensures Total(es + fs, w) == Total(es, w) + Total(fs, w)
  {
    if fs == [] {
      assert es + fs == es;
    } else {
      var n := |es + fs| - 1;
      assert (es + fs)[..n] == es + fs[..|fs| - 1];
      TotalAppend(es, fs[..|fs| - 1], w);
    }
  }

  lemma {:induction false} TotalSame(es: seq<Entry>, v: Entry -> int, w: Entry -> int)
    requires forall e | e in es :: v(e) == w(e)
    ensures Total(es, v) == Total(es, w)
  {
    if es != [] {
      TotalSame(es[..|es| - 1], v, w);
    }
  }

  lemma {:induction false} TotalZero(es: seq<Entry>, w: Entry -> int)
    requires forall e | e in es :: w(e) == 0
    ensures Total(es, w) == 0
  {
    if es != [] {
      TotalZero(es[..|es| - 1], w);
    }
  }

  /** The entries of one transaction, in order. */
  function Of(es: seq<Entry>, t: Uuid): (r: seq<Entry>) {
    if es == [] then []
    else
      var last := es[|es| - 1];
      Of(es[..|es| - 1], t) + (if last.tx == t then [last] else [])
  }

  lemma {:induction false} OfAppend(es: seq<Entry>, fs: seq<Entry>, t: Uuid)
    ensures Of(es + fs, t) == Of(es, t) + Of(fs, t)
  {
    if fs == [] {
      assert es + fs == es;
    } else {
      assert (es + fs)[..|es + fs| - 1] == es + fs[..|fs| - 1];
      OfAppend(es, fs[..|fs| - 1], t);
    }
  }

  lemma {:induction false} OfOwn(es: seq<Entry>, t: Uuid)
    ensures (forall e | e in es :: e.tx == t) ==> Of(es, t) == es
    ensures (forall e | e in es :: e.tx != t) ==> Of(es, t) == []
  {
    if es != [] {
      OfOwn(es[..|es| - 1], t);
      assert es == es[..|es| - 1] + [es[|es| - 1]];
    }
  }

  // ---- legs ----

  function PairLegs(t: Uuid, debited: Uuid, credited: Uuid, amount: int): seq<Entry> {
    [Entry(t, debited, amount, Debit), Entry(t, credited, amount, Credit)]
  }

  function ExchangeLegs(t: Uuid, cmd: ExchangeCmd, target: int, liqSource: Uuid, liqTarget: Uuid): seq<Entry> {
    PairLegs(t, cmd.from, liqSource, cmd.amount) + PairLegs(t, liqTarget, cmd.to, target)
  }

  lemma PairTotal(t: Uuid, debited: Uuid, credited: Uuid, amount: int, w: Entry -> int)
    ensures var legs := PairLegs(t, debited, credited, amount);
            Total(legs, w) == w(legs[0]) + w(legs[1])
  {
    var legs := PairLegs(t, debited, credited, amount);
    var first := legs[..1];
    assert Total(first, w) == Total(first[..0], w) + w(first[0]);
    assert Total(legs, w) == Total(legs[..1], w) + w(legs[1]);
  }

  lemma PairNet(t: Uuid, debited: Uuid, credited: Uuid, amount: int)
    ensures forall a :: Total(PairLegs(t, debited, credited, amount), ByAccount(a)) ==
                        (if a == credited then amount else 0) - (if a == debited then amount else 0)
  {
    forall a {
      PairTotal(t, debited, credited, amount, ByAccount(a));
    }
  }

  lemma ExchangeNet(t: Uuid, cmd: ExchangeCmd, target: int, liqSource: Uuid, liqTarget: Uuid)
    ensures forall a :: Total(ExchangeLegs(t, cmd, target, liqSource, liqTarget), ByAccount(a)) ==
                        (if a == liqSource then cmd.amount else 0) - (if a == cmd.from then cmd.amount else 0)
                        + (if a == cmd.to then target else 0) - (if a == liqTarget then target else 0)
  {
    PairNet(t, cmd.from, liqSource, cmd.amount);
    PairNet(t, liqTarget, cmd.to, target);
    forall a {
      TotalAppend(PairLegs(t, cmd.from, liqSource, cmd.amount), PairLegs(t, liqTarget, cmd.to, target), ByAccount(a));
    }
  }

  /** Legs of one transaction, on known accounts, that cancel within each currency. */
  ghost predicate Balanced(accounts: map<Uuid, Account>, legs: seq<Entry>) {
    && (forall e | e in legs :: e.tx == legs[0].tx && e.account in accounts)
    && (forall c :: Total(legs, ByCurrency(accounts, c)) == 0)
  }

  predicate SameCurrency(accounts: map<Uuid, Account>, a: Uuid, b: Uuid) {
    a in accounts && b in accounts && accounts[a].currency == accounts[b].currency
  }

  lemma PairBalanced(accounts: map<Uuid, Account>, t: Uuid, debited: Uuid, credited: Uuid, amount: int)
    requires SameCurrency(accounts, debited, credited)
    ensures Balanced(accounts, PairLegs(t, debited, credited, amount))
  {
    forall c {
      PairTotal(t, debited, credited, amount, ByCurrency(accounts, c));
    }
  }

  lemma ExchangeBalanced(accounts: map<Uuid, Account>, t: Uuid, cmd: ExchangeCmd, target: int, liqSource: Uuid,
                         liqTarget: Uuid)
    requires SameCurrency(accounts, cmd.from, liqSource) && SameCurrency(accounts, liqTarget, cmd.to)
    ensures Balanced(accounts, ExchangeLegs(t, cmd, target, liqSource, liqTarget))
  {
    var out, back := PairLegs(t, cmd.from, liqSource, cmd.amount), PairLegs(t, liqTarget, cmd.to, target);
    PairBalanced(accounts, t, cmd.from, liqSource, cmd.amount);
    PairBalanced(accounts, t, liqTarget, cmd.to, target);
    forall c ensures Total(out + back, ByCurrency(accounts, c)) == 0 {
      TotalAppend(out, back, ByCurrency(accounts, c));
    }
  }
}
