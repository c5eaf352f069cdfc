/**
 Ledger reconciliation: the signed sum of all entries, and when it is off, the currencies that are.
 No reachable database raises an alarm; on arbitrary entries the alarm fires exactly when the sum is
 off, and then names at least one currency.
 */
module Reconciliation {
  import opened Results
  import opened Tables
  import opened Store
  import opened Entries
  import opened Runs
  import opened Books

  function LedgerNet(db: Db): int {
    Total(db.entries, Signed)
  }

  function CurrencyNet(db: Db, c: Currency): int {
    Total(db.entries, ByCurrency(db.accounts, c))
  }

  /** The groups of the per-currency query: currencies of accounts that carry entries. */
  function Groups(db: Db): set<Currency> {
    set e | e in db.entries && e.account in db.accounts :: db.accounts[e.account].currency
  }

  datatype Imbalance = Imbalance(currency: Currency, net: int)

  function Imbalances(db: Db): set<Imbalance> {
    set c | c in Groups(db) && CurrencyNet(db, c) != 0 :: Imbalance(c, CurrencyNet(db, c))
  }

  lemma Listed(db: Db, c: Currency)
    ensures Imbalance(c, CurrencyNet(db, c)) in Imbalances(db) <==> c in Groups(db) && CurrencyNet(db, c) != 0
  {
  }

  // ---- the currency nets sum to the ledger net ----

  ghost function NetOver(accounts: map<Uuid, Account>, es: seq<Entry>, cs: set<Currency>): int {
    if cs == {} then 0
    else
      var c :| c in cs;
      Total(es, ByCurrency(accounts, c)) + NetOver(accounts, es, cs - {c})
  }

  /** One more entry shows up in the group of its account's currency and in no other. */
  lemma {:induction false} NetOverEntry(accounts: map<Uuid, Account>, es: seq<Entry>, e: Entry, cs: set<Currency>)
    ensures NetOver(accounts, es + [e], cs) ==
            NetOver(accounts, es, cs) +
            (if e.account in accounts && accounts[e.account].currency in cs then Signed(e) else 0)
    decreases cs
  {
    if cs != {} {
      var c :| c in cs && NetOver(accounts, es + [e], cs) ==
                          Total(es + [e], ByCurrency(accounts, c)) + NetOver(accounts, es + [e], cs - {c});
      assert (es + [e])[..|es|] == es;
      assert Total(es + [e], ByCurrency(accounts, c)) ==
             Total(es, ByCurrency(accounts, c)) + ByCurrency(accounts, c)(e);
      NetOverEntry(accounts, es, e, cs - {c});
      NetOverPick(accounts, es, cs, c);
    }
  }

  lemma {:induction false} NetOverPick(accounts: map<Uuid, Account>, es: seq<Entry>, cs: set<Currency>, c: Currency)
    requires c in cs
    ensures NetOver(accounts, es, cs) == Total(es, ByCurrency(accounts, c)) + NetOver(accounts, es, cs - {c})
    decreases cs
  {
    var b :| b in cs && NetOver(accounts, es, cs) == Total(es, ByCurrency(accounts, b)) + NetOver(accounts, es,
                                cs - {b});
    if b != c {
      NetOverPick(accounts, es, cs - {b}, c);
      NetOverPick(accounts, es, cs - {c}, b);
      assert cs - {b} - {c} == cs - {c} - {b};
    }
  }

  lemma {:induction false} NetOverAll(accounts: map<Uuid, Account>, es: seq<Entry>, cs: set<Currency>)
    requires forall e | e in es :: e.account in accounts && accounts[e.account].currency in cs
    ensures NetOver(accounts, es, cs) == Total(es, Signed)
  {
    if es == [] {
      NetOverZero(accounts, es, cs);
    } else {
      var n := |es| - 1;
      assert es == es[..n] + [es[n]];
      NetOverEntry(accounts, es[..n], es[n], cs);
      NetOverAll(accounts, es[..n], cs);
    }
  }

  /** The foreign key of an entry on its account. */
  predicate OnAccounts(db: Db) {
    forall e | e in db.entries :: e.account in db.accounts
  }

  /** The query's groups partition the ledger: their nets add up to the net of all entries. */
  lemma NetsAddUp(db: Db)
    requires OnAccounts(db)
    ensures NetOver(db.accounts, db.entries, Groups(db)) == LedgerNet(db)
  {
    NetOverAll(db.accounts, db.entries, Groups(db));
  }

  lemma {:induction false} NetOverZero(accounts: map<Uuid, Account>, es: seq<Entry>, cs: set<Currency>)
    requires forall c | c in cs :: Total(es, ByCurrency(accounts, c)) == 0
    ensures NetOver(accounts, es, cs) == 0
    decreases cs
  {
    if cs != {} {
      var c :| c in cs && NetOver(accounts, es, cs) == Total(es, ByCurrency(accounts, c)) + NetOver(accounts, es,
                                  cs - {c});
      NetOverZero(accounts, es, cs - {c});
    }
  }

  /** A ledger that is off always has a currency that is off. */
  lemma OffSomewhere(db: Db)
    requires OnAccounts(db) && LedgerNet(db) != 0
    ensures Imbalances(db) != {}
  {
    NetsAddUp(db);
    if forall c | c in Groups(db) :: CurrencyNet(db, c) == 0 {
      NetOverZero(db.accounts, db.entries, Groups(db));
    } else {
      var c :| c in Groups(db) && CurrencyNet(db, c) != 0;
      assert Imbalance(c, CurrencyNet(db, c)) in Imbalances(db);
    }
  }

  /** In every reachable state the ledger net and every currency net are zero. */
  lemma NoAlarm(s: Sys, run: seq<Event>)
    requires Init(s) && Exec(s, run).Some?
    ensures LedgerNet(Exec(s, run).value.db) == 0
    ensures Imbalances(Exec(s, run).value.db) == {}
  {
    BooksHold(s, run);
    var db := Exec(s, run).value.db;
    NetsAddUp(db);
    NetOverZero(db.accounts, db.entries, Groups(db));
  }

  /** Converse of OffSomewhere fails: errors in two currencies that cancel as plain numbers leave the
      ledger net at zero, whatever their size. */
  lemma OffsettingGoesUnnoticed(db: Db, t: Uuid, a: Uuid, b: Uuid, n: int)
    requires a in db.accounts && b in db.accounts && db.accounts[a].currency != db.accounts[b].currency && n > 0
    requires LedgerNet(db) == 0 && Imbalances(db) == {}
    ensures var off := db.(entries := db.entries + PairLegs(t, a, b, n));
            && LedgerNet(off) == 0
            && Imbalance(db.accounts[a].currency, -n) in Imbalances(off)
            && Imbalance(db.accounts[b].currency, n) in Imbalances(off)
  {
    var legs := PairLegs(t, a, b, n);
    var off := db.(entries := db.entries + legs);
    TotalAppend(db.entries, legs, Signed);
    PairTotal(t, a, b, n, Signed);
    OneSide(db, legs, t, a, b, n, db.accounts[a].currency);
    OneSide(db, legs, t, a, b, n, db.accounts[b].currency);
    assert legs[0] in off.entries && legs[1] in off.entries;
    Listed(off, db.accounts[a].currency);
    Listed(off, db.accounts[b].currency);
  }

  lemma OneSide(db: Db, legs: seq<Entry>, t: Uuid, a: Uuid, b: Uuid, n: int, c: Currency)
    requires legs == PairLegs(t, a, b, n) && a in db.accounts && b in db.accounts && Imbalances(db) == {}
    ensures Total(db.entries + legs, ByCurrency(db.accounts, c)) ==
            (if db.accounts[b].currency == c then n else 0) - (if db.accounts[a].currency == c then n else 0)
  {
    TotalAppend(db.entries, legs, ByCurrency(db.accounts, c));
    PairTotal(t, a, b, n, ByCurrency(db.accounts, c));
    Listed(db, c);
    if c !in Groups(db) {
      TotalZero(db.entries, ByCurrency(db.accounts, c));
    }
  }

  // ---- the job ----

  datatype Alarm = WholeLedger | InCurrency(currency: Currency)

  method GetLedgerNet(q: Queries) returns (r: Result<int>)
    modifies q`faults
    ensures r.Ok? ==> r.value == LedgerNet(q.Snapshot()) && q.faults == old(q.faults)
    ensures r.Err? ==> r.error == Fault && q.faults > old(q.faults)
  {
    var fault := q.Trip();
    if fault {
      return Err(Fault);
    }
    var net, i := 0, 0;
    while i < |q.entries|
      invariant i <= |q.entries| && net == Total(q.entries[..i], Signed)
    {
      assert q.entries[..i + 1][..i] == q.entries[..i];
      net := net + Signed(q.entries[i]);
      i := i + 1;
    }
    assert q.entries[..i] == q.entries;
    r := Ok(net);
  }

  /** The rows of the per-currency query, in some order. */
  method GetCurrencyImbalances(q: Queries) returns (r: Result<seq<Imbalance>>)
    modifies q`faults
    ensures r.Ok? ==> Rows(r.value, Imbalances(q.Snapshot())) && q.faults == old(q.faults)
    ensures r.Err? ==> r.error == Fault && q.faults > old(q.faults)
  {
    var fault := q.Trip();
    if fault {
      return Err(Fault);
    }
    var rows: seq<Imbalance> := [];
    var rest := Imbalances(q.Snapshot());
    while rest != {}
      invariant rest <= Imbalances(q.Snapshot())
      invariant forall x :: x in rows <==> x in Imbalances(q.Snapshot()) - rest
      invariant forall i, j | 0 <= i < j < |rows| :: rows[i] != rows[j]
      decreases rest
    {
      var x :| x in rest;
      assert x !in rows;
      rows := rows + [x];
      rest := rest - {x};
    }
    r := Ok(rows);
  }

  /** A listing of a set, each member once. */
  ghost predicate Rows(rows: seq<Imbalance>, all: set<Imbalance>) {
    && (forall x :: x in rows <==> x in all)
    && (forall i, j | 0 <= i < j < |rows| :: rows[i] != rows[j])
  }

  /** One reconciliation run; `alarms` are the counters it increments. */
  method Run(q: Queries) returns (r: Result<()>, alarms: seq<Alarm>)
    modifies q`faults
    ensures r.Err? ==> r.error == Fault && alarms == [] && q.faults > old(q.faults)
    ensures r.Ok? ==> (alarms == [] <==> LedgerNet(q.Snapshot()) == 0)
    ensures alarms != [] ==> alarms[0] == WholeLedger
    ensures alarms != [] && q.faults == old(q.faults) ==>
              && (forall c ::
                    InCurrency(c) in alarms[1..] <==> c in Groups(q.Snapshot()) && CurrencyNet(q.Snapshot(), c) != 0)
              && (forall i, j | 0 <= i < j < |alarms| :: alarms[i] != alarms[j])
              && (OnAccounts(q.Snapshot()) ==> |alarms| > 1)
  {
    var net := GetLedgerNet(q);
    if net.Err? {
      return Err(net.error), [];
    }
    if net.value == 0 {
      return Ok(()), [];
    }
    alarms := [WholeLedger];
    var rows := GetCurrencyImbalances(q);
    if rows.Ok? {
      for i := 0 to |rows.value|
        invariant |alarms| == i + 1 && alarms[0] == WholeLedger
        invariant forall k | 0 <= k < i :: alarms[k + 1] == InCurrency(rows.value[k].currency)
      {
        alarms := alarms + [InCurrency(rows.value[i].currency)];
      }
      NamesCurrencies(q.Snapshot(), rows.value, alarms);
    }
    r := Ok(());
  }

  lemma NamesCurrencies(db: Db, rows: seq<Imbalance>, alarms: seq<Alarm>)
    requires Rows(rows, Imbalances(db)) && LedgerNet(db) != 0
    requires |alarms| == |rows| + 1 && alarms[0] == WholeLedger
    requires forall k | 0 <= k < |rows| :: alarms[k + 1] == InCurrency(rows[k].currency)
    ensures forall c :: InCurrency(c) in alarms[1..] <==> c in Groups(db) && CurrencyNet(db, c) != 0
    ensures forall i, j | 0 <= i < j < |alarms| :: alarms[i] != alarms[j]
    ensures OnAccounts(db) ==> |alarms| > 1
  {
    forall c ensures InCurrency(c) in alarms[1..] <==> c in Groups(db) && CurrencyNet(db, c) != 0 {
      if InCurrency(c) in alarms[1..] {
        var k :| 0 <= k < |rows| && alarms[1..][k] == InCurrency(c);
        assert rows[k] in rows && rows[k] in Imbalances(db);
      }
      if c in Groups(db) && CurrencyNet(db, c) != 0 {
        assert Imbalance(c, CurrencyNet(db, c)) in rows;
        var k :| 0 <= k < |rows| && rows[k] == Imbalance(c, CurrencyNet(db, c));
        assert alarms[1..][k] == InCurrency(c);
      }
    }
    forall i, j | 0 <= i < j < |alarms| ensures alarms[i] != alarms[j] {
      assert j > 0 ==> rows[j - 1] in Imbalances(db);
      if i > 0 {
        assert rows[i - 1] in Imbalances(db) && rows[i - 1] != rows[j - 1];
        assert alarms[i] == InCurrency(rows[i - 1].currency) && alarms[j] == InCurrency(rows[j - 1].currency);
      }
    }
    if OnAccounts(db) {
      OffSomewhere(db);
      var x :| x in Imbalances(db);
      assert x in rows;
    }
  }
}
