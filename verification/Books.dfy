/**
 Double entry over every run, with no assumption on workers, operators, faults or crashes:
 balances are the opening balance plus the entries, every transaction nets to zero in every
 currency, and reconciliation never raises an alarm.
 */
module Books {
  import opened Tables
  import opened Runs
  import opened Entries
  import opened Deltas
  import opened Schema
  import opened Steps

  ghost predicate BalancesMatch(s: Sys)
    requires s.db.accounts.Keys == s.opening.Keys
  {
    forall a | a in s.db.accounts :: s.db.accounts[a].balance == s.opening[a] + Total(s.db.entries, ByAccount(a))
  }

  ghost predicate NetsToZero(db: Db) {
    && (forall c :: Total(db.entries, ByCurrency(db.accounts, c)) == 0)
    && (forall t, c :: Total(db.entries, ByTxCurrency(db.accounts, t, c)) == 0)
  }

  ghost predicate BooksInv(s: Sys) {
    Wellformed(s) && BalancesMatch(s) && NetsToZero(s.db)
  }

  lemma BalancesStep(s: Sys, s': Sys, x: Delta)
    requires s.db.accounts.Keys == s.opening.Keys == s'.opening.Keys && BalancesMatch(s)
    requires Changes(s.db, s'.db, x) && s'.opening == s.opening
    ensures BalancesMatch(s')
  {
    forall a | a in s'.db.accounts
      ensures s'.db.accounts[a].balance == s'.opening[a] + Total(s'.db.entries, ByAccount(a))
    {
      TotalAppend(s.db.entries, x.legs, ByAccount(a));
    }
  }

  ghost predicate SameCurrencies(m: map<Uuid, Account>, n: map<Uuid, Account>) {
    forall a | a in m :: a in n && n[a].currency == m[a].currency
  }

  /** Sums over entries on known accounts do not see accounts being added or balances moving. */
  lemma CurrencySumsStable(es: seq<Entry>, m: map<Uuid, Account>, n: map<Uuid, Account>, t: Uuid, c: Currency)
    requires SameCurrencies(m, n) && forall e | e in es :: e.account in m
    ensures Total(es, ByCurrency(n, c)) == Total(es, ByCurrency(m, c))
    ensures Total(es, ByTxCurrency(n, t, c)) == Total(es, ByTxCurrency(m, t, c))
  {
    TotalSame(es, ByCurrency(n, c), ByCurrency(m, c));
    TotalSame(es, ByTxCurrency(n, t, c), ByTxCurrency(m, t, c));
  }

  lemma BalancedByTx(accounts: map<Uuid, Account>, legs: seq<Entry>, t: Uuid, c: Currency)
    requires Balanced(accounts, legs)
    ensures Total(legs, ByTxCurrency(accounts, t, c)) == 0
  {
    if legs != [] && legs[0].tx == t {
      TotalSame(legs, ByTxCurrency(accounts, t, c), ByCurrency(accounts, c));
    } else {
      TotalZero(legs, ByTxCurrency(accounts, t, c));
    }
  }

  lemma NetStep(d: Db, d': Db, x: Delta, t: Uuid, c: Currency)
    requires WellformedDb(d) && NetsToZero(d) && Changes(d, d', x) && SoundLegs(d, x)
    ensures Total(d'.entries, ByCurrency(d'.accounts, c)) == 0
    ensures Total(d'.entries, ByTxCurrency(d'.accounts, t, c)) == 0
  {
    TotalAppend(d.entries, x.legs, ByCurrency(d'.accounts, c));
    TotalAppend(d.entries, x.legs, ByTxCurrency(d'.accounts, t, c));
    CurrencySumsStable(d.entries, d.accounts, d'.accounts, t, c);
    CurrencySumsStable(x.legs, d.accounts, d'.accounts, t, c);
    BalancedByTx(d.accounts, x.legs, t, c);
  }

  lemma NetsStep(d: Db, d': Db, x: Delta)
    requires WellformedDb(d) && NetsToZero(d) && Changes(d, d', x) && SoundLegs(d, x)
    ensures NetsToZero(d')
  {
    forall c ensures Total(d'.entries, ByCurrency(d'.accounts, c)) == 0 {
      NetStep(d, d', x, 0, c);
    }
    forall t, c ensures Total(d'.entries, ByTxCurrency(d'.accounts, t, c)) == 0 {
      NetStep(d, d', x, t, c);
    }
  }

  lemma OpenAccountBooks(s: Sys, id: Uuid, currency: Currency, balance: int, s': Sys)
    requires BooksInv(s) && Next(s, OpenAccount(id, currency, balance), s') && Wellformed(s')
    ensures BooksInv(s')
  {
    OpenIs(s, id, currency, balance, s');
    TotalZero(s.db.entries, ByAccount(id));
    forall c ensures Total(s'.db.entries, ByCurrency(s'.db.accounts, c)) == 0 {
      CurrencySumsStable(s.db.entries, s.db.accounts, s'.db.accounts, 0, c);
    }
    forall t, c ensures Total(s'.db.entries, ByTxCurrency(s'.db.accounts, t, c)) == 0 {
      CurrencySumsStable(s.db.entries, s.db.accounts, s'.db.accounts, t, c);
    }
  }

  lemma BooksStep(s: Sys, e: Event, s': Sys)
    requires BooksInv(s) && Next(s, e, s')
    ensures BooksInv(s')
  {
    WellformedStep(s, e, s');
    if e.OpenAccount? {
      OpenAccountBooks(s, e.id, e.currency, e.balance, s');
    } else {
      var x := Tell(s, e, s');
      StepFramed(s, e, s');
      BalancesStep(s, s', x);
      NetsStep(s.db, s'.db, x);
    }
  }

  /** In every run: balance = opening balance + credits - debits, also where a user and a liquidity
      account coincide; every transaction's entries cancel within each currency. */
  lemma BooksHold(s: Sys, run: seq<Event>)
    requires Init(s) && Exec(s, run).Some?
    ensures BooksInv(Exec(s, run).value)
  {
    InitWellformed(s);
    assert BooksInv(s);
    forall s: Sys, e: Event, s': Sys | BooksInv(s) && Anything(s, e) && Next(s, e, s') ensures BooksInv(s') {
      BooksStep(s, e, s');
    }
    AlongAnything(s, run);
    RunKeeps(s, run, BooksInv, Anything);
  }

  /** Entries and audit rows are never changed or removed. */
  lemma LogsOnlyGrow(s: Sys, e: Event, s': Sys)
    requires Wellformed(s) && Next(s, e, s')
    ensures s.db.entries <= s'.db.entries && s.db.audit <= s'.db.audit
  {
    if e.OpenAccount? {
      OpenIs(s, e.id, e.currency, e.balance, s');
    } else {
      var x := Tell(s, e, s');
    }
  }
}
