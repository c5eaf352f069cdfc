/**
 The idempotency store as one request uses it, with every other request free to step, and the cache
 free to lose entries, between any two of its reads and writes.
 */
module IdempotencyStore {
  import opened Results
  import opened Idempotency
  import opened Traces

  // ---- what other requests leave alone ----

  /** The event is a step of request `r`. */
  predicate By(e: Event, r: nat) {
    !e.LoseEntry? && e.r == r
  }

  predicate NotBy(r: nat, more: seq<Event>) {
    forall i | 0 <= i < |more| :: !By(more[i], r)
  }

  predicate RanBy(runs: seq<HandlerRun>, r: nat) {
    exists i | 0 <= i < |runs| :: runs[i].request == r
  }

  /** Request `r` stands where it stood and has not run a handler since. */
  ghost predicate Stands(s: Sys, s': Sys, r: nat) {
    && (r in s'.requests <==> r in s.requests)
    && (r in s.requests ==> s'.requests[r] == s.requests[r])
    && (RanBy(s'.runs, r) <==> RanBy(s.runs, r))
  }

  lemma RanBySnoc(runs: seq<HandlerRun>, run: HandlerRun, r: nat)
    ensures RanBy(runs + [run], r) <==> RanBy(runs, r) || run.request == r
  {
    var more := runs + [run];
    if RanBy(runs, r) {
      var i :| 0 <= i < |runs| && runs[i].request == r;
      assert more[i].request == r;
    }
    assert more[|runs|] == run;
    if RanBy(more, r) {
      var i :| 0 <= i < |more| && more[i].request == r;
      assert i < |runs| ==> runs[i].request == r;
    }
  }

  /** How often request `r` has gone back to poll. */
  function Polls(events: seq<Event>, r: nat): nat {
    if events == [] then 0
    else Polls(events[..|events| - 1], r) + (if events[|events| - 1] == Poll(r) then 1 else 0)
  }

  lemma {:induction false} OthersPoll(events: seq<Event>, more: seq<Event>, r: nat)
    requires NotBy(r, more)
    ensures Polls(events + more, r) == Polls(events, r)
    decreases |more|
  {
    if more == [] {
      assert events + more == events;
    } else {
      assert (events + more)[..|events + more| - 1] == events + more[..|more| - 1];
      assert !By(more[|more| - 1], r);
      OthersPoll(events, more[..|more| - 1], r);
    }
  }

  lemma OtherStep(s: Sys, e: Event, r: nat)
    requires Apply(s, e).Some? && !By(e, r)
    ensures Stands(s, Apply(s, e).value, r)
  {
    if e.StartHandler? {
      RanBySnoc(s.runs, HandlerRun(e.r, s.requests[e.r].key, s.requests[e.r].hash), r);
    }
  }

  lemma {:induction false} OthersStand(s: Sys, more: seq<Event>, r: nat)
    requires Exec(s, more).Some? && NotBy(r, more)
    ensures Stands(s, Exec(s, more).value, r)
    decreases |more|
  {
    if more != [] {
      assert !By(more[0], r);
      OtherStep(s, more[0], r);
      OthersStand(Apply(s, more[0]).value, more[1..], r);
    }
  }

  // ---- histories: a run together with the states it passes through ----

  type History = Path<Sys, Event>

  predicate StepAt(hist: History, i: nat) {
    i < |hist.events| && i + 1 < |hist.states| && Apply(hist.states[i], hist.events[i]) == Some(hist.states[i + 1])
  }

  /** The history begins with empty stores and has led to `s`. */
  ghost predicate Reached(hist: History, s: Sys) {
    && |hist.states| == |hist.events| + 1
    && hist.states[|hist.events|] == s
    && Init(hist.states[0])
    && forall i: nat | i < |hist.events| :: StepAt(hist, i)
  }

  lemma ThenReached(hist: History, s: Sys, e: Event)
    requires Reached(hist, s) && Apply(s, e).Some?
    ensures Reached(Then(hist, e, Apply(s, e).value), Apply(s, e).value)
  {
    var next := Then(hist, e, Apply(s, e).value);
    forall i: nat | i < |next.events| ensures StepAt(next, i) {
      assert i < |hist.events| ==> StepAt(hist, i);
    }
  }

  function Onward(hist: History, s: Sys, more: seq<Event>): History
    requires Exec(s, more).Some?
    decreases |more|
  {
    if more == [] then hist
    else
      var s1 := Apply(s, more[0]).value;
      Onward(Then(hist, more[0], s1), s1, more[1..])
  }

  lemma {:induction false} OnwardReached(hist: History, s: Sys, more: seq<Event>)
    requires Reached(hist, s) && Exec(s, more).Some?
    ensures Reached(Onward(hist, s, more), Exec(s, more).value) && Extends(hist, Onward(hist, s, more))
    ensures Onward(hist, s, more).events == hist.events + more
    decreases |more|
  {
    if more != [] {
      ThenReached(hist, s, more[0]);
      OnwardReached(Then(hist, more[0], Apply(s, more[0]).value), Apply(s, more[0]).value, more[1..]);
      assert hist.events + [more[0]] + more[1..] == hist.events + more;
    }
  }

  lemma {:induction false} HistoryKeeps(hist: History, n: nat)
    requires |hist.states| == |hist.events| + 1 && n < |hist.states| && Init(hist.states[0])
    requires forall i: nat | i < |hist.events| :: StepAt(hist, i)
    ensures Inv(hist.states[n])
  {
    if n > 0 {
      HistoryKeeps(hist, n - 1);
      GrowsNext(hist, n - 1);
    }
  }

  lemma ReachedInv(hist: History, s: Sys)
    requires Reached(hist, s)
    ensures Inv(s)
  {
    HistoryKeeps(hist, |hist.events|);
  }

  lemma {:induction false} HistoryGrows(hist: History, k: nat, n: nat)
    requires |hist.states| == |hist.events| + 1 && k <= n < |hist.states| && Init(hist.states[0])
    requires forall i: nat | i < |hist.events| :: StepAt(hist, i)
    ensures Grows(hist.states[k], hist.states[n])
  {
    if k < n {
      HistoryGrows(hist, k, n - 1);
      HistoryKeeps(hist, n - 1);
      GrowsNext(hist, n - 1);
      GrowsOn(hist.states[k], hist.states[n - 1], hist.states[n]);
    }
  }

  lemma GrowsNext(hist: History, n: nat)
    requires |hist.states| == |hist.events| + 1 && n < |hist.events| && StepAt(hist, n) && Inv(hist.states[n])
    ensures Inv(hist.states[n + 1]) && Grows(hist.states[n], hist.states[n + 1])
  {
    StepKeeps(hist.states[n], hist.events[n]);
  }

  lemma GrowsOn(s: Sys, s1: Sys, s2: Sys)
    requires Grows(s, s1) && Grows(s1, s2)
    ensures Grows(s, s2)
  {
  }

  lemma ReachedGrows(was: History, s: Sys, hist: History, s': Sys)
    requires Reached(was, s) && Reached(hist, s') && Extends(was, hist)
    ensures Grows(s, s')
  {
    assert hist.states[|was.events|] == s;
    HistoryGrows(hist, |was.events|, |hist.events|);
  }

  /** A record found stays found, and a key taken for another request stays taken. */
  lemma AnswerLasts(was: History, s: Sys, hist: History, s': Sys, key: string, hash: string)
    requires Reached(was, s) && Reached(hist, s') && Extends(was, hist)
    ensures var answer := TableLookup(s.rows, key, hash);
            answer.Found? || answer == HashMismatch ==> TableLookup(s'.rows, key, hash) == answer
    ensures key in s.rows ==> key in s'.rows
  {
    ReachedGrows(was, s, hist, s');
  }

  /** What a finished replay, a pending cache fill and a cache entry say about the table. */
  lemma ReplayBacked(hist: History, s: Sys, r: nat)
    requires Reached(hist, s) && r in s.requests && s.requests[r].pc.Finished? && s.requests[r].pc.outcome.Replayed?
    ensures var q := s.requests[r];
            var record := q.pc.outcome.record;
            record.key == q.key && record.hash == q.hash && SameAnswer(Found(record),
                                                                       TableLookup(s.rows, q.key, q.hash))
  {
    ReachedInv(hist, s);
    assert RequestOk(s, s.requests[r]);
  }

  lemma StoringBacked(hist: History, s: Sys, r: nat)
    requires Reached(hist, s) && r in s.requests && s.requests[r].pc.Storing?
    ensures SameAnswer(Found(s.requests[r].pc.record), TableLookup(s.rows, s.requests[r].key, s.requests[r].hash))
  {
    ReachedInv(hist, s);
    assert RequestOk(s, s.requests[r]);
  }

  lemma FinalizingHeld(hist: History, s: Sys, r: nat)
    requires Reached(hist, s) && r in s.requests && s.requests[r].pc.Finalizing?
    ensures s.requests[r].key in s.rows && s.rows[s.requests[r].key].hash == s.requests[r].hash
  {
    ReachedInv(hist, s);
    assert RequestOk(s, s.requests[r]);
  }

  lemma EntryBacked(hist: History, s: Sys, key: string)
    requires Reached(hist, s) && key in s.cache
    ensures s.cache[key].key == key && key in s.rows && s.rows[key].hash == s.cache[key].hash
  {
    ReachedInv(hist, s);
    assert EntryOk(s, key);
  }

  class IdemStore {
    var rows: map<string, Row>
    var cache: map<string, Envelope>
    const hasRedis: bool
    ghost var hist: History
    ghost var sys: Sys
    ghost var faults: nat    // reads and writes that have failed so far

    ghost predicate Valid()
      reads this
    {
      sys.rows == rows && sys.cache == cache && Reached(hist, sys)
    }

    constructor (hasRedis: bool)
      ensures Valid() && Init(sys) && this.hasRedis == hasRedis && faults == 0
    {
      this.hasRedis := hasRedis;
      faults := 0;
      rows, cache := map[], map[];
      sys := Sys(map[], map[], map[], [], map[]);
      hist := Start(Sys(map[], map[], map[], [], map[]));
    }

    ghost predicate At(r: nat, key: string, hash: string, pc: Pc)
      reads this
    {
      r in sys.requests && sys.requests[r] == Request(key, hash, pc)
    }

    /** The store has moved on by whole steps. */
    twostate predicate Went()
      reads this
    {
      Valid() && Extends(old(hist), hist) && faults >= old(faults)
    }

    twostate predicate Unrun(new r: nat)
      reads this
    {
      RanBy(sys.runs, r) <==> RanBy(old(sys).runs, r)
    }

    twostate predicate Polled(new r: nat, new n: int)
      reads this
    {
      Polls(hist.events, r) == Polls(old(hist).events, r) + n
    }

    /** The request has neither run a handler nor gone back to poll. */
    twostate predicate Still(new r: nat)
      reads this
    {
      Unrun(r) && Polled(r, 0)
    }

    /** No read or write has failed. */
    twostate predicate Smooth()
      reads this
    {
      faults == old(faults)
    }

    ghost method Record(e: Event)
      requires Reached(hist, sys) && Apply(sys, e).Some? && Apply(sys, e).value.rows == rows
      requires Apply(sys, e).value.cache == cache
      modifies `hist, `sys
      ensures Went() && sys == Apply(old(sys), e).value
      ensures forall r :: Polled(r, if e == Poll(r) then 1 else 0)
    {
      ThenReached(hist, sys, e);
      hist, sys := Then(hist, e, Apply(sys, e).value), Apply(sys, e).value;
      assert hist.events[..|old(hist).events|] == old(hist).events;
    }

    /** Other requests take any steps of their own, and the cache may lose entries. */
    method Others(r: nat) returns (ghost more: seq<Event>)
      requires Valid()
      modifies this
      ensures NotBy(r, more) && Exec(old(sys), more) == Some(sys) && hist == Onward(old(hist), old(sys), more)
      ensures sys.rows == rows && sys.cache == cache && faults == old(faults)
    {
      // Whatever happens here is up to the environment.
      more := [];
    }

    method Yield(r: nat)
      requires Valid()
      modifies this
      ensures Went() && Stands(old(sys), sys, r) && Polled(r, 0) && Smooth()
    {
      var more := Others(r);
      OnwardReached(old(hist), old(sys), more);
      OthersPoll(old(hist).events, more, r);
      OthersStand(old(sys), more, r);
    }

    method Trip() returns (fault: bool)
      modifies `faults
      ensures faults == old(faults) + (if fault then 1 else 0) && (fault <==> !Smooth())
    {
      fault := *;
      if fault {
        faults := faults + 1;
      }
    }

    // ---- store operations ----

    /** The cache read of a lookup. None: nothing usable, go to the table. */
    method ReadCacheEntry(r: nat, key: string, hash: string, polling: bool) returns (found: Option<Lookup>)
      requires Valid() && At(r, key, hash, ReadingCache(polling))
      modifies this
      ensures Went() && Still(r)
      ensures match found
              case None => At(r, key, hash, ReadingTable(polling))
              case Some(Found(record)) => At(r, key, hash, Finished(Replayed(record)))
              case Some(HashMismatch) =>
                && At(r, key, hash, Finished(if polling then Busy else KeyConflict))
                && TableLookup(rows, key, hash) == HashMismatch
              case Some(_) => false
      ensures found.None? && Smooth() ==> !hasRedis || key !in cache
      ensures found.Some? ==>
                hasRedis && key in cache && (found.value.Found? ==> EnvelopeOf(found.value.record) == cache[key])
    {
      Yield(r);
      var fault := Trip();
      found := None;
      if hasRedis && !fault && key in cache {
        EntryBacked(hist, sys, key);
        var env := cache[key];
        found := Some(if env.hash != hash then HashMismatch else Found(Idempotency.Record(env.key, env.hash,
                                                                                          env.response, Redis)));
      }
      Record(ReadCache(r, !hasRedis || fault));
    }

    /** The table read of a lookup, and the cache fill that follows a hit. None: the read failed. */
    method ReadTableRow(r: nat, key: string, hash: string, polling: bool) returns (found: Option<Lookup>)
      requires Valid() && At(r, key, hash, ReadingTable(polling))
      modifies this
      ensures Went() && Still(r)
      ensures match found
              case Some(Found(record)) => At(r, key, hash, Storing(record, true))
              case Some(HashMismatch) =>
                && At(r, key, hash, Finished(if polling then Busy else KeyConflict))
                && TableLookup(rows, key, hash) == HashMismatch
              case Some(StillRunning) => At(r, key, hash, if polling then Pausing else ReadingCache(true))
              case _ => At(r, key, hash, if polling then Finished(Busy) else Reserving)
      ensures if found.None? then !Smooth() else Smooth() && found.value == TableLookup(rows, key, hash)
    {
      Yield(r);
      var fault := Trip();
      found := None;
      if !fault {
        found := Some(
          if key !in rows then Missing
          else if rows[key].hash != hash then HashMismatch
          else if rows[key].inProgress then StillRunning
          else Found(Idempotency.Record(key, hash, rows[key].response, Postgres)));
      }
      Record(ReadTable(r, fault));
    }

    /** Puts a record in the cache; a failed write is only logged. */
    method Cache(r: nat, key: string, hash: string, record: Idempotency.Record, ghost replay: bool)
      requires Valid() && At(r, key, hash, Storing(record, replay))
      modifies this
      ensures Went() && Still(r) && At(r, key, hash, Finished(if replay then Replayed(record) else Answered))
      ensures SameAnswer(Found(record), TableLookup(rows, key, hash))
      ensures hasRedis && Smooth() ==> Cached(record)
    {
      Yield(r);
      StoringBacked(hist, sys, r);
      var fault := Trip();
      if hasRedis && !fault {
        cache := cache[record.key := EnvelopeOf(record)];
      }
      Record(FillCache(r, !hasRedis || fault));
    }

    predicate Cached(record: Idempotency.Record)
      reads this
    {
      record.key in cache && cache[record.key] == EnvelopeOf(record)
    }

    /** A lookup through both layers, none of its steps atomic with another. The answer it gives is the
        answer the table alone gives when it returns, and a record it finds is left in the cache. */
    method Lookup(r: nat, key: string, hash: string, polling: bool) returns (found: Option<Idempotency.Lookup>)
      requires Valid() && At(r, key, hash, ReadingCache(polling))
      modifies this
      ensures Went() && Still(r)
      ensures match found
              case Some(Found(record)) => At(r, key, hash, Finished(Replayed(record)))
              case Some(HashMismatch) => At(r, key, hash, Finished(if polling then Busy else KeyConflict))
              case Some(StillRunning) => At(r, key, hash, if polling then Pausing else ReadingCache(true))
              case _ => At(r, key, hash, if polling then Finished(Busy) else Reserving)
      ensures if found.None? then !Smooth() else SameAnswer(found.value, TableLookup(rows, key, hash))
      ensures found.Some? && found.value.Found? && hasRedis && Smooth() ==> Cached(found.value.record)
    {
      found := ReadCacheEntry(r, key, hash, polling);
      if found.None? {
        found := ReadTableRow(r, key, hash, polling);
        if found.Some? && found.value.Found? {
          Cache(r, key, hash, found.value.record, true);
        }
      }
      if found.Some? && found.value.Found? {
        ReplayBacked(hist, sys, r);
      }
    }

    /** Polls until the row is finalized, the lookup fails, or the request's time is up. `ticks` is how often
        the request can go back to poll before its own deadline. Without a fault it gives up only on a row
        that is not finalized under this hash, and on one still running only after all its polls. */
    method WaitForCompletion(r: nat, key: string, hash: string, ticks: nat) returns (record: Option<Idempotency.Record>)
      requires Valid() && At(r, key, hash, ReadingCache(true))
      modifies this
      ensures Went() && Unrun(r)
      ensures At(r, key, hash, Finished(if record.Some? then Replayed(record.value) else Busy))
      ensures record.Some? ==> SameAnswer(Found(record.value), TableLookup(rows, key, hash))
      ensures record.None? && Smooth() ==> GaveUp(key, hash, r, ticks)
    {
      var left := ticks;
      while true
        invariant Went() && Unrun(r) && Polled(r, ticks - left) && At(r, key, hash, ReadingCache(true))
        decreases left
      {
        var found := Lookup(r, key, hash, true);
        if found.Some? && found.value.Found? {
          return Some(found.value.record);
        }
        if found != Some(StillRunning) {
          return None;
        }
        if left == 0 {
          Record(Expire(r));
          return None;
        }
        left := left - 1;
        Record(Poll(r));
      }
    }

    /** Why a waiting request gave up. */
    twostate predicate GaveUp(new key: string, new hash: string, new r: nat, new ticks: nat)
      reads this
    {
      key in rows && rows[key].hash == hash ==> rows[key].inProgress && Polled(r, ticks)
    }

    /** Inserts the key if it is absent. */
    method Reserve(r: nat, key: string, hash: string) returns (reserved: Result<bool>)
      requires Valid() && At(r, key, hash, Reserving)
      modifies this
      ensures Went() && Still(r)
      ensures reserved == Ok(true) ==> At(r, key, hash, Reserved)
      ensures reserved == Ok(false) ==> At(r, key, hash, ReadingCache(true)) && key in rows
      ensures reserved.Err? ==> At(r, key, hash, Finished(Unavailable))
      ensures reserved.Err? <==> !Smooth()
    {
      Yield(r);
      var fault := Trip();
      if fault {
        reserved := Err(Fault);
      } else if key in rows {
        reserved := Ok(false);
      } else {
        rows := rows[key := Row(hash, BLANK, true)];
        reserved := Ok(true);
      }
      Record(Idempotency.Event.Reserve(r, fault));
    }

    /** Writes the response over the reserved row; the row is this request's until then. */
    method Finalize(r: nat, key: string, hash: string, response: Response) returns (done: bool)
      requires Valid() && At(r, key, hash, Finalizing(response))
      modifies this
      ensures Went() && Still(r) && At(r, key, hash, Finished(Answered))
      ensures done ==>
                SameAnswer(Found(Idempotency.Record(key, hash, response, Postgres)), TableLookup(rows, key, hash))
      ensures !done ==> faults > old(faults)
      ensures hasRedis && Smooth() ==> Cached(Idempotency.Record(key, hash, response, Postgres))
    {
      Yield(r);
      FinalizingHeld(hist, sys, r);
      var fault := Trip();
      done := !fault && key in rows && rows[key].hash == hash;
      if done {
        rows := rows[key := Row(hash, response, false)];
      }
      Record(Idempotency.Event.Finalize(r, fault));
      if done {
        Cache(r, key, hash, Idempotency.Record(key, hash, response, Postgres), false);
      }
    }
  }
}
