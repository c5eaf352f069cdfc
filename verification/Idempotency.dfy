/**
 Two-layer idempotency as a protocol of concurrent requests over a table and a cache. Every read,
 write and cache fill is a step of its own, any of them may fail, any request may vanish at any
 point, and the cache may lose any entry at any time.
 */
module Idempotency {
  import opened Results

  newtype byte = x: int | 0 <= x < 0x100

  datatype Response = Response(status: int, body: seq<byte>, contentType: string)

  /** A row of the key table. */
  datatype Row = Row(hash: string, response: Response, inProgress: bool)

  /** What the cache stores under a key. */
  datatype Envelope = Envelope(key: string, hash: string, response: Response)

  datatype Layer = Redis | Postgres

  datatype Record = Record(key: string, hash: string, response: Response, servedBy: Layer)

  datatype Lookup = Found(record: Record) | Missing | HashMismatch | StillRunning

  const BLANK := Response(0, [], "application/json")

  // ---- the two layers ----

  /** A read of the table alone. */
  function TableLookup(rows: map<string, Row>, key: string, hash: string): Lookup {
    if key !in rows then Missing
    else if rows[key].hash != hash then HashMismatch
    else if rows[key].inProgress then StillRunning
    else Found(Record(key, hash, rows[key].response, Postgres))
  }

  /** A read through the cache. */
  function CachedLookup(cache: map<string, Envelope>, rows: map<string, Row>, key: string, hash: string): Lookup {
    if key in cache then
      var env := cache[key];
      if env.hash != hash then HashMismatch else Found(Record(env.key, env.hash, env.response, Redis))
    else TableLookup(rows, key, hash)
  }

  /** Equal up to the layer that answered. */
  predicate SameAnswer(a: Lookup, b: Lookup) {
    match a
    case Found(record) => b.Found? && b.record == record.(servedBy := b.record.servedBy)
    case _ => a == b
  }

  // ---- the protocol ----

  /** Where a request stands. `polling` tells the polls of a waiting request from its first lookup. */
  datatype Pc =
    | ReadingCache(polling: bool)
    | ReadingTable(polling: bool)
    | Pausing
    | Reserving
    | Reserved
    | Serving
    | Finalizing(response: Response)
    | Storing(record: Record, replay: bool)
    | Finished(outcome: Outcome)

  datatype Outcome = Replayed(record: Record) | Answered | KeyConflict | Busy | Unavailable

  datatype Request = Request(key: string, hash: string, pc: Pc)

  datatype HandlerRun = HandlerRun(request: nat, key: string, hash: string)

  /** `runs` and `responses` are history: every start of the wrapped handler, and what it answered. */
  datatype Sys = Sys(
    rows: map<string, Row>,
    cache: map<string, Envelope>,
    requests: map<nat, Request>,
    runs: seq<HandlerRun>,
    responses: map<string, Response>)

  datatype Event =
    | Arrive(r: nat, key: string, hash: string)
    | ReadCache(r: nat, fault: bool)
    | ReadTable(r: nat, fault: bool)
    | Poll(r: nat)
    | Expire(r: nat)
    | Reserve(r: nat, fault: bool)
    | StartHandler(r: nat)
    | EndHandler(r: nat, response: Response)
    | Finalize(r: nat, fault: bool)
    | FillCache(r: nat, fault: bool)
    | Crash(r: nat)
    | LoseEntry(key: string)

  function At(s: Sys, r: nat, pc: Pc): Sys
    requires r in s.requests
  {
    s.(requests := s.requests[r := s.requests[r].(pc := pc)])
  }

  function EnvelopeOf(record: Record): Envelope {
    Envelope(record.key, record.hash, record.response)
  }

  function ReadCacheStep(s: Sys, r: nat, fault: bool): Option<Sys>
    requires r in s.requests
  {
    var q := s.requests[r];
    if !q.pc.ReadingCache? then None
    else if fault || q.key !in s.cache then Some(At(s, r, ReadingTable(q.pc.polling)))
    else
      var env := s.cache[q.key];
      if env.hash != q.hash then Some(At(s, r, Finished(if q.pc.polling then Busy else KeyConflict)))
      else Some(At(s, r, Finished(Replayed(Record(env.key, env.hash, env.response, Redis)))))
  }

  /** A failed table read sends a first lookup on to its reservation, and ends a poll. */
  function ReadTableStep(s: Sys, r: nat, fault: bool): Option<Sys>
    requires r in s.requests
  {
    var q := s.requests[r];
    if !q.pc.ReadingTable? then None
    else if fault then Some(At(s, r, if q.pc.polling then Finished(Busy) else Reserving))
    else
      match TableLookup(s.rows, q.key, q.hash)
      case Missing => Some(At(s, r, if q.pc.polling then Finished(Busy) else Reserving))
      case HashMismatch => Some(At(s, r, Finished(if q.pc.polling then Busy else KeyConflict)))
      case StillRunning => Some(At(s, r, if q.pc.polling then Pausing else ReadingCache(true)))
      case Found(record) => Some(At(s, r, Storing(record, true)))
  }

  /** Insert if absent. */
  function ReserveStep(s: Sys, r: nat, fault: bool): Option<Sys>
    requires r in s.requests
  {
    var q := s.requests[r];
    if q.pc != Reserving then None
    else if fault then Some(At(s, r, Finished(Unavailable)))
    else if q.key in s.rows then Some(At(s, r, ReadingCache(true)))
    else Some(At(s.(rows := s.rows[q.key := Row(q.hash, BLANK, true)]), r, Reserved))
  }

  function FinalizeStep(s: Sys, r: nat, fault: bool): Option<Sys>
    requires r in s.requests
  {
    var q := s.requests[r];
    if !q.pc.Finalizing? then None
    else if fault || q.key !in s.rows || s.rows[q.key].hash != q.hash then Some(At(s, r, Finished(Answered)))
    else
      var record := Record(q.key, q.hash, q.pc.response, Postgres);
      Some(At(s.(rows := s.rows[q.key := Row(q.hash, q.pc.response, false)]), r, Storing(record, false)))
  }

  function FillCacheStep(s: Sys, r: nat, fault: bool): Option<Sys>
    requires r in s.requests
  {
    var q := s.requests[r];
    if !q.pc.Storing? then None
    else
      var cache := if fault then s.cache else s.cache[q.pc.record.key := EnvelopeOf(q.pc.record)];
      Some(At(s.(cache := cache), r, Finished(if q.pc.replay then Replayed(q.pc.record) else Answered)))
  }

  function Step(s: Sys, r: nat, e: Event): Option<Sys>
    requires r in s.requests
  {
    var q := s.requests[r];
    match e
    case ReadCache(_, fault) => ReadCacheStep(s, r, fault)
    case ReadTable(_, fault) => ReadTableStep(s, r, fault)
    case Poll(_) => if q.pc == Pausing then Some(At(s, r, ReadingCache(true))) else None
    case Expire(_) => if q.pc == Pausing then Some(At(s, r, Finished(Busy))) else None
    case Reserve(_, fault) => ReserveStep(s, r, fault)
    case StartHandler(_) =>
      if q.pc == Reserved then Some(At(s.(runs := s.runs + [HandlerRun(r, q.key, q.hash)]), r, Serving)) else None
    case EndHandler(_, response) =>
      if q.pc == Serving then Some(At(s.(responses := s.responses[q.key := response]), r,
                                      Finalizing(response))) else None
    case Finalize(_, fault) => FinalizeStep(s, r, fault)
    case FillCache(_, fault) => FillCacheStep(s, r, fault)
    case Crash(_) => if q.pc.Finished? then None else Some(s.(requests := s.requests - {r}))
    case _ => None
  }

  function Apply(s: Sys, e: Event): Option<Sys> {
    match e
    case Arrive(r, key, hash) =>
      if r in s.requests then None else Some(s.(requests := s.requests[r := Request(key, hash, ReadingCache(false))]))
    case LoseEntry(key) => Some(s.(cache := s.cache - {key}))
    case _ => if e.r in s.requests then Step(s, e.r, e) else None
  }

  function Exec(s: Sys, run: seq<Event>): Option<Sys>
    decreases |run|
  {
    if run == [] then Some(s)
    else
      var next := Apply(s, run[0]);
      if next.None? then None else Exec(next.value, run[1..])
  }

  predicate Init(s: Sys) {
    s.rows == map[] && s.cache == map[] && s.requests == map[] && s.runs == [] && s.responses == map[]
  }

  // ---- the invariant ----

  predicate Owns(pc: Pc) {
    pc == Reserved || pc == Serving || pc.Finalizing?
  }

  predicate Owner(s: Sys, r: nat, key: string) {
    r in s.requests && s.requests[r].key == key && Owns(s.requests[r].pc)
  }

  predicate Started(runs: seq<HandlerRun>, key: string) {
    exists i | 0 <= i < |runs| :: runs[i].key == key
  }

  /** A record of a finalized row. */
  predicate Backed(s: Sys, record: Record) {
    && record.key in s.rows && !s.rows[record.key].inProgress
    && record.hash == s.rows[record.key].hash && record.response == s.rows[record.key].response
  }

  predicate RequestOk(s: Sys, q: Request) {
    match q.pc
    case Reserved => Held(s, q) && !Started(s.runs, q.key)
    case Serving => Held(s, q) && Started(s.runs, q.key) && q.key !in s.responses
    case Finalizing(response) => Held(s, q) && q.key in s.responses && s.responses[q.key] == response
    case Storing(record, _) => Backed(s, record) && record.key == q.key && record.hash == q.hash
    case Finished(Replayed(record)) => Backed(s, record) && record.key == q.key && record.hash == q.hash
    case _ => true
  }

  /** The request's key is reserved under its hash and not finalized. */
  predicate Held(s: Sys, q: Request) {
    q.key in s.rows && s.rows[q.key].hash == q.hash && s.rows[q.key].inProgress
  }

  predicate RowOk(s: Sys, key: string)
    requires key in s.rows
  {
    !s.rows[key].inProgress ==> key in s.responses && s.responses[key] == s.rows[key].response
  }

  predicate EntryOk(s: Sys, key: string)
    requires key in s.cache
  {
    var env := s.cache[key];
    env.key == key && Backed(s, Record(env.key, env.hash, env.response, Redis))
  }

  ghost predicate Inv(s: Sys) {
    && (forall r | r in s.requests :: RequestOk(s, s.requests[r]))
    && (forall r1, r2, key | Owner(s, r1, key) && Owner(s, r2, key) :: r1 == r2)
    && (forall i, j | 0 <= i < j < |s.runs| :: s.runs[i].key != s.runs[j].key)
    && (forall i | 0 <= i < |s.runs| :: s.runs[i].key in s.rows && s.rows[s.runs[i].key].hash == s.runs[i].hash)
    && (forall key | key in s.responses :: Started(s.runs, key))
    && (forall key | key in s.rows :: RowOk(s, key))
    && (forall key | key in s.cache :: EntryOk(s, key))
  }

  /** What one step may do to the durable state: keys stay reserved under their hash, finalized rows
      and recorded responses never change, and the list of runs only grows. */
  ghost predicate Grows(s: Sys, s': Sys) {
    && (forall key | key in s.rows :: key in s'.rows && s'.rows[key].hash == s.rows[key].hash &&
                                      (!s.rows[key].inProgress ==> s'.rows[key] == s.rows[key]))
    && (forall key | key in s.responses :: key in s'.responses && s'.responses[key] == s.responses[key])
    && s.runs <= s'.runs
  }

  // ---- every step keeps the invariant ----

  /** Steps of a request that touch neither table, cache nor handler history. */
  lemma LocalStep(s: Sys, s': Sys, r: nat, q: Request)
    requires Inv(s) && s' == s.(requests := s.requests[r := q]) && RequestOk(s, q) && !Owns(q.pc)
    ensures Inv(s') && Grows(s, s')
  {
    forall r1, r2, key | Owner(s', r1, key) && Owner(s', r2, key) ensures r1 == r2 {
      assert Owner(s, r1, key) && Owner(s, r2, key);
    }
    forall k | k in s'.requests ensures RequestOk(s', s'.requests[k]) {
      assert k != r ==> RequestOk(s, s.requests[k]);
    }
    forall key | key in s'.rows ensures RowOk(s', key) {
      assert RowOk(s, key);
    }
    forall key | key in s'.cache ensures EntryOk(s', key) {
      assert EntryOk(s, key);
    }
  }

  lemma CacheStep(s: Sys, s': Sys)
    requires Inv(s) && s' == s.(cache := s'.cache)
    requires forall key | key in s'.cache :: (key in s.cache && s'.cache[key] == s.cache[key]) || EntryOk(s', key)
    ensures Inv(s') && Grows(s, s')
  {
    forall r1, r2, key | Owner(s', r1, key) && Owner(s', r2, key) ensures r1 == r2 {
      assert Owner(s, r1, key) && Owner(s, r2, key);
    }
    forall k | k in s'.requests ensures RequestOk(s', s'.requests[k]) {
      assert RequestOk(s, s.requests[k]);
    }
    forall key | key in s'.rows ensures RowOk(s', key) {
      assert RowOk(s, key);
    }
    forall key | key in s'.cache ensures EntryOk(s', key) {
      assert key in s.cache ==> EntryOk(s, key);
    }
  }

  lemma ReserveKeeps(s: Sys, r: nat, fault: bool)
    requires Inv(s) && r in s.requests && ReserveStep(s, r, fault).Some?
    ensures Inv(ReserveStep(s, r, fault).value) && Grows(s, ReserveStep(s, r, fault).value)
  {
    var q := s.requests[r];
    var s' := ReserveStep(s, r, fault).value;
    if fault || q.key in s.rows {
      LocalStep(s, s', r, s'.requests[r]);
    } else {
      assert !Started(s.runs, q.key);
      OneKey(s, s', r, q.key);
    }
  }

  /** A step of request `r` about one key leaves everything about other keys alone. */
  ghost predicate OnlyKey(s: Sys, s': Sys, r: nat, key: string) {
    && s'.cache == s.cache
    && r in s'.requests && s'.requests.Keys == s.requests.Keys + {r}
    && (forall k | k in s.requests && k != r :: s'.requests[k] == s.requests[k])
    && (forall k | k != key :: k in s'.rows <==> k in s.rows)
    && (forall k | k != key && k in s.rows :: s'.rows[k] == s.rows[k])
    && (forall k | k != key :: k in s'.responses <==> k in s.responses)
    && (forall k | k != key && k in s.responses :: s'.responses[k] == s.responses[k])
    && (s'.runs == s.runs || (|s'.runs| == |s.runs| + 1 && s.runs <= s'.runs && s'.runs[|s.runs|].key == key))
  }

  lemma StartedGrows(s: Sys, s': Sys, r: nat, key: string, k: string)
    requires OnlyKey(s, s', r, key) && k != key
    ensures Started(s'.runs, k) <==> Started(s.runs, k)
  {
    if Started(s.runs, k) {
      var i :| 0 <= i < |s.runs| && s.runs[i].key == k;
      assert s'.runs[i].key == k;
    }
    if Started(s'.runs, k) {
      var i :| 0 <= i < |s'.runs| && s'.runs[i].key == k;
      assert i < |s.runs| && s.runs[i].key == k;
    }
  }

  /** A step about one key by its owner keeps the invariant if it does so for that key. */
  lemma OneKey(s: Sys, s': Sys, r: nat, key: string)
    requires Inv(s) && OnlyKey(s, s', r, key) && s'.requests[r].key == key && RequestOk(s', s'.requests[r])
    requires key in s.rows ==>
               s.rows[key].inProgress && r in s.requests && Owns(s.requests[r].pc) && s.requests[r].key == key
    requires key in s'.rows && RowOk(s', key)
    requires key in s.rows ==> s'.rows[key].hash == s.rows[key].hash
    requires s'.runs != s.runs ==> !Started(s.runs, key) && s'.runs[|s.runs|].hash == s'.rows[key].hash
    requires key in s'.responses ==> Started(s'.runs, key)
    requires key in s.responses ==> key in s'.responses && s'.responses[key] == s.responses[key]
    ensures Inv(s') && Grows(s, s')
  {
    forall k | k in s'.requests ensures RequestOk(s', s'.requests[k]) {
      if k != r {
        OthersOk(s, s', r, key, k);
      }
    }
    forall k | k in s'.rows ensures RowOk(s', k) {
      assert k != key ==> RowOk(s, k);
    }
    forall k | k in s'.cache ensures EntryOk(s', k) {
      assert EntryOk(s, k);
    }
    forall k | k in s'.responses ensures Started(s'.runs, k) {
      if k != key {
        StartedGrows(s, s', r, key, k);
      }
    }
    forall r1, r2, k | Owner(s', r1, k) && Owner(s', r2, k) ensures r1 == r2
    {
      OneOwner(s, s', r, key, r1, r2, k);
    }
    RunsOk(s, s', r, key);
  }

  lemma OneOwner(s: Sys, s': Sys, r: nat, key: string, r1: nat, r2: nat, k: string)
    requires Inv(s) && OnlyKey(s, s', r, key) && s'.requests[r].key == key
    requires key in s.rows ==> r in s.requests && Owns(s.requests[r].pc) && s.requests[r].key == key
    requires Owner(s', r1, k) && Owner(s', r2, k)
    ensures r1 == r2
  {
    assert r1 != r ==> Owner(s, r1, k);
    assert r2 != r ==> Owner(s, r2, k);
    assert key in s.rows ==> Owner(s, r, key);
    assert r1 != r ==> RequestOk(s, s.requests[r1]);
    assert r2 != r ==> RequestOk(s, s.requests[r2]);
  }

  lemma RunsOk(s: Sys, s': Sys, r: nat, key: string)
    requires Inv(s) && OnlyKey(s, s', r, key) && key in s'.rows
    requires key in s.rows ==> s'.rows[key].hash == s.rows[key].hash
    requires s'.runs != s.runs ==> !Started(s.runs, key) && s'.runs[|s.runs|].hash == s'.rows[key].hash
    ensures forall i, j | 0 <= i < j < |s'.runs| :: s'.runs[i].key != s'.runs[j].key
    ensures forall i | 0 <= i < |s'.runs| ::
              s'.runs[i].key in s'.rows && s'.rows[s'.runs[i].key].hash == s'.runs[i].hash
  {
    forall i | 0 <= i < |s'.runs| ensures s'.runs[i].key in s'.rows && s'.rows[s'.runs[i].key].hash == s'.runs[i].hash {
      assert i < |s.runs| ==> s'.runs[i] == s.runs[i];
    }
    forall i, j | 0 <= i < j < |s'.runs| ensures s'.runs[i].key != s'.runs[j].key {
      assert s'.runs[i] == s.runs[i];
      assert j < |s.runs| ==> s'.runs[j] == s.runs[j];
    }
  }

  lemma OthersOk(s: Sys, s': Sys, r: nat, key: string, k: nat)
    requires Inv(s) && OnlyKey(s, s', r, key) && k in s.requests && k != r
    requires key in s.rows ==>
               s.rows[key].inProgress && r in s.requests && Owns(s.requests[r].pc) && s.requests[r].key == key
    ensures RequestOk(s', s'.requests[k])
  {
    var q := s.requests[k];
    assert RequestOk(s, q);
    if q.key != key {
      StartedGrows(s, s', r, key, q.key);
    } else if key in s.rows && Owns(q.pc) {
      assert Owner(s, k, key) && Owner(s, r, key);
    }
  }

  lemma StartKeeps(s: Sys, r: nat)
    requires Inv(s) && r in s.requests && Step(s, r, StartHandler(r)).Some?
    ensures Inv(Step(s, r, StartHandler(r)).value) && Grows(s, Step(s, r, StartHandler(r)).value)
  {
    var q := s.requests[r];
    var s' := Step(s, r, StartHandler(r)).value;
    assert RequestOk(s, q);
    assert s'.runs[|s.runs|].key == q.key;
    OneKey(s, s', r, q.key);
  }

  lemma EndKeeps(s: Sys, r: nat, response: Response)
    requires Inv(s) && r in s.requests && Step(s, r, EndHandler(r, response)).Some?
    ensures Inv(Step(s, r, EndHandler(r, response)).value) && Grows(s, Step(s, r, EndHandler(r, response)).value)
  {
    var q := s.requests[r];
    assert RequestOk(s, q);
    OneKey(s, Step(s, r, EndHandler(r, response)).value, r, q.key);
  }

  lemma FinalizeKeeps(s: Sys, r: nat, fault: bool)
    requires Inv(s) && r in s.requests && FinalizeStep(s, r, fault).Some?
    ensures Inv(FinalizeStep(s, r, fault).value) && Grows(s, FinalizeStep(s, r, fault).value)
  {
    var q := s.requests[r];
    var s' := FinalizeStep(s, r, fault).value;
    assert RequestOk(s, q);
    if fault {
      LocalStep(s, s', r, s'.requests[r]);
    } else {
      OneKey(s, s', r, q.key);
    }
  }

  lemma FillKeeps(s: Sys, r: nat, fault: bool)
    requires Inv(s) && r in s.requests && FillCacheStep(s, r, fault).Some?
    ensures Inv(FillCacheStep(s, r, fault).value) && Grows(s, FillCacheStep(s, r, fault).value)
  {
    var q := s.requests[r];
    assert RequestOk(s, q);
    var s' := FillCacheStep(s, r, fault).value;
    var mid := s.(requests := s'.requests);
    LocalStep(s, mid, r, s'.requests[r]);
    CacheStep(mid, s');
  }

  lemma CrashKeeps(s: Sys, s': Sys, r: nat)
    requires Inv(s) && s' == s.(requests := s.requests - {r})
    ensures Inv(s') && Grows(s, s')
  {
    forall r1, r2, key | Owner(s', r1, key) && Owner(s', r2, key) ensures r1 == r2 {
      assert Owner(s, r1, key) && Owner(s, r2, key);
    }
    forall k | k in s'.requests ensures RequestOk(s', s'.requests[k]) {
      assert RequestOk(s, s.requests[k]);
    }
    forall key | key in s'.rows ensures RowOk(s', key) {
      assert RowOk(s, key);
    }
    forall key | key in s'.cache ensures EntryOk(s', key) {
      assert EntryOk(s, key);
    }
  }

  lemma ReadCacheKeeps(s: Sys, r: nat, fault: bool)
    requires Inv(s) && r in s.requests && ReadCacheStep(s, r, fault).Some?
    ensures Inv(ReadCacheStep(s, r, fault).value) && Grows(s, ReadCacheStep(s, r, fault).value)
  {
    var s' := ReadCacheStep(s, r, fault).value;
    assert RequestOk(s, s'.requests[r]) by {
      assert s.requests[r].key in s.cache ==> EntryOk(s, s.requests[r].key);
    }
    LocalStep(s, s', r, s'.requests[r]);
  }

  lemma ReadTableLocal(s: Sys, r: nat, fault: bool)
    requires r in s.requests && ReadTableStep(s, r, fault).Some?
    ensures var s' := ReadTableStep(s, r, fault).value;
            && r in s'.requests && s' == s.(requests := s.requests[r := s'.requests[r]])
            && RequestOk(s, s'.requests[r]) && !Owns(s'.requests[r].pc)
  {
  }

  lemma ReadTableKeeps(s: Sys, r: nat, fault: bool)
    requires Inv(s) && r in s.requests && ReadTableStep(s, r, fault).Some?
    ensures Inv(ReadTableStep(s, r, fault).value) && Grows(s, ReadTableStep(s, r, fault).value)
  {
    var s' := ReadTableStep(s, r, fault).value;
    ReadTableLocal(s, r, fault);
    LocalStep(s, s', r, s'.requests[r]);
  }

  /** Any event keeps the invariant, and the durable state only grows. */
  lemma StepKeeps(s: Sys, e: Event)
    requires Inv(s) && Apply(s, e).Some?
    ensures Inv(Apply(s, e).value) && Grows(s, Apply(s, e).value)
  {
    if e.Arrive? || e.Poll? || e.Expire? || e.Crash? || e.LoseEntry? {
      IdleKeeps(s, e);
    } else {
      ServiceKeeps(s, e);
    }
  }

  lemma IdleKeeps(s: Sys, e: Event)
    requires Inv(s) && Apply(s, e).Some? && (e.Arrive? || e.Poll? || e.Expire? || e.Crash? || e.LoseEntry?)
    ensures Inv(Apply(s, e).value) && Grows(s, Apply(s, e).value)
  {
    var s' := Apply(s, e).value;
    match e
    case Arrive(r, key, hash) => LocalStep(s, s', r, s'.requests[r]);
    case Poll(r) => LocalStep(s, s', r, s'.requests[r]);
    case Expire(r) => LocalStep(s, s', r, s'.requests[r]);
    case Crash(r) => CrashKeeps(s, s', r);
    case LoseEntry(key) => CacheStep(s, s');
  }

  lemma ServiceKeeps(s: Sys, e: Event)
    requires Inv(s) && Apply(s, e).Some?
    requires !e.Arrive? && !e.Poll? && !e.Expire? && !e.Crash? && !e.LoseEntry?
    ensures Inv(Apply(s, e).value) && Grows(s, Apply(s, e).value)
  {
    match e
    case ReadCache(r, fault) => ReadCacheKeeps(s, r, fault);
    case ReadTable(r, fault) => ReadTableKeeps(s, r, fault);
    case Reserve(r, fault) => ReserveKeeps(s, r, fault);
    case StartHandler(r) => StartKeeps(s, r);
    case EndHandler(r, response) => EndKeeps(s, r, response);
    case Finalize(r, fault) => FinalizeKeeps(s, r, fault);
    case FillCache(r, fault) => FillKeeps(s, r, fault);
  }

  lemma {:induction false} RunKeeps(s: Sys, run: seq<Event>)
    requires Inv(s) && Exec(s, run).Some?
    ensures Inv(Exec(s, run).value) && Grows(s, Exec(s, run).value)
    decreases |run|
  {
    if run != [] {
      StepKeeps(s, run[0]);
      RunKeeps(Apply(s, run[0]).value, run[1..]);
    }
  }

  // ---- what the protocol promises ----

  /** For any interleaving of requests, faults, crashes and cache losses: the wrapped handler starts
      at most once per key. */
  lemma HandlerRunsOnce(s: Sys, run: seq<Event>, i: nat, j: nat)
    requires Init(s) && Exec(s, run).Some?
    requires i < |Exec(s, run).value.runs| && j < |Exec(s, run).value.runs|
    ensures Exec(s, run).value.runs[i].key == Exec(s, run).value.runs[j].key ==> i == j
  {
    RunKeeps(s, run);
  }

  /** A replay carries the response of the one run of its key, and that run was started by a request
      with the same hash. */
  lemma ReplayIsTheRun(s: Sys, run: seq<Event>, r: nat)
    requires Init(s) && Exec(s, run).Some?
    requires r in Exec(s, run).value.requests && Exec(s, run).value.requests[r].pc.Finished?
    requires Exec(s, run).value.requests[r].pc.outcome.Replayed?
    ensures var s' := Exec(s, run).value;
            var q := s'.requests[r];
            var record := q.pc.outcome.record;
            && record.key == q.key && q.key in s'.responses && record.response == s'.responses[q.key]
            && (forall i | 0 <= i < |s'.runs| && s'.runs[i].key == q.key :: s'.runs[i].hash == q.hash)
            && Started(s'.runs, q.key)
  {
    RunKeeps(s, run);
    var s' := Exec(s, run).value;
    assert RequestOk(s', s'.requests[r]);
    assert RowOk(s', s'.requests[r].key);
  }

  /** Reading through the cache answers as the table alone would, up to the layer named. */
  lemma CacheRefines(s: Sys, run: seq<Event>, key: string, hash: string)
    requires Init(s) && Exec(s, run).Some?
    ensures SameAnswer(CachedLookup(Exec(s, run).value.cache, Exec(s, run).value.rows, key, hash),
                       TableLookup(Exec(s, run).value.rows, key, hash))
  {
    RunKeeps(s, run);
    var s' := Exec(s, run).value;
    if key in s'.cache {
      assert EntryOk(s', key);
    }
  }

  /** Once a lookup finds a record, every later lookup in any run finds the same one. */
  lemma FoundForever(s: Sys, run: seq<Event>, key: string, hash: string)
    requires Inv(s) && Exec(s, run).Some? && TableLookup(s.rows, key, hash).Found?
    ensures TableLookup(Exec(s, run).value.rows, key, hash) == TableLookup(s.rows, key, hash)
  {
    RunKeeps(s, run);
  }

  /** The key is reserved, not finalized, and nobody is left to finalize it. */
  ghost predicate Orphaned(s: Sys, key: string) {
    && key in s.rows && s.rows[key].inProgress
    && forall r | r in s.requests && s.requests[r].key == key :: !Owns(s.requests[r].pc)
  }

  lemma OrphanStep(s: Sys, e: Event, key: string)
    requires Orphaned(s, key) && Apply(s, e).Some?
    ensures OrphanKept(s, Apply(s, e).value, key)
  {
    match e
    case StartHandler(r) => OrphanUnstarted(s, r, key);
    case Reserve(r, fault) => OrphanUnreserved(s, r, fault, key);
    case Finalize(r, fault) => OrphanUnfinalized(s, r, fault, key);
    case EndHandler(r, response) => OrphanUnanswered(s, r, response, key);
    case ReadCache(r, fault) => OrphanUncached(s, r, fault, key);
    case ReadTable(_, _) => OrphanUnread(s, e, key);
    case FillCache(_, _) => OrphanUnread(s, e, key);
    case _ => OrphanIdle(s, e, key);
  }

  ghost predicate OrphanKept(s: Sys, s': Sys, key: string)
    requires key in s.rows
  {
    Orphaned(s', key) && s'.rows[key] == s.rows[key] && (Started(s'.runs, key) <==> Started(s.runs, key))
  }

  /** Only the reserving request starts a handler, and it owns another key. */
  lemma OrphanUnstarted(s: Sys, r: nat, key: string)
    requires Orphaned(s, key) && Apply(s, StartHandler(r)).Some?
    ensures OrphanKept(s, Apply(s, StartHandler(r)).value, key)
  {
    var s' := Apply(s, StartHandler(r)).value;
    assert s.requests[r].key != key;
    if Started(s.runs, key) {
      var i :| 0 <= i < |s.runs| && s.runs[i].key == key;
      assert s'.runs[i].key == key;
    }
  }

  lemma OrphanUnreserved(s: Sys, r: nat, fault: bool, key: string)
    requires Orphaned(s, key) && Apply(s, Reserve(r, fault)).Some?
    ensures OrphanKept(s, Apply(s, Reserve(r, fault)).value, key)
  {
  }

  lemma OrphanUnfinalized(s: Sys, r: nat, fault: bool, key: string)
    requires Orphaned(s, key) && Apply(s, Finalize(r, fault)).Some?
    ensures OrphanKept(s, Apply(s, Finalize(r, fault)).value, key)
  {
    assert s.requests[r].key != key;
  }

  lemma OrphanUnanswered(s: Sys, r: nat, response: Response, key: string)
    requires Orphaned(s, key) && Apply(s, EndHandler(r, response)).Some?
    ensures OrphanKept(s, Apply(s, EndHandler(r, response)).value, key)
  {
  }

  lemma OrphanUncached(s: Sys, r: nat, fault: bool, key: string)
    requires Orphaned(s, key) && Apply(s, ReadCache(r, fault)).Some?
    ensures OrphanKept(s, Apply(s, ReadCache(r, fault)).value, key)
  {
  }

  lemma OrphanUnread(s: Sys, e: Event, key: string)
    requires Orphaned(s, key) && Apply(s, e).Some? && (e.ReadTable? || e.FillCache?)
    ensures OrphanKept(s, Apply(s, e).value, key)
  {
  }

  lemma OrphanIdle(s: Sys, e: Event, key: string)
    requires Orphaned(s, key) && Apply(s, e).Some?
    requires e.Arrive? || e.Poll? || e.Expire? || e.Crash? || e.LoseEntry?
    ensures OrphanKept(s, Apply(s, e).value, key)
  {
  }

  /** A holder that vanished, or lost its finalizing write, blocks its key for good: the handler never
      runs again for it and no request is ever answered with a replay. */
  lemma {:induction false} OrphanBlocks(s: Sys, run: seq<Event>, key: string, r: nat)
    requires Inv(s) && Orphaned(s, key) && Exec(s, run).Some?
    ensures Orphaned(Exec(s, run).value, key)
    ensures Started(Exec(s, run).value.runs, key) <==> Started(s.runs, key)
    ensures r in Exec(s, run).value.requests && Exec(s, run).value.requests[r].key == key && Exec(s,
            run).value.requests[r].pc.Finished? ==>
              !Exec(s, run).value.requests[r].pc.outcome.Replayed?
    decreases |run|
  {
    if run == [] {
      assert r in s.requests ==> RequestOk(s, s.requests[r]);
    } else {
      StepKeeps(s, run[0]);
      OrphanStep(s, run[0], key);
      OrphanBlocks(Apply(s, run[0]).value, run[1..], key, r);
    }
  }
}
