/** The idempotency middleware: one request from arrival to answer. */
module Middleware {
  import opened Results
  import opened Idempotency
  import opened IdempotencyStore
  import opened Traces
  import opened Recorder

  datatype Method = GET | HEAD | POST | PUT | PATCH | DELETE | OTHER

  predicate Mutating(m: Method) {
    m == POST || m == PUT || m == PATCH || m == DELETE
  }

  /** How a request is answered. `Direct` requests bypass the store. */
  datatype Reply =
    | Direct
    | MissingKey
    | InvalidBody
    | Replay(record: Record)
    | KeyMismatch
    | InProgressConflict
    | StoreUnavailable
    | Fresh(response: Response)

  /** What is kept of a handler's response: the last header it wrote, every byte, and its content type. */
  predicate Recorded(response: Response, calls: seq<Call>, contentType: string) {
    && response.status == OrOk(RecordedStatus(calls)) && response.body == Written(calls)
    && response.contentType == if contentType == "" then "application/json" else contentType
  }

  /** The one run of a key's handler was started under this hash, and answered like this. */
  ghost predicate Answers(s: Sys, key: string, hash: string, response: Response) {
    && key in s.responses && s.responses[key] == response
    && Started(s.runs, key)
    && (forall i | 0 <= i < |s.runs| && s.runs[i].key == key :: s.runs[i].hash == hash)
    && (forall i, j | 0 <= i < j < |s.runs| :: s.runs[i].key != s.runs[j].key)
  }

  /** The wrapped handler makes any calls; the response is read off the recorder. */
  method CallHandler() returns (response: Response, calls: seq<Call>, contentType: string)
    ensures Recorded(response, calls, contentType)
  {
    calls, contentType := *, *;
    var recorder := new BodyRecorder();
    recorder.Serve(calls);
    response := Response(if recorder.status == 0 then 200 else recorder.status, recorder.body,
                         if contentType == "" then "application/json" else contentType);
  }

  /** Runs the wrapped handler behind a recorder. What it writes is up to the handler. */
  method RunHandler(store: IdemStore, r: nat, key: string, hash: string)
    returns (response: Response, calls: seq<Call>, contentType: string)
    requires store.Valid() && store.At(r, key, hash, Reserved)
    modifies store
    ensures store.Went() && store.Smooth() && store.At(r, key, hash, Finalizing(response)) && RanBy(store.sys.runs, r)
    ensures Answers(store.sys, key, hash, response) && Recorded(response, calls, contentType)
  {
    store.Yield(r);
    RanBySnoc(store.sys.runs, HandlerRun(r, key, hash), r);
    store.Record(StartHandler(r));
    response, calls, contentType := CallHandler();
    store.Yield(r);
    store.Record(EndHandler(r, response));
    FinalizingAnswers(store.hist, store.sys, r);
  }

  /** Where a request that went to the store ends with each reply. */
  function OutcomeOf(reply: Reply): Outcome
    requires !reply.Direct? && !reply.MissingKey? && !reply.InvalidBody?
  {
    match reply
    case Replay(record) => Replayed(record)
    case KeyMismatch => KeyConflict
    case InProgressConflict => Busy
    case StoreUnavailable => Unavailable
    case Fresh(_) => Answered
  }

  /** What each reply says about the key: a replay carries the response of the key's one handler run, for the
      same request hash; a fresh reply is that run. */
  ghost predicate Truthful(s: Sys, key: string, hash: string, reply: Reply) {
    match reply
    case Replay(record) =>
      && record.key == key && record.hash == hash && Answers(s, key, hash, record.response)
      && SameAnswer(Found(record), TableLookup(s.rows, key, hash))
    case Fresh(response) => Answers(s, key, hash, response)
    case KeyMismatch => key in s.rows && s.rows[key].hash != hash
    case _ => true
  }

  /** What a reply must be when no read or write fails: `was` is the table when the request came in and `now`
      when it is answered. A record on file is replayed and a key taken for another request refused; a fresh
      response is on file; nobody is turned away from a record, or from a free key. */
  predicate Due(was: map<string, Row>, now: map<string, Row>, key: string, hash: string, reply: Reply) {
    && (key in was && was[key].hash == hash && !was[key].inProgress ==>
          reply.Replay? && reply.record.response == was[key].response)
    && (key in was && was[key].hash != hash ==> reply == KeyMismatch)
    && match reply
       case Fresh(response) => key in now && now[key] == Row(hash, response, false)
       case InProgressConflict => key in now && (now[key].hash != hash || now[key].inProgress)
       case StoreUnavailable => false
       case _ => true
  }

  /** Answers one request. This request runs the handler exactly when its reply is fresh. Without a fault a
      request is told to come back only when the key's row is another request's, or is still being worked
      on after all the polls this request had. */
  method Handle(store: IdemStore, r: nat, m: Method, key: string, hash: string, readable: bool, ticks: nat)
    returns (reply: Reply)
    requires store.Valid() && r !in store.sys.requests && !RanBy(store.sys.runs, r)
    modifies store
    ensures store.Went()
    ensures reply.Direct? <==> m == GET || m == HEAD || m == OTHER
    ensures reply.MissingKey? <==> Mutating(m) && key == ""
    ensures reply.InvalidBody? <==> Mutating(m) && key != "" && !readable
    ensures reply.Direct? || reply.MissingKey? || reply.InvalidBody? ==> store.sys == old(store.sys)
    ensures Truthful(store.sys, key, hash, reply)
    ensures RanBy(store.sys.runs, r) <==> reply.Fresh?
    ensures reply.StoreUnavailable? ==> !store.Smooth()
    ensures Mutating(m) && key != "" && readable ==> store.At(r, key, hash, Finished(OutcomeOf(reply)))
    ensures Mutating(m) && key != "" && readable && store.Smooth() ==>
              Due(old(store.rows), store.rows, key, hash, reply)
    ensures reply.InProgressConflict? && store.Smooth() ==> store.GaveUp(key, hash, r, ticks)
  {
    if !Mutating(m) {
      return Direct;
    }
    if key == "" {
      return MissingKey;
    }
    if !readable {
      return InvalidBody;
    }
    store.Record(Arrive(r, key, hash));
    reply := HandleKeyed(store, r, key, hash, ticks);
  }

  method HandleKeyed(store: IdemStore, r: nat, key: string, hash: string, ticks: nat) returns (reply: Reply)
    requires store.Valid() && store.At(r, key, hash, ReadingCache(false)) && !RanBy(store.sys.runs, r)
    modifies store
    ensures store.Went() && !reply.Direct? && !reply.MissingKey? && !reply.InvalidBody?
    ensures Truthful(store.sys, key, hash, reply)
    ensures RanBy(store.sys.runs, r) <==> reply.Fresh?
    ensures reply.StoreUnavailable? ==> !store.Smooth()
    ensures store.At(r, key, hash, Finished(OutcomeOf(reply)))
    ensures store.Smooth() ==>
              Due(old(store.rows), store.rows, key, hash, reply)
    ensures reply.InProgressConflict? && store.Smooth() ==> store.GaveUp(key, hash, r, ticks)
  {
    var found := store.Lookup(r, key, hash, false);
    AnswerLasts(old(store.hist), old(store.sys), store.hist, store.sys, key, hash);
    if found.Some? && found.value.Found? {
      ReplayAnswers(store.hist, store.sys, r);
      return Replay(found.value.record);
    }
    if found == Some(HashMismatch) {
      return KeyMismatch;
    }
    if found == Some(StillRunning) {
      reply := Await(store, r, key, hash, ticks);
      return;
    }
    reply := ReserveAndRun(store, r, key, hash, ticks);
  }

  method ReserveAndRun(store: IdemStore, r: nat, key: string, hash: string, ticks: nat) returns (reply: Reply)
    requires store.Valid() && store.At(r, key, hash, Reserving) && !RanBy(store.sys.runs, r)
    modifies store
    ensures store.Went() && (reply.StoreUnavailable? || reply.Replay? || reply.InProgressConflict? || reply.Fresh?)
    ensures Truthful(store.sys, key, hash, reply)
    ensures RanBy(store.sys.runs, r) <==> reply.Fresh?
    ensures reply.StoreUnavailable? ==> !store.Smooth()
    ensures store.At(r, key, hash, Finished(OutcomeOf(reply)))
    ensures store.Smooth() ==> Due(map[], store.rows, key, hash, reply)
    ensures reply.InProgressConflict? && store.Smooth() ==> store.GaveUp(key, hash, r, ticks)
  {
    var reserved := store.Reserve(r, key, hash);
    if reserved.Err? {
      return StoreUnavailable;
    }
    if !reserved.value {
      reply := Await(store, r, key, hash, ticks);
      return;
    }
    var response, _, _ := RunHandler(store, r, key, hash);
    ghost var was, s := store.hist, store.sys;
    var _ := store.Finalize(r, key, hash, response);
    AnswersLast(was, s, store.hist, store.sys, key, hash, response);
    reply := Fresh(response);
  }

  /** Waits for the key's record. A record found is the record replayed. */
  method Await(store: IdemStore, r: nat, key: string, hash: string, ticks: nat) returns (reply: Reply)
    requires store.Valid() && store.At(r, key, hash, ReadingCache(true)) && key in store.rows
    modifies store
    ensures store.Went() && store.Unrun(r)
    ensures reply.Replay? || reply.InProgressConflict?
    ensures Truthful(store.sys, key, hash, reply)
    ensures store.At(r, key, hash, Finished(OutcomeOf(reply)))
    ensures key in store.rows && (store.Smooth() ==> Due(map[], store.rows, key, hash, reply))
    ensures reply.InProgressConflict? && store.Smooth() ==> store.GaveUp(key, hash, r, ticks)
  {
    var record := store.WaitForCompletion(r, key, hash, ticks);
    AnswerLasts(old(store.hist), old(store.sys), store.hist, store.sys, key, hash);
    if record.None? {
      return InProgressConflict;
    }
    ReplayAnswers(store.hist, store.sys, r);
    reply := Replay(record.value);
  }

  lemma ReplayAnswers(hist: History, s: Sys, r: nat)
    requires Reached(hist, s) && r in s.requests && s.requests[r].pc.Finished? && s.requests[r].pc.outcome.Replayed?
    ensures var q := s.requests[r];
            var record := q.pc.outcome.record;
            record.key == q.key && record.hash == q.hash && Answers(s, q.key, q.hash, record.response)
  {
    ReachedInv(hist, s);
    assert RequestOk(s, s.requests[r]);
    assert RowOk(s, s.requests[r].key);
  }

  /** What a key's run answered never changes. */
  lemma AnswersLast(was: History, s: Sys, hist: History, s': Sys, key: string, hash: string, response: Response)
    requires Reached(was, s) && Reached(hist, s') && Extends(was, hist) && Answers(s, key, hash, response)
    ensures Answers(s', key, hash, response)
  {
    ReachedInv(hist, s');
    ReachedGrows(was, s, hist, s');
    var k :| 0 <= k < |s.runs| && s.runs[k].key == key;
    assert s'.runs[k] == s.runs[k];
  }

  lemma FinalizingAnswers(hist: History, s: Sys, r: nat)
    requires Reached(hist, s) && r in s.requests && s.requests[r].pc.Finalizing?
    ensures Answers(s, s.requests[r].key, s.requests[r].hash, s.requests[r].pc.response)
  {
    ReachedInv(hist, s);
    assert RequestOk(s, s.requests[r]);
  }
}
