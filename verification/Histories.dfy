/** Facts about the history of one worker among others: whole runs, seen from a program point. */
module Histories {
  import opened Results
  import opened Tables
  import opened Runs
  import opened Schema
  import opened Steps
  import opened PayoutProtocol
  import opened SingleHolder
  import opened Traces

  /** The claim a step belongs to, if a worker takes it. */
  function Own(e: Event): Option<Holder> {
    match e
    case DoClaim(h) => Some(h)
    case DoRequeue(h) => Some(h)
    case GatewayTakes(h) => Some(h)
    case GatewayAccepts(h, _) => Some(h)
    case GatewayRefuses(h) => Some(h)
    case DoSettle(h) => Some(h)
    case SettleAborts(h) => Some(h)
    case MarkReview(h) => Some(h)
    case AuditReview(h) => Some(h)
    case DoFail(h) => Some(h)
    case FailAborts(h) => Some(h)
    case Fallback(h, _) => Some(h)
    case GiveUp(h) => Some(h)
    case _ => None
  }

  /** The worker that takes a step, if a worker does. */
  function By(e: Event): Option<nat> {
    if Own(e).Some? then Some(Own(e).value.worker) else None
  }

  /** What a worker has done about one payout, in order. */
  function Mine(run: seq<Event>, h: Holder): seq<Event> {
    if run == [] then []
    else Mine(run[..|run| - 1], h) + (if Own(run[|run| - 1]) == Some(h) then [run[|run| - 1]] else [])
  }

  lemma {:induction false} MineAppend(run: seq<Event>, more: seq<Event>, h: Holder)
    ensures Mine(run + more, h) == Mine(run, h) + Mine(more, h)
    decreases |more|
  {
    if more == [] {
      assert run + more == run;
    } else {
      assert (run + more)[..|run + more| - 1] == run + more[..|more| - 1];
      MineAppend(run, more[..|more| - 1], h);
    }
  }

  lemma {:induction false} MineNone(run: seq<Event>, h: Holder)
    requires forall i | 0 <= i < |run| :: Own(run[i]) != Some(h)
    ensures Mine(run, h) == []
    decreases |run|
  {
    if run != [] {
      MineNone(run[..|run| - 1], h);
    }
  }

  /** The events a batch is accountable for: taking a payout, having it accepted, losing a fallback write. */
  datatype Mark = Take | Send | Lose

  predicate Marks(e: Event, m: Mark, h: Holder) {
    match m
    case Take => e == DoClaim(h)
    case Send => e.GatewayAccepts? && e.h == h
    case Lose => e == Fallback(h, false)
  }

  function Times(run: seq<Event>, m: Mark, h: Holder): nat {
    if run == [] then 0
    else Times(run[..|run| - 1], m, h) + (if Marks(run[|run| - 1], m, h) then 1 else 0)
  }

  lemma {:induction false} TimesAppend(run: seq<Event>, more: seq<Event>, m: Mark, h: Holder)
    ensures Times(run + more, m, h) == Times(run, m, h) + Times(more, m, h)
    decreases |more|
  {
    if more == [] {
      assert run + more == run;
    } else {
      assert (run + more)[..|run + more| - 1] == run + more[..|more| - 1];
      TimesAppend(run, more[..|more| - 1], m, h);
    }
  }

  lemma {:induction false} TimesNone(run: seq<Event>, m: Mark, h: Holder)
    requires forall i | 0 <= i < |run| :: !Marks(run[i], m, h)
    ensures Times(run, m, h) == 0
    decreases |run|
  {
    if run != [] {
      TimesNone(run[..|run| - 1], m, h);
    }
  }

  // ---- histories: a run together with the states it passes through ----

  type History = Path<Sys, Event>

  ghost predicate StepAt(hist: History, i: nat) {
    i < |hist.events| && i + 1 < |hist.states| && Next(hist.states[i], hist.events[i], hist.states[i + 1])
  }

  predicate TameAt(hist: History, i: nat) {
    i < |hist.events| && i < |hist.states| && Tame(hist.states[i], hist.events[i])
  }

  ghost predicate BeginsAt(hist: History, i: nat) {
    i < |hist.states| && ProtocolInv(hist.states[i])
  }

  /** It begins in a state of the protocol, and each event leads to the next state. */
  ghost predicate Lawful(hist: History) {
    && |hist.states| == |hist.events| + 1
    && (forall i: nat | i == 0 :: BeginsAt(hist, i))
    && (forall i: nat | i < |hist.events| :: StepAt(hist, i))
  }

  /** A history of the protocol that has led to `s`. */
  ghost predicate Reached(hist: History, s: Sys) {
    Lawful(hist) && hist.states[|hist.events|] == s
  }

  /** Every event so far met the protocol's hypotheses. */
  ghost predicate Calm(hist: History) {
    forall i: nat | i < |hist.events| :: TameAt(hist, i)
  }

  predicate SingleAt(hist: History, p: Uuid, i: nat) {
    i < |hist.events| && i < |hist.states| && SingleOn(hist.states[i], hist.events[i], p)
  }

  /** No recovery of this payout so far found it held. Nothing is asked of other payouts. */
  ghost predicate Steady(hist: History, p: Uuid) {
    forall i: nat | i < |hist.events| :: SingleAt(hist, p, i)
  }

  lemma ThenReached(hist: History, s: Sys, e: Event, s': Sys)
    requires Reached(hist, s) && Next(s, e, s')
    ensures Reached(Then(hist, e, s'), s')
    ensures Calm(Then(hist, e, s')) <==> Calm(hist) && Tame(s, e)
  {
    ThenLawful(hist, s, e, s');
    ThenCalm(hist, s, e, s');
  }

  lemma ThenLawful(hist: History, s: Sys, e: Event, s': Sys)
    requires Reached(hist, s) && Next(s, e, s')
    ensures Lawful(Then(hist, e, s'))
  {
    var n, next := |hist.events|, Then(hist, e, s');
    assert BeginsAt(hist, 0);
    forall i: nat | i < n + 1 ensures StepAt(next, i) {
      assert i < n ==> StepAt(hist, i);
    }
  }

  lemma ThenCalm(hist: History, s: Sys, e: Event, s': Sys)
    requires Reached(hist, s)
    ensures Calm(Then(hist, e, s')) <==> Calm(hist) && Tame(s, e)
  {
    var n, next := |hist.events|, Then(hist, e, s');
    assert TameAt(next, n) <==> Tame(s, e);
    if Calm(hist) && Tame(s, e) {
      forall i: nat | i < n + 1 ensures TameAt(next, i) {
        assert i < n ==> TameAt(hist, i);
      }
    }
    if Calm(next) {
      forall i: nat | i < n ensures TameAt(hist, i) {
        assert TameAt(next, i);
      }
    }
  }

  lemma NextReached(hist: History, s: Sys, e: Event, s': Sys)
    requires Reached(hist, s) && Next(s, e, s')
    ensures Reached(Then(hist, e, s'), s') && (Calm(Then(hist, e, s')) ==> Calm(hist))
    ensures forall p :: Steady(Then(hist, e, s'), p) ==> Steady(hist, p)
  {
    ThenReached(hist, s, e, s');
    forall p ensures Steady(Then(hist, e, s'), p) ==> Steady(hist, p) {
      ThenSteady(hist, s, e, s', p);
    }
  }

  lemma NextAllReached(hist: History, s: Sys, events: seq<Event>, s': Sys) returns (more: History)
    requires Reached(hist, s) && NextAll(s, events, s')
    ensures Reached(more, s') && Extends(hist, more) && more.events == hist.events + events
    ensures Calm(more) ==> Calm(hist)
    ensures forall p :: Steady(more, p) ==> Steady(hist, p)
  {
    assert NextAllAt(s, events, s', 0);
    more := Onward(hist, s, events);
    OnwardReached(hist, s, events);
    OnwardExtends(hist, s, events);
    forall p ensures Steady(more, p) ==> Steady(hist, p) {
      OnwardSteady(hist, s, events, p);
    }
  }

  lemma ThenSteady(hist: History, s: Sys, e: Event, s': Sys, p: Uuid)
    requires Reached(hist, s) && Next(s, e, s')
    ensures Steady(Then(hist, e, s'), p) <==> Steady(hist, p) && SingleOn(s, e, p)
  {
    var n := |hist.events|;
    var next := Then(hist, e, s');
    assert SingleAt(next, p, n) <==> SingleOn(s, e, p);
    if Steady(hist, p) && SingleOn(s, e, p) {
      forall i: nat | i < n + 1 ensures SingleAt(next, p, i) {
        assert i < n ==> SingleAt(hist, p, i);
      }
    }
    if Steady(next, p) {
      forall i: nat | i < n ensures SingleAt(hist, p, i) {
        assert SingleAt(next, p, i);
      }
    }
  }

  /** The history that continues with a whole run. */
  function Onward(hist: History, s: Sys, more: seq<Event>): History
    requires Exec(s, more).Some?
    decreases |more|
  {
    if more == [] then hist
    else
      var s1 := Apply(s, more[0]).value;
      Onward(Then(hist, more[0], s1), s1, more[1..])
  }

  lemma {:induction false} OnwardExtends(hist: History, s: Sys, more: seq<Event>)
    requires Exec(s, more).Some?
    ensures Onward(hist, s, more).events == hist.events + more && hist.states <= Onward(hist, s, more).states
    decreases |more|
  {
    if more != [] {
      var s1 := FirstStep(s, more);
      OnwardExtends(Then(hist, more[0], s1), s1, more[1..]);
      assert hist.events + [more[0]] + more[1..] == hist.events + more;
    }
  }

  lemma {:induction false} OnwardReached(hist: History, s: Sys, more: seq<Event>)
    requires Reached(hist, s) && Exec(s, more).Some?
    ensures Reached(Onward(hist, s, more), Exec(s, more).value)
    ensures Calm(Onward(hist, s, more)) <==> Calm(hist) && Along(s, more, Tame)
    decreases |more|
  {
    if more == [] {
      assert Onward(hist, s, more) == hist && Exec(s, more) == Some(s) && Along(s, more, Tame);
    } else {
      var s1 := FirstStep(s, more);
      ThenReached(hist, s, more[0], s1);
      OnwardReached(Then(hist, more[0], s1), s1, more[1..]);
    }
  }

  lemma {:induction false} OnwardSteady(hist: History, s: Sys, more: seq<Event>, p: Uuid)
    requires Reached(hist, s) && Exec(s, more).Some?
    ensures Steady(Onward(hist, s, more), p) <==> Steady(hist, p) && Along(s, more, Single(p))
    decreases |more|
  {
    if more == [] {
      assert Onward(hist, s, more) == hist && Along(s, more, Single(p));
    } else {
      var s1 := FirstStep(s, more);
      ThenReached(hist, s, more[0], s1);
      ThenSteady(hist, s, more[0], s1, p);
      OnwardSteady(Then(hist, more[0], s1), s1, more[1..], p);
    }
  }

  /** What holds at the start and is kept by every event, or every tame event, holds now. */
  lemma {:induction false} HistoryKeeps(hist: History, n: nat)
    requires Lawful(hist) && n < |hist.states|
    ensures Wellformed(hist.states[n])
    ensures Calm(hist) ==> ProtocolInv(hist.states[n])
  {
    if n == 0 {
      assert BeginsAt(hist, 0);
    } else {
      HistoryKeeps(hist, n - 1);
      assert StepAt(hist, n - 1);
      WellformedStep(hist.states[n - 1], hist.events[n - 1], hist.states[n]);
      if Calm(hist) {
        assert TameAt(hist, n - 1);
        ProtocolStep(hist.states[n - 1], hist.events[n - 1], hist.states[n]);
      }
    }
  }

  lemma {:induction false} HistoryHolds(hist: History, p: Uuid, n: nat)
    requires Lawful(hist) && n < |hist.states| && Steady(hist, p)
    ensures HeldOk(hist.states[n], p)
  {
    if n == 0 {
      HeldFirst(hist, p);
    } else {
      HistoryHolds(hist, p, n - 1);
      HeldNext(hist, p, n - 1);
    }
  }

  lemma HeldFirst(hist: History, p: Uuid)
    requires Lawful(hist)
    ensures HeldOk(hist.states[0], p)
  {
    assert BeginsAt(hist, 0);
    ProtocolHeld(hist.states[0], p);
  }

  lemma HeldNext(hist: History, p: Uuid, n: nat)
    requires Lawful(hist) && n < |hist.events| && Steady(hist, p) && HeldOk(hist.states[n], p)
    ensures HeldOk(hist.states[n + 1], p)
  {
    HistoryKeeps(hist, n);
    assert StepAt(hist, n) && SingleAt(hist, p, n);
    HeldStepIff(hist.states[n], hist.events[n], hist.states[n + 1], p);
  }

  // ---- what others leave alone ----

  lemma OtherStep(s: Sys, e: Event, s': Sys, w: nat, p: Uuid)
    requires Next(s, e, s') && By(e) != Some(w)
    ensures Holder(w, p) in s'.claims <==> Holder(w, p) in s.claims
    ensures Holder(w, p) in s.claims ==> s'.claims[Holder(w, p)] == s.claims[Holder(w, p)]
  {
    StepFramed(s, e, s');
  }

  predicate NotBy(w: nat, more: seq<Event>) {
    forall i | 0 <= i < |more| :: By(more[i]) != Some(w)
  }

  /** Steps of other processes neither take nor move this worker's claims. */
  lemma {:induction false} OthersKeep(s: Sys, more: seq<Event>, w: nat, p: Uuid)
    requires Exec(s, more).Some? && NotBy(w, more)
    ensures Holder(w, p) in Exec(s, more).value.claims <==> Holder(w, p) in s.claims
    ensures Holder(w, p) in s.claims ==> Exec(s, more).value.claims[Holder(w, p)] == s.claims[Holder(w, p)]
    decreases |more|
  {
    if more != [] {
      assert By(more[0]) != Some(w);
      var s1 := FirstStep(s, more);
      OtherStep(s, more[0], s1, w, p);
      OthersKeep(s1, more[1..], w, p);
    }
  }

  // ---- where a payout rests ----

  /** What an outcome left behind still says about the payout's row later. */
  predicate Rests(db: Db, p: Uuid, end: Status) {
    && (Final(end) ==> p in db.payouts && db.payouts[p].status == end)
    && (end == ManualReview ==> p in db.payouts && Parked(db.payouts[p].status))
  }

  lemma RestsStep(s: Sys, e: Event, s': Sys, p: Uuid, end: Status)
    requires Wellformed(s) && HeldOk(s, p) && Next(s, e, s') && Rests(s.db, p, end)
    ensures Rests(s'.db, p, end)
  {
    if Final(end) {
      FinalStays(s, e, s', p);
    } else if end == ManualReview {
      ParkedStays(s, e, s', p);
    }
  }

  /** An outcome left behind lasts through all later steps, unless a recovery finds this payout held. */
  lemma {:induction false} RestsOn(hist: History, k: nat, n: nat, p: Uuid, end: Status)
    requires Lawful(hist) && k <= n < |hist.states| && Steady(hist, p)
    requires Rests(hist.states[k].db, p, end)
    ensures Rests(hist.states[n].db, p, end)
  {
    if k < n {
      RestsOn(hist, k, n - 1, p, end);
      RestsNext(hist, n - 1, p, end);
    }
  }

  lemma RestsNext(hist: History, n: nat, p: Uuid, end: Status)
    requires Lawful(hist) && n < |hist.events| && Steady(hist, p)
    requires Rests(hist.states[n].db, p, end)
    ensures Rests(hist.states[n + 1].db, p, end)
  {
    HistoryKeeps(hist, n);
    HistoryHolds(hist, p, n);
    assert StepAt(hist, n);
    RestsStep(hist.states[n], hist.events[n], hist.states[n + 1], p, end);
  }

  // ---- where a worker left a payout ----

  /** At this point of the history the claim is gone and the row has the status the worker left it in,
      or its review has been resolved. */
  ghost predicate LeftAt(hist: History, j: nat, h: Holder, end: Status) {
    && j < |hist.states| && h !in hist.states[j].claims && h.payout in hist.states[j].db.payouts
    && var now := hist.states[j].db.payouts[h.payout].status;
       now == end || (end == ManualReview && Final(now))
  }

  ghost predicate Left(hist: History, from: nat, h: Holder, end: Status) {
    exists j: nat | from <= j :: LeftAt(hist, j, h, end)
  }

  lemma LeftLater(hist: History, more: History, from: nat, h: Holder, end: Status)
    requires Left(hist, from, h, end) && Extends(hist, more)
    ensures Left(more, from, h, end)
  {
    var j: nat :| from <= j && LeftAt(hist, j, h, end);
    assert more.states[j] == hist.states[j];
    assert LeftAt(more, j, h, end);
  }
}
