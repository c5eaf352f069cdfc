/**
 Any number of concurrent database transactions that lock account rows and the unique reference of a new
 transaction row, and hold everything until they end. Transfers, exchanges and payout requests take their
 accounts in ascending order and the reference last. Deposits and settlements take the user's row first
 and the system's row last, in whatever order the two ids stand.
 */
module Deadlock {
  import opened Tables
  import opened LockOrder

  /** `Settle` is also the retry of a FAILED deposit: neither inserts a transaction row. */
  datatype Job =
    | Move(accounts: seq<Uuid>, reference: string)
    | Deposit(user: Uuid, system: Uuid, reference: string)
    | Settle(user: Uuid, system: Uuid)

  /** The locks of a job, in the order it takes them. */
  function Plan(j: Job): seq<Lock> {
    match j
    case Move(accounts, reference) =>
      RowLocks(accounts) + [ReferenceLock(reference)]
    case Deposit(user, system, reference) =>
      if user == system then [AccountLock(user), ReferenceLock(reference)]
      else [AccountLock(user), ReferenceLock(reference), AccountLock(system)]
    case Settle(user, system) =>
      if user == system then [AccountLock(user)] else [AccountLock(user), AccountLock(system)]
  }

  /** What may run: moves over any accounts with a reference in `refs`, and the listed deposits and settlements. */
  datatype Load = Load(refs: iset<string>, extra: seq<Job>)

  ghost predicate Allowed(load: Load, j: Job) {
    if j.Move? then Ascending(j.accounts) && j.reference in load.refs else j in load.extra
  }

  /** A running job and how many of its locks it holds. */
  datatype Process = Process(job: Job, held: nat)

  type Locks = map<nat, Process>

  datatype Step =
    | Start(pid: nat, job: Job)
    | Acquire(pid: nat)
    | End(pid: nat)   // commit, rollback or crash: everything is released

  predicate Holds(p: Process, l: Lock) {
    p.held <= |Plan(p.job)| && l in Plan(p.job)[..p.held]
  }

  predicate Waiting(p: Process) {
    p.held < |Plan(p.job)|
  }

  function Wanted(p: Process): Lock
    requires Waiting(p)
  {
    Plan(p.job)[p.held]
  }

  ghost predicate Free(s: Locks, l: Lock) {
    forall q | q in s :: !Holds(s[q], l)
  }

  /** One step of the lock table; an acquisition waits until the lock is free. */
  ghost predicate Next(load: Load, s: Locks, m: Step, s': Locks) {
    match m
    case Start(pid, job) =>
      pid !in s && Allowed(load, job) && s' == s[pid := Process(job, 0)]
    case Acquire(pid) =>
      pid in s && Waiting(s[pid]) && Free(s, Wanted(s[pid])) && s' == s[pid := s[pid].(held := s[pid].held + 1)]
    case End(pid) =>
      pid in s && s' == s - {pid}
  }

  ghost predicate Trace(load: Load, states: seq<Locks>, steps: seq<Step>) {
    && |states| == |steps| + 1
    && states[0] == map[]
    && forall i | 0 <= i < |steps| :: Next(load, states[i], steps[i], states[i + 1])
  }

  ghost predicate Reachable(load: Load, s: Locks) {
    exists states, steps :: Trace(load, states, steps) && states[|steps|] == s
  }

  lemma ReachStart(load: Load)
    ensures Reachable(load, map[])
  {
    assert Trace(load, [map[]], []);
  }

  lemma ReachStep(load: Load, s: Locks, m: Step, s': Locks)
    requires Reachable(load, s) && Next(load, s, m, s')
    ensures Reachable(load, s')
  {
    var states, steps :| Trace(load, states, steps) && states[|steps|] == s;
    var later, taken := states + [s'], steps + [m];
    forall i | 0 <= i < |taken| ensures Next(load, later[i], taken[i], later[i + 1]) {
      assert i < |steps| ==> Next(load, states[i], steps[i], states[i + 1]);
    }
    assert Trace(load, later, taken) && later[|taken|] == s';
  }

  // ---- no lock has two holders ----

  /** Only allowed jobs run, and no lock has two holders. */
  ghost predicate LocksInv(load: Load, s: Locks) {
    && (forall p | p in s :: Allowed(load, s[p].job) && s[p].held <= |Plan(s[p].job)|)
    && (forall p, q, l | p in s && q in s && Holds(s[p], l) && Holds(s[q], l) :: p == q)
  }

  lemma NextKeeps(load: Load, s: Locks, m: Step, s': Locks)
    requires LocksInv(load, s) && Next(load, s, m, s')
    ensures LocksInv(load, s')
  {
    forall p, q, l | p in s' && q in s' && Holds(s'[p], l) && Holds(s'[q], l) ensures p == q {
      HolderBefore(load, s, m, s', p, l);
      HolderBefore(load, s, m, s', q, l);
    }
  }

  /** Whoever holds a lock after a step held it before, or has just been granted it. */
  lemma HolderBefore(load: Load, s: Locks, m: Step, s': Locks, p: nat, l: Lock)
    requires LocksInv(load, s) && Next(load, s, m, s') && p in s' && Holds(s'[p], l)
    ensures p in s || m.Start?
    ensures (p in s && Holds(s[p], l)) || (m == Acquire(p) && p in s && Waiting(s[p]) && l == Wanted(s[p]))
  {
    if m == Acquire(p) {
      var k, plan := s[p].held, Plan(s[p].job);
      assert plan[..k + 1] == plan[..k] + [plan[k]];
    }
  }

  lemma {:induction false} TraceInv(load: Load, states: seq<Locks>, steps: seq<Step>, n: nat)
    requires Trace(load, states, steps) && n < |states|
    ensures LocksInv(load, states[n])
  {
    if n > 0 {
      TraceInv(load, states, steps, n - 1);
      NextKeeps(load, states[n - 1], steps[n - 1], states[n]);
    }
  }

  lemma ReachableInv(load: Load, s: Locks)
    requires Reachable(load, s)
    ensures LocksInv(load, s)
  {
    var states, steps :| Trace(load, states, steps) && states[|steps|] == s;
    TraceInv(load, states, steps, |steps|);
  }

  // ---- loads under which nobody waits in circles ----

  predicate Shares(j: Job, r: string) {
    j.Deposit? && j.reference == r
  }

  /** A deposit that goes on to the system's row after inserting its reference. */
  predicate Crosses(j: Job) {
    j.Deposit? && j.user != j.system
  }

  /** Settlements have the user's id below the system's. No move uses the reference of a deposit, and the
      users of all deposits with one reference are below the system accounts of them all. */
  ghost predicate Orderly(load: Load) {
    && (forall j | j in load.extra :: !j.Move? && (j.Settle? ==> j.user <= j.system))
    && (forall j | j in load.extra && Crosses(j) :: j.reference !in load.refs)
    && (forall j, k | j in load.extra && k in load.extra && Crosses(j) && Shares(k, j.reference) :: k.user < j.system)
  }

  /** The largest user id among the deposits with a reference. */
  function Top(jobs: seq<Job>, r: string): nat {
    if jobs == [] then 0
    else
      var rest := Top(jobs[1..], r);
      if Shares(jobs[0], r) && jobs[0].user > rest then jobs[0].user else rest
  }

  lemma {:induction false} TopIsLargest(jobs: seq<Job>, r: string)
    ensures forall j | j in jobs && Shares(j, r) :: j.user <= Top(jobs, r)
    ensures Top(jobs, r) > 0 ==> exists j :: j in jobs && Shares(j, r) && j.user == Top(jobs, r)
  {
    if jobs != [] {
      TopIsLargest(jobs[1..], r);
      if j :| j in jobs[1..] && Shares(j, r) && j.user == Top(jobs[1..], r) {
        assert j in jobs;
      }
    }
  }

  ghost predicate Between(load: Load, r: string) {
    exists j :: j in load.extra && Crosses(j) && j.reference == r
  }

  /** The order behind the argument: accounts by id, the reference of a crossing deposit right after the
      last user that takes it, every other reference after every account. */
  ghost function Level(load: Load, l: Lock): (nat, nat) {
    match l
    case AccountLock(a) => (0, 2 * a)
    case ReferenceLock(r) => if Between(load, r) then (0, 2 * Top(load.extra, r) + 1) else (1, 0)
  }

  ghost predicate Before(load: Load, l: Lock, k: Lock) {
    var (x, y) := (Level(load, l), Level(load, k));
    x.0 < y.0 || (x.0 == y.0 && x.1 < y.1)
  }

  lemma PlanClimbs(load: Load, j: Job, a: nat, b: nat)
    requires Orderly(load) && Allowed(load, j) && a < b < |Plan(j)|
    ensures Before(load, Plan(j)[a], Plan(j)[b])
  {
    if j.Deposit? {
      DepositClimbs(load, j, a, b);
    }
  }

  lemma DepositClimbs(load: Load, j: Job, a: nat, b: nat)
    requires Orderly(load) && j.Deposit? && j in load.extra && a < b < |Plan(j)|
    ensures Before(load, Plan(j)[a], Plan(j)[b])
  {
    assert Shares(j, j.reference);
    var top := Top(load.extra, j.reference);
    TopIsLargest(load.extra, j.reference);
    if Crosses(j) {
      assert Between(load, j.reference);
      assert j.user < j.system;
      if top > 0 {
        var k :| k in load.extra && Shares(k, j.reference) && k.user == top;
        assert k.user < j.system;
      }
    }
  }

  /** A waiting process wants something that comes after everything it holds. */
  lemma WantsLater(load: Load, p: Process, l: Lock)
    requires Orderly(load) && Allowed(load, p.job) && Waiting(p) && Holds(p, l)
    ensures Before(load, l, Wanted(p))
  {
    var i :| 0 <= i < p.held && Plan(p.job)[i] == l;
    PlanClimbs(load, p.job, i, p.held);
  }

  ghost predicate WaitsFor(s: Locks, p: nat, q: nat) {
    p in s && q in s && p != q && Waiting(s[p]) && Holds(s[q], Wanted(s[p]))
  }

  /** Consecutive processes of the chain wait for each other. */
  ghost predicate WaitChain(s: Locks, chain: seq<nat>) {
    |chain| >= 2 && forall i | 0 <= i < |chain| - 1 :: WaitsFor(s, chain[i], chain[i + 1])
  }

  lemma {:induction false} ChainClimbs(load: Load, s: Locks, chain: seq<nat>)
    requires Orderly(load) && LocksInv(load, s) && WaitChain(s, chain)
    ensures chain[0] in s && Waiting(s[chain[0]])
    ensures var last := chain[|chain| - 1];
            last in s && Waiting(s[last]) ==> Before(load, Wanted(s[chain[0]]), Wanted(s[last]))
    decreases |chain|
  {
    var p, q := chain[0], chain[1];
    assert WaitsFor(s, p, q);
    if Waiting(s[q]) {
      WantsLater(load, s[q], Wanted(s[p]));
    }
    if |chain| > 2 {
      var rest := chain[1..];
      forall i | 0 <= i < |rest| - 1 ensures WaitsFor(s, rest[i], rest[i + 1]) {
        assert WaitsFor(s, chain[i + 1], chain[i + 1 + 1]);
      }
      ChainClimbs(load, s, rest);
      assert rest[|rest| - 1] == chain[|chain| - 1];
    }
  }

  /** Some reachable state has a chain of waits that returns to where it started. */
  ghost predicate CanDeadlock(load: Load) {
    exists s, chain :: Reachable(load, s) && WaitChain(s, chain) && chain[0] == chain[|chain| - 1]
  }

  /** Under an orderly load no chain of waits closes in any reachable state. With no deposits and no
      settlements every load is orderly. */
  lemma NoWaitCycle(load: Load, s: Locks, chain: seq<nat>)
    requires Orderly(load) && Reachable(load, s) && WaitChain(s, chain)
    ensures chain[0] != chain[|chain| - 1]
  {
    ReachableInv(load, s);
    ChainClimbs(load, s, chain);
  }

  // ---- somebody can always move ----

  /** The process can take its next lock now, or has all of them and can finish. */
  ghost predicate CanStep(s: Locks, p: nat) {
    p in s && (!Waiting(s[p]) || Free(s, Wanted(s[p])))
  }

  /** Follow the waits: from a blocked process wanting l, some process can step. */
  lemma FollowWaits(load: Load, s: Locks, p: nat, visited: set<nat>) returns (q: nat)
    requires Orderly(load) && LocksInv(load, s) && p in s && p !in visited && visited <= s.Keys
    requires forall v | v in visited :: Waiting(s[v]) && (Waiting(s[p]) ==> Before(load, Wanted(s[v]), Wanted(s[p])))
    ensures CanStep(s, q)
    decreases |s| - |visited|
  {
    if CanStep(s, p) {
      q := p;
    } else {
      var h :| h in s && Holds(s[h], Wanted(s[p]));
      var more := visited + {p};
      Room(visited, more, s.Keys);
      if Waiting(s[h]) {
        Onward(load, s, p, h, visited);
        q := FollowWaits(load, s, h, more);
      } else {
        q := h;
      }
    }
  }

  lemma Onward(load: Load, s: Locks, p: nat, h: nat, visited: set<nat>)
    requires Orderly(load) && LocksInv(load, s) && p in s && h in s && p !in visited && visited <= s.Keys
    requires Waiting(s[p]) && Waiting(s[h]) && Holds(s[h], Wanted(s[p]))
    requires forall v | v in visited :: Waiting(s[v]) && Before(load, Wanted(s[v]), Wanted(s[p]))
    ensures h !in visited + {p}
    ensures forall v | v in visited + {p} :: Waiting(s[v]) && Before(load, Wanted(s[v]), Wanted(s[h]))
  {
    WantsLater(load, s[h], Wanted(s[p]));
  }

  lemma Room(a: set<nat>, b: set<nat>, all: set<nat>)
    requires a < b <= all
    ensures |a| < |b| <= |all|
  {
    Card(a, b);
    if b != all {
      Card(b, all);
    }
  }

  lemma {:induction false} Card(a: set<nat>, b: set<nat>)
    requires a < b
    ensures |a| < |b|
  {
    assert b == a + (b - a);
    assert b - a != {};
  }

  /** Under an orderly load, in every reachable state with an unfinished process some unfinished one can
      take its next step. */
  lemma SomeoneCanStep(load: Load, s: Locks) returns (q: nat)
    requires Orderly(load) && Reachable(load, s) && s != map[]
    ensures CanStep(s, q)
  {
    ReachableInv(load, s);
    var p :| p in s;
    q := FollowWaits(load, s, p, {});
  }

  // ---- every other load can deadlock ----

  /** No plan names a lock twice. */
  lemma PlanDistinct(load: Load, j: Job, a: nat, b: nat)
    requires Allowed(load, j) && a < b < |Plan(j)|
    ensures Plan(j)[a] != Plan(j)[b]
  {
  }

  lemma LastFree(load: Load, s: Locks, p: nat, s1: Locks)
    requires LocksInv(load, s) && p in s && s[p].held > 0 && s1 == s[p := s[p].(held := s[p].held - 1)]
    ensures LocksInv(load, s1) && Waiting(s1[p]) && Free(s1, Wanted(s1[p]))
  {
    var k, plan := s[p].held - 1, Plan(s[p].job);
    assert plan[..k + 1] == plan[..k] + [plan[k]];
    assert Holds(s[p], plan[k]);
    forall i | 0 <= i < k ensures plan[i] != plan[k] {
      PlanDistinct(load, s[p].job, i, k);
    }
  }

  lemma {:induction false} Fill(load: Load, s: Locks, p: nat)
    requires LocksInv(load, s) && p in s && Reachable(load, s - {p})
    ensures Reachable(load, s)
    decreases s[p].held
  {
    if s[p].held == 0 {
      assert (s - {p})[p := Process(s[p].job, 0)] == s;
      ReachStep(load, s - {p}, Start(p, s[p].job), s);
    } else {
      var s1 := s[p := s[p].(held := s[p].held - 1)];
      LastFree(load, s, p, s1);
      assert s1 - {p} == s - {p};
      Fill(load, s1, p);
      TakeLast(load, s1, p, s);
    }
  }

  lemma TakeLast(load: Load, s1: Locks, p: nat, s: Locks)
    requires Reachable(load, s1) && p in s && p in s1 && s[p].held > 0 && s1 == s[p := s[p].(held := s[p].held - 1)]
    requires Waiting(s1[p]) && Free(s1, Wanted(s1[p]))
    ensures Reachable(load, s)
  {
    assert s1[p := s1[p].(held := s1[p].held + 1)] == s;
    ReachStep(load, s1, Acquire(p), s);
  }

  lemma {:induction false} InvReachable(load: Load, s: Locks)
    requires LocksInv(load, s)
    ensures Reachable(load, s)
    decreases |s|
  {
    if s == map[] {
      ReachStart(load);
    } else {
      var p :| p in s;
      assert (s - {p}).Keys == s.Keys - {p};
      InvReachable(load, s - {p});
      Fill(load, s, p);
    }
  }

  /** The reachable lock tables are exactly those of allowed jobs in which no lock has two holders. */
  lemma ReachableIff(load: Load, s: Locks)
    ensures Reachable(load, s) <==> LocksInv(load, s)
  {
    if Reachable(load, s) {
      ReachableInv(load, s);
    } else if LocksInv(load, s) {
      InvReachable(load, s);
    }
  }

  predicate Apart(p: Process, q: Process) {
    forall i, j | 0 <= i < p.held && 0 <= j < q.held && i < |Plan(p.job)| && j < |Plan(q.job)| ::
      Plan(p.job)[i] != Plan(q.job)[j]
  }

  /** `q` holds what `p` wants. */
  predicate Blocks(q: Process, p: Process) {
    Waiting(p) && Waiting(q) && exists i | 0 <= i < q.held :: Plan(q.job)[i] == Wanted(p)
  }

  /** Running jobs, none of which holds what another holds, form a reachable state. */
  lemma ApartReachable(load: Load, s: Locks)
    requires forall p | p in s :: Allowed(load, s[p].job) && s[p].held <= |Plan(s[p].job)|
    requires forall p, q | p in s && q in s && p < q :: Apart(s[p], s[q])
    ensures Reachable(load, s)
  {
    ReachableIff(load, s);
  }

  lemma BlockedWaits(s: Locks, p: nat, q: nat)
    requires p in s && q in s && p != q && Blocks(s[q], s[p])
    ensures WaitsFor(s, p, q)
  {
    var i :| 0 <= i < s[q].held && Plan(s[q].job)[i] == Wanted(s[p]);
    assert Plan(s[q].job)[..s[q].held][i] == Wanted(s[p]);
  }

  /** Two processes that hold nothing in common and wait for each other. */
  lemma PairDeadlocks(load: Load, p: Process, q: Process)
    requires Allowed(load, p.job) && Allowed(load, q.job) && Apart(p, q) && Blocks(q, p) && Blocks(p, q)
    ensures CanDeadlock(load)
  {
    var s: Locks := map[0 := p, 1 := q];
    assert Reachable(load, s) by {
      ApartReachable(load, s);
    }
    assert WaitsFor(s, 0, 1) by {
      BlockedWaits(s, 0, 1);
    }
    assert WaitsFor(s, 1, 0) by {
      BlockedWaits(s, 1, 0);
    }
    PairCloses(load, s);
  }

  lemma PairCloses(load: Load, s: Locks)
    requires Reachable(load, s) && WaitsFor(s, 0, 1) && WaitsFor(s, 1, 0)
    ensures CanDeadlock(load)
  {
    assert WaitChain(s, [0, 1, 0]);
  }

  /** A settlement and a transfer between the same two accounts, the system's id below the user's. */
  lemma SettleDeadlocks(load: Load, j: Job, r: string)
    requires j in load.extra && j.Settle? && j.system < j.user && r in load.refs
    ensures CanDeadlock(load)
  {
    var p, q := Process(j, 1), Process(Move([j.system, j.user], r), 1);
    assert Wanted(p) == Plan(q.job)[0] && Wanted(q) == Plan(p.job)[0];
    PairDeadlocks(load, p, q);
  }

  /** The same with a deposit, which also holds its reference by then. */
  lemma DepositDeadlocks(load: Load, j: Job, r: string)
    requires j in load.extra && j.Deposit? && j.system < j.user && r in load.refs
    ensures CanDeadlock(load)
  {
    var p, q := Process(j, 2), Process(Move([j.system, j.user], r), 1);
    assert Wanted(p) == Plan(q.job)[0] && Wanted(q) == Plan(p.job)[0];
    PairDeadlocks(load, p, q);
  }

  /** A deposit holds a reference and wants the system's row; a transfer out of that row wants the reference. */
  lemma ReferenceDeadlocks(load: Load, j: Job)
    requires j in load.extra && Crosses(j) && j.reference in load.refs
    ensures CanDeadlock(load)
  {
    var p, q := Process(j, 2), Process(Move([j.system, j.system + j.user + 1], j.reference), 2);
    assert Wanted(p) == Plan(q.job)[0] && Wanted(q) == Plan(p.job)[1];
    PairDeadlocks(load, p, q);
  }

  /** Two deposits with one reference, the second into the system account of the first. */
  lemma SharedDeadlocks(load: Load, j: Job, k: Job)
    requires j in load.extra && k in load.extra && Crosses(j) && Shares(k, j.reference) && k.user == j.system
    ensures CanDeadlock(load)
  {
    var p, q := Process(j, 2), Process(k, 1);
    assert Wanted(p) == Plan(q.job)[0] && Wanted(q) == Plan(p.job)[1];
    PairDeadlocks(load, p, q);
  }

  /** Two deposits with one reference, and a transfer between the system account of the first and the user
      of the second: each waits for the next. */
  lemma TriangleDeadlocks(load: Load, j: Job, k: Job, r: string)
    requires j in load.extra && k in load.extra && Crosses(j) && Shares(k, j.reference) && r in load.refs
    requires j.user < j.system < k.user
    ensures CanDeadlock(load)
  {
    var p, q, o := Process(j, 2), Process(Move([j.system, k.user], r), 1), Process(k, 1);
    assert Wanted(p) == Plan(q.job)[0] && Wanted(q) == Plan(o.job)[0] && Wanted(o) == Plan(p.job)[1];
    TripleDeadlocks(load, p, q, o);
  }

  lemma TripleDeadlocks(load: Load, p: Process, q: Process, o: Process)
    requires Allowed(load, p.job) && Allowed(load, q.job) && Allowed(load, o.job)
    requires Apart(p, q) && Apart(p, o) && Apart(q, o) && Blocks(q, p) && Blocks(o, q) && Blocks(p, o)
    ensures CanDeadlock(load)
  {
    var s: Locks := map[0 := p, 1 := q, 2 := o];
    TripleReachable(load, p, q, o);
    assert WaitsFor(s, 0, 1) by {
      BlockedWaits(s, 0, 1);
    }
    assert WaitsFor(s, 1, 2) by {
      BlockedWaits(s, 1, 2);
    }
    assert WaitsFor(s, 2, 0) by {
      BlockedWaits(s, 2, 0);
    }
    TriangleCloses(load, s);
  }

  lemma TripleReachable(load: Load, p: Process, q: Process, o: Process)
    requires Allowed(load, p.job) && Allowed(load, q.job) && Allowed(load, o.job)
    requires Waiting(p) && Waiting(q) && Waiting(o) && Apart(p, q) && Apart(p, o) && Apart(q, o)
    ensures Reachable(load, map[0 := p, 1 := q, 2 := o])
  {
    var s: Locks := map[0 := p, 1 := q, 2 := o];
    forall i, j | i in s && j in s && i < j ensures Apart(s[i], s[j]) {
      assert (i, j) == (0, 1) || (i, j) == (0, 2) || (i, j) == (1, 2);
    }
    ApartReachable(load, s);
  }

  lemma TriangleCloses(load: Load, s: Locks)
    requires Reachable(load, s) && WaitsFor(s, 0, 1) && WaitsFor(s, 1, 2) && WaitsFor(s, 2, 0)
    ensures CanDeadlock(load)
  {
    assert WaitChain(s, [0, 1, 2, 0]);
  }

  lemma DisorderDeadlocks(load: Load, r: string)
    requires r in load.refs && (forall j | j in load.extra :: !j.Move?) && !Orderly(load)
    ensures CanDeadlock(load)
  {
    if j :| j in load.extra && j.Settle? && j.user > j.system {
      SettleDeadlocks(load, j, r);
    } else if j :| j in load.extra && Crosses(j) && j.reference in load.refs {
      ReferenceDeadlocks(load, j);
    } else {
      var j, k :| j in load.extra && k in load.extra && Crosses(j) && Shares(k, j.reference) && k.user >= j.system;
      if j.user > j.system {
        DepositDeadlocks(load, j, r);
      } else if k.user == j.system {
        SharedDeadlocks(load, j, k);
      } else {
        TriangleDeadlocks(load, j, k, r);
      }
    }
  }

  /** Beside transfers over all accounts, a set of deposits and settlements can deadlock if and only if it is
      not orderly. */
  lemma DeadlockIff(load: Load, r: string)
    requires r in load.refs && forall j | j in load.extra :: !j.Move?
    ensures CanDeadlock(load) <==> !Orderly(load)
  {
    if Orderly(load) {
      forall s, chain | Reachable(load, s) && WaitChain(s, chain) ensures chain[0] != chain[|chain| - 1] {
        NoWaitCycle(load, s, chain);
      }
    } else {
      DisorderDeadlocks(load, r);
    }
  }

  /** When every reference belongs to one deposit or to moves alone, the ids decide: nobody waits in circles
      if and only if no deposit and no settlement has its user's id above its system's. */
  lemma UserBelowSystemIff(load: Load, r: string)
    requires r in load.refs && forall j | j in load.extra :: !j.Move?
    requires forall j | j in load.extra && j.Deposit? :: j.reference !in load.refs
    requires forall j, k | j in load.extra && k in load.extra && j.Deposit? && Shares(k, j.reference) :: j == k
    ensures CanDeadlock(load) <==> exists j :: j in load.extra && j.user > j.system
  {
    DeadlockIff(load, r);
    if j :| j in load.extra && j.user > j.system {
      assert j.Deposit? ==> Crosses(j) && Shares(j, j.reference);
    }
  }
}
