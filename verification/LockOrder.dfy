/** Locks, and the lock list of a transfer or an exchange: the two loops that build it, and what they build. */
module LockOrder {
  import opened Tables

  datatype Lock = AccountLock(id: Uuid) | ReferenceLock(reference: string)

  /** What is held once `l` has been asked for; a lock held already is not taken again. */
  function Grab(held: seq<Lock>, l: Lock): seq<Lock> {
    if l in held then held else held + [l]
  }

  /** A part of a transaction that asks for one lock and, once done, has it. */
  predicate Asked(was: seq<Lock>, held: seq<Lock>, l: Lock, done: bool) {
    held == Grab(was, l) || (held == was && !done)
  }

  /** A transaction that takes its locks in the order of a plan and, once done, has all of them. */
  predicate Keeps(plan: seq<Lock>, held: seq<Lock>, done: bool) {
    held <= plan && (done ==> held == plan)
  }

  function RowLocks(ids: seq<Uuid>): seq<Lock> {
    seq(|ids|, i requires 0 <= i < |ids| => AccountLock(ids[i]))
  }

  ghost predicate Ascending(s: seq<Uuid>) {
    forall i, j | 0 <= i < j < |s| :: s[i] < s[j]
  }

  ghost predicate NonDecreasing(s: seq<Uuid>) {
    forall i, j | 0 <= i < j < |s| :: s[i] <= s[j]
  }

  ghost predicate Distinct(s: seq<Uuid>) {
    forall i, j | 0 <= i < j < |s| :: s[i] != s[j]
  }

  function Elements(s: seq<Uuid>): set<Uuid> {
    set x | x in s
  }

  /** Keeps the first occurrence of each id. */
  method DedupeUuids(ids: seq<Uuid>) returns (out: seq<Uuid>)
    ensures Distinct(out) && Elements(out) == Elements(ids)
  {
    var seen: set<Uuid> := {};
    out := [];
    for i := 0 to |ids|
      invariant Distinct(out) && seen == Elements(out) == Elements(ids[..i])
    {
      assert ids[..i + 1] == ids[..i] + [ids[i]];
      if ids[i] !in seen {
        seen := seen + {ids[i]};
        out := out + [ids[i]];
      }
    }
    assert ids[..|ids|] == ids;
  }

  /** The first n positions are in order and hold nothing larger than what follows. */
  ghost predicate SortedUpTo(s: seq<Uuid>, n: nat) {
    n <= |s| && forall p, q | 0 <= p < n && p < q < |s| :: s[p] <= s[q]
  }

  /** Swaps two positions when they are out of order. */
  method Order(ids: array<Uuid>, i: nat, j: nat)
    requires i < j < ids.Length
    modifies ids
    ensures multiset(ids[..]) == multiset(old(ids[..]))
    ensures forall k | 0 <= k < ids.Length && k != i && k != j :: ids[k] == old(ids[k])
    ensures ids[i] <= ids[j] && ids[i] <= old(ids[i])
    ensures (ids[i] == old(ids[i]) && ids[j] == old(ids[j])) || (ids[i] == old(ids[j]) && ids[j] == old(ids[i]))
  {
    if ids[i] > ids[j] {
      ids[i], ids[j] := ids[j], ids[i];
    }
  }

  /** Brings the smallest remaining id to position i, as the inner loop does. */
  method SelectSmallest(ids: array<Uuid>, i: nat)
    requires i < ids.Length && SortedUpTo(ids[..], i)
    modifies ids
    ensures SortedUpTo(ids[..], i + 1)
    ensures multiset(ids[..]) == multiset(old(ids[..]))
  {
    for j := i + 1 to ids.Length
      invariant forall p, q | 0 <= p < i && p < q < ids.Length :: ids[p] <= ids[q]
      invariant forall k | i < k < j :: ids[i] <= ids[k]
      invariant multiset(ids[..]) == multiset(old(ids[..]))
    {
      Order(ids, i, j);
    }
  }

  /** Exchange sort, in place. */
  method SortUuids(ids: array<Uuid>)
    modifies ids
    ensures NonDecreasing(ids[..])
    ensures multiset(ids[..]) == multiset(old(ids[..]))
  {
    for i := 0 to ids.Length
      invariant SortedUpTo(ids[..], i)
      invariant multiset(ids[..]) == multiset(old(ids[..]))
    {
      SelectSmallest(ids, i);
    }
  }

  lemma SameElements(s: seq<Uuid>, t: seq<Uuid>)
    requires multiset(s) == multiset(t)
    ensures Elements(s) == Elements(t)
  {
    forall x ensures x in s <==> x in t {
      assert x in s <==> x in multiset(s);
      assert x in t <==> x in multiset(t);
    }
  }

  /** Sorting distinct ids leaves no equal neighbours. */
  lemma DistinctByCount(s: seq<Uuid>, t: seq<Uuid>)
    requires multiset(s) == multiset(t) && Distinct(s)
    ensures Distinct(t)
  {
    CountDistinct(s);
    forall i, j | 0 <= i < j < |t| ensures t[i] != t[j] {
      if t[i] == t[j] {
        CountTwice(t, i, j);
      }
    }
  }

  lemma {:induction false} CountDistinct(s: seq<Uuid>)
    requires Distinct(s)
    ensures forall x :: multiset(s)[x] <= 1
  {
    if s != [] {
      var rest, last := s[..|s| - 1], s[|s| - 1];
      CountDistinct(rest);
      assert s == rest + [last];
      assert last !in rest;
    }
  }

  lemma CountTwice(t: seq<Uuid>, i: nat, j: nat)
    requires i < j < |t| && t[i] == t[j]
    ensures multiset(t)[t[i]] >= 2
  {
    assert t == t[..j] + t[j..];
    assert t[i] in t[..j] && t[j] in t[j..];
  }

  /** The list an exchange locks in order: strictly ascending, and exactly the ids it was given. */
  method LockList(ids: seq<Uuid>) returns (plan: seq<Uuid>)
    ensures Ascending(plan) && Elements(plan) == Elements(ids)
  {
    var unique := DedupeUuids(ids);
    var buffer := new Uuid[|unique|](i requires 0 <= i < |unique| => unique[i]);
    assert buffer[..] == unique;
    SortUuids(buffer);
    plan := buffer[..];
    DistinctByCount(unique, plan);
    SameElements(unique, plan);
  }

  /** The two accounts of a transfer, smaller id first. */
  function LockPair(from: Uuid, to: Uuid): (r: seq<Uuid>)
    ensures from != to ==> Ascending(r) && Elements(r) == {from, to}
  {
    if from > to then [to, from] else [from, to]
  }

  /** There is only one such list: any two requests for the same accounts lock in the same order. */
  lemma {:induction false} AscendingUnique(s: seq<Uuid>, t: seq<Uuid>)
    requires Ascending(s) && Ascending(t) && Elements(s) == Elements(t)
    ensures s == t
    decreases |s|
  {
    if s == [] {
      assert forall i | 0 <= i < |t| :: t[i] in Elements(t);
    } else {
      assert s[0] in Elements(t);
      assert t != [];
      assert t[0] in Elements(s);
      assert s[0] == t[0];
      forall x ensures x in s[1..] <==> x in t[1..] {
        assert x in s[1..] <==> x in s && x != s[0];
        assert x in t[1..] <==> x in t && x != t[0];
        assert x in s <==> x in Elements(s);
        assert x in t <==> x in Elements(t);
      }
      AscendingUnique(s[1..], t[1..]);
    }
  }
}
