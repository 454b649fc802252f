/** The table of process queues: every list of processes is doubly linked through one
    table, in which a process has one entry and a list has two, its head and its tail. */
module KernelQueues {

  const NPROC := 100
  const NSEM := 100
  const NQENT := NPROC + 4 + NSEM + NSEM
  const EMPTY := -1
  const SYSERR := -1
  const OK := 1
  const MAXKEY := 0x7FFF_FFFF
  const MINKEY := -0x8000_0000

  /** The id of the i-th list, which is also the index of its head. */
  function Qid(i: nat): nat {
    NPROC + 2 * i
  }

  predicate IsBadQid(x: int) {
    x < NPROC || x >= NQENT - 1
  }

  /** Entry of the k-th process of list i; its head is before the first, its tail after the last. */
  ghost function Node(l: seq<nat>, i: nat, k: int): int {
    if k < 0 then Qid(i) else if k < |l| then l[k] else Qid(i) + 1
  }

  ghost predicate LinkAt(nx: seq<int>, pv: seq<int>, l: seq<nat>, i: nat, k: nat) {
    && 0 <= Node(l, i, k - 1) < |nx| && nx[Node(l, i, k - 1)] == Node(l, i, k)
    && 0 <= Node(l, i, k) < |pv| && pv[Node(l, i, k)] == Node(l, i, k - 1)
  }

  ghost predicate Linked(nx: seq<int>, pv: seq<int>, lists: seq<seq<nat>>) {
    && |nx| == NQENT && |pv| == NQENT
    && forall i, k :: 0 <= i < |lists| && 0 <= k <= |lists[i]| ==> LinkAt(nx, pv, lists[i], i, k)
  }

  /** A process is on one list at most, and there once. */
  ghost predicate Apart(lists: seq<seq<nat>>, on: seq<int>) {
    && |on| == NPROC && Qid(|lists|) <= NQENT
    && (forall i, k :: 0 <= i < |lists| && 0 <= k < |lists[i]| ==> lists[i][k] < NPROC && on[lists[i][k]] == i)
    && (forall i :: 0 <= i < |lists| ==> Once(lists[i]))
    && (forall p :: 0 <= p < NPROC && on[p] != EMPTY ==> 0 <= on[p] < |lists| && p in lists[on[p]])
  }

  function PutAt(l: seq<nat>, k: nat, p: nat): (r: seq<nat>)
    requires k <= |l|
    ensures |r| == |l| + 1 && r[k] == p
    ensures forall j :: 0 <= j < |r| && j != k ==> r[j] == l[if j < k then j else j - 1]
  {
    l[..k] + [p] + l[k..]
  }

  function CutAt(l: seq<nat>, k: nat): (r: seq<nat>)
    requires k < |l|
    ensures |r| == |l| - 1
    ensures forall j :: 0 <= j < |r| ==> r[j] == l[if j < k then j else j + 1]
  {
    l[..k] + l[k + 1..]
  }

  ghost predicate OffLists(lists: seq<seq<nat>>, p: int) {
    forall i :: 0 <= i < |lists| ==> p !in lists[i]
  }

  /** Distinct places are distinct entries. */
  lemma NodesDiffer(lists: seq<seq<nat>>, on: seq<int>, a: nat, b: int, i: nat, k: int)
    requires Apart(lists, on) && a < |lists| && i < |lists| && -1 <= b <= |lists[a]| && -1 <= k <= |lists[i]|
    requires a != i || b != k
    ensures Node(lists[a], a, b) != Node(lists[i], i, k)
    ensures 0 <= Node(lists[a], a, b) < NQENT
  {
    if 0 <= b < |lists[a]| && 0 <= k < |lists[i]| && a == i {
      assert if b < k then lists[a][b] != lists[a][k] else lists[a][k] != lists[a][b];
    }
  }


  lemma NotANode(lists: seq<seq<nat>>, on: seq<int>, p: nat, a: nat, b: int)
    requires Apart(lists, on) && p < NPROC && on[p] == EMPTY && a < |lists| && -1 <= b <= |lists[a]|
    ensures Node(lists[a], a, b) != p
  {
  }

  lemma PutNode(l: seq<nat>, i: nat, k: nat, p: nat, b: int)
    requires k <= |l| && -1 <= b <= |l| + 1
    ensures Node(PutAt(l, k, p), i, b) == if b < k then Node(l, i, b) else if b == k then p else Node(l, i, b - 1)
  {
  }

  lemma CutNode(l: seq<nat>, i: nat, k: nat, b: int)
    requires k < |l| && -1 <= b < |l|
    ensures Node(CutAt(l, k), i, b) == if b < k then Node(l, i, b) else Node(l, i, b + 1)
  {
  }

  /** Linking p in before the entry next, after the entry prev: one link of the result. */
  lemma LinkInAt(nx: seq<int>, pv: seq<int>, lists: seq<seq<nat>>, on: seq<int>, i: nat, k: nat, p: nat, a: nat, b: nat)
    requires Linked(nx, pv, lists) && Apart(lists, on)
    requires i < |lists| && k <= |lists[i]| && p < NPROC && on[p] == EMPTY
    requires a < |lists| && b <= |lists[a]| + if a == i then 1 else 0
    ensures var prev, next := Node(lists[i], i, k - 1), Node(lists[i], i, k);
            && 0 <= prev < NQENT && 0 <= next < NQENT
            && LinkAt(nx[p := next][prev := p], pv[p := prev][next := p], lists[i := PutAt(lists[i], k, p)][a], a, b)
  {
    hide Apart, Node, PutAt;
    var prev, next := Node(lists[i], i, k - 1), Node(lists[i], i, k);
    NodesDiffer(lists, on, i, k - 1, i, k);
    NodesDiffer(lists, on, i, k, i, k - 1);
    NotANode(lists, on, p, i, k - 1);
    NotANode(lists, on, p, i, k);
    if a == i {
      PutNode(lists[i], i, k, p, b);
      PutNode(lists[i], i, k, p, b - 1);
    }
    if a != i || (b != k && b != k + 1) {
      var c := if a == i && b > k then b - 1 else b;
      assert LinkAt(nx, pv, lists[a], a, c);
      NodesDiffer(lists, on, a, c - 1, i, k - 1);
      NodesDiffer(lists, on, a, c, i, k);
      NotANode(lists, on, p, a, c - 1);
      NotANode(lists, on, p, a, c);
    }
  }

  lemma LinkOutAt(nx: seq<int>, pv: seq<int>, lists: seq<seq<nat>>, on: seq<int>, i: nat, k: nat, a: nat, b: nat)
    requires Linked(nx, pv, lists) && Apart(lists, on) && i < |lists| && k < |lists[i]|
    requires a < |lists| && b <= |lists[a]| - if a == i then 1 else 0
    ensures var p := lists[i][k];
            && 0 <= p < NQENT && 0 <= nx[p] < NQENT && 0 <= pv[p] < NQENT
            && LinkAt(nx[pv[p] := nx[p]], pv[nx[p] := pv[p]], lists[i := CutAt(lists[i], k)][a], a, b)
  {
    var p, prev, next := lists[i][k], Node(lists[i], i, k - 1), Node(lists[i], i, k + 1);
    NodesDiffer(lists, on, i, k - 1, i, k);
    NodesDiffer(lists, on, i, k + 1, i, k);
    assert LinkAt(nx, pv, lists[i], i, k) && LinkAt(nx, pv, lists[i], i, k + 1);
    assert 0 <= p < NQENT && nx[p] == next && pv[p] == prev;
    CutLink(nx, pv, lists, on, i, k, a, b);
  }

  lemma CutLink(nx: seq<int>, pv: seq<int>, lists: seq<seq<nat>>, on: seq<int>, i: nat, k: nat, a: nat, b: nat)
    requires Linked(nx, pv, lists) && Apart(lists, on) && i < |lists| && k < |lists[i]|
    requires a < |lists| && b <= |lists[a]| - if a == i then 1 else 0
    ensures var prev, next := Node(lists[i], i, k - 1), Node(lists[i], i, k + 1);
            && 0 <= prev < NQENT && 0 <= next < NQENT
            && LinkAt(nx[prev := next], pv[next := prev], lists[i := CutAt(lists[i], k)][a], a, b)
  {
    hide Apart, Node, CutAt;
    NodesDiffer(lists, on, i, k - 1, i, k);
    NodesDiffer(lists, on, i, k + 1, i, k);
    if a == i {
      CutNode(lists[i], i, k, b);
      CutNode(lists[i], i, k, b - 1);
    }
    if a != i || b != k {
      var c := if a == i && b > k then b + 1 else b;
      assert LinkAt(nx, pv, lists[a], a, c);
      NodesDiffer(lists, on, a, c - 1, i, k - 1);
      NodesDiffer(lists, on, a, c, i, k + 1);
    }
  }

  lemma PutApart(lists: seq<seq<nat>>, on: seq<int>, i: nat, k: nat, p: nat)
    requires Apart(lists, on) && i < |lists| && k <= |lists[i]| && p < NPROC && on[p] == EMPTY
    ensures Apart(lists[i := PutAt(lists[i], k, p)], on[p := i])
  {
    assert p !in lists[i];
    PutMembers(lists[i], k, p);
  }

  ghost predicate Once(l: seq<nat>) {
    forall j, k :: 0 <= j < k < |l| ==> l[j] != l[k]
  }

  lemma CutMembers(l: seq<nat>, k: nat)
    requires Once(l) && k < |l|
    ensures Once(CutAt(l, k))
    ensures forall x :: x in CutAt(l, k) <==> x in l && x != l[k]
  {
    forall x | x in l && x != l[k]
      ensures x in CutAt(l, k)
    {
      var j :| 0 <= j < |l| && l[j] == x;
      assert CutAt(l, k)[if j < k then j else j - 1] == x;
    }
  }

  lemma PutMembers(l: seq<nat>, k: nat, p: nat)
    requires Once(l) && k <= |l| && p !in l
    ensures Once(PutAt(l, k, p))
    ensures forall x :: x in PutAt(l, k, p) <==> x in l || x == p
  {
    forall x | x in l
      ensures x in PutAt(l, k, p)
    {
      var j :| 0 <= j < |l| && l[j] == x;
      assert PutAt(l, k, p)[if j < k then j else j + 1] == x;
    }
    assert PutAt(l, k, p)[k] == p;
  }

  lemma CutApart(lists: seq<seq<nat>>, on: seq<int>, i: nat, k: nat)
    requires Apart(lists, on) && i < |lists| && k < |lists[i]|
    ensures lists[i][k] < NPROC
    ensures Apart(lists[i := CutAt(lists[i], k)], on[lists[i][k] := EMPTY])
  {
    CutMembers(lists[i], k);
  }

  lemma LinkIn(nx: seq<int>, pv: seq<int>, lists: seq<seq<nat>>, on: seq<int>, i: nat, k: nat, p: nat)
    requires Linked(nx, pv, lists) && Apart(lists, on)
    requires i < |lists| && k <= |lists[i]| && p < NPROC && on[p] == EMPTY
    ensures var prev, next := Node(lists[i], i, k - 1), Node(lists[i], i, k);
            && 0 <= prev < NQENT && 0 <= next < NQENT
            && Linked(nx[p := next][prev := p], pv[p := prev][next := p], lists[i := PutAt(lists[i], k, p)])
            && Apart(lists[i := PutAt(lists[i], k, p)], on[p := i])
  {
    hide Apart, LinkAt, Node;
    PutApart(lists, on, i, k, p);
    LinkInAt(nx, pv, lists, on, i, k, p, i, 0);
    var prev, next := Node(lists[i], i, k - 1), Node(lists[i], i, k);
    var nx', pv', lists' := nx[p := next][prev := p], pv[p := prev][next := p], lists[i := PutAt(lists[i], k, p)];
    forall a, b | 0 <= a < |lists'| && 0 <= b <= |lists'[a]|
      ensures LinkAt(nx', pv', lists'[a], a, b)
    {
      LinkInAt(nx, pv, lists, on, i, k, p, a, b);
    }
  }

  lemma LinkOut(nx: seq<int>, pv: seq<int>, lists: seq<seq<nat>>, on: seq<int>, i: nat, k: nat)
    requires Linked(nx, pv, lists) && Apart(lists, on) && i < |lists| && k < |lists[i]|
    ensures var p := lists[i][k];
            && p < NPROC && 0 <= nx[p] < NQENT && 0 <= pv[p] < NQENT
            && Linked(nx[pv[p] := nx[p]], pv[nx[p] := pv[p]], lists[i := CutAt(lists[i], k)])
            && Apart(lists[i := CutAt(lists[i], k)], on[p := EMPTY])
  {
    hide Apart, LinkAt, Node;
    CutApart(lists, on, i, k);
    LinkOutAt(nx, pv, lists, on, i, k, i, 0);
    var p, lists' := lists[i][k], lists[i := CutAt(lists[i], k)];
    var nx', pv' := nx[pv[p] := nx[p]], pv[nx[p] := pv[p]];
    forall a, b | 0 <= a < |lists'| && 0 <= b <= |lists'[a]|
      ensures LinkAt(nx', pv', lists'[a], a, b)
    {
      LinkOutAt(nx, pv, lists, on, i, k, a, b);
    }
  }

  ghost predicate Procs(l: seq<nat>) {
    forall j :: 0 <= j < |l| ==> l[j] < NPROC
  }

  /** Where p is on a list. */
  function IndexOf(l: seq<nat>, p: nat): (k: nat)
    requires p in l
    ensures k < |l| && l[k] == p && p !in l[..k]
  {
    if l[0] == p then 0 else 1 + IndexOf(l[1..], p)
  }

  /** Where a process of this key goes on a list of descending keys: behind all whose key
      is not less. */
  function Place(l: seq<nat>, keys: seq<int>, key: int): (k: nat)
    requires forall j :: 0 <= j < |l| ==> l[j] < |keys|
    ensures k <= |l|
    ensures forall j :: 0 <= j < k ==> keys[l[j]] >= key
    ensures k < |l| ==> keys[l[k]] < key
  {
    if |l| == 0 || keys[l[0]] < key then 0 else 1 + Place(l[1..], keys, key)
  }

  lemma PlaceIs(l: seq<nat>, keys: seq<int>, key: int, k: nat)
    requires forall j :: 0 <= j < |l| ==> l[j] < |keys|
    requires k <= |l| && (forall j :: 0 <= j < k ==> keys[l[j]] >= key) && (k < |l| ==> keys[l[k]] < key)
    ensures Place(l, keys, key) == k
  {
  }

  /** Where a process that is to wait d goes on a list of delays, each counted from the
      one before, and what is left of d there. */
  function DPlace(l: seq<nat>, keys: seq<int>, k: nat, d: int): (r: (nat, int))
    requires k <= |l| && forall j :: 0 <= j < |l| ==> l[j] < |keys|
    ensures k <= r.0 <= |l|
    decreases |l| - k
  {
    if k == |l| || keys[l[k]] > d then (k, d) else DPlace(l, keys, k + 1, d - keys[l[k]])
  }

  /** The keys after process p was put in at its place. */
  function DKeys(l: seq<nat>, keys: seq<int>, p: nat, d: int): (r: seq<int>)
    requires p < |keys| && forall j :: 0 <= j < |l| ==> l[j] < |keys|
    ensures |r| == |keys|
  {
    var (k, rest) := DPlace(l, keys, 0, d);
    if k < |l| then keys[p := rest][l[k] := keys[p := rest][l[k]] - rest] else keys[p := rest]
  }

  class QueueTab {
    const qkey: array<int>
    const qnext: array<int>
    const qprev: array<int>
    var nextqid: nat
    ghost var lists: seq<seq<nat>>
    ghost var on: seq<int>

    ghost predicate Valid()
      reads this, qkey, qnext, qprev
    {
      && qkey.Length == NQENT && qkey != qnext && qkey != qprev && qnext != qprev
      && Linked(qnext[..], qprev[..], lists) && Apart(lists, on)
      && nextqid == Qid(|lists|)
      && (forall i :: 0 <= i < |lists| ==> qkey[Qid(i) + 1] == MINKEY)
    }

    ghost function Keys(): (r: seq<int>)
      reads this, qkey
      requires qkey.Length == NQENT
      ensures |r| == NPROC
    {
      qkey[..NPROC]
    }

    ghost predicate IsQueue(q: int, i: nat)
      reads this
    {
      i < |lists| && q == Qid(i)
    }

    constructor ()
      ensures Valid() && lists == [] && Keys() == seq(NPROC, _ => 0)
      ensures fresh(qkey) && fresh(qnext) && fresh(qprev)
    {
      qkey, qnext, qprev := new int[NQENT](_ => 0), new int[NQENT](_ => 0), new int[NQENT](_ => 0);
      nextqid := NPROC;
      lists, on := [], seq(NPROC, _ => EMPTY);
    }

    /** The link between two neighbours on a list. */
    lemma Hop(i: nat, k: nat)
      requires Valid() && i < |lists| && k <= |lists[i]|
      ensures qkey.Length == qnext.Length == qprev.Length == NQENT && Procs(lists[i])
      ensures var x, y := Node(lists[i], i, k - 1), Node(lists[i], i, k);
              0 <= x < NQENT && 0 <= y < NQENT && qnext[x] == y && qprev[y] == x
      ensures Qid(i) + 1 < NQENT && qkey[Qid(i) + 1] == MINKEY
    {
      assert LinkAt(qnext[..], qprev[..], lists[i], i, k);
    }

    /** newqueue */
    method NewQueue() returns (q: int)
      requires Valid()
      modifies this, qkey, qnext, qprev
      ensures Valid() && Keys() == old(Keys())
      ensures Qid(old(|lists|)) < NQENT ==> q == Qid(old(|lists|)) && lists == old(lists) + [[]]
      ensures Qid(old(|lists|)) >= NQENT ==> q == SYSERR && lists == old(lists)
    {
      q := nextqid;
      if q >= NQENT {
        return SYSERR;
      }
      nextqid := nextqid + 2;
      qnext[q] := q + 1;
      qprev[q] := EMPTY;
      qkey[q] := MAXKEY;
      qnext[q + 1] := EMPTY;
      qprev[q + 1] := q;
      qkey[q + 1] := MINKEY;
      NewLinks(old(qnext[..]), old(qprev[..]), lists, on);
      assert qnext[..] == old(qnext[..])[q := q + 1][q + 1 := EMPTY];
      assert qprev[..] == old(qprev[..])[q := EMPTY][q + 1 := q];
      lists := lists + [[]];
    }

    /** Link pid in before the k-th entry of list i. */
    method Join(pid: nat, prev: int, next: int, ghost i: nat, ghost k: nat)
      requires Valid() && pid < NPROC && i < |lists| && k <= |lists[i]| && OffLists(lists, pid)
      requires prev == Node(lists[i], i, k - 1) && next == Node(lists[i], i, k)
      modifies this`lists, this`on, qnext, qprev
      ensures Valid() && lists == old(lists)[i := PutAt(old(lists)[i], k, pid)]
    {
      assert on[pid] == EMPTY;
      LinkIn(qnext[..], qprev[..], lists, on, i, k, pid);
      qnext[pid] := next;
      qprev[pid] := prev;
      qnext[prev] := pid;
      qprev[next] := pid;
      assert qnext[..] == old(qnext[..])[pid := next][prev := pid];
      assert qprev[..] == old(qprev[..])[pid := prev][next := pid];
      lists, on := lists[i := PutAt(lists[i], k, pid)], on[pid := i];
    }

    method SetKey(pid: nat, key: int)
      requires Valid() && pid < NPROC
      modifies qkey
      ensures Valid() && Keys() == old(Keys())[pid := key]
    {
      qkey[pid] := key;
    }

    /** The tests that enqueue, insert and insertd make of their arguments; badpid is the
        value of isbadpid(pid), which is about the process table. */
    ghost predicate Accepted(q: int, badpid: bool) {
      !IsBadQid(q) && !badpid
    }

    /** What these three may be called with when the tests pass. */
    ghost predicate Fit(pid: int, q: int, i: nat)
      reads this
    {
      IsQueue(q, i) && 0 <= pid < NPROC && OffLists(lists, pid)
    }

    /** enqueue */
    method Enqueue(pid: int, q: int, badpid: bool, ghost i: nat) returns (r: int)
      requires Valid() && (Accepted(q, badpid) ==> Fit(pid, q, i))
      modifies this`lists, this`on, qnext, qprev
      ensures Valid() && Keys() == old(Keys())
      ensures !Accepted(q, badpid) ==> r == SYSERR && lists == old(lists)
      ensures Accepted(q, badpid) ==> r == pid && i < |old(lists)| && lists == old(lists)[i := old(lists)[i] + [pid]]
    {
      if IsBadQid(q) || badpid {
        return SYSERR;
      }
      var tail := q + 1;
      ghost var n := |lists[i]|;
      assert LinkAt(qnext[..], qprev[..], lists[i], i, n);
      var prev := qprev[tail];
      Join(pid, prev, tail, i, n);
      assert PutAt(old(lists)[i], n, pid) == old(lists)[i] + [pid];
      r := pid;
    }

    /** insert: the walk to the first process of smaller key, or the tail. */
    method Walk(q: int, key: int, ghost i: nat) returns (curr: int, ghost k: nat)
      requires Valid() && IsQueue(q, i) && key > MINKEY
      ensures Procs(lists[i]) && k == Place(lists[i], Keys(), key)
      ensures curr == Node(lists[i], i, k)
    {
      hide Linked, Apart, PutAt, Place, QueueTab.Valid;
      Hop(i, 0);
      ghost var l, keys := lists[i], Keys();
      curr, k := qnext[q], 0;
      while qkey[curr] >= key
        invariant k <= |l| && curr == Node(l, i, k) && 0 <= curr < NQENT
        invariant forall j :: 0 <= j < k ==> keys[l[j]] >= key
        decreases |l| - k
      {
        Hop(i, k + 1);
        curr := qnext[curr];
        k := k + 1;
      }
      PlaceIs(l, keys, key, k);
    }

    /** insert */
    method Insert(pid: int, q: int, key: int, badpid: bool, ghost i: nat) returns (r: int)
      requires Valid() && (Accepted(q, badpid) ==> Fit(pid, q, i)) && key > MINKEY
      modifies this`lists, this`on, qkey, qnext, qprev
      ensures Valid()
      ensures !Accepted(q, badpid) ==> r == SYSERR && lists == old(lists) && Keys() == old(Keys())
      ensures Accepted(q, badpid) ==>
                && r == OK && i < |old(lists)| && Procs(old(lists)[i])
                && lists == old(lists)[i := PutAt(old(lists)[i], Place(old(lists)[i], old(Keys()), key), pid)]
                && Keys() == old(Keys())[pid := key]
    {
      if IsBadQid(q) || badpid {
        return SYSERR;
      }
      hide Linked, Apart, PutAt, Place, OffLists, QueueTab.Valid, QueueTab.Keys;
      ghost var k;
      var curr;
      curr, k := Walk(q, key, i);
      Hop(i, k);
      var prev := qprev[curr];
      Join(pid, prev, curr, i, k);
      SetKey(pid, key);
      r := OK;
    }

    /** insertd: the walk past all who are to wake no later, which uses up their delays. */
    method DWalk(q: int, delay: int, ghost i: nat) returns (key: int, prev: int, next: int, ghost k: nat)
      requires Valid() && IsQueue(q, i)
      ensures Procs(lists[i]) && DPlace(lists[i], Keys(), 0, delay) == (k, key)
      ensures next == Node(lists[i], i, k) && prev == Node(lists[i], i, k - 1)
    {
      hide Linked, Apart, PutAt, QueueTab.Valid;
      Hop(i, 0);
      ghost var l, keys := lists[i], Keys();
      key, prev, next, k := delay, q, qnext[q], 0;
      while next != q + 1 && qkey[next] <= key
        invariant k <= |l| && next == Node(l, i, k) && prev == Node(l, i, k - 1) && 0 <= next < NQENT
        invariant DPlace(l, keys, 0, delay) == DPlace(l, keys, k, key)
        decreases |l| - k
      {
        Hop(i, k + 1);
        key := key - qkey[next];
        prev := next;
        next := qnext[next];
        k := k + 1;
      }
    }

    /** insertd */
    method InsertD(pid: int, q: int, delay: int, badpid: bool, ghost i: nat) returns (r: int)
      requires Valid() && (Accepted(q, badpid) ==> Fit(pid, q, i))
      modifies this`lists, this`on, qkey, qnext, qprev
      ensures Valid()
      ensures !Accepted(q, badpid) ==> r == SYSERR && lists == old(lists) && Keys() == old(Keys())
      ensures Accepted(q, badpid) ==>
                && r == OK && i < |old(lists)| && Procs(old(lists)[i])
                && lists == old(lists)[i := PutAt(old(lists)[i], DPlace(old(lists)[i], old(Keys()), 0, delay).0, pid)]
                && Keys() == DKeys(old(lists)[i], old(Keys()), pid, delay)
    {
      if IsBadQid(q) || badpid {
        return SYSERR;
      }
      hide Linked, Apart, PutAt, DPlace, OffLists, QueueTab.Valid, QueueTab.Keys;
      ghost var k;
      var key, prev, next;
      key, prev, next, k := DWalk(q, delay, i);
      Hop(i, k);
      Join(pid, prev, next, i, k);
      SetKey(pid, key);
      if next != q + 1 {
        Shorten(next, key);
      }
      r := OK;
    }

    method Shorten(p: nat, d: int)
      requires Valid() && p < NPROC
      modifies qkey
      ensures Valid() && Keys() == old(Keys())[p := old(Keys())[p] - d]
    {
      qkey[p] := qkey[p] - d;
    }

    /** getitem */
    method GetItem(pid: nat, ghost i: nat) returns (r: nat)
      requires Valid() && i < |lists| && pid in lists[i]
      modifies this`lists, this`on, qnext, qprev
      ensures Valid() && r == pid && Keys() == old(Keys())
      ensures i < |old(lists)| && pid in old(lists)[i]
      ensures lists == old(lists)[i := CutAt(old(lists)[i], IndexOf(old(lists)[i], pid))]
      ensures OffLists(lists, pid)
    {
      ghost var k := IndexOf(lists[i], pid);
      LinkOut(qnext[..], qprev[..], lists, on, i, k);
      var next, prev := qnext[pid], qprev[pid];
      qnext[prev] := next;
      qprev[next] := prev;
      assert qnext[..] == old(qnext[..])[prev := next];
      assert qprev[..] == old(qprev[..])[next := prev];
      lists, on := lists[i := CutAt(lists[i], k)], on[pid := EMPTY];
      r := pid;
    }

    /** isempty */
    method IsEmpty(q: int, ghost i: nat) returns (b: bool)
      requires Valid() && IsQueue(q, i)
      ensures b <==> |lists[i]| == 0
    {
      assert LinkAt(qnext[..], qprev[..], lists[i], i, 0);
      b := qnext[q] >= NPROC;
    }

    /** firstkey */
    method FirstKey(q: int, ghost i: nat) returns (key: int)
      requires Valid() && IsQueue(q, i)
      ensures |lists[i]| == 0 ==> key == MINKEY
      ensures |lists[i]| > 0 ==> lists[i][0] < NPROC && key == Keys()[lists[i][0]]
    {
      assert LinkAt(qnext[..], qprev[..], lists[i], i, 0);
      key := qkey[qnext[q]];
    }

    /** getfirst */
    method GetFirst(q: int, ghost i: nat) returns (r: int)
      requires Valid() && IsQueue(q, i)
      modifies this`lists, this`on, qnext, qprev
      ensures Valid() && Keys() == old(Keys())
      ensures |old(lists)[i]| == 0 ==> r == EMPTY && lists == old(lists)
      ensures |old(lists)[i]| > 0 ==>
                && r == old(lists)[i][0] && r < NPROC && OffLists(lists, r)
                   && lists == old(lists)[i := old(lists)[i][1..]]
    {
      var none := IsEmpty(q, i);
      if none {
        return EMPTY;
      }
      assert LinkAt(qnext[..], qprev[..], lists[i], i, 0);
      assert CutAt(lists[i], 0) == lists[i][1..];
      r := GetItem(qnext[q], i);
    }

    /** getlast */
    method GetLast(q: int, ghost i: nat) returns (r: int)
      requires Valid() && IsQueue(q, i)
      modifies this`lists, this`on, qnext, qprev
      ensures Valid() && Keys() == old(Keys())
      ensures |old(lists)[i]| == 0 ==> r == EMPTY && lists == old(lists)
      ensures |old(lists)[i]| > 0 ==>
                var n := |old(lists)[i]| - 1;
                r == old(lists)[i][n] && r < NPROC && OffLists(lists, r) && lists == old(lists)[i := old(lists)[i][..n]]
    {
      var none := IsEmpty(q, i);
      if none {
        return EMPTY;
      }
      ghost var n := |lists[i]| - 1;
      assert LinkAt(qnext[..], qprev[..], lists[i], i, n + 1);
      assert lists[i][n] in lists[i];
      assert CutAt(lists[i], n) == lists[i][..n];
      r := GetItem(qprev[q + 1], i);
    }

    /** dequeue */
    method Dequeue(q: int, ghost i: nat) returns (r: int)
      requires Valid() && (!IsBadQid(q) ==> IsQueue(q, i))
      modifies this`lists, this`on, qnext, qprev
      ensures Valid() && Keys() == old(Keys())
      ensures IsBadQid(q) ==> r == SYSERR && lists == old(lists)
      ensures !IsBadQid(q) ==> i < |old(lists)|
      ensures !IsBadQid(q) && |old(lists)[i]| == 0 ==> r == EMPTY && lists == old(lists)
      ensures !IsBadQid(q) && |old(lists)[i]| > 0 ==>
                && r == old(lists)[i][0] && r < NPROC && OffLists(lists, r)
                   && lists == old(lists)[i := old(lists)[i][1..]]
    {
      if IsBadQid(q) {
        return SYSERR;
      }
      var none := IsEmpty(q, i);
      if none {
        return EMPTY;
      }
      r := GetFirst(q, i);
      LinkFree(qnext[..], qprev[..], lists, on, r);
      ghost var nx, pv := qnext[..], qprev[..];
      qprev[r] := EMPTY;
      qnext[r] := EMPTY;
      assert qnext[..] == nx[r := EMPTY] && qprev[..] == pv[r := EMPTY];
    }
  }

  /** The entry of a process that is on no list may hold anything. */
  lemma LinkFree(nx: seq<int>, pv: seq<int>, lists: seq<seq<nat>>, on: seq<int>, p: nat)
    requires Linked(nx, pv, lists) && Apart(lists, on) && p < NPROC && OffLists(lists, p)
    ensures Linked(nx[p := EMPTY], pv[p := EMPTY], lists)
  {
    var nx', pv' := nx[p := EMPTY], pv[p := EMPTY];
    forall a, b | 0 <= a < |lists| && 0 <= b <= |lists[a]|
      ensures LinkAt(nx', pv', lists[a], a, b)
    {
      assert LinkAt(nx, pv, lists[a], a, b);
    }
  }

  /** Two more entries make one more list. */
  lemma NewLinks(nx: seq<int>, pv: seq<int>, lists: seq<seq<nat>>, on: seq<int>)
    requires Linked(nx, pv, lists) && Apart(lists, on) && Qid(|lists|) < NQENT
    ensures var q := Qid(|lists|);
            Linked(nx[q := q + 1][q + 1 := EMPTY], pv[q := EMPTY][q + 1 := q], lists + [[]]) && Apart(lists + [[]], on)
  {
    var q := Qid(|lists|);
    var nx', pv', lists' := nx[q := q + 1][q + 1 := EMPTY], pv[q := EMPTY][q + 1 := q], lists + [[]];
    forall a, b | 0 <= a < |lists'| && 0 <= b <= |lists'[a]|
      ensures LinkAt(nx', pv', lists'[a], a, b)
    {
      if a < |lists| {
        assert LinkAt(nx, pv, lists[a], a, b);
      }
    }
  }
}
