/** The message nodes of all ports: singly linked lists in one array, one for every port and
    one of the nodes that are free. */
module PortNodes {
  import Queues = KernelQueues

  const NULL := -1

  /** The one after the j-th. */
  function After(l: seq<nat>, j: nat): int {
    if j + 1 < |l| then l[j + 1] else NULL
  }

  /** Every node of the list points to the next, and the last to none. */
  ghost predicate Linked(next: seq<int>, l: seq<nat>) {
    forall j :: 0 <= j < |l| ==> l[j] < |next| && next[l[j]] == After(l, j)
  }

  ghost predicate AllLinked(next: seq<int>, lists: seq<seq<nat>>) {
    forall a :: 0 <= a < |lists| ==> Linked(next, lists[a])
  }

  /** Every node is on one list, which is its home, and there once. */
  ghost predicate Homes(home: seq<nat>, lists: seq<seq<nat>>) {
    && (forall v :: 0 <= v < |home| ==> home[v] < |lists|)
    && (forall a, v: nat {:trigger v in lists[a]} :: 0 <= a < |lists| ==>
        (v in lists[a] <==> v < |home| && home[v] == a))
    && (forall a :: 0 <= a < |lists| ==> Queues.Once(lists[a]))
  }

  function First(l: seq<nat>): int {
    if |l| == 0 then NULL else l[0]
  }

  function Last(l: seq<nat>): int {
    if |l| == 0 then NULL else l[|l| - 1]
  }

  /** What the nodes of the list hold. */
  ghost function Msgs(msg: seq<int>, l: seq<nat>): (r: seq<int>)
    requires forall j :: 0 <= j < |l| ==> l[j] < |msg|
    ensures |r| == |l|
  {
    seq(|l|, j requires 0 <= j < |l| => msg[l[j]])
  }

  // ---- one list ----

  lemma LinkedKept(next: seq<int>, l: seq<nat>, v: nat, x: int)
    requires Linked(next, l) && v < |next| && v !in l
    ensures Linked(next[v := x], l)
  {
    assert forall j :: 0 <= j < |l| ==> l[j] in l;
  }

  lemma LinkedRest(next: seq<int>, l: seq<nat>)
    requires Linked(next, l) && |l| > 0
    ensures l[0] < |next| && next[l[0]] == First(l[1..]) && Linked(next, l[1..])
  {
    forall j | 0 <= j < |l[1..]|
      ensures l[1..][j] < |next| && next[l[1..][j]] == After(l[1..], j)
    {
      assert l[1..][j] == l[j + 1];
    }
  }

  lemma LinkedFront(next: seq<int>, l: seq<nat>, v: nat)
    requires Linked(next, l) && v < |next| && v !in l
    ensures Linked(next[v := First(l)], [v] + l)
  {
    LinkedKept(next, l, v, First(l));
    var m := [v] + l;
    forall j | 0 <= j < |m|
      ensures m[j] < |next| && next[v := First(l)][m[j]] == After(m, j)
    {
      assert j > 0 ==> m[j] == l[j - 1];
    }
  }

  /** One link joins two lists. */
  lemma LinkedJoin(next: seq<int>, l: seq<nat>, m: seq<nat>)
    requires Linked(next, l) && Linked(next, m) && Queues.Once(l) && |l| > 0 && Last(l) !in m
    ensures 0 <= Last(l) < |next| && Linked(next[Last(l) := First(m)], l + m)
  {
    var n := |l|;
    var t := l[n - 1];
    LinkedKept(next, m, t, First(m));
    forall j | 0 <= j < |l + m|
      ensures (l + m)[j] < |next|
      ensures next[t := First(m)][(l + m)[j]] == After(l + m, j)
    {
      if j < n {
        assert (l + m)[j] == l[j] && (j < n - 1 ==> l[j] != t);
      } else {
        assert (l + m)[j] == m[j - n];
      }
    }
  }

  // ---- moving nodes ----

  /** The first of list f goes to the end of list i. */
  ghost function Enlisted(lists: seq<seq<nat>>, f: nat, i: nat): (r: seq<seq<nat>>)
    requires f < |lists| && i < |lists| && |lists[f]| > 0
    ensures |r| == |lists|
  {
    lists[f := lists[f][1..]][i := lists[i] + [lists[f][0]]]
  }

  /** ptsend: the links, and where the node is at home. */
  lemma EnlistOk(next: seq<int>, lists: seq<seq<nat>>, home: seq<nat>, f: nat, i: nat)
    requires AllLinked(next, lists) && Homes(home, lists) && |home| == |next|
    requires f < |lists| && i < |lists| && f != i && |lists[f]| > 0
    ensures var v, t := lists[f][0], Last(lists[i]);
            && v < |next| && (t != NULL ==> 0 <= t < |next| && t != v)
            && (var next' := if t == NULL then next[v := NULL] else next[v := NULL][t := v];
                AllLinked(next', Enlisted(lists, f, i)) && Homes(home[v := i], Enlisted(lists, f, i)))
  {
    var l := lists[i];
    var v, t := lists[f][0], Last(l);
    var next1, lists' := next[v := NULL], Enlisted(lists, f, i);
    var next' := if t == NULL then next1 else next1[t := v];
    assert v in lists[f] && (t != NULL ==> l[|l| - 1] in l);
    EnlistHomes(lists, home, f, i);
    LinkedRest(next, lists[f]);
    LinkedKept(next, l, v, NULL);
    assert v !in lists[f][1..];
    assert Linked(next1, [v]);
    if t != NULL {
      LinkedJoin(next1, l, [v]);
    } else {
      assert l + [v] == [v];
    }
    forall a | 0 <= a < |lists|
      ensures Linked(next', lists'[a])
    {
      if a != i {
        var m := lists'[a];
        assert v !in m && (t != NULL ==> t !in m) && Linked(next, m);
        LinkedKept(next, m, v, NULL);
        if t != NULL {
          LinkedKept(next1, m, t, v);
        }
      }
    }
  }

  lemma EnlistHomes(lists: seq<seq<nat>>, home: seq<nat>, f: nat, i: nat)
    requires Homes(home, lists) && f < |lists| && i < |lists| && f != i && |lists[f]| > 0
    ensures lists[f][0] < |home| && Homes(home[lists[f][0] := i], Enlisted(lists, f, i))
  {
    var v := lists[f][0];
    assert v in lists[f];
    var lists', home' := Enlisted(lists, f, i), home[v := i];
    assert v !in lists[f][1..];
    assert forall u: nat :: u in lists[f] <==> u == v || u in lists[f][1..];
    assert v !in lists[i];
    assert Queues.Once(lists[i] + [v]);
    forall a, u: nat {:trigger u in lists'[a]} | 0 <= a < |lists|
      ensures u in lists'[a] <==> u < |home'| && home'[u] == a
    {
      assert u in lists[a] <==> u < |home| && home[u] == a;
    }
  }

  /** The first of list i goes to the front of list f. */
  ghost function Released(lists: seq<seq<nat>>, f: nat, i: nat): (r: seq<seq<nat>>)
    requires f < |lists| && i < |lists| && |lists[i]| > 0
    ensures |r| == |lists|
  {
    lists[i := lists[i][1..]][f := [lists[i][0]] + lists[f]]
  }

  /** ptrecv */
  lemma ReleaseOk(next: seq<int>, lists: seq<seq<nat>>, home: seq<nat>, f: nat, i: nat)
    requires AllLinked(next, lists) && Homes(home, lists) && |home| == |next|
    requires f < |lists| && i < |lists| && f != i && |lists[i]| > 0
    ensures var v := lists[i][0];
            && v < |next| && next[v] == First(lists[i][1..])
            && AllLinked(next[v := First(lists[f])], Released(lists, f, i))
            && Homes(home[v := f], Released(lists, f, i))
  {
    var v, l := lists[i][0], lists[i];
    var lists', next' := Released(lists, f, i), next[v := First(lists[f])];
    assert v in l && v !in l[1..] && v !in lists[f];
    LinkedRest(next, l);
    LinkedFront(next, lists[f], v);
    ReleaseHomes(lists, home, f, i);
    forall a | 0 <= a < |lists|
      ensures Linked(next', lists'[a])
    {
      if a != f {
        assert v !in lists'[a] && Linked(next, lists'[a]);
        LinkedKept(next, lists'[a], v, First(lists[f]));
      }
    }
  }

  lemma ReleaseHomes(lists: seq<seq<nat>>, home: seq<nat>, f: nat, i: nat)
    requires Homes(home, lists) && f < |lists| && i < |lists| && f != i && |lists[i]| > 0
    ensures lists[i][0] < |home| && Homes(home[lists[i][0] := f], Released(lists, f, i))
  {
    var v := lists[i][0];
    assert v in lists[i];
    var lists', home' := Released(lists, f, i), home[v := f];
    assert v !in lists[i][1..];
    assert forall u: nat :: u in lists[i] <==> u == v || u in lists[i][1..];
    assert v !in lists[f];
    assert Queues.Once([v] + lists[f]);
    forall a, u: nat {:trigger u in lists'[a]} | 0 <= a < |lists|
      ensures u in lists'[a] <==> u < |home'| && home'[u] == a
    {
      assert u in lists[a] <==> u < |home| && home[u] == a;
    }
  }

  /** All of list i goes to the front of list f. */
  ghost function Spliced(lists: seq<seq<nat>>, f: nat, i: nat): (r: seq<seq<nat>>)
    requires f < |lists| && i < |lists|
    ensures |r| == |lists|
  {
    lists[i := []][f := lists[i] + lists[f]]
  }

  ghost function Rehomed(home: seq<nat>, f: nat, i: nat): (r: seq<nat>)
    ensures |r| == |home|
  {
    seq(|home|, v requires 0 <= v < |home| => if home[v] == i then f else home[v])
  }

  /** _ptclear: one link moves the whole list. */
  lemma SpliceOk(next: seq<int>, lists: seq<seq<nat>>, home: seq<nat>, f: nat, i: nat)
    requires AllLinked(next, lists) && Homes(home, lists) && |home| == |next|
    requires f < |lists| && i < |lists| && f != i && |lists[i]| > 0
    ensures var t := Last(lists[i]);
            && 0 <= t < |next|
            && AllLinked(next[t := First(lists[f])], Spliced(lists, f, i))
               && Homes(Rehomed(home, f, i), Spliced(lists, f, i))
  {
    var l := lists[i];
    var t := l[|l| - 1];
    assert t in l && t !in lists[f];
    var lists', next' := Spliced(lists, f, i), next[t := First(lists[f])];
    SpliceHomes(lists, home, f, i);
    LinkedJoin(next, l, lists[f]);
    forall a | 0 <= a < |lists|
      ensures Linked(next', lists'[a])
    {
      if a != f && a != i {
        assert t !in lists[a] && Linked(next, lists[a]);
        LinkedKept(next, lists[a], t, First(lists[f]));
      }
    }
  }

  lemma SpliceHomes(lists: seq<seq<nat>>, home: seq<nat>, f: nat, i: nat)
    requires Homes(home, lists) && f < |lists| && i < |lists| && f != i
    ensures Homes(Rehomed(home, f, i), Spliced(lists, f, i))
  {
    var lists', home' := Spliced(lists, f, i), Rehomed(home, f, i);
    assert Queues.Once(lists[i] + lists[f]) by {
      forall j, k | 0 <= j < |lists[i]| && 0 <= k < |lists[f]|
        ensures lists[i][j] != lists[f][k]
      {
        assert lists[i][j] in lists[i] && lists[f][k] in lists[f];
      }
    }
    forall a, u: nat {:trigger u in lists'[a]} | 0 <= a < |lists|
      ensures u in lists'[a] <==> u < |home'| && home'[u] == a
    {
      assert u in lists[a] <==> u < |home| && home[u] == a;
      assert u in lists[i] <==> u < |home| && home[u] == i;
      assert u in lists[f] <==> u < |home| && home[u] == f;
    }
  }

  // ---- what nodes hold ----

  lemma MsgsKept(msg: seq<int>, l: seq<nat>, v: nat, x: int)
    requires v < |msg| && v !in l && forall j :: 0 <= j < |l| ==> l[j] < |msg|
    ensures Msgs(msg[v := x], l) == Msgs(msg, l)
  {
    assert forall j :: 0 <= j < |l| ==> l[j] in l;
  }

  lemma MsgsMore(msg: seq<int>, l: seq<nat>, v: nat)
    requires v < |msg| && forall j :: 0 <= j < |l| ==> l[j] < |msg|
    ensures Msgs(msg, l + [v]) == Msgs(msg, l) + [msg[v]]
  {
  }

  lemma MsgsRest(msg: seq<int>, l: seq<nat>)
    requires |l| > 0 && forall j :: 0 <= j < |l| ==> l[j] < |msg|
    ensures Msgs(msg, l) == [msg[l[0]]] + Msgs(msg, l[1..])
  {
  }

  /** All nodes, and the list of those that are free, the last of lists. */
  class NodePool {
    const ptmsg: array<int>
    const ptnext: array<int>
    var ptfree: int
    ghost var lists: seq<seq<nat>>
    ghost var home: seq<nat>

    ghost predicate Shape()
      reads this, ptmsg, ptnext
    {
      && ptmsg != ptnext && ptmsg.Length == ptnext.Length == |home| && |lists| > 0
      && AllLinked(ptnext[..], lists) && Homes(home, lists) && ptfree == First(lists[|lists| - 1])
    }

    /** The messages on a list. */
    ghost function Held(a: nat): (r: seq<int>)
      reads this, ptmsg, ptnext
      requires Shape() && a < |lists|
      ensures |r| == |lists[a]|
    {
      assert Linked(ptnext[..], lists[a]);
      Msgs(ptmsg[..], lists[a])
    }

    /** ptinit: all nodes are free, each linked to the one behind it; n is the number of other
        lists. */
    constructor (maxmsgs: nat, n: nat)
      requires maxmsgs > 0
      ensures Shape() && fresh(ptmsg) && fresh(ptnext) && |lists| == n + 1 && |home| == maxmsgs
      ensures (forall a :: 0 <= a < n ==> |lists[a]| == 0) && |lists[n]| == maxmsgs
    {
      ptmsg := new int[maxmsgs];
      ptnext := new int[maxmsgs];
      ptfree := 0;
      lists := seq(n, _ => []) + [seq(maxmsgs, j => j)];
      home := seq(maxmsgs, _ => n);
      new;
      var left, curr, next := maxmsgs - 1, 0, 0;
      while left > 0
        invariant curr == next == maxmsgs - 1 - left
        invariant forall j :: 0 <= j < curr ==> ptnext[j] == j + 1
        modifies ptnext
      {
        next := next + 1;
        ptnext[curr] := next;
        curr, left := next, left - 1;
      }
      ptnext[curr] := NULL;
      ghost var l := lists[n];
      assert forall j :: 0 <= j < maxmsgs ==> l[j] == j && After(l, j) == if j + 1 < maxmsgs then j + 1 else NULL;
      assert Homes(home, lists) by {
        forall a, v: nat {:trigger v in lists[a]} | 0 <= a < |lists|
          ensures v in lists[a] <==> v < |home| && home[v] == a
        {
          if a == n && v < maxmsgs {
            assert l[v] == v;
          }
        }
      }
    }

    /** ptsend: a node from the free list gets the message and goes behind the last one of
        list i. */
    method Put(msg: int, last: int, ghost i: nat) returns (node: int)
      requires Shape() && i + 1 < |lists| && |lists[|lists| - 1]| > 0 && last == Last(lists[i])
      modifies this, ptmsg, ptnext
      ensures Shape() && |lists| == old(|lists|) && |home| == old(|home|)
      ensures lists == Enlisted(old(lists), |old(lists)| - 1, i) && node == Last(lists[i])
      ensures Held(i) == old(Held(i)) + [msg]
      ensures forall a :: 0 <= a < |lists| - 1 && a != i ==> Held(a) == old(Held(a))
    {
      ghost var f := |lists| - 1;
      EnlistOk(ptnext[..], lists, home, f, i);
      LinkedRest(ptnext[..], lists[f]);
      PutKeeps(ptmsg[..], ptnext[..], msg, i);
      ghost var next0, msg0 := ptnext[..], ptmsg[..];
      node := ptfree;
      ptfree := ptnext[node];
      ptnext[node] := NULL;
      ptmsg[node] := msg;
      assert ptnext[..] == next0[node := NULL];
      assert ptmsg[..] == msg0[node := msg];
      if last != NULL {
        ptnext[last] := node;
        assert ptnext[..] == next0[node := NULL][last := node];
      }
      lists, home := Enlisted(lists, f, i), home[node := i];
    }

    /** What the other lists hold after that. */
    lemma PutKeeps(msg0: seq<int>, next0: seq<int>, msg: int, i: nat)
      requires Shape() && i + 1 < |lists| && |lists[|lists| - 1]| > 0 && msg0 == ptmsg[..] && next0 == ptnext[..]
      ensures var f, v := |lists| - 1, lists[|lists| - 1][0];
              && v < |msg0| && v !in lists[i]
              && (forall j :: 0 <= j < |lists[i]| ==> lists[i][j] < |msg0|)
              && Msgs(msg0[v := msg], lists[i] + [v]) == Msgs(msg0, lists[i]) + [msg]
              && (forall a :: 0 <= a < f && a != i ==>
                    && (forall j :: 0 <= j < |lists[a]| ==> lists[a][j] < |msg0|)
                    && Msgs(msg0[v := msg], lists[a]) == Msgs(msg0, lists[a]))
    {
      var f, v := |lists| - 1, lists[|lists| - 1][0];
      assert v in lists[f];
      forall a | 0 <= a < f
        ensures forall j :: 0 <= j < |lists[a]| ==> lists[a][j] < |msg0|
        ensures Msgs(msg0[v := msg], lists[a]) == Msgs(msg0, lists[a])
      {
        assert Linked(next0, lists[a]);
        assert v !in lists[a];
        MsgsKept(msg0, lists[a], v, msg);
      }
      MsgsMore(msg0[v := msg], lists[i], v);
    }

    /** ptrecv: the first node of list i gives its message and is free again; next is the one
        behind it. */
    method Take(head: int, ghost i: nat) returns (msg: int, next: int)
      requires Shape() && i + 1 < |lists| && |lists[i]| > 0 && head == lists[i][0]
      modifies this, ptnext
      ensures Shape() && |lists| == old(|lists|) && |home| == old(|home|)
      ensures lists == Released(old(lists), |old(lists)| - 1, i) && next == First(lists[i])
      ensures old(Held(i)) == [msg] + Held(i)
      ensures forall a :: 0 <= a < |lists| - 1 && a != i ==> Held(a) == old(Held(a))
    {
      hide AllLinked, Homes, Msgs;
      ghost var f, next0 := |lists| - 1, ptnext[..];
      ReleaseOk(next0, lists, home, f, i);
      Inside();
      MsgsRest(ptmsg[..], lists[i]);
      msg, next := ptmsg[head], ptnext[head];
      ptnext[head] := ptfree;
      assert ptnext[..] == next0[head := First(lists[f])];
      ptfree := head;
      lists, home := Released(lists, f, i), home[head := f];
    }

    /** The first is also the last if there is only one. */
    lemma Single(a: nat)
      requires Shape() && a < |lists| && |lists[a]| > 0
      ensures First(lists[a]) == lists[a][0] && (First(lists[a]) == Last(lists[a]) <==> |lists[a]| == 1)
    {
      assert Queues.Once(lists[a]);
    }

    /** Nodes on lists are nodes. */
    lemma Inside()
      requires Shape()
      ensures forall a, j {:trigger lists[a][j]} :: 0 <= a < |lists| && 0 <= j < |lists[a]| ==>
              lists[a][j] < ptmsg.Length
    {
      forall a, j | 0 <= a < |lists| && 0 <= j < |lists[a]|
        ensures lists[a][j] < ptmsg.Length
      {
        assert lists[a][j] in lists[a];
      }
    }

    /** _ptclear: all of list i is free again. */
    method Splice(head: int, tail: int, ghost i: nat)
      requires Shape() && i + 1 < |lists| && |lists[i]| > 0 && head == First(lists[i]) && tail == Last(lists[i])
      modifies this, ptnext
      ensures Shape() && |lists| == old(|lists|) && |home| == old(|home|)
      ensures lists == Spliced(old(lists), |old(lists)| - 1, i)
      ensures forall a :: 0 <= a < |lists| - 1 && a != i ==> Held(a) == old(Held(a))
    {
      hide AllLinked, Homes, Msgs;
      ghost var f, next0 := |lists| - 1, ptnext[..];
      SpliceOk(next0, lists, home, f, i);
      ptnext[tail] := ptfree;
      assert ptnext[..] == next0[tail := First(lists[f])];
      ptfree := head;
      lists, home := Spliced(lists, f, i), Rehomed(home, f, i);
    }

    /** One step of the walk along list i: what its j-th node holds, and the next node. */
    lemma Walk(node: int, i: nat, j: nat)
      requires Shape() && i < |lists| && j < |lists[i]| && node == lists[i][j]
      ensures 0 <= node < ptmsg.Length == ptnext.Length && ptmsg[node] == Held(i)[j]
              && ptnext[node] == After(lists[i], j)
    {
      assert Linked(ptnext[..], lists[i]);
    }
  }
}
