/** What holds of the process manager at all times. Proofs go by moves: a process is
    lifted off its list, changed, and set down again; in between, everything holds of
    the others. */
module KernelInv {
  import opened KernelQueues
  import opened KernelSleep
  import opened KernelSpec

  /** List membership is determined by the state; p, if it is a process, floats. */
  ghost predicate MembersOf(procs: seq<Proc>, lists: seq<seq<nat>>, p: int)
    requires |procs| == NPROC && |lists| == NLISTS
  {
    && (forall i, q {:trigger q in lists[i]} :: 0 <= i < NLISTS && 0 <= q < NPROC ==>
          (q in lists[i] <==> q != p && Home(procs[q]) == i))
    && (forall i :: 0 <= i < NLISTS ==> Once(lists[i]))
    && (forall q :: 0 <= q < NPROC && q != p && procs[q].prstate == PR_WAIT ==> 0 <= procs[q].prsem < NSEM)
  }

  ghost predicate Members(k: K, p: int)
    requires Sized(k)
  {
    MembersOf(k.procs, k.lists, p)
  }

  /** A process waits for a message only if it has none, and inside receive it is either
      still waiting or has one; nobody kills the null process. */
  predicate MsgOk(pr: Proc, c: Ctx) {
    && (pr.prstate == PR_RECV ==> c == Receiving && !pr.prhasmsg)
    && (pr.prstate == PR_RECTIM ==> c == TimedReceiving && !pr.prhasmsg)
    && (pr.prstate != PR_RECV && c == Receiving ==> pr.prhasmsg)
    && (pr.prstate == PR_FREE ==> c == Nothing)
    && (c.Killing? ==> 0 < c.pid < NPROC)
  }

  /** Apart from p: only the current process is marked so, the null process is current or
      ready, and a process waiting for a message has none. */
  ghost predicate StatesOf(procs: seq<Proc>, ctx: seq<Ctx>, currpid: nat, p: int)
    requires |procs| == NPROC && |ctx| == NPROC
  {
    && (forall q :: 0 <= q < NPROC && q != p && procs[q].prstate == PR_CURR ==> q == currpid)
    && (p != NULLPROC ==> procs[NULLPROC].prstate == PR_CURR || procs[NULLPROC].prstate == PR_READY)
    && (forall q :: 0 <= q < NPROC && q != p ==> MsgOk(procs[q], ctx[q]))
  }

  ghost predicate StatesOk(k: K, p: int)
    requires Sized(k)
  {
    StatesOf(k.procs, k.ctx, k.currpid, p)
  }

  function Waiting(s: Sem): nat {
    if s.used && s.count < 0 then -s.count else 0
  }

  /** A negative count says how many wait. Semaphore x is being emptied. */
  ghost predicate SemsOf(sems: seq<Sem>, lists: seq<seq<nat>>, x: int)
    requires |sems| == NSEM && |lists| == NLISTS
  {
    forall s :: 0 <= s < NSEM && s != x ==> |lists[s]| == Waiting(sems[s]) && sems[s].count <= MAXCOUNT
  }

  ghost predicate SemsOk(k: K, x: int)
    requires Sized(k)
  {
    SemsOf(k.sems, k.lists, x)
  }

  ghost predicate Descending(l: seq<nat>, keys: seq<int>)
    requires |keys| == NPROC && Procs(l)
  {
    forall a, b :: 0 <= a < b < |l| ==> keys[l[a]] >= keys[l[b]]
  }

  ghost predicate ReadyOf(procs: seq<Proc>, l: seq<nat>, keys: seq<int>)
    requires |procs| == NPROC && |keys| == NPROC && Procs(l)
  {
    && Descending(l, keys)
    && forall q :: 0 <= q < NPROC && q in l ==> keys[q] == procs[q].prprio
  }

  /** The ready list is in order of priority. */
  ghost predicate ReadyOk(k: K)
    requires Sized(k)
  {
    ReadyOf(k.procs, k.lists[RL], k.keys)
  }

  ghost predicate SleepOk(k: K)
    requires Sized(k)
  {
    Delays(k.lists[SQ], k.keys)
  }

  ghost predicate Core(k: K, x: int, p: int) {
    && Sized(k) && Members(k, p) && StatesOk(k, p) && SemsOk(k, x) && ReadyOk(k) && SleepOk(k)
    && 1 <= k.preempt <= QUANTUM
  }

  /** No ready process comes before the current one, unless rescheduling was put off. */
  ghost predicate PrioOk(k: K)
    requires Sized(k)
  {
    k.ndefers == 0 || !k.attempt ==>
      forall q :: 0 <= q < NPROC && k.procs[q].prstate == PR_READY ==> k.procs[q].prprio <= k.procs[k.currpid].prprio
  }

  ghost predicate AwakeOk(k: K)
    requires Sized(k)
  {
    |k.lists[SQ]| > 0 ==> k.keys[k.lists[SQ][0]] >= 0
  }

  /** In the middle of wakeup, when some who should run are still on the sleep queue. */
  ghost predicate Waking(k: K) {
    Core(k, -1, -1) && k.procs[k.currpid].prstate == PR_CURR && PrioOk(k)
  }

  ghost predicate Inv(k: K) {
    Core(k, -1, -1) && k.procs[k.currpid].prstate == PR_CURR && PrioOk(k) && AwakeOk(k)
  }

  // ---- lifting a process ----

  lemma LiftOk(k: K, x: int, p: nat)
    requires Core(k, x, -1) && p < NPROC && Home(k.procs[p]) == EMPTY
    ensures Core(k, x, p)
  {
  }

  lemma CutDescending(l: seq<nat>, keys: seq<int>, a: nat)
    requires |keys| == NPROC && Procs(l) && Descending(l, keys) && a < |l|
    ensures Procs(CutAt(l, a)) && Descending(CutAt(l, a), keys)
  {
  }

  /** Off list i, in the k-th place of which p stands; t says what is known of the rest. */
  lemma CutMembersOk(k: K, p: nat, i: nat, a: nat)
    requires Sized(k) && Members(k, -1) && i < NLISTS && a < |k.lists[i]| && k.lists[i][a] == p
    ensures var t := SetList(k, i, CutAt(k.lists[i], a)); Sized(t) && Members(t, p)
  {
    assert p in k.lists[i] && p < NPROC;
    CutMembers(k.lists[i], a);
    var t := SetList(k, i, CutAt(k.lists[i], a));
    assert Sized(t);
    hide CutAt;
    forall h, q | 0 <= h < NLISTS && 0 <= q < NPROC
      ensures q in t.lists[h] <==> q != p && Home(t.procs[q]) == h
    {
      assert q in k.lists[h] <==> Home(k.procs[q]) == h;
    }
  }

  /** Off the ready list or the queue of a semaphore. */
  lemma UnlinkOk(k: K, x: int, p: nat, i: nat)
    requires Core(k, x, -1) && p < NPROC && Home(k.procs[p]) == i && i < SQ
    requires i == RL || x == -1 || x == i
    ensures Core(Unlink(k, p, i), if i == RL then x else i, p)
  {
    assert p in k.lists[i];
    var a := IndexOf(k.lists[i], p);
    CutMembersOk(k, p, i, a);
    CutMembers(k.lists[i], a);
    hide MembersOf, CutAt;
    if i == RL {
      CutDescending(k.lists[i], k.keys, a);
    }
  }

  /** The first of a list is one of those. */
  lemma HeadIs(k: K, i: nat)
    requires Sized(k) && Members(k, -1) && i < NLISTS && |k.lists[i]| > 0
    ensures var p := k.lists[i][0];
            p < NPROC && Home(k.procs[p]) == i && Unlink(k, p, i) == SetList(k, i, k.lists[i][1..])
  {
    var p := k.lists[i][0];
    assert p in k.lists[i];
    assert IndexOf(k.lists[i], p) == 0;
    assert CutAt(k.lists[i], 0) == k.lists[i][1..];
  }

  // ---- setting it down ----

  /** What process p does when it floats is its own affair. */
  lemma TouchOk(k: K, x: int, p: nat, pr: Proc, c: Ctx)
    requires Core(k, x, p) && p < NPROC
    ensures Core(k.(procs := k.procs[p := pr], ctx := k.ctx[p := c]), x, p)
  {
    TouchMembers(k, p, pr, c);
    hide MembersOf;
  }

  lemma TouchMembers(k: K, p: nat, pr: Proc, c: Ctx)
    requires Sized(k) && Members(k, p) && p < NPROC
    ensures Members(k.(procs := k.procs[p := pr]), p)
    ensures Members(k.(procs := k.procs[p := pr], ctx := k.ctx[p := c]), p)
    ensures p !in k.lists[RL]
  {
  }

  lemma LandOk(k: K, x: int, p: nat)
    requires Core(k, x, p) && p < NPROC && Home(k.procs[p]) == EMPTY && k.procs[p].prstate != PR_WAIT
    requires k.procs[p].prstate == PR_CURR ==> p == k.currpid
    requires p == NULLPROC ==> k.procs[p].prstate == PR_CURR
    requires MsgOk(k.procs[p], k.ctx[p])
    ensures Core(k, x, -1)
  {
  }

  lemma PutMembersOk(k: K, p: nat, i: nat, a: nat)
    requires Sized(k) && Members(k, p) && i < NLISTS && a <= |k.lists[i]| && p < NPROC
    requires Home(k.procs[p]) == i && (k.procs[p].prstate == PR_WAIT ==> i < NSEM)
    ensures var t := SetList(k, i, PutAt(k.lists[i], a, p)); Sized(t) && Members(t, -1)
  {
    assert p !in k.lists[i];
    PutMembers(k.lists[i], a, p);
  }

  lemma PutDescending(l: seq<nat>, keys: seq<int>, p: nat, key: int)
    requires |keys| == NPROC && Procs(l) && Descending(l, keys) && p < NPROC && p !in l
    ensures Procs(PutAt(l, Place(l, keys, key), p))
    ensures Descending(PutAt(l, Place(l, keys, key), p), keys[p := key])
  {
    var a := Place(l, keys, key);
    forall b | 0 <= b < |l|
      ensures l[b] != p && (b < a ==> keys[l[b]] >= key) && (b >= a ==> keys[l[b]] <= key)
    {
      assert l[b] in l;
    }
  }

  lemma EnreadyOk(k: K, x: int, p: nat)
    requires Core(k, x, p) && p < NPROC && MsgOk(k.procs[p].(prstate := PR_READY), k.ctx[p])
    ensures Core(Enready(k, p), x, -1)
  {
    var l, prio, t := k.lists[RL], k.procs[p].prprio, Enready(k, p);
    assert p !in l && p !in k.lists[SQ] && Once(l);
    hide PutAt, Place;
    assert Members(t, -1) by {
      TouchMembers(k, p, k.procs[p].(prstate := PR_READY), Nothing);
      PutMembersOk(SetState(k, p, PR_READY), p, RL, Place(l, k.keys, prio));
    }
    assert ReadyOk(t) by {
      PutDescending(l, k.keys, p, prio);
      PutMembers(l, Place(l, k.keys, prio), p);
    }
    hide MembersOf;
    assert StatesOk(t, -1) && SemsOk(t, x);
    assert SleepOk(t) by { KeysElsewhere(k, t, p); }
  }

  /** Changing the key of a process that is not asleep does not matter to the sleepers. */
  lemma KeysElsewhere(k: K, t: K, p: nat)
    requires Sized(k) && Sized(t) && SleepOk(k) && p < NPROC && p !in k.lists[SQ]
    requires t.lists[SQ] == k.lists[SQ] && forall q :: 0 <= q < NPROC && q != p ==> t.keys[q] == k.keys[q]
    ensures SleepOk(t)
  {
    var l := k.lists[SQ];
    forall j | 0 <= j < |l|
      ensures t.keys[l[j]] == k.keys[l[j]]
    {
      assert l[j] in l;
    }
    if |l| > 0 {
      LeftSame(l, k.keys, l, t.keys, |l| - 1);
    }
  }

  lemma CurrentOk(k: K, x: int, p: nat)
    requires Core(k, x, p) && p < NPROC && forall q :: 0 <= q < NPROC && q != p ==> k.procs[q].prstate != PR_CURR
    ensures Core(k.(currpid := p, preempt := QUANTUM), x, p)
  {
  }

  /** The head of the ready list becomes current. */
  lemma DispatchOk(k: K, x: int)
    requires Core(k, x, -1) && |k.lists[RL]| > 0 && forall q :: 0 <= q < NPROC ==> k.procs[q].prstate != PR_CURR
    ensures Core(Dispatch(k), x, -1) && Dispatch(k).procs[Dispatch(k).currpid].prstate == PR_CURR
    ensures forall q :: 0 <= q < NPROC && Dispatch(k).procs[q].prstate == PR_READY ==>
              k.procs[q].prprio <= Dispatch(k).procs[Dispatch(k).currpid].prprio
  {
    hide MembersOf, ReadyOf, Delays, SemsOf;
    var p := k.lists[RL][0];
    HeadIs(k, RL);
    UnlinkOk(k, x, p, RL);
    var t := Unlink(k, p, RL);
    var u := Dispatch(k);
    CurrentOk(t, x, p);
    TouchOk(t.(currpid := p, preempt := QUANTUM), x, p, k.procs[p].(prstate := PR_CURR), k.ctx[p]);
    assert u.ctx == k.ctx[p := k.ctx[p]];
    LandOk(u, x, p);
    HeadFirst(k, x);
  }

  /** No ready process comes before the head of the ready list. */
  lemma HeadFirst(k: K, x: int)
    requires Core(k, x, -1) && |k.lists[RL]| > 0
    ensures k.lists[RL][0] < NPROC
    ensures forall q :: 0 <= q < NPROC && k.procs[q].prstate == PR_READY ==>
              k.procs[q].prprio <= k.procs[k.lists[RL][0]].prprio
  {
    hide Delays, SemsOf;
    var p := k.lists[RL][0];
    assert p in k.lists[RL];
    forall q | 0 <= q < NPROC && k.procs[q].prstate == PR_READY
      ensures k.procs[q].prprio <= k.procs[p].prprio
    {
      assert q in k.lists[RL];
    }
  }

  /** resched finds a process to run. */
  lemma NeverStuck(k: K, x: int)
    requires Core(k, x, -1) && k.procs[k.currpid].prstate != PR_CURR
    ensures |k.lists[RL]| > 0
  {
    assert NULLPROC in k.lists[RL];
  }

  /** What rescheduling, or readying process p (-1 for none) as well, leaves alone. */
  ghost predicate Steady(k: K, t: K, p: int)
    requires Sized(k) && Sized(t)
  {
    && t.sems == k.sems && t.ctx == k.ctx && t.ndefers == k.ndefers
    && (forall i :: 0 <= i < NLISTS && i != RL ==> t.lists[i] == k.lists[i])
    && (forall q :: 0 <= q < NPROC ==>
          && t.procs[q].(prstate := k.procs[q].prstate) == k.procs[q]
          && (q == p || t.procs[q].prstate == k.procs[q].prstate || (Able(t.procs[q]) && Able(k.procs[q])))
          && (q == p || Able(k.procs[q]) || t.keys[q] == k.keys[q]))
    && (0 <= p < NPROC ==> Able(t.procs[p]))
  }

  predicate Able(pr: Proc) {
    pr.prstate == PR_CURR || pr.prstate == PR_READY
  }

  lemma EnreadySteady(k: K, p: nat)
    requires Sized(k) && p < NPROC
    ensures Steady(k, Enready(k, p), p)
  {
  }

  lemma DispatchSteady(k: K, x: int)
    requires Core(k, x, -1)
    ensures Steady(k, Dispatch(k), -1)
  {
    if |k.lists[RL]| > 0 {
      HeadIs(k, RL);
    }
  }

  lemma SteadyOn(k: K, t: K, u: K, p: int, q: int)
    requires Sized(k) && Sized(t) && Sized(u) && Steady(k, t, p) && Steady(t, u, q)
    requires q == -1 || q == p || (p == -1 && 0 <= q < NPROC && Able(k.procs[q]) && Able(u.procs[q]))
    ensures Steady(k, u, p)
  {
  }

  ghost predicate Dispatched(k: K, t: K, x: int) {
    Sized(k) && Core(t, x, -1) && t.procs[t.currpid].prstate == PR_CURR && PrioOk(t) && Steady(k, t, -1)
  }

  lemma DeferralOk(k: K, x: int, p: int, n: nat, b: bool)
    requires Core(k, x, p)
    ensures Core(k.(ndefers := n, attempt := b), x, p)
  {
  }

  lemma SwitchOk(k: K, x: int)
    requires Core(k, x, -1) && |k.lists[RL]| > 0 && forall q :: 0 <= q < NPROC ==> k.procs[q].prstate != PR_CURR
    ensures Dispatched(k, Dispatch(k), x)
  {
    hide MembersOf, SemsOf, Delays, StatesOf, ReadyOf;
    DispatchOk(k, x);
    DispatchSteady(k, x);
  }

  lemma YieldOk(k: K, x: int)
    requires Core(k, x, -1) && k.procs[k.currpid].prstate == PR_CURR
    ensures Dispatched(k, Dispatch(Enready(k, k.currpid)), x)
  {
    hide MembersOf, SemsOf, Delays, ReadyOf;
    var c := k.currpid;
    LiftOk(k, x, c);
    EnreadyOk(k, x, c);
    var t := Enready(k, c);
    EnreadySteady(k, c);
    SwitchOk(t, x);
    SteadyOn(k, t, Dispatch(t), c, -1);
  }

  /** Rescheduling leaves everything in order whatever the state of the current process. */
  lemma ReschedOk(k: K, x: int)
    requires Core(k, x, -1) && (k.ndefers > 0 ==> k.procs[k.currpid].prstate == PR_CURR)
    ensures Dispatched(k, Resched(k), x)
  {
    var c := k.currpid;
    if k.ndefers > 0 {
      DeferralOk(k, x, -1, k.ndefers, true);
    } else if k.procs[c].prstate != PR_CURR {
      NeverStuck(k, x);
      SwitchOk(k, x);
    } else if k.procs[c].prprio > FirstKey(k) {
      KeepsProcessor(k, x);
    } else {
      YieldOk(k, x);
    }
  }

  lemma KeepsProcessor(k: K, x: int)
    requires Core(k, x, -1) && k.procs[k.currpid].prprio > FirstKey(k)
    ensures PrioOk(k)
  {
    forall q | 0 <= q < NPROC && k.procs[q].prstate == PR_READY
      ensures k.procs[q].prprio <= k.procs[k.currpid].prprio
    {
      assert q in k.lists[RL];
    }
  }
}
