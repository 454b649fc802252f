/** The order in which processes that are let go together come to run. */
module KernelReleases {
  import opened KernelQueues
  import opened KernelSleep
  import opened KernelSpec
  import opened KernelInv
  import opened KernelCalls
  import opened KernelProcs
  import opened KernelFrame
  import opened KernelRuns
  import opened KernelMail
  import opened KernelAnswers

  /** Those of the list that have that priority, in order. */
  function OfPrio(l: seq<nat>, procs: seq<Proc>, prio: int): seq<nat>
    requires forall j :: 0 <= j < |l| ==> l[j] < |procs|
  {
    if |l| == 0 then []
    else
      var p := l[|l| - 1];
      OfPrio(l[..|l| - 1], procs, prio) + if procs[p].prprio == prio then [p] else []
  }

  lemma {:induction false} OfPrioCat(a: seq<nat>, b: seq<nat>, procs: seq<Proc>, prio: int)
    requires forall j :: 0 <= j < |a| ==> a[j] < |procs|
    requires forall j :: 0 <= j < |b| ==> b[j] < |procs|
    ensures forall j :: 0 <= j < |a + b| ==> (a + b)[j] < |procs|
    ensures OfPrio(a + b, procs, prio) == OfPrio(a, procs, prio) + OfPrio(b, procs, prio)
    decreases |b|
  {
    if |b| == 0 {
      assert a + b == a;
    } else {
      var n := |b| - 1;
      OfPrioCat(a, b[..n], procs, prio);
      assert (a + b)[..|a| + n] == a + b[..n];
    }
  }

  lemma {:induction false} OfPrioNone(l: seq<nat>, procs: seq<Proc>, prio: int)
    requires forall j :: 0 <= j < |l| ==> l[j] < |procs| && procs[l[j]].prprio != prio
    ensures OfPrio(l, procs, prio) == []
  {
    if |l| > 0 {
      OfPrioNone(l[..|l| - 1], procs, prio);
    }
  }

  lemma {:induction false} OfPrioSame(l: seq<nat>, procs: seq<Proc>, procs': seq<Proc>, prio: int)
    requires |procs'| == |procs|
    requires forall j :: 0 <= j < |l| ==> l[j] < |procs| && procs'[l[j]].prprio == procs[l[j]].prprio
    ensures OfPrio(l, procs', prio) == OfPrio(l, procs, prio)
  {
    if |l| > 0 {
      OfPrioSame(l[..|l| - 1], procs, procs', prio);
    }
  }

  lemma OfPrioOne(p: nat, procs: seq<Proc>, prio: int)
    requires p < |procs|
    ensures OfPrio([p], procs, prio) == if procs[p].prprio == prio then [p] else []
  {
    assert [p][..0] == [];
  }

  /** A process is put behind its equals. */
  lemma PutBehind(l: seq<nat>, procs: seq<Proc>, keys: seq<int>, p: nat, prio: int)
    requires |keys| == |procs| && p < |procs|
    requires forall j :: 0 <= j < |l| ==> l[j] < |procs| && keys[l[j]] == procs[l[j]].prprio
    requires forall i, j :: 0 <= i < j < |l| ==> keys[l[i]] >= keys[l[j]]
    ensures var m := PutAt(l, Place(l, keys, procs[p].prprio), p);
            && (forall j :: 0 <= j < |m| ==> m[j] < |procs|)
            && OfPrio(m, procs, prio) == OfPrio(l, procs, prio) + if procs[p].prprio == prio then [p] else []
  {
    hide OfPrio, Place;
    var key := procs[p].prprio;
    var n := Place(l, keys, key);
    var a, b := l[..n], l[n..];
    assert PutAt(l, n, p) == a + [p] + b;
    assert l == a + b;
    hide PutAt;
    assert forall j :: 0 <= j < |a| ==> a[j] < |procs|;
    assert forall j :: 0 <= j < |b| ==> b[j] < |procs| && procs[b[j]].prprio < key by {
      LowerBehind(l, procs, keys, key);
    }
    OfPrioCat(a, b, procs, prio);
    OfPrioCat(a, [p], procs, prio);
    OfPrioCat(a + [p], b, procs, prio);
    OfPrioOne(p, procs, prio);
    if key == prio {
      OfPrioNone(b, procs, prio);
    }
  }

  lemma LowerBehind(l: seq<nat>, procs: seq<Proc>, keys: seq<int>, key: int)
    requires |keys| == |procs|
    requires forall j :: 0 <= j < |l| ==> l[j] < |procs| && keys[l[j]] == procs[l[j]].prprio
    requires forall i, j :: 0 <= i < j < |l| ==> keys[l[i]] >= keys[l[j]]
    ensures var b := l[Place(l, keys, key)..];
            forall j :: 0 <= j < |b| ==> b[j] < |procs| && procs[b[j]].prprio < key
  {
    var n := Place(l, keys, key);
    hide Place;
    forall j | 0 <= j < |l[n..]|
      ensures l[n..][j] < |procs| && procs[l[n..][j]].prprio < key
    {
      assert l[n..][j] == l[n + j] && (j > 0 ==> keys[l[n]] >= keys[l[n + j]]);
    }
  }

  /** Readying a process while rescheduling is put off. */
  lemma EnreadyOrder(k: K, x: int, p: nat, prio: int)
    requires Core(k, x, p) && p < NPROC && k.ndefers > 0
    ensures Sized(k) && Sized(Ready(k, p))
    ensures k.procs[p].prstate != PR_FREE ==>
              OfPrio(Ready(k, p).lists[RL], Ready(k, p).procs, prio) ==
              OfPrio(k.lists[RL], k.procs, prio) + if k.procs[p].prprio == prio then [p] else []
  {
    ReadyKeys(k, x, p);
    hide Core, PutAt, Place;
    if k.procs[p].prstate != PR_FREE {
      var l := k.lists[RL];
      PutBehind(l, k.procs, k.keys, p, prio);
      ReschedDefers(Enready(k, p));
      hide Resched;
      var t := Ready(k, p);
      OfPrioSame(t.lists[RL], k.procs, t.procs, prio);
    }
  }

  lemma ReadyKeys(k: K, x: int, p: int)
    requires Core(k, x, p)
    ensures Sized(k)
    ensures var l := k.lists[RL];
            && (forall j :: 0 <= j < |l| ==> k.keys[l[j]] == k.procs[l[j]].prprio)
            && forall i, j :: 0 <= i < j < |l| ==> k.keys[l[i]] >= k.keys[l[j]]
  {
    hide MembersOf, StatesOf, SemsOf, Delays;
    var l := k.lists[RL];
    assert forall j :: 0 <= j < |l| ==> l[j] in l;
  }

  // ---- rescheduling ----

  lemma FrontOf(l: seq<nat>, procs: seq<Proc>, prio: int)
    requires |l| > 0 && forall j :: 0 <= j < |l| ==> l[j] < |procs|
    ensures OfPrio([l[0]] + l[1..], procs, prio) == OfPrio(l, procs, prio)
  {
    assert [l[0]] + l[1..] == l;
  }

  /** The current process and those that are ready, as far as they have that priority, in order. */
  ghost function Line(k: K, prio: int): seq<nat>
    requires Sized(k)
  {
    OfPrio([k.currpid] + k.lists[RL], k.procs, prio)
  }

  /** The processor goes to the first of the ready list. */
  lemma DispatchOrder(k: K, prio: int)
    requires Sized(k) && |k.lists[RL]| > 0
    ensures var t := Dispatch(k);
            && t.preempt == 2
            && Line(t, prio) == OfPrio(k.lists[RL], k.procs, prio)
  {
    var t, l := Dispatch(k), k.lists[RL];
    FrontOf(l, k.procs, prio);
    OfPrioSame([l[0]] + l[1..], k.procs, t.procs, prio);
  }

  /** Nobody on the ready list is of higher priority than the current process. */
  ghost predicate CurrentFirst(k: K)
    requires Sized(k)
  {
    forall j :: 0 <= j < |k.lists[RL]| ==> k.procs[k.lists[RL][j]].prprio <= k.procs[k.currpid].prprio
  }

  lemma ReschedFirst(k: K)
    requires Core(k, -1, -1) && k.ndefers == 0
    ensures Sized(Resched(k)) && CurrentFirst(Resched(k))
  {
    ReschedOk(k, -1);
    ReschedDefers(k);
    var t := Resched(k);
    hide Resched, Descending, SemsOf, ReadyOf, Delays;
    assert forall j :: 0 <= j < |t.lists[RL]| ==> t.lists[RL][j] in t.lists[RL];
  }

  /** resched, on any lists in order. A current process of higher priority than all that are ready
      keeps the processor. Otherwise, or if it cannot go on, one of the highest priority gets it, for
      two ticks; in every priority the order stays, the former one, if it can go on, coming last. */
  lemma ReschedGives(k: K, prio: int)
    requires Core(k, -1, -1) && k.ndefers == 0
    ensures Sized(k) && CurrentFirst(Resched(k))
    ensures var t, c, l := Resched(k), k.procs[k.currpid], k.lists[RL];
            if c.prstate == PR_CURR && (forall j :: 0 <= j < |l| ==> k.procs[l[j]].prprio < c.prprio) then t == k
            else
              && t.preempt == 2
              && Line(t, prio) ==
                 OfPrio(l, k.procs, prio) + (if c.prstate == PR_CURR && c.prprio == prio then [k.currpid] else [])
  {
    hide Core, Dispatch, CurrentFirst, OfPrio, Line, Enready, Resched, Sized;
    CoreSized(k, -1, -1);
    ReadyKeys(k, -1, -1);
    ReschedFirst(k);
    ReschedIs(k);
    if k.procs[k.currpid].prstate != PR_CURR {
      NeverStuck(k, -1);
      DispatchOrder(k, prio);
    } else if Yields(k) {
      YieldOrder(k, prio);
    }
  }

  /** The first of the ready list is at least of the priority of the current process. */
  ghost predicate Yields(k: K)
    requires Sized(k)
  {
    |k.lists[RL]| > 0 && k.procs[k.lists[RL][0]].prprio >= k.procs[k.currpid].prprio
  }

  lemma ReschedIs(k: K)
    requires Core(k, -1, -1) && k.ndefers == 0
    ensures Sized(k)
    ensures Resched(k) == if k.procs[k.currpid].prstate != PR_CURR then Dispatch(k)
                          else if Yields(k) then Dispatch(Enready(k, k.currpid))
                          else k
    ensures Yields(k) <==> !(forall j :: 0 <= j < |k.lists[RL]| ==>
                               k.procs[k.lists[RL][j]].prprio < k.procs[k.currpid].prprio)
  {
    ReadyKeys(k, -1, -1);
    hide Core, Dispatch, Enready;
  }

  lemma YieldOrder(k: K, prio: int)
    requires Core(k, -1, -1)
    ensures Sized(k)
    ensures var t := Dispatch(Enready(k, k.currpid));
            && t.preempt == 2
            && Line(t, prio) ==
               OfPrio(k.lists[RL], k.procs, prio) + (if k.procs[k.currpid].prprio == prio then [k.currpid] else [])
  {
    CoreSized(k, -1, -1);
    ReadyKeys(k, -1, -1);
    hide Core, PutAt, Place, Dispatch, OfPrio, Line;
    var u := Enready(k, k.currpid);
    PutBehind(k.lists[RL], k.procs, k.keys, k.currpid, prio);
    OfPrioSame(u.lists[RL], k.procs, u.procs, prio);
    DispatchOrder(u, prio);
  }

  /** Those of l have come to the ready list behind their equals, in the order of l. */
  ghost predicate InOrder(k: K, t: K, l: seq<nat>) {
    && Sized(k) && Sized(t) && Procs(l) && Kept(k.procs, t.procs)
    && forall prio {:trigger OfPrio(l, k.procs, prio)} ::
         OfPrio(t.lists[RL], t.procs, prio) == OfPrio(k.lists[RL], k.procs, prio) + OfPrio(l, k.procs, prio)
  }

  lemma OrderNone(k: K)
    requires Sized(k)
    ensures InOrder(k, k, [])
  {
  }

  lemma OrderOn(k: K, t: K, u: K, a: seq<nat>, b: seq<nat>)
    requires InOrder(k, t, a) && InOrder(t, u, b)
    ensures InOrder(k, u, a + b)
  {
    forall prio
      ensures OfPrio(u.lists[RL], u.procs, prio) ==
              OfPrio(k.lists[RL], k.procs, prio) + OfPrio(a + b, k.procs, prio)
    {
      hide OfPrio;
      OfPrioCat(a, b, k.procs, prio);
      OfPrioSame(b, k.procs, t.procs, prio);
    }
  }

  /** What is not about ready processes does not matter. */
  lemma OrderSame(k: K, k': K, t: K, t': K, l: seq<nat>)
    requires InOrder(k', t', l) && Sized(k) && Sized(t)
    requires k'.procs == k.procs && t'.procs == t.procs && k'.lists[RL] == k.lists[RL] && t'.lists[RL] == t.lists[RL]
    ensures InOrder(k, t, l)
  {
    hide OfPrio, Kept;
  }

  /** The head of a list, taken off, is readied. */
  lemma ReadyOrder(k: K, x: int, p: nat)
    requires Core(k, x, p) && p < NPROC && k.ndefers > 0 && k.procs[p].prstate != PR_FREE
    ensures InOrder(k, Ready(k, p), [p]) && Ready(k, p).ndefers == k.ndefers
  {
    ReadyKept(k, p);
    ReadyDefers(k, p);
    CoreSized(k, x, p);
    hide Core, Ready;
    forall prio
      ensures OfPrio(Ready(k, p).lists[RL], Ready(k, p).procs, prio) ==
              OfPrio(k.lists[RL], k.procs, prio) + OfPrio([p], k.procs, prio)
    {
      EnreadyOrder(k, x, p, prio);
      OfPrioOne(p, k.procs, prio);
    }
  }

  lemma HeadOrder(k: K, s: nat)
    requires Mid(k, s) && s < NSEM && |k.lists[s]| > 0 && k.ndefers > 0
    ensures InOrder(k, ReadyHead(k, s), [k.lists[s][0]]) && ReadyHead(k, s).ndefers == k.ndefers
    ensures Mid(ReadyHead(k, s), s) && ReadyHead(k, s).lists[s] == k.lists[s][1..]
  {
    var p, t := k.lists[s][0], SetList(k, s, k.lists[s][1..]);
    HeadIs(k, s);
    UnlinkOk(k, s, p, s);
    ReadyHeadKeeps(k, s);
    hide Core, Ready, Steady, AwakeOk, PrioOk;
    ReadyOrder(t, s, p);
    OrderSame(k, t, ReadyHead(k, s), ReadyHead(k, s), [p]);
  }

  lemma HeadAndRest(l: seq<nat>, n: nat)
    requires 0 < n <= |l|
    ensures [l[0]] + l[1..][..n - 1] == l[..n]
  {
  }

  lemma DrainStep(k: K, i: nat, n: nat)
    requires Sized(k) && i < NLISTS
    ensures Drain(k, i, n) == if n == 0 then k else Drain(ReadyHead(k, i), i, n - 1)
  {
  }

  lemma {:induction false} DrainOrder(k: K, s: nat, n: nat)
    requires Mid(k, s) && s < NSEM && n == |k.lists[s]| && k.ndefers > 0
    ensures InOrder(k, Drain(k, s, n), k.lists[s])
    decreases n
  {
    hide Mid, ReadyHead, InOrder, Sized, Drain;
    MidSized(k, s);
    DrainStep(k, s, n);
    var l := k.lists[s];
    if n == 0 {
      OrderNone(k);
      assert l == [];
    } else {
      HeadOrder(k, s);
      var t := ReadyHead(k, s);
      DrainOrder(t, s, n - 1);
      OrderOn(k, t, Drain(t, s, n - 1), [l[0]], l[1..]);
      assert [l[0]] + l[1..] == l;
    }
  }

  /** One signal, where the count is negative. */
  lemma OneOrder(k: K, s: nat)
    requires Mid(k, s) && s < NSEM && |k.lists[s]| > 0 && k.sems[s].count < 0 && k.ndefers > 0
    ensures InOrder(k, SignalOne(k, s), [k.lists[s][0]]) && SignalOne(k, s).ndefers == k.ndefers
    ensures SignalOne(k, s).lists[s] == k.lists[s][1..]
  {
    hide Mid, ReadyHead, InOrder;
    MidSized(k, s);
    var n := k.sems[s].count + 1;
    var t := SetCount(k, s, n);
    assert t == k.(sems := k.sems[s := k.sems[s].(count := n)], nextsem := k.nextsem);
    SemChanged(k, s, k.sems[s].(count := n), k.nextsem);
    HeadOrder(t, s);
    OrderSame(k, t, SignalOne(k, s), SignalOne(k, s), [k.lists[s][0]]);
  }

  lemma SignalManyStep(k: K, s: nat, n: nat)
    requires Sized(k) && s < NSEM
    ensures SignalMany(k, s, n) == if n == 0 then k else SignalMany(SignalOne(k, s), s, n - 1)
  {
  }

  lemma {:induction false} DeleteOrder(k: K, s: nat, n: nat)
    requires Mid(k, s) && s < NSEM && n == |k.lists[s]| && k.sems[s].count + n == 0 && k.ndefers > 0
    ensures InOrder(k, SignalMany(k, s, n), k.lists[s])
    decreases n
  {
    hide Mid, SignalOne, InOrder, Sized, SignalMany;
    MidSized(k, s);
    SignalManyStep(k, s, n);
    var l := k.lists[s];
    if n == 0 {
      OrderNone(k);
      assert l == [];
    } else {
      OneOrder(k, s);
      ReleaseStep(k, s);
      var t := SignalOne(k, s);
      DeleteOrder(t, s, n - 1);
      OrderOn(k, t, SignalMany(t, s, n - 1), [l[0]], l[1..]);
      assert [l[0]] + l[1..] == l;
    }
  }

  lemma QuietSignal(k: K, s: nat)
    requires Sized(k) && s < NSEM && k.sems[s].count >= 0
    ensures SignalOne(k, s) == SetCount(k, s, Bump(k.sems[s].count))
  {
    hide ReadyHead;
  }

  /** The first n of a list, or all of it. */
  function FirstN(l: seq<nat>, n: nat): seq<nat> {
    if n < |l| then l[..n] else l
  }

  lemma FirstNIs(l: seq<nat>, n: nat)
    ensures FirstN(l, 0) == []
    ensures n > 0 && |l| > 0 ==> FirstN(l, n) == [l[0]] + FirstN(l[1..], n - 1)
    ensures |l| == 0 ==> FirstN(l, n) == []
    ensures Rest(l, 1) == if |l| == 0 then l else l[1..]
  {
  }

  lemma {:induction false} ManyOrder(k: K, s: nat, n: nat)
    requires Inv(k) && s < NSEM && k.sems[s].used && k.sems[s].count + n <= MAXCOUNT && k.ndefers > 0
    ensures Sized(k)
    ensures InOrder(k, SignalMany(k, s, n), FirstN(k.lists[s], n))
    decreases n
  {
    hide Inv, Mid, SignalOne, InOrder, Rest, Sized, SignalMany, FirstN;
    InvSized(k);
    SignalManyStep(k, s, n);
    FirstNIs(k.lists[s], n);
    if n == 0 {
      OrderNone(k);
    } else {
      SignalOrder(k, s);
      var t := SignalOne(k, s);
      ManyOrder(t, s, n - 1);
      OrderOn(k, t, SignalMany(t, s, n - 1), FirstN(k.lists[s], 1), FirstN(Rest(k.lists[s], 1), n - 1));
      FirstNOn(k.lists[s], n);
    }
  }

  lemma FirstNOn(l: seq<nat>, n: nat)
    requires n > 0
    ensures FirstN(l, 1) + FirstN(Rest(l, 1), n - 1) == FirstN(l, n)
  {
  }

  /** signal, too. */
  lemma SignalOrder(k: K, s: nat)
    requires Inv(k) && s < NSEM && k.sems[s].used && k.sems[s].count < MAXCOUNT && k.ndefers > 0
    ensures Sized(k) && InOrder(k, SignalOne(k, s), FirstN(k.lists[s], 1))
    ensures var t := SignalOne(k, s);
            Inv(t) && t.ndefers == k.ndefers && t.lists[s] == Rest(k.lists[s], 1)
            && t.sems[s] == Sem(true, k.sems[s].count + 1)
  {
    hide Inv, Core, Mid, SignalOne, InOrder, Rest, Sized, FirstN;
    InvSized(k);
    SignalStep(k, s);
    SignalEffect(k, s);
    CoreOf(k);
    SemIs(k, s);
    OneDefers(k, s);
    FirstNIs(k.lists[s], 1);
    FirstNIs(if |k.lists[s]| > 0 then k.lists[s][1..] else [], 0);
    if |k.lists[s]| > 0 {
      ExceptOk(k, s);
      OneOrder(k, s);
      assert [k.lists[s][0]] + [] == [k.lists[s][0]];
    } else {
      QuietSignal(k, s);
      OrderNone(k);
      OrderSame(k, k, SignalOne(k, s), k, []);
    }
  }

  /** Ending a deferral that is inside of another one. */
  lemma StopInside(k: K)
    requires Sized(k) && k.ndefers > 1
    ensures DeferStop(k) == k.(ndefers := k.ndefers - 1)
  {
    hide Resched;
  }

  /** While rescheduling is put off, those whom signaln, semreset or semdelete let go come to the
      ready list behind their equals in the order in which they waited. */
  lemma ReleasedInOrder(k: K, s: nat, n: nat)
    requires Inv(k) && s < NSEM && k.sems[s].used && k.ndefers > 0
    ensures Sized(k)
    ensures k.sems[s].count + n <= MAXCOUNT ==>
              InOrder(k, SignalN(k, s, n).0, if n < |k.lists[s]| then k.lists[s][..n] else k.lists[s])
    ensures n <= MAXCOUNT ==> InOrder(k, SemReset(k, s, n).0, k.lists[s])
    ensures InOrder(k, SemDelete(k, s).0, k.lists[s])
  {
    hide Inv, InOrder, Sized, SignalN, SemReset, SemDelete;
    InvSized(k);
    if k.sems[s].count + n <= MAXCOUNT {
      SignalNOrder(k, s, n);
    }
    if n <= MAXCOUNT {
      SemResetOrder(k, s, n);
    }
    SemDeleteOrder(k, s);
  }

  lemma SignalNOrder(k: K, s: nat, n: nat)
    requires Inv(k) && s < NSEM && k.sems[s].used && k.ndefers > 0 && k.sems[s].count + n <= MAXCOUNT
    ensures Sized(k) && InOrder(k, SignalN(k, s, n).0, if n < |k.lists[s]| then k.lists[s][..n] else k.lists[s])
  {
    hide Inv, InOrder, SignalMany, DeferStop;
    InvSized(k);
    var t := DeferStart(k);
    DeferStartKeeps(k);
    ManyOrder(t, s, n);
    SignalManyDefers(t, s, n);
    StopInside(SignalMany(t, s, n));
    OrderSame(k, t, SignalN(k, s, n).0, SignalMany(t, s, n), FirstN(k.lists[s], n));
  }

  lemma SemResetOrder(k: K, s: nat, n: nat)
    requires Inv(k) && s < NSEM && k.sems[s].used && k.ndefers > 0
    ensures Sized(k) && InOrder(k, SemReset(k, s, n).0, k.lists[s])
  {
    hide Inv, Mid, InOrder, Drain, DeferStop;
    InvSized(k);
    var t, d := DeferStart(k), |k.lists[s]|;
    DeferStartKeeps(k);
    ExceptOk(t, s);
    DrainOrder(t, s, d);
    DrainDefers(t, s, d);
    var u := Drain(t, s, d);
    StopInside(SetCount(u, s, n));
    OrderSame(k, t, SemReset(k, s, n).0, u, k.lists[s]);
  }

  lemma SemDeleteOrder(k: K, s: nat)
    requires Inv(k) && s < NSEM && k.sems[s].used && k.ndefers > 0
    ensures Sized(k) && InOrder(k, SemDelete(k, s).0, k.lists[s])
  {
    hide Inv, Mid, InOrder, SignalMany, DeferStop, SemDelete;
    InvSized(k);
    DoomedOk(k, s);
    var t, n := Doomed(k, s), if k.sems[s].count < 0 then -k.sems[s].count else 0;
    var u := SignalMany(t, s, n);
    if n > 0 {
      DeleteOrder(t, s, n);
    } else {
      SignalManyStep(t, s, n);
      OrderNone(t);
      assert k.lists[s] == [];
    }
    Deleting(k, s);
    SignalManyDefers(t, s, n);
    StopInside(SetCount(u, s, Bump(u.sems[s].count)));
    OrderSame(k, t, SemDelete(k, s).0, u, k.lists[s]);
  }

  // ---- the clock ----

  lemma SleeperOrder(k: K)
    requires Waking(k) && |k.lists[SQ]| > 0 && k.keys[k.lists[SQ][0]] <= 0 && k.ndefers > 0
    ensures InOrder(k, ReadyHead(k, SQ), [k.lists[SQ][0]]) && ReadyHead(k, SQ).ndefers == k.ndefers
  {
    var p, t := k.lists[SQ][0], SetList(k, SQ, k.lists[SQ][1..]);
    HeadFloats(k);
    hide Core, Ready, AwakeOk, PrioOk;
    ReadyOrder(t, -1, p);
    OrderSame(k, t, ReadyHead(k, SQ), ReadyHead(k, SQ), [p]);
  }

  lemma {:induction false} WakeOrder(k: K, n: nat)
    requires Waking(k) && n == Due(k.lists[SQ], k.keys) && k.ndefers > 0
    ensures n <= |k.lists[SQ]| && InOrder(k, Drain(k, SQ, n), k.lists[SQ][..n])
    ensures Drain(k, SQ, n).lists[SQ] == k.lists[SQ][n..]
    decreases n
  {
    hide Waking, Core, ReadyHead, Steady, AwakeOk, Due, Drain, InOrder;
    WakingSized(k);
    DrainStep(k, SQ, n);
    if n == 0 {
      OrderNone(k);
      assert k.lists[SQ][..0] == [];
    } else {
      OneLessDue(k);
      WakeHead(k);
      SleeperOrder(k);
      var t := ReadyHead(k, SQ);
      WakeOrder(t, n - 1);
      HeadAndRest(k.lists[SQ], n);
      OrderOn(k, t, Drain(t, SQ, n - 1), [k.lists[SQ][0]], t.lists[SQ][..n - 1]);
    }
  }

  /** So do those whom a tick wakes, in the order of the sleep queue, of which they are the first. */
  lemma WokenInOrder(k: K)
    requires Inv(k) && k.ctx[k.currpid] == Nothing && k.ndefers > 0
    ensures Sized(k)
    ensures exists n: nat :: n <= |k.lists[SQ]| && Tick(k).lists[SQ] == k.lists[SQ][n..]
                             && InOrder(k, Tick(k), k.lists[SQ][..n])
  {
    hide Inv, Waking, InOrder, Wakeup, Tick;
    InvSized(k);
    if |k.lists[SQ]| == 0 {
      QuietTick(k);
      OrderNone(k);
      OrderSame(k, k, Tick(k), k, []);
      assert k.lists[SQ][..0] == [];
    } else {
      TickIs(k);
      TickedOk(k);
      var u := Ticked(k);
      var n := Due(u.lists[SQ], u.keys);
      if n == 0 {
        OrderNone(k);
        OrderSame(k, k, u, k, []);
        assert k.lists[SQ][..0] == [];
      } else {
        WakeupOrder(u, n);
        OrderSame(k, u, Tick(k), Tick(k), k.lists[SQ][..n]);
      }
    }
  }

  lemma QuietTick(k: K)
    requires Sized(k) && |k.lists[SQ]| == 0
    ensures Tick(k) == SetCtx(k, InClock)
  {
    hide Wakeup;
  }

  lemma WakeupOrder(k: K, n: nat)
    requires Waking(k) && n == Due(k.lists[SQ], k.keys) && k.ndefers > 0
    ensures Sized(k) && n <= |k.lists[SQ]| && InOrder(k, Wakeup(k), k.lists[SQ][..n])
    ensures Wakeup(k).lists[SQ] == k.lists[SQ][n..]
  {
    hide Core, Drain, DeferStop, Due, InOrder;
    var t := DeferStart(k);
    DeferralOk(k, -1, -1, t.ndefers, t.attempt);
    WakeOrder(t, n);
    DrainDefers(t, SQ, n);
    var u := Drain(t, SQ, n);
    StopInside(u);
    OrderSame(k, t, Wakeup(k), u, k.lists[SQ][..n]);
  }
}
