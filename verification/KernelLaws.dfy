/** What users of the process manager may rely on. */
module KernelLaws {
  import opened KernelQueues
  import opened KernelSleep
  import opened KernelSpec
  import opened KernelInv
  import opened KernelCalls
  import opened KernelProcs
  import opened KernelFrame
  import opened KernelRuns
  import opened KernelOrder

  // ---- the processor ----

  /** The current process and the ready ones of its priority, in the order of the list. */
  ghost function Ring(k: K): (r: seq<nat>)
    requires Sized(k)
    ensures |r| > 0 && r[0] == k.currpid
  {
    [k.currpid] + k.lists[RL][..Place(k.lists[RL], k.keys, k.procs[k.currpid].prprio)]
  }

  /** Turning a ring by one. */
  function Turned(l: seq<nat>): seq<nat>
    requires |l| > 0
  {
    l[1..] + [l[0]]
  }

  lemma SwitchRing(l: seq<nat>, keys: seq<int>, c: nat, prio: int)
    requires Keyed(l, keys) && c < NPROC && c !in l && Descending(l, keys)
    requires Place(l, keys, prio) > 0 && forall j :: 0 <= j < |l| ==> keys[l[j]] <= prio
    ensures var n := Place(l, keys, prio);
            var m := PutAt(l, n, c)[1..];
            && Keyed(m, keys[c := prio]) && Place(m, keys[c := prio], prio) == n && m[..n] == l[1..n] + [c]
  {
    var n := Place(l, keys, prio);
    var m := PutAt(l, n, c)[1..];
    assert forall j :: 0 <= j < |l| ==> l[j] != c by {
      assert forall j :: 0 <= j < |l| ==> l[j] in l;
    }
    assert forall j :: 0 <= j < |m| ==> m[j] == if j + 1 < n then l[j + 1] else if j + 1 == n then c else l[j];
    assert n < |l| ==> keys[l[n]] < prio;
    PlaceIs(m, keys[c := prio], prio, n);
  }

  /** What the ready list is to the current process. */
  lemma ReadyFacts(k: K)
    requires Inv(k) && k.ndefers == 0
    ensures Sized(k) && k.currpid !in k.lists[RL] && Descending(k.lists[RL], k.keys)
    ensures k.procs[k.currpid].prstate == PR_CURR
    ensures forall j :: 0 <= j < |k.lists[RL]| ==>
              var q := k.lists[RL][j];
              k.keys[q] <= k.procs[k.currpid].prprio && k.procs[q].prprio == k.keys[q]
  {
    forall j | 0 <= j < |k.lists[RL]|
      ensures var q := k.lists[RL][j];
              k.keys[q] <= k.procs[k.currpid].prprio && k.procs[q].prprio == k.keys[q]
    {
      assert k.lists[RL][j] in k.lists[RL];
    }
  }

  lemma TurnedRing(c: nat, l: seq<nat>, n: nat)
    requires 0 < n <= |l|
    ensures [l[0]] + (l[1..n] + [c]) == Turned([c] + l[..n])
  {
    assert ([c] + l[..n])[1..] == [l[0]] + l[1..n];
  }

  /** Rescheduling turns the ring: the current process goes to the end, the next one runs. */
  lemma ReschedTurns(k: K)
    requires Inv(k) && k.ndefers == 0
    ensures Sized(k) && Ring(Resched(k)) == Turned(Ring(k))
  {
    InvSized(k);
    ReadyFacts(k);
    hide Inv, Core;
    var c, l := k.currpid, k.lists[RL];
    var prio := k.procs[c].prprio;
    var n := Place(l, k.keys, prio);
    if n == 0 {
      assert Resched(k) == k;
    } else {
      SwitchRing(l, k.keys, c, prio);
      TurnedRing(c, l, n);
      var t, u := Enready(k, c), Resched(k);
      assert t.lists[RL] == PutAt(l, n, c) && t.lists[RL][0] == l[0] && t.keys == k.keys[c := prio];
      assert t.procs[l[0]].prprio == prio;
      hide PutAt, Place, Enready, Turned;
      assert u == Dispatch(t);
      assert u.lists[RL] == PutAt(l, n, c)[1..] && u.keys == t.keys && u.currpid == l[0];
      assert u.procs[u.currpid].prprio == prio;
      hide Dispatch, Resched;
      assert Ring(u) == [l[0]] + (l[1..n] + [c]);
    }
  }

  /** m times in a row. */
  ghost function Turns(k: K, m: nat): (r: K)
    requires Sized(k)
    ensures Sized(r)
  {
    if m == 0 then k else Resched(Turns(k, m - 1))
  }

  /** Turning a ring m times. */
  function Rotated(l: seq<nat>, m: nat): (r: seq<nat>)
    requires |l| > 0
    ensures |r| == |l|
  {
    if m == 0 then l else Turned(Rotated(l, m - 1))
  }

  /** The m-th of a ring, counting round. */
  function Round(l: seq<nat>, m: nat): nat
    requires |l| > 0
  {
    if m < |l| then l[m] else Round(l, m - |l|)
  }

  lemma {:induction false} RotatedAt(l: seq<nat>, m: nat, j: nat)
    requires |l| > 0 && j < |l|
    ensures Rotated(l, m)[j] == Round(l, m + j)
    decreases m
  {
    if m > 0 {
      RotatedAt(l, m - 1, if j + 1 < |l| then j + 1 else 0);
    }
  }

  lemma {:induction false} TurnsKeep(k: K, m: nat)
    requires Inv(k) && k.ndefers == 0
    ensures Sized(k) && Inv(Turns(k, m)) && Turns(k, m).ndefers == 0
  {
    hide Inv, Resched, Sized;
    InvSized(k);
    if m > 0 {
      TurnsKeep(k, m - 1);
      ReschedStays(Turns(k, m - 1));
    }
  }

  lemma TurnStep(k: K, l: seq<nat>)
    requires Inv(k) && k.ndefers == 0 && Sized(k) && |l| > 0 && Ring(k) == l
    ensures Ring(Resched(k)) == Turned(l)
  {
    ReschedTurns(k);
  }

  lemma {:induction false} TurnsRotate(k: K, m: nat, l: seq<nat>)
    requires Inv(k) && k.ndefers == 0 && Sized(k) && l == Ring(k)
    ensures Ring(Turns(k, m)) == Rotated(l, m)
    decreases m
  {
    hide Inv, Resched, Ring, Turned, Sized;
    if m > 0 {
      TurnsKeep(k, m - 1);
      TurnsRotate(k, m - 1, l);
      TurnStep(Turns(k, m - 1), Rotated(l, m - 1));
    }
  }

  /** With n others of the highest priority, each of the n + 1 runs once in n + 1 turns, in
      the order in which they stood. */
  lemma RoundRobin(k: K, m: nat)
    requires Inv(k) && k.ndefers == 0
    ensures Sized(k) && Turns(k, m).currpid == Round(Ring(k), m)
  {
    InvSized(k);
    hide Inv, Turns, Rotated, Round;
    TurnsRotate(k, m, Ring(k));
    RotatedAt(Ring(k), m, 0);
  }

  lemma ReschedStays(k: K)
    requires Inv(k) && k.ndefers == 0
    ensures Sized(k) && Inv(Resched(k)) && Resched(k).ndefers == 0
  {
    ReschedKeeps(k, -1);
  }

  // ---- semaphores ----

  /** The step leaves semaphore s as such alone: it does not delete or reset it, and kills
      nobody who waits on it. */
  ghost predicate Fair(k: K, e: Step, s: nat)
    requires Enabled(k, e) && s < NSEM
  {
    && e != DoSemDelete(s) && !(e.DoSemReset? && e.s == s)
    && !(e.EndKill? && k.procs[e.p].prstate == PR_WAIT && k.procs[e.p].prsem == s)
  }

  /** Who joins the queue of s in this step. */
  ghost function Joins(k: K, e: Step, s: nat): seq<nat>
    requires Sized(k) && s < NSEM
  {
    if e == DoWait(s) && k.sems[s].count <= 0 then [k.currpid] else []
  }

  /** How many signals s gets in this step. */
  function Signals(e: Step, s: nat): nat {
    if e == DoSignal(s) then 1 else if e.DoSignalN? && e.s == s && e.n >= 0 then e.n else 0
  }

  /** Who is released from the queue of s in this step. */
  ghost function Leaves(k: K, e: Step, s: nat): seq<nat>
    requires Sized(k) && s < NSEM
  {
    if Signals(e, s) < |k.lists[s]| then k.lists[s][..Signals(e, s)] else k.lists[s]
  }

  /** Queues are first come, first served: who leaves stood at the front, who joins goes to
      the end. */
  lemma StepQueues(k: K, e: Step, s: nat)
    requires Inv(k) && Enabled(k, e) && s < NSEM && k.sems[s].used && Fair(k, e, s)
    ensures Leaves(k, e, s) + Do(k, e).lists[s] == k.lists[s] + Joins(k, e, s)
    ensures Do(k, e).sems[s] == Sem(true, k.sems[s].count + Signals(e, s) - if e == DoWait(s) then 1 else 0)
  {
    hide MembersOf, StatesOf, SemsOf, ReadyOf, Delays, SameSleepers, Wait, SignalOne, SignalN;
    InvSized(k);
    About(k, -1, k.currpid);
    if e == DoWait(s) {
      WaitEffect(k, s);
    } else if e == DoSignal(s) {
      SignalEffect(k, s);
    } else if e.DoSignalN? && e.s == s && e.n >= 0 {
      SignalNEffect(k, s, e.n);
    } else {
      SemUntouched(k, e, s);
    }
  }

  lemma SemUntouched(k: K, e: Step, s: nat)
    requires Inv(k) && Enabled(k, e) && s < NSEM && k.sems[s].used && Fair(k, e, s)
    requires e != DoWait(s) && e != DoSignal(s) && !(e.DoSignalN? && e.s == s && e.n >= 0)
    ensures Do(k, e).sems[s] == k.sems[s] && Do(k, e).lists[s] == k.lists[s]
  {
    hide MembersOf, StatesOf, SemsOf, ReadyOf, Delays, SameSleepers, SameProc, Wait, SemReset, Resume, Suspend, Resched,
      Send, Receive, RecvTime, SleepMs, KillBegin, KillEnd, DeferStop, Tick, Slice;
    InvSized(k);
    About(k, -1, k.currpid);
    match e {
      case DoWait(r) => WaitSpares(k, r, -2, s);
      case DoSignal(r) =>
        if 0 <= r < NSEM && k.sems[r].used {
          SignalSpares(k, r, -2, s);
        }
      case DoSignalN(r, n) =>
        if n >= 0 {
          SignalNSpares(k, r, n, -2, s);
        }
      case DoSemDelete(r) => SemDeleteSpares(k, r, -2, s);
      case DoSemReset(r, n) => SemResetSpares(k, r, n, -2, s);
      case DoResume(p) => ResumeSpares(k, p, Neither(p), s);
      case DoSuspend(p) => SuspendSpares(k, p, Neither(p), s);
      case DoYield => ReschedSpares(k, -2, s);
      case DoSend(p, msg) => SendSpares(k, p, msg, Neither(p), s);
      case DoReceive => ReceiveSpares(k, -2, s);
      case DoRecvTime(d) => RecvTimeSpares(k, d, -2, s);
      case DoSleepMs(d) => SleepMsSpares(k, d, -2, s);
      case DoKill(p) => KillBeginSpares(k, p, if 0 <= p < NPROC then Neither(k.procs[p].prparent) else -2, s);
      case EndKill(p) => KillEndSpares(k, p, -2, s);
      case DoUndefer => DeferStopSpares(k, -2, s);
      case ClockTick => TickSpares(k, -2, s);
      case ClockRest => SliceSpares(k, -2, s);
      case _ =>
    }
  }

  /** The run never deletes or resets s. */
  ghost predicate Lasting(es: seq<Step>, s: nat) {
    forall j :: 0 <= j < |es| ==> es[j] != DoSemDelete(s) && !(es[j].DoSemReset? && es[j].s == s)
  }

  ghost predicate FairRun(k: K, es: seq<Step>, s: nat)
    requires Runs(k, es) && s < NSEM
    decreases |es|
  {
    |es| == 0 || (Fair(k, es[0], s) && FairRun(Do(k, es[0]), es[1..], s))
  }

  ghost function AllJoins(k: K, es: seq<Step>, s: nat): seq<nat>
    requires Sized(k) && Runs(k, es) && s < NSEM
    decreases |es|
  {
    if |es| == 0 then [] else Joins(k, es[0], s) + AllJoins(Do(k, es[0]), es[1..], s)
  }

  ghost function AllLeaves(k: K, es: seq<Step>, s: nat): seq<nat>
    requires Sized(k) && Runs(k, es) && s < NSEM
    decreases |es|
  {
    if |es| == 0 then [] else Leaves(k, es[0], s) + AllLeaves(Do(k, es[0]), es[1..], s)
  }

  lemma Requeued<T>(a: seq<T>, b: seq<T>, l: seq<T>, m: seq<T>, c: seq<T>, d: seq<T>, n: seq<T>)
    requires a + m == l + b && c + n == m + d
    ensures (a + c) + n == l + (b + d)
  {
    calc {
      (a + c) + n;
      a + (c + n);
      a + (m + d);
      (a + m) + d;
      (l + b) + d;
      l + (b + d);
    }
  }

  /** If nobody is killed who waits on s, processes are released exactly in the order in which
      they came to wait. */
  lemma {:induction false} ServedInFull(k: K, es: seq<Step>, s: nat)
    requires Inv(k) && Runs(k, es) && s < NSEM && k.sems[s].used && FairRun(k, es, s)
    ensures Sized(k) && Sized(After(k, es))
    ensures AllLeaves(k, es, s) + After(k, es).lists[s] == k.lists[s] + AllJoins(k, es, s)
    decreases |es|
  {
    InvSized(k);
    hide Inv, Enabled, Do, Fair, Joins, Leaves;
    if |es| > 0 {
      var t := Do(k, es[0]);
      StepKeeps(k, es[0]);
      StepQueues(k, es[0], s);
      ServedInFull(t, es[1..], s);
      Requeued(Leaves(k, es[0], s), Joins(k, es[0], s), k.lists[s], t.lists[s],
               AllLeaves(t, es[1..], s), AllJoins(t, es[1..], s), After(k, es).lists[s]);
    }
  }

  // ---- waiters that are killed ----

  /** Who is killed in this step while it waits on s. */
  ghost function Kills(k: K, e: Step, s: nat): seq<nat>
    requires Enabled(k, e) && s < NSEM
  {
    if e.EndKill? && k.procs[e.p].prstate == PR_WAIT && k.procs[e.p].prsem == s then [e.p] else []
  }

  ghost function AllKills(k: K, es: seq<Step>, s: nat): seq<nat>
    requires Sized(k) && Runs(k, es) && s < NSEM
    decreases |es|
  {
    if |es| == 0 then [] else Kills(k, es[0], s) + AllKills(Do(k, es[0]), es[1..], s)
  }

  /** A waiter that is killed goes missing from the queue, wherever it stands. */
  lemma KilledWaiter(k: K, p: nat, s: nat)
    requires Inv(k) && Enabled(k, EndKill(p)) && s < NSEM && k.procs[p].prstate == PR_WAIT && k.procs[p].prsem == s
    ensures var l, m := k.lists[s], Do(k, EndKill(p)).lists[s];
            Sub<nat>(m, l) && multiset(m) + multiset([p]) == multiset(l)
  {
    hide StatesOf, SemsOf, ReadyOf, Delays;
    About(k, -1, p);
    var l, m := k.lists[s], Do(k, EndKill(p)).lists[s];
    var j := IndexOf(l, p);
    assert m == CutAt(l, j) == l[..j] + l[j + 1..] && l[j] == p;
    SubCut<nat>(l, j);
    assert [l[j]] == [p];
  }

  lemma StepOrder(k: K, e: Step, s: nat)
    requires Inv(k) && Enabled(k, e) && s < NSEM && k.sems[s].used
    requires e != DoSemDelete(s) && !(e.DoSemReset? && e.s == s)
    ensures Sized(k) && Do(k, e).sems[s].used
    ensures Sub<nat>(Leaves(k, e, s) + Do(k, e).lists[s], k.lists[s] + Joins(k, e, s))
    ensures Adds(Leaves(k, e, s), Do(k, e).lists[s], Kills(k, e, s), k.lists[s], Joins(k, e, s))
  {
    hide Inv, Do, Leaves, Joins;
    InvSized(k);
    var l, m := k.lists[s], Do(k, e).lists[s];
    if Fair(k, e, s) {
      StepQueues(k, e, s);
      SubSame<nat>(l + Joins(k, e, s));
      AddsEven(Leaves(k, e, s), m, l, Joins(k, e, s));
    } else {
      KilledWaiter(k, e.p, s);
      KillEndUsed(k, e.p, s);
      NoneMove(k, e, s);
      assert [] + m == m && l + [] == l;
    }
  }

  lemma AddsEven(a: seq<nat>, m: seq<nat>, l: seq<nat>, b: seq<nat>)
    requires a + m == l + b
    ensures Adds(a, m, [], l, b)
  {
    assert multiset(a + m) == multiset(l + b);
  }

  lemma NoneMove(k: K, e: Step, s: nat)
    requires Sized(k) && s < NSEM && e.EndKill?
    ensures Leaves(k, e, s) == [] && Joins(k, e, s) == []
  {
  }

  lemma KillEndUsed(k: K, p: nat, s: nat)
    requires Sized(k) && Enabled(k, EndKill(p)) && s < NSEM && k.sems[s].used && k.procs[p].prstate == PR_WAIT
    ensures Do(k, EndKill(p)).sems[s].used
  {
  }

  /** Over any run that neither deletes nor resets s, processes are released in the order in which
      they came to wait: what left the queue and what is still on it is what was there and what
      joined, in this order, and only those who were killed are missing. */
  lemma {:induction false} FirstComeFirstServed(k: K, es: seq<Step>, s: nat)
    requires Inv(k) && Runs(k, es) && s < NSEM && k.sems[s].used && Lasting(es, s)
    ensures Sized(k) && Sized(After(k, es))
    ensures Sub<nat>(AllLeaves(k, es, s) + After(k, es).lists[s], k.lists[s] + AllJoins(k, es, s))
    ensures Adds(AllLeaves(k, es, s), After(k, es).lists[s], AllKills(k, es, s), k.lists[s], AllJoins(k, es, s))
    decreases |es|
  {
    hide Inv, Enabled, Do, Joins, Leaves, Kills, Sub, Adds;
    InvSized(k);
    if |es| == 0 {
      NoneYet(k.lists[s]);
    } else {
      var t := Do(k, es[0]);
      StepKeeps(k, es[0]);
      StepOrder(k, es[0], s);
      FirstComeFirstServed(t, es[1..], s);
      SubSteps(Leaves(k, es[0], s), Joins(k, es[0], s), k.lists[s], t.lists[s], AllLeaves(t, es[1..], s),
               AllJoins(t, es[1..], s), After(k, es).lists[s]);
      MissingSteps(Leaves(k, es[0], s), Joins(k, es[0], s), k.lists[s], t.lists[s], AllLeaves(t, es[1..], s),
                   AllJoins(t, es[1..], s), After(k, es).lists[s], Kills(k, es[0], s), AllKills(t, es[1..], s));
    }
  }

  lemma NoneYet(l: seq<nat>)
    ensures Sub([] + l, l + []) && Adds([], l, [], l, [])
  {
    SubSame(l);
    assert [] + l == l == l + [];
  }

  /** How many calls of wait on s complete in this step: at once, or by being released. */
  ghost function Completes(k: K, e: Step, s: nat): nat
    requires Sized(k) && s < NSEM
  {
    if e == DoWait(s) && k.sems[s].count > 0 then 1 else |Leaves(k, e, s)|
  }

  lemma StepBalance(k: K, e: Step, s: nat)
    requires Inv(k) && Enabled(k, e) && s < NSEM && k.sems[s].used
    requires e != DoSemDelete(s) && !(e.DoSemReset? && e.s == s)
    ensures Sized(k) && Do(k, e).sems[s].used
    ensures Completes(k, e, s) + Permits(Do(k, e).sems[s]) == Permits(k.sems[s]) + Signals(e, s)
  {
    InvSized(k);
    SemIs(k, s);
    if Fair(k, e, s) {
      hide Inv, Do;
      StepQueues(k, e, s);
    } else {
      var p := e.p;
      hide MembersOf, StatesOf, SemsOf, ReadyOf, Delays;
      About(k, -1, k.currpid);
      About(k, -1, p);
    }
  }

  ghost function AllCompletes(k: K, es: seq<Step>, s: nat): nat
    requires Sized(k) && Runs(k, es) && s < NSEM
    decreases |es|
  {
    if |es| == 0 then 0 else Completes(k, es[0], s) + AllCompletes(Do(k, es[0]), es[1..], s)
  }

  function AllSignals(es: seq<Step>, s: nat): nat
    decreases |es|
  {
    if |es| == 0 then 0 else Signals(es[0], s) + AllSignals(es[1..], s)
  }

  /** Over a run that neither deletes nor resets s, even one that kills waiters: completed
      waits and permits left are the permits at first and the signals. */
  lemma {:induction false} Balance(k: K, es: seq<Step>, s: nat)
    requires Inv(k) && Runs(k, es) && s < NSEM && k.sems[s].used && Lasting(es, s)
    ensures Sized(k) && Sized(After(k, es))
    ensures AllCompletes(k, es, s) + Permits(After(k, es).sems[s]) == Permits(k.sems[s]) + AllSignals(es, s)
    decreases |es|
  {
    InvSized(k);
    hide Inv, Enabled, Do, Signals, Completes;
    if |es| > 0 {
      StepKeeps(k, es[0]);
      StepBalance(k, es[0], s);
      Balance(Do(k, es[0]), es[1..], s);
    }
  }

  /** signal keeps counts and waiters in step unless the count is at its 32-bit limit: then
      it becomes negative with nobody waiting. */
  lemma SignalExactly(k: K, s: int)
    requires Inv(k)
    ensures Inv(Signal(k, s).0) <==> !(0 <= s < NSEM && k.sems[s].used && k.sems[s].count == MAXCOUNT)
  {
    if 0 <= s < NSEM && k.sems[s].used {
      SemIs(k, s);
      if k.sems[s].count == MAXCOUNT {
        var t := SignalOne(k, s);
        if Inv(t) {
          SemIs(t, s);
        }
      } else {
        SignalStep(k, s);
      }
    }
  }
}
