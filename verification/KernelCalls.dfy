/** Every call keeps the invariant of the process manager. */
module KernelCalls {
  import opened KernelQueues
  import opened KernelSleep
  import opened KernelSpec
  import opened KernelInv

  /** The invariant while the queue of semaphore x is being emptied. */
  ghost predicate Mid(k: K, x: int) {
    Core(k, x, -1) && k.procs[k.currpid].prstate == PR_CURR && PrioOk(k) && AwakeOk(k)
  }

  /** The current process may give up the processor: rescheduling is not put off, and it
      is not the null process, which must always be ready to run. */
  ghost predicate CanBlock(k: K) {
    k.ndefers == 0 && k.currpid != NULLPROC
  }

  /** Whatever is steady leaves the sleepers asleep. */
  lemma AwakeKept(k: K, t: K, p: int, q: int)
    requires Sized(k) && Sized(t) && Members(k, q) && Steady(k, t, p) && AwakeOk(k)
    requires 0 <= p < NPROC ==> p !in k.lists[SQ]
    ensures AwakeOk(t)
  {
    if |k.lists[SQ]| > 0 {
      assert k.lists[SQ][0] in k.lists[SQ];
    }
  }

  lemma ReschedKeeps(k: K, x: int)
    requires Core(k, x, -1) && AwakeOk(k) && (k.ndefers > 0 ==> k.procs[k.currpid].prstate == PR_CURR)
    ensures Mid(Resched(k), x) && Steady(k, Resched(k), -1)
  {
    ReschedOk(k, x);
    AwakeKept(k, Resched(k), -1, -1);
  }

  /** Process p, taken off its list, is readied. */
  lemma ReadyKeeps(k: K, x: int, p: nat)
    requires Core(k, x, p) && AwakeOk(k) && p < NPROC && k.procs[p].prstate != PR_FREE
    requires MsgOk(k.procs[p].(prstate := PR_READY), k.ctx[p])
    requires k.procs[k.currpid].prstate == PR_CURR && p != k.currpid
    ensures Mid(Ready(k, p), x) && Steady(k, Ready(k, p), p)
  {
    var t := Enready(k, p);
    assert p !in k.lists[SQ];
    EnreadyOk(k, x, p);
    EnreadySteady(k, p);
    AwakeKept(k, t, p, p);
    hide Core, AwakeOk;
    ReschedKeeps(t, x);
    SteadyOn(k, t, Resched(t), p, -1);
  }

  // ---- semaphores ----

  lemma InvSized(k: K)
    requires Inv(k)
    ensures Sized(k)
  {
  }

  lemma ExceptOk(k: K, x: int)
    requires Inv(k)
    ensures Mid(k, x) && Sized(k)
  {
  }

  lemma SettledOk(k: K, s: nat)
    requires Mid(k, s) && s < NSEM && |k.lists[s]| == Waiting(k.sems[s]) && k.sems[s].count <= MAXCOUNT
    ensures Inv(k)
  {
  }

  lemma SemChanged(k: K, s: nat, sem: Sem, n: nat)
    requires Mid(k, s) && s < NSEM && n < NSEM
    ensures Mid(k.(sems := k.sems[s := sem], nextsem := n), s)
  {
  }

  lemma ReadyHeadKeeps(k: K, i: nat)
    requires Mid(k, i) && i < NSEM && |k.lists[i]| > 0
    ensures var t := ReadyHead(k, i);
            Mid(t, i) && t.lists[i] == k.lists[i][1..] && t.sems == k.sems && t.ndefers == k.ndefers
    ensures Steady(SetList(k, i, k.lists[i][1..]), ReadyHead(k, i), k.lists[i][0])
  {
    var p := k.lists[i][0];
    HeadIs(k, i);
    UnlinkOk(k, i, p, i);
    var t := SetList(k, i, k.lists[i][1..]);
    hide Core;
    ReadyKeeps(t, i, p);
  }

  /** signal, in two parts. */
  lemma SignalIs(k: K, s: nat)
    requires Inv(k) && s < NSEM && k.sems[s].used && k.sems[s].count < MAXCOUNT
    ensures var c, t := k.sems[s].count, SetCount(k, s, k.sems[s].count + 1);
            && SignalOne(k, s) == (if c < 0 then ReadyHead(t, s) else t)
            && t == k.(sems := k.sems[s := Sem(true, c + 1)], nextsem := k.nextsem)
            && t.sems == k.sems[s := Sem(true, c + 1)] && t.lists == k.lists && t.ndefers == k.ndefers
            && Waiting(Sem(true, c + 1)) == |k.lists[s]| - (if c < 0 then 1 else 0)
  {
    hide ReadyHead;
    assert |k.lists[s]| == Waiting(k.sems[s]);
  }

  lemma SignalMid(k: K, s: nat)
    requires Inv(k) && s < NSEM && k.sems[s].used && k.sems[s].count < MAXCOUNT
    ensures Mid(SignalOne(k, s), s)
    ensures SignalOne(k, s).sems == k.sems[s := Sem(true, k.sems[s].count + 1)]
    ensures SignalOne(k, s).ndefers == k.ndefers
    ensures |SignalOne(k, s).lists[s]| == Waiting(Sem(true, k.sems[s].count + 1))
  {
    hide Inv, Mid, ReadyHead, SignalOne, Waiting, SetCount, Steady;
    InvSized(k);
    var c := k.sems[s].count;
    SignalIs(k, s);
    ExceptOk(k, s);
    SemChanged(k, s, Sem(true, c + 1), k.nextsem);
    if c < 0 {
      ReadyHeadKeeps(SetCount(k, s, c + 1), s);
    }
  }

  /** signal: the count and the number of waiters stay in step, up to the largest count. */
  lemma SignalOneKeeps(k: K, s: nat)
    requires Inv(k) && s < NSEM && k.sems[s].used && k.sems[s].count < MAXCOUNT
    ensures SignalOne(k, s).sems == k.sems[s := Sem(true, k.sems[s].count + 1)]
    ensures SignalOne(k, s).ndefers == k.ndefers
    ensures Inv(SignalOne(k, s))
  {
    SignalMid(k, s);
    hide Inv, Mid, Core, SignalOne;
    SettledOk(SignalOne(k, s), s);
  }

  lemma SignalStep(k: K, s: nat)
    requires Inv(k) && s < NSEM && k.sems[s].used && k.sems[s].count < MAXCOUNT
    ensures Sized(k) && Inv(SignalOne(k, s)) && Sized(SignalOne(k, s)) && SignalOne(k, s).ndefers == k.ndefers
    ensures SignalOne(k, s).sems[s] == Sem(true, k.sems[s].count + 1)
  {
    SignalOneKeeps(k, s);
  }

  lemma {:induction false} SignalManyKeeps(k: K, s: nat, n: nat)
    requires Inv(k) && s < NSEM && k.sems[s].used && k.sems[s].count + n <= MAXCOUNT
    ensures Inv(SignalMany(k, s, n)) && SignalMany(k, s, n).ndefers == k.ndefers
    ensures SignalMany(k, s, n).sems[s] == Sem(true, k.sems[s].count + n)
    decreases n
  {
    hide Inv, SignalOne, Sized;
    if n > 0 {
      SignalStep(k, s);
      SignalManyKeeps(SignalOne(k, s), s, n - 1);
    }
  }

  lemma DeferStartKeeps(k: K)
    requires Inv(k)
    ensures Inv(DeferStart(k))
  {
    DeferralOk(k, -1, -1, DeferStart(k).ndefers, DeferStart(k).attempt);
  }

  lemma DeferStopKeeps(k: K)
    requires Inv(k)
    ensures Inv(DeferStop(k))
    ensures DeferStop(k).ndefers == if k.ndefers == 0 then 0 else k.ndefers - 1
  {
    if k.ndefers > 0 {
      var n := k.ndefers - 1;
      DeferralOk(k, -1, -1, n, k.attempt);
      assert k.(ndefers := n, attempt := k.attempt) == k.(ndefers := n);
      if n == 0 && k.attempt {
        ReschedKeeps(k.(ndefers := 0), -1);
      }
    }
  }

  lemma SignalNKeeps(k: K, s: int, count: int)
    requires Inv(k) && (0 <= s < NSEM && k.sems[s].used ==> k.sems[s].count + count <= MAXCOUNT)
    ensures Inv(SignalN(k, s, count).0) && SignalN(k, s, count).0.ndefers == k.ndefers
  {
    assert Sized(k);
    if BadSem(s) || count < 0 || !k.sems[s].used {
      return;
    }
    DeferStartKeeps(k);
    hide Inv;
    SignalManyKeeps(DeferStart(k), s, count);
    DeferStopKeeps(SignalMany(DeferStart(k), s, count));
  }

  /** Emptying a queue under deferral. */
  lemma {:induction false} DrainKeeps(k: K, i: nat, n: nat)
    requires Mid(k, i) && i < NSEM && n == |k.lists[i]|
    ensures Mid(Drain(k, i, n), i) && |Drain(k, i, n).lists[i]| == 0
    ensures Drain(k, i, n).sems == k.sems && Drain(k, i, n).ndefers == k.ndefers
    decreases n
  {
    if n == 0 {
      return;
    }
    ReadyHeadKeeps(k, i);
    hide Mid;
    DrainKeeps(ReadyHead(k, i), i, n - 1);
  }

  lemma SemResetKeeps(k: K, s: int, count: int)
    requires Inv(k) && count <= MAXCOUNT
    ensures Inv(SemReset(k, s, count).0) && SemReset(k, s, count).0.ndefers == k.ndefers
  {
    assert Sized(k);
    if count < 0 || BadSem(s) || !k.sems[s].used {
      return;
    }
    var t, n := DeferStart(k), |k.lists[s]|;
    DeferStartKeeps(k);
    ExceptOk(t, s);
    hide Inv, Mid;
    DrainKeeps(t, s, n);
    var u := Drain(t, s, n);
    SemChanged(u, s, Sem(true, count), u.nextsem);
    var v := SetCount(u, s, count);
    assert v == u.(sems := u.sems[s := Sem(true, count)], nextsem := u.nextsem);
    SettledOk(v, s);
    DeferStopKeeps(v);
  }

  /** One turn of the loop of semdelete. */
  lemma ReleaseStep(k: K, s: nat)
    requires Mid(k, s) && s < NSEM && |k.lists[s]| > 0 && k.sems[s].count < 0
    ensures Sized(k) && Mid(SignalOne(k, s), s) && Sized(SignalOne(k, s))
    ensures SignalOne(k, s).ndefers == k.ndefers
    ensures |SignalOne(k, s).lists[s]| == |k.lists[s]| - 1
    ensures SignalOne(k, s).sems[s] == k.sems[s].(count := k.sems[s].count + 1)
  {
    var n := k.sems[s].count + 1;
    var t := SetCount(k, s, n);
    MidSized(k, s);
    assert SignalOne(k, s) == ReadyHead(t, s);
    assert t == k.(sems := k.sems[s := k.sems[s].(count := n)], nextsem := k.nextsem);
    assert t.sems[s] == k.sems[s].(count := n);
    hide *;
    SemChanged(k, s, k.sems[s].(count := n), k.nextsem);
    ReadyHeadKeeps(t, s);
  }

  lemma MidSized(k: K, x: int)
    requires Mid(k, x)
    ensures Sized(k)
  {
  }

  lemma {:induction false} SignalDrains(k: K, s: nat, n: nat)
    requires Mid(k, s) && s < NSEM && n == |k.lists[s]| && k.sems[s].count + n == 0
    ensures Mid(SignalMany(k, s, n), s) && |SignalMany(k, s, n).lists[s]| == 0
    ensures SignalMany(k, s, n).sems[s] == k.sems[s].(count := 0) && SignalMany(k, s, n).ndefers == k.ndefers
    decreases n
  {
    hide Mid, SignalOne, Sized;
    if n > 0 {
      ReleaseStep(k, s);
      SignalDrains(SignalOne(k, s), s, n - 1);
    }
  }

  lemma SemDeleteIs(k: K, s: nat, t: K, n: nat)
    requires Sized(k) && s < NSEM && k.sems[s].used
    requires t == k.(sems := k.sems[s := Sem(false, k.sems[s].count)])
    requires n == if k.sems[s].count < 0 then -k.sems[s].count else 0
    ensures var v := SignalMany(DeferStart(t), s, n);
            SemDelete(k, s).0 == DeferStop(SetCount(v, s, Bump(v.sems[s].count)))
  {
    hide SignalMany, DeferStart, DeferStop, SetCount, Bump;
  }

  lemma SemDeleteKeeps(k: K, s: int)
    requires Inv(k)
    ensures Inv(SemDelete(k, s).0) && SemDelete(k, s).0.ndefers == k.ndefers
  {
    assert Sized(k);
    if BadSem(s) || !k.sems[s].used {
      return;
    }
    var c := k.sems[s].count;
    var n := if c < 0 then -c else 0;
    assert |k.lists[s]| == n;
    ExceptOk(k, s);
    SemChanged(k, s, Sem(false, c), k.nextsem);
    var t := k.(sems := k.sems[s := Sem(false, c)]);
    assert t == k.(sems := k.sems[s := Sem(false, c)], nextsem := k.nextsem);
    MidDefer(t, s);
    var u := DeferStart(t);
    var v := SignalMany(u, s, n);
    hide Inv, Mid;
    assert c <= MAXCOUNT;
    assert Mid(v, s) && |v.lists[s]| == 0 && v.ndefers == u.ndefers && !v.sems[s].used
           && v.sems[s].count <= MAXCOUNT by {
      if n > 0 {
        SignalDrains(u, s, n);
      }
    }
    hide *;
    SemDropped(v, s);
    DeferStopKeeps(SetCount(v, s, Bump(v.sems[s].count)));
    SemDeleteIs(k, s, t, n);
  }

  lemma SemDropped(k: K, s: nat)
    requires Mid(k, s) && s < NSEM && |k.lists[s]| == 0 && !k.sems[s].used && k.sems[s].count <= MAXCOUNT
    ensures Inv(SetCount(k, s, Bump(k.sems[s].count)))
  {
    var w := SetCount(k, s, Bump(k.sems[s].count));
    SemChanged(k, s, Sem(false, Bump(k.sems[s].count)), k.nextsem);
    assert w == k.(sems := k.sems[s := Sem(false, Bump(k.sems[s].count))], nextsem := k.nextsem);
    SettledOk(w, s);
  }

  lemma MidDefer(k: K, x: int)
    requires Mid(k, x)
    ensures Mid(DeferStart(k), x)
  {
    DeferralOk(k, x, -1, DeferStart(k).ndefers, DeferStart(k).attempt);
  }

  lemma SemCreateKeeps(k: K, count: int)
    requires Inv(k) && count <= MAXCOUNT
    ensures Inv(SemCreate(k, count).0) && SemCreate(k, count).0.ndefers == k.ndefers
  {
    assert Sized(k);
    var s := FindSem(k.sems, k.nextsem, |k.sems|);
    if count >= 0 && s != SYSERR {
      ExceptOk(k, s);
      SemChanged(k, s, Sem(true, count), if s + 1 == NSEM then 0 else s + 1);
      assert |k.lists[s]| == Waiting(k.sems[s]) == 0;
      SettledOk(SemCreate(k, count).0, s);
    }
  }

  // ---- blocking ----

  /** The current process leaves for state st, which is on no list, or for ctx c. */
  lemma BlockKeeps(k: K, st: PrState, c: Ctx)
    requires Inv(k) && CanBlock(k) && st in {PR_FREE, PR_RECV, PR_SUSP}
    requires MsgOk(k.procs[k.currpid].(prstate := st), c)
    ensures Inv(Resched(SetState(SetCtx(k, c), k.currpid, st)))
  {
    var p := k.currpid;
    var t := SetState(SetCtx(k, c), p, st);
    LiftOk(k, -1, p);
    TouchOk(k, -1, p, k.procs[p].(prstate := st), c);
    assert t == k.(procs := k.procs[p := k.procs[p].(prstate := st)], ctx := k.ctx[p := c]);
    LandOk(t, -1, p);
    ReschedKeeps(t, -1);
  }

  lemma EnqueuedOk(k: K, s: nat)
    requires Core(k, s, k.currpid) && s < NSEM && k.currpid != NULLPROC && k.ctx[k.currpid] == Nothing
    ensures Core(Enqueued(k, s), s, -1)
  {
    var p, t := k.currpid, Enqueued(k, s);
    var pr := k.procs[p].(prstate := PR_WAIT, prsem := s);
    TouchOk(k, s, p, pr, k.ctx[p]);
    var u := k.(procs := k.procs[p := pr], ctx := k.ctx[p := k.ctx[p]]);
    assert u == k.(procs := k.procs[p := pr]);
    PutMembersOk(u, p, s, |k.lists[s]|);
    assert PutAt(k.lists[s], |k.lists[s]|, p) == k.lists[s] + [p];
    hide MembersOf;
  }

  lemma WaitKeeps(k: K, s: int)
    requires Inv(k) && k.ctx[k.currpid] == Nothing
    requires CanBlock(k) || (0 <= s < NSEM && k.sems[s].count > 0)
    ensures Inv(Wait(k, s).0)
  {
    assert Sized(k);
    if 0 <= s < NSEM && k.sems[s].used {
      var n := k.sems[s].count - 1;
      ExceptOk(k, s);
      SemChanged(k, s, Sem(true, n), k.nextsem);
      var t := SetCount(k, s, n);
      assert t == k.(sems := k.sems[s := Sem(true, n)], nextsem := k.nextsem);
      assert |k.lists[s]| == Waiting(k.sems[s]);
      if n < 0 {
        LiftOk(t, s, t.currpid);
        EnqueuedOk(t, s);
        var u := Enqueued(t, s);
        CoreSettled(u, s);
        hide Core;
        ReschedKeeps(u, -1);
      } else {
        SettledOk(t, s);
      }
    }
  }

  lemma CoreSettled(k: K, s: nat)
    requires Core(k, s, -1) && s < NSEM && |k.lists[s]| == Waiting(k.sems[s]) && k.sems[s].count <= MAXCOUNT
    ensures Core(k, -1, -1)
  {
  }
}
