/** What each call leaves alone. Statements are about one process q and one semaphore r,
    both of which may be any; -1 stands for none. */
module KernelFrame {
  import opened KernelQueues
  import opened KernelSleep
  import opened KernelSpec
  import opened KernelInv
  import opened KernelCalls
  import opened KernelProcs

  /** Some process number that is no process, other than p. */
  function Neither(p: int): int {
    if p == -2 then -3 else -2
  }

  /** Nothing happened to the process, except that it may have got or lost the processor. */
  ghost predicate SameProc(a: Proc, b: Proc) {
    b.(prstate := a.prstate) == a && (b.prstate == a.prstate || (Able(b) && Able(a)))
  }

  ghost predicate SameSleepers(l: seq<nat>, keys: seq<int>, l': seq<nat>, keys': seq<int>)
    requires Procs(l) && |keys| == |keys'| == NPROC
  {
    l' == l && forall j :: 0 <= j < |l| ==> keys'[l[j]] == keys[l[j]]
  }

  /** From k to t process q and semaphore r were spared, and unless zz the sleep queue. */
  ghost predicate Spared(k: K, t: K, q: int, r: int, zz: bool) {
    && Sized(k) && Sized(t)
    && (0 <= q < NPROC ==> SameProc(k.procs[q], t.procs[q]) && t.ctx[q] == k.ctx[q])
    && (0 <= r < NSEM ==> t.sems[r] == k.sems[r] && t.lists[r] == k.lists[r])
    && (zz || SameSleepers(k.lists[SQ], k.keys, t.lists[SQ], t.keys))
  }

  lemma SparedSelf(k: K, q: int, r: int, zz: bool)
    requires Sized(k)
    ensures Spared(k, k, q, r, zz)
  {
  }

  lemma SparedOn(k: K, t: K, u: K, q: int, r: int, zz: bool)
    requires Spared(k, t, q, r, zz) && Spared(t, u, q, r, zz)
    ensures Spared(k, u, q, r, zz)
  {
  }

  /** A change to one semaphore, and to what Spared does not speak of. */
  lemma SemSpares(k: K, t: K, s: nat, q: int, r: int, zz: bool)
    requires Sized(k) && Sized(t) && s < NSEM && r != s
    requires t.procs == k.procs && t.ctx == k.ctx && t.lists == k.lists && t.keys == k.keys
    requires t.sems == k.sems[s := t.sems[s]]
    ensures Spared(k, t, q, r, zz)
  {
  }

  lemma SteadySpares(k: K, t: K, p: int, q: int, r: int)
    requires Sized(k) && Sized(t) && Members(k, p) && Steady(k, t, p) && q != p
    ensures Spared(k, t, q, r, false)
  {
    forall j | 0 <= j < |k.lists[SQ]|
      ensures t.keys[k.lists[SQ][j]] == k.keys[k.lists[SQ][j]]
    {
      assert k.lists[SQ][j] in k.lists[SQ];
    }
  }

  lemma CoreSized(k: K, x: int, p: int)
    requires Core(k, x, p)
    ensures Sized(k) && Members(k, p)
  {
  }

  lemma ReschedSpares(k: K, q: int, r: int)
    requires Core(k, -1, -1) && (k.ndefers > 0 ==> k.procs[k.currpid].prstate == PR_CURR) && q != -1
    ensures Spared(k, Resched(k), q, r, false)
    ensures Resched(k).sems == k.sems && (0 <= r < NSEM ==> Resched(k).lists[r] == k.lists[r])
  {
    ReschedOk(k, -1);
    hide Core, Resched;
    CoreSized(k, -1, -1);
    SteadySpares(k, Resched(k), -1, q, r);
  }

  lemma ReadySpares(k: K, x: int, p: nat, q: int, r: int)
    requires Core(k, x, p) && AwakeOk(k) && p < NPROC && k.procs[p].prstate != PR_FREE
    requires MsgOk(k.procs[p].(prstate := PR_READY), k.ctx[p])
    requires k.procs[k.currpid].prstate == PR_CURR && p != k.currpid && q != p
    ensures Spared(k, Ready(k, p), q, r, false) && Able(Ready(k, p).procs[p])
  {
    ReadyKeeps(k, x, p);
    hide Core, Ready;
    CoreSized(k, x, p);
    SteadySpares(k, Ready(k, p), p, q, r);
  }

  lemma ReadyHeadSpares(k: K, s: nat, q: int, r: int)
    requires Mid(k, s) && s < NSEM && |k.lists[s]| > 0 && q != k.lists[s][0] && r != s
    ensures Spared(k, ReadyHead(k, s), q, r, false)
  {
    var p, t := k.lists[s][0], SetList(k, s, k.lists[s][1..]);
    HeadIs(k, s);
    UnlinkOk(k, s, p, s);
    CoreSized(t, s, p);
    assert Spared(k, t, q, r, false);
    ReadyHeadKeeps(k, s);
    hide ReadyHead, Core, Steady;
    SteadySpares(t, ReadyHead(k, s), p, q, r);
    SparedOn(k, t, ReadyHead(k, s), q, r, false);
  }

  lemma InRest(l: seq<nat>, n: nat, q: int)
    requires q !in l
    ensures q !in Rest(l, n)
  {
  }

  lemma RestOn(l: seq<nat>, n: nat)
    requires n > 0
    ensures Rest(Rest(l, 1), n - 1) == Rest(l, n)
  {
  }

  // ---- semaphores ----

  /** wait: the caller takes a permit, or joins the end of the queue. */
  lemma WaitEffect(k: K, s: nat)
    requires Inv(k) && k.ctx[k.currpid] == Nothing && s < NSEM && k.sems[s].used
    requires CanBlock(k) || k.sems[s].count > 0
    ensures Sized(k) && Wait(k, s).0.sems[s] == Sem(true, k.sems[s].count - 1)
    ensures Wait(k, s).0.lists[s] == k.lists[s] + (if k.sems[s].count > 0 then [] else [k.currpid])
    ensures k.sems[s].count > 0 ==> Wait(k, s).0.currpid == k.currpid && Wait(k, s).0.procs == k.procs
  {
    InvSized(k);
    var t := SetCount(k, s, k.sems[s].count - 1);
    if t.sems[s].count < 0 {
      WaitingCore(k, s);
      hide Core;
      ReschedSpares(Enqueued(t, s), -2, s);
    }
  }

  lemma EnqueuedSpares(k: K, s: nat, n: int, q: int, r: int)
    requires Sized(k) && s < NSEM && q != k.currpid && r != s
    ensures Spared(k, Enqueued(SetCount(k, s, n), s), q, r, false)
  {
  }

  /** A caller that has to wait joins the queue and reschedules. */
  lemma WaitIs(k: K, s: nat)
    requires Sized(k) && s < NSEM && k.sems[s].used
    ensures Wait(k, s).0 == if k.sems[s].count > 0 then SetCount(k, s, k.sems[s].count - 1)
                            else Resched(Enqueued(SetCount(k, s, k.sems[s].count - 1), s))
    ensures CanBlock(k) ==> Enqueued(SetCount(k, s, k.sems[s].count - 1), s).ndefers == 0
  {
    hide Resched;
  }

  lemma BlockSpares(k: K, s: nat, q: int, r: int)
    requires Inv(k) && Sized(k) && k.ctx[k.currpid] == Nothing && q != k.currpid && q != -1 && r != s && CanBlock(k)
    requires s < NSEM && k.sems[s].used && k.sems[s].count <= 0
    ensures Spared(k, Wait(k, s).0, q, r, false)
  {
    hide Inv, Core, Spared, CanBlock, Resched, Wait, Enqueued;
    var u := Enqueued(SetCount(k, s, k.sems[s].count - 1), s);
    WaitIs(k, s);
    WaitingCore(k, s);
    EnqueuedSpares(k, s, k.sems[s].count - 1, q, r);
    ReschedSpares(u, q, r);
    SparedOn(k, u, Resched(u), q, r, false);
  }

  lemma WaitSpares(k: K, s: int, q: int, r: int)
    requires Inv(k) && k.ctx[k.currpid] == Nothing && q != k.currpid && q != -1 && r != s
    requires CanBlock(k) || (0 <= s < NSEM && k.sems[s].count > 0)
    ensures Spared(k, Wait(k, s).0, q, r, false)
  {
    hide Inv, CanBlock, Resched, Spared;
    InvSized(k);
    if BadSem(s) || !k.sems[s].used {
      SparedSelf(k, q, r, false);
    } else if k.sems[s].count > 0 {
      SemSpares(k, SetCount(k, s, k.sems[s].count - 1), s, q, r, false);
    } else {
      BlockSpares(k, s, q, r);
    }
  }

  /** A caller of wait that has to wait is in its place before it reschedules. */
  lemma WaitingCore(k: K, s: nat)
    requires Inv(k) && s < NSEM && k.sems[s].used && k.ctx[k.currpid] == Nothing && k.sems[s].count <= 0 && CanBlock(k)
    ensures Core(Enqueued(SetCount(k, s, k.sems[s].count - 1), s), -1, -1)
  {
    var n := k.sems[s].count - 1;
    ExceptOk(k, s);
    SemChanged(k, s, Sem(true, n), k.nextsem);
    var t := SetCount(k, s, n);
    assert t == k.(sems := k.sems[s := Sem(true, n)], nextsem := k.nextsem);
    SemIs(k, s);
    LiftOk(t, s, t.currpid);
    EnqueuedOk(t, s);
    CoreSettled(Enqueued(t, s), s);
  }

  /** The list after n of those who wait were released. */
  function Rest(l: seq<nat>, n: nat): seq<nat> {
    if n < |l| then l[n..] else []
  }

  /** One signal releases the first of the queue. */
  lemma SignalEffect(k: K, s: nat)
    requires Inv(k) && s < NSEM && k.sems[s].used && k.sems[s].count < MAXCOUNT
    ensures Sized(k) && SignalOne(k, s).lists[s] == Rest(k.lists[s], 1)
    ensures SignalOne(k, s).sems[s] == Sem(true, k.sems[s].count + 1)
    ensures |k.lists[s]| > 0 ==> k.lists[s][0] < NPROC && Able(SignalOne(k, s).procs[k.lists[s][0]])
  {
    InvSized(k);
    SemIs(k, s);
    var c := k.sems[s].count;
    var t := SetCount(k, s, c + 1);
    ExceptOk(k, s);
    SemChanged(k, s, Sem(true, c + 1), k.nextsem);
    assert t == k.(sems := k.sems[s := Sem(true, c + 1)], nextsem := k.nextsem);
    hide Inv, Mid, Core;
    if c < 0 {
      ReadyHeadKeeps(t, s);
    }
  }

  lemma SignalSpares(k: K, s: nat, q: int, r: int)
    requires Inv(k) && s < NSEM && k.sems[s].used && k.sems[s].count < MAXCOUNT && q !in k.lists[s] && r != s
    ensures Spared(k, SignalOne(k, s), q, r, false)
  {
    InvSized(k);
    SemIs(k, s);
    var c := k.sems[s].count;
    var t := SetCount(k, s, c + 1);
    ExceptOk(k, s);
    SemChanged(k, s, Sem(true, c + 1), k.nextsem);
    assert t == k.(sems := k.sems[s := Sem(true, c + 1)], nextsem := k.nextsem);
    SemSpares(k, t, s, q, r, false);
    hide Inv, Mid, Core, Spared;
    if c < 0 {
      ReadyHeadSpares(t, s, q, r);
      SparedOn(k, t, ReadyHead(t, s), q, r, false);
    }
  }

  lemma {:induction false} SignalManyEffect(k: K, s: nat, n: nat)
    requires Inv(k) && s < NSEM && k.sems[s].used && k.sems[s].count + n <= MAXCOUNT
    ensures Sized(k) && SignalMany(k, s, n).lists[s] == Rest(k.lists[s], n)
    decreases n
  {
    InvSized(k);
    hide Inv, SignalOne;
    if n > 0 {
      SignalStep(k, s);
      SignalEffect(k, s);
      SignalManyEffect(SignalOne(k, s), s, n - 1);
      RestOn(k.lists[s], n);
    }
  }

  lemma {:induction false} SignalManySpares(k: K, s: nat, n: nat, q: int, r: int)
    requires Inv(k) && s < NSEM && k.sems[s].used && k.sems[s].count + n <= MAXCOUNT && q !in k.lists[s] && r != s
    ensures Spared(k, SignalMany(k, s, n), q, r, false)
    decreases n
  {
    InvSized(k);
    hide Inv, SignalOne, Rest;
    if n > 0 {
      var t := SignalOne(k, s);
      SignalStep(k, s);
      SignalEffect(k, s);
      SignalSpares(k, s, q, r);
      InRest(k.lists[s], 1, q);
      SignalManySpares(t, s, n - 1, q, r);
      SparedOn(k, t, SignalMany(t, s, n - 1), q, r, false);
    }
  }

  lemma DeferStartSpares(k: K, q: int, r: int)
    requires Sized(k)
    ensures Spared(k, DeferStart(k), q, r, false)
  {
  }

  lemma DeferStopSpares(k: K, q: int, r: int)
    requires Inv(k) && q != -1
    ensures Spared(k, DeferStop(k), q, r, false)
    ensures DeferStop(k).sems == k.sems && (0 <= r < NSEM ==> DeferStop(k).lists[r] == k.lists[r])
  {
    if k.ndefers == 1 && k.attempt {
      var t := k.(ndefers := 0, attempt := k.attempt);
      assert t == k.(ndefers := 0);
      DeferralOk(k, -1, -1, 0, k.attempt);
      hide Core, Inv;
      ReschedSpares(t, q, r);
      SparedOn(k, t, Resched(t), q, r, false);
    }
  }

  lemma SignalNEffect(k: K, s: nat, n: nat)
    requires Inv(k) && s < NSEM && k.sems[s].used && k.sems[s].count + n <= MAXCOUNT
    ensures Sized(k) && SignalN(k, s, n).0.lists[s] == Rest(k.lists[s], n)
    ensures SignalN(k, s, n).0.sems[s] == Sem(true, k.sems[s].count + n)
  {
    InvSized(k);
    var t := DeferStart(k);
    DeferStartKeeps(k);
    hide Inv, DeferStop;
    SignalManyKeeps(t, s, n);
    SignalManyEffect(t, s, n);
    DeferStopSpares(SignalMany(t, s, n), -2, s);
  }

  lemma SignalNSpares(k: K, s: int, count: int, q: int, r: int)
    requires Inv(k) && (0 <= s < NSEM && k.sems[s].used ==> k.sems[s].count + count <= MAXCOUNT)
    requires Sized(k) && (0 <= s < NSEM ==> q !in k.lists[s]) && r != s && q != -1
    ensures Spared(k, SignalN(k, s, count).0, q, r, false)
  {
    if BadSem(s) || count < 0 || !k.sems[s].used {
      return;
    }
    var t := DeferStart(k);
    DeferStartKeeps(k);
    DeferStartSpares(k, q, r);
    hide Inv, DeferStop, Spared;
    SignalManyKeeps(t, s, count);
    SignalManySpares(t, s, count, q, r);
    var u := SignalMany(t, s, count);
    DeferStopSpares(u, q, r);
    SparedOn(k, t, u, q, r, false);
    SparedOn(k, u, DeferStop(u), q, r, false);
  }

  lemma {:induction false} DrainSpares(k: K, s: nat, n: nat, q: int, r: int)
    requires Mid(k, s) && s < NSEM && n == |k.lists[s]| && q !in k.lists[s] && r != s
    ensures Spared(k, Drain(k, s, n), q, r, false)
    decreases n
  {
    MidSized(k, s);
    hide Mid, ReadyHead, Steady;
    if n > 0 {
      var t := ReadyHead(k, s);
      ReadyHeadKeeps(k, s);
      ReadyHeadSpares(k, s, q, r);
      DrainSpares(t, s, n - 1, q, r);
      SparedOn(k, t, Drain(t, s, n - 1), q, r, false);
    }
  }

  lemma DrainedSpares(k: K, s: nat, q: int, r: int)
    requires Inv(k) && Sized(k) && s < NSEM && q !in k.lists[s] && r != s
    ensures var u := Drain(DeferStart(k), s, |k.lists[s]|); Spared(k, u, q, r, false) && Mid(u, s) && |u.lists[s]| == 0
  {
    var t, n := DeferStart(k), |k.lists[s]|;
    DeferStartKeeps(k);
    DeferStartSpares(k, q, r);
    hide Inv, Mid, Spared, DeferStart;
    ExceptOk(t, s);
    DrainKeeps(t, s, n);
    DrainSpares(t, s, n, q, r);
    SparedOn(k, t, Drain(t, s, n), q, r, false);
  }

  lemma SemResetSpares(k: K, s: int, count: int, q: int, r: int)
    requires Inv(k) && Sized(k) && (0 <= s < NSEM ==> q !in k.lists[s]) && r != s && q != -1 && count <= MAXCOUNT
    ensures Spared(k, SemReset(k, s, count).0, q, r, false)
  {
    if count < 0 || BadSem(s) || !k.sems[s].used {
      return;
    }
    hide Inv, Mid, DeferStart, DeferStop, Drain;
    DrainedSpares(k, s, q, r);
    var u := Drain(DeferStart(k), s, |k.lists[s]|);
    var v := SetCount(u, s, count);
    assert u.sems[s].used && v == u.(sems := u.sems[s := Sem(true, count)], nextsem := u.nextsem) by {
      DrainSems(k, s);
    }
    assert SemReset(k, s, count).0 == DeferStop(v);
    hide SemReset, Spared;
    SemChanged(u, s, Sem(true, count), u.nextsem);
    SemSpares(u, v, s, q, r, false);
    SettledOk(v, s);
    DeferStopSpares(v, q, r);
    SparedOn(k, u, v, q, r, false);
    SparedOn(k, v, DeferStop(v), q, r, false);
  }

  lemma DrainSems(k: K, s: nat)
    requires Inv(k) && Sized(k) && s < NSEM
    ensures Drain(DeferStart(k), s, |k.lists[s]|).sems == k.sems
  {
    DeferStartKeeps(k);
    hide Inv, Mid;
    ExceptOk(DeferStart(k), s);
    DrainKeeps(DeferStart(k), s, |k.lists[s]|);
  }

  /** After semreset nobody waits, and the count is as asked for. */
  lemma SemResetEffect(k: K, s: nat, count: nat)
    requires Inv(k) && s < NSEM && k.sems[s].used && count <= MAXCOUNT
    ensures Sized(k) && SemReset(k, s, count).0.sems[s] == Sem(true, count) && |SemReset(k, s, count).0.lists[s]| == 0
  {
    hide Inv, Mid, DeferStop;
    InvSized(k);
    var t, n := DeferStart(k), |k.lists[s]|;
    DeferStartKeeps(k);
    ExceptOk(t, s);
    DrainKeeps(t, s, n);
    var u := Drain(t, s, n);
    SemChanged(u, s, Sem(true, count), u.nextsem);
    var v := SetCount(u, s, count);
    assert v == u.(sems := u.sems[s := Sem(true, count)], nextsem := u.nextsem);
    SettledOk(v, s);
    DeferStopSpares(v, -2, s);
  }

  lemma ReleaseSpares(k: K, s: nat, q: int, r: int)
    requires Mid(k, s) && s < NSEM && |k.lists[s]| > 0 && k.sems[s].count < 0 && q !in k.lists[s] && r != s
    ensures Spared(k, SignalOne(k, s), q, r, false)
    ensures q !in SignalOne(k, s).lists[s]
  {
    hide Mid, Core, ReadyHead, Steady, Spared;
    MidSized(k, s);
    var n := k.sems[s].count + 1;
    var t := SetCount(k, s, n);
    assert t == k.(sems := k.sems[s := k.sems[s].(count := n)], nextsem := k.nextsem);
    SemSpares(k, t, s, q, r, false);
    SemChanged(k, s, k.sems[s].(count := n), k.nextsem);
    ReadyHeadKeeps(t, s);
    ReadyHeadSpares(t, s, q, r);
    SparedOn(k, t, ReadyHead(t, s), q, r, false);
  }

  lemma {:induction false} SignalDrainSpares(k: K, s: nat, n: nat, q: int, r: int)
    requires Mid(k, s) && s < NSEM && n == |k.lists[s]| && k.sems[s].count + n == 0 && q !in k.lists[s] && r != s
    ensures Spared(k, SignalMany(k, s, n), q, r, false)
    decreases n
  {
    MidSized(k, s);
    hide Mid, SignalOne;
    if n > 0 {
      ReleaseStep(k, s);
      ReleaseSpares(k, s, q, r);
      SignalDrainSpares(SignalOne(k, s), s, n - 1, q, r);
      SparedOn(k, SignalOne(k, s), SignalMany(k, s, n), q, r, false);
    }
  }

  /** semdelete up to the last increment, and what it starts from. */
  ghost function Doomed(k: K, s: nat): (r: K)
    requires Sized(k) && s < NSEM
    ensures Sized(r)
  {
    DeferStart(k.(sems := k.sems[s := Sem(false, k.sems[s].count)]))
  }

  ghost function Emptied(k: K, s: nat): (r: K)
    requires Sized(k) && s < NSEM
    ensures Sized(r)
  {
    SignalMany(Doomed(k, s), s, if k.sems[s].count < 0 then -k.sems[s].count else 0)
  }

  lemma DoomedOk(k: K, s: nat)
    requires Inv(k) && s < NSEM && k.sems[s].used
    ensures Sized(k) && Mid(Doomed(k, s), s)
    ensures Doomed(k, s).lists == k.lists && Doomed(k, s).sems[s] == Sem(false, k.sems[s].count)
    ensures |k.lists[s]| == if k.sems[s].count < 0 then -k.sems[s].count else 0
  {
    SemIs(k, s);
    ExceptOk(k, s);
    SemChanged(k, s, Sem(false, k.sems[s].count), k.nextsem);
    var t := k.(sems := k.sems[s := Sem(false, k.sems[s].count)]);
    assert t == k.(sems := k.sems[s := Sem(false, k.sems[s].count)], nextsem := k.nextsem);
    hide Mid, Inv;
    MidDefer(t, s);
  }

  lemma Deleting(k: K, s: nat)
    requires Inv(k) && s < NSEM && k.sems[s].used
    ensures Sized(k) && Mid(Emptied(k, s), s) && |Emptied(k, s).lists[s]| == 0
    ensures !Emptied(k, s).sems[s].used && Emptied(k, s).sems[s].count <= MAXCOUNT
    ensures SemDelete(k, s).0 == DeferStop(SetCount(Emptied(k, s), s, Bump(Emptied(k, s).sems[s].count)))
  {
    var n := if k.sems[s].count < 0 then -k.sems[s].count else 0;
    DoomedOk(k, s);
    SemIs(k, s);
    SemDeleteIs(k, s, k.(sems := k.sems[s := Sem(false, k.sems[s].count)]), n);
    hide Inv, Mid, SetCount, DeferStop;
    if n > 0 {
      SignalDrains(Doomed(k, s), s, n);
    }
  }

  lemma EmptiedSpares(k: K, s: nat, q: int, r: int)
    requires Inv(k) && Sized(k) && s < NSEM && k.sems[s].used && q !in k.lists[s] && r != s && q != -1
    ensures Spared(k, Emptied(k, s), q, r, false)
  {
    DoomedOk(k, s);
    SemSpares(k, Doomed(k, s), s, q, r, false);
    hide Inv, Mid, Spared, Doomed;
    if |k.lists[s]| > 0 {
      SignalDrainSpares(Doomed(k, s), s, |k.lists[s]|, q, r);
      SparedOn(k, Doomed(k, s), Emptied(k, s), q, r, false);
    }
  }

  lemma SemDeleteSpares(k: K, s: int, q: int, r: int)
    requires Inv(k) && Sized(k) && (0 <= s < NSEM ==> q !in k.lists[s]) && r != s && q != -1
    ensures Spared(k, SemDelete(k, s).0, q, r, false)
  {
    if BadSem(s) || !k.sems[s].used {
      return;
    }
    hide Inv, Mid, DeferStop, SemDelete, Emptied;
    Deleting(k, s);
    EmptiedSpares(k, s, q, r);
    var v := Emptied(k, s);
    var w := SetCount(v, s, Bump(v.sems[s].count));
    SemSpares(v, w, s, q, r, false);
    SemDropped(v, s);
    hide Spared;
    DeferStopSpares(w, q, r);
    SparedOn(k, v, w, q, r, false);
    SparedOn(k, w, DeferStop(w), q, r, false);
  }

  // ---- processes ----

  lemma ResumeSpares(k: K, p: int, q: int, r: int)
    requires Inv(k) && q != p
    ensures Spared(k, Resume(k, p).0, q, r, false)
  {
    InvSized(k);
    if BadPid(k, p) || k.procs[p].prstate != PR_SUSP {
      return;
    }
    hide MembersOf, StatesOf, SemsOf, ReadyOf, Delays, Spared, Ready;
    About(k, -1, p);
    LiftOk(k, -1, p);
    ReadySpares(k, -1, p, q, r);
  }

  lemma SuspendSelfSpares(k: K, q: int, r: int)
    requires Inv(k) && k.ndefers == 0 && k.currpid != NULLPROC && q != k.currpid && q != -1
    ensures Sized(k) && Spared(k, Resched(SetState(k, k.currpid, PR_SUSP)), q, r, false)
  {
    InvSized(k);
    var p := k.currpid;
    var t := SetState(k, p, PR_SUSP);
    hide MembersOf, StatesOf, SemsOf, ReadyOf, Delays;
    About(k, -1, p);
    StopCore(k, PR_SUSP, k.ctx[p]);
    assert SetCtx(k, k.ctx[p]).ctx == k.ctx;
    assert Spared(k, t, q, r, false);
    hide Core, Resched;
    ReschedSpares(t, q, r);
    SparedOn(k, t, Resched(t), q, r, false);
  }

  lemma SuspendSpares(k: K, p: int, q: int, r: int)
    requires Inv(k) && (p == k.currpid ==> k.ndefers == 0) && q != p && q != -1
    ensures Spared(k, Suspend(k, p).0, q, r, false)
  {
    InvSized(k);
    if BadPid(k, p) || p == NULLPROC {
      return;
    }
    if k.procs[p].prstate == PR_CURR {
      hide MembersOf, SemsOf, ReadyOf, Delays;
      About(k, -1, p);
      SuspendSelfSpares(k, q, r);
    } else {
      hide Inv, Resched;
    }
  }

  lemma Loosely(k: K, t: K, q: int, r: int)
    requires Spared(k, t, q, r, false)
    ensures Spared(k, t, q, r, true)
  {
  }

  /** A process that waits for a message may run once it has one. */
  lemma Deliverable(k: K, p: nat, pr: Proc)
    requires Inv(k) && p < NPROC && k.procs[p].prstate in {PR_RECV, PR_RECTIM} && Delivered(k.procs[p], pr)
    ensures Sized(k) && p != k.currpid && k.procs[k.currpid].prstate == PR_CURR
    ensures MsgOk(pr.(prstate := PR_READY), k.ctx[p]) && AwakeOk(k.(procs := k.procs[p := pr]))
  {
    hide MembersOf, SemsOf, ReadyOf, Delays;
    About(k, -1, p);
  }

  /** The message is there, and the receiver readied. */
  lemma SendWaiterSpares(k: K, p: nat, msg: int, q: int, r: int)
    requires Inv(k) && Sized(k) && p < NPROC && k.procs[p].prstate == PR_RECV && !k.procs[p].prhasmsg && q != p
    ensures Spared(k, Send(k, p, msg).0, q, r, false)
  {
    hide Inv, Core, Ready, Unsleep, AwakeOk;
    var pr := k.procs[p].(prmsg := msg, prhasmsg := true);
    var t := k.(procs := k.procs[p := pr]);
    Deliverable(k, p, pr);
    SentWaiter(k, p, pr);
    ReadySpares(t, -1, p, q, r);
    assert Spared(k, t, q, r, false);
    SparedOn(k, t, Ready(t, p), q, r, false);
  }

  lemma SendSleeperSpares(k: K, p: nat, msg: int, q: int, r: int)
    requires Inv(k) && Sized(k) && p < NPROC && k.procs[p].prstate == PR_RECTIM && !k.procs[p].prhasmsg && q != p
    ensures Spared(k, Send(k, p, msg).0, q, r, true)
  {
    hide Inv, Core, Ready, Unsleep, AwakeOk, SameSleepers;
    var pr := k.procs[p].(prmsg := msg, prhasmsg := true);
    var t := k.(procs := k.procs[p := pr]);
    var v := Unsleep(t, p).0;
    Deliverable(k, p, pr);
    SentSleeper(k, p, pr);
    ReadySpares(v, -1, p, q, r);
    assert Spared(k, v, q, r, true);
    Loosely(v, Ready(v, p), q, r);
    SparedOn(k, v, Ready(v, p), q, r, true);
  }

  lemma SendSpares(k: K, p: int, msg: int, q: int, r: int)
    requires Inv(k) && q != p
    ensures Spared(k, Send(k, p, msg).0, q, r, Sized(k) && 0 <= p < NPROC && k.procs[p].prstate == PR_RECTIM)
  {
    hide Inv, Ready, Unsleep;
    InvSized(k);
    if BadPid(k, p) || k.procs[p].prhasmsg {
      return;
    }
    if k.procs[p].prstate == PR_RECV {
      SendWaiterSpares(k, p, msg, q, r);
    } else if k.procs[p].prstate == PR_RECTIM {
      SendSleeperSpares(k, p, msg, q, r);
    }
  }

  lemma CtxSpares(k: K, c: Ctx, q: int, r: int)
    requires Sized(k) && q != k.currpid
    ensures Spared(k, SetCtx(k, c), q, r, false)
  {
  }

  lemma ReceiveSpares(k: K, q: int, r: int)
    requires Inv(k) && (CanBlock(k) || k.procs[k.currpid].prhasmsg) && q != k.currpid && q != -1
    ensures Spared(k, Receive(k), q, r, false)
  {
    InvSized(k);
    if k.procs[k.currpid].prhasmsg {
      return;
    }
    hide MembersOf, StatesOf, SemsOf, ReadyOf, Delays, SameProc;
    StopCore(k, PR_RECV, Receiving);
    var t := SetState(SetCtx(k, Receiving), k.currpid, PR_RECV);
    assert Spared(k, t, q, r, false);
    hide Core, Resched, Spared;
    ReschedSpares(t, q, r);
    SparedOn(k, t, Resched(t), q, r, false);
  }

  /** Going to sleep. */
  lemma DozeSpares(k: K, d: int, st: PrState, c: Ctx, q: int, r: int)
    requires Inv(k) && CanBlock(k) && 0 <= d <= MAXKEY && q != k.currpid && q != -1
    requires (st == PR_SLEEP && c == Nothing)
             || (st == PR_RECTIM && c == TimedReceiving && !k.procs[k.currpid].prhasmsg)
    ensures Sized(k) && Spared(k, Resched(Asleep(SetCtx(k, c), d, st)), q, r, true)
    ensures Core(Asleep(SetCtx(k, c), d, st), -1, -1)
  {
    hide MembersOf, StatesOf, SemsOf, ReadyOf, Delays;
    InvSized(k);
    var p := k.currpid;
    LiftOk(k, -1, p);
    TouchOk(k, -1, p, k.procs[p], c);
    assert k.procs[p := k.procs[p]] == k.procs;
    AsleepOk(SetCtx(k, c), d, st);
    var t := Asleep(SetCtx(k, c), d, st);
    assert Spared(k, t, q, r, true);
    hide Core, Resched, Spared;
    ReschedSpares(t, q, r);
    Loosely(t, Resched(t), q, r);
    SparedOn(k, t, Resched(t), q, r, true);
  }

  lemma RecvTimeSpares(k: K, maxwait: int, q: int, r: int)
    requires Inv(k) && maxwait <= MAXKEY && (CanBlock(k) || k.procs[k.currpid].prhasmsg) && q != k.currpid && q != -1
    ensures Spared(k, RecvTime(k, maxwait), q, r, true)
  {
    InvSized(k);
    if maxwait >= 0 && !k.procs[k.currpid].prhasmsg {
      DozeSpares(k, maxwait, PR_RECTIM, TimedReceiving, q, r);
    }
  }

  lemma SleepMsSpares(k: K, delay: int, q: int, r: int)
    requires Inv(k) && CanBlock(k) && delay <= MAXKEY && k.ctx[k.currpid] == Nothing && q != k.currpid && q != -1
    ensures Spared(k, SleepMs(k, delay), q, r, true)
  {
    InvSized(k);
    if delay == 0 {
      ReschedSpares(k, q, r);
    } else if delay > 0 {
      DozeSpares(k, delay, PR_SLEEP, Nothing, q, r);
      assert SetCtx(k, Nothing).ctx == k.ctx;
    }
  }

  lemma KillBeginSpares(k: K, p: int, q: int, r: int)
    requires Inv(k) && q != k.currpid && (0 <= p < NPROC ==> q != k.procs[p].prparent)
    ensures Spared(k, KillBegin(k, p), q, r, true)
  {
    InvSized(k);
    if !BadPid(k, p) && p != NULLPROC {
      var t, parent := SetCtx(k, Killing(p)), k.procs[p].prparent;
      CtxKeeps(k, Killing(p));
      CtxSpares(k, Killing(p), q, r);
      hide Inv, Send, Spared;
      SendSpares(t, parent, p, q, r);
      if !(0 <= parent < NPROC && t.procs[parent].prstate == PR_RECTIM) {
        Loosely(t, Send(t, parent, p).0, q, r);
      }
      Loosely(k, t, q, r);
      SparedOn(k, t, Send(t, parent, p).0, q, r, true);
    }
  }

  lemma SuicideSpares(k: K, q: int, r: int)
    requires Inv(k) && k.currpid != NULLPROC && k.ndefers == 0 && q != k.currpid && q != -1
    ensures Sized(k) && Spared(k, Resched(Freed(SetCtx(k, Nothing), k.currpid)), q, r, true)
  {
    hide MembersOf, StatesOf, SemsOf, ReadyOf, Delays;
    var p := k.currpid;
    CtxKeeps(k, Nothing);
    var t := SetCtx(k, Nothing);
    StopCore(t, PR_FREE, Nothing);
    assert SetState(SetCtx(t, Nothing), p, PR_FREE) == Freed(t, p);
    assert Spared(k, Freed(t, p), q, r, true);
    hide Core, Resched, Spared, Freed;
    ReschedSpares(Freed(t, p), q, r);
    Loosely(Freed(t, p), Resched(Freed(t, p)), q, r);
    SparedOn(k, Freed(t, p), Resched(Freed(t, p)), q, r, true);
  }

  /** A change to process p, the current one's place in the code, list i and its semaphore. */
  lemma EditSpares(k: K, t: K, p: nat, i: nat, q: int, r: int)
    requires Sized(k) && Sized(t) && p < NPROC && i < NLISTS && q != p && q != k.currpid && r != i
    requires forall j :: 0 <= j < NPROC && j != p ==> t.procs[j] == k.procs[j]
    requires forall j :: 0 <= j < NPROC && j != p && j != k.currpid ==> t.ctx[j] == k.ctx[j]
    requires forall j :: 0 <= j < NLISTS && j != i ==> t.lists[j] == k.lists[j]
    requires forall j :: 0 <= j < NSEM && j != i ==> t.sems[j] == k.sems[j]
    ensures Spared(k, t, q, r, true)
  {
  }

  /** The list that p is taken off when it is killed; any other when it is on none. */
  function KilledFrom(pr: Proc): nat {
    match pr.prstate
    case PR_WAIT => if BadSem(pr.prsem) then RL else pr.prsem
    case PR_READY => RL
    case _ => SQ
  }

  lemma KillEdits(k: K, p: nat)
    requires Sized(k) && p < NPROC && k.procs[p].prstate != PR_CURR
    ensures var t, i := KillEnd(k, p), KilledFrom(k.procs[p]);
            && (forall j :: 0 <= j < NPROC && j != p ==> t.procs[j] == k.procs[j])
            && (forall j :: 0 <= j < NPROC && j != p && j != k.currpid ==> t.ctx[j] == k.ctx[j])
            && (forall j :: 0 <= j < NLISTS && j != i ==> t.lists[j] == k.lists[j])
            && (forall j :: 0 <= j < NSEM && j != i ==> t.sems[j] == k.sems[j])
  {
    hide CutAt;
  }

  lemma KillEndSpares(k: K, p: nat, q: int, r: int)
    requires Inv(k) && p < NPROC && p != NULLPROC && (p == k.currpid ==> k.ndefers == 0)
    requires q != p && q != k.currpid && q != -1 && r < NSEM
             && (k.procs[p].prstate == PR_WAIT ==> r != k.procs[p].prsem)
    ensures Spared(k, KillEnd(k, p), q, r, true)
  {
    InvSized(k);
    About(k, -1, p);
    if k.procs[p].prstate == PR_CURR {
      hide Inv, Resched;
      SuicideSpares(k, q, r);
    } else {
      hide Inv, KillEnd;
      KillEdits(k, p);
      EditSpares(k, KillEnd(k, p), p, KilledFrom(k.procs[p]), q, r);
    }
  }

  lemma WakeHeadSpares(k: K, q: int, r: int)
    requires Waking(k)
    requires |k.lists[SQ]| > 0 && k.keys[k.lists[SQ][0]] <= 0 && q != k.lists[SQ][0]
    ensures Spared(k, ReadyHead(k, SQ), q, r, true) && Able(ReadyHead(k, SQ).procs[k.lists[SQ][0]])
  {
    hide MembersOf, StatesOf, SemsOf, ReadyOf, Delays;
    var p, t := k.lists[SQ][0], SetList(k, SQ, k.lists[SQ][1..]);
    HeadFloats(k);
    About(k, -1, p);
    assert Spared(k, t, q, r, true);
    hide Core, Spared, Ready;
    ReadySpares(t, -1, p, q, r);
    Loosely(t, Ready(t, p), q, r);
    SparedOn(k, t, Ready(t, p), q, r, true);
  }

  lemma {:induction false} WakeSpares(k: K, n: nat, q: int, r: int)
    requires Waking(k) && n == Due(k.lists[SQ], k.keys) && q !in k.lists[SQ]
    ensures Spared(k, Drain(k, SQ, n), q, r, true)
    decreases n
  {
    hide Waking, Core, Sized, ReadyHead, Steady, AwakeOk, Due, Drain, Spared;
    WakingSized(k);
    if n == 0 {
      DrainNone(k);
      SparedSelf(k, q, r, true);
    } else {
      OneLessDue(k);
      WakeHead(k);
      WakeHeadSpares(k, q, r);
      DrainOne(k, n);
      var t := ReadyHead(k, SQ);
      WakeSpares(t, n - 1, q, r);
      SparedOn(k, t, Drain(t, SQ, n - 1), q, r, true);
    }
  }

  lemma WakeupSpares(k: K, q: int, r: int)
    requires Waking(k)
    requires Due(k.lists[SQ], k.keys) > 0 && q !in k.lists[SQ] && q != -1
    ensures Spared(k, Wakeup(k), q, r, true)
  {
    var t, n := DeferStart(k), Due(k.lists[SQ], k.keys);
    DeferralOk(k, -1, -1, t.ndefers, t.attempt);
    DeferStartSpares(k, q, r);
    hide Core, DeferStop, Spared;
    var u := Drain(t, SQ, n);
    WakeAll(t, n);
    WakeSpares(t, n, q, r);
    DeferStopSpares(u, q, r);
    Loosely(k, t, q, r);
    Loosely(u, DeferStop(u), q, r);
    SparedOn(k, t, u, q, r, true);
    SparedOn(k, u, DeferStop(u), q, r, true);
  }

  /** The tick itself, before anybody wakes. */
  ghost function Ticked(k: K): (r: K)
    requires Sized(k) && |k.lists[SQ]| > 0
    ensures Sized(r)
  {
    var p := k.lists[SQ][0];
    SetCtx(k, InClock).(keys := k.keys[p := k.keys[p] - 1])
  }

  lemma TickedOk(k: K)
    requires Inv(k) && k.ctx[k.currpid] == Nothing && |k.lists[SQ]| > 0
    ensures Waking(Ticked(k))
  {
    hide MembersOf, StatesOf, SemsOf, ReadyOf, Delays;
    CtxKeeps(k, InClock);
    var t := SetCtx(k, InClock);
    OnceIs(t, SQ);
    TickDelays(t.lists[SQ], t.keys);
    ReadyTick(t, t.lists[SQ]);
  }

  lemma TickedSpares(k: K, q: int, r: int)
    requires Sized(k) && |k.lists[SQ]| > 0 && q != k.currpid
    ensures Spared(k, Ticked(k), q, r, true) && Ticked(k).lists == k.lists
  {
  }

  lemma TickSpares(k: K, q: int, r: int)
    requires Inv(k) && k.ctx[k.currpid] == Nothing && q !in k.lists[SQ] && q != k.currpid && q != -1
    ensures Spared(k, Tick(k), q, r, true)
  {
    hide Inv, Core, Wakeup, Spared, Ticked, Waking;
    InvSized(k);
    if |k.lists[SQ]| == 0 {
      CtxSpares(k, InClock, q, r);
      Loosely(k, Tick(k), q, r);
      return;
    }
    var u := Ticked(k);
    TickIs(k);
    TickedSpares(k, q, r);
    TickedOk(k);
    if Due(u.lists[SQ], u.keys) > 0 {
      WakeupSpares(u, q, r);
      SparedOn(k, u, Wakeup(u), q, r, true);
    }
  }

  lemma TickIs(k: K)
    requires Sized(k) && |k.lists[SQ]| > 0
    ensures Tick(k) == if Due(Ticked(k).lists[SQ], Ticked(k).keys) > 0 then Wakeup(Ticked(k)) else Ticked(k)
  {
    hide Wakeup;
  }

  lemma SliceSpares(k: K, q: int, r: int)
    requires Inv(k) && q != k.currpid && q != -1
    ensures Spared(k, Slice(k), q, r, false)
  {
    hide MembersOf, StatesOf, SemsOf, ReadyOf, Delays;
    CtxKeeps(k, Nothing);
    var t := SetCtx(k, Nothing).(preempt := QUANTUM);
    assert Spared(k, t, q, r, false);
    if k.preempt - 1 <= 0 {
      assert Core(t, -1, -1);
      ReschedSpares(t, q, r);
      SparedOn(k, t, Resched(t), q, r, false);
    }
  }
}
