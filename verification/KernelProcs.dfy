/** The calls on processes, messages and time keep the invariant too. */
module KernelProcs {
  import opened KernelQueues
  import opened KernelSleep
  import opened KernelSpec
  import opened KernelInv
  import opened KernelCalls

  /** What the invariant says of one process. */
  lemma About(k: K, x: int, p: nat)
    requires Core(k, x, -1) && p < NPROC
    ensures k.procs[p].prstate == PR_CURR ==> p == k.currpid
    ensures MsgOk(k.procs[p], k.ctx[p])
    ensures p == NULLPROC ==> k.procs[p].prstate == PR_CURR || k.procs[p].prstate == PR_READY
    ensures k.procs[p].prstate == PR_WAIT ==> 0 <= k.procs[p].prsem < NSEM
    ensures Home(k.procs[p]) != EMPTY ==> 0 <= Home(k.procs[p]) < NLISTS && p in k.lists[Home(k.procs[p])]
  {
  }

  lemma SemIs(k: K, s: nat)
    requires Core(k, -1, -1) && s < NSEM
    ensures |k.lists[s]| == Waiting(k.sems[s]) && k.sems[s].count <= MAXCOUNT
  {
  }

  /** A change to the record of process p that neither moves it nor ends its wait. */
  lemma RecordKeeps(k: K, p: nat, pr: Proc, c: Ctx)
    requires Inv(k) && p < NPROC && MsgOk(pr, c)
    requires pr.prstate == k.procs[p].prstate && pr.prsem == k.procs[p].prsem && pr.prprio == k.procs[p].prprio
    ensures Inv(k.(procs := k.procs[p := pr], ctx := k.ctx[p := c]))
  {
    var t := k.(procs := k.procs[p := pr], ctx := k.ctx[p := c]);
    assert forall q :: 0 <= q < NPROC ==> Home(t.procs[q]) == Home(k.procs[q]);
  }

  lemma CtxKeeps(k: K, c: Ctx)
    requires Inv(k) && c != Receiving && (c.Killing? ==> 0 < c.pid < NPROC)
    ensures Sized(k) && Inv(SetCtx(k, c))
  {
    var p := k.currpid;
    RecordKeeps(k, p, k.procs[p], c);
    assert k.procs[p := k.procs[p]] == k.procs;
  }

  /** A process that is on no list takes another state that is on none. */
  lemma StateKeeps(k: K, p: nat, pr: Proc)
    requires Inv(k) && p < NPROC && p != NULLPROC && p != k.currpid && Home(k.procs[p]) == EMPTY
    requires pr.prstate in {PR_FREE, PR_SUSP} && MsgOk(pr, Nothing)
    ensures Inv(k.(procs := k.procs[p := pr], ctx := k.ctx[p := Nothing]))
  {
    LiftOk(k, -1, p);
    TouchOk(k, -1, p, pr, Nothing);
    LandOk(k.(procs := k.procs[p := pr], ctx := k.ctx[p := Nothing]), -1, p);
  }

  lemma PidsKeep(k: K, n: nat)
    requires Inv(k) && n <= NPROC
    ensures Inv(k.(nextpid := n))
  {
  }

  lemma CreateKeeps(k: K, prio: pri16, gotstack: bool)
    requires Inv(k)
    ensures Inv(Create(k, prio, gotstack).0)
  {
    InvSized(k);
    if prio < 1 {
      return;
    }
    var (t, p) := NewPid(k);
    PidsKeep(k, t.nextpid);
    assert t == k.(nextpid := t.nextpid);
    if p != SYSERR && gotstack {
      StateKeeps(t, p, Proc(PR_SUSP, prio, -1, t.currpid, t.procs[p].prmsg, false));
    }
  }

  lemma ResumeKeeps(k: K, p: int)
    requires Inv(k)
    ensures Inv(Resume(k, p).0)
  {
    InvSized(k);
    if BadPid(k, p) || k.procs[p].prstate != PR_SUSP {
      return;
    }
    LiftOk(k, -1, p);
    ReadyKeeps(k, -1, p);
  }

  /** Process p leaves the ready list, or the queue of semaphore s while the count of s
      goes up, for state pr. */
  lemma LeaveKeeps(k: K, p: nat, pr: Proc, c: Ctx)
    requires Inv(k) && p < NPROC && p != NULLPROC && k.procs[p].prstate == PR_READY
    requires pr.prstate in {PR_FREE, PR_SUSP} && MsgOk(pr, c)
    ensures var t := Unlink(k, p, RL); Inv(t.(procs := t.procs[p := pr], ctx := t.ctx[p := c]))
  {
    var t := Unlink(k, p, RL);
    UnlinkOk(k, -1, p, RL);
    TouchOk(t, -1, p, pr, c);
    var u := t.(procs := t.procs[p := pr], ctx := t.ctx[p := c]);
    LandOk(u, -1, p);
    hide Core;
    assert k.procs[k.currpid].prstate == PR_CURR;
  }

  lemma SuspendKeeps(k: K, p: int)
    requires Inv(k) && (p == k.currpid ==> k.ndefers == 0)
    ensures Inv(Suspend(k, p).0)
  {
    hide MembersOf, StatesOf, SemsOf, ReadyOf, Delays;
    InvSized(k);
    if BadPid(k, p) || p == NULLPROC {
      return;
    }
    About(k, -1, p);
    if k.procs[p].prstate == PR_READY {
      LeaveKeeps(k, p, k.procs[p].(prstate := PR_SUSP), k.ctx[p]);
      assert k.ctx[p := k.ctx[p]] == k.ctx;
    } else if k.procs[p].prstate == PR_CURR {
      BlockKeeps(k, PR_SUSP, k.ctx[p]);
      assert k.ctx[p := k.ctx[p]] == k.ctx;
    }
  }

  // ---- the sleep queue ----

  lemma OnceIs(k: K, i: nat)
    requires Sized(k) && Members(k, -1) && i < NLISTS
    ensures Once(k.lists[i])
  {
  }

  lemma StatesLift(k: K, p: nat)
    requires Sized(k) && StatesOk(k, -1)
    ensures StatesOk(k, p)
  {
  }

  lemma ListElsewhere(k: K, i: nat, l: seq<nat>, x: int)
    requires Sized(k) && SemsOk(k, x) && NSEM <= i < NLISTS
    ensures SemsOf(k.sems, k.lists[i := l], x)
  {
  }

  /** unsleep: everybody else has as much left as before. */
  lemma UnsleepOk(k: K, x: int, p: nat)
    requires Core(k, x, -1) && AwakeOk(k) && p < NPROC && Home(k.procs[p]) == SQ
    ensures var t := Unsleep(k, p).0;
            && Core(t, x, p) && AwakeOk(t) && t.procs == k.procs
            && t.currpid == k.currpid && t.ndefers == k.ndefers && t.attempt == k.attempt && t.ctx == k.ctx
  {
    hide MembersOf, StatesOf, SemsOf, ReadyOf, Delays, CutAt, Relayed;
    var l := k.lists[SQ];
    About(k, x, p);
    OnceIs(k, SQ);
    var a := IndexOf(l, p);
    CutMembersOk(k, p, SQ, a);
    CutDelays(l, k.keys, a);
    UnsleepIs(k, p);
    StatesLift(k, p);
    ListElsewhere(k, SQ, CutAt(l, a), x);
    ReadyElsewhere(k, Relayed(l, k.keys, a), l, a);
  }

  lemma UnsleepIs(k: K, p: nat)
    requires Sized(k) && p < NPROC && Home(k.procs[p]) == SQ && p in k.lists[SQ] && k.procs[p].prstate != PR_WAIT
    ensures var a := IndexOf(k.lists[SQ], p);
            Unsleep(k, p).0 == SetList(k, SQ, CutAt(k.lists[SQ], a)).(keys := Relayed(k.lists[SQ], k.keys, a))
  {
    hide CutAt;
  }

  /** Changing the key of a sleeper does not matter to the ready list. */
  lemma ReadyElsewhere(k: K, keys: seq<int>, l: seq<nat>, a: nat)
    requires Sized(k) && Members(k, -1) && ReadyOk(k) && l == k.lists[SQ] && a < |l|
    requires keys == Relayed(l, k.keys, a)
    ensures ReadyOf(k.procs, k.lists[RL], keys)
  {
    assert forall b :: 0 <= b < |l| ==> l[b] in l;
    assert forall b :: 0 <= b < |k.lists[RL]| ==> k.lists[RL][b] in k.lists[RL];
  }

  /** The record of a process that was sent a message. */
  predicate Delivered(a: Proc, b: Proc) {
    b == a.(prmsg := b.prmsg, prhasmsg := true)
  }

  /** A receiver with its message, before it is readied. */
  lemma SentWaiter(k: K, p: nat, pr: Proc)
    requires Inv(k) && p < NPROC && k.procs[p].prstate == PR_RECV && Delivered(k.procs[p], pr)
    ensures Sized(k.(procs := k.procs[p := pr])) && Core(k.(procs := k.procs[p := pr]), -1, p)
  {
    hide MembersOf, StatesOf, SemsOf, ReadyOf, Delays;
    LiftOk(k, -1, p);
    TouchOk(k, -1, p, pr, k.ctx[p]);
    assert k.ctx[p := k.ctx[p]] == k.ctx;
    assert k.(procs := k.procs[p := pr]) == k.(procs := k.procs[p := pr], ctx := k.ctx[p := k.ctx[p]]);
  }

  /** The same where the wait had a limit. */
  lemma SentSleeper(k: K, p: nat, pr: Proc)
    requires Inv(k) && p < NPROC && k.procs[p].prstate == PR_RECTIM && Delivered(k.procs[p], pr)
    ensures Sized(k.(procs := k.procs[p := pr]))
    ensures Core(Unsleep(k.(procs := k.procs[p := pr]), p).0, -1, p)
    ensures AwakeOk(Unsleep(k.(procs := k.procs[p := pr]), p).0)
    ensures var v := Unsleep(k.(procs := k.procs[p := pr]), p).0;
            && v.procs == k.procs[p := pr] && v.ctx == k.ctx && v.currpid == k.currpid && v.sems == k.sems
            && v.lists == k.lists[SQ := v.lists[SQ]] && v.ndefers == k.ndefers
    ensures p != k.currpid && p in k.lists[SQ]
  {
    hide MembersOf, StatesOf, SemsOf, ReadyOf, Delays;
    About(k, -1, p);
    UnsleepOk(k, -1, p);
    var u := Unsleep(k, p).0;
    hide CutAt;
    var v := Unsleep(k.(procs := k.procs[p := pr]), p).0;
    assert v == u.(procs := u.procs[p := pr]);
    TouchOk(u, -1, p, pr, u.ctx[p]);
    assert u.ctx[p := u.ctx[p]] == u.ctx;
    assert v == u.(procs := u.procs[p := pr], ctx := u.ctx[p := u.ctx[p]]);
  }

  lemma SendKeeps(k: K, p: int, msg: int)
    requires Inv(k)
    ensures Inv(Send(k, p, msg).0)
  {
    hide MembersOf, StatesOf, SemsOf, ReadyOf, Delays;
    InvSized(k);
    if BadPid(k, p) || k.procs[p].prhasmsg {
      return;
    }
    var pr := k.procs[p].(prmsg := msg, prhasmsg := true);
    var t := k.(procs := k.procs[p := pr]);
    About(k, -1, p);
    if pr.prstate == PR_RECV {
      SentWaiter(k, p, pr);
      hide Core;
      ReadyKeeps(t, -1, p);
    } else if pr.prstate == PR_RECTIM {
      SentSleeper(k, p, pr);
      hide Core;
      ReadyKeeps(Unsleep(t, p).0, -1, p);
    } else {
      RecordKeeps(k, p, pr, k.ctx[p]);
      assert k.ctx[p := k.ctx[p]] == k.ctx;
    }
  }

  // ---- receiving ----

  lemma TakeKeeps(k: K)
    requires Inv(k)
    ensures Inv(Take(k))
  {
    InvSized(k);
    RecordKeeps(k, k.currpid, k.procs[k.currpid].(prhasmsg := false), Nothing);
  }

  /** receive always returns with a message: a process is in the middle of it without one
      only while it waits. */
  lemma ReceiveKeeps(k: K)
    requires Inv(k) && (CanBlock(k) || k.procs[k.currpid].prhasmsg)
    ensures Inv(Receive(k))
  {
    hide MembersOf, StatesOf, SemsOf, ReadyOf, Delays;
    InvSized(k);
    if k.procs[k.currpid].prhasmsg {
      TakeKeeps(k);
    } else {
      BlockKeeps(k, PR_RECV, Receiving);
    }
  }

  lemma ReceiveReturns(k: K)
    requires Inv(k) && k.ctx[k.currpid] == Receiving
    ensures k.procs[k.currpid].prhasmsg
  {
  }

  lemma AsleepOk(k: K, d: int, st: PrState)
    requires Core(k, -1, k.currpid) && AwakeOk(k) && k.currpid != NULLPROC && 0 <= d <= MAXKEY
    requires st == PR_SLEEP || st == PR_RECTIM
    requires MsgOk(k.procs[k.currpid].(prstate := st), k.ctx[k.currpid])
    ensures Core(Asleep(k, d, st), -1, -1) && AwakeOk(Asleep(k, d, st))
  {
    hide MembersOf, ReadyOf, Delays, PutAt, DPlace, DKeys;
    Floating(k);
    AsleepMembers(k, d, st);
    PutDelays(k.lists[SQ], k.keys, k.currpid, d);
    ReadyApart(k, Asleep(k, d, st), k.lists[SQ], k.currpid, d);
    AsleepAwake(k, d, st);
  }

  lemma AsleepAwake(k: K, d: int, st: PrState)
    requires Core(k, -1, k.currpid) && AwakeOk(k) && 0 <= d <= MAXKEY
    ensures AwakeOk(Asleep(k, d, st))
  {
    hide MembersOf, StatesOf, SemsOf, ReadyOf;
    Floating(k);
    PutDelays(k.lists[SQ], k.keys, k.currpid, d);
  }

  lemma Floating(k: K)
    requires Core(k, -1, k.currpid)
    ensures k.currpid !in k.lists[SQ] && k.currpid !in k.lists[RL] && Once(k.lists[SQ])
  {
  }

  lemma AsleepMembers(k: K, d: int, st: PrState)
    requires Core(k, -1, k.currpid) && (st == PR_SLEEP || st == PR_RECTIM)
    ensures Members(Asleep(k, d, st), -1)
  {
    hide StatesOf, SemsOf, ReadyOf, Delays, PutAt, DPlace;
    TouchMembers(k, k.currpid, k.procs[k.currpid].(prstate := st), k.ctx[k.currpid]);
    PutMembersOk(SetState(k, k.currpid, st), k.currpid, SQ, DPlace(k.lists[SQ], k.keys, 0, d).0);
  }

  lemma ReadyApart(k: K, t: K, l: seq<nat>, p: nat, d: int)
    requires Sized(k) && Sized(t) && Members(k, p) && ReadyOk(k) && l == k.lists[SQ] && p < NPROC
    requires t.lists[RL] == k.lists[RL] && t.keys == DKeys(l, k.keys, p, d)
    requires forall q :: 0 <= q < NPROC ==> t.procs[q].prprio == k.procs[q].prprio
    ensures ReadyOk(t)
  {
    assert p !in k.lists[RL];
    assert forall b :: 0 <= b < |l| ==> l[b] in l;
    assert forall b :: 0 <= b < |k.lists[RL]| ==> k.lists[RL][b] in k.lists[RL];
  }

  /** The current process goes to sleep. */
  lemma SleepKeeps(k: K, d: int, st: PrState, c: Ctx)
    requires Inv(k) && CanBlock(k) && 0 <= d <= MAXKEY
    requires (st == PR_SLEEP && c == Nothing)
             || (st == PR_RECTIM && c == TimedReceiving && !k.procs[k.currpid].prhasmsg)
    ensures Inv(Resched(Asleep(SetCtx(k, c), d, st)))
  {
    InvSized(k);
    var p := k.currpid;
    LiftOk(k, -1, p);
    TouchOk(k, -1, p, k.procs[p], c);
    assert k.procs[p := k.procs[p]] == k.procs;
    AsleepOk(SetCtx(k, c), d, st);
    hide Core, AwakeOk;
    ReschedKeeps(Asleep(SetCtx(k, c), d, st), -1);
  }

  lemma RecvTimeKeeps(k: K, maxwait: int)
    requires Inv(k) && maxwait <= MAXKEY && (CanBlock(k) || k.procs[k.currpid].prhasmsg)
    ensures Inv(RecvTime(k, maxwait))
  {
    hide MembersOf, StatesOf, SemsOf, ReadyOf, Delays;
    InvSized(k);
    if k.procs[k.currpid].prhasmsg {
      TakeKeeps(k);
    } else if maxwait >= 0 {
      SleepKeeps(k, maxwait, PR_RECTIM, TimedReceiving);
    }
  }

  lemma SleepMsKeeps(k: K, delay: int)
    requires Inv(k) && CanBlock(k) && delay <= MAXKEY && k.ctx[k.currpid] == Nothing
    ensures Inv(SleepMs(k, delay))
  {
    hide MembersOf, StatesOf, SemsOf, ReadyOf, Delays;
    InvSized(k);
    if delay == 0 {
      ReschedKeeps(k, -1);
    } else if delay > 0 {
      SleepKeeps(k, delay, PR_SLEEP, Nothing);
      assert SetCtx(k, Nothing).ctx == k.ctx;
    }
  }

  // ---- kill ----

  lemma KillBeginKeeps(k: K, p: int)
    requires Inv(k)
    ensures Inv(KillBegin(k, p))
  {
    hide MembersOf, StatesOf, SemsOf, ReadyOf, Delays;
    InvSized(k);
    if !BadPid(k, p) && p != NULLPROC {
      CtxKeeps(k, Killing(p));
      SendKeeps(SetCtx(k, Killing(p)), k.procs[p].prparent, p);
    }
  }

  lemma FreeOk(k: K, x: int, p: nat)
    requires Core(k, x, p) && p < NPROC && p != NULLPROC
    ensures Core(Freed(k, p), x, -1)
  {
    TouchOk(k, x, p, k.procs[p].(prstate := PR_FREE), Nothing);
    LandOk(Freed(k, p), x, p);
  }

  lemma KillWaiting(k: K, p: nat, s: nat)
    requires Inv(k) && p < NPROC && k.procs[p].prstate == PR_WAIT && s == k.procs[p].prsem && s < NSEM
    ensures Inv(Freed(Unlink(SetCount(k, s, k.sems[s].count + 1), p, s), p)) && k.sems[s].count < 0
  {
    hide MembersOf, StatesOf, SemsOf, ReadyOf, Delays;
    InvSized(k);
    About(k, -1, p);
    SemIs(k, s);
    var n := k.sems[s].count + 1;
    ExceptOk(k, s);
    SemChanged(k, s, Sem(true, n), k.nextsem);
    var t := SetCount(k, s, n);
    assert t == k.(sems := k.sems[s := Sem(true, n)], nextsem := k.nextsem);
    UnlinkOk(t, s, p, s);
    assert p != NULLPROC;
    var u := Unlink(t, p, s);
    hide Core;
    FreeOk(u, s, p);
    CoreSettled(Freed(u, p), s);
  }

  /** kill is right whatever happened to its victim while it told the parent. */
  lemma KillEndKeeps(k: K, p: nat)
    requires Inv(k) && p < NPROC && p != NULLPROC && (p == k.currpid ==> k.ndefers == 0)
    ensures Inv(KillEnd(k, p))
  {
    hide MembersOf, StatesOf, SemsOf, ReadyOf, Delays;
    InvSized(k);
    CtxKeeps(k, Nothing);
    var t := SetCtx(k, Nothing);
    About(k, -1, p);
    var pr := k.procs[p].(prstate := PR_FREE);
    match k.procs[p].prstate {
      case PR_CURR =>
        BlockKeeps(t, PR_FREE, Nothing);
        assert SetCtx(t, Nothing).ctx == t.ctx;
      case PR_SLEEP => KillSleeping(t, p);
      case PR_RECTIM => KillSleeping(t, p);
      case PR_WAIT => KillWaiting(t, p, k.procs[p].prsem);
      case PR_READY => LeaveKeeps(t, p, pr, Nothing);
      case _ => StateKeeps(t, p, pr);
    }
  }

  lemma KillSleeping(k: K, p: nat)
    requires Inv(k) && p < NPROC && Home(k.procs[p]) == SQ && k.procs[p].prstate in {PR_SLEEP, PR_RECTIM}
    ensures Inv(Freed(Unsleep(k, p).0, p))
  {
    hide MembersOf, StatesOf, SemsOf, ReadyOf, Delays;
    InvSized(k);
    About(k, -1, p);
    UnsleepOk(k, -1, p);
    assert k.procs[k.currpid].prstate == PR_CURR && p != NULLPROC;
    hide Core, AwakeOk, Unsleep;
    FreeOk(Unsleep(k, p).0, -1, p);
  }

  // ---- the clock ----

  lemma HeadFloats(k: K)
    requires Core(k, -1, -1) && |k.lists[SQ]| > 0 && k.keys[k.lists[SQ][0]] <= 0
    ensures k.lists[SQ][0] < NPROC && Home(k.procs[k.lists[SQ][0]]) == SQ
    ensures Core(SetList(k, SQ, k.lists[SQ][1..]), -1, k.lists[SQ][0]) && AwakeOk(SetList(k, SQ, k.lists[SQ][1..]))
  {
    hide MembersOf, StatesOf, SemsOf, ReadyOf, Delays;
    var p, l := k.lists[SQ][0], k.lists[SQ];
    HeadIs(k, SQ);
    CutMembersOk(k, p, SQ, 0);
    assert CutAt(l, 0) == l[1..];
    PopDelays(l, k.keys);
    StatesLift(k, p);
    ListElsewhere(k, SQ, l[1..], -1);
  }

  /** The first sleeper, whose time is up, is readied. */
  lemma WakeHead(k: K)
    requires Waking(k)
    requires |k.lists[SQ]| > 0 && k.keys[k.lists[SQ][0]] <= 0
    ensures var t := ReadyHead(k, SQ);
            && Waking(t) && AwakeOk(t)
            && t.ndefers == k.ndefers && t.lists[SQ] == k.lists[SQ][1..]
    ensures Steady(SetList(k, SQ, k.lists[SQ][1..]), ReadyHead(k, SQ), k.lists[SQ][0])
  {
    hide MembersOf, StatesOf, SemsOf, ReadyOf, Delays;
    var p, l := k.lists[SQ][0], k.lists[SQ];
    HeadFloats(k);
    About(k, -1, p);
    hide Core;
    ReadyKeeps(SetList(k, SQ, l[1..]), -1, p);
  }

  lemma PopDue(l: seq<nat>, keys: seq<int>, m: seq<nat>, keys': seq<int>)
    requires forall j :: 0 <= j < |l| ==> l[j] < |keys|
    requires |l| > 0 && m == l[1..] && |keys'| == |keys| && forall j :: 0 <= j < |m| ==> keys'[m[j]] == keys[m[j]]
    ensures Due(m, keys') == Due(m, keys)
    decreases |l|
  {
    if |m| > 0 {
      assert m[1..] == l[1..][1..];
      PopDue(m, keys, m[1..], keys');
    }
  }

  /** Readying the head leaves the other sleepers their keys. */
  lemma WakeKeys(k: K)
    requires Core(k, -1, -1) && |k.lists[SQ]| > 0
    requires Steady(SetList(k, SQ, k.lists[SQ][1..]), ReadyHead(k, SQ), k.lists[SQ][0])
    ensures var m := k.lists[SQ][1..];
            forall j :: 0 <= j < |m| ==> ReadyHead(k, SQ).keys[m[j]] == k.keys[m[j]]
  {
    hide ReadyHead;
    var l := k.lists[SQ];
    forall j | 0 <= j < |l[1..]|
      ensures ReadyHead(k, SQ).keys[l[1..][j]] == k.keys[l[1..][j]]
    {
      assert l[j + 1] in l && l[j + 1] != l[0];
    }
  }

  lemma WakingSized(k: K)
    requires Waking(k)
    ensures Core(k, -1, -1) && Sized(k)
  {
  }

  /** One sleeper less whose time is up. */
  lemma OneLessDue(k: K)
    requires Waking(k) && Due(k.lists[SQ], k.keys) > 0
    ensures Sized(k) && |k.lists[SQ]| > 0 && k.keys[k.lists[SQ][0]] <= 0
    ensures Due(ReadyHead(k, SQ).lists[SQ], ReadyHead(k, SQ).keys) == Due(k.lists[SQ], k.keys) - 1
  {
    var t := ReadyHead(k, SQ);
    WakeHead(k);
    WakeKeys(k);
    hide Core, PrioOk, ReadyHead, Steady;
    PopDue(k.lists[SQ], k.keys, t.lists[SQ], t.keys);
  }

  lemma DrainNone(k: K)
    requires Sized(k)
    ensures Drain(k, SQ, 0) == k
  {
  }

  lemma DrainOne(k: K, n: nat)
    requires Sized(k) && n > 0
    ensures Drain(k, SQ, n) == Drain(ReadyHead(k, SQ), SQ, n - 1)
  {
  }

  /** wakeup, under deferral: the loop ends with no sleeper whose time is up. */
  lemma {:induction false} WakeAll(k: K, n: nat)
    requires Waking(k) && n == Due(k.lists[SQ], k.keys)
    ensures var t := Drain(k, SQ, n); Waking(t) && t.ndefers == k.ndefers && (n > 0 || AwakeOk(k) ==> AwakeOk(t))
    decreases n
  {
    hide Waking, Core, Sized, ReadyHead, Steady, AwakeOk, Due, Drain;
    WakingSized(k);
    if n == 0 {
      DrainNone(k);
    } else {
      OneLessDue(k);
      WakeHead(k);
      DrainOne(k, n);
      WakeAll(ReadyHead(k, SQ), n - 1);
    }
  }

  lemma WakeupKeeps(k: K)
    requires Waking(k)
    requires Due(k.lists[SQ], k.keys) > 0
    ensures Inv(Wakeup(k))
  {
    var t, n := DeferStart(k), Due(k.lists[SQ], k.keys);
    DeferralOk(k, -1, -1, t.ndefers, t.attempt);
    hide Core;
    WakeAll(t, n);
    DeferStopKeeps(Drain(t, SQ, n));
  }

  lemma TickKeeps(k: K)
    requires Inv(k) && k.ctx[k.currpid] == Nothing
    ensures Inv(Tick(k))
  {
    hide MembersOf, StatesOf, SemsOf, ReadyOf, Delays;
    CtxKeeps(k, InClock);
    var t := SetCtx(k, InClock);
    var l := t.lists[SQ];
    if |l| > 0 {
      var u := t.(keys := t.keys[l[0] := t.keys[l[0]] - 1]);
      OnceIs(t, SQ);
      TickDelays(l, t.keys);
      ReadyTick(t, l);
      assert Core(u, -1, -1);
      if u.keys[l[0]] <= 0 {
        WakeupKeeps(u);
      }
    }
  }

  lemma ReadyTick(k: K, l: seq<nat>)
    requires Sized(k) && Members(k, -1) && ReadyOk(k) && l == k.lists[SQ] && |l| > 0
    ensures ReadyOf(k.procs, k.lists[RL], k.keys[l[0] := k.keys[l[0]] - 1])
  {
    assert l[0] in l;
    assert forall b :: 0 <= b < |k.lists[RL]| ==> k.lists[RL][b] in k.lists[RL];
  }

  lemma SliceKeeps(k: K)
    requires Inv(k)
    ensures Inv(Slice(k))
  {
    hide MembersOf, StatesOf, SemsOf, ReadyOf, Delays;
    CtxKeeps(k, Nothing);
    var t := SetCtx(k, Nothing);
    if t.preempt - 1 <= 0 {
      ReschedKeeps(t.(preempt := QUANTUM), -1);
    }
  }

  lemma StopCore(k: K, st: PrState, c: Ctx)
    requires Core(k, -1, -1) && k.procs[k.currpid].prstate == PR_CURR && k.currpid != NULLPROC
    requires st in {PR_FREE, PR_RECV, PR_SUSP} && MsgOk(k.procs[k.currpid].(prstate := st), c)
    ensures Core(SetState(SetCtx(k, c), k.currpid, st), -1, -1)
  {
    var p := k.currpid;
    var t := SetState(SetCtx(k, c), p, st);
    LiftOk(k, -1, p);
    TouchOk(k, -1, p, k.procs[p].(prstate := st), c);
    assert t == k.(procs := k.procs[p := k.procs[p].(prstate := st)], ctx := k.ctx[p := c]);
    LandOk(t, -1, p);
  }
}
