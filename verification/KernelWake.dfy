/** Sleeping: a process that asks to sleep for d ticks is woken by the d-th tick after that
    finds nobody whose time is up already. */
module KernelWake {
  import opened KernelQueues
  import opened KernelSleep
  import opened KernelSpec
  import opened KernelInv
  import opened KernelCalls
  import opened KernelProcs
  import opened KernelFrame
  import opened KernelRuns

  /** Nobody on the queue has a delay of no ticks, which only recvtime(0) brings about. */
  ghost predicate Prompt(k: K) {
    Sized(k) && (|k.lists[SQ]| > 0 ==> k.keys[k.lists[SQ][0]] >= 1)
  }

  ghost predicate Sleeps(k: K, q: nat) {
    Sized(k) && q in k.lists[SQ]
  }

  /** The ticks that sleeper q has left. */
  ghost function TicksLeft(k: K, q: nat): int
    requires Sleeps(k, q)
  {
    Left(k.lists[SQ], k.keys, IndexOf(k.lists[SQ], q))
  }

  /** The sleep queue as the invariant has it. */
  lemma Sleepers0(k: K)
    requires Core(k, -1, -1)
    ensures Sized(k) && Once(k.lists[SQ]) && Delays(k.lists[SQ], k.keys)
  {
  }

  lemma IndexIs(l: seq<nat>, j: nat)
    requires Once(l) && j < |l|
    ensures l[j] in l && IndexOf(l, l[j]) == j
  {
    assert l[j] in l;
    assert l[IndexOf(l, l[j])] == l[j];
  }

  lemma SameLeft(k: K, t: K, q: nat)
    requires Sized(t) && Sleeps(k, q) && SameSleepers(k.lists[SQ], k.keys, t.lists[SQ], t.keys)
    ensures Sleeps(t, q) && TicksLeft(t, q) == TicksLeft(k, q) && (Prompt(k) ==> Prompt(t))
  {
    var l := k.lists[SQ];
    LeftSame(l, k.keys, l, t.keys, IndexOf(l, q));
  }

  /** Where q is in the list after process c went to sleep. */
  lemma DozePlace(l: seq<nat>, keys: seq<int>, c: nat, d: int, q: nat)
    requires Keyed(l, keys) && c !in l && (q == c || q in l)
    ensures var m, a := Sleepers(l, keys, c, d), DPlace(l, keys, 0, d).0;
            var i := if q == c then a else if IndexOf(l, q) < a then IndexOf(l, q) else IndexOf(l, q) + 1;
            a <= |l| && m == PutAt(l, a, c) && i < |m| == |l| + 1 && m[i] == q
  {
    hide DKeys;
  }

  /** The list after process c went to sleep. */
  lemma DozeLeft(l: seq<nat>, keys: seq<int>, c: nat, d: int, q: nat)
    requires Keyed(l, keys) && Once(l) && Delays(l, keys) && (|l| > 0 ==> keys[l[0]] >= 0)
    requires c !in l && c < NPROC && 0 <= d <= MAXKEY && (q == c || q in l)
    ensures var m, keys' := Sleepers(l, keys, c, d), DKeys(l, keys, c, d);
            && Keyed(m, keys') && q in m && (d > 0 && (|l| > 0 ==> keys[l[0]] > 0) ==> keys'[m[0]] > 0)
            && Left(m, keys', IndexOf(m, q)) == if q == c then d else Left(l, keys, IndexOf(l, q))
  {
    hide DPlace, DKeys, Sleepers, IndexOf, Left, PutAt;
    var m, keys' := Sleepers(l, keys, c, d), DKeys(l, keys, c, d);
    var a := DPlace(l, keys, 0, d).0;
    var i := if q == c then a else if IndexOf(l, q) < a then IndexOf(l, q) else IndexOf(l, q) + 1;
    PutMembers(l, a, c);
    PlaceFacts(l, keys, 0, d, d);
    PutKeys(l, keys, c, d, 0);
    DozePlace(l, keys, c, d, q);
    PutLeft(l, keys, c, d, i);
    IndexIs(m, i);
  }

  /** Going to sleep. */
  lemma AsleepLeft(k: K, d: int, st: PrState, q: nat)
    requires Sized(k) && Once(k.lists[SQ]) && Delays(k.lists[SQ], k.keys) && AwakeOk(k)
    requires k.currpid !in k.lists[SQ] && 0 <= d <= MAXKEY && (q == k.currpid || Sleeps(k, q))
    ensures Sleeps(Asleep(k, d, st), q) && (d > 0 && Prompt(k) ==> Prompt(Asleep(k, d, st)))
    ensures TicksLeft(Asleep(k, d, st), q) == if q == k.currpid then d else TicksLeft(k, q)
  {
    DozeLeft(k.lists[SQ], k.keys, k.currpid, d, q);
    hide DKeys, DPlace, Left;
  }

  /** The list after its a-th process left. */
  lemma GoneLeft(l: seq<nat>, keys: seq<int>, a: nat, q: nat)
    requires Keyed(l, keys) && Once(l) && a < |l| && q in l && q != l[a]
    ensures Keyed(CutAt(l, a), Relayed(l, keys, a)) && q in CutAt(l, a)
    ensures Left(CutAt(l, a), Relayed(l, keys, a), IndexOf(CutAt(l, a), q)) == Left(l, keys, IndexOf(l, q))
  {
    CutMembers(l, a);
    var j := IndexOf(l, q);
    var i := if j < a then j else j - 1;
    CutLeft(l, keys, a, i);
    assert CutAt(l, a)[i] == q;
    hide CutAt, Relayed, Left;
    IndexIs(CutAt(l, a), i);
  }

  lemma GonePrompt(l: seq<nat>, keys: seq<int>, a: nat)
    requires Keyed(l, keys) && Once(l) && Delays(l, keys) && a < |l| && keys[l[0]] >= 1
    ensures Keyed(CutAt(l, a), Relayed(l, keys, a))
    ensures |l| > 1 ==> Relayed(l, keys, a)[CutAt(l, a)[0]] >= 1
  {
    assert forall b :: 0 <= b < |l| && b != a + 1 && a + 1 < |l| ==> l[b] != l[a + 1];
  }

  /** Others who are taken off the queue early. */
  lemma UnsleepLeft(k: K, p: nat, q: nat)
    requires Sized(k) && Once(k.lists[SQ]) && Delays(k.lists[SQ], k.keys)
    requires p < NPROC && k.procs[p].prstate in {PR_SLEEP, PR_RECTIM} && p in k.lists[SQ]
    ensures Prompt(k) ==> Prompt(Unsleep(k, p).0)
    ensures Sleeps(k, q) && q != p ==> Sleeps(Unsleep(k, p).0, q) && TicksLeft(Unsleep(k, p).0, q) == TicksLeft(k, q)
  {
    var l, t := k.lists[SQ], Unsleep(k, p).0;
    var a := IndexOf(l, p);
    UnsleepIs(k, p);
    assert t.lists[SQ] == CutAt(l, a) && t.keys == Relayed(l, k.keys, a);
    hide Unsleep, CutAt, Relayed, Left, Delays, Once;
    if Prompt(k) {
      GonePrompt(l, k.keys, a);
    }
    if Sleeps(k, q) && q != p {
      GoneLeft(l, k.keys, a, q);
    }
  }

  /** The step takes q off the sleep queue before its time: a message for it when it waits
      for one, or its death. */
  ghost predicate Disturbs(k: K, e: Step, q: nat)
    requires Enabled(k, e) && q < NPROC
  {
    || (e.DoSend? && e.p == q && k.procs[q].prstate == PR_RECTIM)
    || (e.DoKill? && 0 <= e.p < NPROC && k.procs[e.p].prparent == q && k.procs[q].prstate == PR_RECTIM)
    || (e.EndKill? && e.p == q)
  }

  /** q is still asleep with the same time left. */
  ghost predicate AsBefore(k: K, t: K, q: nat)
    requires Sleeps(k, q)
  {
    Sleeps(t, q) && TicksLeft(t, q) == TicksLeft(k, q)
  }

  /** Besides, the step brought about no delay of no ticks. */
  ghost predicate StillSleeps(k: K, t: K, q: nat)
    requires Sleeps(k, q)
  {
    AsBefore(k, t, q) && (Prompt(k) ==> Prompt(t))
  }

  lemma StillOn(k: K, t: K, u: K, q: nat)
    requires Sleeps(k, q) && StillSleeps(k, t, q) && Sized(u)
    requires SameSleepers(t.lists[SQ], t.keys, u.lists[SQ], u.keys)
    ensures StillSleeps(k, u, q)
  {
    SameLeft(t, u, q);
  }

  lemma SendSleeps(k: K, p: int, msg: int, q: nat)
    requires Inv(k) && Sleeps(k, q) && q < NPROC && !(p == q && k.procs[q].prstate == PR_RECTIM)
    ensures StillSleeps(k, Send(k, p, msg).0, q)
  {
    if 0 <= p < NPROC && k.procs[p].prstate == PR_RECTIM && !k.procs[p].prhasmsg {
      TimedSleeps(k, p, msg, q);
    } else {
      SendSpares(k, p, msg, Neither(p), -1);
      hide Send, Inv;
      SameLeft(k, Send(k, p, msg).0, q);
    }
  }

  lemma TimedIs(k: K, p: nat)
    requires Inv(k) && p < NPROC && k.procs[p].prstate == PR_RECTIM
    ensures Sized(k) && Core(k, -1, -1) && k.procs[k.currpid].prstate == PR_CURR && p != k.currpid
    ensures Once(k.lists[SQ]) && Delays(k.lists[SQ], k.keys) && p in k.lists[SQ]
    ensures forall pr: Proc :: MsgOk(pr.(prstate := PR_READY), k.ctx[p])
  {
    hide Delays;
    About(k, -1, p);
  }

  /** Nobody else's time changes. */
  lemma SentStill(k: K, t: K, u: K, q: nat)
    requires Sized(t) && Sleeps(k, q) && t.lists == k.lists && t.keys == k.keys
    requires Sleeps(u, q) && TicksLeft(u, q) == TicksLeft(t, q) && (Prompt(t) ==> Prompt(u))
    ensures StillSleeps(k, u, q)
  {
  }

  /** The message goes to a process that waits for it on the sleep queue. */
  lemma TimedSleeps(k: K, p: nat, msg: int, q: nat)
    requires Inv(k) && Sleeps(k, q) && q < NPROC && p < NPROC && p != q
    requires k.procs[p].prstate == PR_RECTIM && !k.procs[p].prhasmsg
    ensures StillSleeps(k, Send(k, p, msg).0, q)
  {
    hide Inv, Core, Ready, Unsleep, StillSleeps, SameSleepers, AwakeOk, Delays;
    var pr := k.procs[p].(prmsg := msg, prhasmsg := true);
    var t := k.(procs := k.procs[p := pr]);
    TimedIs(k, p);
    SentSleeper(k, p, pr);
    UnsleepLeft(t, p, q);
    var u := Unsleep(t, p).0;
    SentStill(k, t, u, q);
    ReadySpares(u, -1, p, -2, -1);
    StillOn(k, u, Ready(u, p), q);
  }

  lemma KillEndSleeps(k: K, p: nat, q: nat)
    requires Inv(k) && Sleeps(k, q) && p < NPROC && p != NULLPROC && p != q
    requires p == k.currpid ==> k.ndefers == 0
    ensures StillSleeps(k, KillEnd(k, p), q)
  {
    hide Inv, StillSleeps, KillEnd;
    InvSized(k);
    if k.procs[p].prstate == PR_CURR {
      KilledCurrent(k, p, q);
    } else {
      KilledOther(k, p, q);
    }
  }

  lemma KilledCurrent(k: K, p: nat, q: nat)
    requires Inv(k) && Sleeps(k, q) && p < NPROC && p != NULLPROC && p != q
    requires k.procs[p].prstate == PR_CURR && (p == k.currpid ==> k.ndefers == 0)
    ensures StillSleeps(k, KillEnd(k, p), q)
  {
    hide MembersOf, StatesOf, SemsOf, ReadyOf, Delays, Resched, StillSleeps, SameSleepers;
    About(k, -1, p);
    var t := SetCtx(k, Nothing);
    CtxKeeps(k, Nothing);
    StopCore(t, PR_FREE, Nothing);
    assert SetState(SetCtx(t, Nothing), p, PR_FREE) == Freed(t, p);
    FreedSleeps(k, p, q);
    ReschedSpares(Freed(t, p), -2, -1);
    StillOn(k, Freed(t, p), Resched(Freed(t, p)), q);
  }

  lemma FreedSleeps(k: K, p: nat, q: nat)
    requires Sized(k) && Sleeps(k, q) && p < NPROC
    ensures Sized(Freed(SetCtx(k, Nothing), p)) && StillSleeps(k, Freed(SetCtx(k, Nothing), p), q)
  {
    SameLeft(k, Freed(SetCtx(k, Nothing), p), q);
  }

  lemma KilledOther(k: K, p: nat, q: nat)
    requires Inv(k) && Sleeps(k, q) && p < NPROC && p != NULLPROC && p != q && k.procs[p].prstate != PR_CURR
    ensures StillSleeps(k, KillEnd(k, p), q)
  {
    hide MembersOf, StatesOf, SemsOf, ReadyOf;
    About(k, -1, p);
    Sleepers0(k);
    var t := SetCtx(k, Nothing);
    if k.procs[p].prstate in {PR_SLEEP, PR_RECTIM} {
      UnsleepLeft(t, p, q);
      hide Unsleep;
      SameLeft(Unsleep(t, p).0, KillEnd(k, p), q);
    } else {
      SameLeft(k, KillEnd(k, p), q);
    }
  }

  /** Putting the current process to sleep. */
  lemma DozeSleeps(k: K, d: int, st: PrState, c: Ctx, q: nat)
    requires Inv(k) && CanBlock(k) && 0 <= d <= MAXKEY && (q == k.currpid || Sleeps(k, q))
    requires (st == PR_SLEEP && c == Nothing)
             || (st == PR_RECTIM && c == TimedReceiving && !k.procs[k.currpid].prhasmsg)
    ensures Sized(k)
    ensures var t := Resched(Asleep(SetCtx(k, c), d, st));
            && (d > 0 && Prompt(k) ==> Prompt(t))
            && Sleeps(t, q) && TicksLeft(t, q) == if q == k.currpid then d else TicksLeft(k, q)
  {
    hide MembersOf, StatesOf, SemsOf, ReadyOf;
    Sleepers0(k);
    CurrentAwake(k);
    AsleepLeft(SetCtx(k, c), d, st, q);
    DozeSpares(k, d, st, c, -2, -1);
    var t := Asleep(SetCtx(k, c), d, st);
    assert TicksLeft(t, q) == if q == k.currpid then d else TicksLeft(k, q);
    hide Core, Resched, Asleep, TicksLeft, Prompt;
    ReschedSpares(t, -2, -1);
    SameLeft(t, Resched(t), q);
  }

  lemma CurrentAwake(k: K)
    requires Inv(k)
    ensures Sized(k) && k.currpid !in k.lists[SQ]
  {
  }

  /** Between ticks nobody's time runs, whatever else happens. */
  lemma StepSleeps(k: K, e: Step, q: nat)
    requires Inv(k) && Enabled(k, e) && Sleeps(k, q) && q < NPROC && e != ClockTick && !Disturbs(k, e, q)
    ensures AsBefore(k, Do(k, e), q)
    ensures e != DoRecvTime(0) ==> StillSleeps(k, Do(k, e), q)
  {
    hide MembersOf, StatesOf, SemsOf, ReadyOf, Delays, SameSleepers, TicksLeft, Prompt, Send, Resched, Asleep;
    CurrentAwake(k);
    About(k, -1, k.currpid);
    match e {
      case DoSend(p, msg) => SendSleeps(k, p, msg, q);
      case DoKill(p) =>
        if !BadPid(k, p) && p != NULLPROC {
          CtxKeeps(k, Killing(p));
          SameAll(k, SetCtx(k, Killing(p)), q);
          SendSleeps(SetCtx(k, Killing(p)), k.procs[p].prparent, p, q);
        }
      case EndKill(p) => KillEndSleeps(k, p, q);
      case DoRecvTime(d) =>
        if k.procs[k.currpid].prhasmsg {
          SameAll(k, Take(k), q);
        } else if d >= 0 {
          DozeSleeps(k, d, PR_RECTIM, TimedReceiving, q);
        }
      case DoSleepMs(d) =>
        if d > 0 {
          assert SetCtx(k, Nothing).ctx == k.ctx;
          DozeSleeps(k, d, PR_SLEEP, Nothing, q);
        } else if d == 0 {
          ReschedSpares(k, -2, -1);
          SameLeft(k, Resched(k), q);
        }
      case _ => OtherSleeps(k, e, q);
    }
  }

  lemma SameAll(k: K, t: K, q: nat)
    requires Sleeps(k, q) && Sized(t) && t.lists == k.lists && t.keys == k.keys
    ensures StillSleeps(k, t, q)
  {
  }

  lemma OtherSleeps(k: K, e: Step, q: nat)
    requires Inv(k) && Enabled(k, e) && Sleeps(k, q)
    requires e != ClockTick && !e.EndKill? && !e.DoSend? && !e.DoKill? && !e.DoRecvTime? && !e.DoSleepMs?
    ensures StillSleeps(k, Do(k, e), q)
  {
    hide MembersOf, StatesOf, SemsOf, ReadyOf, Delays, TicksLeft;
    InvSized(k);
    match e {
      case DoWait(s) => WaitSpares(k, s, -2, if s == -1 then -2 else -1);
      case DoSignal(s) =>
        if 0 <= s < NSEM && k.sems[s].used {
          SignalSpares(k, s, -2, -1);
        }
      case DoSignalN(s, n) =>
        if n >= 0 {
          SignalNSpares(k, s, n, -2, if s == -1 then -2 else -1);
        }
      case DoSemDelete(s) => SemDeleteSpares(k, s, -2, if s == -1 then -2 else -1);
      case DoSemReset(s, n) => SemResetSpares(k, s, n, -2, if s == -1 then -2 else -1);
      case DoResume(p) => ResumeSpares(k, p, Neither(p), -1);
      case DoSuspend(p) => SuspendSpares(k, p, Neither(p), -1);
      case DoYield => ReschedSpares(k, -2, -1);
      case DoReceive => ReceiveSpares(k, -2, -1);
      case DoUndefer => DeferStopSpares(k, -2, -1);
      case ClockRest => SliceSpares(k, -2, -1);
      case _ =>
    }
    SameLeft(k, Do(k, e), q);
  }

  // ---- ticks ----

  ghost predicate NoneLate(k: K)
    requires Sized(k)
  {
    forall j :: 0 <= j < |k.lists[SQ]| ==> k.keys[k.lists[SQ][j]] >= 0
  }

  ghost predicate OnTime(k: K) {
    Waking(k) && NoneLate(k)
  }

  lemma AbleAwake(k: K, q: nat)
    requires Core(k, -1, -1) && q < NPROC && Able(k.procs[q])
    ensures Sized(k) && !Sleeps(k, q)
  {
  }

  /** Apart from the head nobody is late. */
  ghost predicate RestOnTime(k: K) {
    Waking(k) && forall j :: 0 < j < |k.lists[SQ]| ==> k.keys[k.lists[SQ][j]] >= 0
  }

  /** The first sleeper wakes; the others have as much left as before. */
  lemma WakeOne(k: K)
    requires RestOnTime(k) && |k.lists[SQ]| > 0 && k.keys[k.lists[SQ][0]] <= 0
    ensures var t, l := ReadyHead(k, SQ), k.lists[SQ];
            && OnTime(t) && t.lists[SQ] == l[1..] && Once(l)
            && l[0] < NPROC && Able(t.procs[l[0]])
            && forall j :: 0 <= j < |l[1..]| ==> t.keys[l[1..][j]] == k.keys[l[1..][j]]
    ensures Due(k.lists[SQ], k.keys) == 1 + Due(ReadyHead(k, SQ).lists[SQ], ReadyHead(k, SQ).keys)
  {
    hide Core, PrioOk, ReadyHead, Steady, Spared;
    WakingSized(k);
    Sleepers0(k);
    HeadFloats(k);
    WakeHead(k);
    WakeKeys(k);
    WakeHeadSpares(k, -2, -1);
    PopDue(k.lists[SQ], k.keys, ReadyHead(k, SQ).lists[SQ], ReadyHead(k, SQ).keys);
  }

  lemma {:induction false} WakePrompt(k: K, n: nat)
    requires OnTime(k) && n == Due(k.lists[SQ], k.keys)
    ensures OnTime(Drain(k, SQ, n)) && Prompt(Drain(k, SQ, n))
    decreases n
  {
    hide OnTime, ReadyHead, Due, Prompt, Core, RestOnTime;
    if n == 0 {
      PromptAlready(k);
    } else {
      DueNow(k);
      WakeOne(k);
      WakePrompt(ReadyHead(k, SQ), n - 1);
    }
  }

  lemma PromptAlready(k: K)
    requires OnTime(k) && Due(k.lists[SQ], k.keys) == 0
    ensures Prompt(k)
  {
    hide Core, PrioOk;
    WakingSized(k);
  }

  /** The head, woken, stays awake while others are woken. */
  lemma WokenStays(k: K, q: nat, n: nat)
    requires OnTime(k) && q < NPROC && Able(k.procs[q]) && n == Due(k.lists[SQ], k.keys)
    ensures Able(Drain(k, SQ, n).procs[q])
  {
    AbleAwake(k, q);
    WakeSpares(k, n, q, -1);
  }

  /** wakeup wakes exactly those who have no time left. */
  lemma {:induction false} WakeExactly(k: K, n: nat, q: nat)
    requires OnTime(k) && n == Due(k.lists[SQ], k.keys) && Sleeps(k, q) && q < NPROC
    ensures Sized(Drain(k, SQ, n))
    ensures TicksLeft(k, q) == 0 ==> Able(Drain(k, SQ, n).procs[q])
    ensures TicksLeft(k, q) != 0 ==> Sleeps(Drain(k, SQ, n), q) && TicksLeft(Drain(k, SQ, n), q) == TicksLeft(k, q) > 0
    decreases n
  {
    hide OnTime, RestOnTime, ReadyHead, TicksLeft, Due, Core, PrioOk;
    if n == 0 {
      NotDue(k, q);
      return;
    }
    DueNow(k);
    WakeOneLeft(k, q);
    WakeOne(k);
    var t := ReadyHead(k, SQ);
    if IndexOf(k.lists[SQ], q) == 0 {
      WokenStays(t, q, n - 1);
    } else {
      WakeExactly(t, n - 1, q);
    }
  }

  lemma DueNow(k: K)
    requires OnTime(k) && Due(k.lists[SQ], k.keys) > 0
    ensures Sized(k) && RestOnTime(k) && |k.lists[SQ]| > 0 && k.keys[k.lists[SQ][0]] == 0
  {
    hide Core, PrioOk;
    WakingSized(k);
  }

  lemma NotDue(k: K, q: nat)
    requires OnTime(k) && Sleeps(k, q) && Due(k.lists[SQ], k.keys) == 0
    ensures TicksLeft(k, q) > 0
  {
    Sleepers0(k);
    hide Core, PrioOk;
    LeftMono(k.lists[SQ], k.keys, 0, IndexOf(k.lists[SQ], q));
  }

  lemma WakeOneLeft(k: K, q: nat)
    requires RestOnTime(k) && Sleeps(k, q) && q < NPROC && k.keys[k.lists[SQ][0]] <= 0
    ensures OnTime(ReadyHead(k, SQ))
    ensures Due(k.lists[SQ], k.keys) == 1 + Due(ReadyHead(k, SQ).lists[SQ], ReadyHead(k, SQ).keys)
    ensures IndexOf(k.lists[SQ], q) == 0 ==>
              TicksLeft(k, q) == k.keys[k.lists[SQ][0]] && Able(ReadyHead(k, SQ).procs[q])
    ensures IndexOf(k.lists[SQ], q) > 0 ==>
              && Sleeps(ReadyHead(k, SQ), q)
              && TicksLeft(ReadyHead(k, SQ), q) == TicksLeft(k, q) - k.keys[k.lists[SQ][0]] >= 0
  {
    hide ReadyHead, Core, PrioOk, Able, IndexOf, Waking;
    var l, j := k.lists[SQ], IndexOf(k.lists[SQ], q);
    WakeOne(k);
    if j > 0 {
      PopLeft(l, k.keys, j - 1);
      LeftSame(l[1..], k.keys, l[1..], ReadyHead(k, SQ).keys, j - 1);
      assert l[1..][j - 1] == q;
      SlicedOnce(l);
      IndexIs(l[1..], j - 1);
      LeftNonNegative(l[1..], k.keys, j - 1);
    }
  }

  lemma {:induction false} LeftNonNegative(l: seq<nat>, keys: seq<int>, j: nat)
    requires Keyed(l, keys) && j < |l| && forall b :: 0 <= b < |l| ==> keys[l[b]] >= 0
    ensures Left(l, keys, j) >= 0
  {
    if j > 0 {
      LeftNonNegative(l, keys, j - 1);
    }
  }

  lemma SlicedOnce(l: seq<nat>)
    requires Once(l) && |l| > 0
    ensures Once(l[1..])
  {
  }

  /** What a tick takes from everybody: one, unless there is somebody whose time is up
      already. */
  ghost function Taken(k: K): int {
    if Prompt(k) then 1 else 0
  }

  /** q has that much less, or is woken if that was all. */
  ghost predicate TickedBy(k: K, t: K, q: nat)
    requires Sleeps(k, q) && q < NPROC
  {
    && Prompt(t)
    && (TicksLeft(k, q) <= Taken(k) ==> Able(t.procs[q]))
    && (TicksLeft(k, q) > Taken(k) ==> Sleeps(t, q) && TicksLeft(t, q) == TicksLeft(k, q) - Taken(k))
  }

  lemma TickedLeft(k: K, q: nat)
    requires Inv(k) && k.ctx[k.currpid] == Nothing && Sleeps(k, q) && q < NPROC
    ensures RestOnTime(Ticked(k)) && Sleeps(Ticked(k), q) && TicksLeft(Ticked(k), q) == TicksLeft(k, q) - 1
    ensures Prompt(k) ==> OnTime(Ticked(k))
    ensures !Prompt(k) ==> Ticked(k).keys[Ticked(k).lists[SQ][0]] == -1 && TicksLeft(k, q) >= 0
    ensures TicksLeft(k, q) >= Taken(k)
  {
    hide Core, PrioOk;
    Sleepers0(k);
    TickedOk(k);
    var l := k.lists[SQ];
    TickLeft(l, k.keys, IndexOf(l, q));
    LeftMono(l, k.keys, 0, IndexOf(l, q));
    assert forall b :: 0 < b < |l| ==> l[b] != l[0];
  }

  /** A tick takes one from what every sleeper has left, unless somebody's time is up already:
      then it wakes only those whose time is up, and takes nothing. */
  lemma TickExactly(k: K, q: nat)
    requires Inv(k) && k.ctx[k.currpid] == Nothing && Sleeps(k, q) && q < NPROC
    ensures TickedBy(k, Tick(k), q)
  {
    hide Inv, Tick, Ticked, TicksLeft, OnTime, RestOnTime, Wakeup, Prompt;
    TickedLeft(k, q);
    TickIs(k);
    var u := Ticked(k);
    if !Prompt(k) {
      LateWakeup(u, q);
    } else if Due(u.lists[SQ], u.keys) == 0 {
      NotDue(u, q);
      NoneDue(u);
    } else {
      WakeupExactly(u, q);
    }
  }

  /** So a tick takes one exactly if the first of the queue has a delay. */
  lemma TickTakesOne(k: K, q: nat)
    requires Inv(k) && k.ctx[k.currpid] == Nothing && Sleeps(k, q) && q < NPROC && TicksLeft(k, q) > 1
    ensures Sleeps(Tick(k), q)
    ensures TicksLeft(Tick(k), q) == TicksLeft(k, q) - 1 <==> k.keys[k.lists[SQ][0]] >= 1
  {
    hide Inv, Tick, TicksLeft;
    TickExactly(k, q);
  }

  /** recvtime(0) puts a process in front whose time is up already. */
  lemma RecvZero(k: K)
    requires Inv(k) && Enabled(k, DoRecvTime(0)) && !k.procs[k.currpid].prhasmsg
    ensures var t := Do(k, DoRecvTime(0)); Sleeps(t, k.currpid) && TicksLeft(t, k.currpid) == 0 && !Prompt(t)
  {
    InvSized(k);
    var t := Do(k, DoRecvTime(0));
    DozeSleeps(k, 0, PR_RECTIM, TimedReceiving, k.currpid);
    StepKeeps(k, DoRecvTime(0));
    hide Inv, Do, Enabled;
    FrontIsUp(t, k.currpid);
  }

  lemma FrontIsUp(k: K, q: nat)
    requires Inv(k) && Sleeps(k, q) && TicksLeft(k, q) == 0
    ensures !Prompt(k)
  {
    Sleepers0(k);
    hide Core;
    LeftMono(k.lists[SQ], k.keys, 0, IndexOf(k.lists[SQ], q));
  }

  lemma NoneDue(k: K)
    requires OnTime(k) && Due(k.lists[SQ], k.keys) == 0
    ensures Prompt(k)
  {
    hide Core, PrioOk;
    WakingSized(k);
  }

  lemma WakingDeferred(k: K, q: nat)
    requires RestOnTime(k) && Sleeps(k, q)
    ensures RestOnTime(DeferStart(k)) && DeferStart(k).lists == k.lists && DeferStart(k).keys == k.keys
    ensures OnTime(k) ==> OnTime(DeferStart(k))
    ensures Sleeps(DeferStart(k), q) && TicksLeft(DeferStart(k), q) == TicksLeft(k, q)
  {
    DeferralOk(k, -1, -1, DeferStart(k).ndefers, DeferStart(k).attempt);
  }

  lemma WakingInv(k: K)
    requires OnTime(k)
    ensures Inv(k)
  {
    hide MembersOf, StatesOf, SemsOf, ReadyOf, Delays;
  }

  /** The end of wakeup, when all are awake that should be. */
  lemma Drained(k: K, u: K, q: nat)
    requires OnTime(u) && Prompt(u) && Sized(k) && q < NPROC
    requires u == Drain(DeferStart(k), SQ, Due(k.lists[SQ], k.keys))
    ensures Prompt(Wakeup(k)) && (Able(u.procs[q]) ==> Able(Wakeup(k).procs[q]))
    ensures Sleeps(u, q) ==> Sleeps(Wakeup(k), q) && TicksLeft(Wakeup(k), q) == TicksLeft(u, q)
  {
    hide OnTime, DeferStart, DeferStop, Drain, TicksLeft, Due, Prompt;
    WakingInv(u);
    DeferStopSpares(u, q, -1);
    PromptKept(u, DeferStop(u));
    if Sleeps(u, q) {
      SameLeft(u, DeferStop(u), q);
    }
  }

  lemma WakeupExactly(k: K, q: nat)
    requires OnTime(k) && Sleeps(k, q) && q < NPROC && Due(k.lists[SQ], k.keys) > 0
    ensures Prompt(Wakeup(k))
    ensures TicksLeft(k, q) == 0 ==> Able(Wakeup(k).procs[q])
    ensures TicksLeft(k, q) != 0 ==> Sleeps(Wakeup(k), q) && TicksLeft(Wakeup(k), q) == TicksLeft(k, q) > 0
  {
    hide OnTime, DeferStart, DeferStop, Drain, TicksLeft, Due, Wakeup;
    var t, n := DeferStart(k), Due(k.lists[SQ], k.keys);
    DueNow(k);
    WakingDeferred(k, q);
    WakePrompt(t, n);
    WakeExactly(t, n, q);
    Drained(k, Drain(t, SQ, n), q);
  }

  /** wakeup after a tick that found the time of the first up already: its key is -1. */
  lemma LateWakeup(k: K, q: nat)
    requires RestOnTime(k) && Sleeps(k, q) && q < NPROC && k.keys[k.lists[SQ][0]] == -1
    ensures Due(k.lists[SQ], k.keys) > 0 && Prompt(Wakeup(k))
    ensures TicksLeft(k, q) <= -1 ==> Able(Wakeup(k).procs[q])
    ensures TicksLeft(k, q) > -1 ==> Sleeps(Wakeup(k), q) && TicksLeft(Wakeup(k), q) == TicksLeft(k, q) + 1
  {
    hide OnTime, RestOnTime, DeferStart, DeferStop, Drain, TicksLeft, Due, Wakeup, ReadyHead, Able, Prompt;
    var t, n := DeferStart(k), Due(k.lists[SQ], k.keys);
    WakingDeferred(k, q);
    WakeOneLeft(t, q);
    DrainFirst(t, n);
    var v := ReadyHead(t, SQ);
    WakePrompt(v, n - 1);
    if IndexOf(t.lists[SQ], q) == 0 {
      WokenStays(v, q, n - 1);
    } else {
      WakeExactly(v, n - 1, q);
    }
    Drained(k, Drain(t, SQ, n), q);
  }

  lemma DrainFirst(k: K, n: nat)
    requires RestOnTime(k) && n > 0
    ensures Sized(k) && Drain(k, SQ, n) == Drain(ReadyHead(k, SQ), SQ, n - 1)
  {
    hide Core, PrioOk, ReadyHead;
    WakingSized(k);
  }

  lemma PromptKept(k: K, t: K)
    requires Prompt(k) && Sized(t) && SameSleepers(k.lists[SQ], k.keys, t.lists[SQ], t.keys)
    ensures Prompt(t)
  {
  }

  // ---- runs ----

  /** Nothing takes q off the queue early. */
  ghost predicate Undisturbed(k: K, es: seq<Step>, q: nat)
    requires Runs(k, es) && q < NPROC
    decreases |es|
  {
    |es| == 0 || (!Disturbs(k, es[0], q) && Undisturbed(Do(k, es[0]), es[1..], q))
  }

  /** How much the ticks of a run take from those who sleep through it. */
  ghost function AllTaken(k: K, es: seq<Step>): nat
    requires Runs(k, es)
    decreases |es|
  {
    if |es| == 0 then 0 else (if es[0] == ClockTick then Taken(k) else 0) + AllTaken(Do(k, es[0]), es[1..])
  }

  /** As long as the ticks took less than q had left, it sleeps, and has the rest left. */
  lemma {:induction false} SleepsOn(k: K, es: seq<Step>, q: nat)
    requires Inv(k) && Sleeps(k, q) && q < NPROC
    requires Runs(k, es) && Undisturbed(k, es, q) && AllTaken(k, es) < TicksLeft(k, q)
    ensures Inv(After(k, es))
    ensures Sleeps(After(k, es), q) && TicksLeft(After(k, es), q) == TicksLeft(k, q) - AllTaken(k, es)
    decreases |es|
  {
    hide Inv, Enabled, Do, Prompt, Sleeps, TicksLeft, Disturbs;
    if |es| > 0 {
      StepKeeps(k, es[0]);
      OneStep(k, es[0], q);
      SleepsOn(Do(k, es[0]), es[1..], q);
    }
  }

  lemma OneStep(k: K, e: Step, q: nat)
    requires Inv(k) && Sleeps(k, q) && q < NPROC && Enabled(k, e) && !Disturbs(k, e, q)
    ensures e == ClockTick ==> TickedBy(k, Do(k, e), q)
    ensures e != ClockTick ==> AsBefore(k, Do(k, e), q)
    ensures e != ClockTick && e != DoRecvTime(0) && Prompt(k) ==> Prompt(Do(k, e))
  {
    hide Inv, TickedBy, AsBefore, Disturbs, Prompt;
    if e == ClockTick {
      TickExactly(k, q);
    } else {
      StepSleeps(k, e, q);
    }
  }

  lemma {:induction false} RunsSplit(k: K, es: seq<Step>, fs: seq<Step>, q: nat)
    requires Runs(k, es + fs) && q < NPROC && Undisturbed(k, es + fs, q)
    ensures Runs(k, es) && Runs(After(k, es), fs) && After(k, es + fs) == After(After(k, es), fs)
    ensures Undisturbed(k, es, q) && Undisturbed(After(k, es), fs, q)
    decreases |es|
  {
    hide Enabled, Do, Disturbs;
    if |es| == 0 {
      assert es + fs == fs;
    } else {
      assert (es + fs)[1..] == es[1..] + fs;
      RunsSplit(Do(k, es[0]), es[1..], fs, q);
    }
  }

  /** The current process goes to sleep for d ticks: it calls sleepms(d), or recvtime(d) when it has
      no message. */
  ghost predicate GoesToSleep(k: K, e: Step, d: int) {
    Enabled(k, e) && d > 0 && (e == DoSleepMs(d) || (e == DoRecvTime(d) && !k.procs[k.currpid].prhasmsg))
  }

  /** It sleeps until the ticks took d - 1, whatever the others do in between, and the next tick
      that takes one makes it ready. */
  lemma WakesAtTick(k: K, e: Step, d: int, es: seq<Step>)
    requires Inv(k) && GoesToSleep(k, e, d)
    requires var t := Do(k, e);
             && Runs(t, es) && Runs(t, es + [ClockTick]) && Undisturbed(t, es + [ClockTick], k.currpid)
             && AllTaken(t, es) == d - 1 && Prompt(After(t, es))
    ensures var t := Do(k, e);
            && Sleeps(t, k.currpid) && Sleeps(After(t, es), k.currpid)
            && Able(After(t, es + [ClockTick]).procs[k.currpid])
  {
    hide Inv, Enabled, Do, Prompt, Sleeps, TicksLeft, Disturbs;
    var q, t := k.currpid, Do(k, e);
    SleepStarts(k, e, d);
    StepKeeps(k, e);
    RunsSplit(t, es, [ClockTick], q);
    SleepsOn(t, es, q);
    OneStep(After(t, es), ClockTick, q);
  }

  lemma SleepStarts(k: K, e: Step, d: int)
    requires Inv(k) && GoesToSleep(k, e, d)
    ensures var t := Do(k, e);
            k.currpid < NPROC && Sleeps(t, k.currpid) && TicksLeft(t, k.currpid) == d && (Prompt(k) ==> Prompt(t))
  {
    hide Inv, Asleep, Resched, Sleeps, TicksLeft, Prompt;
    InvSized(k);
    if e.DoSleepMs? {
      assert SetCtx(k, Nothing) == k by {
        assert k.ctx[k.currpid := Nothing] == k.ctx;
      }
      DozeSleeps(k, d, PR_SLEEP, Nothing, k.currpid);
    } else {
      DozeSleeps(k, d, PR_RECTIM, TimedReceiving, k.currpid);
    }
  }

  function Ticks(es: seq<Step>): nat
    decreases |es|
  {
    if |es| == 0 then 0 else (if es[0] == ClockTick then 1 else 0) + Ticks(es[1..])
  }

  ghost predicate NoZeroWait(es: seq<Step>) {
    forall j :: 0 <= j < |es| ==> es[j] != DoRecvTime(0)
  }

  /** Where nobody calls recvtime(0) every tick takes one. */
  lemma {:induction false} EveryTickTakes(k: K, es: seq<Step>, q: nat)
    requires Inv(k) && Prompt(k) && Sleeps(k, q) && q < NPROC && NoZeroWait(es)
    requires Runs(k, es) && Undisturbed(k, es, q) && Ticks(es) < TicksLeft(k, q)
    ensures AllTaken(k, es) == Ticks(es) && Prompt(After(k, es))
    decreases |es|
  {
    hide Inv, Enabled, Do, Prompt, Sleeps, TicksLeft, Disturbs;
    if |es| > 0 {
      StepKeeps(k, es[0]);
      OneStep(k, es[0], q);
      EveryTickTakes(Do(k, es[0]), es[1..], q);
    }
  }

  /** There, a process that goes to sleep for d ticks is ready after the d-th, and not before. */
  lemma WakesAtDth(k: K, e: Step, d: int, es: seq<Step>)
    requires Inv(k) && Prompt(k) && GoesToSleep(k, e, d) && NoZeroWait(es) && Ticks(es) == d - 1
    requires var t := Do(k, e);
             Runs(t, es + [ClockTick]) && Undisturbed(t, es + [ClockTick], k.currpid)
    ensures var t := Do(k, e);
            && Runs(t, es) && Sleeps(After(t, es), k.currpid)
            && Able(After(t, es + [ClockTick]).procs[k.currpid])
  {
    hide Inv, Enabled, Do, Prompt, Sleeps, TicksLeft, Disturbs;
    var q, t := k.currpid, Do(k, e);
    SleepStarts(k, e, d);
    StepKeeps(k, e);
    RunsSplit(t, es, [ClockTick], q);
    EveryTickTakes(t, es, q);
    WakesAtTick(k, e, d, es);
  }
}
