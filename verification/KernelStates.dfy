/** The diagram of process states: how every step moves every process. */
module KernelStates {
  import opened KernelQueues
  import opened KernelSleep
  import opened KernelSpec
  import opened KernelInv
  import opened KernelCalls
  import opened KernelProcs
  import opened KernelFrame
  import opened KernelRuns
  import opened KernelWake
  import opened KernelMail

  /** Whoever can run is current or ready; which, is a matter of priority. */
  function Runnable(): set<PrState> {
    {PR_CURR, PR_READY}
  }

  /** No change, as far as that goes. */
  function Staying(pr: Proc): set<PrState> {
    if pr.prstate in Runnable() then Runnable() else {pr.prstate}
  }

  /** Who is released from the queue of s in this step. */
  ghost predicate Released(k: K, e: Step, p: nat)
    requires Sized(k)
  {
    match e
    case DoSignal(s) => 0 <= s < NSEM && k.sems[s].used && |k.lists[s]| > 0 && p == k.lists[s][0]
    case DoSignalN(s, n) =>
      0 <= s < NSEM && k.sems[s].used && exists j :: 0 <= j < |k.lists[s]| && j < n && k.lists[s][j] == p
    case DoSemDelete(s) => 0 <= s < NSEM && k.sems[s].used && p in k.lists[s]
    case DoSemReset(s, n) => 0 <= s < NSEM && n >= 0 && k.sems[s].used && p in k.lists[s]
    case _ => false
  }

  /** The current process has to wait in this step, in that state. */
  ghost predicate Stops(k: K, e: Step, st: PrState)
    requires Sized(k)
  {
    match e
    case DoWait(s) => 0 <= s < NSEM && k.sems[s].used && k.sems[s].count <= 0 && st == PR_WAIT
    case DoReceive => !k.procs[k.currpid].prhasmsg && st == PR_RECV
    case DoRecvTime(d) => d >= 0 && !k.procs[k.currpid].prhasmsg && st == PR_RECTIM
    case DoSleepMs(d) => d > 0 && st == PR_SLEEP
    case _ => false
  }

  /** Somebody whom the step sends a message. */
  ghost predicate Told(k: K, e: Step, p: nat)
    requires Sized(k)
  {
    match e
    case DoSend(q, msg) => q == p
    case DoKill(q) => 0 < q < NPROC && k.procs[q].prstate != PR_FREE && k.procs[q].prparent == p
    case _ => false
  }

  // ---- those who are let go ----

  /** The head of a queue, readied. */
  lemma HeadFreed(k: K, s: nat)
    requires Mid(k, s) && s < NSEM && |k.lists[s]| > 0
    ensures k.lists[s][0] < NPROC && Able(ReadyHead(k, s).procs[k.lists[s][0]])
  {
    var p, t := k.lists[s][0], SetList(k, s, k.lists[s][1..]);
    HeadIs(k, s);
    UnlinkOk(k, s, p, s);
    hide ReadyHead, Ready;
    assert ReadyHead(k, s) == Ready(t, p);
    HeadMayRun(k, s);
    hide Core, Steady;
    ReadySpares(t, s, p, if p == -2 then -3 else -2, -1);
  }

  lemma HeadMayRun(k: K, s: nat)
    requires Mid(k, s) && s < NSEM && |k.lists[s]| > 0
    ensures var p, t := k.lists[s][0], SetList(k, s, k.lists[s][1..]);
            && p < NPROC && k.procs[p].prstate == PR_WAIT && p != k.currpid && t.procs == k.procs && t.ctx == k.ctx
            && AwakeOk(t) && k.procs[k.currpid].prstate == PR_CURR && MsgOk(k.procs[p].(prstate := PR_READY), k.ctx[p])
            && ReadyHead(k, s) == Ready(t, p)
  {
    HeadIs(k, s);
    hide MembersOf, SemsOf, ReadyOf, Delays;
    hide Ready;
  }

  lemma OnceOn(k: K, s: nat)
    requires Mid(k, s) && s < NSEM
    ensures Sized(k) && Once(k.lists[s])
  {
  }

  lemma HeadOnce(l: seq<nat>, p: nat)
    requires Once(l) && |l| > 0 && p in l
    ensures p == l[0] ==> p !in l[1..]
    ensures p != l[0] ==> p in l[1..]
  {
    assert l == [l[0]] + l[1..];
  }

  lemma {:induction false} DrainFrees(k: K, s: nat, n: nat, p: nat)
    requires Mid(k, s) && s < NSEM && n == |k.lists[s]| && p < NPROC && p in k.lists[s]
    ensures Able(Drain(k, s, n).procs[p])
    decreases n
  {
    hide Mid, ReadyHead, Steady, Once;
    OnceOn(k, s);
    HeadOnce(k.lists[s], p);
    HeadFreed(k, s);
    ReadyHeadKeeps(k, s);
    var t := ReadyHead(k, s);
    if p == k.lists[s][0] {
      DrainSpares(t, s, n - 1, p, -1);
    } else {
      DrainFrees(t, s, n - 1, p);
    }
  }

  lemma {:induction false} ManyFrees(k: K, s: nat, n: nat, j: nat)
    requires Inv(k) && s < NSEM && k.sems[s].used && k.sems[s].count + n <= MAXCOUNT
    requires j < n && j < |k.lists[s]|
    ensures k.lists[s][j] < NPROC && Able(SignalMany(k, s, n).procs[k.lists[s][j]])
    decreases n
  {
    hide Inv, Mid, SignalOne, Rest, Once;
    InvSized(k);
    var t, p := SignalOne(k, s), k.lists[s][j];
    SignalStep(k, s);
    SignalEffect(k, s);
    RestIs(k.lists[s]);
    if j == 0 {
      ExceptOk(k, s);
      OnceOn(k, s);
      HeadOnce(k.lists[s], p);
      SignalManySpares(t, s, n - 1, p, -1);
    } else {
      ManyFrees(t, s, n - 1, j - 1);
    }
  }

  lemma RestIs(l: seq<nat>)
    requires |l| > 0
    ensures Rest(l, 1) == l[1..]
  {
  }

  lemma {:induction false} SignalDrainFrees(k: K, s: nat, n: nat, p: nat)
    requires Mid(k, s) && s < NSEM && n == |k.lists[s]| && k.sems[s].count + n == 0 && p < NPROC && p in k.lists[s]
    ensures Able(SignalMany(k, s, n).procs[p])
    decreases n
  {
    hide Mid, SignalOne, Once;
    OnceOn(k, s);
    ReleaseStep(k, s);
    ReleaseFrees(k, s);
    HeadOnce(k.lists[s], p);
    var t := SignalOne(k, s);
    if p == k.lists[s][0] {
      SignalDrainSpares(t, s, n - 1, p, -1);
    } else {
      SignalDrainFrees(t, s, n - 1, p);
    }
  }

  lemma ReleaseFrees(k: K, s: nat)
    requires Mid(k, s) && s < NSEM && |k.lists[s]| > 0 && k.sems[s].count < 0
    ensures k.lists[s][0] < NPROC && Able(SignalOne(k, s).procs[k.lists[s][0]])
    ensures SignalOne(k, s).lists[s] == k.lists[s][1..]
  {
    hide Mid, ReadyHead, Steady;
    MidSized(k, s);
    var n := k.sems[s].count + 1;
    var t := SetCount(k, s, n);
    assert t == k.(sems := k.sems[s := k.sems[s].(count := n)], nextsem := k.nextsem);
    SemChanged(k, s, k.sems[s].(count := n), k.nextsem);
    HeadFreed(t, s);
    ReadyHeadKeeps(t, s);
  }

  /** Who is on the queue of a semaphore waits. */
  lemma QueuedWaits(k: K, s: nat, p: nat)
    requires Inv(k) && s < NSEM && p < NPROC
    ensures Sized(k) && (p in k.lists[s] <==> k.procs[p].prstate == PR_WAIT && k.procs[p].prsem == s)
  {
    assert Sized(k);
    assert p in k.lists[s] <==> Home(k.procs[p]) == s;
    hide MembersOf, StatesOf, SemsOf, ReadyOf, Delays;
    About(k, -1, p);
  }

  lemma WaitStates(k: K, s: nat, p: nat)
    requires Inv(k) && Enabled(k, DoWait(s)) && s < NSEM && k.sems[s].used && p < NPROC
    ensures Sized(k)
    ensures Wait(k, s).0.procs[p].prstate in
              if p == k.currpid && k.sems[s].count <= 0 then {PR_WAIT} else Staying(k.procs[p])
  {
    hide Inv, Wait, CanBlock;
    InvSized(k);
    if k.sems[s].count > 0 {
      WaitEffect(k, s);
    } else if p != k.currpid {
      WaitSpares(k, s, p, -1);
    } else {
      var u := Enqueued(SetCount(k, s, k.sems[s].count - 1), s);
      WaitIs(k, s);
      WaitingCore(k, s);
      CurrentAble(k);
      assert u.procs[p].prstate == PR_WAIT;
      hide Core, Resched;
      ReschedSpares(u, p, -1);
    }
  }

  lemma CurrentAble(k: K)
    requires Inv(k)
    ensures Sized(k) && k.procs[k.currpid].prstate == PR_CURR
  {
  }

  lemma SignalStates(k: K, s: nat, p: nat)
    requires Inv(k) && s < NSEM && k.sems[s].used && k.sems[s].count < MAXCOUNT && p < NPROC
    ensures Sized(k)
    ensures SignalOne(k, s).procs[p].prstate in
              if |k.lists[s]| > 0 && p == k.lists[s][0] then Runnable() else Staying(k.procs[p])
  {
    hide Inv, SignalOne;
    InvSized(k);
    SignalEffect(k, s);
    if p !in k.lists[s] {
      SignalSpares(k, s, p, -1);
    } else if p != k.lists[s][0] {
      assert p in Rest(k.lists[s], 1);
      SignalStep(k, s);
      QueuedWaits(k, s, p);
      QueuedWaits(SignalOne(k, s), s, p);
    }
  }

  lemma SignalNStates(k: K, s: nat, n: nat, p: nat)
    requires Inv(k) && s < NSEM && k.sems[s].used && k.sems[s].count + n <= MAXCOUNT && p < NPROC
    ensures Sized(k)
    ensures SignalN(k, s, n).0.procs[p].prstate in
              if exists j :: 0 <= j < |k.lists[s]| && j < n && k.lists[s][j] == p then Runnable()
              else Staying(k.procs[p])
  {
    hide Inv, SignalMany, DeferStop, Rest;
    InvSized(k);
    if p !in k.lists[s] {
      SignalNSpares(k, s, n, p, -1);
    } else if j: nat :| j < |k.lists[s]| && j < n && k.lists[s][j] == p {
      var t := DeferStart(k);
      DeferStartKeeps(k);
      SignalManyKeeps(t, s, n);
      ManyFrees(t, s, n, j);
      DeferStopSpares(SignalMany(t, s, n), p, -1);
    } else {
      SignalNEffect(k, s, n);
      SignalNKeeps(k, s, n);
      NotFirst(k.lists[s], n, p);
      QueuedWaits(k, s, p);
      hide SignalN;
      QueuedWaits(SignalN(k, s, n).0, s, p);
    }
  }

  lemma NotFirst(l: seq<nat>, n: nat, p: nat)
    requires p in l && !exists j :: 0 <= j < |l| && j < n && l[j] == p
    ensures p in Rest(l, n)
  {
    var j :| 0 <= j < |l| && l[j] == p;
    assert Rest(l, n)[j - n] == p;
  }

  lemma ResetStates(k: K, s: nat, n: nat, p: nat)
    requires Inv(k) && s < NSEM && k.sems[s].used && n <= MAXCOUNT && p < NPROC
    ensures Sized(k)
    ensures SemReset(k, s, n).0.procs[p].prstate in
              if p in k.lists[s] then Runnable() else Staying(k.procs[p])
  {
    hide Inv, Mid, Drain, DeferStop, Steady;
    InvSized(k);
    if p !in k.lists[s] {
      SemResetSpares(k, s, n, p, -1);
    } else {
      var t, d := DeferStart(k), |k.lists[s]|;
      DeferStartKeeps(k);
      ExceptOk(t, s);
      DrainFrees(t, s, d, p);
      DrainKeeps(t, s, d);
      var u := Drain(t, s, d);
      SemChanged(u, s, Sem(true, n), u.nextsem);
      var v := SetCount(u, s, n);
      assert v == u.(sems := u.sems[s := Sem(true, n)], nextsem := u.nextsem);
      SettledOk(v, s);
      DeferStopSpares(v, p, -1);
    }
  }

  lemma DeleteStates(k: K, s: nat, p: nat)
    requires Inv(k) && s < NSEM && k.sems[s].used && p < NPROC
    ensures Sized(k)
    ensures SemDelete(k, s).0.procs[p].prstate in
              if p in k.lists[s] then Runnable() else Staying(k.procs[p])
  {
    hide Inv, Mid, DeferStop, SemDelete, Doomed, SignalMany;
    InvSized(k);
    if p !in k.lists[s] {
      SemDeleteSpares(k, s, p, -1);
    } else {
      Deleting(k, s);
      DoomedOk(k, s);
      SignalDrainFrees(Doomed(k, s), s, |k.lists[s]|, p);
      var v := Emptied(k, s);
      SemDropped(v, s);
      DeferStopSpares(SetCount(v, s, Bump(v.sems[s].count)), p, -1);
    }
  }

  lemma StaysSame(k: K, p: nat)
    requires Sized(k) && p < NPROC
    ensures k.procs[p].prstate in Staying(k.procs[p])
  {
  }

  lemma SemaphoreStates(k: K, e: Step, p: nat)
    requires Inv(k) && Enabled(k, e) && OnSemaphores(e) && p < NPROC
    ensures Released(k, e, p) ==> Able(Do(k, e).procs[p])
    ensures p == k.currpid && Stops(k, e, PR_WAIT) ==> Do(k, e).procs[p].prstate == PR_WAIT
    ensures !Released(k, e, p) && !(p == k.currpid && Stops(k, e, PR_WAIT)) ==>
              Do(k, e).procs[p].prstate in Staying(k.procs[p])
  {
    hide Inv, Wait, SignalOne, SignalN, SemDelete, SemReset, DeferStop;
    StaysSame(k, p);
    if e.DoUndefer? {
      DeferStopSpares(k, p, -1);
    } else if e.DoWait? && 0 <= e.s < NSEM && k.sems[e.s].used {
      WaitStates(k, e.s, p);
    } else if e.DoSignal? && 0 <= e.s < NSEM && k.sems[e.s].used {
      SignalStates(k, e.s, p);
    } else if e.DoSignalN? && 0 <= e.s < NSEM && k.sems[e.s].used && e.n >= 0 {
      SignalNStates(k, e.s, e.n, p);
    } else if e.DoSemDelete? && 0 <= e.s < NSEM && k.sems[e.s].used {
      DeleteStates(k, e.s, p);
    } else if e.DoSemReset? && 0 <= e.s < NSEM && k.sems[e.s].used && e.n >= 0 {
      ResetStates(k, e.s, e.n, p);
    } else {
      Unmoved(k, e);
    }
  }

  /** Refused, or no matter of processes. */
  lemma Unmoved(k: K, e: Step)
    requires Enabled(k, e) && OnSemaphores(e) && !e.DoUndefer?
    requires e.DoSemCreate? || e.DoDefer? || !(0 <= e.s < NSEM && k.sems[e.s].used)
             || ((e.DoSignalN? || e.DoSemReset?) && e.n < 0)
    ensures Do(k, e).procs == k.procs
  {
    hide Resched, SignalOne, SignalMany, Drain, DeferStop;
  }

  // ---- the clock ----

  /** A sleeper that is still asleep after wakeup never was awake. */
  lemma {:induction false} StaysAsleep(k: K, n: nat, q: nat)
    requires Waking(k) && n == Due(k.lists[SQ], k.keys) && q < NPROC && Sleeps(Drain(k, SQ, n), q)
    ensures SameProc(k.procs[q], Drain(k, SQ, n).procs[q])
    decreases n
  {
    hide Waking, Core, Sized, ReadyHead, Steady, AwakeOk, Due, Drain, Sleeps;
    WakingSized(k);
    if n == 0 {
      DrainNone(k);
    } else {
      OneLessDue(k);
      WakeHead(k);
      DrainOne(k, n);
      var t := ReadyHead(k, SQ);
      if q == k.lists[SQ][0] {
        NotAsleep(k, n);
      } else {
        WakeHeadSpares(k, q, -1);
        StaysAsleep(t, n - 1, q);
      }
    }
  }

  /** The first whose time is up is awake afterwards. */
  lemma NotAsleep(k: K, n: nat)
    requires Waking(k) && n == Due(k.lists[SQ], k.keys) > 0
    ensures Sized(k) && !Sleeps(Drain(k, SQ, n), k.lists[SQ][0])
  {
    hide Waking, Core, Sized, ReadyHead, Steady, AwakeOk, Due, Drain, Sleeps;
    WakingSized(k);
    OneLessDue(k);
    WakeHead(k);
    DrainOne(k, n);
    HeadFloats(k);
    WakeHeadSpares(k, -2, -1);
    var t, q := ReadyHead(k, SQ), k.lists[SQ][0];
    WakingSized(t);
    Awake(t, q);
    WakeSpares(t, n - 1, q, -1);
    WakeAll(k, n);
    WakingSized(Drain(k, SQ, n));
    Awake(Drain(k, SQ, n), q);
  }

  lemma Awake(k: K, q: nat)
    requires Core(k, -1, -1) && q < NPROC && Able(k.procs[q])
    ensures Sized(k) && q !in k.lists[SQ] && !Sleeps(k, q)
  {
  }

  lemma WakeupStates(k: K, q: nat)
    requires Waking(k) && Due(k.lists[SQ], k.keys) > 0 && q < NPROC
    requires Sleeps(k, q) ==> Sleeps(Wakeup(k), q)
    ensures Sized(k) && SameProc(k.procs[q], Wakeup(k).procs[q])
  {
    hide Waking, Wakeup, Due;
    WakingSized(k);
    if Sleeps(k, q) {
      SleeperStays(k, q);
    } else {
      WakeupSpares(k, q, -1);
    }
  }

  lemma SleeperStays(k: K, q: nat)
    requires Waking(k) && Due(k.lists[SQ], k.keys) > 0 && q < NPROC && Sleeps(Wakeup(k), q)
    ensures Sized(k) && SameProc(k.procs[q], Wakeup(k).procs[q])
  {
    var t, n := DeferStart(k), Due(k.lists[SQ], k.keys);
    DeferralOk(k, -1, -1, t.ndefers, t.attempt);
    hide Core, DeferStop, Due;
    WakeAll(t, n);
    var u := Drain(t, SQ, n);
    DeferStopSpares(u, q, -1);
    StaysAsleep(t, n, q);
  }

  /** A tick wakes only those who are not asleep afterwards. */
  lemma TickStates(k: K, q: nat)
    requires Inv(k) && k.ctx[k.currpid] == Nothing && q < NPROC && (Sleeps(k, q) ==> Sleeps(Tick(k), q))
    ensures Sized(k) && SameProc(k.procs[q], Tick(k).procs[q])
  {
    hide Inv, Core, Wakeup, Waking, Due;
    InvSized(k);
    if |k.lists[SQ]| > 0 {
      TickIs(k);
      TickedOk(k);
      hide Tick;
      if Due(Ticked(k).lists[SQ], Ticked(k).keys) > 0 {
        WakeupStates(Ticked(k), q);
      }
    }
  }

  /** p is asleep, and its time is up with this tick. */
  ghost predicate Rings(k: K, e: Step, p: nat)
    requires Sized(k)
  {
    e == ClockTick && Sleeps(k, p) && TicksLeft(k, p) <= if Prompt(k) then 1 else 0
  }

  lemma ClockStates(k: K, p: nat)
    requires Inv(k) && Enabled(k, ClockTick) && p < NPROC
    ensures Sized(k)
    ensures Do(k, ClockTick).procs[p].prstate in
              if Rings(k, ClockTick, p) then Runnable() else Staying(k.procs[p])
  {
    hide Inv, Tick, TicksLeft, Prompt, Sleeps;
    InvSized(k);
    if Sleeps(k, p) {
      TickExactly(k, p);
    }
    if !Rings(k, ClockTick, p) {
      TickStates(k, p);
    }
  }

  // ---- messages and processes ----

  lemma SendStates(k: K, p: int, msg: int, q: nat)
    requires Inv(k) && q < NPROC
    ensures Sized(k)
    ensures Send(k, p, msg).0.procs[q].prstate in
              if q == p && k.procs[q].prstate in {PR_RECV, PR_RECTIM} then Runnable() else Staying(k.procs[q])
  {
    hide Inv, Core, Ready, Unsleep, AwakeOk, Steady;
    InvSized(k);
    if q != p {
      SendSpares(k, p, msg, q, -1);
    } else if k.procs[q].prstate in {PR_RECV, PR_RECTIM} {
      WaitersAccept(k, q);
      var pr := k.procs[p].(prmsg := msg, prhasmsg := true);
      var t := k.(procs := k.procs[p := pr]);
      Deliverable(k, p, pr);
      if k.procs[p].prstate == PR_RECV {
        SentWaiter(k, p, pr);
        ReadySpares(t, -1, p, -2, -1);
      } else {
        SentSleeper(k, p, pr);
        ReadySpares(Unsleep(t, p).0, -1, p, -2, -1);
      }
    }
  }

  /** Who waits for a message has none. */
  lemma WaitersAccept(k: K, p: nat)
    requires Inv(k) && p < NPROC && k.procs[p].prstate in {PR_RECV, PR_RECTIM}
    ensures Sized(k) && Accepts(k, p)
  {
    hide MembersOf, SemsOf, ReadyOf, Delays;
    About(k, -1, p);
  }

  /** The current process, having gone into a state in which it cannot run, loses the processor. */
  lemma Halts(k: K)
    requires Core(k, -1, -1) && k.ndefers == 0 && k.procs[k.currpid].prstate !in Runnable()
    ensures Sized(k) && Resched(k).procs[k.currpid].prstate == k.procs[k.currpid].prstate
  {
    CoreSized(k, -1, -1);
    ReschedSpares(k, k.currpid, -1);
    hide Core, Resched;
  }

  lemma ReceiveStates(k: K, q: nat)
    requires Inv(k) && (CanBlock(k) || k.procs[k.currpid].prhasmsg) && q < NPROC
    ensures Sized(k)
    ensures Receive(k).procs[q].prstate in
              if q == k.currpid && !k.procs[q].prhasmsg then {PR_RECV} else Staying(k.procs[q])
  {
    hide MembersOf, StatesOf, SemsOf, ReadyOf, Delays;
    InvSized(k);
    if q != k.currpid {
      hide Receive, Core, CanBlock;
      ReceiveSpares(k, q, -1);
    } else if !k.procs[q].prhasmsg {
      StopCore(k, PR_RECV, Receiving);
      hide Core, Resched;
      Halts(SetState(SetCtx(k, Receiving), q, PR_RECV));
    }
  }

  lemma DozeStates(k: K, d: int, st: PrState, c: Ctx, q: nat)
    requires Inv(k) && CanBlock(k) && 0 <= d <= MAXKEY && q < NPROC
    requires (st == PR_SLEEP && c == Nothing)
             || (st == PR_RECTIM && c == TimedReceiving && !k.procs[k.currpid].prhasmsg)
    ensures Sized(k)
    ensures Resched(Asleep(SetCtx(k, c), d, st)).procs[q].prstate in
              if q == k.currpid then {st} else Staying(k.procs[q])
  {
    hide Inv, Core, Resched, PutAt, DPlace, DKeys;
    InvSized(k);
    if q != k.currpid {
      hide Asleep, CanBlock;
      DozeSpares(k, d, st, c, q, -1);
    } else {
      DozeSpares(k, d, st, c, -2, -1);
      Halts(Asleep(SetCtx(k, c), d, st));
    }
  }

  lemma SuspendStates(k: K, p: int, q: nat)
    requires Inv(k) && (p == k.currpid ==> k.ndefers == 0) && q < NPROC
    ensures Sized(k)
    ensures Suspend(k, p).0.procs[q].prstate in
              if q == p != 0 && k.procs[q].prstate in Runnable() then {PR_SUSP} else Staying(k.procs[q])
  {
    hide MembersOf, StatesOf, SemsOf, ReadyOf, Delays;
    InvSized(k);
    if q != p {
      hide Suspend, Core;
      SuspendSpares(k, p, q, -1);
    } else if p != NULLPROC && k.procs[p].prstate == PR_CURR {
      About(k, -1, p);
      StopCore(k, PR_SUSP, k.ctx[p]);
      assert SetCtx(k, k.ctx[p]).ctx == k.ctx;
      assert SetState(SetCtx(k, k.ctx[p]), p, PR_SUSP) == SetState(k, p, PR_SUSP);
      hide Core, Resched;
      Halts(SetState(k, p, PR_SUSP));
    } else {
      hide Core, Resched;
    }
  }

  lemma ResumeStates(k: K, p: int, q: nat)
    requires Inv(k) && q < NPROC
    ensures Sized(k)
    ensures Resume(k, p).0.procs[q].prstate in
              if q == p && k.procs[q].prstate == PR_SUSP then Runnable() else Staying(k.procs[q])
  {
    InvSized(k);
    if q != p {
      hide Inv, Resume;
      ResumeSpares(k, p, q, -1);
    } else if k.procs[p].prstate == PR_SUSP {
      hide MembersOf, StatesOf, SemsOf, ReadyOf, Delays, Ready, Steady;
      About(k, -1, p);
      LiftOk(k, -1, p);
      hide Core;
      ReadySpares(k, -1, p, -2, -1);
    } else {
      hide Inv, Ready;
    }
  }

  lemma KillStates(k: K, p: nat, q: nat)
    requires Inv(k) && Enabled(k, EndKill(p)) && q < NPROC
    ensures Sized(k)
    ensures KillEnd(k, p).procs[q].prstate in if q == p then {PR_FREE} else Staying(k.procs[q])
  {
    hide MembersOf, StatesOf, SemsOf, ReadyOf, Delays;
    InvSized(k);
    About(k, -1, p);
    if k.procs[p].prstate == PR_CURR {
      CtxKeeps(k, Nothing);
      var t := SetCtx(k, Nothing);
      StopCore(t, PR_FREE, Nothing);
      assert SetState(SetCtx(t, Nothing), p, PR_FREE) == Freed(t, p);
      hide Core, Resched;
      Halts(Freed(t, p));
      ReschedSpares(Freed(t, p), q, -1);
    } else {
      hide Core, CutAt;
      KillEdits(k, p);
      KilledIs(k, p);
    }
  }

  lemma KilledIs(k: K, p: nat)
    requires Sized(k) && p < NPROC && k.procs[p].prstate != PR_CURR
    requires k.procs[p].prstate == PR_WAIT ==> 0 <= k.procs[p].prsem < NSEM
    ensures KillEnd(k, p).procs[p].prstate == PR_FREE
  {
    hide CutAt;
  }

  // ---- the diagram ----

  /** The states in which p may be after the step. */
  ghost function NextStates(k: K, e: Step, p: nat): set<PrState>
    requires Sized(k) && p < NPROC
  {
    var pr := k.procs[p];
    if Released(k, e, p) || Rings(k, e, p) then Runnable()
    else if Told(k, e, p) && pr.prstate in {PR_RECV, PR_RECTIM} then Runnable()
    else if e == DoResume(p) && pr.prstate == PR_SUSP then Runnable()
    else if p == k.currpid && Stops(k, e, PR_WAIT) then {PR_WAIT}
    else if p == k.currpid && Stops(k, e, PR_RECV) then {PR_RECV}
    else if p == k.currpid && Stops(k, e, PR_RECTIM) then {PR_RECTIM}
    else if p == k.currpid && Stops(k, e, PR_SLEEP) then {PR_SLEEP}
    else if e == DoSuspend(p) && p != 0 && pr.prstate in Runnable() then {PR_SUSP}
    else if Makes(k, e, p) then {PR_SUSP}
    else if e == EndKill(p) then {PR_FREE}
    else Staying(pr)
  }

  lemma MessageStates(k: K, e: Step, p: nat)
    requires Inv(k) && Enabled(k, e) && OnMessages(e) && p < NPROC
    ensures Do(k, e).procs[p].prstate in NextStates(k, e, p)
  {
    hide Inv, Resched, Send, Receive, Asleep, CanBlock;
    InvSized(k);
    StaysSame(k, p);
    match e {
      case DoSend(q, msg) => SendStates(k, q, msg, p);
      case DoReceive => ReceiveStates(k, p);
      case EndReceive =>
      case DoRecvTime(d) =>
        if d >= 0 && !k.procs[k.currpid].prhasmsg {
          DozeStates(k, d, PR_RECTIM, TimedReceiving, p);
        }
      case EndRecvTime =>
    }
  }

  lemma SleepStates(k: K, d: int, p: nat)
    requires Inv(k) && Enabled(k, DoSleepMs(d)) && p < NPROC
    ensures Do(k, DoSleepMs(d)).procs[p].prstate in NextStates(k, DoSleepMs(d), p)
  {
    hide Inv, Resched, Asleep, CanBlock;
    InvSized(k);
    StaysSame(k, p);
    YieldStates(k, p);
    if d > 0 {
      DozeStates(k, d, PR_SLEEP, Nothing, p);
      assert SetCtx(k, Nothing).ctx == k.ctx;
    }
  }

  lemma TellStates(k: K, q: int, p: nat)
    requires Inv(k) && Enabled(k, DoKill(q)) && p < NPROC
    ensures Do(k, DoKill(q)).procs[p].prstate in NextStates(k, DoKill(q), p)
  {
    hide Inv, Send;
    InvSized(k);
    StaysSame(k, p);
    if 0 < q < NPROC {
      CtxKeeps(k, Killing(q));
      SendStates(SetCtx(k, Killing(q)), k.procs[q].prparent, q, p);
    }
  }

  lemma OtherStates(k: K, e: Step, p: nat)
    requires Inv(k) && Enabled(k, e) && !OnSemaphores(e) && !OnMessages(e) && e != ClockTick && p < NPROC
    ensures Do(k, e).procs[p].prstate in NextStates(k, e, p)
  {
    hide Inv, Resched, SleepMs, KillBegin, Suspend, Resume, KillEnd, Create, Slice, CanBlock;
    InvSized(k);
    match e {
      case DoCreate(prio, gotstack) => CreateStates(k, prio, gotstack, p);
      case DoResume(q) => ResumeStates(k, q, p);
      case DoSuspend(q) => SuspendStates(k, q, p);
      case DoYield => YieldStates(k, p);
      case DoSleepMs(d) => SleepStates(k, d, p);
      case DoKill(q) => TellStates(k, q, p);
      case EndKill(q) => KillStates(k, q, p);
      case ClockRest => RestStates(k, p);
    }
  }

  lemma YieldStates(k: K, p: nat)
    requires Inv(k) && p < NPROC
    ensures Sized(k) && Resched(k).procs[p].prstate in Staying(k.procs[p])
  {
    CurrentAble(k);
    ReschedSpares(k, p, -1);
  }

  lemma CreateStates(k: K, prio: pri16, gotstack: bool, p: nat)
    requires Sized(k) && p < NPROC
    ensures Create(k, prio, gotstack).0.procs[p].prstate in
              if Create(k, prio, gotstack).1 == p then {PR_SUSP} else Staying(k.procs[p])
  {
    hide FindPid;
  }

  lemma RestStates(k: K, p: nat)
    requires Inv(k) && p < NPROC
    ensures Sized(k) && Slice(k).procs[p].prstate in Staying(k.procs[p])
  {
    hide MembersOf, StatesOf, SemsOf, ReadyOf, Delays;
    CtxKeeps(k, Nothing);
    var t := SetCtx(k, Nothing).(preempt := QUANTUM);
    assert Core(t, -1, -1);
    if k.preempt <= 1 {
      hide Core, Resched;
      ReschedSpares(t, p, -1);
    }
  }

  /** Every step moves every process along the diagram: one that is let go, told, resumed or woken
      can run; one that has to wait waits; suspend, create and kill do what they say; and
      nobody else moves. */
  lemma StepStates(k: K, e: Step, p: nat)
    requires Inv(k) && Enabled(k, e) && p < NPROC
    ensures Do(k, e).procs[p].prstate in NextStates(k, e, p)
  {
    hide Inv, Do;
    if OnSemaphores(e) {
      SemaphoreStates(k, e, p);
    } else if e == ClockTick {
      ClockStates(k, p);
    } else if OnMessages(e) {
      MessageStates(k, e, p);
    } else {
      OtherStates(k, e, p);
    }
  }
}
