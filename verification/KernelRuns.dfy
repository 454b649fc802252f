/** Runs of the process manager: any sequence of calls by whatever process is current,
    with clock interrupts in between. */
module KernelRuns {
  import opened KernelQueues
  import opened KernelSleep
  import opened KernelSpec
  import opened KernelInv
  import opened KernelCalls
  import opened KernelProcs
  import opened KernelFrame
  import Tables = KernelTables

  /** One step: a call, the rest of a call that lost the processor, or the clock. */
  datatype Step =
    | DoWait(s: int) | DoSignal(s: int) | DoSignalN(s: int, n: int)
    | DoSemCreate(n: int) | DoSemDelete(s: int) | DoSemReset(s: int, n: int)
    | DoCreate(prio: pri16, gotstack: bool) | DoResume(p: int) | DoSuspend(p: int) | DoYield
    | DoSend(p: int, msg: int) | DoReceive | EndReceive | DoRecvTime(d: int) | EndRecvTime | DoSleepMs(d: int)
    | DoKill(p: int) | EndKill(p: int) | DoDefer | DoUndefer | ClockTick | ClockRest

  /** When the source allows the step: the process is at that point, it may block if the
      call can, and counts stay within 32 bits. */
  ghost predicate Enabled(k: K, e: Step) {
    Sized(k) &&
    var c := k.ctx[k.currpid];
    match e
    case DoWait(s) => c == Nothing && (CanBlock(k) || (0 <= s < NSEM && k.sems[s].count > 0))
    case DoSignal(s) => c == Nothing && (0 <= s < NSEM && k.sems[s].used ==> k.sems[s].count < MAXCOUNT)
    case DoSignalN(s, n) => c == Nothing && (0 <= s < NSEM && k.sems[s].used ==> k.sems[s].count + n <= MAXCOUNT)
    case DoSemCreate(n) => c == Nothing && n <= MAXCOUNT
    case DoSemReset(s, n) => c == Nothing && n <= MAXCOUNT
    case DoSuspend(p) => c == Nothing && (p == k.currpid ==> k.ndefers == 0)
    case DoReceive => c == Nothing && (CanBlock(k) || k.procs[k.currpid].prhasmsg)
    case EndReceive => c == Receiving
    case DoRecvTime(d) => c == Nothing && d <= MAXKEY && (CanBlock(k) || k.procs[k.currpid].prhasmsg)
    case EndRecvTime => c == TimedReceiving
    case DoSleepMs(d) => c == Nothing && d <= MAXKEY && CanBlock(k)
    case EndKill(p) => 0 < p < NPROC && c == Killing(p) && (p == k.currpid ==> k.ndefers == 0)
    case ClockRest => c == InClock
    case _ => c == Nothing
  }

  ghost function Do(k: K, e: Step): (t: K)
    requires Enabled(k, e)
    ensures Sized(t)
  {
    match e
    case DoWait(s) => Wait(k, s).0
    case DoSignal(s) => Signal(k, s).0
    case DoSignalN(s, n) => SignalN(k, s, n).0
    case DoSemCreate(n) => SemCreate(k, n).0
    case DoSemDelete(s) => SemDelete(k, s).0
    case DoSemReset(s, n) => SemReset(k, s, n).0
    case DoCreate(prio, gotstack) => Create(k, prio, gotstack).0
    case DoResume(p) => Resume(k, p).0
    case DoSuspend(p) => Suspend(k, p).0
    case DoYield => Resched(k)
    case DoSend(p, msg) => Send(k, p, msg).0
    case DoReceive => Receive(k)
    case EndReceive => Take(k)
    case DoRecvTime(d) => RecvTime(k, d)
    case EndRecvTime => if k.procs[k.currpid].prhasmsg then Take(k) else SetCtx(k, Nothing)
    case DoSleepMs(d) => SleepMs(k, d)
    case DoKill(p) => KillBegin(k, p)
    case EndKill(p) => KillEnd(k, p)
    case DoDefer => DeferStart(k)
    case DoUndefer => DeferStop(k)
    case ClockTick => Tick(k)
    case ClockRest => Slice(k)
  }

  /** Every step keeps the invariant. */
  lemma StepKeeps(k: K, e: Step)
    requires Inv(k) && Enabled(k, e)
    ensures Inv(Do(k, e))
  {
    hide MembersOf, StatesOf, SemsOf, ReadyOf, Delays, Wait, SignalN, SemCreate, SemDelete, SemReset, Create, Resume,
      Suspend, Resched, Send, Receive, Take, RecvTime, SleepMs, KillBegin, KillEnd, DeferStop, Tick, Slice;
    About(k, -1, k.currpid);
    match e {
      case DoWait(s) => WaitKeeps(k, s);
      case DoSignal(s) =>
        if 0 <= s < NSEM && k.sems[s].used {
          SignalStep(k, s);
        }
      case DoSignalN(s, n) => SignalNKeeps(k, s, n);
      case DoSemCreate(n) => SemCreateKeeps(k, n);
      case DoSemDelete(s) => SemDeleteKeeps(k, s);
      case DoSemReset(s, n) => SemResetKeeps(k, s, n);
      case DoCreate(prio, gotstack) => CreateKeeps(k, prio, gotstack);
      case DoResume(p) => ResumeKeeps(k, p);
      case DoSuspend(p) => SuspendKeeps(k, p);
      case DoYield => ReschedKeeps(k, -1);
      case DoSend(p, msg) => SendKeeps(k, p, msg);
      case DoReceive => ReceiveKeeps(k);
      case EndReceive => TakeKeeps(k);
      case DoRecvTime(d) => RecvTimeKeeps(k, d);
      case EndRecvTime => TakeKeeps(k); CtxKeeps(k, Nothing);
      case DoSleepMs(d) => SleepMsKeeps(k, d);
      case DoKill(p) => KillBeginKeeps(k, p);
      case EndKill(p) => KillEndKeeps(k, p);
      case DoDefer => DeferStartKeeps(k);
      case DoUndefer => DeferStopKeeps(k);
      case ClockTick => TickKeeps(k);
      case ClockRest => SliceKeeps(k);
    }
  }

  /** The step is a call on semaphores, or the deferral of rescheduling. */
  predicate OnSemaphores(e: Step) {
    e.DoWait? || e.DoSignal? || e.DoSignalN? || e.DoSemCreate? || e.DoSemDelete? || e.DoSemReset? || e.DoDefer?
      || e.DoUndefer?
  }

  /** The step is a call that sends or receives. */
  predicate OnMessages(e: Step) {
    e.DoSend? || e.DoReceive? || e.EndReceive? || e.DoRecvTime? || e.EndRecvTime?
  }

  /** The step as the tables take it. */
  method Perform(m: Tables.Kernel, e: Step)
    requires m.Shape() && Inv(m.S()) && Enabled(m.S(), e)
    modifies m, m.q, m.q.qkey, m.q.qnext, m.q.qprev, m.proctab, m.semtab
    ensures m.Shape() && m.S() == Do(old(m.S()), e) && Inv(m.S())
  {
    hide Inv, Tables.Kernel.S, Do, Enabled;
    StepKeeps(m.S(), e);
    if OnSemaphores(e) {
      PerformOnSemaphores(m, e);
    } else if OnMessages(e) {
      PerformOnMessages(m, e);
    } else {
      PerformOther(m, e);
    }
  }

  method PerformOnSemaphores(m: Tables.Kernel, e: Step)
    requires m.Shape() && Inv(m.S()) && Enabled(m.S(), e) && OnSemaphores(e)
    modifies m, m.q, m.q.qkey, m.q.qnext, m.q.qprev, m.proctab, m.semtab
    ensures m.Shape() && m.S() == Do(old(m.S()), e)
  {
    hide Inv, Tables.Kernel.S, Wait, Signal, SignalN, SemCreate, SemDelete, SemReset, DeferStart, DeferStop;
    m.Facing();
    match e {
      case DoWait(s) => var r := m.Wait(s);
      case DoSignal(s) => var r := m.Signal(s);
      case DoSignalN(s, n) => var r := m.SignalN(s, n);
      case DoSemCreate(n) => var r := m.SemCreate(n);
      case DoSemDelete(s) => var r := m.SemDelete(s);
      case DoSemReset(s, n) => var r := m.SemReset(s, n);
      case DoDefer => m.DeferStart();
      case DoUndefer => var r := m.DeferStop();
    }
  }

  method PerformOnMessages(m: Tables.Kernel, e: Step)
    requires m.Shape() && Inv(m.S()) && Enabled(m.S(), e) && OnMessages(e)
    modifies m, m.q, m.q.qkey, m.q.qnext, m.q.qprev, m.proctab, m.semtab
    ensures m.Shape() && m.S() == Do(old(m.S()), e)
  {
    hide Inv, Tables.Kernel.S, Send, Receive, Take, RecvTime;
    m.Facing();
    match e {
      case DoSend(p, msg) => var r := m.Send(p, msg);
      case DoReceive => var done, msg := m.Receive();
      case EndReceive => var msg := m.ReceiveResumed();
      case DoRecvTime(d) => var done, msg := m.RecvTime(d);
      case EndRecvTime => var msg := m.RecvTimeResumed();
    }
  }

  lemma CurrentMsgOk(k: K)
    requires Inv(k)
    ensures Core(k, -1, -1) && Sized(k) && k.procs[k.currpid].prstate == PR_CURR
            && MsgOk(k.procs[k.currpid], k.ctx[k.currpid])
  {
    About(k, -1, k.currpid);
  }

  method PerformOther(m: Tables.Kernel, e: Step)
    requires m.Shape() && Inv(m.S()) && Enabled(m.S(), e) && !OnSemaphores(e) && !OnMessages(e)
    modifies m, m.q, m.q.qkey, m.q.qnext, m.q.qprev, m.proctab, m.semtab
    ensures m.Shape() && m.S() == Do(old(m.S()), e)
  {
    hide Inv, Core, Tables.Kernel.S, Create, Resume, Suspend, Resched, SleepMs, KillBegin, KillEnd, Tick, Slice;
    m.Facing();
    CurrentMsgOk(m.S());
    match e {
      case DoCreate(prio, gotstack) => var r := m.Create(prio, gotstack);
      case DoResume(p) => var r := m.Resume(p);
      case DoSuspend(p) => var r := m.Suspend(p);
      case DoYield => m.Resched(-1);
      case DoSleepMs(d) => var r := m.SleepMs(d);
      case DoKill(p) => var r := m.KillBegin(p);
      case EndKill(p) => m.KillEnd(p);
      case ClockTick => m.ClkHandler();
      case ClockRest => m.ClkRest();
    }
  }

  lemma CoreOf(k: K)
    requires Inv(k)
    ensures Core(k, -1, -1)
  {
  }

  /** Every step of the run is allowed when it comes. */
  ghost predicate Runs(k: K, es: seq<Step>)
    decreases |es|
  {
    |es| == 0 || (Enabled(k, es[0]) && Runs(Do(k, es[0]), es[1..]))
  }

  ghost function After(k: K, es: seq<Step>): (t: K)
    requires Runs(k, es)
    ensures |es| > 0 ==> Sized(t)
    decreases |es|
  {
    if |es| == 0 then k else After(Do(k, es[0]), es[1..])
  }

  /** The invariant holds after any run. */
  lemma {:induction false} RunKeeps(k: K, es: seq<Step>)
    requires Inv(k) && Runs(k, es)
    ensures Inv(After(k, es))
    decreases |es|
  {
    hide Inv, Enabled, Do;
    if |es| > 0 {
      StepKeeps(k, es[0]);
      RunKeeps(Do(k, es[0]), es[1..]);
    }
  }

  /** What that means, from the start of the system on, in terms of the tables alone. */
  lemma AlwaysSafe(es: seq<Step>)
    requires Runs(Tables.Booted(), es)
    ensures var k := After(Tables.Booted(), es);
            && Sized(k)
            // exactly one process is current, it is not a free entry, and no ready one comes before it
            && (forall p :: 0 <= p < NPROC ==> (k.procs[p].prstate == PR_CURR <==> p == k.currpid))
            && (k.ndefers == 0 ==>
                  forall p :: 0 <= p < NPROC && k.procs[p].prstate == PR_READY ==>
                    k.procs[p].prprio <= k.procs[k.currpid].prprio)
            // the null process can always run, so resched finds somebody
            && (k.procs[NULLPROC].prstate == PR_CURR || k.procs[NULLPROC].prstate == PR_READY)
            // lists are disjoint, and a process is on the one that its state says, once
            && (forall i :: 0 <= i < NLISTS ==> Once(k.lists[i]))
            && (forall i, p {:trigger p in k.lists[i]} :: 0 <= i < NLISTS && 0 <= p < NPROC ==>
                  (p in k.lists[i] <==> Home(k.procs[p]) == i))
            // a negative count is the number of those who wait, and otherwise nobody does
            && (forall s :: 0 <= s < NSEM ==>
                  |k.lists[s]| == if k.sems[s].used && k.sems[s].count < 0 then -k.sems[s].count else 0)
            // nobody waits for a message that has arrived
            && (forall p :: 0 <= p < NPROC && k.procs[p].prstate in {PR_RECV, PR_RECTIM} ==> !k.procs[p].prhasmsg)
  {
    Tables.BootedOk();
    RunKeeps(Tables.Booted(), es);
    var k := After(Tables.Booted(), es);
    hide After, Runs, SemsOf, ReadyOf, Delays;
    forall s | 0 <= s < NSEM
      ensures |k.lists[s]| == Waiting(k.sems[s])
    {
      SemIs(k, s);
    }
  }
}
