/** What happens to the records of processes: that only sending, taking, and making a process
    anew touch more of one than its state, and so that what is received is what was sent. */
module KernelMail {
  import opened KernelQueues
  import opened KernelSpec
  import opened KernelInv
  import opened KernelRuns
  import Tables = KernelTables

  /** Of every record at most the state, and the semaphore that is waited on, is different. */
  ghost predicate Kept(a: seq<Proc>, b: seq<Proc>) {
    |b| == |a| && forall p :: 0 <= p < |a| ==> b[p] == a[p].(prstate := b[p].prstate, prsem := b[p].prsem)
  }

  lemma ReschedKept(k: K)
    requires Sized(k)
    ensures Kept(k.procs, Resched(k).procs)
  {
    hide PutAt, Place;
    assert Kept(k.procs, Enready(k, k.currpid).procs);
  }

  lemma ReadyKept(k: K, p: int)
    requires Sized(k)
    ensures Kept(k.procs, Ready(k, p).procs)
  {
    hide PutAt, Place, Resched;
    if !BadPid(k, p) {
      ReschedKept(Enready(k, p));
    }
  }

  lemma ReadyHeadKept(k: K, i: nat)
    requires Sized(k) && i < NLISTS
    ensures Kept(k.procs, ReadyHead(k, i).procs)
  {
    hide Ready;
    if |k.lists[i]| > 0 {
      ReadyKept(SetList(k, i, k.lists[i][1..]), k.lists[i][0]);
    }
  }

  lemma SignalOneKept(k: K, s: nat)
    requires Sized(k) && s < NSEM
    ensures Kept(k.procs, SignalOne(k, s).procs)
  {
    hide ReadyHead;
    ReadyHeadKept(SetCount(k, s, Bump(k.sems[s].count)), s);
  }

  lemma {:induction false} SignalManyKept(k: K, s: nat, n: nat)
    requires Sized(k) && s < NSEM
    ensures Kept(k.procs, SignalMany(k, s, n).procs)
    decreases n
  {
    hide SignalOne;
    if n > 0 {
      SignalOneKept(k, s);
      SignalManyKept(SignalOne(k, s), s, n - 1);
    }
  }

  lemma {:induction false} DrainKept(k: K, i: nat, n: nat)
    requires Sized(k) && i < NLISTS
    ensures Kept(k.procs, Drain(k, i, n).procs)
    decreases n
  {
    hide ReadyHead;
    if n > 0 {
      ReadyHeadKept(k, i);
      DrainKept(ReadyHead(k, i), i, n - 1);
    }
  }

  lemma DeferStopKept(k: K)
    requires Sized(k)
    ensures Kept(k.procs, DeferStop(k).procs)
  {
    hide Resched;
    ReschedKept(k.(ndefers := 0));
  }

  lemma BlockKept(k: K, st: PrState)
    requires Sized(k)
    ensures Kept(k.procs, Block(k, st).procs)
  {
    hide Resched;
    ReschedKept(SetState(k, k.currpid, st));
  }

  lemma WaitKept(k: K, s: int)
    requires Sized(k)
    ensures Kept(k.procs, Wait(k, s).0.procs)
  {
    hide Resched;
    if 0 <= s < NSEM {
      ReschedKept(Enqueued(SetCount(k, s, k.sems[s].count - 1), s));
    }
  }

  lemma SignalKept(k: K, s: int)
    requires Sized(k)
    ensures Kept(k.procs, Signal(k, s).0.procs)
  {
    hide SignalOne;
    if 0 <= s < NSEM {
      SignalOneKept(k, s);
    }
  }

  lemma SignalNKept(k: K, s: int, n: int)
    requires Sized(k)
    ensures Kept(k.procs, SignalN(k, s, n).0.procs)
  {
    hide SignalMany, DeferStop;
    if 0 <= s < NSEM && n >= 0 {
      SignalManyKept(DeferStart(k), s, n);
      DeferStopKept(SignalMany(DeferStart(k), s, n));
    }
  }

  lemma SemDeleteKept(k: K, s: int)
    requires Sized(k)
    ensures Kept(k.procs, SemDelete(k, s).0.procs)
  {
    hide SignalMany, DeferStop;
    if 0 <= s < NSEM {
      var c := k.sems[s].count;
      var t, n := DeferStart(k.(sems := k.sems[s := Sem(false, c)])), if c < 0 then -c else 0;
      SignalManyKept(t, s, n);
      var u := SignalMany(t, s, n);
      DeferStopKept(SetCount(u, s, Bump(u.sems[s].count)));
    }
  }

  lemma SemResetKept(k: K, s: int, n: int)
    requires Sized(k)
    ensures Kept(k.procs, SemReset(k, s, n).0.procs)
  {
    hide Drain, DeferStop;
    if 0 <= s < NSEM {
      DrainKept(DeferStart(k), s, |k.lists[s]|);
      DeferStopKept(SetCount(Drain(DeferStart(k), s, |k.lists[s]|), s, n));
    }
  }

  lemma SemaphoresKept(k: K, e: Step)
    requires Enabled(k, e) && OnSemaphores(e)
    ensures Kept(k.procs, Do(k, e).procs)
  {
    hide Wait, Signal, SignalN, SemDelete, SemReset, DeferStop;
    match e {
      case DoWait(s) => WaitKept(k, s);
      case DoSignal(s) => SignalKept(k, s);
      case DoSignalN(s, n) => SignalNKept(k, s, n);
      case DoSemDelete(s) => SemDeleteKept(k, s);
      case DoSemReset(s, n) => SemResetKept(k, s, n);
      case DoUndefer => DeferStopKept(k);
      case _ =>
    }
  }

  // ---- messages ----

  /** The message that a process has, if it has one. */
  function Mail(pr: Proc): seq<int> {
    if pr.prhasmsg then [pr.prmsg] else []
  }

  /** There is such a process, and it has no message. */
  ghost predicate Accepts(k: K, p: int)
    requires Sized(k)
  {
    0 <= p < NPROC && k.procs[p].prstate != PR_FREE && !k.procs[p].prhasmsg
  }

  /** Of every process but p no message, priority or parent is different. */
  ghost predicate OthersKept(a: seq<Proc>, b: seq<Proc>, p: int) {
    && |b| == |a|
    && forall q :: 0 <= q < |a| && q != p ==>
         Mail(b[q]) == Mail(a[q]) && b[q].prprio == a[q].prprio && b[q].prparent == a[q].prparent
  }

  /** send is refused if there is no such process or it has a message; otherwise the process
      has the message sent, and nobody else has another one than before. */
  lemma SendGives(k: K, p: int, msg: int)
    requires Sized(k)
    ensures Send(k, p, msg).1 == (if Accepts(k, p) then OK else SYSERR)
    ensures !Accepts(k, p) ==> Send(k, p, msg).0 == k
    ensures Accepts(k, p) ==>
              var t := Send(k, p, msg).0;
              && Mail(t.procs[p]) == [msg] && OthersKept(k.procs, t.procs, p)
              && t.procs[p].prprio == k.procs[p].prprio && t.procs[p].prparent == k.procs[p].prparent
  {
    hide Ready, Unsleep;
    if Accepts(k, p) {
      var t := k.(procs := k.procs[p := k.procs[p].(prmsg := msg, prhasmsg := true)]);
      ReadyKept(t, p);
      UnsleepKept(t, p);
      ReadyKept(Unsleep(t, p).0, p);
    }
  }

  lemma UnsleepKept(k: K, p: int)
    requires Sized(k)
    ensures Unsleep(k, p).0.procs == k.procs
  {
    hide CutAt;
  }

  /** The message that comes to p in this step, from send or from a kill of one of its children. */
  ghost function Sent(k: K, e: Step, p: nat): seq<int>
    requires Sized(k)
  {
    if e.DoSend? && e.p == p && Accepts(k, p) then [e.msg]
    else if e.DoKill? && 0 < e.p < NPROC && k.procs[e.p].prstate != PR_FREE && k.procs[e.p].prparent == p
            && Accepts(k, p) then [e.p]
    else []
  }

  /** The message that p receives in this step. */
  ghost function Taken(k: K, e: Step, p: nat): seq<int>
    requires Sized(k)
  {
    if p == k.currpid && (e == DoReceive || e == EndReceive || e == EndRecvTime || (e.DoRecvTime? && e.d >= 0))
    then Mail(k.procs[p]) else []
  }

  /** The step enters a new process p. */
  ghost predicate Makes(k: K, e: Step, p: nat)
    requires Sized(k)
  {
    e.DoCreate? && Create(k, e.prio, e.gotstack).1 == p
  }

  lemma TakeGives(k: K)
    requires Sized(k)
    ensures Mail(Take(k).procs[k.currpid]) == [] && OthersKept(k.procs, Take(k).procs, k.currpid)
    ensures Take(k).procs[k.currpid] == k.procs[k.currpid].(prhasmsg := false)
  {
  }

  lemma AsleepKept(k: K, d: int, st: PrState)
    requires Sized(k)
    ensures Kept(k.procs, Asleep(k, d, st).procs)
  {
    hide PutAt, DPlace, DKeys;
  }

  lemma MessagesStep(k: K, e: Step, p: nat)
    requires Enabled(k, e) && OnMessages(e) && p < NPROC
    ensures Mail(k.procs[p]) + Sent(k, e, p) == Taken(k, e, p) + Mail(Do(k, e).procs[p])
    ensures Do(k, e).procs[p].prprio == k.procs[p].prprio && Do(k, e).procs[p].prparent == k.procs[p].prparent
  {
    hide Send, Take, Block, Asleep, Resched;
    TakeGives(k);
    match e {
      case DoSend(q, msg) => SendGives(k, q, msg);
      case DoReceive => BlockKept(SetCtx(k, Receiving), PR_RECV);
      case DoRecvTime(d) =>
        var t := SetCtx(k, TimedReceiving);
        AsleepKept(t, d, PR_RECTIM);
        ReschedKept(Asleep(t, d, PR_RECTIM));
      case EndReceive =>
      case EndRecvTime =>
    }
  }

  lemma KillKept(k: K, p: nat)
    requires Sized(k) && p < NPROC
    ensures Kept(k.procs, KillEnd(k, p).procs)
  {
    hide Resched, Unsleep, CutAt;
    UnsleepKept(SetCtx(k, Nothing), p);
    ReschedKept(Freed(SetCtx(k, Nothing), p));
  }

  lemma WakeupKept(k: K)
    requires Sized(k)
    ensures Kept(k.procs, Wakeup(k).procs)
  {
    hide Drain, DeferStop;
    var t, n := DeferStart(k), Due(k.lists[SQ], k.keys);
    DrainKept(t, SQ, n);
    DeferStopKept(Drain(t, SQ, n));
  }

  lemma ClockKept(k: K)
    requires Sized(k)
    ensures Kept(k.procs, Tick(k).procs) && Kept(k.procs, Slice(k).procs)
  {
    hide Wakeup, Resched;
    var t := SetCtx(k, InClock);
    if |t.lists[SQ]| > 0 {
      WakeupKept(t.(keys := t.keys[t.lists[SQ][0] := t.keys[t.lists[SQ][0]] - 1]));
    }
    ReschedKept(SetCtx(k, Nothing).(preempt := QUANTUM));
  }

  lemma SuspendKept(k: K, p: int)
    requires Sized(k)
    ensures Kept(k.procs, Suspend(k, p).0.procs)
  {
    hide Resched, CutAt;
    if !BadPid(k, p) {
      ReschedKept(SetState(k, p, PR_SUSP));
    }
  }

  lemma SleepKept(k: K, d: int)
    requires Sized(k)
    ensures Kept(k.procs, SleepMs(k, d).procs)
  {
    hide Resched, Asleep;
    ReschedKept(k);
    AsleepKept(k, d, PR_SLEEP);
    ReschedKept(Asleep(k, d, PR_SLEEP));
  }

  lemma CreateOthers(k: K, prio: pri16, gotstack: bool)
    requires Sized(k)
    ensures var (t, p) := Create(k, prio, gotstack);
            OthersKept(k.procs, t.procs, p)
  {
    hide FindPid;
  }

  lemma QuietKept(k: K, e: Step)
    requires Enabled(k, e) && !OnMessages(e) && !OnSemaphores(e) && !e.DoCreate? && !e.DoKill?
    ensures Kept(k.procs, Do(k, e).procs)
  {
    hide Ready, Suspend, KillEnd, Tick, Slice, Resched, SleepMs, Create, Send;
    match e {
      case DoResume(q) => ReadyKept(k, q);
      case DoSuspend(q) => SuspendKept(k, q);
      case DoYield => ReschedKept(k);
      case DoSleepMs(d) => SleepKept(k, d);
      case EndKill(q) => KillKept(k, q);
      case ClockTick => ClockKept(k);
      case ClockRest => ClockKept(k);
    }
  }

  lemma CreateStep(k: K, e: Step, p: nat)
    requires Enabled(k, e) && e.DoCreate? && p < NPROC && !Makes(k, e, p)
    ensures Mail(Do(k, e).procs[p]) == Mail(k.procs[p])
    ensures Do(k, e).procs[p].prprio == k.procs[p].prprio && Do(k, e).procs[p].prparent == k.procs[p].prparent
  {
    hide Create, Mail;
    CreateOthers(k, e.prio, e.gotstack);
  }

  lemma KillStep(k: K, e: Step, p: nat)
    requires Enabled(k, e) && e.DoKill? && p < NPROC
    ensures Mail(k.procs[p]) + Sent(k, e, p) == Mail(Do(k, e).procs[p])
    ensures Do(k, e).procs[p].prprio == k.procs[p].prprio && Do(k, e).procs[p].prparent == k.procs[p].prparent
  {
    hide Send;
    if 0 < e.p < NPROC {
      SendGives(SetCtx(k, Killing(e.p)), k.procs[e.p].prparent, e.p);
    }
  }

  /** In every step: what a process had and what comes to it is what it takes and what it has
      afterwards. Its priority and its parent stay. */
  lemma StepMail(k: K, e: Step, p: nat)
    requires Enabled(k, e) && p < NPROC && !Makes(k, e, p)
    ensures Mail(k.procs[p]) + Sent(k, e, p) == Taken(k, e, p) + Mail(Do(k, e).procs[p])
    ensures Do(k, e).procs[p].prprio == k.procs[p].prprio && Do(k, e).procs[p].prparent == k.procs[p].prparent
  {
    hide Do;
    if OnSemaphores(e) {
      SemaphoresKept(k, e);
    } else if OnMessages(e) {
      MessagesStep(k, e, p);
    } else if e.DoCreate? {
      CreateStep(k, e, p);
    } else if e.DoKill? {
      KillStep(k, e, p);
    } else {
      QuietKept(k, e);
    }
  }

  // ---- runs ----

  /** No step of the run enters a new process p. */
  ghost predicate Lives(k: K, es: seq<Step>, p: nat)
    requires Runs(k, es)
    decreases |es|
  {
    |es| == 0 || (!Makes(k, es[0], p) && Lives(Do(k, es[0]), es[1..], p))
  }

  ghost function AllSent(k: K, es: seq<Step>, p: nat): seq<int>
    requires Runs(k, es)
    decreases |es|
  {
    if |es| == 0 then [] else Sent(k, es[0], p) + AllSent(Do(k, es[0]), es[1..], p)
  }

  ghost function AllTaken(k: K, es: seq<Step>, p: nat): seq<int>
    requires Runs(k, es)
    decreases |es|
  {
    if |es| == 0 then [] else Taken(k, es[0], p) + AllTaken(Do(k, es[0]), es[1..], p)
  }

  lemma Joined(a: seq<int>, b: seq<int>, c: seq<int>, d: seq<int>, m: seq<int>, n: seq<int>)
    requires a + b == c + m
    ensures forall x :: m + d == x + n ==> a + (b + d) == (c + x) + n
  {
    forall x | m + d == x + n
      ensures a + (b + d) == (c + x) + n
    {
      calc {
        a + (b + d);
        (a + b) + d;
        (c + m) + d;
        c + (m + d);
        c + (x + n);
        (c + x) + n;
      }
    }
  }

  /** Over any run in which p is not made anew it takes exactly the messages sent to it, each once, in
      the order in which they were sent; at the end it has the last one, if it has not taken that. */
  lemma {:induction false} SentAreTaken(k: K, es: seq<Step>, p: nat)
    requires Sized(k) && Runs(k, es) && p < NPROC && Lives(k, es, p)
    ensures Sized(After(k, es))
    ensures Mail(k.procs[p]) + AllSent(k, es, p) == AllTaken(k, es, p) + Mail(After(k, es).procs[p])
    decreases |es|
  {
    hide Enabled, Do, Sent, Taken, Makes, Mail;
    if |es| > 0 {
      var t := Do(k, es[0]);
      StepMail(k, es[0], p);
      SentAreTaken(t, es[1..], p);
      Joined(Mail(k.procs[p]), Sent(k, es[0], p), Taken(k, es[0], p), AllSent(t, es[1..], p), Mail(t.procs[p]),
             Mail(After(k, es).procs[p]));
    }
  }

  /** p takes no message in the run. */
  ghost predicate LeavesMail(k: K, es: seq<Step>, p: nat)
    requires Runs(k, es)
    decreases |es|
  {
    |es| == 0 || (|Taken(k, es[0], p)| == 0 && LeavesMail(Do(k, es[0]), es[1..], p))
  }

  /** A message waits to be taken, whatever else happens: others sent to p meanwhile are
      refused. */
  lemma {:induction false} MailWaits(k: K, es: seq<Step>, p: nat, m: int)
    requires Sized(k) && Runs(k, es) && p < NPROC && Lives(k, es, p) && LeavesMail(k, es, p)
    requires Mail(k.procs[p]) == [m]
    ensures Sized(After(k, es)) && Mail(After(k, es).procs[p]) == [m]
    decreases |es|
  {
    hide Enabled, Do, Makes;
    if |es| > 0 {
      StepMail(k, es[0], p);
      assert Sent(k, es[0], p) == [] && Taken(k, es[0], p) == [];
      assert [m] + [] == [m];
      MailWaits(Do(k, es[0]), es[1..], p, m);
    }
  }

  /** What was sent is what is received: after a send of m to p that was not refused, and any
      run in which p takes no message and is not made anew, p has m, and what it takes is m. */
  lemma SentIsReceived(k: K, p: nat, m: int, es: seq<Step>, e: Step)
    requires Enabled(k, DoSend(p, m)) && Send(k, p, m).1 == OK
    requires Runs(Do(k, DoSend(p, m)), es) && Lives(Do(k, DoSend(p, m)), es, p)
    requires LeavesMail(Do(k, DoSend(p, m)), es, p)
    ensures p < NPROC
    ensures var t := After(Do(k, DoSend(p, m)), es);
            && Sized(t) && t.procs[p].prhasmsg && t.procs[p].prmsg == m
            && (t.currpid == p && e in {DoReceive, EndReceive, EndRecvTime, DoRecvTime(0)} ==> Taken(t, e, p) == [m])
  {
    hide Runs, Lives, LeavesMail, After, Send;
    SendGives(k, p, m);
    MailWaits(Do(k, DoSend(p, m)), es, p, m);
  }

  /** The calls that receive answer what the process takes. */
  method PerformReceive(m: Tables.Kernel, e: Step) returns (done: bool, msg: int)
    requires m.Shape() && Inv(m.S()) && Enabled(m.S(), e)
    requires e.DoReceive? || e.EndReceive? || e.DoRecvTime? || e.EndRecvTime?
    modifies m, m.q, m.q.qkey, m.q.qnext, m.q.qprev, m.proctab, m.semtab
    ensures m.Shape() && m.S() == Do(old(m.S()), e)
    ensures |Taken(old(m.S()), e, old(m.currpid))| > 0 ==> done && Taken(old(m.S()), e, old(m.currpid)) == [msg]
    ensures e.EndReceive? ==> |Taken(old(m.S()), e, old(m.currpid))| > 0
    ensures e.EndRecvTime? && |Taken(old(m.S()), e, old(m.currpid))| == 0 ==> done && msg == -3
    ensures e.DoRecvTime? && e.d < 0 ==> done && msg == -1
  {
    hide Inv, Tables.Kernel.S, Receive, Take, RecvTime;
    m.Facing();
    match e {
      case DoReceive => done, msg := m.Receive();
      case EndReceive => done := true; msg := m.ReceiveResumed();
      case DoRecvTime(d) => done, msg := m.RecvTime(d);
      case EndRecvTime => done := true; msg := m.RecvTimeResumed();
    }
  }
}
