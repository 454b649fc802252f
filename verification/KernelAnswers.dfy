/** What the calls of the process manager answer, and what they do to semaphores and to the
    table of processes, entry by entry. */
module KernelAnswers {
  import opened KernelQueues
  import opened KernelSpec
  import opened KernelInv
  import opened KernelCalls
  import opened KernelProcs
  import opened KernelFrame
  import opened KernelRuns
  import opened KernelMail

  /** s is the number of a semaphore in use. */
  ghost predicate InUse(k: K, s: int)
    requires Sized(k)
  {
    0 <= s < 100 && k.sems[s].used
  }

  /** p is the number of a process. */
  ghost predicate Exists(k: K, p: int)
    requires Sized(k)
  {
    0 <= p < 100 && k.procs[p].prstate != PR_FREE
  }

  // ---- answers ----

  /** Calls on semaphores answer OK for one that is in use and a count that is not negative, and
      otherwise SYSERR, and then nothing is different. */
  lemma SemaphoreAnswers(k: K, s: int, n: int)
    requires Sized(k)
    ensures Wait(k, s).1 == (if InUse(k, s) then 1 else -1) && (!InUse(k, s) ==> Wait(k, s).0 == k)
    ensures Signal(k, s).1 == (if InUse(k, s) then 1 else -1) && (!InUse(k, s) ==> Signal(k, s).0 == k)
    ensures SemDelete(k, s).1 == (if InUse(k, s) then 1 else -1) && (!InUse(k, s) ==> SemDelete(k, s).0 == k)
    ensures SignalN(k, s, n).1 == (if InUse(k, s) && n >= 0 then 1 else -1)
    ensures !(InUse(k, s) && n >= 0) ==> SignalN(k, s, n).0 == k
    ensures SemReset(k, s, n).1 == (if InUse(k, s) && n >= 0 then 1 else -1)
    ensures !(InUse(k, s) && n >= 0) ==> SemReset(k, s, n).0 == k
  {
    hide Resched, SignalOne, SignalMany, Drain, DeferStop;
  }

  /** resume answers the priority of a process that was suspended, and suspend that of one that
      was current or ready; otherwise, and for the null process, they answer SYSERR and change nothing. */
  lemma ResumeSuspendAnswer(k: K, p: int)
    requires Sized(k)
    ensures if Exists(k, p) && k.procs[p].prstate == PR_SUSP then Resume(k, p).1 == k.procs[p].prprio
            else Resume(k, p) == (k, -1)
    ensures if Exists(k, p) && p != 0 && k.procs[p].prstate in {PR_CURR, PR_READY} then
              Suspend(k, p).1 == k.procs[p].prprio
            else Suspend(k, p) == (k, -1)
  {
    hide Ready, Resched;
  }

  /** kill and the calls that wait a time leave everything as it is for a process that does not
      exist or must not be killed, and for a negative time. */
  lemma OthersRefuse(k: K, p: int, d: int)
    requires Sized(k)
    ensures !(Exists(k, p) && p != 0) ==> KillBegin(k, p) == k
    ensures d < 0 ==> SleepMs(k, d) == k && RecvTime(k, d) == k
    ensures !Exists(k, p) ==> Ready(k, p) == k
  {
    hide Resched, Send;
  }

  /** unsleep is refused for whoever does not sleep. */
  lemma UnsleepAnswer(k: K, p: int)
    requires Sized(k)
    ensures if Exists(k, p) && k.procs[p].prstate in {PR_SLEEP, PR_RECTIM} then Unsleep(k, p).1 == 1
            else Unsleep(k, p) == (k, -1)
  {
    hide CutAt;
  }

  // ---- new entries ----

  /** How far b is behind a in a table of 100, going round. */
  function Behind(a: int, b: int): int {
    if b >= a then b - a else b - a + 100
  }

  lemma {:induction false} FindSemFirst(sems: seq<Sem>, start: nat, n: nat)
    requires start < |sems| == 100 && n <= 100
    ensures var r := FindSem(sems, start, n);
            && (r != -1 ==> 0 <= r < 100 && Behind(start, r) < n && !sems[r].used)
            && forall i :: 0 <= i < 100 && Behind(start, i) < (if r == -1 then n else Behind(start, r)) ==> sems[i].used
    decreases n
  {
    if n > 0 && sems[start].used {
      FindSemFirst(sems, if start + 1 == |sems| then 0 else start + 1, n - 1);
      assert forall i :: 0 <= i < 100 && i != start ==>
          Behind(start, i) == 1 + Behind(if start + 1 == |sems| then 0 else start + 1, i);
    }
  }

  /** semcreate is refused for a negative count and if all are in use. Otherwise it gives the next
      one not in use, going round the table, with that count and nobody waiting; no other
      semaphore is different, and the search begins behind it next time. */
  lemma SemCreateGives(k: K, n: int)
    requires Inv(k)
    ensures Sized(k)
    ensures var (t, s) := SemCreate(k, n);
            && (s == -1 <==> n < 0 || forall i :: 0 <= i < 100 ==> k.sems[i].used)
            && (s == -1 ==> t == k)
            && (s != -1 ==>
                  && 0 <= s < 100 && !k.sems[s].used
                  && (forall i :: 0 <= i < 100 && Behind(k.nextsem, i) < Behind(k.nextsem, s) ==> k.sems[i].used)
                  && t.sems[s] == Sem(true, n) && |t.lists[s]| == 0
                  && (forall i :: 0 <= i < 100 && i != s ==> t.sems[i] == k.sems[i])
                  && t.lists == k.lists && t.procs == k.procs && Behind(s, t.nextsem) == 1)
  {
    InvSized(k);
    FindSemFirst(k.sems, k.nextsem, 100);
    var s := FindSem(k.sems, k.nextsem, |k.sems|);
    if s != SYSERR {
      SemIs(k, s);
    }
    hide Inv, FindSem;
    assert forall i :: 0 <= i < 100 ==> 0 <= Behind(k.nextsem, i) < 100;
  }

  /** A semaphore that is deleted is in use no more, and nobody is on its queue; one that is reset
      has the count that was asked for, and nobody on its queue. All others are as before. */
  lemma EmptiedGives(k: K, s: nat, n: nat, r: nat)
    requires Inv(k) && Sized(k) && InUse(k, s) && n <= MAXCOUNT && r < 100 && r != s
    ensures var t := SemDelete(k, s).0;
            !t.sems[s].used && |t.lists[s]| == 0 && t.sems[r] == k.sems[r] && t.lists[r] == k.lists[r]
    ensures var t := SemReset(k, s, n).0;
            t.sems[s] == Sem(true, n) && |t.lists[s]| == 0 && t.sems[r] == k.sems[r] && t.lists[r] == k.lists[r]
  {
    hide Inv, Mid, SemDelete, SemReset, DeferStop, Emptied;
    SemResetEffect(k, s, n);
    SemResetSpares(k, s, n, -2, r);
    SemDeleteSpares(k, s, -2, r);
    Deleting(k, s);
    var v := Emptied(k, s);
    SemDropped(v, s);
    DeferStopSpares(SetCount(v, s, Bump(v.sems[s].count)), -2, s);
  }

  lemma {:induction false} FindPidFirst(procs: seq<Proc>, start: nat, n: nat)
    requires start < |procs| == 100 && n <= 100
    ensures var r := FindPid(procs, start, n);
            && (r != -1 ==> 0 <= r < 100 && Behind(start, r) < n && procs[r].prstate == PR_FREE)
            && forall i :: 0 <= i < 100 && Behind(start, i) < (if r == -1 then n else Behind(start, r)) ==>
                 procs[i].prstate != PR_FREE
    decreases n
  {
    if n > 0 && procs[start].prstate != PR_FREE {
      FindPidFirst(procs, Wrap(start + 1), n - 1);
      assert forall i :: 0 <= i < 100 && i != start ==> Behind(start, i) == 1 + Behind(Wrap(start + 1), i);
    }
  }

  /** Where the search for a free entry of the process table begins. */
  function From(k: K): nat {
    if k.nextpid == 100 then 0 else k.nextpid
  }

  /** newpid is refused if every entry is taken, and otherwise gives the next free one, going round. */
  lemma NewPidGives(k: K)
    requires Sized(k)
    ensures var (t, p) := NewPid(k);
            && (p == -1 <==> forall i :: 0 <= i < 100 ==> k.procs[i].prstate != PR_FREE)
            && (p != -1 ==>
                  && 0 <= p < 100 && k.procs[p].prstate == PR_FREE && t.nextpid == p + 1
                  && forall i :: 0 <= i < 100 && Behind(From(k), i) < Behind(From(k), p) ==>
                       k.procs[i].prstate != PR_FREE)
            && t.(nextpid := k.nextpid) == k
  {
    FindPidFirst(k.procs, From(k), 100);
    hide FindPid;
    assert forall i :: 0 <= i < 100 ==> 0 <= Behind(From(k), i) < 100;
  }

  /** create is refused for a priority below 1, without a free entry, and without a stack. Otherwise
      the new process is suspended, has the priority asked for, the caller for its parent, and no
      message, and is the one that newpid gives; no other process is different. */
  lemma CreateGives(k: K, prio: pri16, gotstack: bool)
    requires Sized(k)
    ensures var (t, p) := Create(k, prio, gotstack);
            && (p == -1 <==> prio < 1 || !gotstack || forall i :: 0 <= i < 100 ==> k.procs[i].prstate != PR_FREE)
            && |t.procs| == 100 && (p == -1 ==> t.(nextpid := k.nextpid) == k)
            && (p != -1 ==>
                  && p == NewPid(k).1 && 0 <= p < 100
                  && t.procs[p].prstate == PR_SUSP && t.procs[p].prprio == prio
                  && t.procs[p].prparent == k.currpid && !t.procs[p].prhasmsg && t.ctx[p] == Nothing
                  && (forall i :: 0 <= i < 100 && i != p ==> t.procs[i] == k.procs[i] && t.ctx[i] == k.ctx[i])
                  && t.sems == k.sems && t.lists == k.lists && t.currpid == k.currpid)
  {
    NewPidGives(k);
    hide NewPid;
  }

  // ---- deferral ----

  /** The first deferral forgets former attempts; the end of one inside of another, or of one in which
      nobody tried to reschedule, only counts down. */
  lemma DeferGives(k: K)
    requires Sized(k)
    ensures DeferStart(k) == k.(ndefers := k.ndefers + 1, attempt := k.ndefers > 0 && k.attempt)
    ensures k.ndefers > 1 || !k.attempt ==>
              DeferStop(k) == k.(ndefers := if k.ndefers > 0 then k.ndefers - 1 else 0)
    ensures k.ndefers > 0 ==> Resched(k) == k.(attempt := true)
  {
    ReschedDefers(k);
    hide Resched;
  }

  lemma ReadyHeadDefers(k: K, i: nat)
    requires Sized(k) && i < NLISTS
    ensures ReadyHead(k, i).ndefers == k.ndefers
  {
    hide PutAt, Place;
  }

  lemma {:induction false} SignalManyDefers(k: K, s: nat, n: nat)
    requires Sized(k) && s < NSEM
    ensures SignalMany(k, s, n).ndefers == k.ndefers
    decreases n
  {
    hide ReadyHead;
    if n > 0 {
      ReadyHeadDefers(SetCount(k, s, Bump(k.sems[s].count)), s);
      SignalManyDefers(SignalOne(k, s), s, n - 1);
    }
  }

  lemma {:induction false} DrainDefers(k: K, i: nat, n: nat)
    requires Sized(k) && i < NLISTS
    ensures Drain(k, i, n).ndefers == k.ndefers
    decreases n
  {
    hide ReadyHead;
    if n > 0 {
      ReadyHeadDefers(k, i);
      DrainDefers(ReadyHead(k, i), i, n - 1);
    }
  }

  lemma ReschedDefers(k: K)
    requires Sized(k)
    ensures Resched(k).ndefers == k.ndefers
    ensures k.ndefers > 0 ==> Resched(k) == k.(attempt := true)
  {
    hide PutAt, Place;
  }

  lemma ReadyDefers(k: K, p: int)
    requires Sized(k)
    ensures Ready(k, p).ndefers == k.ndefers
  {
    hide PutAt, Place;
  }

  lemma StopDefers(k: K)
    requires Sized(k)
    ensures DeferStop(k).ndefers == if k.ndefers > 0 then k.ndefers - 1 else 0
  {
    hide Resched;
    ReschedDefers(k.(ndefers := 0));
  }

  lemma SignalNDefers(k: K, s: int, n: int)
    requires Sized(k)
    ensures SignalN(k, s, n).0.ndefers == k.ndefers
  {
    hide SignalMany, DeferStop;
    if 0 <= s < NSEM && n >= 0 {
      SignalManyDefers(DeferStart(k), s, n);
      StopDefers(SignalMany(DeferStart(k), s, n));
    }
  }

  lemma DeleteDefers(k: K, s: int)
    requires Sized(k)
    ensures SemDelete(k, s).0.ndefers == k.ndefers
  {
    hide SignalMany, DeferStop;
    if 0 <= s < NSEM {
      var c := k.sems[s].count;
      var t, n := DeferStart(k.(sems := k.sems[s := Sem(false, c)])), if c < 0 then -c else 0;
      SignalManyDefers(t, s, n);
      var u := SignalMany(t, s, n);
      StopDefers(SetCount(u, s, Bump(u.sems[s].count)));
    }
  }

  lemma ResetDefers(k: K, s: int, n: int)
    requires Sized(k)
    ensures SemReset(k, s, n).0.ndefers == k.ndefers
  {
    hide Drain, DeferStop;
    if 0 <= s < NSEM {
      DrainDefers(DeferStart(k), s, |k.lists[s]|);
      StopDefers(SetCount(Drain(DeferStart(k), s, |k.lists[s]|), s, n));
    }
  }

  lemma WakeupDefers(k: K)
    requires Sized(k)
    ensures Wakeup(k).ndefers == k.ndefers
  {
    hide Drain, DeferStop, Due;
    var t, n := DeferStart(k), Due(k.lists[SQ], k.keys);
    DrainDefers(t, SQ, n);
    StopDefers(Drain(t, SQ, n));
  }

  lemma SendDefers(k: K, p: int, msg: int)
    requires Sized(k)
    ensures Send(k, p, msg).0.ndefers == k.ndefers
  {
    hide Ready, CutAt;
    if Accepts(k, p) {
      var t := k.(procs := k.procs[p := k.procs[p].(prmsg := msg, prhasmsg := true)]);
      ReadyDefers(t, p);
      ReadyDefers(Unsleep(t, p).0, p);
    }
  }

  lemma KillDefers(k: K, p: nat)
    requires Sized(k) && p < NPROC
    ensures KillEnd(k, p).ndefers == k.ndefers
  {
    hide Resched, CutAt;
    ReschedDefers(Freed(SetCtx(k, Nothing), p));
  }

  lemma TickDefers(k: K)
    requires Sized(k)
    ensures Tick(k).ndefers == k.ndefers
  {
    hide Wakeup;
    var t := SetCtx(k, InClock);
    if |t.lists[SQ]| > 0 {
      WakeupDefers(t.(keys := t.keys[t.lists[SQ][0] := t.keys[t.lists[SQ][0]] - 1]));
    }
  }

  lemma RestDefers(k: K)
    requires Sized(k)
    ensures Slice(k).ndefers == k.ndefers
  {
    hide Resched;
    ReschedDefers(SetCtx(k, Nothing).(preempt := QUANTUM));
  }

  lemma BlocksDefer(k: K, e: Step)
    requires Enabled(k, e)
    requires e.DoWait? || e.DoReceive? || e.DoRecvTime? || e.DoSleepMs? || e.DoSuspend? || e.DoYield? || e.DoResume?
    ensures Do(k, e).ndefers == k.ndefers
  {
    hide Resched, PutAt, DPlace, DKeys, CutAt, CanBlock, Ready;
    var p := k.currpid;
    match e {
      case DoWait(s) =>
        if 0 <= s < NSEM {
          ReschedDefers(Enqueued(SetCount(k, s, k.sems[s].count - 1), s));
        }
      case DoReceive => ReschedDefers(SetState(SetCtx(k, Receiving), p, PR_RECV));
      case DoRecvTime(d) => ReschedDefers(Asleep(SetCtx(k, TimedReceiving), d, PR_RECTIM));
      case DoSleepMs(d) => ReschedDefers(k); ReschedDefers(Asleep(k, d, PR_SLEEP));
      case DoSuspend(q) =>
        if 0 <= q < NPROC {
          ReschedDefers(SetState(k, q, PR_SUSP));
        }
      case DoYield => ReschedDefers(k);
      case DoResume(q) => ReadyDefers(k, q);
    }
  }

  /** Deferral nests: only its own two calls change how deep it is. */
  lemma StepDefers(k: K, e: Step)
    requires Enabled(k, e)
    ensures Do(k, e).ndefers ==
            if e == DoDefer then k.ndefers + 1
            else if e == DoUndefer && k.ndefers > 0 then k.ndefers - 1
            else k.ndefers
  {
    hide SignalOne, SignalN, SemDelete, SemReset, DeferStop, Send, KillEnd, Tick, Slice, Wait, Receive, RecvTime,
      SleepMs, Suspend, Resume, Resched, FindSem, FindPid, CanBlock, ReadyHead;
    match e {
      case DoSignal(s) =>
        if 0 <= s < NSEM {
          OneDefers(k, s);
        }
      case DoSignalN(s, n) => SignalNDefers(k, s, n);
      case DoSemDelete(s) => DeleteDefers(k, s);
      case DoSemReset(s, n) => ResetDefers(k, s, n);
      case DoSend(p, msg) => SendDefers(k, p, msg);
      case DoKill(p) =>
        if 0 < p < NPROC {
          SendDefers(SetCtx(k, Killing(p)), k.procs[p].prparent, p);
        }
      case EndKill(p) => KillDefers(k, p);
      case DoUndefer => StopDefers(k);
      case ClockTick => TickDefers(k);
      case ClockRest => RestDefers(k);
      case DoCreate(prio, gotstack) =>
      case DoSemCreate(n) =>
      case EndReceive =>
      case EndRecvTime =>
      case DoDefer =>
      case _ => BlocksDefer(k, e);
    }
  }

  lemma OneDefers(k: K, s: nat)
    requires Sized(k) && s < NSEM
    ensures SignalOne(k, s).ndefers == k.ndefers
  {
    hide ReadyHead;
    ReadyHeadDefers(SetCount(k, s, Bump(k.sems[s].count)), s);
  }
}
