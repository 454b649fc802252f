/** The process manager as the source has it: tables that every call updates in place.
    Each method does to the tables what the function of the same name in KernelSpec does
    to the sequences. */
module KernelTables {
  import opened KernelQueues
  import opened KernelSleep
  import Spec = KernelSpec
  import opened KernelSpec
  import opened KernelInv
  import opened KernelCalls
  import opened KernelProcs

  datatype Sentry = Sentry(sstate: bool, scount: int, squeue: int)

  ghost function SemsOfTable(t: seq<Sentry>): (r: seq<Sem>)
    ensures |r| == |t| && forall s :: 0 <= s < |t| ==> r[s] == Sem(t[s].sstate, t[s].scount)
  {
    seq(|t|, s requires 0 <= s < |t| => Sem(t[s].sstate, t[s].scount))
  }

  const UNUSED := Proc(PR_FREE, 0, 0, 0, 0, false)

  function Booted(): K {
    K(seq(NPROC, _ => UNUSED)[NULLPROC := UNUSED.(prstate := PR_CURR)], seq(NSEM, _ => Sem(false, 0)),
      seq(NLISTS, _ => []),
      seq(NPROC, _ => 0), NULLPROC, 0, false, QUANTUM, 0, 1, seq(NPROC, _ => Nothing))
  }

  lemma BootedOk()
    ensures Inv(Booted())
  {
  }

  /** sysinit: a queue for every semaphore. */
  method MakeQueues(q: QueueTab, semtab: array<Sentry>)
    requires q.Valid() && |q.lists| == 0 && semtab.Length == NSEM
    modifies q, q.qkey, q.qnext, q.qprev, semtab
    ensures q.Valid() && q.lists == seq(NSEM, _ => []) && q.Keys() == old(q.Keys())
    ensures forall s :: 0 <= s < NSEM ==> semtab[s] == Sentry(false, 0, Qid(s))
  {
    hide Linked, Apart;
    var i := 0;
    while i < NSEM
      invariant i <= NSEM && q.Valid() && |q.lists| == i && q.Keys() == old(q.Keys())
      invariant forall j :: 0 <= j < i ==> |q.lists[j]| == 0
      invariant forall s :: 0 <= s < i ==> semtab[s] == Sentry(false, 0, Qid(s))
    {
      var id := q.NewQueue();
      semtab[i] := Sentry(false, 0, id);
      i := i + 1;
    }
  }

  /** Then the ready list and the sleep queue. */
  method MakeLists(q: QueueTab, semtab: array<Sentry>) returns (readylist: int, sleepq: int)
    requires q.Valid() && |q.lists| == 0 && semtab.Length == NSEM
    modifies q, q.qkey, q.qnext, q.qprev, semtab
    ensures q.Valid() && q.lists == seq(NLISTS, _ => []) && q.Keys() == old(q.Keys())
    ensures forall s :: 0 <= s < NSEM ==> semtab[s] == Sentry(false, 0, Qid(s))
    ensures readylist == Qid(RL) && sleepq == Qid(SQ)
  {
    hide Linked, Apart;
    MakeQueues(q, semtab);
    readylist := q.NewQueue();
    sleepq := q.NewQueue();
  }

  class Kernel {
    const q: QueueTab
    const proctab: array<Proc>
    const semtab: array<Sentry>
    var readylist: int
    var sleepq: int
    var currpid: nat
    var ndefers: nat
    var attempt: bool
    var preempt: int
    var nextsem: nat
    var nextpid: nat
    ghost var ctx: seq<Ctx>

    ghost predicate Shape()
      reads this, q, q.qkey, q.qnext, q.qprev, proctab, semtab
    {
      && q.Valid() && |q.lists| == NLISTS && readylist == Qid(RL) && sleepq == Qid(SQ)
      && proctab.Length == NPROC && semtab.Length == NSEM && |ctx| == NPROC
      && currpid < NPROC && nextsem < NSEM && nextpid <= NPROC
      && (forall s :: 0 <= s < NSEM ==> semtab[s].squeue == Qid(s))
    }

    /** The tables as sequences. */
    ghost function S(): (k: K)
      reads this, q, q.qkey, q.qnext, q.qprev, proctab, semtab
      requires Shape()
      ensures Sized(k)
    {
      K(proctab[..], SemsOfTable(semtab[..]), q.lists, q.Keys(), currpid, ndefers, attempt, preempt, nextsem, nextpid,
        ctx)
    }

    /** sysinit: the null process is current, and there is no other. */
    constructor ()
      ensures Shape() && S() == Booted()
      ensures fresh(q) && fresh(q.qkey) && fresh(q.qnext) && fresh(q.qprev) && fresh(proctab) && fresh(semtab)
    {
      hide Kernel.Shape, Kernel.S, Booted, Linked, Apart;
      q := new QueueTab();
      proctab := new Proc[NPROC](_ => UNUSED);
      semtab := new Sentry[NSEM](_ => Sentry(false, 0, 0));
      currpid, ndefers, attempt, preempt, nextsem, nextpid := NULLPROC, 0, false, QUANTUM, 0, 1;
      ctx := seq(NPROC, _ => Nothing);
      readylist, sleepq := 0, 0;
      new;
      proctab[NULLPROC] := UNUSED.(prstate := PR_CURR);
      readylist, sleepq := MakeLists(q, semtab);
      assert proctab[..] == seq(NPROC, _ => UNUSED)[NULLPROC := UNUSED.(prstate := PR_CURR)];
      AsBooted();
    }

    lemma AsBooted()
      requires q.Valid() && q.lists == seq(NLISTS, _ => []) && q.Keys() == seq(NPROC, _ => 0)
      requires readylist == Qid(RL) && sleepq == Qid(SQ) && semtab.Length == NSEM
      requires proctab.Length == NPROC
               && proctab[..] == seq(NPROC, _ => UNUSED)[NULLPROC := UNUSED.(prstate := PR_CURR)]
      requires forall s :: 0 <= s < NSEM ==> semtab[s] == Sentry(false, 0, Qid(s))
      requires currpid == NULLPROC && ndefers == 0 && !attempt && preempt == QUANTUM && nextsem == 0 && nextpid == 1
      requires ctx == seq(NPROC, _ => Nothing)
      ensures Shape() && S() == Booted()
    {
      assert SemsOfTable(semtab[..]) == Booted().sems;
      assert q.lists == Booted().lists;
    }

    /** The sequences and the fields they were taken from. */
    lemma Facing()
      requires Shape()
      ensures var k := S();
              && k.procs == proctab[..] && k.lists == q.lists && k.keys == q.Keys() && k.currpid == currpid
              && k.ndefers == ndefers && k.attempt == attempt && k.preempt == preempt
              && k.nextsem == nextsem && k.nextpid == nextpid && k.ctx == ctx
              && q.Valid() && readylist == Qid(RL) && sleepq == Qid(SQ) && proctab.Length == NPROC
                 && semtab.Length == NSEM
              && forall s :: 0 <= s < NSEM ==> semtab[s] == Sentry(k.sems[s].used, k.sems[s].count, Qid(s))
    {
    }

    method PutState(pid: nat, st: PrState)
      requires Shape() && pid < NPROC
      modifies proctab
      ensures Shape() && S() == SetState(old(S()), pid, st)
    {
      proctab[pid] := proctab[pid].(prstate := st);
      assert proctab[..] == old(proctab[..])[pid := old(proctab[pid]).(prstate := st)];
    }

    ghost method Note(c: Ctx)
      requires Shape()
      modifies `ctx
      ensures Shape() && S() == SetCtx(old(S()), c)
    {
      ctx := ctx[currpid := c];
    }

    /** isbadpid */
    method IsBadPid(pid: int) returns (b: bool)
      requires Shape()
      ensures b == BadPid(S(), pid)
    {
      b := pid < 0 || pid >= NPROC || proctab[pid].prstate == PR_FREE;
    }

    /** ready, as far as the ready list. */
    method PutReady(pid: nat)
      requires Shape() && pid < NPROC && OffLists(q.lists, pid)
      modifies proctab, q, q.qkey, q.qnext, q.qprev
      ensures Shape() && S() == Enready(old(S()), pid)
    {
      var prio := proctab[pid].prprio;
      PutState(pid, PR_READY);
      var r := q.Insert(pid, readylist, prio, false, RL);
    }

    /** The second half of resched: the head of the ready list takes the processor. */
    method Switch()
      requires Shape() && |q.lists[RL]| > 0
      modifies this`currpid, this`preempt, q, q.qnext, q.qprev, proctab
      ensures Shape() && S() == Dispatch(old(S()))
    {
      currpid := q.Dequeue(readylist, RL);
      PutState(currpid, PR_CURR);
      preempt := QUANTUM;
    }

    /** resched; it ends where some process, not always the caller, goes on. */
    method Resched(ghost x: int)
      requires Shape() && Core(S(), x, -1)
      modifies this`attempt, this`currpid, this`preempt, q, q.qkey, q.qnext, q.qprev, proctab
      ensures Shape() && S() == Spec.Resched(old(S()))
    {
      hide Core, Kernel.S;
      Facing();
      if ndefers > 0 {
        SetAttempt();
        return;
      }
      if proctab[currpid].prstate == PR_CURR {
        var key := q.FirstKey(readylist, RL);
        if proctab[currpid].prprio > key {
          return;
        }
        OffHome(S(), x, currpid);
        PutReady(currpid);
        Facing();
        ReadyNonempty(old(S()), currpid);
      } else {
        NeverStuck(S(), x);
      }
      Switch();
    }

    method SetAttempt()
      requires Shape()
      modifies this`attempt
      ensures Shape() && S() == old(S()).(attempt := true)
    {
      attempt := true;
    }

    /** ready, for a process that is on no list. */
    method Ready(pid: int, ghost x: int) returns (r: int)
      requires Shape() && (!BadPid(S(), pid) ==> OffLists(q.lists, pid) && Core(Enready(S(), pid), x, -1))
      modifies this`attempt, this`currpid, this`preempt, q, q.qkey, q.qnext, q.qprev, proctab
      ensures Shape() && S() == Spec.Ready(old(S()), pid)
      ensures r == if BadPid(old(S()), pid) then SYSERR else OK
      ensures BadPid(old(S()), pid) ==> S() == old(S())
    {
      hide Core, Kernel.S;
      var bad := IsBadPid(pid);
      if bad {
        return SYSERR;
      }
      PutReady(pid);
      Resched(x);
      r := OK;
    }

    /** resched_cntl(DEFER_START) */
    method DeferStart()
      requires Shape()
      modifies this`ndefers, this`attempt
      ensures Shape() && S() == Spec.DeferStart(old(S()))
    {
      if ndefers == 0 {
        attempt := false;
      }
      ndefers := ndefers + 1;
    }

    /** resched_cntl(DEFER_STOP) */
    method DeferStop() returns (r: int)
      requires Shape() && Inv(S())
      modifies this`ndefers, this`attempt, this`currpid, this`preempt, q, q.qkey, q.qnext, q.qprev, proctab
      ensures Shape() && S() == Spec.DeferStop(old(S()))
      ensures r == if old(ndefers) == 0 then SYSERR else OK
    {
      if ndefers <= 0 {
        return SYSERR;
      }
      DeferralOk(S(), -1, -1, ndefers - 1, attempt);
      hide Core, Inv, Kernel.S;
      Facing();
      Undefer();
      Facing();
      if ndefers == 0 && attempt {
        Resched(-1);
      }
      r := OK;
    }

    method Undefer()
      requires Shape() && ndefers > 0
      modifies this`ndefers
      ensures Shape() && S() == old(S()).(ndefers := old(ndefers) - 1)
      ensures S() == old(S()).(ndefers := old(ndefers) - 1, attempt := old(attempt))
    {
      ndefers := ndefers - 1;
    }

    // ---- semaphores ----

    method PutCount(s: nat, n: int)
      requires Shape() && s < NSEM
      modifies semtab
      ensures Shape() && S() == SetCount(old(S()), s, n)
    {
      semtab[s] := semtab[s].(scount := n);
      assert SemsOfTable(semtab[..]) == SemsOfTable(old(semtab[..]))[s := SemsOfTable(old(semtab[..]))[s].(count := n)];
    }

    method PutSem(s: nat, used: bool, n: int)
      requires Shape() && s < NSEM
      modifies semtab
      ensures Shape() && S() == old(S()).(sems := old(S()).sems[s := Sem(used, n)])
    {
      semtab[s] := semtab[s].(sstate := used, scount := n);
      assert SemsOfTable(semtab[..]) == SemsOfTable(old(semtab[..]))[s := Sem(used, n)];
    }

    /** Make the first process of list i, whose id is qid, ready. */
    method ReadyFirst(qid: int, ghost i: nat, ghost x: int)
      requires Shape() && i < NLISTS && qid == Qid(i)
      requires |q.lists[i]| > 0 ==> Headed(S(), i, x)
      modifies this`attempt, this`currpid, this`preempt, q, q.qkey, q.qnext, q.qprev, proctab
      ensures Shape() && S() == ReadyHead(old(S()), i)
    {
      hide Core, Spec.Ready, Kernel.S;
      Facing();
      var pid := Pop(qid, i);
      var r := Ready(pid, x);
    }

    /** dequeue */
    method Pop(qid: int, ghost i: nat) returns (pid: int)
      requires Shape() && i < NLISTS && qid == Qid(i)
      modifies q, q.qnext, q.qprev
      ensures Shape()
      ensures |old(S()).lists[i]| == 0 ==> pid == EMPTY && S() == old(S())
      ensures |old(S()).lists[i]| > 0 ==>
                pid == old(S()).lists[i][0] && S() == SetList(old(S()), i, old(S()).lists[i][1..])
                  && OffLists(q.lists, pid)
    {
      pid := q.Dequeue(qid, i);
    }

    method Enqueue(s: nat)
      requires Shape() && s < NSEM && OffLists(q.lists, currpid)
      modifies proctab, q, q.qnext, q.qprev
      ensures Shape() && S() == Enqueued(old(S()), s)
    {
      proctab[currpid] := proctab[currpid].(prstate := PR_WAIT, prsem := s);
      assert proctab[..] == old(proctab[..])[currpid := old(proctab[currpid]).(prstate := PR_WAIT, prsem := s)];
      var r := q.Enqueue(currpid, semtab[s].squeue, false, s);
    }

    /** wait */
    method Wait(sem: int) returns (r: int)
      requires Shape() && Inv(S()) && ctx[currpid] == Nothing
      requires 0 <= sem < NSEM && semtab[sem].sstate ==> CanBlock(S()) || semtab[sem].scount > 0
      modifies this`attempt, this`currpid, this`preempt, q, q.qkey, q.qnext, q.qprev, proctab, semtab
      ensures Shape() && (S(), r) == Spec.Wait(old(S()), sem)
    {
      hide Core, Inv, Kernel.S;
      ghost var k := S();
      Facing();
      if BadSem(sem) || !semtab[sem].sstate {
        return SYSERR;
      }
      WaitCore(k, sem);
      var n := semtab[sem].scount - 1;
      PutCount(sem, n);
      Facing();
      if n < 0 {
        Enqueue(sem);
        Resched(-1);
      }
      r := OK;
    }

    /** signal */
    method Signal(sem: int) returns (r: int)
      requires Shape() && Inv(S())
      modifies this`attempt, this`currpid, this`preempt, q, q.qkey, q.qnext, q.qprev, proctab, semtab
      ensures Shape() && (S(), r) == Spec.Signal(old(S()), sem)
    {
      hide Core, Inv, Kernel.S, SignalOne;
      Facing();
      if BadSem(sem) || !semtab[sem].sstate {
        return SYSERR;
      }
      InvMid(S(), sem);
      Release(sem);
      r := OK;
    }

    /** One increment, in signal, signaln and semdelete. */
    method Release(s: nat)
      requires Shape() && s < NSEM && Mid(S(), s)
      modifies this`attempt, this`currpid, this`preempt, q, q.qkey, q.qnext, q.qprev, proctab, semtab
      ensures Shape() && S() == SignalOne(old(S()), s)
    {
      hide Core, Mid, Kernel.S, ReadyHead;
      Facing();
      var n := semtab[s].scount;
      ReleaseCore(S(), s, Bump(n));
      PutCount(s, Bump(n));
      Facing();
      if n < 0 {
        ReadyFirst(semtab[s].squeue, s, s);
      }
    }

    /** signaln */
    method SignalN(sem: int, count: int) returns (r: int)
      requires Shape() && Inv(S()) && (0 <= sem < NSEM && semtab[sem].sstate ==> semtab[sem].scount + count <= MAXCOUNT)
      modifies this`ndefers, this`attempt, this`currpid, this`preempt, q, q.qkey, q.qnext, q.qprev, proctab, semtab
      ensures Shape() && (S(), r) == Spec.SignalN(old(S()), sem, count)
    {
      hide Core, Inv, Kernel.S, SignalOne, Spec.DeferStart, Spec.DeferStop;
      Facing();
      if BadSem(sem) || count < 0 || !semtab[sem].sstate {
        return SYSERR;
      }
      DeferStartKeeps(S());
      DeferStart();
      Facing();
      ghost var k := S();
      var n := count;
      while n > 0
        invariant 0 <= n <= count && Shape() && Inv(S())
        invariant SignalMany(k, sem, count) == SignalMany(S(), sem, n)
        invariant S().sems[sem].used && S().sems[sem].count + n <= MAXCOUNT
      {
        InvMid(S(), sem);
        SignalStep(S(), sem);
        Release(sem);
        n := n - 1;
      }
      var d := DeferStop();
      r := OK;
    }

    /** semdelete */
    method SemDelete(sem: int) returns (r: int)
      requires Shape() && Inv(S())
      modifies this`ndefers, this`attempt, this`currpid, this`preempt, q, q.qkey, q.qnext, q.qprev, proctab, semtab
      ensures Shape() && (S(), r) == Spec.SemDelete(old(S()), sem)
    {
      hide Core, Inv, Mid, Kernel.S, SignalOne, Spec.DeferStart, Spec.DeferStop, Spec.SemDelete;
      ghost var k := S();
      Facing();
      SemDeleteRefused(k, sem);
      if BadSem(sem) || !semtab[sem].sstate {
        return SYSERR;
      }
      var c := semtab[sem].scount;
      PutSem(sem, false, c);
      ghost var t := S();
      DeleteStarts(k, sem, t);
      DeferStart();
      ghost var u, left := S(), if c < 0 then -c else 0;
      Drained(sem, u, left);
      var d := DeferStop();
      SemDeleteIs(k, sem, t, if c < 0 then -c else 0);
      r := OK;
    }

    /** The loop of semdelete; the last test increments the count once more. */
    method Drained(sem: nat, ghost u: K, ghost n: nat)
      requires Shape() && u == S() && sem < NSEM && Mid(u, sem) && n == |u.lists[sem]| && !u.sems[sem].used
      requires n == (if u.sems[sem].count < 0 then -u.sems[sem].count else 0) && u.sems[sem].count <= MAXCOUNT
      modifies this`attempt, this`currpid, this`preempt, q, q.qkey, q.qnext, q.qprev, proctab, semtab
      ensures Shape() && Inv(S())
      ensures var v := SignalMany(u, sem, n); S() == SetCount(v, sem, Bump(v.sems[sem].count))
    {
      hide Core, Inv, Mid, Kernel.S, SignalOne, Steady;
      Facing();
      var c := semtab[sem].scount;
      ghost var left := n;
      while c < 0
        invariant left == (if c < 0 then -c else 0) && c <= MAXCOUNT
        invariant Shape() && Mid(S(), sem) && |S().lists[sem]| == left && S().sems[sem] == Sem(false, c)
        invariant SignalMany(u, sem, n) == SignalMany(S(), sem, left)
        decreases left
      {
        ReleaseStep(S(), sem);
        Release(sem);
        left := left - 1;
        c := c + 1;
      }
      SemDropped(S(), sem);
      PutCount(sem, Bump(c));
    }

    /** semreset */
    method SemReset(sem: int, count: int) returns (r: int)
      requires Shape() && Inv(S()) && count <= MAXCOUNT
      modifies this`ndefers, this`attempt, this`currpid, this`preempt, q, q.qkey, q.qnext, q.qprev, proctab, semtab
      ensures Shape() && (S(), r) == Spec.SemReset(old(S()), sem, count)
    {
      ghost var k := S();
      hide Core, Inv, Mid, Kernel.S, Spec.DeferStart, Spec.DeferStop, Drain, SetCount;
      Facing();
      if count < 0 || BadSem(sem) || !semtab[sem].sstate {
        return SYSERR;
      }
      ResetStarts(k, sem);
      DeferStart();
      EmptyQueue(sem, semtab[sem].squeue);
      ResetEnds(S(), sem, count);
      PutCount(sem, count);
      var d := DeferStop();
      r := OK;
    }

    /** The loop of semreset. */
    method EmptyQueue(sem: nat, semqueue: int)
      requires Shape() && sem < NSEM && semqueue == Qid(sem) && Mid(S(), sem)
      modifies this`attempt, this`currpid, this`preempt, q, q.qkey, q.qnext, q.qprev, proctab
      ensures Shape() && S() == Drain(old(S()), sem, |old(S()).lists[sem]|)
      ensures Mid(S(), sem) && |S().lists[sem]| == 0 && S().sems == old(S()).sems
    {
      hide Core, Mid, Kernel.S, ReadyHead, Steady;
      ghost var k := S();
      Facing();
      var none := q.IsEmpty(semqueue, sem);
      while !none
        invariant Shape() && Mid(S(), sem) && none == (|S().lists[sem]| == 0) && S().sems == k.sems
        invariant Drain(k, sem, |k.lists[sem]|) == Drain(S(), sem, |S().lists[sem]|)
        decreases |S().lists[sem]|
      {
        SemHeaded(S(), sem);
        ReadyHeadKeeps(S(), sem);
        ReadyFirst(semqueue, sem, sem);
        Facing();
        none := q.IsEmpty(semqueue, sem);
      }
    }

    /** newsem: the next entry to try, and whether it is free. */
    method TrySem() returns (sem: nat, free: bool)
      requires Shape()
      modifies this`nextsem
      ensures Shape() && sem == old(nextsem) && free == !old(S()).sems[sem].used
      ensures nextsem == (if sem + 1 == NSEM then 0 else sem + 1) && S() == old(S()).(nextsem := nextsem)
    {
      sem := nextsem;
      nextsem := nextsem + 1;
      if nextsem >= NSEM {
        nextsem := 0;
      }
      free := !semtab[sem].sstate;
    }

    /** newsem: the search. */
    method FindFree() returns (sem: int)
      requires Shape()
      modifies this`nextsem
      ensures Shape() && sem == FindSem(old(S()).sems, old(S()).nextsem, |old(S()).sems|)
      ensures S() == old(S()).(nextsem := nextsem)
      ensures nextsem == if sem == SYSERR then old(nextsem) else if sem + 1 == NSEM then 0 else sem + 1
    {
      hide Kernel.S, FindSem;
      ghost var k := S();
      Facing();
      var i := 0;
      var free := false;
      sem := SYSERR;
      while i < NSEM && !free
        invariant 0 <= i <= NSEM && Shape() && S() == k.(nextsem := nextsem)
        invariant !free ==> FindSem(k.sems, k.nextsem, |k.sems|) == FindSem(k.sems, nextsem, NSEM - i)
        invariant !free ==> nextsem == if k.nextsem + i < NSEM then k.nextsem + i else k.nextsem + i - NSEM
        invariant free ==> 0 <= sem < NSEM && sem == FindSem(k.sems, k.nextsem, |k.sems|)
        invariant free ==> nextsem == if sem + 1 == NSEM then 0 else sem + 1
        decreases NSEM - i, !free
      {
        FindStep(k.sems, nextsem, NSEM - i);
        sem, free := TrySem();
        if !free {
          i := i + 1;
        }
      }
      if !free {
        FindStep(k.sems, nextsem, 0);
        sem := SYSERR;
      }
    }

    /** newsem */
    method NewSem() returns (sem: int)
      requires Shape()
      modifies this`nextsem, semtab
      ensures Shape() && sem == FindSem(old(S()).sems, old(S()).nextsem, |old(S()).sems|)
      ensures sem == SYSERR ==> S() == old(S())
      ensures sem != SYSERR ==>
                S() == old(S()).(sems := old(S()).sems[sem := Sem(true, old(S()).sems[sem].count)],
                                 nextsem := if sem + 1 == NSEM then 0 else sem + 1)
    {
      hide Kernel.S;
      Facing();
      sem := FindFree();
      if sem != SYSERR {
        Claim(sem);
      }
    }

    method Claim(sem: nat)
      requires Shape() && sem < NSEM
      modifies semtab
      ensures Shape() && S() == old(S()).(sems := old(S()).sems[sem := Sem(true, old(S()).sems[sem].count)])
    {
      PutSem(sem, true, semtab[sem].scount);
    }

    /** semcreate */
    method SemCreate(count: int) returns (sem: int)
      requires Shape()
      modifies this`nextsem, semtab
      ensures Shape() && (S(), sem) == Spec.SemCreate(old(S()), count)
    {
      hide Kernel.S, FindSem;
      ghost var k := S();
      if count < 0 {
        return SYSERR;
      }
      sem := NewSem();
      if sem != SYSERR {
        assert k.sems[sem := Sem(true, k.sems[sem].count)][sem := Sem(true, count)] == k.sems[sem := Sem(true, count)];
        PutCount(sem, count);
      }
    }

    // ---- processes ----

    method PutProc(pid: nat, pr: Proc)
      requires Shape() && pid < NPROC
      modifies proctab
      ensures Shape() && S() == old(S()).(procs := old(S()).procs[pid := pr])
    {
      proctab[pid] := pr;
      assert proctab[..] == old(proctab[..])[pid := pr];
    }

    /** A process begins or ends. */
    ghost method NoteAt(pid: nat, c: Ctx)
      requires Shape() && pid < NPROC
      modifies `ctx
      ensures Shape() && S() == old(S()).(ctx := old(S()).ctx[pid := c])
    {
      ctx := ctx[pid := c];
    }

    /** newpid: the next entry to try, and whether it is free. */
    method TryPid() returns (pid: nat, free: bool)
      requires Shape()
      modifies this`nextpid
      ensures Shape() && pid == Wrap(old(nextpid)) && free == (old(S()).procs[pid].prstate == PR_FREE)
      ensures nextpid == pid + 1 && S() == old(S()).(nextpid := pid + 1)
    {
      if nextpid == NPROC {
        nextpid := 0;
      }
      pid := nextpid;
      free := proctab[pid].prstate == PR_FREE;
      nextpid := nextpid + 1;
    }

    /** newpid */
    method NewPid() returns (pid: int)
      requires Shape()
      modifies this`nextpid
      ensures Shape() && (S(), pid) == Spec.NewPid(old(S()))
    {
      hide Kernel.S, FindPid;
      ghost var k := S();
      Facing();
      ghost var s := Wrap(nextpid);
      var i := 0;
      var free := false;
      pid := SYSERR;
      while i < NPROC && !free
        invariant 0 <= i <= NPROC && Shape() && S() == k.(nextpid := nextpid)
        invariant !free ==> FindPid(k.procs, s, |k.procs|) == FindPid(k.procs, Wrap(nextpid), NPROC - i)
        invariant !free ==> Wrap(nextpid) == if s + i < NPROC then s + i else s + i - NPROC
        invariant i > 0 && !free ==> nextpid > 0
        invariant free ==> 0 <= pid < NPROC && pid == FindPid(k.procs, s, |k.procs|) && nextpid == pid + 1
        decreases NPROC - i, !free
      {
        FindPidStep(k.procs, Wrap(nextpid), NPROC - i);
        pid, free := TryPid();
        if !free {
          i := i + 1;
        }
      }
      if !free {
        FindPidStep(k.procs, Wrap(nextpid), 0);
        pid := SYSERR;
      }
      Facing();
      NewPidIs(k, s, pid, nextpid);
    }

    /** create, as far as the process table goes; gotstack says whether getstk succeeds. */
    method Create(priority: pri16, gotstack: bool) returns (r: int)
      requires Shape()
      modifies this`nextpid, this`ctx, proctab
      ensures Shape() && (S(), r) == Spec.Create(old(S()), priority, gotstack)
    {
      hide Kernel.S, FindPid;
      if priority < 1 {
        return SYSERR;
      }
      r := NewPid();
      if r == SYSERR || !gotstack {
        return SYSERR;
      }
      Facing();
      PutProc(r, Proc(PR_SUSP, priority, -1, currpid, proctab[r].prmsg, false));
      NoteAt(r, Nothing);
    }

    /** resume */
    method Resume(pid: int) returns (r: int)
      requires Shape() && Inv(S())
      modifies this`attempt, this`currpid, this`preempt, q, q.qkey, q.qnext, q.qprev, proctab
      ensures Shape() && (S(), r) == Spec.Resume(old(S()), pid)
    {
      hide Core, Inv, Kernel.S, Spec.Ready;
      Facing();
      var bad := IsBadPid(pid);
      if bad || proctab[pid].prstate != PR_SUSP {
        return SYSERR;
      }
      ResumeCore(S(), pid);
      r := proctab[pid].prprio;
      var d := Ready(pid, -1);
    }

    /** getitem */
    method Remove(pid: nat, ghost i: nat)
      requires Shape() && pid < NPROC && i < NLISTS && pid in q.lists[i]
      modifies q, q.qnext, q.qprev
      ensures Shape() && S() == Unlink(old(S()), pid, i) && OffLists(q.lists, pid)
    {
      var r := q.GetItem(pid, i);
    }

    /** suspend */
    method Suspend(pid: int) returns (r: int)
      requires Shape() && Inv(S()) && (pid == currpid ==> ndefers == 0)
      modifies this`attempt, this`currpid, this`preempt, q, q.qkey, q.qnext, q.qprev, proctab
      ensures Shape() && (S(), r) == Spec.Suspend(old(S()), pid)
    {
      hide Core, Inv, Kernel.S, Unlink;
      Facing();
      var bad := IsBadPid(pid);
      if bad || pid == NULLPROC || (proctab[pid].prstate != PR_CURR && proctab[pid].prstate != PR_READY) {
        return SYSERR;
      }
      SuspendCore(S(), pid);
      r := proctab[pid].prprio;
      if proctab[pid].prstate == PR_READY {
        Remove(pid, RL);
        PutState(pid, PR_SUSP);
      } else {
        PutState(pid, PR_SUSP);
        Resched(-1);
      }
    }

    method AddDelay(pidnext: nat, pid: nat)
      requires Shape() && pidnext < NPROC && pid < NPROC
      modifies q.qkey
      ensures Shape()
      ensures S() == old(S()).(keys := old(S()).keys[pidnext := old(S()).keys[pidnext] + old(S()).keys[pid]])
    {
      q.SetKey(pidnext, q.qkey[pidnext] + q.qkey[pid]);
    }

    /** unsleep */
    method Unsleep(pid: int) returns (r: int)
      requires Shape() && (!BadPid(S(), pid) && S().procs[pid].prstate in {PR_SLEEP, PR_RECTIM} ==> pid in q.lists[SQ])
      modifies q, q.qkey, q.qnext, q.qprev
      ensures Shape() && (S(), r) == Spec.Unsleep(old(S()), pid)
      ensures !BadPid(old(S()), pid) && old(S()).procs[pid].prstate in {PR_SLEEP, PR_RECTIM} ==>
                r == OK && OffLists(q.lists, pid)
    {
      hide Kernel.S, Unlink;
      Facing();
      var bad := IsBadPid(pid);
      if bad || (proctab[pid].prstate != PR_SLEEP && proctab[pid].prstate != PR_RECTIM) {
        return SYSERR;
      }
      ghost var l, a := q.lists[SQ], IndexOf(q.lists[SQ], pid);
      q.Hop(SQ, a + 1);
      var pidnext := q.qnext[pid];
      if pidnext < NPROC {
        AddDelay(pidnext, pid);
        Facing();
      }
      Remove(pid, SQ);
      r := OK;
    }

    // ---- messages ----

    /** send */
    method Send(pid: int, msg: int) returns (r: int)
      requires Shape() && Inv(S())
      modifies this`attempt, this`currpid, this`preempt, q, q.qkey, q.qnext, q.qprev, proctab
      ensures Shape() && (S(), r) == Spec.Send(old(S()), pid, msg)
    {
      hide Core, Inv, Kernel.S, Spec.Ready, Spec.Unsleep;
      Facing();
      var bad := IsBadPid(pid);
      if bad || proctab[pid].prhasmsg {
        return SYSERR;
      }
      SendCore(S(), pid, msg);
      var st := proctab[pid].prstate;
      PutProc(pid, proctab[pid].(prmsg := msg, prhasmsg := true));
      Facing();
      if st == PR_RECV {
        var d := Ready(pid, -1);
      } else if st == PR_RECTIM {
        var u := Unsleep(pid);
        Facing();
        var d := Ready(pid, -1);
      }
      r := OK;
    }

    /** The end of receive, run when there is a message. */
    method TakeMessage() returns (msg: int)
      requires Shape()
      modifies this`ctx, proctab
      ensures Shape() && S() == Take(old(S())) && msg == old(S()).procs[old(currpid)].prmsg
    {
      hide Kernel.S;
      Facing();
      msg := proctab[currpid].prmsg;
      PutProc(currpid, proctab[currpid].(prhasmsg := false));
      Facing();
      Note(Nothing);
    }

    /** receive, up to the point where it may have to wait. */
    method Receive() returns (done: bool, msg: int)
      requires Shape() && Inv(S()) && (CanBlock(S()) || proctab[currpid].prhasmsg)
      modifies this`ctx, this`attempt, this`currpid, this`preempt, q, q.qkey, q.qnext, q.qprev, proctab
      ensures Shape() && S() == Spec.Receive(old(S()))
      ensures done == old(proctab[currpid].prhasmsg) && (done ==> msg == old(proctab[currpid].prmsg))
    {
      hide Core, Inv, Kernel.S, Take;
      Facing();
      done, msg := proctab[currpid].prhasmsg, 0;
      if done {
        msg := TakeMessage();
      } else {
        BlockCore(S(), PR_RECV, Receiving);
        Note(Receiving);
        Facing();
        PutState(currpid, PR_RECV);
        Resched(-1);
      }
    }

    /** receive, when the caller runs again after it had to wait. */
    method ReceiveResumed() returns (msg: int)
      requires Shape() && Inv(S()) && ctx[currpid] == Receiving
      modifies this`ctx, proctab
      ensures old(proctab[currpid].prhasmsg) && msg == old(proctab[currpid].prmsg)
      ensures Shape() && S() == Take(old(S()))
    {
      ReceiveReturns(S());
      hide Inv, Kernel.S, Take;
      Facing();
      msg := TakeMessage();
    }

    /** Put the caller on the sleep queue. */
    method Doze(delay: nat, st: PrState)
      requires Shape() && OffLists(q.lists, currpid)
      modifies proctab, q, q.qkey, q.qnext, q.qprev
      ensures Shape() && S() == Asleep(old(S()), delay, st)
    {
      var r := q.InsertD(currpid, sleepq, delay, false, SQ);
      PutState(currpid, st);
    }

    /** recvtime, up to the point where it may have to wait. */
    method RecvTime(maxwait: int) returns (done: bool, msg: int)
      requires Shape() && Inv(S()) && maxwait <= MAXKEY && (CanBlock(S()) || proctab[currpid].prhasmsg)
      modifies this`ctx, this`attempt, this`currpid, this`preempt, q, q.qkey, q.qnext, q.qprev, proctab
      ensures Shape() && S() == Spec.RecvTime(old(S()), maxwait)
      ensures done == (maxwait < 0 || old(proctab[currpid].prhasmsg))
      ensures done ==> msg == if maxwait < 0 then SYSERR else old(proctab[currpid].prmsg)
    {
      hide Core, Inv, Kernel.S, Take, Asleep;
      Facing();
      done, msg := true, SYSERR;
      if maxwait < 0 {
        return;
      }
      if proctab[currpid].prhasmsg {
        msg := TakeMessage();
        return;
      }
      DozeCore(S(), maxwait, PR_RECTIM, TimedReceiving);
      Note(TimedReceiving);
      Facing();
      Doze(maxwait, PR_RECTIM);
      Resched(-1);
      done := false;
    }

    /** recvtime, when the caller runs again. */
    method RecvTimeResumed() returns (msg: int)
      requires Shape()
      modifies this`ctx, proctab
      ensures Shape() && S() == if old(proctab[currpid].prhasmsg) then Take(old(S())) else SetCtx(old(S()), Nothing)
      ensures msg == if old(proctab[currpid].prhasmsg) then old(proctab[currpid].prmsg) else TIMEOUT
    {
      hide Kernel.S, Take;
      Facing();
      if proctab[currpid].prhasmsg {
        msg := TakeMessage();
      } else {
        Note(Nothing);
        msg := TIMEOUT;
      }
    }

    /** sleepms */
    method SleepMs(delay: int) returns (r: int)
      requires Shape() && Inv(S()) && CanBlock(S()) && delay <= MAXKEY && ctx[currpid] == Nothing
      modifies this`attempt, this`currpid, this`preempt, q, q.qkey, q.qnext, q.qprev, proctab
      ensures Shape() && S() == Spec.SleepMs(old(S()), delay) && r == if delay < 0 then SYSERR else OK
    {
      hide Core, Kernel.S, Asleep;
      Facing();
      if delay < 0 {
        return SYSERR;
      }
      if delay == 0 {
        Resched(-1);
        return OK;
      }
      DozeCore(S(), delay, PR_SLEEP, Nothing);
      assert SetCtx(S(), Nothing) == S() by { SameCtx(S()); }
      Doze(delay, PR_SLEEP);
      Resched(-1);
      r := OK;
    }

    // ---- kill ----

    /** kill, up to and including the message to the parent. */
    method KillBegin(pid: int) returns (r: int)
      requires Shape() && Inv(S())
      modifies this`ctx, this`attempt, this`currpid, this`preempt, q, q.qkey, q.qnext, q.qprev, proctab
      ensures Shape() && S() == Spec.KillBegin(old(S()), pid)
      ensures r == if BadPid(old(S()), pid) || pid == NULLPROC then SYSERR else OK
    {
      hide Core, Inv, Kernel.S, Spec.Send;
      Facing();
      var bad := IsBadPid(pid);
      if bad || pid == NULLPROC {
        return SYSERR;
      }
      var parent := proctab[pid].prparent;
      CtxKeeps(S(), Killing(pid));
      Note(Killing(pid));
      var d := Send(parent, pid);
      r := OK;
    }

    method Bury(pid: nat)
      requires Shape() && pid < NPROC
      modifies this`ctx, proctab
      ensures Shape() && S() == Freed(old(S()), pid)
    {
      PutState(pid, PR_FREE);
      NoteAt(pid, Nothing);
    }

    /** kill, when the caller goes on: the victim may have moved in the meantime. A process
        that kills itself does not return. */
    method KillEnd(pid: nat)
      requires Shape() && Inv(S()) && pid < NPROC && pid != NULLPROC && (pid == currpid ==> ndefers == 0)
      modifies this`ctx, this`attempt, this`currpid, this`preempt, q, q.qkey, q.qnext, q.qprev, proctab, semtab
      ensures Shape() && S() == Spec.KillEnd(old(S()), pid)
    {
      hide Core, Inv, Kernel.S, Unlink, Spec.Unsleep, Freed;
      KillCore(S(), pid);
      Note(Nothing);
      Facing();
      match proctab[pid].prstate {
        case PR_CURR =>
          Bury(pid);
          Resched(-1);
        case PR_SLEEP =>
          var u := Unsleep(pid);
          Bury(pid);
        case PR_RECTIM =>
          var u := Unsleep(pid);
          Bury(pid);
        case PR_WAIT =>
          var s := proctab[pid].prsem;
          PutCount(s, Bump(semtab[s].scount));
          Facing();
          Remove(pid, s);
          Bury(pid);
        case PR_READY =>
          Remove(pid, RL);
          Bury(pid);
        case _ =>
          Bury(pid);
      }
    }

    // ---- the clock ----

    method CountDown(pid: nat) returns (key: int)
      requires Shape() && pid < NPROC
      modifies q.qkey
      ensures Shape() && key == old(S()).keys[pid] - 1
      ensures S() == old(S()).(keys := old(S()).keys[pid := old(S()).keys[pid] - 1])
    {
      key := q.qkey[pid] - 1;
      q.SetKey(pid, key);
    }

    /** wakeup */
    method Wakeup()
      requires Shape() && Waking(S()) && Due(S().lists[SQ], S().keys) > 0
      modifies this`ndefers, this`attempt, this`currpid, this`preempt, q, q.qkey, q.qnext, q.qprev, proctab
      ensures Shape() && S() == Spec.Wakeup(old(S()))
    {
      hide Waking, Kernel.S, Spec.DeferStart, Spec.DeferStop, Drain, Due;
      WakeStarts(S());
      DeferStart();
      WakeSleepers();
      var d := DeferStop();
    }

    /** The loop of wakeup. */
    method WakeSleepers()
      requires Shape() && Waking(S()) && Due(S().lists[SQ], S().keys) > 0
      modifies this`attempt, this`currpid, this`preempt, q, q.qkey, q.qnext, q.qprev, proctab
      ensures Shape() && S() == Drain(old(S()), SQ, Due(old(S()).lists[SQ], old(S()).keys)) && Inv(S())
    {
      hide Waking, Inv, Kernel.S, ReadyHead, Headed, Due, Drain;
      ghost var k := S();
      ghost var n := Due(k.lists[SQ], k.keys);
      WokenUp(k);
      Facing();
      ghost var left := n;
      var none := q.IsEmpty(sleepq, SQ);
      var key := q.FirstKey(sleepq, SQ);
      WakeDue(S());
      while !none && key <= 0
        invariant Shape() && Waking(S()) && none == (|S().lists[SQ]| == 0)
        invariant !none ==> key == S().keys[S().lists[SQ][0]]
        invariant left == Due(S().lists[SQ], S().keys) && Drain(k, SQ, n) == Drain(S(), SQ, left)
        invariant (left > 0) == (!none && key <= 0)
        decreases left
      {
        WakeStep(S());
        DrainOne(S(), left);
        Facing();
        ReadyFirst(sleepq, SQ, -1);
        left := left - 1;
        Facing();
        none := q.IsEmpty(sleepq, SQ);
        key := q.FirstKey(sleepq, SQ);
        WakeDue(S());
      }
      DrainNone(S());
    }

    /** clkhandler, up to and including wakeup; clktime is not kept here. */
    method ClkHandler()
      requires Shape() && Inv(S()) && ctx[currpid] == Nothing
      modifies this`ctx, this`ndefers, this`attempt, this`currpid, this`preempt, q, q.qkey, q.qnext, q.qprev, proctab
      ensures Shape() && S() == Tick(old(S()))
    {
      hide Waking, Inv, Kernel.S, Spec.Wakeup;
      ghost var k := S();
      Facing();
      TickCore(k);
      Note(InClock);
      Facing();
      var none := q.IsEmpty(sleepq, SQ);
      if !none {
        q.Hop(SQ, 0);
        var first := q.qnext[sleepq];
        var key := CountDown(first);
        Facing();
        if key <= 0 {
          Wakeup();
        }
      }
    }

    method PutPreempt(n: int)
      requires Shape()
      modifies this`preempt
      ensures Shape() && S() == old(S()).(preempt := n)
    {
      preempt := n;
    }

    /** clkhandler, when the interrupted process goes on. */
    method ClkRest()
      requires Shape() && Inv(S())
      modifies this`ctx, this`attempt, this`currpid, this`preempt, q, q.qkey, q.qnext, q.qprev, proctab
      ensures Shape() && S() == Slice(old(S()))
    {
      hide Core, Inv, Kernel.S;
      SliceCore(S());
      Note(Nothing);
      Facing();
      var left := preempt - 1;
      if left <= 0 {
        PutPreempt(QUANTUM);
        Resched(-1);
      } else {
        PutPreempt(left);
      }
    }
  }

  lemma OffHome(k: K, x: int, p: nat)
    requires Core(k, x, -1) && p < NPROC && Home(k.procs[p]) == EMPTY
    ensures OffLists(k.lists, p)
  {
  }

  lemma ReadyNonempty(k: K, p: nat)
    requires Sized(k) && p < NPROC
    ensures |Enready(k, p).lists[RL]| > 0
  {
  }

  /** The first process of list i can be readied. */
  ghost predicate Headed(k: K, i: nat, x: int)
    requires Sized(k) && i < NLISTS && |k.lists[i]| > 0
  {
    var t, p := SetList(k, i, k.lists[i][1..]), k.lists[i][0];
    Core(Enready(t, p), x, -1)
  }

  lemma SemHeaded(k: K, i: nat)
    requires Mid(k, i) && i < NSEM && |k.lists[i]| > 0
    ensures Headed(k, i, i)
  {
    var p, t := k.lists[i][0], SetList(k, i, k.lists[i][1..]);
    HeadIs(k, i);
    About(k, i, p);
    UnlinkOk(k, i, p, i);
    EnreadyOk(t, i, p);
  }

  lemma InvMid(k: K, s: nat)
    requires Inv(k)
    ensures Mid(k, s) && Sized(k)
  {
    ExceptOk(k, s);
  }

  lemma ReleaseCore(k: K, s: nat, n: int)
    requires Mid(k, s) && s < NSEM
    ensures |k.lists[s]| > 0 ==> Headed(SetCount(k, s, n), s, s)
  {
    SemChanged(k, s, k.sems[s].(count := n), k.nextsem);
    assert SetCount(k, s, n) == k.(sems := k.sems[s := k.sems[s].(count := n)], nextsem := k.nextsem);
    hide Mid;
    if |k.lists[s]| > 0 {
      SemHeaded(SetCount(k, s, n), s);
    }
  }

  /** wait, if it blocks, can reschedule. */
  lemma WaitCore(k: K, s: nat)
    requires Inv(k) && s < NSEM && k.sems[s].used && k.ctx[k.currpid] == Nothing
    ensures OffLists(k.lists, k.currpid)
    ensures k.sems[s].count <= 0 && CanBlock(k) ==> Core(Enqueued(SetCount(k, s, k.sems[s].count - 1), s), -1, -1)
  {
    var n := k.sems[s].count - 1;
    OffHome(k, -1, k.currpid);
    ExceptOk(k, s);
    SemChanged(k, s, Sem(true, n), k.nextsem);
    var t := SetCount(k, s, n);
    assert t == k.(sems := k.sems[s := Sem(true, n)], nextsem := k.nextsem);
    SemIs(k, s);
    if n < 0 && CanBlock(k) {
      LiftOk(t, s, t.currpid);
      EnqueuedOk(t, s);
      CoreSettled(Enqueued(t, s), s);
    }
  }

  lemma SemDeleteRefused(k: K, s: int)
    requires Inv(k)
    ensures Sized(k) && (BadSem(s) || !k.sems[s].used ==> Spec.SemDelete(k, s) == (k, SYSERR))
    ensures !BadSem(s) && k.sems[s].used ==> Spec.SemDelete(k, s).1 == OK
  {
  }

  lemma DeleteStarts(k: K, s: nat, t: K)
    requires Inv(k) && s < NSEM && k.sems[s].used && t == k.(sems := k.sems[s := Sem(false, k.sems[s].count)])
    ensures var u := Spec.DeferStart(t);
            && Mid(u, s) && u.sems == t.sems && u.lists == k.lists
            && |u.lists[s]| == (if k.sems[s].count < 0 then -k.sems[s].count else 0) && u.sems[s].count <= MAXCOUNT
  {
    SemIs(k, s);
    ExceptOk(k, s);
    SemChanged(k, s, Sem(false, k.sems[s].count), k.nextsem);
    assert t == k.(sems := k.sems[s := Sem(false, k.sems[s].count)], nextsem := k.nextsem);
    MidDefer(t, s);
  }

  lemma ResetStarts(k: K, s: nat)
    requires Inv(k) && s < NSEM
    ensures Mid(Spec.DeferStart(k), s) && Spec.DeferStart(k).lists == k.lists && Spec.DeferStart(k).sems == k.sems
  {
    ExceptOk(k, s);
    MidDefer(k, s);
  }

  lemma ResetEnds(k: K, s: nat, count: int)
    requires Mid(k, s) && s < NSEM && |k.lists[s]| == 0 && 0 <= count <= MAXCOUNT && k.sems[s].used
    ensures Inv(SetCount(k, s, count))
  {
    SemChanged(k, s, Sem(true, count), k.nextsem);
    var v := SetCount(k, s, count);
    assert v == k.(sems := k.sems[s := Sem(true, count)], nextsem := k.nextsem);
    SettledOk(v, s);
  }

  lemma ResumeCore(k: K, p: nat)
    requires Inv(k) && p < NPROC && k.procs[p].prstate == PR_SUSP
    ensures OffLists(k.lists, p) && Core(Enready(k, p), -1, -1)
  {
    About(k, -1, p);
    OffHome(k, -1, p);
    LiftOk(k, -1, p);
    EnreadyOk(k, -1, p);
  }

  lemma SuspendCore(k: K, p: nat)
    requires Inv(k) && p < NPROC && p != NULLPROC && (p == k.currpid ==> k.ndefers == 0)
    ensures k.procs[p].prstate == PR_READY ==> p in k.lists[RL]
    ensures k.procs[p].prstate == PR_CURR ==> Core(SetState(k, p, PR_SUSP), -1, -1)
  {
    hide MembersOf, StatesOf, SemsOf, ReadyOf, Delays;
    About(k, -1, p);
    if k.procs[p].prstate == PR_CURR {
      StopCore(k, PR_SUSP, k.ctx[p]);
      assert SetCtx(k, k.ctx[p]).ctx == k.ctx;
    }
  }

  lemma BlockCore(k: K, st: PrState, c: Ctx)
    requires Inv(k) && CanBlock(k) && st in {PR_FREE, PR_RECV, PR_SUSP}
    requires MsgOk(k.procs[k.currpid].(prstate := st), c)
    ensures Sized(k) && Core(SetState(SetCtx(k, c), k.currpid, st), -1, -1)
  {
    StopCore(k, st, c);
  }

  /** What send needs to know before it readies the receiver. */
  lemma SendCore(k: K, p: nat, msg: int)
    requires Inv(k) && p < NPROC && !k.procs[p].prhasmsg && k.procs[p].prstate != PR_FREE
    ensures k.procs[p].prstate == PR_RECV ==> OffLists(k.lists, p)
    ensures k.procs[p].prstate == PR_RECV ==>
              Core(Enready(k.(procs := k.procs[p := k.procs[p].(prmsg := msg, prhasmsg := true)]), p), -1, -1)
    ensures k.procs[p].prstate == PR_RECTIM ==> p in k.lists[SQ]
    ensures k.procs[p].prstate == PR_RECTIM ==>
              Core(Enready(Spec.Unsleep(k.(procs := k.procs[p := k.procs[p].(prmsg := msg, prhasmsg := true)]), p).0,
                           p), -1, -1)
  {
    hide Inv, Core, Enready, Spec.Unsleep;
    InvSized(k);
    if k.procs[p].prstate == PR_RECV {
      WaiterCore(k, p, msg);
    } else if k.procs[p].prstate == PR_RECTIM {
      SleeperCore(k, p, msg);
    }
  }

  lemma WaiterCore(k: K, p: nat, msg: int)
    requires Inv(k) && p < NPROC && k.procs[p].prstate == PR_RECV && !k.procs[p].prhasmsg
    ensures OffLists(k.lists, p)
    ensures Core(Enready(k.(procs := k.procs[p := k.procs[p].(prmsg := msg, prhasmsg := true)]), p), -1, -1)
  {
    hide MembersOf, StatesOf, SemsOf, ReadyOf, Delays, Enready;
    var pr := k.procs[p].(prmsg := msg, prhasmsg := true);
    OffHome(k, -1, p);
    SentWaiter(k, p, pr);
    About(k, -1, p);
    EnreadyOk(k.(procs := k.procs[p := pr]), -1, p);
  }

  lemma SleeperCore(k: K, p: nat, msg: int)
    requires Inv(k) && p < NPROC && k.procs[p].prstate == PR_RECTIM && !k.procs[p].prhasmsg
    ensures p in k.lists[SQ]
    ensures Core(Enready(Spec.Unsleep(k.(procs := k.procs[p := k.procs[p].(prmsg := msg, prhasmsg := true)]), p).0, p),
                 -1, -1)
  {
    hide MembersOf, StatesOf, SemsOf, ReadyOf, Delays, Enready, Spec.Unsleep;
    var pr := k.procs[p].(prmsg := msg, prhasmsg := true);
    var t := k.(procs := k.procs[p := pr]);
    SentSleeper(k, p, pr);
    RecTimCtx(k, p);
    EnreadyOk(Spec.Unsleep(t, p).0, -1, p);
  }

  lemma RecTimCtx(k: K, p: nat)
    requires Inv(k) && p < NPROC && k.procs[p].prstate == PR_RECTIM
    ensures k.ctx[p] == TimedReceiving
  {
    hide MembersOf, SemsOf, ReadyOf, Delays;
    About(k, -1, p);
  }

  lemma SameCtx(k: K)
    requires Sized(k) && k.ctx[k.currpid] == Nothing
    ensures SetCtx(k, Nothing) == k
  {
    assert k.ctx[k.currpid := Nothing] == k.ctx;
  }

  lemma DozeCore(k: K, d: int, st: PrState, c: Ctx)
    requires Inv(k) && CanBlock(k) && 0 <= d <= MAXKEY
    requires (st == PR_SLEEP && c == Nothing)
             || (st == PR_RECTIM && c == TimedReceiving && !k.procs[k.currpid].prhasmsg)
    ensures Sized(k) && OffLists(k.lists, k.currpid) && Core(Asleep(SetCtx(k, c), d, st), -1, -1)
  {
    var p := k.currpid;
    OffHome(k, -1, p);
    LiftOk(k, -1, p);
    TouchOk(k, -1, p, k.procs[p], c);
    assert k.procs[p := k.procs[p]] == k.procs;
    AsleepOk(SetCtx(k, c), d, st);
  }

  /** What kill needs to know of its victim. */
  lemma KillCore(k: K, p: nat)
    requires Inv(k) && p < NPROC && p != NULLPROC
    ensures Sized(k)
    ensures k.procs[p].prstate == PR_CURR ==> p == k.currpid && Core(Freed(SetCtx(k, Nothing), p), -1, -1)
    ensures k.procs[p].prstate == PR_READY ==> p in k.lists[RL]
    ensures k.procs[p].prstate in {PR_SLEEP, PR_RECTIM} ==> p in k.lists[SQ]
    ensures k.procs[p].prstate == PR_WAIT ==> 0 <= k.procs[p].prsem < NSEM && p in k.lists[k.procs[p].prsem]
  {
    hide MembersOf, StatesOf, SemsOf, ReadyOf, Delays;
    About(k, -1, p);
    if k.procs[p].prstate == PR_CURR {
      CtxKeeps(k, Nothing);
      StopCore(SetCtx(k, Nothing), PR_FREE, Nothing);
      var t := SetCtx(k, Nothing);
      assert SetState(SetCtx(t, Nothing), p, PR_FREE) == Freed(t, p);
    }
  }

  lemma WakeStarts(k: K)
    requires Waking(k)
    ensures var t := Spec.DeferStart(k); Waking(t) && t.lists == k.lists && t.keys == k.keys
  {
    DeferralOk(k, -1, -1, Spec.DeferStart(k).ndefers, Spec.DeferStart(k).attempt);
  }

  lemma WokenUp(k: K)
    requires Waking(k) && Due(k.lists[SQ], k.keys) > 0
    ensures Inv(Drain(k, SQ, Due(k.lists[SQ], k.keys)))
  {
    WakeAll(k, Due(k.lists[SQ], k.keys));
  }

  lemma WakeDue(k: K)
    requires Sized(k)
    ensures Due(k.lists[SQ], k.keys) > 0 <==> |k.lists[SQ]| > 0 && k.keys[k.lists[SQ][0]] <= 0
  {
  }

  /** One turn of the loop of wakeup. */
  lemma WakeStep(k: K)
    requires Waking(k) && |k.lists[SQ]| > 0 && k.keys[k.lists[SQ][0]] <= 0
    ensures Headed(k, SQ, -1)
    ensures Waking(ReadyHead(k, SQ))
    ensures Due(k.lists[SQ], k.keys) == 1 + Due(ReadyHead(k, SQ).lists[SQ], ReadyHead(k, SQ).keys)
  {
    WakeHead(k);
    WakeKeys(k);
    PopDue(k.lists[SQ], k.keys, ReadyHead(k, SQ).lists[SQ], ReadyHead(k, SQ).keys);
    hide ReadyHead;
    HeadFloats(k);
    About(k, -1, k.lists[SQ][0]);
    EnreadyOk(SetList(k, SQ, k.lists[SQ][1..]), -1, k.lists[SQ][0]);
  }

  lemma TickCore(k: K)
    requires Inv(k) && k.ctx[k.currpid] == Nothing
    ensures Sized(k)
    ensures |k.lists[SQ]| > 0 ==>
              var t, p := SetCtx(k, InClock), k.lists[SQ][0];
              var u := t.(keys := t.keys[p := t.keys[p] - 1]);
              && Waking(u)
              && (u.keys[p] <= 0 ==> Due(u.lists[SQ], u.keys) > 0)
  {
    hide MembersOf, StatesOf, SemsOf, ReadyOf, Delays;
    CtxKeeps(k, InClock);
    var t := SetCtx(k, InClock);
    var l := t.lists[SQ];
    if |l| > 0 {
      OnceIs(t, SQ);
      TickDelays(l, t.keys);
      ReadyTick(t, l);
    }
  }

  lemma SliceCore(k: K)
    requires Inv(k)
    ensures Sized(k) && Core(SetCtx(k, Nothing).(preempt := QUANTUM), -1, -1)
  {
    hide MembersOf, StatesOf, SemsOf, ReadyOf, Delays;
    CtxKeeps(k, Nothing);
  }

  lemma NewPidIs(k: K, s: nat, pid: int, next: nat)
    requires Sized(k) && s == Wrap(k.nextpid) && pid == FindPid(k.procs, s, |k.procs|)
    requires next == if pid == SYSERR then (if s == 0 then NPROC else s) else pid + 1
    ensures Spec.NewPid(k) == (k.(nextpid := next), pid)
  {
    hide FindPid;
  }

  lemma FindStep(sems: seq<Sem>, start: nat, n: nat)
    requires start < |sems|
    ensures n == 0 ==> FindSem(sems, start, n) == SYSERR
    ensures n > 0 && !sems[start].used ==> FindSem(sems, start, n) == start
    ensures n > 0 && sems[start].used ==>
              FindSem(sems, start, n) == FindSem(sems, if start + 1 == |sems| then 0 else start + 1, n - 1)
  {
  }

  lemma FindPidStep(procs: seq<Proc>, start: nat, n: nat)
    requires start < |procs| == NPROC
    ensures n == 0 ==> FindPid(procs, start, n) == SYSERR
    ensures n > 0 && procs[start].prstate == PR_FREE ==> FindPid(procs, start, n) == start
    ensures n > 0 && procs[start].prstate != PR_FREE ==>
            FindPid(procs, start, n) == FindPid(procs, Wrap(start + 1), n - 1)
  {
  }
}
