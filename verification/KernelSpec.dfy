/** The process manager as a state machine: the process table, the semaphores and the
    lists of processes as plain sequences, and every call as a function on them. */
module KernelSpec {
  import opened KernelQueues

  const NULLPROC := 0
  const QUANTUM := 2
  const TIMEOUT := -3
  const NLISTS := NSEM + 2
  const RL := NSEM          // readylist
  const SQ := NSEM + 1      // sleepq
  const MAXCOUNT := 0x7FFF_FFFF

  type pri16 = x: int | -32768 <= x < 32768

  datatype PrState = PR_FREE | PR_CURR | PR_READY | PR_RECV | PR_SLEEP | PR_SUSP | PR_WAIT | PR_RECTIM

  datatype Proc = Proc(prstate: PrState, prprio: pri16, prsem: int, prparent: int, prmsg: int, prhasmsg: bool)

  datatype Sem = Sem(used: bool, count: int)

  /** How many may still pass without waiting. */
  function Permits(s: Sem): nat {
    if s.count > 0 then s.count else 0
  }

  /** What a process will do when it runs again inside a call that can lose the processor
      halfway. In the source this is kept on the stack of the process. */
  datatype Ctx = Nothing | Receiving | TimedReceiving | Killing(pid: nat) | InClock

  /** lists[s] is the queue of semaphore s, then come the ready list and the sleep queue. */
  datatype K = K(procs: seq<Proc>, sems: seq<Sem>, lists: seq<seq<nat>>, keys: seq<int>,
                 currpid: nat, ndefers: nat, attempt: bool, preempt: int, nextsem: nat, nextpid: nat,
                 ctx: seq<Ctx>)

  ghost predicate Sized(k: K) {
    && |k.procs| == NPROC && |k.sems| == NSEM && |k.lists| == NLISTS && |k.keys| == NPROC && |k.ctx| == NPROC
    && k.currpid < NPROC && k.nextsem < NSEM && k.nextpid <= NPROC
    && forall i :: 0 <= i < NLISTS ==> Procs(k.lists[i])
  }

  /** The list that a process is on, by its state. */
  function Home(p: Proc): int {
    match p.prstate
    case PR_READY => RL
    case PR_WAIT => p.prsem
    case PR_SLEEP => SQ
    case PR_RECTIM => SQ
    case _ => EMPTY
  }

  predicate BadPid(k: K, p: int)
    requires |k.procs| == NPROC
  {
    p < 0 || p >= NPROC || k.procs[p].prstate == PR_FREE
  }

  predicate BadSem(s: int) {
    s < 0 || s >= NSEM
  }

  function SetState(k: K, p: nat, st: PrState): K
    requires p < |k.procs|
  {
    k.(procs := k.procs[p := k.procs[p].(prstate := st)])
  }

  function SetList(k: K, i: nat, l: seq<nat>): K
    requires i < |k.lists|
  {
    k.(lists := k.lists[i := l])
  }

  function SetCount(k: K, s: nat, n: int): K
    requires s < |k.sems|
  {
    k.(sems := k.sems[s := k.sems[s].(count := n)])
  }

  function SetCtx(k: K, c: Ctx): K
    requires k.currpid < |k.ctx|
  {
    k.(ctx := k.ctx[k.currpid := c])
  }

  /** Arithmetic on a 32-bit signed count. */
  function Bump(n: int): int {
    if n == MAXCOUNT then -MAXCOUNT - 1 else n + 1
  }

  // ---- scheduling ----

  /** The first half of ready: p goes on the ready list, behind all of at least its priority. */
  ghost function Enready(k: K, p: nat): (r: K)
    requires Sized(k) && p < NPROC
    ensures Sized(r)
  {
    var prio, l := k.procs[p].prprio, k.lists[RL];
    SetList(SetState(k, p, PR_READY), RL, PutAt(l, Place(l, k.keys, prio), p)).(keys := k.keys[p := prio])
  }

  ghost function FirstKey(k: K): int
    requires Sized(k)
  {
    if |k.lists[RL]| == 0 then MINKEY else k.keys[k.lists[RL][0]]
  }

  /** The head of the ready list takes the processor. That there is one is NeverStuck. */
  ghost function Dispatch(k: K): (r: K)
    requires Sized(k)
    ensures Sized(r)
  {
    if |k.lists[RL]| == 0 then k
    else
      var p := k.lists[RL][0];
      SetState(SetList(k, RL, k.lists[RL][1..]), p, PR_CURR).(currpid := p, preempt := QUANTUM)
  }

  ghost function Resched(k: K): (r: K)
    requires Sized(k)
    ensures Sized(r)
  {
    if k.ndefers > 0 then k.(attempt := true)
    else if k.procs[k.currpid].prstate == PR_CURR then
      if k.procs[k.currpid].prprio > FirstKey(k) then k else Dispatch(Enready(k, k.currpid))
    else Dispatch(k)
  }

  /** resched_cntl(DEFER_START) and resched_cntl(DEFER_STOP) */
  ghost function DeferStart(k: K): K {
    if k.ndefers == 0 then k.(ndefers := 1, attempt := false) else k.(ndefers := k.ndefers + 1)
  }

  ghost function DeferStop(k: K): (r: K)
    requires Sized(k)
    ensures Sized(r)
  {
    if k.ndefers == 0 then k
    else if k.ndefers == 1 && k.attempt then Resched(k.(ndefers := 0))
    else k.(ndefers := k.ndefers - 1)
  }

  ghost function Ready(k: K, p: int): (r: K)
    requires Sized(k)
    ensures Sized(r)
  {
    if BadPid(k, p) then k else Resched(Enready(k, p))
  }

  // ---- semaphores ----

  /** The first process of list i leaves it and is readied. */
  ghost function ReadyHead(k: K, i: nat): (r: K)
    requires Sized(k) && i < NLISTS
    ensures Sized(r)
  {
    if |k.lists[i]| == 0 then k else Ready(SetList(k, i, k.lists[i][1..]), k.lists[i][0])
  }

  /** The current process gives up the processor in state st. */
  ghost function Block(k: K, st: PrState): (r: K)
    requires Sized(k)
    ensures Sized(r)
  {
    Resched(SetState(k, k.currpid, st))
  }

  /** The current process joins the queue of semaphore s. */
  ghost function Enqueued(k: K, s: nat): (r: K)
    requires Sized(k) && s < NSEM
    ensures Sized(r)
  {
    var p := k.procs[k.currpid].(prstate := PR_WAIT, prsem := s);
    SetList(k.(procs := k.procs[k.currpid := p]), s, k.lists[s] + [k.currpid])
  }

  ghost function Wait(k: K, s: int): (r: (K, int))
    requires Sized(k)
    ensures Sized(r.0)
  {
    if BadSem(s) || !k.sems[s].used then (k, SYSERR)
    else
      var t := SetCount(k, s, k.sems[s].count - 1);
      (if t.sems[s].count < 0 then Resched(Enqueued(t, s)) else t, OK)
  }

  /** One increment, which releases the first waiter if there is one. */
  ghost function SignalOne(k: K, s: nat): (r: K)
    requires Sized(k) && s < NSEM
    ensures Sized(r)
  {
    var t := SetCount(k, s, Bump(k.sems[s].count));
    if k.sems[s].count < 0 then ReadyHead(t, s) else t
  }

  ghost function Signal(k: K, s: int): (r: (K, int))
    requires Sized(k)
    ensures Sized(r.0)
  {
    if BadSem(s) || !k.sems[s].used then (k, SYSERR) else (SignalOne(k, s), OK)
  }

  ghost function SignalMany(k: K, s: nat, n: nat): (r: K)
    requires Sized(k) && s < NSEM
    ensures Sized(r)
    decreases n
  {
    if n == 0 then k else SignalMany(SignalOne(k, s), s, n - 1)
  }

  ghost function SignalN(k: K, s: int, count: int): (r: (K, int))
    requires Sized(k)
    ensures Sized(r.0)
  {
    if BadSem(s) || count < 0 || !k.sems[s].used then (k, SYSERR)
    else (DeferStop(SignalMany(DeferStart(k), s, count)), OK)
  }

  /** All processes on list i are readied, first come first. */
  ghost function Drain(k: K, i: nat, n: nat): (r: K)
    requires Sized(k) && i < NLISTS
    ensures Sized(r)
    decreases n
  {
    if n == 0 then k else Drain(ReadyHead(k, i), i, n - 1)
  }

  ghost function SemDelete(k: K, s: int): (r: (K, int))
    requires Sized(k)
    ensures Sized(r.0)
  {
    if BadSem(s) || !k.sems[s].used then (k, SYSERR)
    else
      var c := k.sems[s].count;
      var t := DeferStart(k.(sems := k.sems[s := Sem(false, c)]));
      var u := SignalMany(t, s, if c < 0 then -c else 0);
      (DeferStop(SetCount(u, s, Bump(u.sems[s].count))), OK)
  }

  ghost function SemReset(k: K, s: int, count: int): (r: (K, int))
    requires Sized(k)
    ensures Sized(r.0)
  {
    if count < 0 || BadSem(s) || !k.sems[s].used then (k, SYSERR)
    else (DeferStop(SetCount(Drain(DeferStart(k), s, |k.lists[s]|), s, count)), OK)
  }

  /** The first free entry from start on, in n tries, going round the table. */
  function FindSem(sems: seq<Sem>, start: nat, n: nat): (r: int)
    requires start < |sems|
    ensures r != SYSERR ==> 0 <= r < |sems| && !sems[r].used
    decreases n
  {
    if n == 0 then SYSERR
    else if !sems[start].used then start
    else FindSem(sems, if start + 1 == |sems| then 0 else start + 1, n - 1)
  }

  ghost function SemCreate(k: K, count: int): (r: (K, int))
    requires Sized(k)
    ensures Sized(r.0)
  {
    if count < 0 then (k, SYSERR)
    else
      var s := FindSem(k.sems, k.nextsem, |k.sems|);
      if s == SYSERR then (k, SYSERR)
      else (k.(sems := k.sems[s := Sem(true, count)], nextsem := if s + 1 == NSEM then 0 else s + 1), s)
  }

  // ---- processes ----

  function Wrap(n: nat): nat {
    if n == NPROC then 0 else n
  }

  function FindPid(procs: seq<Proc>, start: nat, n: nat): (r: int)
    requires start < |procs| == NPROC
    ensures r != SYSERR ==> 0 <= r < NPROC && procs[r].prstate == PR_FREE
    decreases n
  {
    if n == 0 then SYSERR
    else if procs[start].prstate == PR_FREE then start
    else FindPid(procs, Wrap(start + 1), n - 1)
  }

  /** newpid */
  ghost function NewPid(k: K): (r: (K, int))
    requires Sized(k)
    ensures Sized(r.0)
  {
    var p := FindPid(k.procs, Wrap(k.nextpid), |k.procs|);
    if p == SYSERR then (k.(nextpid := if k.nextpid == 0 then NPROC else k.nextpid), SYSERR)
    else (k.(nextpid := p + 1), p)
  }

  /** create; gotstack says whether getstk found room for the stack. */
  ghost function Create(k: K, prio: pri16, gotstack: bool): (r: (K, int))
    requires Sized(k)
    ensures Sized(r.0)
  {
    if prio < 1 then (k, SYSERR)
    else
      var (t, p) := NewPid(k);
      if p == SYSERR || !gotstack then (t, SYSERR)
      else (t.(procs := t.procs[p := Proc(PR_SUSP, prio, -1, t.currpid, t.procs[p].prmsg, false)],
               ctx := t.ctx[p := Nothing]), p)
  }

  ghost function Resume(k: K, p: int): (r: (K, int))
    requires Sized(k)
    ensures Sized(r.0)
  {
    if BadPid(k, p) || k.procs[p].prstate != PR_SUSP then (k, SYSERR) else (Ready(k, p), k.procs[p].prprio)
  }

  /** Process p is taken off list i. */
  ghost function Unlink(k: K, p: nat, i: int): (r: K)
    requires Sized(k)
    ensures Sized(r)
  {
    if 0 <= i < NLISTS && p in k.lists[i] then SetList(k, i, CutAt(k.lists[i], IndexOf(k.lists[i], p))) else k
  }

  ghost function Suspend(k: K, p: int): (r: (K, int))
    requires Sized(k)
    ensures Sized(r.0)
  {
    if BadPid(k, p) || p == NULLPROC then (k, SYSERR)
    else if k.procs[p].prstate == PR_READY then (SetState(Unlink(k, p, RL), p, PR_SUSP), k.procs[p].prprio)
    else if k.procs[p].prstate == PR_CURR then (Resched(SetState(k, p, PR_SUSP)), k.procs[p].prprio)
    else (k, SYSERR)
  }

  /** The process behind p on the sleep queue takes over the delay of p. */
  ghost function Relay(k: K, p: nat): (r: K)
    requires Sized(k)
    ensures Sized(r)
  {
    var l := k.lists[SQ];
    if p in l && IndexOf(l, p) + 1 < |l| then
      var q := l[IndexOf(l, p) + 1];
      k.(keys := k.keys[q := k.keys[q] + k.keys[l[IndexOf(l, p)]]])
    else k
  }

  ghost function Unsleep(k: K, p: int): (r: (K, int))
    requires Sized(k)
    ensures Sized(r.0)
  {
    if BadPid(k, p) || (k.procs[p].prstate != PR_SLEEP && k.procs[p].prstate != PR_RECTIM) then (k, SYSERR)
    else (Unlink(Relay(k, p), p, SQ), OK)
  }

  // ---- messages ----

  ghost function Send(k: K, p: int, msg: int): (r: (K, int))
    requires Sized(k)
    ensures Sized(r.0)
  {
    if BadPid(k, p) || k.procs[p].prhasmsg then (k, SYSERR)
    else
      var t := k.(procs := k.procs[p := k.procs[p].(prmsg := msg, prhasmsg := true)]);
      (if k.procs[p].prstate == PR_RECV then Ready(t, p)
       else if k.procs[p].prstate == PR_RECTIM then Ready(Unsleep(t, p).0, p)
       else t, OK)
  }

  /** The current process takes its message. */
  ghost function Take(k: K): (r: K)
    requires Sized(k)
    ensures Sized(r)
  {
    SetCtx(k.(procs := k.procs[k.currpid := k.procs[k.currpid].(prhasmsg := false)]), Nothing)
  }

  /** receive: the message, if there is one; otherwise wait for it. */
  ghost function Receive(k: K): (r: K)
    requires Sized(k)
    ensures Sized(r)
  {
    if k.procs[k.currpid].prhasmsg then Take(k) else Block(SetCtx(k, Receiving), PR_RECV)
  }

  /** Put the current process on the sleep queue for d ticks, in state st. */
  ghost function Asleep(k: K, d: int, st: PrState): (r: K)
    requires Sized(k)
    ensures Sized(r)
  {
    var l, p := k.lists[SQ], k.currpid;
    SetState(SetList(k, SQ, PutAt(l, DPlace(l, k.keys, 0, d).0, p)), p, st).(keys := DKeys(l, k.keys, p, d))
  }

  ghost function RecvTime(k: K, maxwait: int): (r: K)
    requires Sized(k)
    ensures Sized(r)
  {
    if maxwait < 0 then k
    else if k.procs[k.currpid].prhasmsg then Take(k)
    else Resched(Asleep(SetCtx(k, TimedReceiving), maxwait, PR_RECTIM))
  }

  ghost function SleepMs(k: K, delay: int): (r: K)
    requires Sized(k)
    ensures Sized(r)
  {
    if delay < 0 then k else if delay == 0 then Resched(k) else Resched(Asleep(k, delay, PR_SLEEP))
  }

  // ---- kill ----

  /** kill, up to and including the message to the parent. */
  ghost function KillBegin(k: K, p: int): (r: K)
    requires Sized(k)
    ensures Sized(r)
  {
    if BadPid(k, p) || p == NULLPROC then k
    else Send(SetCtx(k, Killing(p)), k.procs[p].prparent, p).0
  }

  /** Process p is gone. */
  ghost function Freed(k: K, p: nat): (r: K)
    requires Sized(k) && p < NPROC
    ensures Sized(r)
  {
    SetState(k, p, PR_FREE).(ctx := k.ctx[p := Nothing])
  }

  /** kill from there on: remove p, whatever its state is by now. */
  ghost function KillEnd(k: K, p: nat): (r: K)
    requires Sized(k) && p < NPROC
    ensures Sized(r)
  {
    var t := SetCtx(k, Nothing);
    match k.procs[p].prstate
    case PR_CURR => Resched(Freed(t, p))
    case PR_SLEEP => Freed(Unsleep(t, p).0, p)
    case PR_RECTIM => Freed(Unsleep(t, p).0, p)
    case PR_WAIT =>
      var s := k.procs[p].prsem;
      if BadSem(s) then t else Freed(Unlink(SetCount(t, s, Bump(t.sems[s].count)), p, s), p)
    case PR_READY => Freed(Unlink(t, p, RL), p)
    case _ => Freed(t, p)
  }

  // ---- the clock ----

  /** How many at the head of the sleep queue have no time left. */
  function Due(l: seq<nat>, keys: seq<int>): (n: nat)
    requires forall j :: 0 <= j < |l| ==> l[j] < |keys|
    ensures n <= |l|
  {
    if |l| > 0 && keys[l[0]] <= 0 then 1 + Due(l[1..], keys) else 0
  }

  ghost function Wakeup(k: K): (r: K)
    requires Sized(k)
    ensures Sized(r)
  {
    DeferStop(Drain(DeferStart(k), SQ, Due(k.lists[SQ], k.keys)))
  }

  /** clkhandler, up to and including wakeup. */
  ghost function Tick(k: K): (r: K)
    requires Sized(k)
    ensures Sized(r)
  {
    var t := SetCtx(k, InClock);
    var l := t.lists[SQ];
    if |l| == 0 then t
    else
      var u := t.(keys := t.keys[l[0] := t.keys[l[0]] - 1]);
      if u.keys[l[0]] <= 0 then Wakeup(u) else u
  }

  /** clkhandler from there on: the time slice. */
  ghost function Slice(k: K): (r: K)
    requires Sized(k)
    ensures Sized(r)
  {
    var t := SetCtx(k, Nothing);
    if t.preempt - 1 <= 0 then Resched(t.(preempt := QUANTUM)) else t.(preempt := t.preempt - 1)
  }
}
