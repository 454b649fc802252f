/** Every call keeps the ports in order. */
module PortCalls {
  import opened KernelQueues
  import opened KernelSleep
  import opened KernelSpec
  import opened KernelInv
  import opened KernelCalls
  import opened KernelProcs
  import opened KernelFrame
  import opened KernelRuns
  import opened PortSpec
  import opened PortInv
  import Laws = KernelLaws

  /** The semaphore that a step works on. */
  function Uses(e: Step): int {
    match e
    case DoWait(s) => s
    case DoSignal(s) => s
    case DoSignalN(s, n) => s
    case DoSemDelete(s) => s
    case DoSemReset(s, n) => s
    case _ => -1
  }

  /** Calls other than those on ports are made by processes that are not inside one, or
      that are disposing of a message, and keep off the semaphores of ports. */
  ghost predicate Allowed(s: P, e: Step) {
    && PSized(s) && Enabled(s.k, e) && (s.pend[s.k.currpid] == Idle || AtStage(s, 0))
    && forall i :: 0 <= i < NPORTS ==> !Owns(s.ports[i], Uses(e))
  }

  /** The victim of a kill leaves the queue it was on. */
  lemma KillCuts(k: K, p: nat)
    requires Inv(k) && p < NPROC && p != NULLPROC && k.procs[p].prstate == PR_WAIT && k.ctx[k.currpid] == Killing(p)
    ensures var r, t := k.procs[p].prsem, KillEnd(k, p);
            && 0 <= r < NSEM && Sized(t) && t.sems[r].used == k.sems[r].used && Permits(t.sems[r]) == Permits(k.sems[r])
            && t.procs[p].prstate == PR_FREE
            && forall q :: q in t.lists[r] <==> q in k.lists[r] && q != p
  {
    hide StatesOf, ReadyOf, Delays;
    About(k, -1, p);
    var r := k.procs[p].prsem;
    SemIs(k, r);
    CutMembers(k.lists[r], IndexOf(k.lists[r], p));
  }

  lemma OtherSem(k: K, e: Step, r: nat)
    requires Inv(k) && Enabled(k, e) && r < NSEM && k.sems[r].used && Uses(e) != r
    requires !(e.EndKill? && k.procs[e.p].prstate == PR_WAIT && k.procs[e.p].prsem == r)
    ensures Do(k, e).sems[r] == k.sems[r] && Do(k, e).lists[r] == k.lists[r]
  {
    Laws.SemUntouched(k, e, r);
  }

  /** Those who wait are alive. */
  lemma WaitersLive(k: K, r: nat)
    requires Inv(k) && r < NSEM
    ensures Sized(k)
    ensures forall q :: q in k.lists[r] ==> q < NPROC && k.procs[q].prstate == PR_WAIT && k.procs[q].prsem == r
  {
    InvSized(k);
    forall q | q in k.lists[r]
      ensures q < NPROC && k.procs[q].prstate == PR_WAIT && k.procs[q].prsem == r
    {
      assert q < NPROC;
      About(k, -1, q);
      assert Home(k.procs[q]) == r;
    }
  }

  /** A call that is not about ports keeps what the semaphores of ports stand for. */
  lemma OtherQuiet(s: P, e: Step, r: nat)
    requires Inv(s.k) && PSized(s) && Enabled(s.k, e) && r < NSEM && s.k.sems[r].used && Uses(e) != r
    ensures Quiet(s.k, Other(s, e).k, s.pend, Other(s, e).pend, r)
  {
    hide Inv, KillEnd, Wait, Signal, SignalN, SemDelete, SemReset, Create, Resume, Suspend, Resched, Send, Receive,
      RecvTime, Take, SleepMs, KillBegin, DeferStop, Tick, Slice;
    var k, t := s.k, Do(s.k, e);
    WaitersLive(k, r);
    StepKeeps(k, e);
    WaitersLive(t, r);
    if e.EndKill? && k.procs[e.p].prstate == PR_WAIT && k.procs[e.p].prsem == r {
      KillCuts(k, e.p);
    } else {
      OtherSem(k, e, r);
    }
  }

  lemma OtherFewer(s: P, e: Step, i: nat, sq: int, b: bool)
    requires PSized(s) && Enabled(s.k, e)
    ensures Fewer(s.pend, Other(s, e).pend, i, sq, b)
  {
  }

  lemma OwnedLive(s: P, total: nat, i: nat, r: int)
    requires PInv(s, total) && i < NPORTS && Owns(s.ports[i], r)
    ensures Live(s.k, r)
  {
    assert PortOk(s.k, s.pend, s.ports[i], i);
  }

  lemma ClearKept(s: P, e: Step, total: nat, i: nat, c: Pend)
    requires PInv(s, total) && Allowed(s, e) && i < NPORTS && c.Clears? && ClearOk(s.k, s.ports[i], c)
    ensures ClearOk(Other(s, e).k, s.ports[i], c)
  {
    hide Inv, Do, PortOk, Enabled;
    var k, pt := s.k, s.ports[i];
    if pt.sown {
      OwnedLive(s, total, i, pt.ptssem);
      OtherQuiet(s, e, pt.ptssem);
      if |k.lists[pt.ptssem]| == 0 {
        NoneKilled(k, e, pt.ptssem);
        OtherSem(k, e, pt.ptssem);
      }
    }
    if pt.rown {
      OwnedLive(s, total, i, pt.ptrsem);
      OtherQuiet(s, e, pt.ptrsem);
      if |k.lists[pt.ptrsem]| == 0 {
        NoneKilled(k, e, pt.ptrsem);
        OtherSem(k, e, pt.ptrsem);
      }
    }
  }

  lemma NoneKilled(k: K, e: Step, r: nat)
    requires Inv(k) && Enabled(k, e) && r < NSEM && |k.lists[r]| == 0
    ensures !(e.EndKill? && k.procs[e.p].prstate == PR_WAIT && k.procs[e.p].prsem == r)
  {
    if e.EndKill? {
      About(k, -1, e.p);
    }
  }

  lemma OtherKeeps(s: P, e: Step, total: nat)
    requires PInv(s, total) && Allowed(s, e)
    ensures PInv(Other(s, e), total)
  {
    hide Inv, Do, ClearOk, Fewer, Quiet, Enabled;
    var t := Other(s, e);
    StepKeeps(s.k, e);
    forall i | 0 <= i < NPORTS
      ensures PortOk(t.k, t.pend, t.ports[i], i)
    {
      var pt := s.ports[i];
      OtherFewer(s, e, i, pt.ptseq, true);
      OtherFewer(s, e, i, pt.ptseq, false);
      if pt.sown {
        OwnedLive(s, total, i, pt.ptssem);
        OtherQuiet(s, e, pt.ptssem);
      }
      if pt.rown {
        OwnedLive(s, total, i, pt.ptrsem);
        OtherQuiet(s, e, pt.ptrsem);
      }
      PortKept(s.k, t.k, s.pend, t.pend, pt, i);
    }
    forall q | 0 <= q < NPROC
      ensures PendOk(t.k, t.ports, t.pend, q)
    {
      assert PendOk(s.k, s.ports, s.pend, q);
      if t.pend[q].Clears? {
        ClearKept(s, e, total, t.pend[q].port, t.pend[q]);
      }
    }
  }

  // ---- ptsend and ptrecv ----

  lemma PortIs(s: P, total: nat, i: nat)
    requires PInv(s, total) && i < NPORTS
    ensures PortOk(s.k, s.pend, s.ports[i], i) && PSized(s) && Inv(s.k)
    ensures s.ports[i].sown && s.ports[i].rown ==> s.ports[i].ptssem != s.ports[i].ptrsem
  {
  }

  /** The current process is on no queue. */
  lemma NotQueued(k: K, r: nat)
    requires Inv(k) && r < NSEM
    ensures Sized(k) && k.currpid !in k.lists[r] && Once(k.lists[r]) && Procs(k.lists[r])
  {
  }

  lemma NoneElse(s: P, total: nat, i: nat, j: nat, r: int)
    requires PInv(s, total) && i < NPORTS && j < NPORTS && i != j && Owns(s.ports[i], r)
    ensures !Owns(s.ports[j], r)
  {
  }

  /** One side of a port, when a process is in the middle of something on the other. */
  lemma OtherSide(pend: seq<Pend>, pend': seq<Pend>, l: seq<nat>, c: nat, i: nat, sq: int, b: bool)
    requires |pend| == |pend'| == NPROC && c < NPROC && c !in l && pend' == pend[c := pend'[c]]
    requires !In(pend, c, i, sq, b) && !In(pend', c, i, sq, b)
    ensures Granted(pend', l, i, sq, b) == Granted(pend, l, i, sq, b)
    ensures AllIn(pend, l, i, sq, b) ==> AllIn(pend', l, i, sq, b)
    ensures Nobody(pend, i, sq, b) ==> Nobody(pend', i, sq, b)
  {
    forall q | 0 <= q < NPROC
      ensures In(pend', q, i, sq, b) == In(pend, q, i, sq, b)
    {
      assert q != c ==> pend'[q] == pend[q];
    }
    assert forall q :: In(pend', q, i, sq, b) == In(pend, q, i, sq, b);
  }

  /** A port that can be used, side by side. */
  lemma Usable(k: K, pend: seq<Pend>, pt: Port, i: nat)
    requires Sized(k) && |pend| == NPROC && pt.ptstate == PT_ALLOC && 0 <= pt.cap <= MAXCOUNT && pt.ptmaxcnt < UINT16
    requires (pt.sown ==> Live(k, pt.ptssem)) && (pt.rown ==> Live(k, pt.ptrsem))
    requires if pt.sown then SendSide(k.sems[pt.ptssem], k.lists[pt.ptssem], pend, pt, i)
             else pt.ptssem == SYSERR && |pt.msgs| == 0 && Nobody(pend, i, pt.ptseq, true)
    requires if pt.rown then RecvSide(k.sems[pt.ptrsem], k.lists[pt.ptrsem], pend, pt, i)
             else pt.ptrsem == SYSERR && Nobody(pend, i, pt.ptseq, false)
    ensures PortOk(k, pend, pt, i)
  {
  }

  /** The step spared every semaphore but r. */
  ghost predicate Only(k: K, t: K, r: int)
    requires Sized(k) && Sized(t)
  {
    forall x {:trigger Live(k, x)} :: Live(k, x) && x != r ==> t.sems[x] == k.sems[x] && t.lists[x] == k.lists[x]
  }

  lemma WaitOnly(k: K, r: nat)
    requires Inv(k) && Live0(k, r) && Enabled(k, DoWait(r))
    ensures Sized(Wait(k, r).0) && Only(k, Wait(k, r).0, r)
  {
    forall x | Live(k, x) && x != r
      ensures Wait(k, r).0.sems[x] == k.sems[x] && Wait(k, r).0.lists[x] == k.lists[x]
    {
      WaitSpares(k, r, -2, x);
    }
  }

  ghost predicate Live0(k: K, r: int) {
    Sized(k) && Live(k, r)
  }

  /** One side of a port whose semaphore was spared. */
  lemma SideSpared(k: K, t: K, pend: seq<Pend>, pend': seq<Pend>, pt: Port, pt': Port, c: nat, i: nat, r: int)
    requires Inv(k) && Live0(k, pt.ptssem) && Sized(t) && Only(k, t, r) && pt.ptssem != r && c == k.currpid
    requires |pend| == |pend'| == NPROC && pend' == pend[c := pend'[c]]
    requires !In(pend, c, i, pt.ptseq, true) && !In(pend', c, i, pt.ptseq, true)
    requires pt' == pt.(msgs := pt'.msgs) && |pt'.msgs| <= |pt.msgs|
    requires SendSide(k.sems[pt.ptssem], k.lists[pt.ptssem], pend, pt, i)
    ensures Live(t, pt.ptssem) && SendSide(t.sems[pt.ptssem], t.lists[pt.ptssem], pend', pt', i)
  {
    NotQueued(k, pt.ptssem);
    hide Inv, AllIn, Granted;
    OtherSide(pend, pend', k.lists[pt.ptssem], c, i, pt.ptseq, true);
  }

  lemma RecvSpared(k: K, t: K, pend: seq<Pend>, pend': seq<Pend>, pt: Port, pt': Port, c: nat, i: nat, r: int)
    requires Inv(k) && Live0(k, pt.ptrsem) && Sized(t) && Only(k, t, r) && pt.ptrsem != r && c == k.currpid
    requires |pend| == |pend'| == NPROC && pend' == pend[c := pend'[c]]
    requires !In(pend, c, i, pt.ptseq, false) && !In(pend', c, i, pt.ptseq, false)
    requires pt' == pt.(msgs := pt'.msgs) && |pt'.msgs| >= |pt.msgs|
    requires RecvSide(k.sems[pt.ptrsem], k.lists[pt.ptrsem], pend, pt, i)
    ensures Live(t, pt.ptrsem) && RecvSide(t.sems[pt.ptrsem], t.lists[pt.ptrsem], pend', pt', i)
  {
    NotQueued(k, pt.ptrsem);
    hide Inv, AllIn, Granted;
    OtherSide(pend, pend', k.lists[pt.ptrsem], c, i, pt.ptseq, false);
  }

  /** A port none of whose semaphores is touched, by a step that changes only what the
      current process is in the middle of. */
  lemma Elsewhere(s: P, t: P, total: nat, i: nat, r: int)
    requires PInv(s, total) && PSized(t) && i < NPORTS && !Owns(s.ports[i], r)
    requires t.pend == s.pend[s.k.currpid := t.pend[s.k.currpid]]
    requires t.pend[s.k.currpid].Waits? ==> t.pend[s.k.currpid].port != i
    requires Only(s.k, t.k, r)
    ensures PortOk(t.k, t.pend, s.ports[i], i)
  {
    PortIs(s, total, i);
    var pt := s.ports[i];
    assert Fewer(s.pend, t.pend, i, pt.ptseq, true) && Fewer(s.pend, t.pend, i, pt.ptseq, false);
    if pt.sown {
      NotQueued(s.k, pt.ptssem);
      SparedQuiet(s.k, t.k, s.pend, t.pend, pt.ptssem);
    }
    if pt.rown {
      NotQueued(s.k, pt.ptrsem);
      SparedQuiet(s.k, t.k, s.pend, t.pend, pt.ptrsem);
    }
    hide Inv;
    PortKept(s.k, t.k, s.pend, t.pend, pt, i);
  }

  /** The port on which a call of ptsend begins. */
  lemma BeginSend(s: P, total: nat, i: nat, msg: int)
    requires PInv(s, total) && PSized(s) && i < NPORTS && s.ports[i].ptstate == PT_ALLOC && s.pend[s.k.currpid] == Idle
    requires Live(s.k, s.ports[i].ptssem) && Enabled(s.k, DoWait(s.ports[i].ptssem))
    ensures PortOk(Begin(s, i, true, msg).k, Begin(s, i, true, msg).pend, s.ports[i], i)
  {
    hide Inv, PInv, Wait, AllIn, Granted, Nobody, Only, CanBlock;
    PortIs(s, total, i);
    var pt, k, c, t := s.ports[i], s.k, s.k.currpid, Begin(s, i, true, msg);
    var r := pt.ptssem;
    NotQueued(k, r);
    WaitEffect(k, r);
    WaitOnly(k, r);
    BeginSide(k.lists[r], t.k.lists[r], k.sems[r], t.k.sems[r], s.pend, c, i, pt.ptseq, true, msg);
    OtherSide(s.pend, t.pend, [], c, i, pt.ptseq, false);
    assert SendSide(t.k.sems[r], t.k.lists[r], t.pend, pt, i);
    if pt.rown {
      RecvSpared(k, t.k, s.pend, t.pend, pt, pt, c, i, r);
    }
    Usable(t.k, t.pend, pt, i);
  }

  /** The port on which a call of ptrecv begins. */
  lemma BeginRecv(s: P, total: nat, i: nat, msg: int)
    requires PInv(s, total) && PSized(s) && i < NPORTS && s.ports[i].ptstate == PT_ALLOC && s.pend[s.k.currpid] == Idle
    requires Live(s.k, s.ports[i].ptrsem) && Enabled(s.k, DoWait(s.ports[i].ptrsem))
    ensures PortOk(Begin(s, i, false, msg).k, Begin(s, i, false, msg).pend, s.ports[i], i)
  {
    hide Inv, PInv, Wait, AllIn, Granted, Nobody, Only, CanBlock;
    PortIs(s, total, i);
    var pt, k, c, t := s.ports[i], s.k, s.k.currpid, Begin(s, i, false, msg);
    var r := pt.ptrsem;
    NotQueued(k, r);
    WaitEffect(k, r);
    WaitOnly(k, r);
    BeginSide(k.lists[r], t.k.lists[r], k.sems[r], t.k.sems[r], s.pend, c, i, pt.ptseq, false, msg);
    OtherSide(s.pend, t.pend, [], c, i, pt.ptseq, true);
    assert RecvSide(t.k.sems[r], t.k.lists[r], t.pend, pt, i);
    if pt.sown {
      SideSpared(k, t.k, s.pend, t.pend, pt, pt, c, i, r);
    }
    Usable(t.k, t.pend, pt, i);
  }
}
