/** When ptsend runs out of message nodes: not while the ports that are not free hold at most
    as many messages as there are nodes, but a port that is being cleared counts. */
module PortPanic {
  import opened KernelQueues
  import opened KernelSpec
  import opened KernelInv
  import opened KernelCalls
  import opened KernelRuns
  import opened PortSpec
  import opened PortInv
  import opened PortCalls
  import opened PortKeeps
  import opened PortRuns
  import opened PortLaws
  import Tables = KernelTables

  /** The current process, in the middle of ptsend, makes the system panic. */
  ghost predicate Panics(s: P) {
    PSized(s) && var d := s.pend[s.k.currpid]; d.Waits? && d.sending && !SendEnd(s).1
  }

  /** It does so exactly when its port is unchanged and all nodes are on ports. */
  lemma PanicsExactly(s: P, total: nat)
    requires PInv(s, total) && s.pend[s.k.currpid].Waits? && s.pend[s.k.currpid].sending
    ensures Panics(s) <==> Unchanged(s, s.pend[s.k.currpid]) && Queued(s.ports) == total
  {
  }

  // ---- sending when nobody waits ----

  /** The current process can send to port i at once, and nobody waits there to receive. */
  ghost predicate Quiet(s: P, i: nat) {
    && PSized(s) && i < NPORTS && s.ports[i].ptstate == PT_ALLOC
    && s.pend[s.k.currpid] == Idle && s.k.ctx[s.k.currpid] == Nothing
    && Live(s.k, s.ports[i].ptssem) && Live(s.k, s.ports[i].ptrsem) && s.ports[i].ptssem != s.ports[i].ptrsem
    && s.k.sems[s.ports[i].ptssem].count > 0 && 0 <= s.k.sems[s.ports[i].ptrsem].count < MAXCOUNT
  }

  /** ptsend, as far as the semaphore. */
  ghost function Sending(s: P, i: nat, msg: int): P
    requires Quiet(s, i)
  {
    var r := s.ports[i].ptssem;
    SetPend(s, Waits(i, s.ports[i].ptseq, true, msg)).(k := SetCount(s.k, r, s.k.sems[r].count - 1))
  }

  /** And to its end. */
  ghost function SentOne(s: P, i: nat, msg: int): P
    requires Quiet(s, i) && s.free > 0
  {
    var t, r := Sending(s, i, msg), s.ports[i].ptrsem;
    SetPort(s, i, s.ports[i].(msgs := s.ports[i].msgs + [msg])).(
      free := s.free - 1, k := SetCount(t.k, r, s.k.sems[r].count + 1))
  }

  lemma BeginQuiet(s: P, i: nat, msg: int)
    requires Quiet(s, i)
    ensures PEnabled(s, PtSend(i, msg)) && PDo(s, PtSend(i, msg)) == Sending(s, i, msg)
    ensures s.free == 0 ==> Panics(Sending(s, i, msg))
  {
  }

  lemma EndQuiet(s: P, i: nat, msg: int)
    requires Quiet(s, i) && s.free > 0
    ensures PEnabled(Sending(s, i, msg), EndSend)
    ensures PDo(Sending(s, i, msg), EndSend) == SentOne(s, i, msg)
  {
    var t := Sending(s, i, msg);
    assert t.pend[t.k.currpid := Idle] == s.pend;
    assert SignalOne(t.k, s.ports[i].ptrsem) == SetCount(t.k, s.ports[i].ptrsem, s.k.sems[s.ports[i].ptrsem].count + 1);
  }

  /** n messages, and the beginning of one more. */
  function Fill(i: nat, n: nat): seq<PStep> {
    if n == 0 then [PtSend(i, 0)] else [PtSend(i, 0), EndSend] + Fill(i, n - 1)
  }

  lemma {:induction false} FillPanics(s: P, i: nat)
    requires Quiet(s, i) && s.k.sems[s.ports[i].ptssem].count > s.free
    requires s.k.sems[s.ports[i].ptrsem].count + s.free < MAXCOUNT
    ensures PRuns(s, Fill(i, s.free)) && Panics(PAfter(s, Fill(i, s.free)))
    decreases s.free
  {
    hide PEnabled, PDo, Panics;
    var es := Fill(i, s.free);
    BeginQuiet(s, i, 0);
    if s.free == 0 {
      assert PRuns(PDo(s, es[0]), es[1..]);
    } else {
      var t := SentOne(s, i, 0);
      EndQuiet(s, i, 0);
      FillPanics(t, i);
      assert es[1..][0] == EndSend && es[1..][1..] == Fill(i, t.free);
      assert PRuns(Sending(s, i, 0), es[1..]);
    }
  }

  // ---- a single port ----

  ghost predicate NoCreates(es: seq<PStep>) {
    forall j :: 0 <= j < |es| ==> !es[j].PtCreate?
  }

  /** Port 0 has this size, and the others are free. */
  ghost predicate Lone(ports: seq<Port>, size: nat) {
    && |ports| == NPORTS && ports[0].cap == ports[0].ptmaxcnt == size
    && forall j :: 0 < j < NPORTS ==> ports[j].ptstate == PT_FREE
  }

  lemma StepLone(s: P, e: PStep, total: nat, size: nat)
    requires PInv(s, total) && PEnabled(s, e) && !e.PtCreate? && Lone(s.ports, size)
    ensures Lone(PDo(s, e).ports, size)
  {
    if AtStage(s, 0) || AtStage(s, 1) || AtStage(s, 2) {
      Clearing(s, total, s.k.currpid);
    }
    hide PInv, Enabled, MayBegin, Allowed, Do, Wait, Signal, SemReset, SemDelete;
  }

  lemma {:induction false} RoomsLone(ports: seq<Port>, size: nat)
    requires |ports| > 0 && Room(ports[0]) <= size
    requires forall j :: 0 < j < |ports| ==> ports[j].ptstate == PT_FREE
    ensures Rooms(ports) <= size
  {
    var n := |ports| - 1;
    if n == 0 {
      assert Rooms(ports[..n]) == 0;
    } else {
      RoomsLone(ports[..n], size);
    }
  }

  lemma {:induction false} LoneSafe(s: P, es: seq<PStep>, total: nat, size: nat)
    requires PInv(s, total) && PRuns(s, es) && NoCreates(es) && Lone(s.ports, size) && size <= total
    ensures !Panics(PAfter(s, es))
    decreases |es|
  {
    if |es| == 0 {
      PortFits(s, total, 0);
      RoomsLone(s.ports, size);
      hide PInv, SendEnd;
      if Panics(s) {
        NoPanic(s, total);
      }
    } else {
      hide PInv, PEnabled, PDo, Panics, Lone;
      PStepKeeps(s, es[0], total);
      StepLone(s, es[0], total, size);
      LoneSafe(PDo(s, es[0]), es[1..], total, size);
    }
  }

  /** A new port, when the next entry is free and so are the next two semaphores. */
  ghost function Made(s: P, count: nat): P
    requires PSized(s) && s.k.nextsem + 2 < NSEM && s.nextid + 1 < NPORTS
  {
    var a, i := s.k.nextsem, s.nextid;
    SetPort(s, i, Port(a, a + 1, PT_ALLOC, count % UINT16, s.ports[i].ptseq + 1, [], true, true, count)).(
      k := s.k.(sems := s.k.sems[a := Sem(true, count)][a + 1 := Sem(true, 0)], nextsem := a + 2), nextid := i + 1)
  }

  lemma MakePort(s: P, count: nat)
    requires PSized(s) && s.k.nextsem + 2 < NSEM && s.nextid + 1 < NPORTS && s.pend[s.k.currpid] == Idle
    requires !s.k.sems[s.k.nextsem].used && !s.k.sems[s.k.nextsem + 1].used && s.ports[s.nextid].ptstate == PT_FREE
    requires count <= MAXCOUNT
    ensures PEnabled(s, PtCreate(count)) && PDo(s, PtCreate(count)) == Made(s, count)
  {
    var (k1, ssem) := SemCreate(s.k, count);
    assert ssem == s.k.nextsem;
    var (k2, rsem) := SemCreate(k1, 0);
    assert rsem == s.k.nextsem + 1;
  }

  /** The null process makes the first port. */
  lemma FirstPort(maxmsgs: nat, count: nat)
    requires count < UINT16
    ensures var s := PBooted(maxmsgs);
            && PEnabled(s, PtCreate(count))
            && (var t := PDo(s, PtCreate(count));
                && (count > 0 ==> Quiet(t, 0)) && Lone(t.ports, count) && t.free == maxmsgs
                && t.ports[0].ptssem == 0 && t.ports[0].ptrsem == 1
                && t.k.sems[0].count == count && t.k.sems[1].count == 0)
  {
    MakePort(PBooted(maxmsgs), count);
  }

  /** A run after the first port was made, which makes no other, and ends in the panic. */
  ghost predicate Overruns(maxmsgs: nat, count: nat, es: seq<PStep>) {
    var s := PBooted(maxmsgs);
    && NoCreates(es) && PEnabled(s, PtCreate(count)) && PRuns(PDo(s, PtCreate(count)), es)
    && Panics(PAfter(PDo(s, PtCreate(count)), es))
  }

  /** With one port, some run panics exactly if the port is larger than the number of nodes. */
  lemma OnePort(maxmsgs: nat, count: nat)
    requires count < UINT16
    ensures (exists es :: Overruns(maxmsgs, count, es)) <==> count > maxmsgs
  {
    var t := PDo(PBooted(maxmsgs), PtCreate(count));
    FirstPort(maxmsgs, count);
    PBootedOk(maxmsgs);
    PStepKeeps(PBooted(maxmsgs), PtCreate(count), maxmsgs);
    hide PInv, PEnabled, PDo, Panics, Lone, Quiet;
    if count > maxmsgs {
      FillPanics(t, 0);
      FillCreates(0, maxmsgs);
      assert Overruns(maxmsgs, count, Fill(0, maxmsgs));
    } else {
      forall es | NoCreates(es) && PRuns(t, es)
        ensures !Panics(PAfter(t, es))
      {
        LoneSafe(t, es, maxmsgs, count);
      }
    }
  }

  lemma {:induction false} FillCreates(i: nat, n: nat)
    ensures NoCreates(Fill(i, n))
  {
    if n > 0 {
      FillCreates(i, n - 1);
    }
  }

  // ---- a port that is being cleared ----

  /** The sizes of the allocated ports alone. */
  ghost function Allocated(ports: seq<Port>): nat {
    if |ports| == 0 then 0
    else
      var pt := ports[|ports| - 1];
      Allocated(ports[..|ports| - 1]) + if pt.ptstate == PT_ALLOC then pt.ptmaxcnt else 0
  }

  lemma {:induction false} AllocatedOne(ports: seq<Port>, i: nat)
    requires i < |ports| && forall j :: 0 <= j < |ports| && j != i ==> ports[j].ptstate != PT_ALLOC
    ensures Allocated(ports) == if ports[i].ptstate == PT_ALLOC then ports[i].ptmaxcnt else 0
  {
    var n := |ports| - 1;
    if i < n {
      AllocatedOne(ports[..n], i);
    } else {
      AllocatedNone(ports[..n]);
    }
  }

  lemma {:induction false} AllocatedNone(ports: seq<Port>)
    requires forall j :: 0 <= j < |ports| ==> ports[j].ptstate != PT_ALLOC
    ensures Allocated(ports) == 0
  {
    if |ports| > 0 {
      AllocatedNone(ports[..|ports| - 1]);
    }
  }

  /** A run that ends in the panic with at most one message's room allocated. */
  ghost predicate EndsBadly(s: P, es: seq<PStep>) {
    PRuns(s, es) && Panics(PAfter(s, es)) && Allocated(PAfter(s, es).ports) <= 1
  }

  lemma Before(s: P, e: PStep, es: seq<PStep>)
    requires PEnabled(s, e) && EndsBadly(PDo(s, e), es)
    ensures EndsBadly(s, [e] + es)
  {
    assert ([e] + es)[1..] == es;
  }

  /** The null process is disposing of the message. */
  ghost predicate Halfway(s: P) {
    && PSized(s) && s.free == 0 && s.nextid == 1 && s.ports[0].ptstate == PT_LIMBO
    && (forall j :: 0 < j < NPORTS ==> s.ports[j].ptstate == PT_FREE && !s.ports[j].sown && !s.ports[j].rown)
    && s.ports[0].ptssem >= 0 && s.ports[0].ptrsem >= 0
    && s.pend[0].Clears? && s.pend[0].port == 0 && s.pend[0].phase == 0 && s.pend[1] == Idle && Fresh(s.k, 2)
  }

  /** The null process is current, process 1 is suspended, and the semaphores from a on are
      unused. */
  ghost predicate Fresh(k: K, a: nat) {
    && Sized(k) && k.currpid == 0 && k.ndefers == 0 && k.nextsem == a && (forall j :: a <= j < NSEM ==> !k.sems[j].used)
    && k.ctx[0] == k.ctx[1] == Nothing && k.procs[0].prstate == PR_CURR && k.procs[0].prprio == 0
    && k.procs[1].prstate == PR_SUSP && k.procs[1].prprio == 20 && |k.lists[RL]| == 0
  }

  lemma MakeProcess()
    ensures var s := PBooted(1);
            && PEnabled(s, Call(DoCreate(20, true)))
            && (var t := PDo(s, Call(DoCreate(20, true)));
                t.ports == s.ports && t.free == 1 && t.nextid == 0 && t.pend[0] == t.pend[1] == Idle && Fresh(t.k, 0))
  {
    assert FindPid(Tables.Booted().procs, 1, NPROC) == 1;
  }

  function Interloper(): seq<PStep> {
    [Call(DoResume(1))] + ([PtCreate(1)] + ([PtSend(1, 0)] + []))
  }

  /** The other process runs. */
  lemma OtherRuns(s: P)
    requires Halfway(s)
    ensures PEnabled(s, Call(DoResume(1)))
    ensures var t := PDo(s, Call(DoResume(1)));
            && t.ports == s.ports && t.free == 0 && t.nextid == 1 && t.pend[1] == Idle
            && t.k.currpid == 1 && t.k.ctx[1] == Nothing && t.k.nextsem == 2 && t.k.sems == s.k.sems
  {
  }

  /** It makes a port and sends. */
  lemma MakeAndSend(t: P)
    requires PSized(t) && t.free == 0 && t.nextid == 1 && t.k.currpid == 1 && t.pend[1] == Idle && t.k.ctx[1] == Nothing
    requires t.ports[0].ptstate == PT_LIMBO && forall j :: 0 < j < NPORTS ==> t.ports[j].ptstate == PT_FREE
    requires t.k.nextsem == 2 && forall j :: 2 <= j < NSEM ==> !t.k.sems[j].used
    ensures EndsBadly(t, [PtCreate(1)] + ([PtSend(1, 0)] + []))
  {
    hide PEnabled, PDo, Panics, PRuns, PAfter;
    MakePort(t, 1);
    var u := Made(t, 1);
    BeginQuiet(u, 1, 0);
    AllocatedOne(Sending(u, 1, 0).ports, 1);
    BadAlready(Sending(u, 1, 0));
    Before(u, PtSend(1, 0), []);
    Before(t, PtCreate(1), [PtSend(1, 0)] + []);
  }

  lemma BadAlready(s: P)
    requires Panics(s) && Allocated(s.ports) <= 1
    ensures EndsBadly(s, [])
  {
  }

  lemma Interlope(s: P)
    requires Halfway(s)
    ensures EndsBadly(s, Interloper())
  {
    hide PEnabled, PDo, EndsBadly, SetPend;
    OtherRuns(s);
    MakeAndSend(PDo(s, Call(DoResume(1))));
    Before(s, Call(DoResume(1)), [PtCreate(1)] + ([PtSend(1, 0)] + []));
  }

  function Victim(): seq<PStep> {
    [PtCreate(1)] + ([PtSend(0, 0)] + ([EndSend] + ([PtClear(0, false)] + ([PtDispose] + Interloper()))))
  }

  /** The null process clears its port and begins to dispose of the message. */
  lemma ClearAndDispose(u: P)
    requires PSized(u) && u.free == 0 && u.nextid == 1 && u.ports[0].ptstate == PT_ALLOC && |u.ports[0].msgs| == 1
    requires forall j :: 0 < j < NPORTS ==> u.ports[j].ptstate == PT_FREE && !u.ports[j].sown && !u.ports[j].rown
    requires u.ports[0].ptssem >= 0 && u.ports[0].ptrsem >= 0 && u.pend[0] == u.pend[1] == Idle && Fresh(u.k, 2)
    ensures PEnabled(u, PtClear(0, false)) && PEnabled(PDo(u, PtClear(0, false)), PtDispose)
    ensures Halfway(PDo(PDo(u, PtClear(0, false)), PtDispose))
  {
  }

  /** The null process sends to a new port. */
  lemma SendAlone(s: P)
    requires PSized(s) && s.free == 1 && s.nextid == 0 && s.pend[0] == s.pend[1] == Idle && Fresh(s.k, 0)
    requires forall j :: 0 <= j < NPORTS ==> s.ports[j] == Port(0, 0, PT_FREE, 0, 0, [], false, false, 0)
    ensures Quiet(Made(s, 1), 0)
    ensures var u := SentOne(Made(s, 1), 0, 0);
            PEnabled(u, PtClear(0, false)) && PEnabled(PDo(u, PtClear(0, false)), PtDispose)
            && Halfway(PDo(PDo(u, PtClear(0, false)), PtDispose))
  {
    hide PEnabled, PDo, Halfway;
    ClearAndDispose(SentOne(Made(s, 1), 0, 0));
  }

  /** And so on, to the end. */
  lemma SendAndClear(s: P)
    requires PSized(s) && s.free == 1 && s.nextid == 0 && s.pend[0] == s.pend[1] == Idle && Fresh(s.k, 0)
    requires forall j :: 0 <= j < NPORTS ==> s.ports[j] == Port(0, 0, PT_FREE, 0, 0, [], false, false, 0)
    ensures EndsBadly(s, Victim())
  {
    hide PEnabled, PDo, EndsBadly, Interloper, Halfway, Quiet, Sending, SentOne;
    var t := Made(s, 1);
    MakePort(s, 1);
    SendAlone(s);
    BeginQuiet(t, 0, 0);
    EndQuiet(t, 0, 0);
    var u := SentOne(t, 0, 0);
    var v := PDo(u, PtClear(0, false));
    Interlope(PDo(v, PtDispose));
    Before(v, PtDispose, Interloper());
    Before(u, PtClear(0, false), [PtDispose] + Interloper());
    Before(Sending(t, 0, 0), EndSend, [PtClear(0, false)] + ([PtDispose] + Interloper()));
    Before(t, PtSend(0, 0), [EndSend] + ([PtClear(0, false)] + ([PtDispose] + Interloper())));
    Before(s, PtCreate(1), [PtSend(0, 0)] + ([EndSend] + ([PtClear(0, false)] + ([PtDispose] + Interloper()))));
  }

  /** The sizes of the allocated ports alone do not keep ptsend from panicking: the null
      process sends the only node to a port and clears it, and while it disposes of the message
      another process makes a port of size 1 and sends. */
  lemma ClearedPortsCount()
    ensures exists es :: EndsBadly(PBooted(1), es)
  {
    MakeProcess();
    SendAndClear(PDo(PBooted(1), Call(DoCreate(20, true))));
    Before(PBooted(1), Call(DoCreate(20, true)), Victim());
    assert EndsBadly(PBooted(1), [Call(DoCreate(20, true))] + Victim());
  }
}
