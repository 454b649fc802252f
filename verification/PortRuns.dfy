/** Runs of the system with ports, and what users of ports may rely on. */
module PortRuns {
  import opened KernelQueues
  import opened KernelSpec
  import opened KernelInv
  import opened KernelRuns
  import opened PortSpec
  import opened PortInv
  import opened PortCalls
  import opened PortKeeps
  import Tables = KernelTables

  /** One step: a call on ports, the rest of one that could lose the processor, or a step of
      the process manager that has nothing to do with ports. */
  datatype PStep =
    | Call(e: Step)
    | PtSend(i: int, msg: int) | PtRecv(i: int) | EndSend | EndRecv
    | PtClear(i: int, del: bool) | PtDispose | FirstClear | MoreClear | EndClear
    | PtCreate(count: int)

  ghost predicate PEnabled(s: P, e: PStep) {
    PSized(s) &&
    var d := s.pend[s.k.currpid];
    match e
    case Call(e) => Allowed(s, e)
    case PtSend(i, msg) => MayBegin(s, i, true)
    case PtRecv(i) => MayBegin(s, i, false)
    case EndSend => d.Waits? && d.sending && SendEnd(s).1
    case EndRecv => d.Waits? && !d.sending
    case PtClear(i, del) => d == Idle
    case PtDispose => AtStage(s, 0) && d.done < |s.ports[d.port].msgs|
    case FirstClear => AtStage(s, 0) && d.done == |s.ports[d.port].msgs|
    case MoreClear => AtStage(s, 1)
    case EndClear => AtStage(s, 2)
    case PtCreate(count) => d == Idle && count <= MAXCOUNT
  }

  ghost function PDo(s: P, e: PStep): (t: P)
    requires PEnabled(s, e)
    ensures PSized(t)
  {
    match e
    case Call(e) => Other(s, e)
    case PtSend(i, msg) => Begin(s, i, true, msg)
    case PtRecv(i) => Begin(s, i, false, 0)
    case EndSend => SendEnd(s).0
    case EndRecv => RecvEnd(s)
    case PtClear(i, del) => Clear(s, i, del)
    case PtDispose => Dispose(s)
    case FirstClear => ClearFirst(s)
    case MoreClear => ClearOn(s)
    case EndClear => ClearEnd(s)
    case PtCreate(count) => NewPort(s, count).0
  }

  /** Every step keeps the ports in order. */
  lemma PStepKeeps(s: P, e: PStep, total: nat)
    requires PInv(s, total) && PEnabled(s, e)
    ensures PInv(PDo(s, e), total)
  {
    hide PInv, Other, Begin, SendEnd, RecvEnd, Clear, Dispose, ClearFirst, ClearOn, ClearEnd, NewPort, Enabled,
         MayBegin,
      Allowed;
    match e {
      case Call(e) => OtherKeeps(s, e, total);
      case PtSend(i, msg) => BeginKeeps(s, total, i, true, msg);
      case PtRecv(i) => BeginKeeps(s, total, i, false, 0);
      case EndSend => SendEndKeeps(s, total);
      case EndRecv => RecvEndKeeps(s, total);
      case PtClear(i, del) => ClearKeeps(s, total, i, del);
      case PtDispose => DisposeKeeps(s, total);
      case FirstClear => ClearFirstKeeps(s, total);
      case MoreClear => ClearOnKeeps(s, total);
      case EndClear => ClearEndKeeps(s, total);
      case PtCreate(count) => NewPortKeeps(s, total, count);
    }
  }

  ghost predicate PRuns(s: P, es: seq<PStep>)
    decreases |es|
  {
    |es| == 0 || (PEnabled(s, es[0]) && PRuns(PDo(s, es[0]), es[1..]))
  }

  ghost function PAfter(s: P, es: seq<PStep>): (t: P)
    requires PRuns(s, es)
    decreases |es|
  {
    if |es| == 0 then s else PAfter(PDo(s, es[0]), es[1..])
  }

  lemma {:induction false} PRunKeeps(s: P, es: seq<PStep>, total: nat)
    requires PInv(s, total) && PRuns(s, es)
    ensures PInv(PAfter(s, es), total)
    decreases |es|
  {
    hide PInv, PEnabled, PDo;
    if |es| > 0 {
      PStepKeeps(s, es[0], total);
      PRunKeeps(PDo(s, es[0]), es[1..], total);
    }
  }

  /** ptinit, when the system starts. */
  ghost function PBooted(maxmsgs: nat): P {
    P(Tables.Booted(), seq(NPORTS, _ => Port(0, 0, PT_FREE, 0, 0, [], false, false, 0)), maxmsgs, 0,
      seq(NPROC, _ => Idle))
  }

  lemma NoneQueued(ports: seq<Port>)
    requires forall j :: 0 <= j < |ports| ==> |ports[j].msgs| == 0
    ensures Queued(ports) == 0
  {
    if |ports| > 0 {
      NoneQueued(ports[..|ports| - 1]);
    }
  }

  lemma PBootedOk(maxmsgs: nat)
    ensures PInv(PBooted(maxmsgs), maxmsgs)
  {
    Tables.BootedOk();
    CoreOf(Tables.Booted());
    hide Core, Tables.Booted;
    NoneQueued(PBooted(maxmsgs).ports);
  }

  /** What that means, at any time: messages, free permits and senders let through fit the
      port, there is a message for every permit and receiver let through, and no message
      node is lost. */
  lemma PortsSafe(maxmsgs: nat, es: seq<PStep>, i: nat)
    requires PRuns(PBooted(maxmsgs), es) && i < NPORTS
    ensures var s := PAfter(PBooted(maxmsgs), es);
            && PSized(s)
            && (s.ports[i].ptstate == PT_ALLOC && s.ports[i].sown ==>
                  var pt := s.ports[i];
                  && Live(s.k, pt.ptssem)
                  && |pt.msgs| + Permits(s.k.sems[pt.ptssem])
                     + |Granted(s.pend, s.k.lists[pt.ptssem], i, pt.ptseq, true)| <= pt.cap)
            && (s.ports[i].ptstate == PT_ALLOC && s.ports[i].rown ==>
                  var pt := s.ports[i];
                  && Live(s.k, pt.ptrsem)
                  && Permits(s.k.sems[pt.ptrsem])
                     + |Granted(s.pend, s.k.lists[pt.ptrsem], i, pt.ptseq, false)| <= |pt.msgs|)
            && s.free + Queued(s.ports) == maxmsgs
  {
    PBootedOk(maxmsgs);
    PRunKeeps(PBooted(maxmsgs), es, maxmsgs);
    PortIs(PAfter(PBooted(maxmsgs), es), maxmsgs, i);
  }

  /** A receiver that goes on finds a message, unless its port was cleared: then it answers
      SYSERR and leaves everything alone. */
  lemma NeverEmptyHanded(maxmsgs: nat, es: seq<PStep>)
    requires PRuns(PBooted(maxmsgs), es)
    ensures var s := PAfter(PBooted(maxmsgs), es);
            && PSized(s)
            && (var d := s.pend[s.k.currpid];
                d.Waits? && !d.sending ==>
                  if Unchanged(s, d) then |s.ports[d.port].msgs| > 0 && Received(s) == s.ports[d.port].msgs[0]
                  else Received(s) == SYSERR && RecvEnd(s) == SetPend(s, Idle))
  {
    PBootedOk(maxmsgs);
    PRunKeeps(PBooted(maxmsgs), es, maxmsgs);
    var s := PAfter(PBooted(maxmsgs), es);
    assert PSized(s);
    hide PInv, PRuns, PAfter;
    var d := s.pend[s.k.currpid];
    if d.Waits? && !d.sending && Unchanged(s, d) {
      NeverEmpty(s, maxmsgs);
    }
  }
}
