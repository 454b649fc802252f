/** Every step of the system with ports, made on the tables. */
module PortPerform {
  import opened KernelQueues
  import opened KernelSpec
  import opened KernelInv
  import opened KernelRuns
  import opened PortSpec
  import opened PortInv
  import opened PortCalls
  import opened PortKeeps
  import opened PortRuns
  import Tables = PortTables
  import Kernel = KernelTables

  /** A step of the process manager: a process that dies or is made is in the middle of
      nothing. */
  method PerformCall(m: Tables.Ports, e: Step)
    requires m.Shape() && Inv(m.S().k) && Enabled(m.S().k, e)
    modifies m.System(), m`pend
    ensures m.Shape() && m.S() == Other(old(m.S()), e)
  {
    hide Inv, Do, Enabled, Kernel.Kernel.S, Kernel.Kernel.Shape, Tables.Ports.Table, Tables.Ports.PortsShape;
    ghost var s := m.S();
    m.Facing();
    KernelRuns.Perform(m.os, e);
    m.Facing();
    Forget(m, Other(s, e).pend);
  }

  /** Some processes are in the middle of nothing now. */
  ghost method Forget(m: Tables.Ports, pend: seq<Pend>)
    requires m.Shape() && |pend| == NPROC && forall q :: 0 <= q < NPROC ==> pend[q] == Idle || pend[q] == m.pend[q]
    modifies m`pend
    ensures m.Shape() && m.S() == old(m.S()).(pend := pend)
  {
    hide Kernel.Kernel.S, Kernel.Kernel.Shape;
    m.Facing();
    m.pend := pend;
    forall i | 0 <= i < NPORTS && m.NeedsEnds(i)
      ensures m.Ends(i)
    {
      assert old(m.NeedsEnds(i) && m.Ends(i));
    }
    m.Facing();
    assert m.Table() == old(m.Table());
  }

  /** The step as the tables take it; c is what the current process has on its stack, and walk the
      node that it stands at when it disposes of messages. */
  method Perform(m: Tables.Ports, e: PStep, c: Pend, walk: int, ghost total: nat)
    requires m.Shape() && PInv(m.S(), total) && PEnabled(m.S(), e) && c == m.pend[m.os.currpid]
    requires e.PtDispose? ==> c.port < NPORTS && walk == m.WalkAt(c.port, c.done)
    modifies m.Repr()
    ensures m.Shape() && m.S() == PDo(old(m.S()), e) && PInv(m.S(), total)
  {
    hide PInv, PDo, PEnabled, Tables.Ports.S, Tables.Ports.Shape, Tables.Ports.WalkAt;
    ghost var s := m.S();
    PStepKeeps(s, e, total);
    if e.PtSend? || e.PtRecv? || e.EndSend? || e.EndRecv? {
      PerformMessage(m, e, c, total);
    } else if e.PtClear? || e.PtDispose? || e.FirstClear? || e.MoreClear? || e.EndClear? {
      PerformClear(m, e, c, walk, total);
    } else {
      PerformRest(m, e, total);
    }
  }

  lemma InOrder(s: P, total: nat)
    requires PInv(s, total)
    ensures PSized(s) && Inv(s.k)
  {
  }

  method PerformMessage(m: Tables.Ports, e: PStep, c: Pend, ghost total: nat)
    requires m.Shape() && PInv(m.S(), total) && PEnabled(m.S(), e) && c == m.pend[m.os.currpid]
    requires e.PtSend? || e.PtRecv? || e.EndSend? || e.EndRecv?
    modifies m.Repr()
    ensures m.Shape() && m.S() == PDo(old(m.S()), e)
  {
    hide PInv, Inv, Tables.Ports.S, Tables.Ports.Shape, Begin, SendEnd, RecvEnd, MayBegin;
    InOrder(m.S(), total);
    m.Facing();
    match e {
      case PtSend(i, msg) => var r := m.Begin(i, true, msg);
      case PtRecv(i) => var r := m.Begin(i, false, 0);
      case EndSend => var r, panic := m.SendRest(c.port, c.sq, c.msg, total);
      case EndRecv => var r := m.RecvRest(c.port, c.sq, total);
    }
  }

  method PerformClear(m: Tables.Ports, e: PStep, c: Pend, walk: int, ghost total: nat)
    requires m.Shape() && PInv(m.S(), total) && PEnabled(m.S(), e) && c == m.pend[m.os.currpid]
    requires e.PtClear? || e.PtDispose? || e.FirstClear? || e.MoreClear? || e.EndClear?
    requires e.PtDispose? ==> c.port < NPORTS && walk == m.WalkAt(c.port, c.done)
    modifies m.Repr()
    ensures m.Shape() && m.S() == PDo(old(m.S()), e)
  {
    hide PInv, Inv, Tables.Ports.S, Tables.Ports.Shape, Clear, Dispose, ClearFirst, ClearOn, ClearEnd;
    InOrder(m.S(), total);
    m.Facing();
    match e {
      case PtClear(i, del) => var ok, first := m.ClearBegin(i, del);
      case PtDispose =>
        StillOn(m, c);
        var msg, next := m.DisposeNext(c.port, walk);
      case FirstClear => m.ClearFirst(c.port, c.del, total);
      case MoreClear => m.ClearOn(c.port, c.del, total);
      case EndClear => m.ClearEnd(c.port, c.del, total);
    }
  }

  /** There is a message left to dispose of. */
  lemma StillOn(m: Tables.Ports, c: Pend)
    requires m.Shape() && PEnabled(m.S(), PtDispose) && c == m.pend[m.os.currpid] && c.Clears? && c.port < NPORTS
    ensures m.WalkAt(c.port, c.done) != Tables.Nodes.NULL
  {
    m.Facing();
  }

  method PerformRest(m: Tables.Ports, e: PStep, ghost total: nat)
    requires m.Shape() && PInv(m.S(), total) && PEnabled(m.S(), e) && (e.Call? || e.PtCreate?)
    modifies m.Repr()
    ensures m.Shape() && m.S() == PDo(old(m.S()), e)
  {
    hide PInv, Inv, Tables.Ports.S, Tables.Ports.Shape, NewPort, Other, Enabled;
    InOrder(m.S(), total);
    if e.Call? {
      PerformCall(m, e.e);
    } else {
      var r := m.Create(e.count, total);
    }
  }
}
