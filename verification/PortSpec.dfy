/** Ports: queues of messages between processes, bounded by two semaphores. Senders wait
    for space and receivers for messages; a process that was let through may run much
    later, when the port has been cleared in the meantime. */
module PortSpec {
  import opened KernelQueues
  import opened KernelSpec
  import opened KernelInv
  import opened KernelCalls
  import opened KernelProcs
  import opened KernelFrame
  import opened KernelRuns

  const NPORTS := 30
  const UINT16 := 65536

  datatype PtState = PT_FREE | PT_LIMBO | PT_ALLOC

  /** A port. The last three are bookkeeping: whether it still has its two semaphores, and
      how many permits for sending it was set up with. */
  datatype Port = Port(ptssem: int, ptrsem: int, ptstate: PtState, ptmaxcnt: nat, ptseq: int, msgs: seq<int>,
                       sown: bool, rown: bool, cap: nat)

  /** What a process is in the middle of: ptsend or ptrecv on a port, with the sequence
      number that it saw there, or clearing a port: how far it has come, and how many
      messages it has handed to the caller's function. */
  datatype Pend =
    | Idle
    | Waits(port: nat, sq: int, sending: bool, msg: int)
    | Clears(port: nat, del: bool, phase: nat, done: nat)

  /** The process manager, the ports, how many message nodes are free, and what every
      process is in the middle of. */
  datatype P = P(k: K, ports: seq<Port>, free: nat, nextid: nat, pend: seq<Pend>)

  ghost predicate PSized(s: P) {
    Sized(s.k) && |s.ports| == NPORTS && |s.pend| == NPROC && s.nextid < NPORTS
  }

  predicate BadPort(i: int) {
    i < 0 || i >= NPORTS
  }

  function SetPort(s: P, i: nat, pt: Port): P
    requires i < |s.ports|
  {
    s.(ports := s.ports[i := pt])
  }

  function SetPend(s: P, c: Pend): P
    requires s.k.currpid < |s.pend|
  {
    s.(pend := s.pend[s.k.currpid := c])
  }

  /** The semaphore exists. */
  ghost predicate Live(k: K, r: int)
    requires Sized(k)
  {
    0 <= r < NSEM && k.sems[r].used
  }

  // ---- the calls ----

  /** ptsend and ptrecv up to the point where they may wait. */
  ghost function Begin(s: P, i: int, sending: bool, msg: int): (t: P)
    requires PSized(s)
    ensures PSized(t)
  {
    if BadPort(i) || s.ports[i].ptstate != PT_ALLOC then s
    else
      var pt := s.ports[i];
      var r := if sending then pt.ptssem else pt.ptrsem;
      if !Live(s.k, r) then s
      else SetPend(s, Waits(i, pt.ptseq, sending, msg)).(k := Wait(s.k, r).0)
  }

  /** The port is as it was when the process began to wait. */
  predicate Unchanged(s: P, c: Pend)
    requires c.Waits?
  {
    c.port < |s.ports| && s.ports[c.port].ptstate == PT_ALLOC && s.ports[c.port].ptseq == c.sq
  }

  /** ptsend from there on; false stands for the panic when no node is free. */
  ghost function SendEnd(s: P): (r: (P, bool))
    requires PSized(s) && s.pend[s.k.currpid].Waits?
    ensures PSized(r.0)
  {
    var c, t := s.pend[s.k.currpid], SetPend(s, Idle);
    if !Unchanged(s, c) then (t, true)
    else if s.free == 0 then (t, false)
    else
      var pt := s.ports[c.port];
      (SetPort(t, c.port, pt.(msgs := pt.msgs + [c.msg])).(free := s.free - 1, k := Signal(s.k, pt.ptrsem).0), true)
  }

  /** ptrecv from there on. */
  ghost function RecvEnd(s: P): (t: P)
    requires PSized(s) && s.pend[s.k.currpid].Waits?
    ensures PSized(t)
  {
    var c, t := s.pend[s.k.currpid], SetPend(s, Idle);
    if !Unchanged(s, c) then t
    else
      var pt := s.ports[c.port];
      if |pt.msgs| == 0 then t
      else SetPort(t, c.port, pt.(msgs := pt.msgs[1..])).(free := s.free + 1, k := Signal(s.k, pt.ptssem).0)
  }

  /** What ptsend answers then. */
  ghost function Sent(s: P): int
    requires PSized(s) && s.pend[s.k.currpid].Waits?
  {
    if Unchanged(s, s.pend[s.k.currpid]) then OK else SYSERR
  }

  /** What ptrecv answers then: the first message. */
  ghost function Received(s: P): int
    requires PSized(s) && s.pend[s.k.currpid].Waits?
  {
    var c := s.pend[s.k.currpid];
    if Unchanged(s, c) && |s.ports[c.port].msgs| > 0 then s.ports[c.port].msgs[0] else SYSERR
  }

  /** ptreset and ptdelete, that is _ptclear, before anything is disposed of. */
  ghost function Clear(s: P, i: int, del: bool): (t: P)
    requires PSized(s)
    ensures PSized(t)
  {
    if BadPort(i) || s.ports[i].ptstate != PT_ALLOC then s
    else
      var pt := s.ports[i];
      SetPort(SetPend(s, Clears(i, del, 0, 0)), i, pt.(ptstate := PT_LIMBO, ptseq := pt.ptseq + 1))
  }

  /** The process is at the given stage of _ptclear. */
  ghost predicate AtStage(s: P, phase: nat) {
    PSized(s) && var c := s.pend[s.k.currpid]; c.Clears? && c.phase == phase && c.port < NPORTS
  }

  /** The next message is handed to the caller's function, which may well call on others
      and lose the processor. */
  ghost function Dispose(s: P): (t: P)
    requires AtStage(s, 0)
    ensures PSized(t)
  {
    var c := s.pend[s.k.currpid];
    SetPend(s, c.(done := c.done + 1))
  }

  /** All are disposed of: the nodes are free again; then the first semaphore. */
  ghost function ClearFirst(s: P): (t: P)
    requires AtStage(s, 0)
    ensures PSized(t)
  {
    var c := s.pend[s.k.currpid];
    var pt := s.ports[c.port];
    var k := if c.del then SemDelete(s.k, pt.ptssem).0 else SemReset(s.k, pt.ptssem, pt.ptmaxcnt).0;
    SetPort(SetPend(s, c.(phase := 1)), c.port, pt.(msgs := [], sown := pt.sown && !c.del)).(
      free := s.free + |pt.msgs|, k := k)
  }

  /** _ptclear, the second semaphore. */
  ghost function ClearOn(s: P): (t: P)
    requires AtStage(s, 1)
    ensures PSized(t)
  {
    var c := s.pend[s.k.currpid];
    var pt := s.ports[c.port];
    var k := if c.del then SemDelete(s.k, pt.ptrsem).0 else SemReset(s.k, pt.ptrsem, 0).0;
    SetPort(SetPend(s, c.(phase := 2)), c.port, pt.(rown := pt.rown && !c.del)).(k := k)
  }

  /** _ptclear, the end; ptdelete also moves the hint where to look for a free port. */
  ghost function ClearEnd(s: P): (t: P)
    requires AtStage(s, 2)
    ensures PSized(t)
  {
    var c := s.pend[s.k.currpid];
    var pt := s.ports[c.port];
    SetPort(SetPend(s, Idle), c.port, pt.(ptstate := if c.del then PT_FREE else PT_ALLOC, cap := pt.ptmaxcnt)).(
      nextid := if c.del then c.port else s.nextid)
  }

  /** The first free port from i on, in n tries, going round. */
  function FindPort(ports: seq<Port>, i: nat, n: nat): (r: int)
    requires i < |ports|
    ensures r != SYSERR ==> 0 <= r < |ports| && ports[r].ptstate == PT_FREE
    decreases n
  {
    if n == 0 then SYSERR
    else if ports[i].ptstate == PT_FREE then i
    else FindPort(ports, if i + 1 == |ports| then 0 else i + 1, n - 1)
  }

  /** ptcreate. The size is kept in 16 bits; a semaphore that could not be had is not
      noticed. */
  ghost function NewPort(s: P, count: int): (r: (P, int))
    requires PSized(s)
    ensures PSized(r.0)
  {
    if count < 0 then (s, SYSERR)
    else
      var i := FindPort(s.ports, s.nextid, |s.ports|);
      if i == SYSERR then (s, SYSERR)
      else
        var (k1, ssem) := SemCreate(s.k, count);
        var (k2, rsem) := SemCreate(k1, 0);
        (SetPort(s, i, Port(ssem, rsem, PT_ALLOC, count % UINT16, s.ports[i].ptseq + 1, [],
                            ssem != SYSERR, rsem != SYSERR, count)).(
           k := k2, nextid := if i + 1 == NPORTS then 0 else i + 1), i)
  }

  /** Any other call, and the clock; a process that dies or is made is in the middle of
      nothing. */
  ghost function Other(s: P, e: Step): (t: P)
    requires PSized(s) && Enabled(s.k, e)
    ensures PSized(t)
  {
    var k := Do(s.k, e);
    s.(k := k, pend := seq(NPROC, q requires 0 <= q < NPROC =>
         if k.procs[q].prstate == PR_FREE || s.k.procs[q].prstate == PR_FREE then Idle else s.pend[q]))
  }
}
