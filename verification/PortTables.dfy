/** Ports as the source has them: a table of ports, a pool of nodes, and the tables of the
    process manager, which every call updates in place. Each method does to them what the
    function of the same name in PortSpec does to the state as a value. What a call keeps on
    the stack while it waits are parameters of the method that goes on with it. */
module PortTables {
  import opened KernelQueues
  import opened KernelSpec
  import opened KernelInv
  import opened KernelCalls
  import opened KernelRuns
  import opened PortSpec
  import opened PortInv
  import opened PortCalls
  import opened PortKeeps
  import opened PortRuns
  import Tables = KernelTables
  import Nodes = PortNodes

  datatype Ptentry = Ptentry(ptssem: int, ptrsem: int, ptstate: PtState, ptmaxcnt: nat, ptseq: int,
                             pthead: int, pttail: int)

  datatype Book = Book(sown: bool, rown: bool, cap: nat)

  function PortOf(e: Ptentry, b: Book, msgs: seq<int>): Port {
    Port(e.ptssem, e.ptrsem, e.ptstate, e.ptmaxcnt, e.ptseq, msgs, b.sown, b.rown, b.cap)
  }

  /** The port can be used and has the semaphore. */
  ghost predicate Begins(s: P, i: int, sending: bool)
    requires PSized(s)
  {
    !BadPort(i) && s.ports[i].ptstate == PT_ALLOC && Live(s.k, if sending then s.ports[i].ptssem else s.ports[i].ptrsem)
  }

  /** wait on the semaphore does not stop the null process, nor one that put off rescheduling. */
  ghost predicate MayWait(k: K, sem: int)
    requires Sized(k) && Live(k, sem)
  {
    CanBlock(k) || k.sems[sem].count > 0
  }

  /** The new port i. */
  ghost function MadeAt(s: P, i: nat, count: nat): P
    requires PSized(s) && i < NPORTS
  {
    var (k1, ssem) := SemCreate(s.k, count);
    var (k2, rsem) := SemCreate(k1, 0);
    SetPort(s, i, Port(ssem, rsem, PT_ALLOC, count % UINT16, s.ports[i].ptseq + 1, [],
                       ssem != SYSERR, rsem != SYSERR, count)).(k := k2)
  }

  lemma NewPortIs(s: P, count: int)
    requires PSized(s)
    ensures var i := FindPort(s.ports, s.nextid, |s.ports|);
            NewPort(s, count) ==
            if count < 0 || i == SYSERR then (s, SYSERR)
            else (MadeAt(s.(nextid := if i + 1 == NPORTS then 0 else i + 1), i, count), i)
  {
    hide SemCreate, FindPort;
  }

  lemma WaitRefused(k: K, sem: int)
    requires Sized(k)
    ensures Wait(k, sem).1 == if Live(k, sem) then OK else SYSERR
    ensures !Live(k, sem) ==> Wait(k, sem).0 == k
  {
  }

  /** ClearFirst, one thing after the other. */
  lemma ClearFirstIs(s: P, i: nat, del: bool)
    requires AtStage(s, 0) && s.pend[s.k.currpid] == Clears(i, del, 0, s.pend[s.k.currpid].done)
    ensures var pt, t := s.ports[i], SetPend(s, Clears(i, del, 1, s.pend[s.k.currpid].done));
            var u := SetPort(t, i, pt.(msgs := [])).(free := s.free + |pt.msgs|);
            ClearFirst(s) == SetPort(u, i, u.ports[i].(sown := pt.sown && !del)).(
              k := if del then SemDelete(s.k, pt.ptssem).0 else SemReset(s.k, pt.ptssem, pt.ptmaxcnt).0)
  {
    hide SemReset, SemDelete;
  }

  class Ports {
    const os: Tables.Kernel
    const pool: Nodes.NodePool
    const porttab: array<Ptentry>
    var ptnextid: nat
    ghost var pend: seq<Pend>
    ghost var book: seq<Book>

    /** The tables of the process manager. */
    ghost function System(): set<object> {
      {os, os.q, os.q.qkey, os.q.qnext, os.q.qprev, os.proctab, os.semtab}
    }

    ghost function Repr(): set<object> {
      System() + {this, pool, pool.ptmsg, pool.ptnext, porttab}
    }

    /** The ends of the list of port i are as the table has them. */
    ghost predicate Ends(i: nat)
      reads pool, porttab
      requires i < |pool.lists| && i < porttab.Length
    {
      porttab[i].pthead == Nodes.First(pool.lists[i]) && porttab[i].pttail == Nodes.Last(pool.lists[i])
    }

    /** Port i is in use, or its messages are still to be disposed of, or it will be in use
        again. */
    ghost predicate NeedsEnds(i: nat)
      reads this, porttab
      requires i < porttab.Length
    {
      || porttab[i].ptstate == PT_ALLOC
      || exists q :: 0 <= q < |pend| && pend[q].Clears? && pend[q].port == i && (pend[q].phase == 0 || !pend[q].del)
    }

    ghost predicate PortsShape()
      reads this, pool, pool.ptmsg, pool.ptnext, porttab
    {
      && pool.Shape() && |pool.lists| == NPORTS + 1 && porttab.Length == NPORTS && |book| == NPORTS
      && ptnextid < NPORTS && |pend| == NPROC
      && forall i :: 0 <= i < NPORTS && NeedsEnds(i) ==> Ends(i)
    }

    ghost predicate Shape()
      reads Repr()
    {
      && os.Shape() && PortsShape()
      && {pool.ptmsg, pool.ptnext} !! System() && this as object !in System() && pool as object !in System()
      && porttab as object !in System()
    }

    ghost function Table(): (r: seq<Port>)
      reads this, pool, pool.ptmsg, pool.ptnext, porttab
      requires PortsShape()
      ensures |r| == NPORTS
    {
      seq(NPORTS, i requires 0 <= i < NPORTS && PortsShape() reads this, pool, pool.ptmsg, pool.ptnext, porttab =>
            PortOf(porttab[i], book[i], pool.Held(i)))
    }

    /** The tables as a value. */
    ghost function S(): (s: P)
      reads Repr()
      requires Shape()
      ensures PSized(s)
    {
      P(os.S(), Table(), |pool.lists[NPORTS]|, ptnextid, pend)
    }

    lemma Facing()
      requires Shape()
      ensures var s := S();
              && s.k == os.S() && s.ports == Table() && s.free == |pool.lists[NPORTS]| && s.nextid == ptnextid
                 && s.pend == pend
              && s.k.currpid == os.currpid && s.k.ctx == os.ctx && porttab.Length == NPORTS && pool.Shape()
              && |pool.lists| == NPORTS + 1 && |book| == NPORTS && |pend| == NPROC && PSized(s)
              && forall i :: 0 <= i < NPORTS ==> s.ports[i] == PortOf(porttab[i], book[i], pool.Held(i))
    {
      os.Facing();
    }

    /** The ports, before the first is made. */
    lemma Unused()
      requires pool.Shape() && |pool.lists| == NPORTS + 1 && porttab.Length == NPORTS && ptnextid == 0
      requires forall i :: 0 <= i < NPORTS ==> |pool.lists[i]| == 0
      requires forall i :: 0 <= i < NPORTS ==> porttab[i] == Ptentry(0, 0, PT_FREE, 0, 0, Nodes.NULL, Nodes.NULL)
      requires book == seq(NPORTS, _ => Book(false, false, 0)) && pend == seq(NPROC, _ => Idle)
      ensures PortsShape() && Table() == seq(NPORTS, _ => Port(0, 0, PT_FREE, 0, 0, [], false, false, 0))
    {
    }

    /** The system is started, and then ptinit. */
    constructor (maxmsgs: nat)
      requires maxmsgs > 0
      ensures Shape() && S() == PBooted(maxmsgs) && fresh(Repr())
    {
      hide Tables.Kernel.S, Tables.Kernel.Shape, Tables.Booted, Ports.Table, Ports.S, Ports.PortsShape, PSized,
        Nodes.NodePool.Shape, PBooted;
      os := new Tables.Kernel();
      pool := new Nodes.NodePool(maxmsgs, NPORTS);
      porttab := new Ptentry[NPORTS](_ => Ptentry(0, 0, PT_FREE, 0, 0, Nodes.NULL, Nodes.NULL));
      ptnextid := 0;
      pend, book := seq(NPROC, _ => Idle), seq(NPORTS, _ => Book(false, false, 0));
      new;
      Unused();
      Started(maxmsgs);
    }

    lemma Started(maxmsgs: nat)
      requires Shape() && Table() == seq(NPORTS, _ => Port(0, 0, PT_FREE, 0, 0, [], false, false, 0))
      requires os.S() == Tables.Booted() && |pool.lists[NPORTS]| == maxmsgs && ptnextid == 0
               && pend == seq(NPROC, _ => Idle)
      ensures S() == PBooted(maxmsgs)
    {
      hide Tables.Kernel.S, Tables.Kernel.Shape, Tables.Booted, Ports.Table, Nodes.NodePool.Shape;
    }

    /** Only the entry of port i is another than in t. */
    lemma TableSet(t: seq<Port>, i: nat, pt: Port)
      requires PortsShape() && |t| == NPORTS && i < NPORTS && PortOf(porttab[i], book[i], pool.Held(i)) == pt
      requires forall j :: 0 <= j < NPORTS && j != i ==> t[j] == PortOf(porttab[j], book[j], pool.Held(j))
      ensures Table() == t[i := pt]
    {
    }

    // ---- the parts of calls ----

    /** isbadport, and whether the port can be used. */
    method Usable(i: int) returns (ok: bool)
      requires Shape()
      ensures ok == (!BadPort(i) && S().ports[i].ptstate == PT_ALLOC)
    {
      Facing();
      ok := !(i < 0 || i >= NPORTS) && porttab[i].ptstate == PT_ALLOC;
    }

    ghost method Note(c: Pend)
      requires Shape()
      requires c.Clears? ==> c.port < NPORTS && (c.phase == 0 || !c.del ==> Ends(c.port))
      modifies `pend
      ensures Shape() && S() == SetPend(old(S()), c)
    {
      Facing();
      pend := pend[os.currpid := c];
      assert Table() == old(Table());
    }

    // What the process manager does leaves the ports alone.

    method SysWait(sem: int) returns (r: int)
      requires Shape() && Inv(S().k) && os.ctx[os.currpid] == Nothing && (Live(S().k, sem) ==> MayWait(S().k, sem))
      modifies System()
      ensures Shape() && (S(), r) == (old(S()).(k := Wait(old(S()).k, sem).0), Wait(old(S()).k, sem).1)
    {
      hide Inv, Tables.Kernel.S, Tables.Kernel.Shape, Wait, Ports.Table, Ports.PortsShape, CanBlock;
      os.Facing();
      r := os.Wait(sem);
    }

    method SysSignal(sem: int) returns (r: int)
      requires Shape() && Inv(S().k)
      modifies System()
      ensures Shape() && S() == old(S()).(k := Signal(old(S()).k, sem).0)
    {
      hide Inv, Tables.Kernel.S, Tables.Kernel.Shape, Signal, Ports.Table, Ports.PortsShape;
      r := os.Signal(sem);
    }

    /** Either semreset or semdelete. */
    method SysClear(sem: int, del: bool, count: int)
      requires Shape() && Inv(S().k) && count <= MAXCOUNT
      modifies System()
      ensures Shape()
      ensures S() == old(S()).(k := if del then SemDelete(old(S()).k, sem).0 else SemReset(old(S()).k, sem, count).0)
    {
      hide Inv, Tables.Kernel.S, Tables.Kernel.Shape, SemDelete, SemReset, Ports.Table, Ports.PortsShape;
      if del {
        var r := os.SemDelete(sem);
      } else {
        var r := os.SemReset(sem, count);
      }
    }

    method SysSemCreate(count: int) returns (sem: int)
      requires Shape()
      modifies System()
      ensures Shape() && (S(), sem) == (old(S()).(k := SemCreate(old(S()).k, count).0), SemCreate(old(S()).k, count).1)
    {
      hide Inv, Tables.Kernel.S, Tables.Kernel.Shape, SemCreate, Ports.Table, Ports.PortsShape;
      sem := os.SemCreate(count);
    }

    /** A new entry for port i, with the same list. */
    method PutEntry(i: nat, e: Ptentry, ghost b: Book)
      requires Shape() && i < NPORTS && e.pthead == porttab[i].pthead && e.pttail == porttab[i].pttail
      requires e.ptstate == PT_ALLOC ==> Ends(i)
      modifies this`book, porttab
      ensures Shape() && S() == SetPort(old(S()), i, PortOf(e, b, old(S()).ports[i].msgs))
      ensures porttab[i] == e && book[i] == b
    {
      hide Ports.S, Tables.Kernel.S, Tables.Kernel.Shape, Nodes.NodePool.Shape, PSized;
      Facing();
      porttab[i], book := e, book[i := b];
      forall j | 0 <= j < NPORTS && NeedsEnds(j)
        ensures Ends(j)
      {
        assert j != i || e.ptstate != PT_ALLOC ==> old(NeedsEnds(j) && Ends(j));
      }
      Facing();
      assert Table() == old(Table())[i := PortOf(e, b, old(S()).ports[i].msgs)];
    }

    /** ptsend: a free node takes the message to the end of the list of port i. */
    method PutMessage(i: nat, msg: int)
      requires Shape() && i < NPORTS && porttab[i].ptstate == PT_ALLOC && |pool.lists[NPORTS]| > 0
      modifies porttab, pool, pool.ptmsg, pool.ptnext
      ensures Shape()
      ensures var pt := old(S()).ports[i];
              S() == SetPort(old(S()), i, pt.(msgs := pt.msgs + [msg])).(free := old(S()).free - 1)
      ensures porttab[i].ptrsem == old(porttab[i].ptrsem)
    {
      hide Ports.Table, Ports.S, Tables.Kernel.S, Tables.Kernel.Shape, Nodes.NodePool.Shape, PSized;
      Facing();
      assert NeedsEnds(i);
      var tail := porttab[i].pttail;
      var node := pool.Put(msg, tail, i);
      porttab[i] := porttab[i].(pttail := node);
      if tail == Nodes.NULL {
        porttab[i] := porttab[i].(pthead := node);
      }
      forall j | 0 <= j < NPORTS && NeedsEnds(j)
        ensures Ends(j)
      {
        assert j != i ==> old(NeedsEnds(j) && Ends(j));
      }
      Facing();
      ghost var pt := old(S()).ports[i];
      TableSet(old(S().ports), i, pt.(msgs := pt.msgs + [msg]));
    }

    /** ptrecv: the first node of port i gives its message and is free again. */
    method TakeMessage(i: nat) returns (msg: int)
      requires Shape() && i < NPORTS && porttab[i].ptstate == PT_ALLOC && |S().ports[i].msgs| > 0
      modifies porttab, pool, pool.ptnext
      ensures Shape()
      ensures var pt := old(S()).ports[i];
              && msg == pt.msgs[0]
              && S() == SetPort(old(S()), i, pt.(msgs := pt.msgs[1..])).(free := old(S()).free + 1)
      ensures porttab[i].ptssem == old(porttab[i].ptssem)
    {
      hide Ports.Table, Ports.S, Tables.Kernel.S, Tables.Kernel.Shape, Nodes.NodePool.Shape, PSized;
      Facing();
      assert NeedsEnds(i);
      pool.Single(i);
      var head := porttab[i].pthead;
      var next;
      msg, next := pool.Take(head, i);
      if head == porttab[i].pttail {
        porttab[i] := porttab[i].(pthead := Nodes.NULL, pttail := Nodes.NULL);
      } else {
        porttab[i] := porttab[i].(pthead := next);
      }
      forall j | 0 <= j < NPORTS && NeedsEnds(j)
        ensures Ends(j)
      {
        assert j != i ==> old(NeedsEnds(j) && Ends(j));
      }
      Facing();
      ghost var pt := old(S()).ports[i];
      assert pool.Held(i) == pt.msgs[1..];
      TableSet(old(S().ports), i, pt.(msgs := pt.msgs[1..]));
    }

    /** _ptclear: all nodes of port i are free again. For a port that stays in use the table
        forgets them; for one that is deleted it does not. */
    method DropMessages(i: nat, del: bool)
      requires Shape() && i < NPORTS && Ends(i) && porttab[i].ptstate == PT_LIMBO
      requires forall q :: 0 <= q < NPROC && pend[q].Clears? && pend[q].port == i ==>
                 pend[q].phase > 0 && pend[q].del == del
      modifies porttab, pool, pool.ptnext
      ensures Shape()
      ensures var pt := old(S()).ports[i];
              S() == SetPort(old(S()), i, pt.(msgs := [])).(free := old(S()).free + |pt.msgs|)
      ensures porttab[i].ptssem == old(porttab[i].ptssem) && porttab[i].ptmaxcnt == old(porttab[i].ptmaxcnt)
    {
      hide Ports.Table, Ports.S, Tables.Kernel.S, Tables.Kernel.Shape, Nodes.NodePool.Shape, PSized;
      Facing();
      if porttab[i].pthead != Nodes.NULL {
        pool.Splice(porttab[i].pthead, porttab[i].pttail, i);
        assert |pool.lists[NPORTS]| == old(|pool.lists[i]| + |pool.lists[NPORTS]|);
      }
      assert |pool.lists[i]| == 0;
      if !del {
        porttab[i] := porttab[i].(pthead := Nodes.NULL, pttail := Nodes.NULL);
      }
      forall j | 0 <= j < NPORTS && NeedsEnds(j)
        ensures Ends(j)
      {
        assert j != i ==> old(NeedsEnds(j) && Ends(j));
      }
      Facing();
      ghost var pt := old(S()).ports[i];
      assert pool.Held(i) == [];
      TableSet(old(S().ports), i, pt.(msgs := []));
    }

    // ---- the calls ----

    /** ptsend and ptrecv, as far as wait. */
    method Begin(i: int, sending: bool, msg: int) returns (r: int)
      requires Shape() && Inv(S().k) && MayBegin(S(), i, sending)
      modifies Repr()
      ensures Shape() && S() == PortSpec.Begin(old(S()), i, sending, msg)
      ensures r == if Begins(old(S()), i, sending) then OK else SYSERR
    {
      hide Inv, PSized, Ports.S, Ports.Shape, Wait, CanBlock;
      Facing();
      var ok := Usable(i);
      if !ok {
        return SYSERR;
      }
      var sem := if sending then porttab[i].ptssem else porttab[i].ptrsem;
      if Live(S().k, sem) {
        Note(Waits(i, porttab[i].ptseq, sending, msg));
      }
      Facing();
      WaitRefused(S().k, sem);
      r := SysWait(sem);
    }

    /** ptsend, when wait has returned; sq and msg are what it has on its stack. */
    method SendRest(i: nat, sq: int, msg: int, ghost total: nat) returns (r: int, panic: bool)
      requires Shape() && PInv(S(), total) && pend[os.currpid] == Waits(i, sq, true, msg)
      modifies Repr()
      ensures panic == !SendEnd(old(S())).1
      ensures !panic ==> Shape() && S() == SendEnd(old(S())).0 && r == Sent(old(S()))
    {
      hide Inv, PInv, PSized, Ports.S, Ports.Shape, Signal;
      Facing();
      Waiting(S(), total);
      if porttab[i].ptstate != PT_ALLOC || porttab[i].ptseq != sq {
        Note(Idle);
        return SYSERR, false;
      }
      if pool.ptfree == Nodes.NULL {
        NoneFree();
        return SYSERR, true;
      }
      NoneFree();
      PutMessage(i, msg);
      Note(Idle);
      Facing();
      var sem := SysSignal(porttab[i].ptrsem);
      r, panic := OK, false;
    }

    /** ptrecv, when wait has returned. */
    method RecvRest(i: nat, sq: int, ghost total: nat) returns (r: int)
      requires Shape() && PInv(S(), total)
      requires pend[os.currpid].Waits? && pend[os.currpid] == Waits(i, sq, false, pend[os.currpid].msg)
      modifies Repr()
      ensures Shape() && S() == RecvEnd(old(S())) && r == Received(old(S()))
    {
      hide Inv, PInv, PSized, Ports.S, Ports.Shape, Signal;
      Facing();
      Waiting(S(), total);
      if porttab[i].ptstate != PT_ALLOC || porttab[i].ptseq != sq {
        Note(Idle);
        return SYSERR;
      }
      NeverEmpty(S(), total);
      r := TakeMessage(i);
      Note(Idle);
      Facing();
      var sem := SysSignal(porttab[i].ptssem);
    }

    /** ptreset and ptdelete, as far as the walk along the messages; walk is the first node. */
    method ClearBegin(i: int, del: bool) returns (ok: bool, walk: int)
      requires Shape() && Inv(S().k)
      modifies Repr()
      ensures Shape() && S() == Clear(old(S()), i, del) && ok == (!BadPort(i) && old(S()).ports[i].ptstate == PT_ALLOC)
      ensures ok ==> walk == WalkAt(i, 0)
    {
      hide Inv, PSized, Ports.S, Ports.Shape, Nodes.NodePool.Shape;
      Facing();
      ok := Usable(i);
      if !ok {
        return false, Nodes.NULL;
      }
      InUse(i);
      walk := porttab[i].pthead;
      Note(Clears(i, del, 0, 0));
      Facing();
      PutEntry(i, porttab[i].(ptstate := PT_LIMBO, ptseq := porttab[i].ptseq + 1), book[i]);
    }

    /** The node where the walk along port i is when it has passed j messages. */
    ghost function WalkAt(i: nat, j: nat): int
      reads pool
      requires i < |pool.lists|
    {
      if j < |pool.lists[i]| then pool.lists[i][j] else Nodes.NULL
    }

    lemma InUse(i: nat)
      requires Shape() && i < NPORTS && porttab[i].ptstate == PT_ALLOC
      ensures Ends(i)
    {
      assert NeedsEnds(i);
    }

    /** One round of the walk: msg goes to the caller's function, next is the node after. */
    method DisposeNext(i: nat, walk: int) returns (msg: int, next: int)
      requires Shape() && AtStage(S(), 0) && pend[os.currpid].port == i && walk != Nodes.NULL
      requires i < NPORTS ==> walk == WalkAt(i, pend[os.currpid].done)
      modifies `pend
      ensures Shape() && S() == Dispose(old(S()))
      ensures old(pend[os.currpid].done) < |old(S()).ports[i].msgs|
      ensures msg == old(S()).ports[i].msgs[old(pend[os.currpid].done)] && next == WalkAt(i, pend[os.currpid].done)
    {
      hide PSized, Ports.S, Ports.Shape, Nodes.NodePool.Shape;
      Facing();
      ghost var d := pend[os.currpid];
      StageEnds(i);
      pool.Walk(walk, i, d.done);
      msg, next := pool.ptmsg[walk], pool.ptnext[walk];
      Note(d.(done := d.done + 1));
      Facing();
    }

    lemma StageEnds(i: nat)
      requires Shape() && AtStage(S(), 0) && pend[os.currpid].port == i
      ensures Ends(i)
    {
      Facing();
      assert NeedsEnds(i);
    }

    /** The walk is over: the nodes are free, and those who wait to send let go. */
    method ClearFirst(i: nat, del: bool, ghost total: nat)
      requires Shape() && PInv(S(), total) && AtStage(S(), 0)
      requires pend[os.currpid] == Clears(i, del, 0, pend[os.currpid].done)
      modifies Repr()
      ensures Shape() && S() == PortSpec.ClearFirst(old(S()))
    {
      hide Inv, PInv, PSized, Ports.S, Ports.Shape, SemReset, SemDelete, ClearOk, PortSpec.ClearFirst;
      Facing();
      Stage(total);
      StageEnds(i);
      ClearFirstIs(S(), i, del);
      Note(Clears(i, del, 1, pend[os.currpid].done));
      Facing();
      DropMessages(i, del);
      Facing();
      PutEntry(i, porttab[i], book[i].(sown := book[i].sown && !del));
      SysClear(porttab[i].ptssem, del, porttab[i].ptmaxcnt);
    }

    /** Only the current process is clearing its port, which is in limbo. */
    lemma Stage(total: nat)
      requires Shape() && PInv(S(), total) && pend[os.currpid].Clears?
      ensures Inv(S().k) && pend[os.currpid].port < NPORTS && porttab[pend[os.currpid].port].ptstate == PT_LIMBO
      ensures 0 <= porttab[pend[os.currpid].port].ptmaxcnt <= MAXCOUNT
      ensures forall q :: 0 <= q < NPROC && q != os.currpid && pend[q].Clears? ==> pend[q].port != pend[os.currpid].port
    {
      Facing();
      Clearing(S(), total, os.currpid);
      PortIs(S(), total, pend[os.currpid].port);
    }

    /** Then those who wait to receive, */
    method ClearOn(i: nat, del: bool, ghost total: nat)
      requires Shape() && PInv(S(), total) && AtStage(S(), 1)
      requires pend[os.currpid] == Clears(i, del, 1, pend[os.currpid].done)
      modifies Repr()
      ensures Shape() && S() == PortSpec.ClearOn(old(S()))
    {
      hide Inv, PInv, PSized, Ports.S, Ports.Shape, SemReset, SemDelete, ClearOk;
      Facing();
      Stage(total);
      ResetEnds(i);
      Note(Clears(i, del, 2, pend[os.currpid].done));
      Facing();
      PutEntry(i, porttab[i], book[i].(rown := book[i].rown && !del));
      SysClear(porttab[i].ptrsem, del, 0);
    }

    lemma ResetEnds(i: nat)
      requires Shape() && i < NPORTS && pend[os.currpid].Clears? && pend[os.currpid].port == i
      ensures !pend[os.currpid].del ==> Ends(i)
    {
      Facing();
      assert !pend[os.currpid].del ==> NeedsEnds(i);
    }

    /** and the port is free, or in use again. */
    method ClearEnd(i: nat, del: bool, ghost total: nat)
      requires Shape() && PInv(S(), total) && AtStage(S(), 2)
      requires pend[os.currpid] == Clears(i, del, 2, pend[os.currpid].done)
      modifies Repr()
      ensures Shape() && S() == PortSpec.ClearEnd(old(S()))
    {
      hide Inv, PInv, PSized, Ports.S, Ports.Shape, ClearOk;
      Facing();
      Stage(total);
      ResetEnds(i);
      Note(Idle);
      Facing();
      PutEntry(i, porttab[i].(ptstate := if del then PT_FREE else PT_ALLOC), book[i].(cap := porttab[i].ptmaxcnt));
      if del {
        PutHint(i);
      }
    }

    method PutHint(n: nat)
      requires Shape() && n < NPORTS
      modifies `ptnextid
      ensures Shape() && S() == old(S()).(nextid := n)
    {
      Facing();
      ptnextid := n;
      Facing();
      assert Table() == old(Table());
    }

    /** ptcreate, for the entry that was found. */
    method Make(i: nat, count: nat)
      requires Shape() && i < NPORTS && |pool.lists[i]| == 0
      modifies Repr()
      ensures Shape()
      ensures S() == MadeAt(old(S()), i, count)
    {
      hide PSized, Ports.S, Ports.Shape, Ports.PortsShape, Nodes.NodePool.Shape, SemCreate, Sized;
      Facing();
      var ssem := SysSemCreate(count);
      var rsem := SysSemCreate(0);
      Facing();
      PutNewEntry(i, Ptentry(ssem, rsem, PT_ALLOC, count % UINT16, porttab[i].ptseq + 1, Nodes.NULL, Nodes.NULL),
                  Book(ssem != SYSERR, rsem != SYSERR, count));
    }

    /** A new entry for port i, which has no messages. */
    method PutNewEntry(i: nat, e: Ptentry, ghost b: Book)
      requires Shape() && i < NPORTS && |pool.lists[i]| == 0 && e.pthead == e.pttail == Nodes.NULL
      modifies this`book, porttab
      ensures Shape() && S() == SetPort(old(S()), i, PortOf(e, b, []))
    {
      hide Ports.S, Tables.Kernel.S, Tables.Kernel.Shape, Nodes.NodePool.Shape, PSized;
      Facing();
      porttab[i], book := e, book[i := b];
      forall j | 0 <= j < NPORTS && NeedsEnds(j)
        ensures Ends(j)
      {
        assert j != i ==> old(NeedsEnds(j) && Ends(j));
      }
      Facing();
      assert pool.Held(i) == [];
      assert Table() == old(Table())[i := PortOf(e, b, [])];
    }

    /** The search of ptcreate: the next free entry, counting round from the hint. */
    method Find() returns (r: int)
      requires Shape()
      modifies `ptnextid
      ensures Shape() && r == FindPort(old(S()).ports, old(S()).nextid, NPORTS)
      ensures S() == if r == SYSERR then old(S()) else old(S()).(nextid := if r + 1 == NPORTS then 0 else r + 1)
    {
      hide PSized, Ports.S, Ports.Shape, Nodes.NodePool.Shape, FindPort;
      ghost var s := S();
      var n := 0;
      Facing();
      while n < NPORTS
        invariant Shape() && S() == s.(nextid := ptnextid) && n <= NPORTS
        invariant ptnextid == (if s.nextid + n < NPORTS then s.nextid + n else s.nextid + n - NPORTS) < NPORTS
        invariant FindPort(s.ports, s.nextid, NPORTS) == FindPort(s.ports, ptnextid, NPORTS - n)
      {
        r := ptnextid;
        Facing();
        FindNext(s.ports, r, NPORTS - n);
        PutHint(if r + 1 >= NPORTS then 0 else r + 1);
        Facing();
        if porttab[r].ptstate == PT_FREE {
          return;
        }
        n := n + 1;
      }
      FindNext(s.ports, ptnextid, 0);
      r := SYSERR;
    }

    /** ptcreate */
    method Create(count: int, ghost total: nat) returns (r: int)
      requires Shape() && PInv(S(), total)
      modifies Repr()
      ensures Shape() && (S(), r) == NewPort(old(S()), count)
    {
      hide PInv, PSized, Ports.S, Ports.Shape, Nodes.NodePool.Shape, FindPort, NewPort, MadeAt;
      ghost var s := S();
      NewPortIs(s, count);
      if count < 0 {
        return SYSERR;
      }
      Facing();
      r := Find();
      if r != SYSERR {
        FreeEmpty(s, total, r);
        Facing();
        Make(r, count);
      }
    }

    lemma FindNext(ports: seq<Port>, i: nat, n: nat)
      requires i < |ports|
      ensures FindPort(ports, i, n) ==
              if n == 0 then SYSERR
              else if ports[i].ptstate == PT_FREE then i
              else FindPort(ports, if i + 1 == |ports| then 0 else i + 1, n - 1)
    {
    }

    lemma FreeEmpty(s: P, total: nat, i: nat)
      requires PInv(s, total) && i < NPORTS && s.ports[i].ptstate == PT_FREE
      ensures |s.ports[i].msgs| == 0
    {
      PortIs(s, total, i);
    }

    lemma NoneFree()
      requires Shape()
      ensures pool.ptfree == Nodes.NULL <==> S().free == 0
    {
      Facing();
      pool.Inside();
    }

    /** What the one who waited finds. */
    lemma Waiting(s: P, total: nat)
      requires PInv(s, total) && s.pend[s.k.currpid].Waits?
      ensures PSized(s) && Inv(s.k) && s.pend[s.k.currpid].port < NPORTS
    {
      assert PendOk(s.k, s.ports, s.pend, s.k.currpid);
    }
  }
}
