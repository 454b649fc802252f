/** Sending and receiving lose no room: what a message, a permit or a sender let through
    takes up of the capacity of a port is given back in full. */
module PortExact {
  import opened KernelQueues
  import opened KernelSpec
  import opened KernelInv
  import opened KernelCalls
  import opened KernelProcs
  import opened KernelFrame
  import opened KernelRuns
  import opened PortSpec
  import opened PortInv
  import opened PortCalls
  import opened PortKeeps
  import opened PortRuns
  import opened PortLaws

  function SemOf(pt: Port, b: bool): int {
    if b then pt.ptssem else pt.ptrsem
  }

  /** The port can be used and has its semaphore on this side: senders or receivers. */
  ghost predicate Open(s: P, i: nat, b: bool) {
    && PSized(s) && i < NPORTS && s.ports[i].ptstate == PT_ALLOC && (if b then s.ports[i].sown else s.ports[i].rown)
    && Live(s.k, SemOf(s.ports[i], b))
  }

  /** Free permits on this side, and processes that hold one. */
  ghost function Held(s: P, i: nat, b: bool): nat
    requires Open(s, i, b)
  {
    var pt := s.ports[i];
    Permits(s.k.sems[SemOf(pt, b)]) + |Granted(s.pend, s.k.lists[SemOf(pt, b)], i, pt.ptseq, b)|
  }

  /** The step kills nobody in the middle of a call on port i. */
  ghost predicate Harmless(s: P, e: PStep, i: nat)
    requires PEnabled(s, e)
  {
    e.Call? ==> forall q :: 0 <= q < NPROC && s.pend[q].Waits? && s.pend[q].port == i ==> PDo(s, e).pend[q] == s.pend[q]
  }

  /** Permits on this side that are used up in the step, by those who sent (received). */
  ghost function Used(s: P, e: PStep, i: nat, b: bool): nat
    requires PEnabled(s, e) && i < NPORTS
  {
    if b then |Puts(s, e, i)| else |Gets(s, e, i)|
  }

  /** A step that has to do with other semaphores and processes. */
  lemma HeldUntouched(s: P, t: P, total: nat, i: nat, b: bool, r: int)
    requires PInv(s, total) && PSized(t) && Open(s, i, b) && Only(s.k, t.k, r) && r != SemOf(s.ports[i], b)
    requires t.ports[i] == s.ports[i].(msgs := t.ports[i].msgs)
    requires t.pend == s.pend[s.k.currpid := t.pend[s.k.currpid]]
    requires !In(s.pend, s.k.currpid, i, s.ports[i].ptseq, b) && !In(t.pend, s.k.currpid, i, s.ports[i].ptseq, b)
    ensures Open(t, i, b) && Held(t, i, b) == Held(s, i, b)
  {
    var pt := s.ports[i];
    var x := SemOf(pt, b);
    NotQueued(s.k, x);
    hide PInv, Inv, Granted;
    OtherSide(s.pend, t.pend, s.k.lists[x], s.k.currpid, i, pt.ptseq, b);
  }

  /** A step that kills nobody inside a call on port i kills nobody who waits there. */
  lemma SparesWaiters(s: P, e: Step, total: nat, i: nat, b: bool)
    requires PInv(s, total) && Allowed(s, e) && Open(s, i, b) && Harmless(s, Call(e), i)
    ensures !(e.EndKill? && s.k.procs[e.p].prstate == PR_WAIT && s.k.procs[e.p].prsem == SemOf(s.ports[i], b))
  {
    var k, x := s.k, SemOf(s.ports[i], b);
    if e.EndKill? && k.procs[e.p].prstate == PR_WAIT && k.procs[e.p].prsem == x {
      WaitersLive(k, x);
      PortIs(s, total, i);
      About(k, -1, e.p);
      assert In(s.pend, e.p, i, s.ports[i].ptseq, b);
      KillCuts(k, e.p);
    }
  }

  lemma HeldApart(s: P, e: Step, total: nat, i: nat, b: bool)
    requires PInv(s, total) && Allowed(s, e) && Open(s, i, b) && Harmless(s, Call(e), i)
    ensures Open(Other(s, e), i, b) && Held(Other(s, e), i, b) == Held(s, i, b)
  {
    hide PInv, Inv, Do, MembersOf;
    var t, pt, k := Other(s, e), s.ports[i], s.k;
    var x := SemOf(pt, b);
    assert Owns(pt, x);
    PortIs(s, total, i);
    WaitersLive(k, x);
    SparesWaiters(s, e, total, i, b);
    OtherSem(k, e, x);
    assert PDo(s, Call(e)) == t;
    forall q: int
      ensures In(t.pend, q, i, pt.ptseq, b) == In(s.pend, q, i, pt.ptseq, b)
    {
    }
    assert Granted(t.pend, t.k.lists[x], i, pt.ptseq, b) == Granted(s.pend, k.lists[x], i, pt.ptseq, b);
  }

  lemma HeldBegin(s: P, total: nat, i: nat, b: bool, msg: int)
    requires PInv(s, total) && MayBegin(s, i, b) && Open(s, i, b)
    ensures Open(Begin(s, i, b, msg), i, b) && Held(Begin(s, i, b, msg), i, b) == Held(s, i, b)
  {
    hide Inv, PInv, Wait, AllIn, Granted, Nobody;
    var pt, k, c, t := s.ports[i], s.k, s.k.currpid, Begin(s, i, b, msg);
    var r := SemOf(pt, b);
    PortIs(s, total, i);
    NotQueued(k, r);
    WaitEffect(k, r);
    BeginSide(k.lists[r], t.k.lists[r], k.sems[r], t.k.sems[r], s.pend, c, i, pt.ptseq, b, msg);
  }

  /** The current process is done, and has used its permit. */
  lemma HeldDone(s: P, t: P, total: nat, i: nat, b: bool, r: int)
    requires PInv(s, total) && PSized(t) && Open(s, i, b) && Only(s.k, t.k, r) && r != SemOf(s.ports[i], b)
    requires t.ports[i] == s.ports[i].(msgs := t.ports[i].msgs) && t.pend == s.pend[s.k.currpid := Idle]
    requires In(s.pend, s.k.currpid, i, s.ports[i].ptseq, b)
    ensures Open(t, i, b) && Held(t, i, b) + 1 == Held(s, i, b)
  {
    var pt := s.ports[i];
    var x := SemOf(pt, b);
    NotQueued(s.k, x);
    PortIs(s, total, i);
    hide PInv, Inv, AllIn, Granted;
    DoneSide(s.k.lists[x], s.pend, s.k.currpid, i, pt.ptseq, b);
  }

  /** The current process is done on the other side, and signals this one. */
  lemma HeldSignalled(s: P, t: P, total: nat, i: nat, b: bool)
    requires PInv(s, total) && PSized(t) && Open(s, i, b)
    requires t.ports[i] == s.ports[i].(msgs := t.ports[i].msgs) && t.pend == s.pend[s.k.currpid := Idle]
    requires In(s.pend, s.k.currpid, i, s.ports[i].ptseq, !b)
    requires s.k.sems[SemOf(s.ports[i], b)].count < MAXCOUNT && t.k == Signal(s.k, SemOf(s.ports[i], b)).0
    ensures Open(t, i, b) && Held(t, i, b) == Held(s, i, b) + 1
  {
    var pt := s.ports[i];
    var x := SemOf(pt, b);
    NotQueued(s.k, x);
    PortIs(s, total, i);
    SemIs(s.k, x);
    SignalEffect(s.k, x);
    hide PInv, Inv, AllIn, Granted, SignalOne;
    OtherSide(s.pend, t.pend, s.k.lists[x], s.k.currpid, i, pt.ptseq, b);
    SignalSide(s.k.lists[x], t.k.lists[x], s.k.sems[x], t.k.sems[x], t.pend, i, pt.ptseq, b);
  }

  /** What another port has, or nobody, is not a semaphore of this one. */
  lemma Foreign(s: P, total: nat, i: nat, b: bool, j: nat, b': bool)
    requires PInv(s, total) && Open(s, i, b) && j < NPORTS && (j != i || b != b')
    requires s.ports[j].ptstate != PT_FREE
    requires Live(s.k, SemOf(s.ports[j], b')) ==> if b' then s.ports[j].sown else s.ports[j].rown
    ensures SemOf(s.ports[j], b') != SemOf(s.ports[i], b)
  {
    var r := SemOf(s.ports[i], b);
    PortIs(s, total, i);
    assert Owns(s.ports[i], r);
    if j != i {
      NoneElse(s, total, i, j, r);
    }
  }

  /** The current process on port j begins, or is done, and it is not about this side. */
  lemma BeginHeld(s: P, total: nat, i: nat, b: bool, j: int, b': bool, msg: int)
    requires PInv(s, total) && MayBegin(s, j, b') && Open(s, i, b)
    ensures Open(Begin(s, j, b', msg), i, b) && Held(Begin(s, j, b', msg), i, b) == Held(s, i, b)
  {
    if BadPort(j) || s.ports[j].ptstate != PT_ALLOC || !Live(s.k, SemOf(s.ports[j], b')) {
      return;
    }
    if j == i && b == b' {
      HeldBegin(s, total, i, b, msg);
      return;
    }
    var t, r := Begin(s, j, b', msg), SemOf(s.ports[j], b');
    SideLive(s, total, j, b');
    Foreign(s, total, i, b, j, b');
    PortIs(s, total, i);
    WaitOnly(s.k, r);
    hide PInv, Inv, Only, Wait, Held;
    HeldUntouched(s, t, total, i, b, r);
  }

  lemma SendHeld(s: P, total: nat, i: nat, b: bool)
    requires PInv(s, total) && PEnabled(s, EndSend) && Open(s, i, b)
    ensures Open(SendEnd(s).0, i, b)
    ensures Held(SendEnd(s).0, i, b) + Used(s, EndSend, i, b) == Held(s, i, b) + Used(s, EndSend, i, !b)
  {
    var c, d, t := s.k.currpid, s.pend[s.k.currpid], SendEnd(s).0;
    PortIs(s, total, i);
    if !Unchanged(s, d) {
      OnlyNone(s.k);
      hide PInv, Inv, Only, Held;
      HeldUntouched(s, t, total, i, b, -1);
      return;
    }
    var r := s.ports[d.port].ptrsem;
    WasGranted(s, total);
    Signallable(s, total);
    SignalOnly(s.k, r);
    SideLive(s, total, d.port, false);
    if d.port == i && !b {
      hide PInv, Inv, Only, Held, Signal;
      HeldSignalled(s, t, total, i, b);
    } else {
      Foreign(s, total, i, b, d.port, false);
      hide PInv, Inv, Only, Held, Signal;
      if d.port == i {
        HeldDone(s, t, total, i, b, r);
      } else {
        HeldUntouched(s, t, total, i, b, r);
      }
    }
  }

  lemma RecvHeld(s: P, total: nat, i: nat, b: bool)
    requires PInv(s, total) && PEnabled(s, EndRecv) && Open(s, i, b)
    ensures Open(RecvEnd(s), i, b)
    ensures Held(RecvEnd(s), i, b) + Used(s, EndRecv, i, b) == Held(s, i, b) + Used(s, EndRecv, i, !b)
  {
    var c, d, t := s.k.currpid, s.pend[s.k.currpid], RecvEnd(s);
    PortIs(s, total, i);
    if !Unchanged(s, d) {
      OnlyNone(s.k);
      hide PInv, Inv, Only, Held;
      HeldUntouched(s, t, total, i, b, -1);
      return;
    }
    var r := s.ports[d.port].ptssem;
    NeverEmpty(s, total);
    WasGranted(s, total);
    Signallable(s, total);
    SignalOnly(s.k, r);
    SideLive(s, total, d.port, true);
    if d.port == i && b {
      hide PInv, Inv, Only, Held, Signal;
      HeldSignalled(s, t, total, i, b);
    } else {
      Foreign(s, total, i, b, d.port, true);
      hide PInv, Inv, Only, Held, Signal;
      if d.port == i {
        HeldDone(s, t, total, i, b, r);
      } else {
        HeldUntouched(s, t, total, i, b, r);
      }
    }
  }

  lemma ClearHeld(s: P, total: nat, i: nat, b: bool, j: int, del: bool)
    requires PInv(s, total) && s.pend[s.k.currpid] == Idle && Open(s, i, b) && j != i
    ensures Open(Clear(s, j, del), i, b) && Held(Clear(s, j, del), i, b) == Held(s, i, b)
  {
    if BadPort(j) || s.ports[j].ptstate != PT_ALLOC {
      return;
    }
    PortIs(s, total, i);
    OnlyNone(s.k);
    hide PInv, Inv, Only, Held;
    HeldUntouched(s, Clear(s, j, del), total, i, b, -1);
  }

  lemma DisposeHeld(s: P, total: nat, i: nat, b: bool)
    requires PInv(s, total) && PEnabled(s, PtDispose) && Open(s, i, b)
    ensures Open(Dispose(s), i, b) && Held(Dispose(s), i, b) == Held(s, i, b)
  {
    PortIs(s, total, i);
    OnlyNone(s.k);
    hide PInv, Inv, Only, Held;
    HeldUntouched(s, Dispose(s), total, i, b, -1);
  }

  lemma ClearFirstHeld(s: P, total: nat, i: nat, b: bool)
    requires PInv(s, total) && PEnabled(s, FirstClear) && Open(s, i, b)
    ensures Open(ClearFirst(s), i, b) && Held(ClearFirst(s), i, b) == Held(s, i, b)
  {
    var t, d := ClearFirst(s), s.pend[s.k.currpid];
    var j, r := d.port, s.ports[d.port].ptssem;
    Clearing(s, total, s.k.currpid);
    PortIs(s, total, i);
    PortIs(s, total, j);
    Foreign(s, total, i, b, j, true);
    if d.del {
      DeleteOnly(s.k, r);
    } else {
      ResetOnly(s.k, r, s.ports[j].ptmaxcnt);
    }
    hide PInv, Inv, Only, Held, SemReset, SemDelete;
    HeldUntouched(s, t, total, i, b, r);
  }

  lemma ClearOnHeld(s: P, total: nat, i: nat, b: bool)
    requires PInv(s, total) && PEnabled(s, MoreClear) && Open(s, i, b)
    ensures Open(ClearOn(s), i, b) && Held(ClearOn(s), i, b) == Held(s, i, b)
  {
    var t, d := ClearOn(s), s.pend[s.k.currpid];
    var j, r := d.port, s.ports[d.port].ptrsem;
    Clearing(s, total, s.k.currpid);
    PortIs(s, total, i);
    Foreign(s, total, i, b, j, false);
    if d.del {
      DeleteOnly(s.k, r);
    } else {
      ResetOnly(s.k, r, 0);
    }
    hide PInv, Inv, Only, Held, SemReset, SemDelete;
    HeldUntouched(s, t, total, i, b, r);
  }

  lemma ClearEndHeld(s: P, total: nat, i: nat, b: bool)
    requires PInv(s, total) && PEnabled(s, EndClear) && Open(s, i, b)
    ensures Open(ClearEnd(s), i, b) && Held(ClearEnd(s), i, b) == Held(s, i, b)
  {
    hide PInv, Only, Held;
    PortIs(s, total, i);
    NotOwned(s, total, i);
    Clearing(s, total, s.k.currpid);
    OnlyNone(s.k);
    hide Inv;
    HeldUntouched(s, ClearEnd(s), total, i, b, -1);
  }

  /** The two semaphores of a new port. */
  lemma NewSems(s: P, count: int)
    requires PSized(s) && Inv(s.k) && count <= MAXCOUNT
    ensures Only(s.k, NewPort(s, count).0.k, -1)
    ensures var (t, i) := NewPort(s, count);
            i != SYSERR ==>
              var pt := t.ports[i];
              && (pt.sown ==> Live(t.k, pt.ptssem) && t.k.sems[pt.ptssem].count == count)
              && (pt.rown ==> Live(t.k, pt.ptrsem) && t.k.sems[pt.ptrsem].count == 0)
  {
    hide Inv, SemCreate;
    var (k1, ssem) := SemCreate(s.k, count);
    OnlyNone(s.k);
    NewSem(s.k, count);
    NewSem(k1, 0);
    OnlyOn(s.k, k1, SemCreate(k1, 0).0);
  }

  lemma NewHeld(s: P, count: int, total: nat, i: nat, b: bool)
    requires PInv(s, total) && PEnabled(s, PtCreate(count)) && Open(s, i, b)
    ensures Open(NewPort(s, count).0, i, b) && Held(NewPort(s, count).0, i, b) == Held(s, i, b)
  {
    hide PInv, Only, Held, MayBegin, Allowed;
    PortIs(s, total, i);
    NotOwned(s, total, i);
    NewSems(s, count);
    hide Inv, SemCreate;
    HeldUntouched(s, NewPort(s, count).0, total, i, b, -1);
  }

  /** Permits given to one side are those used on the other, in every step. */
  lemma StepHeld(s: P, e: PStep, total: nat, i: nat, b: bool)
    requires PInv(s, total) && PEnabled(s, e) && Open(s, i, b) && !(e.PtClear? && e.i == i) && Harmless(s, e, i)
    ensures Open(PDo(s, e), i, b)
    ensures Held(PDo(s, e), i, b) + Used(s, e, i, b) == Held(s, i, b) + Used(s, e, i, !b)
  {
    hide PInv, Held, Harmless, Open, Allowed, MayBegin, Other, Begin, SendEnd, RecvEnd, Clear, Dispose, ClearFirst,
         ClearOn,
      ClearEnd, NewPort;
    match e {
      case Call(e') => HeldApart(s, e', total, i, b);
      case PtSend(j, msg) => BeginHeld(s, total, i, b, j, true, msg);
      case PtRecv(j) => BeginHeld(s, total, i, b, j, false, 0);
      case EndSend => SendHeld(s, total, i, b);
      case EndRecv => RecvHeld(s, total, i, b);
      case PtClear(j, del) => ClearHeld(s, total, i, b, j, del);
      case PtDispose => DisposeHeld(s, total, i, b);
      case FirstClear => ClearFirstHeld(s, total, i, b);
      case MoreClear => ClearOnHeld(s, total, i, b);
      case EndClear => ClearEndHeld(s, total, i, b);
      case PtCreate(count) => NewHeld(s, count, total, i, b);
    }
  }

  // ---- over runs ----

  ghost predicate HarmlessRun(s: P, es: seq<PStep>, i: nat)
    requires PRuns(s, es)
    decreases |es|
  {
    |es| > 0 ==> Harmless(s, es[0], i) && HarmlessRun(PDo(s, es[0]), es[1..], i)
  }

  ghost predicate BothOpen(s: P, i: nat) {
    Open(s, i, true) && Open(s, i, false)
  }

  /** Room taken: by messages, and on the sending side. */
  ghost function Taken(s: P, i: nat): nat
    requires BothOpen(s, i)
  {
    |s.ports[i].msgs| + Held(s, i, true)
  }

  lemma CountsAdd(gets: seq<int>, msgs': seq<int>, msgs: seq<int>, puts: seq<int>)
    requires Adds(gets, msgs', msgs, puts)
    ensures |gets| + |msgs'| == |msgs| + |puts|
  {
    assert |gets + msgs'| == |msgs + puts|;
  }

  lemma StepTaken(s: P, e: PStep, total: nat, i: nat)
    requires PInv(s, total) && PEnabled(s, e) && BothOpen(s, i) && !(e.PtClear? && e.i == i) && Harmless(s, e, i)
    ensures BothOpen(PDo(s, e), i) && PDo(s, e).ports[i].cap == s.ports[i].cap
    ensures Taken(PDo(s, e), i) == Taken(s, i)
    ensures |PDo(s, e).ports[i].msgs| - Held(PDo(s, e), i, false) == |s.ports[i].msgs| - Held(s, i, false)
  {
    hide PInv, PDo, Held, Gets, Puts, Harmless, PEnabled;
    assert s.ports[i].ptstate == PT_ALLOC;
    StepHeld(s, e, total, i, true);
    StepHeld(s, e, total, i, false);
    StepLeaves(s, e, i, total);
    StepCarries(s, e, i, total);
    CountsAdd(Gets(s, e, i), PDo(s, e).ports[i].msgs, s.ports[i].msgs, Puts(s, e, i));
  }

  /** Over a run in which the port is not cleared and nobody is killed inside ptsend or ptrecv
      on it: if all room was accounted for, it still is, and if every message had its permit,
      it still has. */
  lemma {:induction false} NothingLost(s: P, es: seq<PStep>, total: nat, i: nat)
    requires PInv(s, total) && PRuns(s, es) && BothOpen(s, i) && Kept(es, i) && HarmlessRun(s, es, i)
    requires Taken(s, i) == s.ports[i].cap && Held(s, i, false) == |s.ports[i].msgs|
    ensures var t := PAfter(s, es);
            BothOpen(t, i) && Taken(t, i) == t.ports[i].cap == s.ports[i].cap && Held(t, i, false) == |t.ports[i].msgs|
    decreases |es|
  {
    hide PInv, PEnabled, PDo, Harmless, BothOpen, Held, Taken, Kept;
    if |es| > 0 {
      KeptOn(es, i);
      PStepKeeps(s, es[0], total);
      StepTaken(s, es[0], total, i);
      NothingLost(PDo(s, es[0]), es[1..], total, i);
    }
  }

  lemma HeldFresh(s: P, i: nat, b: bool)
    requires Open(s, i, b) && Nobody(s.pend, i, s.ports[i].ptseq, b)
    ensures Held(s, i, b) == Permits(s.k.sems[SemOf(s.ports[i], b)])
  {
    assert Granted(s.pend, s.k.lists[SemOf(s.ports[i], b)], i, s.ports[i].ptseq, b) == {};
  }

  lemma NobodyNew(s: P, total: nat, i: nat, sq: int, b: bool)
    requires PInv(s, total) && i < NPORTS && sq > s.ports[i].ptseq
    ensures Nobody(s.pend, i, sq, b)
  {
    forall q | 0 <= q < NPROC
      ensures !In(s.pend, q, i, sq, b)
    {
      assert PendOk(s.k, s.ports, s.pend, q);
    }
  }

  /** A port that nobody uses yet is whole. */
  ghost predicate Whole(s: P, i: nat, size: nat) {
    && BothOpen(s, i) && s.ports[i].cap == size && Taken(s, i) == size
    && |s.ports[i].msgs| == 0 && Held(s, i, false) == 0
  }

  lemma UnusedIsWhole(s: P, i: nat, size: nat)
    requires PSized(s) && i < NPORTS && s.ports[i].ptstate == PT_ALLOC && s.ports[i].sown && s.ports[i].rown
    requires Live(s.k, s.ports[i].ptssem) && Live(s.k, s.ports[i].ptrsem)
    requires s.k.sems[s.ports[i].ptssem].count == size == s.ports[i].cap && s.k.sems[s.ports[i].ptrsem].count == 0
    requires |s.ports[i].msgs| == 0
    requires Nobody(s.pend, i, s.ports[i].ptseq, true) && Nobody(s.pend, i, s.ports[i].ptseq, false)
    ensures Whole(s, i, size)
  {
    hide Nobody, Held;
    HeldFresh(s, i, true);
    HeldFresh(s, i, false);
  }

  lemma NewPortIs(s: P, count: int)
    requires PSized(s)
    ensures var (t, i) := NewPort(s, count);
            i != SYSERR ==>
              && 0 <= i < NPORTS && t.pend == s.pend && t.ports[i].ptstate == PT_ALLOC && t.ports[i].cap == count >= 0
              && t.ports[i].ptseq > s.ports[i].ptseq && |t.ports[i].msgs| == 0
  {
    hide SemCreate;
  }

  /** And so it is at first: a new port has room for all its messages, */
  lemma NewIsWhole(s: P, total: nat, count: int)
    requires PInv(s, total) && PSized(s) && count <= MAXCOUNT && NewPort(s, count).1 != SYSERR
    ensures var (t, i) := NewPort(s, count);
            0 <= i < NPORTS && (t.ports[i].sown && t.ports[i].rown ==> Whole(t, i, count))
  {
    var (t, i) := NewPort(s, count);
    NewPortIs(s, count);
    hide PInv, NewPort, Nobody, Whole, Only, Live;
    PortIs(s, total, i);
    hide Inv, PSized;
    NobodyNew(s, total, i, t.ports[i].ptseq, true);
    NobodyNew(s, total, i, t.ports[i].ptseq, false);
    NewSems(s, count);
    if t.ports[i].sown && t.ports[i].rown {
      UnusedIsWhole(t, i, count);
    }
  }

  /** and so has one that was reset, for as many as the table says. */
  lemma ResetIsWhole(s: P, total: nat)
    requires PInv(s, total) && PEnabled(s, EndClear) && !s.pend[s.k.currpid].del
    ensures var t, i := ClearEnd(s), s.pend[s.k.currpid].port;
            t.ports[i].sown && t.ports[i].rown ==> Whole(t, i, t.ports[i].ptmaxcnt)
  {
    var t, i := ClearEnd(s), s.pend[s.k.currpid].port;
    Clearing(s, total, s.k.currpid);
    PortIs(s, total, i);
    NobodyStill(s.pend, t.pend, s.k.currpid, i, s.ports[i].ptseq);
    hide PInv, Inv, Nobody, Whole;
    if t.ports[i].sown && t.ports[i].rown {
      UnusedIsWhole(t, i, t.ports[i].ptmaxcnt);
    }
  }
}
