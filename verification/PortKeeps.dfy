/** Every step of a call on a port keeps all ports in order. */
module PortKeeps {
  import opened KernelQueues
  import opened KernelSpec
  import opened KernelInv
  import opened KernelCalls
  import opened KernelProcs
  import opened KernelFrame
  import opened KernelRuns
  import opened PortSpec
  import opened PortInv
  import opened PortCalls

  // ---- what the steps leave alone ----

  lemma SparesOnly(k: K, t: K, r: int, x: int)
    requires Spared(k, t, -2, x, false) && Live(k, x)
    ensures t.sems[x] == k.sems[x] && t.lists[x] == k.lists[x]
  {
  }

  lemma SignalOnly(k: K, r: int)
    requires Inv(k) && Sized(k) && (Live(k, r) ==> k.sems[r].count < MAXCOUNT)
    ensures Only(k, Signal(k, r).0, r) && Inv(Signal(k, r).0)
  {
    hide Inv, Spared, SignalOne;
    if Live(k, r) {
      SignalOneKeeps(k, r);
      forall x | Live(k, x) && x != r
        ensures Signal(k, r).0.sems[x] == k.sems[x] && Signal(k, r).0.lists[x] == k.lists[x]
      {
        SignalSpares(k, r, -2, x);
        SparesOnly(k, Signal(k, r).0, r, x);
      }
    }
  }

  lemma ResetOnly(k: K, r: int, n: int)
    requires Inv(k) && Sized(k) && n <= MAXCOUNT
    ensures Only(k, SemReset(k, r, n).0, r) && Inv(SemReset(k, r, n).0)
    ensures Live(k, r) && n >= 0 ==> SemReset(k, r, n).0.sems[r] == Sem(true, n) && |SemReset(k, r, n).0.lists[r]| == 0
  {
    SemResetKeeps(k, r, n);
    hide Inv, Spared, SemReset;
    if Live(k, r) && n >= 0 {
      SemResetEffect(k, r, n);
    }
    forall x | Live(k, x) && x != r
      ensures SemReset(k, r, n).0.sems[x] == k.sems[x] && SemReset(k, r, n).0.lists[x] == k.lists[x]
    {
      SemResetSpares(k, r, n, -2, x);
      SparesOnly(k, SemReset(k, r, n).0, r, x);
    }
  }

  lemma DeleteOnly(k: K, r: int)
    requires Inv(k) && Sized(k)
    ensures Only(k, SemDelete(k, r).0, r) && Inv(SemDelete(k, r).0)
  {
    SemDeleteKeeps(k, r);
    hide Inv, Spared, SemDelete;
    forall x | Live(k, x) && x != r
      ensures SemDelete(k, r).0.sems[x] == k.sems[x] && SemDelete(k, r).0.lists[x] == k.lists[x]
    {
      SemDeleteSpares(k, r, -2, x);
      SparesOnly(k, SemDelete(k, r).0, r, x);
    }
  }

  // ---- putting a state together ----

  lemma QueuedChange(ports: seq<Port>, i: nat, pt: Port)
    requires i < |ports|
    ensures Queued(ports[i := pt]) == Queued(ports) - |ports[i].msgs| + |pt.msgs|
  {
    var n := |ports| - 1;
    if i == n {
      assert ports[i := pt][..n] == ports[..n];
    } else {
      assert ports[i := pt][..n] == ports[..n][i := pt];
      QueuedChange(ports[..n], i, pt);
    }
  }

  /** What the step did to the other ports. */
  ghost predicate AsideFrom(s: P, t: P, i: nat, r: int)
    requires PSized(s) && PSized(t) && i < NPORTS
  {
    && t.ports == s.ports[i := t.ports[i]]
    && t.pend == s.pend[s.k.currpid := t.pend[s.k.currpid]]
    && Only(s.k, t.k, r)
    && (forall j :: 0 <= j < NPORTS && j != i ==> !Owns(s.ports[j], r))
    && (forall j, x {:trigger Owns(s.ports[j], x)} :: 0 <= j < NPORTS && j != i && Owns(s.ports[j], x) ==>
        !Owns(t.ports[i], x))
    && (t.pend[s.k.currpid].Waits? ==> t.pend[s.k.currpid].port == i)
    && (t.pend[s.k.currpid].Clears? ==> t.pend[s.k.currpid].port == i)
    && (forall q :: 0 <= q < NPROC && q != s.k.currpid && s.pend[q].Clears? ==> s.pend[q].port != i)
    && t.ports[i].ptseq >= s.ports[i].ptseq
  }

  /** The step was about port i and no other, which is in order: so they all are. */
  lemma Assemble(s: P, t: P, total: nat, i: nat, r: int)
    requires PInv(s, total) && PSized(t) && Inv(t.k) && i < NPORTS && AsideFrom(s, t, i, r)
    requires PortOk(t.k, t.pend, t.ports[i], i)
    requires t.ports[i].sown && t.ports[i].rown ==> t.ports[i].ptssem != t.ports[i].ptrsem
    requires PendOk(t.k, t.ports, t.pend, s.k.currpid)
    requires t.free + |t.ports[i].msgs| == s.free + |s.ports[i].msgs|
    ensures PInv(t, total)
  {
    var c := s.k.currpid;
    hide Inv, PortOk, ClearOk, Only;
    QueuedChange(s.ports, i, t.ports[i]);
    forall j | 0 <= j < NPORTS && j != i
      ensures PortOk(t.k, t.pend, t.ports[j], j)
    {
      Elsewhere(s, t, total, j, r);
    }
    StillDistinct(s.ports, t.ports, i);
    forall q | 0 <= q < NPROC && q != c
      ensures PendOk(t.k, t.ports, t.pend, q)
    {
      assert PendOk(s.k, s.ports, s.pend, q);
      if s.pend[q].Clears? {
        ClearApart(s, t, total, s.pend[q].port, s.pend[q], r);
      }
    }
    StillOneClears(s.pend, t.pend, c);
  }

  lemma StillDistinct(ports: seq<Port>, ports': seq<Port>, i: nat)
    requires |ports| == |ports'| == NPORTS && Distinct(ports) && i < NPORTS && ports' == ports[i := ports'[i]]
    requires forall j, x {:trigger Owns(ports[j], x)} :: 0 <= j < NPORTS && j != i && Owns(ports[j], x) ==>
             !Owns(ports'[i], x)
    requires ports'[i].sown && ports'[i].rown ==> ports'[i].ptssem != ports'[i].ptrsem
    ensures Distinct(ports')
  {
    hide Owns;
    forall a, b, x | 0 <= a < NPORTS && 0 <= b < NPORTS && a != b && Owns(ports'[a], x)
      ensures !Owns(ports'[b], x)
    {
    }
  }

  lemma StillOneClears(pend: seq<Pend>, pend': seq<Pend>, c: nat)
    requires |pend| == |pend'| == NPROC && c < NPROC && OneClears(pend) && pend' == pend[c := pend'[c]]
    requires pend'[c].Clears? ==>
               forall q :: 0 <= q < NPROC && q != c && pend[q].Clears? ==> pend[q].port != pend'[c].port
    ensures OneClears(pend')
  {
  }

  lemma ClearApart(s: P, t: P, total: nat, j: nat, d: Pend, r: int)
    requires PInv(s, total) && PSized(t) && j < NPORTS && !Owns(s.ports[j], r) && Only(s.k, t.k, r)
    requires d.Clears? && ClearOk(s.k, s.ports[j], d)
    ensures ClearOk(t.k, s.ports[j], d)
  {
    hide PInv;
  }

  /** Nobody else is clearing a port that is not in limbo. */
  lemma NoneClears(s: P, total: nat, i: nat, q: nat)
    requires PInv(s, total) && i < NPORTS && s.ports[i].ptstate != PT_LIMBO && q < NPROC && s.pend[q].Clears?
    ensures s.pend[q].port != i
  {
    assert PendOk(s.k, s.ports, s.pend, q);
  }

  /** The semaphores of a port, and what is not a semaphore at all, belong to no other. */
  lemma Alone(s: P, t: P, total: nat, i: nat, r: int)
    requires PInv(s, total) && PSized(t) && i < NPORTS && (Owns(s.ports[i], r) || !Live(s.k, r))
    requires t.ports == s.ports[i := t.ports[i]] && forall x :: Owns(t.ports[i], x) ==> Owns(s.ports[i], x)
    ensures forall j :: 0 <= j < NPORTS && j != i ==> !Owns(s.ports[j], r)
    ensures forall j, x {:trigger Owns(s.ports[j], x)} :: 0 <= j < NPORTS && j != i && Owns(s.ports[j], x) ==>
            !Owns(t.ports[i], x)
  {
    forall j | 0 <= j < NPORTS && j != i
      ensures !Owns(s.ports[j], r)
    {
      if Owns(s.ports[j], r) {
        OwnedLive(s, total, j, r);
        NoneElse(s, total, j, i, r);
      }
    }
    forall j, x {:trigger Owns(s.ports[j], x)} | 0 <= j < NPORTS && j != i && Owns(s.ports[j], x)
      ensures !Owns(t.ports[i], x)
    {
      NoneElse(s, total, j, i, x);
    }
  }

  // ---- ptsend and ptrecv ----

  /** The current process may start on port i. */
  ghost predicate MayBegin(s: P, i: int, sending: bool) {
    && PSized(s) && s.pend[s.k.currpid] == Idle && s.k.ctx[s.k.currpid] == Nothing
    && (!BadPort(i) && s.ports[i].ptstate == PT_ALLOC ==>
          var r := if sending then s.ports[i].ptssem else s.ports[i].ptrsem;
          Live(s.k, r) ==> CanBlock(s.k) || s.k.sems[r].count > 0)
  }

  lemma SideLive(s: P, total: nat, i: nat, sending: bool)
    requires PInv(s, total) && i < NPORTS && s.ports[i].ptstate == PT_ALLOC
    ensures var pt := s.ports[i];
            Live(s.k, if sending then pt.ptssem else pt.ptrsem) ==>
              (if sending then pt.sown else pt.rown) && Owns(pt, if sending then pt.ptssem else pt.ptrsem)
  {
    PortIs(s, total, i);
  }

  lemma BeginKeeps(s: P, total: nat, i: int, sending: bool, msg: int)
    requires PInv(s, total) && MayBegin(s, i, sending)
    ensures PInv(Begin(s, i, sending, msg), total)
  {
    hide Inv, PInv, PortOk, ClearOk, Only, Wait;
    if BadPort(i) || s.ports[i].ptstate != PT_ALLOC {
      return;
    }
    var pt, t := s.ports[i], Begin(s, i, sending, msg);
    var r := if sending then pt.ptssem else pt.ptrsem;
    if !Live(s.k, r) {
      return;
    }
    PortIs(s, total, i);
    SideLive(s, total, i, sending);
    WaitKeeps(s.k, r);
    WaitOnly(s.k, r);
    if sending {
      BeginSend(s, total, i, msg);
    } else {
      BeginRecv(s, total, i, msg);
    }
    Conclude(s, t, total, i, r);
  }

  /** A process that finds the port changed leaves it alone. */
  lemma GiveUpKeeps(s: P, total: nat)
    requires PInv(s, total) && s.pend[s.k.currpid].Waits? && !Unchanged(s, s.pend[s.k.currpid])
    ensures PInv(SetPend(s, Idle), total)
  {
    var t, i := SetPend(s, Idle), s.pend[s.k.currpid].port;
    hide Inv, PortOk, ClearOk;
    assert PendOk(s.k, s.ports, s.pend, s.k.currpid);
    hide Only;
    assert Only(s.k, s.k, -1) by {
      hide *;
      OnlyNone(s.k);
    }
    forall j | 0 <= j < NPORTS
      ensures PortOk(t.k, t.pend, t.ports[j], j) && PendOk(t.k, t.ports, t.pend, s.k.currpid)
    {
      NotOwned(s, total, j);
      Elsewhere(s, t, total, j, -1);
    }
    forall q | 0 <= q < NPROC
      ensures PendOk(t.k, t.ports, t.pend, q)
    {
      assert PendOk(s.k, s.ports, s.pend, q);
    }
    StillOneClears(s.pend, t.pend, s.k.currpid);
  }

  lemma OnlyNone(k: K)
    requires Sized(k)
    ensures Only(k, k, -1)
  {
  }

  lemma NotOwned(s: P, total: nat, j: nat)
    requires PInv(s, total) && j < NPORTS
    ensures !Owns(s.ports[j], -1)
  {
    PortIs(s, total, j);
  }

  /** A process that goes on with ptsend or ptrecv and finds its port unchanged was let
      through, by a semaphore that the port has. */
  lemma WasGranted(s: P, total: nat)
    requires PInv(s, total) && s.pend[s.k.currpid].Waits? && Unchanged(s, s.pend[s.k.currpid])
    ensures var c, d := s.k.currpid, s.pend[s.k.currpid];
            var pt := s.ports[d.port];
            && In(s.pend, c, d.port, pt.ptseq, d.sending)
            && (d.sending ==>
                  pt.sown && Live(s.k, pt.ptssem) && c in Granted(s.pend, s.k.lists[pt.ptssem], d.port, pt.ptseq, true))
            && (!d.sending ==>
                  pt.rown && Live(s.k, pt.ptrsem)
                    && c in Granted(s.pend, s.k.lists[pt.ptrsem], d.port, pt.ptseq, false))
  {
    var d := s.pend[s.k.currpid];
    var pt := s.ports[d.port];
    PortIs(s, total, d.port);
    assert In(s.pend, s.k.currpid, d.port, pt.ptseq, d.sending);
    var r := if d.sending then pt.ptssem else pt.ptrsem;
    if 0 <= r < NSEM {
      NotQueued(s.k, r);
    }
  }

  lemma Counted(g: set<int>, c: int)
    requires c in g
    ensures |g| > 0
  {
  }

  /** A receiver that was let through finds a message. */
  lemma NeverEmpty(s: P, total: nat)
    requires PInv(s, total) && s.pend[s.k.currpid].Waits? && Unchanged(s, s.pend[s.k.currpid])
             && !s.pend[s.k.currpid].sending
    ensures |s.ports[s.pend[s.k.currpid].port].msgs| > 0
  {
    var d := s.pend[s.k.currpid];
    WasGranted(s, total);
    PortIs(s, total, d.port);
    hide Inv, PInv;
    Counted(Granted(s.pend, s.k.lists[s.ports[d.port].ptrsem], d.port, s.ports[d.port].ptseq, false), s.k.currpid);
  }

  /** The signal that ends ptsend or ptrecv does not overflow. */
  lemma Signallable(s: P, total: nat)
    requires PInv(s, total) && s.pend[s.k.currpid].Waits? && Unchanged(s, s.pend[s.k.currpid])
    ensures var pt := s.ports[s.pend[s.k.currpid].port];
            var r := if s.pend[s.k.currpid].sending then pt.ptrsem else pt.ptssem;
            Live(s.k, r) ==> s.k.sems[r].count < MAXCOUNT
  {
    var d := s.pend[s.k.currpid];
    var pt := s.ports[d.port];
    WasGranted(s, total);
    PortIs(s, total, d.port);
    if d.sending {
      Counted(Granted(s.pend, s.k.lists[pt.ptssem], d.port, pt.ptseq, true), s.k.currpid);
    } else {
      NeverEmpty(s, total);
    }
  }

  /** The port to which a message was sent. */
  lemma SentPort(s: P, total: nat)
    requires PInv(s, total) && PSized(s) && s.pend[s.k.currpid].Waits? && s.pend[s.k.currpid].sending
    requires Unchanged(s, s.pend[s.k.currpid]) && s.free > 0
    ensures var i, t := s.pend[s.k.currpid].port, SendEnd(s).0; PortOk(t.k, t.pend, t.ports[i], i)
  {
    hide Inv, PInv, SignalOne, AllIn, Granted, Nobody;
    var c, d := s.k.currpid, s.pend[s.k.currpid];
    var i := d.port;
    PortIs(s, total, i);
    WasGranted(s, total);
    Signallable(s, total);
    var k, pt, t := s.k, s.ports[i], SendEnd(s).0;
    var r, r', pt' := pt.ptrsem, pt.ptssem, t.ports[i];
    assert t.pend == s.pend[c := Idle] && pt' == pt.(msgs := pt.msgs + [d.msg]) && t.k == Signal(k, r).0;
    SignalOnly(k, r);
    NotQueued(k, r');
    DoneSide(k.lists[r'], s.pend, c, i, pt.ptseq, true);
    OtherSide(s.pend, t.pend, [], c, i, pt.ptseq, false);
    if pt.rown {
      SignalEffect(k, r);
      NotQueued(k, r);
      SemIs(k, r);
      OtherSide(s.pend, t.pend, k.lists[r], c, i, pt.ptseq, false);
    }
    assert t.k.sems[r'] == k.sems[r'] && t.k.lists[r'] == k.lists[r'];
    assert SendSide(t.k.sems[r'], t.k.lists[r'], t.pend, pt', i);
    if pt.rown {
      SignalSide(k.lists[r], t.k.lists[r], k.sems[r], t.k.sems[r], t.pend, i, pt.ptseq, false);
      assert RecvSide(t.k.sems[r], t.k.lists[r], t.pend, pt', i);
    }
    Usable(t.k, t.pend, pt', i);
  }

  /** The port from which a message was received. */
  lemma ReceivedPort(s: P, total: nat)
    requires PInv(s, total) && PSized(s) && s.pend[s.k.currpid].Waits? && !s.pend[s.k.currpid].sending
    requires Unchanged(s, s.pend[s.k.currpid])
    ensures var i, t := s.pend[s.k.currpid].port, RecvEnd(s); PortOk(t.k, t.pend, t.ports[i], i)
  {
    hide Inv, PInv, SignalOne, AllIn, Granted, Nobody;
    var c, d := s.k.currpid, s.pend[s.k.currpid];
    var i := d.port;
    PortIs(s, total, i);
    WasGranted(s, total);
    NeverEmpty(s, total);
    Signallable(s, total);
    var k, pt, t := s.k, s.ports[i], RecvEnd(s);
    var r, r', pt' := pt.ptssem, pt.ptrsem, t.ports[i];
    assert t.pend == s.pend[c := Idle] && pt' == pt.(msgs := pt.msgs[1..]) && t.k == Signal(k, r).0;
    SignalOnly(k, r);
    NotQueued(k, r');
    DoneSide(k.lists[r'], s.pend, c, i, pt.ptseq, false);
    if pt.sown {
      SignalEffect(k, r);
      NotQueued(k, r);
      SemIs(k, r);
      OtherSide(s.pend, t.pend, k.lists[r], c, i, pt.ptseq, true);
    }
    assert t.k.sems[r'] == k.sems[r'] && t.k.lists[r'] == k.lists[r'];
    assert RecvSide(t.k.sems[r'], t.k.lists[r'], t.pend, pt', i);
    if pt.sown {
      SignalSide(k.lists[r], t.k.lists[r], k.sems[r], t.k.sems[r], t.pend, i, pt.ptseq, true);
      assert SendSide(t.k.sems[r], t.k.lists[r], t.pend, pt', i);
    }
    Usable(t.k, t.pend, pt', i);
  }

  /** The state after a step of the current process on port i, given what it did to the
      port itself. */
  lemma Conclude(s: P, t: P, total: nat, i: nat, r: int)
    requires PInv(s, total) && PSized(t) && Inv(t.k) && i < NPORTS && s.ports[i].ptstate != PT_LIMBO
    requires t.ports == s.ports[i := t.ports[i]] && forall x :: Owns(t.ports[i], x) ==> Owns(s.ports[i], x)
    requires t.pend == s.pend[s.k.currpid := t.pend[s.k.currpid]]
    requires t.pend[s.k.currpid].Waits? ==> t.pend[s.k.currpid].port == i && t.pend[s.k.currpid].sq <= t.ports[i].ptseq
    requires t.pend[s.k.currpid].Clears? ==>
               t.pend[s.k.currpid].port == i && ClearOk(t.k, t.ports[i], t.pend[s.k.currpid])
    requires t.ports[i].ptssem == s.ports[i].ptssem && t.ports[i].ptrsem == s.ports[i].ptrsem
    requires t.ports[i].ptseq >= s.ports[i].ptseq
    requires Only(s.k, t.k, r) && (Owns(s.ports[i], r) || !Live(s.k, r))
    requires PortOk(t.k, t.pend, t.ports[i], i)
    requires t.free + |t.ports[i].msgs| == s.free + |s.ports[i].msgs|
    ensures PInv(t, total)
  {
    PortIs(s, total, i);
    hide Inv, PortOk, ClearOk, Only;
    forall q | 0 <= q < NPROC && s.pend[q].Clears?
      ensures s.pend[q].port != i
    {
      NoneClears(s, total, i, q);
    }
    Alone(s, t, total, i, r);
    assert t.ports[i].sown && t.ports[i].rown ==> t.ports[i].ptssem != t.ports[i].ptrsem by {
      assert t.ports[i].sown ==> Owns(t.ports[i], t.ports[i].ptssem);
      assert t.ports[i].rown ==> Owns(t.ports[i], t.ports[i].ptrsem);
    }
    hide PInv;
    Assemble(s, t, total, i, r);
  }

  lemma SendEndKeeps(s: P, total: nat)
    requires PInv(s, total) && s.pend[s.k.currpid].Waits? && s.pend[s.k.currpid].sending
    requires SendEnd(s).1
    ensures PInv(SendEnd(s).0, total)
  {
    var d, t := s.pend[s.k.currpid], SendEnd(s).0;
    if !Unchanged(s, d) {
      GiveUpKeeps(s, total);
      return;
    }
    var i := d.port;
    var r := s.ports[i].ptrsem;
    SentPort(s, total);
    Signallable(s, total);
    PortIs(s, total, i);
    assert Live(s.k, r) ==> Owns(s.ports[i], r);
    hide Inv, PInv, PortOk, ClearOk, Only, Signal;
    SignalOnly(s.k, r);
    Conclude(s, t, total, i, r);
  }

  lemma RecvEndKeeps(s: P, total: nat)
    requires PInv(s, total) && s.pend[s.k.currpid].Waits? && !s.pend[s.k.currpid].sending
    ensures PInv(RecvEnd(s), total)
  {
    var d, t := s.pend[s.k.currpid], RecvEnd(s);
    if !Unchanged(s, d) {
      GiveUpKeeps(s, total);
      return;
    }
    var i := d.port;
    var r := s.ports[i].ptssem;
    NeverEmpty(s, total);
    ReceivedPort(s, total);
    Signallable(s, total);
    PortIs(s, total, i);
    assert Live(s.k, r) ==> Owns(s.ports[i], r);
    hide Inv, PInv, PortOk, ClearOk, Only, Signal;
    SignalOnly(s.k, r);
    Conclude(s, t, total, i, r);
  }

  // ---- _ptclear ----

  /** No port holds more than it may. */
  lemma PortFits(s: P, total: nat, j: nat)
    requires PInv(s, total) && j < NPORTS
    ensures |s.ports[j].msgs| <= if s.ports[j].ptstate == PT_FREE then 0 else s.ports[j].cap
  {
    PortIs(s, total, j);
  }

  /** Nobody is in the middle of anything on a port whose number is new. */
  lemma NobodyYet(s: P, total: nat, i: nat, sq: int, pend': seq<Pend>, b: bool)
    requires PInv(s, total) && i < NPORTS && sq > s.ports[i].ptseq && |pend'| == NPROC
    requires pend' == s.pend[s.k.currpid := pend'[s.k.currpid]] && !pend'[s.k.currpid].Waits?
    ensures Nobody(pend', i, sq, b)
  {
    forall q | 0 <= q < NPROC
      ensures !In(pend', q, i, sq, b)
    {
      assert PendOk(s.k, s.ports, s.pend, q);
    }
  }

  lemma ClearKeeps(s: P, total: nat, i: int, del: bool)
    requires PInv(s, total)
    ensures PInv(Clear(s, i, del), total)
  {
    if BadPort(i) || s.ports[i].ptstate != PT_ALLOC {
      return;
    }
    var pt, t := s.ports[i], Clear(s, i, del);
    PortIs(s, total, i);
    PortFits(s, total, i);
    NotOwned(s, total, i);
    NobodyYet(s, total, i, pt.ptseq + 1, t.pend, true);
    NobodyYet(s, total, i, pt.ptseq + 1, t.pend, false);
    OnlyNone(s.k);
    hide Inv, PInv, Nobody, SendSide, RecvSide;
    assert ClearOk(t.k, t.ports[i], t.pend[s.k.currpid]);
    assert PortOk(t.k, t.pend, t.ports[i], i);
    hide PortOk, ClearOk, Only;
    Conclude(s, t, total, i, -1);
  }

  /** A process that is clearing a port is the only one. */
  lemma Clearing(s: P, total: nat, c: nat)
    requires PInv(s, total) && c < NPROC && s.pend[c].Clears?
    ensures PSized(s) && Inv(s.k) && s.pend[c].port < NPORTS && ClearOk(s.k, s.ports[s.pend[c].port], s.pend[c])
    ensures forall q :: 0 <= q < NPROC && q != c && s.pend[q].Clears? ==> s.pend[q].port != s.pend[c].port
  {
    assert PendOk(s.k, s.ports, s.pend, c);
  }

  lemma DisposeKeeps(s: P, total: nat)
    requires PInv(s, total) && AtStage(s, 0) && s.pend[s.k.currpid].done < |s.ports[s.pend[s.k.currpid].port].msgs|
    ensures PInv(Dispose(s), total)
  {
    var c, d, t := s.k.currpid, s.pend[s.k.currpid], Dispose(s);
    Clearing(s, total, c);
    var i := d.port;
    PortIs(s, total, i);
    NobodyStill(s.pend, t.pend, c, i, s.ports[i].ptseq);
    NotOwned(s, total, i);
    OnlyNone(s.k);
    hide Inv, Nobody, SendSide, RecvSide;
    assert ClearOk(t.k, t.ports[i], t.pend[c]);
    assert PortOk(t.k, t.pend, t.ports[i], i);
    hide PortOk, ClearOk, Only, PInv;
    Alone(s, t, total, i, -1);
    Assemble(s, t, total, i, -1);
  }

  lemma ClearFirstKeeps(s: P, total: nat)
    requires PInv(s, total) && AtStage(s, 0)
    ensures PInv(ClearFirst(s), total)
  {
    hide Inv, Nobody, SemReset, SemDelete, SendSide, RecvSide;
    var c, d := s.k.currpid, s.pend[s.k.currpid];
    Clearing(s, total, c);
    var i, t := d.port, ClearFirst(s);
    var r, pt, pt' := s.ports[i].ptssem, s.ports[i], t.ports[i];
    PortIs(s, total, i);
    NobodyStill(s.pend, t.pend, c, i, pt.ptseq);
    assert forall x :: Owns(pt', x) ==> Owns(pt, x);
    assert Owns(pt, r) || !Live(s.k, r);
    if d.del {
      DeleteOnly(s.k, r);
    } else {
      ResetOnly(s.k, r, pt.ptmaxcnt);
    }
    assert ClearOk(t.k, pt', t.pend[c]);
    assert PortOk(t.k, t.pend, pt', i);
    hide PortOk, ClearOk, Only, PInv;
    Alone(s, t, total, i, r);
    Assemble(s, t, total, i, r);
  }

  lemma ClearOnKeeps(s: P, total: nat)
    requires PInv(s, total) && AtStage(s, 1)
    ensures PInv(ClearOn(s), total)
  {
    hide Inv, Nobody, SemReset, SemDelete, SendSide, RecvSide;
    var c, d := s.k.currpid, s.pend[s.k.currpid];
    Clearing(s, total, c);
    var i, t := d.port, ClearOn(s);
    var r, pt, pt' := s.ports[i].ptrsem, s.ports[i], t.ports[i];
    PortIs(s, total, i);
    NobodyStill(s.pend, t.pend, c, i, pt.ptseq);
    assert forall x :: Owns(pt', x) ==> Owns(pt, x);
    assert Owns(pt, r) || !Live(s.k, r);
    if d.del {
      DeleteOnly(s.k, r);
    } else {
      ResetOnly(s.k, r, 0);
    }
    assert ClearOk(t.k, pt', t.pend[c]);
    assert PortOk(t.k, t.pend, pt', i);
    hide PortOk, ClearOk, Only, PInv;
    Alone(s, t, total, i, r);
    Assemble(s, t, total, i, r);
  }

  lemma NobodyStill(pend: seq<Pend>, pend': seq<Pend>, c: nat, i: nat, sq: int)
    requires |pend| == |pend'| == NPROC && c < NPROC && pend' == pend[c := pend'[c]] && !pend'[c].Waits?
    ensures forall b {:trigger Nobody(pend', i, sq, b)} :: Nobody(pend, i, sq, b) ==> Nobody(pend', i, sq, b)
  {
    forall b, q {:trigger In(pend', q, i, sq, b)} | In(pend', q, i, sq, b)
      ensures In(pend, q, i, sq, b)
    {
    }
  }

  /** A port without messages and processes is in order when its permits are right. */
  lemma FreshPort(k: K, pend: seq<Pend>, pt: Port, i: nat)
    requires Sized(k) && |pend| == NPROC && pt.ptstate == PT_ALLOC && 0 <= pt.cap <= MAXCOUNT && pt.ptmaxcnt < UINT16
    requires Nobody(pend, i, pt.ptseq, true) && Nobody(pend, i, pt.ptseq, false) && |pt.msgs| == 0
    requires if pt.sown then Live(k, pt.ptssem) && k.sems[pt.ptssem].count == pt.cap && |k.lists[pt.ptssem]| == 0
             else pt.ptssem == SYSERR
    requires if pt.rown then Live(k, pt.ptrsem) && k.sems[pt.ptrsem].count == 0 && |k.lists[pt.ptrsem]| == 0
             else pt.ptrsem == SYSERR
    ensures PortOk(k, pend, pt, i)
  {
    forall l | |l| == 0
      ensures Granted(pend, l, i, pt.ptseq, true) == {} && Granted(pend, l, i, pt.ptseq, false) == {}
    {
    }
  }

  lemma ClearEndKeeps(s: P, total: nat)
    requires PInv(s, total) && AtStage(s, 2)
    ensures PInv(ClearEnd(s), total)
  {
    var c, d := s.k.currpid, s.pend[s.k.currpid];
    Clearing(s, total, c);
    var i, t := d.port, ClearEnd(s);
    var pt, pt' := s.ports[i], t.ports[i];
    PortIs(s, total, i);
    NobodyStill(s.pend, t.pend, c, i, pt.ptseq);
    NotOwned(s, total, i);
    OnlyNone(s.k);
    assert forall x :: Owns(pt', x) ==> Owns(pt, x);
    hide Inv;
    if !d.del {
      FreshPort(t.k, t.pend, pt', i);
    }
    assert PortOk(t.k, t.pend, pt', i);
    hide PortOk, ClearOk, Only, PInv, Nobody;
    Alone(s, t, total, i, -1);
    Assemble(s, t, total, i, -1);
  }

  // ---- ptcreate ----

  /** A new semaphore was not there before and nobody waits on it. */
  lemma NewSem(k: K, count: int)
    requires Inv(k) && count <= MAXCOUNT
    ensures var (t, r) := SemCreate(k, count);
            && Sized(k) && Inv(t) && Only(k, t, -1)
            && (if r == SYSERR then t == k
                else !Live(k, r) && Live(t, r) && t.sems[r].count == count && |t.lists[r]| == 0)
            && (forall x {:trigger Live(k, x)} :: Live(k, x) ==> Live(t, x))
  {
    InvSized(k);
    SemCreateKeeps(k, count);
    var (t, r) := SemCreate(k, count);
    hide Core;
    if r != SYSERR {
      SemIs(k, r);
    }
  }

  lemma OnlyOn(k: K, t: K, u: K)
    requires Sized(k) && Sized(t) && Sized(u) && Only(k, t, -1) && Only(t, u, -1)
    requires forall x {:trigger Live(k, x)} :: Live(k, x) ==> Live(t, x)
    ensures Only(k, u, -1)
  {
    forall x | Live(k, x) && x != -1
      ensures u.sems[x] == k.sems[x] && u.lists[x] == k.lists[x]
    {
      assert Live(t, x);
    }
  }

  lemma NewPortKeeps(s: P, total: nat, count: int)
    requires PInv(s, total) && count <= MAXCOUNT && s.pend[s.k.currpid] == Idle
    ensures PInv(NewPort(s, count).0, total)
  {
    hide Inv, SemCreate, Nobody;
    var (t, i) := NewPort(s, count);
    if i == SYSERR {
      return;
    }
    var (k1, ssem) := SemCreate(s.k, count);
    var (k2, rsem) := SemCreate(k1, 0);
    var c, pt' := s.k.currpid, t.ports[i];
    PortIs(s, total, i);
    NotOwned(s, total, i);
    NobodyYet(s, total, i, pt'.ptseq, t.pend, true);
    NobodyYet(s, total, i, pt'.ptseq, t.pend, false);
    NewSem(s.k, count);
    NewSem(k1, 0);
    OnlyOn(s.k, k1, k2);
    assert ssem != SYSERR ==> k2.sems[ssem] == k1.sems[ssem] && k2.lists[ssem] == k1.lists[ssem];
    FreshPort(t.k, t.pend, pt', i);
    assert t.pend == s.pend[c := t.pend[c]];
    forall j | 0 <= j < NPORTS && j != i
      ensures !Owns(s.ports[j], -1)
    {
      NotOwned(s, total, j);
    }
    forall j, x {:trigger Owns(s.ports[j], x)} | 0 <= j < NPORTS && j != i && Owns(s.ports[j], x)
      ensures !Owns(t.ports[i], x)
    {
      OwnedLive(s, total, j, x);
    }
    forall q | 0 <= q < NPROC && s.pend[q].Clears?
      ensures s.pend[q].port != i
    {
      NoneClears(s, total, i, q);
    }
    hide PortOk, ClearOk, Only, PInv, Owns;
    Assemble(s, t, total, i, -1);
  }
}
