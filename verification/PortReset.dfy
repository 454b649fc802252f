/** What becomes of the size of a port when it is reset. */
module PortReset {
  import opened KernelQueues
  import opened KernelSpec
  import opened KernelInv
  import opened KernelRuns
  import opened PortSpec
  import opened PortInv
  import opened PortCalls
  import opened PortKeeps
  import opened PortRuns
  import opened PortLaws
  import opened PortExact

  /** The port is there and nobody is deleting it. */
  ghost predicate Stays(s: P, i: nat) {
    && PSized(s) && i < NPORTS && s.ports[i].ptstate != PT_FREE
    && forall q :: 0 <= q < NPROC && s.pend[q].Clears? && s.pend[q].port == i ==> !s.pend[q].del
  }

  /** The run does not delete port i. */
  ghost predicate NotDeleted(es: seq<PStep>, i: nat) {
    forall j :: 0 <= j < |es| ==> es[j] != PtClear(i, true)
  }

  lemma StepStays(s: P, e: PStep, i: nat, total: nat)
    requires PInv(s, total) && PEnabled(s, e) && Stays(s, i) && e != PtClear(i, true)
    ensures Stays(PDo(s, e), i) && PDo(s, e).ports[i].ptmaxcnt == s.ports[i].ptmaxcnt
  {
    hide PInv, Enabled, MayBegin, Allowed, Inv, Do, Wait, Signal, SemReset, SemDelete, SemCreate;
    if e.PtDispose? || e.FirstClear? || e.MoreClear? || e.EndClear? {
      Clearing(s, total, s.k.currpid);
    }
  }

  lemma {:induction false} RunStays(s: P, es: seq<PStep>, i: nat, total: nat)
    requires PInv(s, total) && PRuns(s, es) && Stays(s, i) && NotDeleted(es, i)
    ensures PInv(PAfter(s, es), total)
    ensures Stays(PAfter(s, es), i) && PAfter(s, es).ports[i].ptmaxcnt == s.ports[i].ptmaxcnt
    decreases |es|
  {
    hide PInv, PEnabled, PDo, Stays;
    if |es| > 0 {
      PStepKeeps(s, es[0], total);
      StepStays(s, es[0], i, total);
      RunStays(PDo(s, es[0]), es[1..], i, total);
    }
  }

  /** ptcreate makes port i, for count messages. */
  ghost predicate Makes(s: P, count: int, t: P, i: nat) {
    PEnabled(s, PtCreate(count)) && NewPort(s, count) == (t, i) && i < NPORTS && count >= 0
  }

  /** After the run the current process comes to the end of resetting port i. */
  ghost predicate Resets(s: P, es: seq<PStep>, i: nat) {
    && PRuns(s, es) && NotDeleted(es, i)
    && AtStage(PAfter(s, es), 2) && PAfter(s, es).pend[PAfter(s, es).k.currpid].port == i
  }

  /** The state after that. */
  ghost function AfterReset(s: P, es: seq<PStep>, i: nat): (t: P)
    requires Resets(s, es, i)
    ensures PSized(t)
  {
    ClearEnd(PAfter(s, es))
  }

  lemma NewStays(s: P, count: int, t: P, i: nat, total: nat)
    requires PInv(s, total) && Makes(s, count, t, i)
    ensures Stays(t, i) && t.ports[i].ptmaxcnt == count % UINT16
  {
    hide Inv, SemCreate, PortOk, ClearOk;
    forall q | 0 <= q < NPROC && s.pend[q].Clears?
      ensures s.pend[q].port != i
    {
      NoneClears(s, total, i, q);
    }
  }

  lemma CreateKeeps(s: P, count: int, t: P, i: nat, total: nat)
    requires PInv(s, total) && Makes(s, count, t, i)
    ensures PInv(t, total)
  {
    hide PInv, NewPort;
    PStepKeeps(s, PtCreate(count), total);
  }

  lemma EndOfReset(s: P, i: nat, total: nat)
    requires PInv(s, total) && Stays(s, i) && AtStage(s, 2) && s.pend[s.k.currpid].port == i
    ensures ClearEnd(s).ports[i].ptmaxcnt == s.ports[i].ptmaxcnt
    ensures ClearEnd(s).ports[i].sown && ClearEnd(s).ports[i].rown ==> Whole(ClearEnd(s), i, s.ports[i].ptmaxcnt)
  {
    hide PInv, Whole;
    ResetIsWhole(s, total);
  }

  lemma OneSize(s: P, i: nat, m: nat, n: nat)
    ensures Whole(s, i, m) ==> (Whole(s, i, n) <==> m == n)
  {
  }

  /** A port that was made for count messages has, whenever it is reset, room for the remainder of
      count modulo 65536: so it has the size it was made with if and only if that is less. */
  lemma ResetSize(s: P, count: int, t: P, i: nat, es: seq<PStep>, total: nat)
    requires PInv(s, total) && Makes(s, count, t, i) && Resets(t, es, i)
    ensures var u := AfterReset(t, es, i);
            u.ports[i].sown && u.ports[i].rown ==>
              count >= 0 && Whole(u, i, count % UINT16) && (Whole(u, i, count) <==> count < UINT16)
  {
    hide PInv, PEnabled, NewPort, Stays, Whole, ClearEnd, PRuns, PAfter;
    NewStays(s, count, t, i, total);
    CreateKeeps(s, count, t, i, total);
    RunStays(t, es, i, total);
    EndOfReset(PAfter(t, es), i, total);
    OneSize(AfterReset(t, es, i), i, count % UINT16, count);
  }

  /** Nothing can be sent to a port for 65536 messages any more once it was reset. */
  lemma SizeLost(s: P, t: P, i: nat, es: seq<PStep>, total: nat)
    requires PInv(s, total) && Makes(s, UINT16, t, i) && Resets(t, es, i)
    ensures var u := AfterReset(t, es, i);
            u.ports[i].sown && u.ports[i].rown ==>
              Open(u, i, true) && Permits(u.k.sems[u.ports[i].ptssem]) == 0
  {
    hide PInv, Makes, Resets, AfterReset;
    ResetSize(s, UINT16, t, i, es, total);
  }
}
