/** What users of ports may rely on. */
module PortLaws {
  import opened KernelQueues
  import opened KernelSpec
  import opened KernelInv
  import opened KernelRuns
  import opened PortSpec
  import opened PortInv
  import opened PortCalls
  import opened PortKeeps
  import opened PortRuns
  import Laws = KernelLaws

  // ---- first in, first out ----

  /** What is put on port i in this step. */
  ghost function Puts(s: P, e: PStep, i: nat): seq<int>
    requires PEnabled(s, e) && i < NPORTS
  {
    var d := s.pend[s.k.currpid];
    if e.EndSend? && d.port == i && Unchanged(s, d) then [d.msg] else []
  }

  /** What ptrecv returns from port i in this step. */
  ghost function Gets(s: P, e: PStep, i: nat): seq<int>
    requires PEnabled(s, e) && i < NPORTS
  {
    var d := s.pend[s.k.currpid];
    if e.EndRecv? && d.port == i && Unchanged(s, d) then [Received(s)] else []
  }

  /** Only ptsend and ptrecv on port i change its messages, and nothing makes or unmakes it. */
  lemma StepLeaves(s: P, e: PStep, i: nat, total: nat)
    requires PInv(s, total) && PEnabled(s, e) && i < NPORTS && s.ports[i].ptstate == PT_ALLOC
    requires !(e.PtClear? && e.i == i)
    ensures var pt := PDo(s, e).ports[i];
            && pt.ptstate == PT_ALLOC && pt == s.ports[i].(msgs := pt.msgs)
            && (|Gets(s, e, i)| == |Puts(s, e, i)| == 0 ==> pt.msgs == s.ports[i].msgs)
  {
    hide PInv, Enabled, MayBegin, Allowed, Inv, Do, Wait, Signal, SemReset, SemDelete, SemCreate;
    if e.PtDispose? || e.FirstClear? || e.MoreClear? || e.EndClear? {
      Clearing(s, total, s.k.currpid);
    }
  }

  /** What was there and what was put is what was taken and what is left. */
  ghost predicate Adds(gets: seq<int>, msgs': seq<int>, msgs: seq<int>, puts: seq<int>) {
    gets + msgs' == msgs + puts
  }

  lemma RecvCarries(s: P, total: nat)
    requires PInv(s, total) && PEnabled(s, EndRecv) && Unchanged(s, s.pend[s.k.currpid])
    ensures var i := s.pend[s.k.currpid].port;
            Adds([Received(s)], RecvEnd(s).ports[i].msgs, s.ports[i].msgs, [])
  {
    NeverEmpty(s, total);
    hide PInv, Signal;
  }

  lemma SendCarries(s: P)
    requires PEnabled(s, EndSend) && Unchanged(s, s.pend[s.k.currpid])
    ensures var i := s.pend[s.k.currpid].port;
            Adds([], SendEnd(s).0.ports[i].msgs, s.ports[i].msgs, [s.pend[s.k.currpid].msg])
  {
    hide Signal;
  }

  lemma StepCarries(s: P, e: PStep, i: nat, total: nat)
    requires PInv(s, total) && PEnabled(s, e) && i < NPORTS && s.ports[i].ptstate == PT_ALLOC
    requires !(e.PtClear? && e.i == i)
    ensures Adds(Gets(s, e, i), PDo(s, e).ports[i].msgs, s.ports[i].msgs, Puts(s, e, i))
  {
    var d := s.pend[s.k.currpid];
    StepLeaves(s, e, i, total);
    if e.EndRecv? && d.port == i && Unchanged(s, d) {
      RecvCarries(s, total);
      hide PInv, RecvEnd, Adds, Received;
      assert PDo(s, e) == RecvEnd(s);
    } else if e.EndSend? && d.port == i && Unchanged(s, d) {
      SendCarries(s);
      hide PInv, SendEnd, Adds;
      assert PDo(s, e) == SendEnd(s).0;
    } else {
      hide PInv, PDo, Received, MayBegin, Allowed;
    }
  }

  ghost function AllPuts(s: P, es: seq<PStep>, i: nat): seq<int>
    requires PRuns(s, es) && i < NPORTS
    decreases |es|
  {
    if |es| == 0 then [] else Puts(s, es[0], i) + AllPuts(PDo(s, es[0]), es[1..], i)
  }

  ghost function AllGets(s: P, es: seq<PStep>, i: nat): seq<int>
    requires PRuns(s, es) && i < NPORTS
    decreases |es|
  {
    if |es| == 0 then [] else Gets(s, es[0], i) + AllGets(PDo(s, es[0]), es[1..], i)
  }

  /** The run neither resets nor deletes port i. */
  ghost predicate Kept(es: seq<PStep>, i: nat) {
    forall j :: 0 <= j < |es| ==> !(es[j].PtClear? && es[j].i == i)
  }

  lemma KeptOn(es: seq<PStep>, i: nat)
    requires |es| > 0 && Kept(es, i)
    ensures !(es[0].PtClear? && es[0].i == i) && Kept(es[1..], i)
  {
  }

  lemma AddsOn(a: seq<int>, m: seq<int>, l: seq<int>, b: seq<int>, c: seq<int>, n: seq<int>, d: seq<int>)
    requires Adds(a, m, l, b) && Adds(c, n, m, d)
    ensures Adds(a + c, n, l, b + d)
  {
    Laws.Requeued(a, b, l, m, c, d, n);
  }

  /** Between two resets, messages are received exactly once and in the order in which they
      were sent, whoever sends and receives and whatever else happens. */
  lemma {:induction false} FirstInFirstOut(s: P, es: seq<PStep>, i: nat, total: nat)
    requires PInv(s, total) && PRuns(s, es) && i < NPORTS && s.ports[i].ptstate == PT_ALLOC && Kept(es, i)
    ensures |PAfter(s, es).ports| == NPORTS
    ensures Adds(AllGets(s, es, i), PAfter(s, es).ports[i].msgs, s.ports[i].msgs, AllPuts(s, es, i))
    decreases |es|
  {
    assert |s.ports| == NPORTS;
    if |es| == 0 {
      hide PInv;
      return;
    }
    KeptOn(es, i);
    hide PInv, PEnabled, PDo, Gets, Puts, Adds, Kept;
    var t := PDo(s, es[0]);
    PStepKeeps(s, es[0], total);
    StepLeaves(s, es[0], i, total);
    StepCarries(s, es[0], i, total);
    FirstInFirstOut(t, es[1..], i, total);
    AddsOn(Gets(s, es[0], i), t.ports[i].msgs, s.ports[i].msgs, Puts(s, es[0], i),
           AllGets(t, es[1..], i), PAfter(s, es).ports[i].msgs, AllPuts(t, es[1..], i));
  }

  // ---- waiters from before a reset ----

  /** Process q began to wait on a port that was cleared since. */
  ghost predicate Stale(s: P, q: nat) {
    PSized(s) && q < NPROC && s.pend[q].Waits? && s.pend[q].port < NPORTS
      && s.pend[q].sq < s.ports[s.pend[q].port].ptseq
  }

  /** Clearing a port makes all who wait on it stale. */
  lemma ClearStales(s: P, total: nat, i: nat, del: bool, q: nat)
    requires PInv(s, total) && i < NPORTS && s.ports[i].ptstate == PT_ALLOC && s.pend[s.k.currpid] == Idle
    requires q < NPROC && s.pend[q].Waits? && s.pend[q].port == i
    ensures Stale(Clear(s, i, del), q)
  {
    assert PendOk(s.k, s.ports, s.pend, q);
    hide SemReset, SemDelete;
  }

  /** The step by which process q goes on, if it is one. */
  ghost predicate GoesOn(s: P, e: PStep, q: nat)
    requires PSized(s)
  {
    s.k.currpid == q && (e.EndSend? || e.EndRecv?)
  }

  lemma StaysStale(s: P, e: PStep, q: nat)
    requires Stale(s, q) && PEnabled(s, e) && !GoesOn(s, e, q)
    ensures PDo(s, e).pend[q] == Idle || Stale(PDo(s, e), q)
    ensures !e.Call? ==> Stale(PDo(s, e), q)
  {
    hide Enabled, Allowed, Do, Wait, Signal, SemReset, SemDelete, SemCreate;
  }

  /** If process q goes on at all in the run before it is killed, it answers SYSERR and
      changes nothing but that it does not wait any more. */
  ghost predicate Refused(s: P, es: seq<PStep>, q: nat)
    requires PRuns(s, es) && q < NPROC
    decreases |es|
  {
    |es| > 0 ==>
      var t := PDo(s, es[0]);
      if GoesOn(s, es[0], q) then
        && t == SetPend(s, Idle)
        && (if es[0].EndSend? then Sent(s) == SYSERR else Received(s) == SYSERR)
      else t.pend[q] == Idle || Refused(t, es[1..], q)
  }

  /** A waiter from before a reset is refused, however late it runs. */
  lemma {:induction false} StaleRefused(s: P, es: seq<PStep>, q: nat)
    requires Stale(s, q) && PRuns(s, es)
    ensures Refused(s, es, q)
    decreases |es|
  {
    if |es| > 0 {
      var t := PDo(s, es[0]);
      if !GoesOn(s, es[0], q) {
        StaysStale(s, es[0], q);
        hide PEnabled, PDo;
        if t.pend[q] != Idle {
          StaleRefused(t, es[1..], q);
        }
      }
    }
  }

  // ---- disposing of messages ----

  /** Process c is clearing port i and not done with the messages. */
  ghost predicate Disposing(s: P, c: nat, i: nat) {
    PSized(s) && c < NPROC && s.pend[c].Clears? && s.pend[c].port == i < NPORTS && s.pend[c].phase == 0
  }

  /** The message of port i that is handed to the caller's function in this step. */
  ghost function Disposes(s: P, e: PStep, i: nat): seq<int>
    requires PEnabled(s, e)
  {
    var d := s.pend[s.k.currpid];
    if e.PtDispose? && d.port == i then [s.ports[i].msgs[d.done]] else []
  }

  lemma StepDisposes(s: P, e: PStep, c: nat, i: nat, total: nat)
    requires PInv(s, total) && PEnabled(s, e) && Disposing(s, c, i) && Disposing(PDo(s, e), c, i)
    ensures PDo(s, e).ports[i].msgs == s.ports[i].msgs
    ensures PDo(s, e).pend[c].done == s.pend[c].done + |Disposes(s, e, i)| <= |s.ports[i].msgs|
    ensures Disposes(s, e, i) == s.ports[i].msgs[s.pend[c].done..PDo(s, e).pend[c].done]
  {
    hide PInv, Enabled, Allowed, Inv, Do, Wait, Signal, SemReset, SemDelete, SemCreate;
    Clearing(s, total, c);
    if e.Call? {
      return;
    }
    PStepKeeps(s, e, total);
    Clearing(PDo(s, e), total, c);
    if e.PtDispose? || e.FirstClear? || e.MoreClear? || e.EndClear? {
      Clearing(s, total, s.k.currpid);
    }
    hide ClearOk;
  }

  ghost predicate StillDisposing(s: P, es: seq<PStep>, c: nat, i: nat)
    requires PRuns(s, es)
    decreases |es|
  {
    Disposing(s, c, i) && (|es| > 0 ==> StillDisposing(PDo(s, es[0]), es[1..], c, i))
  }

  ghost function AllDisposes(s: P, es: seq<PStep>, i: nat): seq<int>
    requires PRuns(s, es)
    decreases |es|
  {
    if |es| == 0 then [] else Disposes(s, es[0], i) + AllDisposes(PDo(s, es[0]), es[1..], i)
  }

  lemma Spliced(l: seq<int>, a: nat, b: nat, c: nat)
    requires a <= b <= c <= |l|
    ensures l[a..b] + l[b..c] == l[a..c]
  {
  }

  /** While a port is cleared its messages are handed over one by one, in order, each once,
      whatever else happens meanwhile; at the end (FirstClear) none is left. */
  lemma {:induction false} DisposedOnce(s: P, es: seq<PStep>, c: nat, i: nat, total: nat)
    requires PInv(s, total) && PRuns(s, es) && StillDisposing(s, es, c, i)
    ensures Disposing(PAfter(s, es), c, i)
    ensures var d, d' := s.pend[c].done, PAfter(s, es).pend[c].done;
            && PAfter(s, es).ports[i].msgs == s.ports[i].msgs && d <= d' <= |s.ports[i].msgs|
            && AllDisposes(s, es, i) == s.ports[i].msgs[d..d']
    decreases |es|
  {
    Clearing(s, total, c);
    hide PInv, PEnabled, PDo, Disposes;
    if |es| > 0 {
      var t := PDo(s, es[0]);
      assert Disposing(t, c, i);
      PStepKeeps(s, es[0], total);
      StepDisposes(s, es[0], c, i, total);
      DisposedOnce(t, es[1..], c, i, total);
      Spliced(s.ports[i].msgs, s.pend[c].done, t.pend[c].done, PAfter(s, es).pend[c].done);
    }
  }

  // ---- running out of message nodes ----

  /** How many nodes a port may take up. One that is being cleared has its messages until
      the last is disposed of. */
  function Room(pt: Port): nat {
    match pt.ptstate
    case PT_ALLOC => pt.cap
    case PT_LIMBO => |pt.msgs|
    case PT_FREE => 0
  }

  ghost function Rooms(ports: seq<Port>): nat {
    if |ports| == 0 then 0 else Rooms(ports[..|ports| - 1]) + Room(ports[|ports| - 1])
  }

  lemma {:induction false} RoomLeft(ports: seq<Port>, i: nat)
    requires forall j :: 0 <= j < |ports| ==> |ports[j].msgs| <= Room(ports[j])
    ensures Queued(ports) <= Rooms(ports)
    ensures i < |ports| && |ports[i].msgs| < Room(ports[i]) ==> Queued(ports) < Rooms(ports)
  {
    if |ports| > 0 {
      var n := |ports| - 1;
      RoomLeft(ports[..n], i);
      assert i < n ==> ports[..n][i] == ports[i];
    }
  }

  /** A sender that was let through finds room on its port. */
  lemma RoomToSend(s: P, total: nat)
    requires PInv(s, total) && s.pend[s.k.currpid].Waits? && s.pend[s.k.currpid].sending
    requires Unchanged(s, s.pend[s.k.currpid])
    ensures |s.ports[s.pend[s.k.currpid].port].msgs| < Room(s.ports[s.pend[s.k.currpid].port])
  {
    var d := s.pend[s.k.currpid];
    var pt := s.ports[d.port];
    WasGranted(s, total);
    PortIs(s, total, d.port);
    Counted(Granted(s.pend, s.k.lists[pt.ptssem], d.port, pt.ptseq, true), s.k.currpid);
  }

  /** ptsend never runs out of nodes when the ports together do not hold more than there are. */
  lemma NoPanic(s: P, total: nat)
    requires PInv(s, total) && s.pend[s.k.currpid].Waits? && s.pend[s.k.currpid].sending
    requires Rooms(s.ports) <= total
    ensures SendEnd(s).1
  {
    var d := s.pend[s.k.currpid];
    if Unchanged(s, d) {
      RoomToSend(s, total);
      hide PortOk, Inv;
      forall j | 0 <= j < NPORTS
        ensures |s.ports[j].msgs| <= Room(s.ports[j])
      {
        PortFits(s, total, j);
      }
      RoomLeft(s.ports, d.port);
    }
  }

  /** The sizes of the allocated ports, as the table has them, and the messages that wait to
      be disposed of. */
  ghost function Sizes(ports: seq<Port>): nat {
    if |ports| == 0 then 0
    else
      var pt := ports[|ports| - 1];
      Sizes(ports[..|ports| - 1]) + if pt.ptstate == PT_ALLOC then pt.ptmaxcnt else Room(pt)
  }

  /** The table has the true size of every port. */
  ghost predicate TrueSizes(ports: seq<Port>) {
    forall j :: 0 <= j < |ports| ==> ports[j].cap == ports[j].ptmaxcnt
  }

  lemma {:induction false} SizesAreRooms(ports: seq<Port>)
    requires TrueSizes(ports)
    ensures Sizes(ports) == Rooms(ports)
  {
    if |ports| > 0 {
      SizesAreRooms(ports[..|ports| - 1]);
    }
  }

  ghost predicate Sensible(es: seq<PStep>) {
    forall j :: 0 <= j < |es| && es[j].PtCreate? ==> es[j].count < UINT16
  }

  lemma StepTrue(s: P, e: PStep)
    requires PEnabled(s, e) && TrueSizes(s.ports) && (e.PtCreate? ==> e.count < UINT16)
    ensures TrueSizes(PDo(s, e).ports)
  {
    hide Enabled, MayBegin, Allowed, Do, Wait, Signal, SemReset, SemDelete, SemCreate;
  }

  lemma {:induction false} RunTrue(s: P, es: seq<PStep>)
    requires PRuns(s, es) && TrueSizes(s.ports) && Sensible(es)
    ensures TrueSizes(PAfter(s, es).ports)
    decreases |es|
  {
    hide PEnabled, PDo, TrueSizes;
    if |es| > 0 {
      StepTrue(s, es[0]);
      RunTrue(PDo(s, es[0]), es[1..]);
    }
  }

  /** If every port is made with a size of 16 bits, and the sizes in the table together with
      the messages that wait to be disposed of are not more than there are nodes, then ptsend
      does not panic. */
  lemma PanicUnreachable(maxmsgs: nat, es: seq<PStep>)
    requires PRuns(PBooted(maxmsgs), es) && Sensible(es)
    requires Sizes(PAfter(PBooted(maxmsgs), es).ports) <= maxmsgs
    ensures var s := PAfter(PBooted(maxmsgs), es);
            PSized(s) && (s.pend[s.k.currpid].Waits? && s.pend[s.k.currpid].sending ==> SendEnd(s).1)
  {
    PBootedOk(maxmsgs);
    PRunKeeps(PBooted(maxmsgs), es, maxmsgs);
    RunTrue(PBooted(maxmsgs), es);
    var s := PAfter(PBooted(maxmsgs), es);
    SizesAreRooms(s.ports);
    assert PSized(s);
    hide PInv, PRuns, PAfter, SendEnd;
    if s.pend[s.k.currpid].Waits? && s.pend[s.k.currpid].sending {
      NoPanic(s, maxmsgs);
    }
  }

  /** ptcreate enters the size that it gives to the semaphore exactly if that has 16 bits. */
  lemma SizeKept(s: P, count: int)
    requires PSized(s) && NewPort(s, count).1 != SYSERR
    ensures var (t, i) := NewPort(s, count);
            && 0 <= i < NPORTS && t.ports[i].cap == count
            && (t.ports[i].ptmaxcnt == count <==> count < UINT16)
  {
    hide SemCreate;
  }
}
