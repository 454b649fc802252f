/** What a process puts on a port is what it was asked to send, whenever it comes to that; and
    which port a new one is. */
module PortMail {
  import opened KernelQueues
  import opened KernelSpec
  import opened KernelInv
  import opened KernelRuns
  import opened KernelAnswers
  import opened PortSpec
  import opened PortInv
  import opened PortCalls
  import opened PortKeeps
  import opened PortRuns
  import opened PortLaws

  /** Port i is in use, and so is the semaphore that its senders, or its receivers, wait on. */
  ghost predicate Usable(s: P, i: int, sending: bool)
    requires PSized(s)
  {
    && 0 <= i < 30 && s.ports[i].ptstate == PT_ALLOC
    && InUse(s.k, if sending then s.ports[i].ptssem else s.ports[i].ptrsem)
  }

  /** ptsend and ptrecv are refused on a port that is not in use. Otherwise the process waits on the
      semaphore, having noted the port, its sequence number and the message; no port is different,
      and no other process notes anything. */
  lemma BeginGives(s: P, i: int, sending: bool, msg: int)
    requires PSized(s)
    ensures var t := Begin(s, i, sending, msg);
            if Usable(s, i, sending) then
              var r := if sending then s.ports[i].ptssem else s.ports[i].ptrsem;
              && t.k == Wait(s.k, r).0 && Wait(s.k, r).1 == 1
              && t.pend[s.k.currpid] == Waits(i, s.ports[i].ptseq, sending, msg)
              && (forall q :: 0 <= q < 100 && q != s.k.currpid ==> t.pend[q] == s.pend[q])
              && t.ports == s.ports && t.free == s.free && t.nextid == s.nextid
            else t == s
  {
    hide Resched, Wait;
    if Usable(s, i, sending) {
      SemaphoreAnswers(s.k, if sending then s.ports[i].ptssem else s.ports[i].ptrsem, 0);
    }
  }

  /** ptsend answers OK, and ptrecv the first message, if the port has not been cleared in the
      meantime, and otherwise SYSERR. */
  lemma RestAnswers(s: P, total: nat)
    requires PInv(s, total) && s.pend[s.k.currpid].Waits?
    ensures var d := s.pend[s.k.currpid];
            && PSized(s)
            && if 0 <= d.port < 30 && s.ports[d.port].ptstate == PT_ALLOC && s.ports[d.port].ptseq == d.sq then
                 && Sent(s) == 1
                 && (!d.sending ==> |s.ports[d.port].msgs| > 0 && Received(s) == s.ports[d.port].msgs[0])
               else Sent(s) == -1 && Received(s) == -1
  {
    var d := s.pend[s.k.currpid];
    assert PSized(s);
    hide PInv;
    if Unchanged(s, d) && !d.sending {
      NeverEmpty(s, total);
    }
  }

  /** Process q neither goes on in this run nor is killed. */
  ghost predicate StillWaits(s: P, es: seq<PStep>, q: nat)
    requires PRuns(s, es) && q < NPROC
    decreases |es|
  {
    |es| > 0 ==>
      && !GoesOn(s, es[0], q) && PSized(PDo(s, es[0])) && PDo(s, es[0]).pend[q] != Idle
      && StillWaits(PDo(s, es[0]), es[1..], q)
  }

  lemma StepNotes(s: P, e: PStep, q: nat)
    requires PSized(s) && PEnabled(s, e) && q < NPROC && s.pend[q].Waits? && !GoesOn(s, e, q)
    ensures PDo(s, e).pend[q] == Idle || PDo(s, e).pend[q] == s.pend[q]
  {
    hide Enabled, Allowed, Do, Wait, Signal, SemReset, SemDelete, SemCreate;
  }

  /** While it waits, what it noted stays, whatever others do. */
  lemma {:induction false} NoteStays(s: P, es: seq<PStep>, q: nat)
    requires PSized(s) && PRuns(s, es) && q < NPROC && s.pend[q].Waits? && StillWaits(s, es, q)
    ensures PSized(PAfter(s, es)) && PAfter(s, es).pend[q] == s.pend[q]
    decreases |es|
  {
    hide PEnabled, PDo, GoesOn;
    if |es| > 0 {
      StepNotes(s, es[0], q);
      NoteStays(PDo(s, es[0]), es[1..], q);
    }
  }

  /** After a call of ptsend with msg, and any run, when the caller goes on it puts msg on that
      port, behind all that are there, unless the port was cleared. */
  lemma SentIsPut(s: P, i: nat, msg: int, es: seq<PStep>)
    requires PSized(s) && PEnabled(s, PtSend(i, msg)) && Usable(s, i, true)
    requires PRuns(PDo(s, PtSend(i, msg)), es) && StillWaits(PDo(s, PtSend(i, msg)), es, s.k.currpid)
    ensures i < 30
    ensures var t := PAfter(PDo(s, PtSend(i, msg)), es);
            && PSized(t) && t.pend[s.k.currpid] == Waits(i, s.ports[i].ptseq, true, msg)
            && (t.k.currpid == s.k.currpid && PEnabled(t, EndSend) ==>
                  if t.ports[i].ptstate == PT_ALLOC && t.ports[i].ptseq == s.ports[i].ptseq then
                    Puts(t, EndSend, i) == [msg] && PDo(t, EndSend).ports[i].msgs == t.ports[i].msgs + [msg]
                  else Puts(t, EndSend, i) == [] && PDo(t, EndSend).ports == t.ports)
  {
    hide PEnabled, PRuns, PAfter, StillWaits, Begin, Wait, SendEnd;
    BeginGives(s, i, true, msg);
    assert PDo(s, PtSend(i, msg)) == Begin(s, i, true, msg);
    NoteStays(PDo(s, PtSend(i, msg)), es, s.k.currpid);
    var t := PAfter(PDo(s, PtSend(i, msg)), es);
    if t.k.currpid == s.k.currpid && PEnabled(t, EndSend) {
      EndPuts(t, i);
    }
  }

  lemma EndPuts(s: P, i: nat)
    requires PEnabled(s, EndSend) && i < NPORTS && s.pend[s.k.currpid].port == i
    ensures var d := s.pend[s.k.currpid];
            if Unchanged(s, d) then
              Puts(s, EndSend, i) == [d.msg] && PDo(s, EndSend).ports[i].msgs == s.ports[i].msgs + [d.msg]
            else Puts(s, EndSend, i) == [] && PDo(s, EndSend).ports == s.ports
  {
    hide Signal;
  }

  // ---- making and unmaking ports ----

  /** How far j is behind i in a table of 30, going round. */
  function Beyond(i: int, j: int): int {
    if j >= i then j - i else j - i + 30
  }

  lemma {:induction false} FindPortFirst(ports: seq<Port>, i: nat, n: nat)
    requires i < |ports| == 30 && n <= 30
    ensures var r := FindPort(ports, i, n);
            && (r != -1 ==> 0 <= r < 30 && Beyond(i, r) < n && ports[r].ptstate == PT_FREE)
            && forall j :: 0 <= j < 30 && Beyond(i, j) < (if r == -1 then n else Beyond(i, r)) ==>
                 ports[j].ptstate != PT_FREE
    decreases n
  {
    if n > 0 && ports[i].ptstate != PT_FREE {
      FindPortFirst(ports, if i + 1 == |ports| then 0 else i + 1, n - 1);
      assert forall j :: 0 <= j < 30 && j != i ==>
          Beyond(i, j) == 1 + Beyond(if i + 1 == |ports| then 0 else i + 1, j);
    }
  }

  /** ptcreate is refused for a negative count and if all ports are in use. Otherwise it gives the
      next free one, going round the table: in use, without messages, with a new sequence number
      and two new semaphores, for count senders and for no receiver. No other port is different. */
  lemma NewPortGives(s: P, count: int)
    requires PSized(s)
    ensures var (t, i) := NewPort(s, count);
            && (i == -1 <==> count < 0 || forall j :: 0 <= j < 30 ==> s.ports[j].ptstate != PT_FREE)
            && (i == -1 ==> t == s)
            && (i != -1 ==>
                  && 0 <= i < 30 && s.ports[i].ptstate == PT_FREE
                  && (forall j :: 0 <= j < 30 && Beyond(s.nextid, j) < Beyond(s.nextid, i) ==>
                        s.ports[j].ptstate != PT_FREE)
                  && t.ports[i].ptstate == PT_ALLOC && t.ports[i].msgs == [] && t.ports[i].cap == count
                  && t.ports[i].ptseq == s.ports[i].ptseq + 1 && t.ports[i].ptmaxcnt == count % 65536
                  && (forall j :: 0 <= j < 30 && j != i ==> t.ports[j] == s.ports[j])
                  && t.pend == s.pend && t.free == s.free && Beyond(i, t.nextid) == 1
                  && t.ports[i].ptssem == SemCreate(s.k, count).1
                  && t.ports[i].ptrsem == SemCreate(SemCreate(s.k, count).0, 0).1
                  && t.k == SemCreate(SemCreate(s.k, count).0, 0).0)
  {
    FindPortFirst(s.ports, s.nextid, 30);
    hide FindPort, SemCreate;
    assert forall j :: 0 <= j < 30 ==> 0 <= Beyond(s.nextid, j) < 30;
  }

  /** A port that was deleted is the next to be made. */
  lemma DeletedComesNext(s: P, count: nat)
    requires PEnabled(s, EndClear) && s.pend[s.k.currpid].del
    ensures var i := s.pend[s.k.currpid].port;
            && PDo(s, EndClear).ports[i].ptstate == PT_FREE && NewPort(PDo(s, EndClear), count).1 == i
  {
    hide SemCreate;
  }

  /** ptreset and ptdelete are refused on a port that is not in use. Otherwise the port is in limbo
      at once, with a new sequence number, and nothing else is different. */
  lemma ClearGives(s: P, i: int, del: bool)
    requires PSized(s)
    ensures var t := Clear(s, i, del);
            if 0 <= i < 30 && s.ports[i].ptstate == PT_ALLOC then
              && t.ports[i] == s.ports[i].(ptstate := PT_LIMBO, ptseq := s.ports[i].ptseq + 1)
              && (forall j :: 0 <= j < 30 && j != i ==> t.ports[j] == s.ports[j])
              && t.pend[s.k.currpid] == Clears(i, del, 0, 0)
              && (forall q :: 0 <= q < 100 && q != s.k.currpid ==> t.pend[q] == s.pend[q])
              && t.k == s.k && t.free == s.free && t.nextid == s.nextid
            else t == s
  {
  }

  /** The semaphore is out of use, or has that count; nobody waits on it. */
  ghost predicate Cleared(k: K, r: int, del: bool, count: int)
    requires Sized(k)
  {
    && 0 <= r < 100 && |k.lists[r]| == 0
    && if del then !k.sems[r].used else k.sems[r] == Sem(true, count)
  }

  /** The first part frees the nodes of the messages and clears the semaphore of the senders, for as
      many as the table says; the second one clears that of the receivers. */
  lemma ClearStepsGive(s: P, total: nat)
    requires PInv(s, total) && (AtStage(s, 0) || AtStage(s, 1))
    ensures PSized(s)
    ensures var d := s.pend[s.k.currpid];
            var pt := s.ports[d.port];
            && (d.phase == 0 && Live(s.k, pt.ptssem) ==>
                  var t := ClearFirst(s);
                  && Cleared(t.k, pt.ptssem, d.del, pt.ptmaxcnt) && t.free == s.free + |pt.msgs|
                  && t.ports[d.port].msgs == [] && t.ports[d.port].ptstate == pt.ptstate)
            && (d.phase == 1 && Live(s.k, pt.ptrsem) ==> Cleared(ClearOn(s).k, pt.ptrsem, d.del, 0))
  {
    var d := s.pend[s.k.currpid];
    var pt := s.ports[d.port];
    MaxFits(s, total, d.port);
    hide PInv, Inv, SemReset, SemDelete;
    if d.phase == 0 && Live(s.k, pt.ptssem) {
      EmptiedGives(s.k, pt.ptssem, pt.ptmaxcnt, if pt.ptssem == 0 then 1 else 0);
    }
    if d.phase == 1 && Live(s.k, pt.ptrsem) {
      EmptiedGives(s.k, pt.ptrsem, 0, if pt.ptrsem == 0 then 1 else 0);
    }
  }

  lemma MaxFits(s: P, total: nat, i: nat)
    requires PInv(s, total) && i < NPORTS
    ensures PSized(s) && Inv(s.k) && s.ports[i].ptmaxcnt <= MAXCOUNT
  {
    PortIs(s, total, i);
  }

  /** At the end a port that was reset is in use again, and one that was deleted is free; only deleting
      moves the place where ptcreate looks first. */
  lemma ClearEndGives(s: P)
    requires AtStage(s, 2)
    ensures var d, t := s.pend[s.k.currpid], ClearEnd(s);
            && t.ports[d.port].ptstate == (if d.del then PT_FREE else PT_ALLOC)
            && t.ports[d.port].ptseq == s.ports[d.port].ptseq && t.ports[d.port].msgs == s.ports[d.port].msgs
            && t.nextid == (if d.del then d.port else s.nextid) && t.pend[s.k.currpid] == Idle
            && (forall j :: 0 <= j < 30 && j != d.port ==> t.ports[j] == s.ports[j])
            && t.k == s.k && t.free == s.free
  {
  }
}
