/** What holds of the ports at all times, counting the processes that were let through but
    did not run yet. */
module PortInv {
  import opened KernelQueues
  import opened KernelSpec
  import opened KernelInv
  import opened KernelRuns
  import opened PortSpec

  /** Process q is in the middle of sending to (receiving from) port i with this number. */
  ghost predicate In(pend: seq<Pend>, q: int, i: nat, sq: int, sending: bool)
    requires |pend| == NPROC
  {
    0 <= q < NPROC && pend[q].Waits? && pend[q].port == i && pend[q].sq == sq && pend[q].sending == sending
  }

  /** Those of them that do not wait any more: they have a permit. */
  ghost function Granted(pend: seq<Pend>, l: seq<nat>, i: nat, sq: int, sending: bool): set<int>
    requires |pend| == NPROC
  {
    set q: int | 0 <= q < NPROC && q !in l && In(pend, q, i, sq, sending)
  }

  ghost predicate AllIn(pend: seq<Pend>, l: seq<nat>, i: nat, sq: int, sending: bool)
    requires |pend| == NPROC
  {
    forall q :: q in l ==> In(pend, q, i, sq, sending)
  }

  /** Messages, permits to send, and senders let through fit the capacity of the port. */
  ghost predicate SendSide(sem: Sem, l: seq<nat>, pend: seq<Pend>, pt: Port, i: nat)
    requires |pend| == NPROC
  {
    && AllIn(pend, l, i, pt.ptseq, true)
    && |pt.msgs| + Permits(sem) + |Granted(pend, l, i, pt.ptseq, true)| <= pt.cap
  }

  /** There is a message for every permit to receive and every receiver let through. */
  ghost predicate RecvSide(sem: Sem, l: seq<nat>, pend: seq<Pend>, pt: Port, i: nat)
    requires |pend| == NPROC
  {
    && AllIn(pend, l, i, pt.ptseq, false)
    && Permits(sem) + |Granted(pend, l, i, pt.ptseq, false)| <= |pt.msgs|
  }

  ghost predicate Nobody(pend: seq<Pend>, i: nat, sq: int, sending: bool)
    requires |pend| == NPROC
  {
    forall q :: !In(pend, q, i, sq, sending)
  }

  ghost predicate PortOk(k: K, pend: seq<Pend>, pt: Port, i: nat)
    requires Sized(k) && |pend| == NPROC
  {
    && 0 <= pt.cap <= MAXCOUNT && pt.ptmaxcnt < UINT16
    && (pt.sown ==> Live(k, pt.ptssem)) && (pt.rown ==> Live(k, pt.ptrsem))
    && match pt.ptstate
       case PT_ALLOC =>
         && (if pt.sown then SendSide(k.sems[pt.ptssem], k.lists[pt.ptssem], pend, pt, i)
             else pt.ptssem == SYSERR && |pt.msgs| == 0 && Nobody(pend, i, pt.ptseq, true))
         && (if pt.rown then RecvSide(k.sems[pt.ptrsem], k.lists[pt.ptrsem], pend, pt, i)
             else pt.ptrsem == SYSERR && Nobody(pend, i, pt.ptseq, false))
       case PT_LIMBO =>
         |pt.msgs| <= pt.cap && Nobody(pend, i, pt.ptseq, true) && Nobody(pend, i, pt.ptseq, false)
       case PT_FREE =>
         |pt.msgs| == 0 && Nobody(pend, i, pt.ptseq, true) && Nobody(pend, i, pt.ptseq, false) && !pt.sown && !pt.rown
  }

  predicate Owns(pt: Port, r: int) {
    (pt.sown && r == pt.ptssem) || (pt.rown && r == pt.ptrsem)
  }

  /** No semaphore serves two purposes. */
  ghost predicate Distinct(ports: seq<Port>)
    requires |ports| == NPORTS
  {
    && (forall i :: 0 <= i < NPORTS && ports[i].sown && ports[i].rown ==> ports[i].ptssem != ports[i].ptrsem)
    && (forall i, j, r :: 0 <= i < NPORTS && 0 <= j < NPORTS && i != j && Owns(ports[i], r) ==> !Owns(ports[j], r))
  }

  /** How far the clearing of a port has come. */
  ghost predicate ClearOk(k: K, pt: Port, c: Pend)
    requires Sized(k) && c.Clears?
  {
    && pt.ptstate == PT_LIMBO && c.phase <= 2
    && (pt.sown ==> Live(k, pt.ptssem)) && (pt.rown ==> Live(k, pt.ptrsem))
    && (if c.phase == 0 then c.done <= |pt.msgs| && (pt.sown || pt.ptssem == SYSERR)
        else
          && |pt.msgs| == 0
          && (if c.del then !pt.sown
              else if pt.sown then k.sems[pt.ptssem].count == pt.ptmaxcnt && |k.lists[pt.ptssem]| == 0
              else pt.ptssem == SYSERR))
    && (if c.phase < 2 then pt.rown || pt.ptrsem == SYSERR
        else if c.del then !pt.rown
        else if pt.rown then k.sems[pt.ptrsem].count == 0 && |k.lists[pt.ptrsem]| == 0
        else pt.ptrsem == SYSERR)
  }

  ghost predicate PendOk(k: K, ports: seq<Port>, pend: seq<Pend>, q: nat)
    requires Sized(k) && |ports| == NPORTS && |pend| == NPROC && q < NPROC
  {
    && (pend[q].Waits? ==> pend[q].port < NPORTS && pend[q].sq <= ports[pend[q].port].ptseq)
    && (pend[q].Clears? ==> pend[q].port < NPORTS && ClearOk(k, ports[pend[q].port], pend[q]))
  }

  /** At most one process clears a port at a time. */
  ghost predicate OneClears(pend: seq<Pend>)
    requires |pend| == NPROC
  {
    forall p, q :: 0 <= p < q < NPROC && pend[p].Clears? && pend[q].Clears? ==> pend[p].port != pend[q].port
  }

  ghost function Queued(ports: seq<Port>): nat {
    if |ports| == 0 then 0 else Queued(ports[..|ports| - 1]) + |ports[|ports| - 1].msgs|
  }

  /** The invariant; total is the number of message nodes in the system. */
  ghost predicate PInv(s: P, total: nat) {
    && PSized(s) && Inv(s.k)
    && (forall i :: 0 <= i < NPORTS ==> PortOk(s.k, s.pend, s.ports[i], i))
    && Distinct(s.ports)
    && (forall q :: 0 <= q < NPROC ==> PendOk(s.k, s.ports, s.pend, q))
    && OneClears(s.pend)
    && s.free + Queued(s.ports) == total
  }

  // ---- what does not concern a port ----

  /** From pend to pend' process q left port i or stayed as it was. */
  ghost predicate Fewer(pend: seq<Pend>, pend': seq<Pend>, i: nat, sq: int, sending: bool)
    requires |pend| == |pend'| == NPROC
  {
    forall q {:trigger In(pend', q, i, sq, sending)} :: In(pend', q, i, sq, sending) ==> In(pend, q, i, sq, sending)
  }

  /** The queue of a semaphore lost at most some who also left the port. */
  ghost predicate Shrunk(pend: seq<Pend>, pend': seq<Pend>, l: seq<nat>, l': seq<nat>)
    requires |pend| == |pend'| == NPROC
  {
    && (forall q :: q in l' ==> q in l && q < NPROC && pend'[q] == pend[q])
    && (forall q :: q in l && q !in l' && 0 <= q < NPROC ==> pend'[q] == Idle)
  }

  lemma GrantedShrinks(pend: seq<Pend>, pend': seq<Pend>, l: seq<nat>, l': seq<nat>, i: nat, sq: int, b: bool)
    requires |pend| == |pend'| == NPROC && Fewer(pend, pend', i, sq, b) && Shrunk(pend, pend', l, l')
    ensures |Granted(pend', l', i, sq, b)| <= |Granted(pend, l, i, sq, b)|
    ensures AllIn(pend, l, i, sq, b) ==> AllIn(pend', l', i, sq, b)
  {
    assert Granted(pend', l', i, sq, b) <= Granted(pend, l, i, sq, b);
    Subset(Granted(pend', l', i, sq, b), Granted(pend, l, i, sq, b));
  }

  lemma Subset(a: set<int>, b: set<int>)
    requires a <= b
    ensures |a| <= |b|
  {
    assert a + (b - a) == b;
  }

  ghost predicate Quiet(k: K, t: K, pend: seq<Pend>, pend': seq<Pend>, r: int)
    requires Sized(k) && Sized(t) && |pend| == |pend'| == NPROC && 0 <= r < NSEM
  {
    t.sems[r].used == k.sems[r].used && Permits(t.sems[r]) == Permits(k.sems[r])
    && Shrunk(pend, pend', k.lists[r], t.lists[r])
  }

  /** A port is still in order when its semaphores kept their permits. */
  lemma PortKept(k: K, t: K, pend: seq<Pend>, pend': seq<Pend>, pt: Port, i: nat)
    requires Sized(k) && Sized(t) && |pend| == |pend'| == NPROC && PortOk(k, pend, pt, i)
    requires Fewer(pend, pend', i, pt.ptseq, true) && Fewer(pend, pend', i, pt.ptseq, false)
    requires pt.sown ==> Quiet(k, t, pend, pend', pt.ptssem)
    requires pt.rown ==> Quiet(k, t, pend, pend', pt.ptrsem)
    ensures PortOk(t, pend', pt, i)
  {
    if pt.ptstate == PT_ALLOC {
      if pt.sown {
        GrantedShrinks(pend, pend', k.lists[pt.ptssem], t.lists[pt.ptssem], i, pt.ptseq, true);
      }
      if pt.rown {
        GrantedShrinks(pend, pend', k.lists[pt.ptrsem], t.lists[pt.ptrsem], i, pt.ptseq, false);
      }
    }
  }

  lemma SparedQuiet(k: K, t: K, pend: seq<Pend>, pend': seq<Pend>, r: int)
    requires Sized(k) && Sized(t) && |pend| == |pend'| == NPROC && 0 <= r < NSEM
    requires t.sems[r] == k.sems[r] && t.lists[r] == k.lists[r]
    requires forall q :: q in k.lists[r] ==> q < NPROC && pend'[q] == pend[q]
    ensures Quiet(k, t, pend, pend', r)
  {
  }

  // ---- one side of a port ----

  lemma GrantedMore(pend: seq<Pend>, l: seq<nat>, c: nat, i: nat, sq: int, b: bool, m: int)
    requires |pend| == NPROC && c < NPROC && pend[c] == Idle && c !in l
    ensures var pend' := pend[c := Waits(i, sq, b, m)];
            |Granted(pend', l, i, sq, b)| == |Granted(pend, l, i, sq, b)| + 1
  {
    var pend' := pend[c := Waits(i, sq, b, m)];
    forall q | 0 <= q < NPROC
      ensures q in Granted(pend', l, i, sq, b) <==> q in Granted(pend, l, i, sq, b) || q == c
    {
      assert q != c ==> pend'[q] == pend[q];
    }
    assert Granted(pend', l, i, sq, b) == Granted(pend, l, i, sq, b) + {c};
    assert c !in Granted(pend, l, i, sq, b);
  }

  lemma GrantedSame(pend: seq<Pend>, l: seq<nat>, c: nat, i: nat, sq: int, b: bool, m: int)
    requires |pend| == NPROC && c < NPROC && pend[c] == Idle
    ensures Granted(pend[c := Waits(i, sq, b, m)], l + [c], i, sq, b) == Granted(pend, l, i, sq, b)
  {
    var pend' := pend[c := Waits(i, sq, b, m)];
    forall q | 0 <= q < NPROC
      ensures q in Granted(pend', l + [c], i, sq, b) <==> q in Granted(pend, l, i, sq, b)
    {
      assert q != c ==> pend'[q] == pend[q];
      assert q in l + [c] <==> q in l || q == c;
    }
  }

  lemma AllInMore(pend: seq<Pend>, l: seq<nat>, c: nat, i: nat, sq: int, b: bool, m: int)
    requires |pend| == NPROC && c < NPROC && c !in l && AllIn(pend, l, i, sq, b)
    ensures AllIn(pend[c := Waits(i, sq, b, m)], l, i, sq, b)
    ensures AllIn(pend[c := Waits(i, sq, b, m)], l + [c], i, sq, b)
  {
  }

  /** A process begins to wait: it takes a permit, or joins the queue. */
  lemma BeginSide(l: seq<nat>, l': seq<nat>, sem: Sem, sem': Sem, pend: seq<Pend>, c: nat, i: nat, sq: int, b: bool,
                  m: int)
    requires |pend| == NPROC && c < NPROC && pend[c] == Idle && c !in l && AllIn(pend, l, i, sq, b)
    requires l' == l + (if sem.count > 0 then [] else [c]) && sem'.count == sem.count - 1
    ensures var pend' := pend[c := Waits(i, sq, b, m)];
            && AllIn(pend', l', i, sq, b)
            && Permits(sem') + |Granted(pend', l', i, sq, b)| == Permits(sem) + |Granted(pend, l, i, sq, b)|
  {
    hide AllIn, Granted;
    AllInMore(pend, l, c, i, sq, b, m);
    if sem.count > 0 {
      assert l' == l;
      GrantedMore(pend, l, c, i, sq, b, m);
    } else {
      GrantedSame(pend, l, c, i, sq, b, m);
    }
  }

  /** A signal: the first of the queue is let through, or there is a permit more. */
  lemma SignalSide(l: seq<nat>, l': seq<nat>, sem: Sem, sem': Sem, pend: seq<Pend>, i: nat, sq: int, b: bool)
    requires |pend| == NPROC && AllIn(pend, l, i, sq, b) && Once(l) && Procs(l) && |l| == Waiting(sem) && sem.used
    requires l' == (if |l| > 0 then l[1..] else []) && sem'.count == sem.count + 1
    ensures AllIn(pend, l', i, sq, b)
    ensures Permits(sem') + |Granted(pend, l', i, sq, b)| == Permits(sem) + |Granted(pend, l, i, sq, b)| + 1
  {
    if |l| > 0 {
      assert l[0] in l;
      assert forall q :: q in l <==> q in l[1..] || q == l[0];
      assert Granted(pend, l', i, sq, b) == Granted(pend, l, i, sq, b) + {l[0]} by {
        assert l[0] !in l[1..];
      }
    }
  }

  /** A process that was let through is done. */
  lemma DoneSide(l: seq<nat>, pend: seq<Pend>, c: nat, i: nat, sq: int, b: bool)
    requires |pend| == NPROC && c < NPROC && c !in l && AllIn(pend, l, i, sq, b)
    ensures AllIn(pend[c := Idle], l, i, sq, b)
    ensures In(pend, c, i, sq, b) ==>
              |Granted(pend, l, i, sq, b)| > 0
                && |Granted(pend[c := Idle], l, i, sq, b)| == |Granted(pend, l, i, sq, b)| - 1
    ensures !In(pend, c, i, sq, b) ==> Granted(pend[c := Idle], l, i, sq, b) == Granted(pend, l, i, sq, b)
  {
    if In(pend, c, i, sq, b) {
      assert c in Granted(pend, l, i, sq, b);
      assert Granted(pend[c := Idle], l, i, sq, b) == Granted(pend, l, i, sq, b) - {c};
    } else {
      assert Granted(pend[c := Idle], l, i, sq, b) == Granted(pend, l, i, sq, b);
    }
  }
}
