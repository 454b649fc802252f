/** Sequence numbers of ports, which have 32 bits in the source and are integers here. */
module PortNumbers {
  import opened KernelQueues
  import opened KernelSpec
  import opened KernelInv
  import opened KernelRuns
  import opened PortSpec
  import opened PortInv
  import opened PortCalls
  import opened PortKeeps
  import opened PortRuns

  const TWO32 := 0x1_0000_0000

  /** The number as the table has it. */
  function Low32(x: int): int {
    x % TWO32
  }

  /** The test of ptsend and ptrecv, on what the table has. */
  predicate SameNumber(s: P, c: Pend)
    requires c.Waits?
  {
    c.port < |s.ports| && s.ports[c.port].ptstate == PT_ALLOC && Low32(s.ports[c.port].ptseq) == Low32(c.sq)
  }

  /** Whether the step gives port i a new number: it is cleared, or made. */
  ghost function Renumbers(s: P, e: PStep, i: nat): nat
    requires PEnabled(s, e) && i < NPORTS
  {
    match e
    case PtClear(j, del) => if j == i && s.ports[i].ptstate == PT_ALLOC then 1 else 0
    case PtCreate(count) => if NewPort(s, count).1 == i then 1 else 0
    case _ => 0
  }

  lemma StepNumber(s: P, e: PStep, i: nat, total: nat)
    requires PInv(s, total) && PEnabled(s, e) && i < NPORTS
    ensures PDo(s, e).ports[i].ptseq == s.ports[i].ptseq + Renumbers(s, e, i)
  {
    hide PInv, Enabled, MayBegin, Allowed, Inv, Do, Wait, Signal, SemReset, SemDelete, SemCreate;
  }

  ghost function Renumberings(s: P, es: seq<PStep>, i: nat): nat
    requires PRuns(s, es) && i < NPORTS
    decreases |es|
  {
    if |es| == 0 then 0 else Renumbers(s, es[0], i) + Renumberings(PDo(s, es[0]), es[1..], i)
  }

  lemma {:induction false} RunNumber(s: P, es: seq<PStep>, i: nat, total: nat)
    requires PInv(s, total) && PRuns(s, es) && i < NPORTS
    ensures PSized(s) && PSized(PAfter(s, es))
    ensures PAfter(s, es).ports[i].ptseq == s.ports[i].ptseq + Renumberings(s, es, i)
    decreases |es|
  {
    hide PEnabled, PDo, Renumbers;
    PortIs(s, total, i);
    hide PInv;
    if |es| > 0 {
      PStepKeeps(s, es[0], total);
      StepNumber(s, es[0], i, total);
      RunNumber(PDo(s, es[0]), es[1..], i, total);
    }
  }

  lemma SameLow(x: int, n: nat)
    ensures Low32(x + n) == Low32(x) <==> n % TWO32 == 0
  {
    var a, b := x / TWO32, (x + n) / TWO32;
    assert n == (b - a) * TWO32 + (Low32(x + n) - Low32(x));
    Multiple(b - a, Low32(x + n) - Low32(x));
  }

  lemma Multiple(q: int, d: int)
    requires -TWO32 < d < TWO32
    ensures (q * TWO32 + d) % TWO32 == 0 <==> d == 0
  {
  }

  /** For a process that began to wait at s, the test on 32 bits is right at the end of the run if
      and only if its port is not in use then, or got no new number meanwhile, or a number of
      new ones that is not a multiple of 2^32; so it is right if there were fewer than that. */
  lemma NumberExactly(s: P, es: seq<PStep>, c: Pend, total: nat)
    requires PInv(s, total) && PRuns(s, es) && c.Waits? && c.port < NPORTS && PSized(s) && c.sq == s.ports[c.port].ptseq
    ensures var t, n := PAfter(s, es), Renumberings(s, es, c.port);
            && PSized(t)
            && ((SameNumber(t, c) <==> Unchanged(t, c)) <==>
                t.ports[c.port].ptstate != PT_ALLOC || n == 0 || n % TWO32 != 0)
    ensures Renumberings(s, es, c.port) < TWO32 ==> (SameNumber(PAfter(s, es), c) <==> Unchanged(PAfter(s, es), c))
  {
    hide PInv, PRuns, PAfter, Renumberings, Low32;
    RunNumber(s, es, c.port, total);
    SameLow(c.sq, Renumberings(s, es, c.port));
  }
}
