/** Every step of the system with buffer pools, made on the tables. */
module BufPerform {
  import opened KernelQueues
  import opened KernelSpec
  import opened KernelInv
  import opened KernelRuns
  import opened PortSpec
  import opened PortCalls
  import opened BufSpec
  import opened BufInv
  import opened BufCalls
  import opened BufRuns
  import Heap = HeapSpec
  import HeapRuns
  import HeapTables
  import Tables = BufTables
  import Kernel = KernelTables

  /** A step of the process manager. */
  method PerformCall(m: Tables.Pools, e: Step)
    requires m.Shape() && Inv(m.S().k) && Enabled(m.S().k, e)
    modifies m.System(), m`gets
    ensures m.Shape() && m.S() == Beside(old(m.S()), e)
  {
    hide Inv, Do, Enabled, Kernel.Kernel.S, Kernel.Kernel.Shape, HeapTables.Heap.Shape, Tables.Pools.Table,
      Tables.Pools.Tags, Tables.Pools.Listed;
    ghost var s := m.S();
    m.Facing();
    KernelRuns.Perform(m.os, e);
    m.gets := Beside(s, e).gets;
    m.Facing();
  }

  // ---- the heap ----

  lemma ToFree(s: B, b: Heap.Block, arena: seq<Heap.Block>)
    requires BInv(s, arena) && HeapRuns.Enabled(s.heap, HeapRuns.DoFree(b))
    ensures b.len < Heap.TWO32 && b.addr + Heap.RoundMb(b.len) < Heap.TWO32 && Heap.RoundMb(b.len) > 0
  {
    hide Inv, SemOk, ListOk, BlockFits, TagsOk;
    if b in s.heap.live {
      assert Heap.BlockOk(b);
    }
  }

  lemma Given(heap: HeapRuns.State, op: HeapRuns.Op)
    requires HeapRuns.Enabled(heap, op) && !op.DoFree?
    ensures op.DoGetMem? ==> Heap.GetMem(heap.free, op.nbytes).1 >= -1
    ensures op.DoGetMem? ==>
            (Heap.GetMem(heap.free, op.nbytes).1 < 0 ==> Heap.GetMem(heap.free, op.nbytes).0 == heap.free)
    ensures op.DoGetStk? ==> (Heap.GetStk(heap.free, op.nbytes).1 == Heap.SYSERR ==>
                                Heap.GetStk(heap.free, op.nbytes).0 == heap.free)
    ensures op.DoGetStk? && Heap.GetStk(heap.free, op.nbytes).1 != Heap.SYSERR ==>
              Heap.GetStk(heap.free, op.nbytes).1 - Heap.RoundMb(op.nbytes) + 4 >= 0
  {
  }

  lemma Freed(l: seq<Heap.Block>, lo: nat, hi: nat, a: nat, n: nat)
    requires n < Heap.TWO32
    ensures Heap.FreeMem(l, lo, hi, a, n).1 == Heap.SYSERR ==> Heap.FreeMem(l, lo, hi, a, n).0 == l
  {
  }

  /** getmem, getstk or freemem by somebody else. */
  method PerformMemory(m: Tables.Pools, op: HeapRuns.Op, ghost arena: seq<Heap.Block>)
    requires m.Shape() && BInv(m.S(), arena) && Spares(m.S(), op)
    modifies m, m.heap
    ensures m.Shape() && m.S() == OnHeap(old(m.S()), op)
  {
    hide BInv, Kernel.Kernel.S, Kernel.Kernel.Shape, Tables.Pools.Table, Tables.Pools.Tags, Tables.Pools.Listed,
      HeapTables.Heap.Shape, HeapTables.Loops, Heap.GetMem, Heap.GetStk, Heap.FreeMem, Heap.RoundMb;
    m.Facing();
    if op.DoFree? {
      ToFree(m.S(), op.b, arena);
      PerformFree(m, op.b);
    } else {
      Given(m.S().heap, op);
      PerformGet(m, op);
    }
  }

  method PerformGet(m: Tables.Pools, op: HeapRuns.Op)
    requires m.Shape() && HeapRuns.Enabled(m.S().heap, op) && !op.DoFree?
    modifies m, m.heap
    ensures m.Shape() && m.S() == OnHeap(old(m.S()), op)
  {
    hide Kernel.Kernel.S, Kernel.Kernel.Shape, Tables.Pools.Table, Tables.Pools.Tags, Tables.Pools.Listed,
      HeapTables.Heap.Shape, Heap.GetMem, Heap.GetStk, Heap.RoundMb;
    ghost var s := m.S();
    m.Facing();
    Given(s.heap, op);
    match op {
      case DoGetMem(n) => var r := m.heap.GetMem(n);
      case DoGetStk(n) => var r := m.heap.GetStk(n);
    }
    m.live := HeapRuns.Do(s.heap, op, s.minheap, s.maxheap).live;
    m.Facing();
  }

  method PerformFree(m: Tables.Pools, b: Heap.Block)
    requires m.Shape() && HeapRuns.Enabled(m.S().heap, HeapRuns.DoFree(b))
    requires b.len < Heap.TWO32 && b.addr + Heap.RoundMb(b.len) < Heap.TWO32 && Heap.RoundMb(b.len) > 0
    modifies m, m.heap
    ensures m.Shape() && m.S() == OnHeap(old(m.S()), HeapRuns.DoFree(b))
  {
    hide Kernel.Kernel.S, Kernel.Kernel.Shape, Tables.Pools.Table, Tables.Pools.Tags, Tables.Pools.Listed,
      HeapTables.Heap.Shape, Heap.FreeMem, Heap.RoundMb, Heap.Coalesced, HeapTables.Heap.InOrder, Heap.JoinsLeft;
    ghost var s := m.S();
    m.Facing();
    Freed(s.heap.free, s.minheap, s.maxheap, b.addr, b.len);
    var r := m.heap.FreeMem(b.addr, b.len);
    m.live := HeapRuns.Do(s.heap, HeapRuns.DoFree(b), s.minheap, s.maxheap).live;
    m.Facing();
  }

  // ---- any step ----

  lemma InOrder(s: B, arena: seq<Heap.Block>)
    requires BInv(s, arena)
    ensures BSized(s) && Inv(s.k)
    ensures forall q :: 0 <= q < NPROC && s.gets[q].Waits? ==> s.gets[q].port < |s.pools|
  {
  }

  /** The step as the tables take it; poolid is what a process in getbuf has on its stack. */
  method Perform(m: Tables.Pools, e: BStep, poolid: nat, ghost arena: seq<Heap.Block>)
    requires m.Shape() && BInv(m.S(), arena) && BEnabled(m.S(), e)
    requires e.GotBuf? ==> m.S().gets[m.S().k.currpid].port == poolid
    modifies m.Repr()
    ensures m.Shape() && m.S() == BDo(old(m.S()), e) && BInv(m.S(), arena)
  {
    hide BInv, Inv, Tables.Pools.S, Tables.Pools.Shape, Beside, OnHeap, BeginGet, EndGet, Give, MkPool, MayCall, Spares,
      MayGet;
    BStepKeeps(m.S(), e, arena);
    InOrder(m.S(), arena);
    m.Facing();
    match e {
      case Call(e) =>
        MayEnable(m.S(), e);
        PerformCall(m, e);
      case Memory(op) => PerformMemory(m, op, arena);
      case GetBuf(i) => var done := m.GetBuf(i, arena);
      case GotBuf => var buf := m.GotBuf(poolid, arena);
      case FreeBuf(b) => var r := m.FreeBuf(b + TAGSIZE, arena);
      case MkBufPool(bufsiz, numbufs) => var r := m.MkBufPool(bufsiz, numbufs, arena);
    }
  }

  lemma MayEnable(s: B, e: Step)
    requires BSized(s) && MayCall(s, e)
    ensures Enabled(s.k, e)
  {
  }
}
