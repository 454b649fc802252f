/** Runs of the system with buffer pools, and what users of buffers may rely on. */
module BufRuns {
  import opened KernelQueues
  import opened KernelSpec
  import opened KernelInv
  import opened KernelCalls
  import opened KernelProcs
  import opened KernelRuns
  import opened PortSpec
  import opened PortInv
  import opened BufSpec
  import opened BufInv
  import opened BufCalls
  import Heap = HeapSpec
  import HeapRuns
  import Tables = KernelTables

  /** One step: a call on buffers, the rest of one that could lose the processor, or a step of
      the process manager or on the heap that has nothing to do with buffers. */
  datatype BStep =
    | Call(e: Step) | Memory(op: HeapRuns.Op)
    | GetBuf(i: int) | GotBuf | FreeBuf(b: nat) | MkBufPool(bufsiz: int, numbufs: int)

  /** A buffer is freed by somebody who has got it. */
  ghost predicate BEnabled(s: B, e: BStep) {
    BSized(s) &&
    var outside := s.gets[s.k.currpid] == Idle && s.k.ctx[s.k.currpid] == Nothing;
    match e
    case Call(e) => MayCall(s, e)
    case Memory(op) => outside && Spares(s, op)
    case GetBuf(i) => MayGet(s, i)
    case GotBuf => GoesOn(s)
    case FreeBuf(b) => outside && b in s.tags
    case MkBufPool(bufsiz, numbufs) => outside
  }

  ghost function BDo(s: B, e: BStep): (t: B)
    requires BEnabled(s, e)
  {
    match e
    case Call(e) => Beside(s, e)
    case Memory(op) => OnHeap(s, op)
    case GetBuf(i) => BeginGet(s, i)
    case GotBuf => EndGet(s).0
    case FreeBuf(b) => Give(s, b).0
    case MkBufPool(bufsiz, numbufs) => MkPool(s, bufsiz, numbufs).0
  }

  /** Every step keeps the pools in order. */
  lemma BStepKeeps(s: B, e: BStep, arena: seq<Heap.Block>)
    requires BInv(s, arena) && BEnabled(s, e)
    ensures BInv(BDo(s, e), arena)
  {
    hide BInv, Beside, OnHeap, BeginGet, EndGet, Give, MkPool, MayCall, Spares, MayGet;
    match e {
      case Call(e) => CallKeeps(s, e, arena);
      case Memory(op) => HeapKeeps(s, op, arena);
      case GetBuf(i) => BeginGetKeeps(s, i, arena);
      case GotBuf => EndGetKeeps(s, arena);
      case FreeBuf(b) => GiveKeeps(s, b, arena);
      case MkBufPool(bufsiz, numbufs) => MkPoolKeeps(s, bufsiz, numbufs, arena);
    }
  }

  ghost predicate BRuns(s: B, es: seq<BStep>)
    decreases |es|
  {
    |es| == 0 || (BEnabled(s, es[0]) && BRuns(BDo(s, es[0]), es[1..]))
  }

  ghost function BAfter(s: B, es: seq<BStep>): (t: B)
    requires BRuns(s, es)
    decreases |es|
  {
    if |es| == 0 then s else BAfter(BDo(s, es[0]), es[1..])
  }

  lemma {:induction false} BRunKeeps(s: B, es: seq<BStep>, arena: seq<Heap.Block>)
    requires BInv(s, arena) && BRuns(s, es)
    ensures BInv(BAfter(s, es), arena)
    decreases |es|
  {
    hide BInv, BEnabled, BDo;
    if |es| > 0 {
      BStepKeeps(s, es[0], arena);
      BRunKeeps(BDo(s, es[0]), es[1..], arena);
    }
  }

  /** bufinit, when the system starts with this free memory. */
  ghost function BBooted(arena: seq<Heap.Block>, total: nat, lo: nat, hi: nat): B {
    B(Tables.Booted(), [], HeapRuns.State(arena, {}, total), lo, hi, seq(NPROC, _ => Idle), map[])
  }

  ghost predicate Arena(arena: seq<Heap.Block>, total: nat, lo: nat, hi: nat) {
    && Heap.Coalesced(arena) && total < Heap.TWO32
    && forall x {:trigger Heap.Covered(arena, x)} :: Heap.Covered(arena, x) ==> lo <= x <= hi
  }

  lemma BBootedOk(arena: seq<Heap.Block>, total: nat, lo: nat, hi: nat)
    requires Arena(arena, total, lo, hi)
    ensures BInv(BBooted(arena, total, lo, hi), arena)
  {
    hide Tables.Booted, Inv, Heap.Coalesced, Heap.Covered;
    Tables.BootedOk();
    InvSized(Tables.Booted());
  }

  /** The buffers of pool i that are in use. */
  ghost function InUseOf(s: B, i: nat): set<nat> {
    set b | b in s.tags && s.tags[b] == i
  }

  lemma InRun(arena: seq<Heap.Block>, total: nat, lo: nat, hi: nat, es: seq<BStep>)
    requires Arena(arena, total, lo, hi) && BRuns(BBooted(arena, total, lo, hi), es)
    ensures BInv(BAfter(BBooted(arena, total, lo, hi), es), arena)
  {
    hide BInv, BRuns, BBooted, BAfter, Arena;
    BBootedOk(arena, total, lo, hi);
    BRunKeeps(BBooted(arena, total, lo, hi), es, arena);
  }

  /** At any time, there is a free buffer for every permit and every process let through, and
      every buffer of the pool is free, once, or in use, and never both. */
  lemma PoolsSafe(arena: seq<Heap.Block>, total: nat, lo: nat, hi: nat, es: seq<BStep>, i: nat)
    requires Arena(arena, total, lo, hi) && BRuns(BBooted(arena, total, lo, hi), es)
    requires i < |BAfter(BBooted(arena, total, lo, hi), es).pools|
    ensures var s := BAfter(BBooted(arena, total, lo, hi), es);
            && BSized(s) && Live(s.k, s.pools[i].bpsem)
            && var pool := s.pools[i];
            && Permits(s.k.sems[pool.bpsem]) + |Granted(s.gets, s.k.lists[pool.bpsem], i, 0, false)| <= |pool.list|
            && Once(pool.list) && (forall b :: b in pool.list ==> b !in InUseOf(s, i))
            && (forall b :: InPool(pool, b) <==> b in pool.list || b in InUseOf(s, i))
            && |pool.list| + |InUseOf(s, i)| == pool.num
  {
    hide BRuns, BBooted, BAfter, Arena, BInv;
    InRun(arena, total, lo, hi, es);
    var s := BAfter(BBooted(arena, total, lo, hi), es);
    PoolIs(s, arena, i);
    hide Inv, AllIn, Granted;
    Partition(s, i);
  }

  lemma Partition(s: B, i: nat)
    requires i < |s.pools| && ListOk(s.tags, s.pools[i], i) && BlockFits(s.heap, s.pools[i])
    ensures forall b :: InPool(s.pools[i], b) <==> b in s.pools[i].list || b in InUseOf(s, i)
    ensures |s.pools[i].list| + |InUseOf(s, i)| == s.pools[i].num
  {
    hide Carve;
    var pool := s.pools[i];
    var l := Carve(pool.block.addr, pool.bpsize + TAGSIZE, pool.num);
    CarveOnce(pool.block.addr, pool.bpsize + TAGSIZE, pool.num);
    HowMany(l);
    HowMany(pool.list);
    assert Elems(l) == Elems(pool.list) + InUseOf(s, i);
    assert Elems(pool.list) !! InUseOf(s, i);
  }

  /** A process that goes on with getbuf never takes NULL, nor a buffer that is in use. */
  lemma NoneTwice(arena: seq<Heap.Block>, total: nat, lo: nat, hi: nat, es: seq<BStep>)
    requires Arena(arena, total, lo, hi) && BRuns(BBooted(arena, total, lo, hi), es)
    requires GoesOn(BAfter(BBooted(arena, total, lo, hi), es))
    ensures var s := BAfter(BBooted(arena, total, lo, hi), es);
            && Got(s) !in s.tags && Got(s) != Heap.NULL && EndGet(s).1
            && InPool(s.pools[s.gets[s.k.currpid].port], Got(s))
  {
    hide BRuns, BBooted, BAfter, Arena, BInv;
    InRun(arena, total, lo, hi, es);
    var s := BAfter(BBooted(arena, total, lo, hi), es);
    NeverNull(s, arena);
    NotNull(s, arena, s.gets[s.k.currpid].port, Got(s));
  }

  lemma NotNull(s: B, arena: seq<Heap.Block>, i: nat, b: nat)
    requires BInv(s, arena) && i < |s.pools| && InPool(s.pools[i], b)
    ensures b > 0 && b % 4 == 0
  {
    PoolIs(s, arena, i);
    assert HeapRuns.HeapOk(s.heap, arena);
    assert Heap.BlockOk(s.pools[i].block);
    hide BInv, Inv, SemOk, ListOk, HeapRuns.HeapOk, InPool;
    var j := PlaceIn(s.pools[i], b);
    WordAt(s.pools[i].block.addr, j, s.pools[i].bpsize + TAGSIZE);
  }

  lemma WordAt(a: nat, j: nat, size: nat)
    requires a % 8 == 0 && a > 0 && size % 4 == 0
    ensures a + j * size > 0 && (a + j * size) % 4 == 0
  {
    var k, w := a / 8, size / 4;
    assert j * size == 4 * (j * w);
    assert a + j * size == 4 * (2 * k + j * w);
  }

  /** No byte belongs to two buffers, or to a buffer and free memory, or to a buffer and a block
      that somebody else was given. */
  lemma BuffersApart(arena: seq<Heap.Block>, total: nat, lo: nat, hi: nat, es: seq<BStep>, i: nat, b: nat, x: int)
    requires Arena(arena, total, lo, hi) && BRuns(BBooted(arena, total, lo, hi), es)
    requires var s := BAfter(BBooted(arena, total, lo, hi), es);
             i < |s.pools| && InPool(s.pools[i], b) && b <= x < b + TAGSIZE + s.pools[i].bpsize
    ensures var s := BAfter(BBooted(arena, total, lo, hi), es);
            && b % 4 == 0
            && !Heap.Covered(s.heap.free, x)
            && (forall j, c: nat ::
                  0 <= j < |s.pools| && InPool(s.pools[j], c) && c <= x < c + TAGSIZE + s.pools[j].bpsize ==>
                    i == j && b == c)
            && (forall o :: o in s.heap.live && Heap.In(o, x) ==> o == s.pools[i].block)
  {
    hide BRuns, BBooted, BAfter, Arena, BInv, InPool, BlockFits, HeapRuns.HeapOk, Heap.Covered, Heap.In, Inv;
    InRun(arena, total, lo, hi, es);
    var s := BAfter(BBooted(arena, total, lo, hi), es);
    NotNull(s, arena, i, b);
    PoolIs(s, arena, i);
    InBlock(s.heap, s.pools[i], b, x);
    HeapIs(s, arena);
    LiveBlock(s, arena, i);
    BlocksApart(s.heap, arena, s.pools[i].block, s.pools[i].block, x);
    forall j, c: nat | 0 <= j < |s.pools| && InPool(s.pools[j], c) && c <= x < c + TAGSIZE + s.pools[j].bpsize
      ensures i == j && b == c
    {
      Disjoint(s, arena, i, j, b, c, x);
    }
    forall o | o in s.heap.live && Heap.In(o, x)
      ensures o == s.pools[i].block
    {
      BlocksApart(s.heap, arena, o, s.pools[i].block, x);
    }
  }
}
