/** What holds of buffer pools at all times, counting the processes that were let through by
    getbuf's semaphore but did not run yet. */
module BufInv {
  import opened KernelQueues
  import opened KernelSpec
  import opened KernelInv
  import opened KernelRuns
  import opened PortSpec
  import opened PortInv
  import opened PortCalls
  import opened BufSpec
  import Heap = HeapSpec
  import HeapRuns

  /** Buffer b is one of the pool. */
  ghost predicate InPool(pool: Pool, b: nat) {
    b in Carve(pool.block.addr, pool.bpsize + TAGSIZE, pool.num)
  }

  /** There is a buffer for every permit and every process let through. */
  ghost predicate Enough(sem: Sem, l: seq<nat>, gets: seq<Pend>, pool: Pool, i: nat)
    requires |gets| == NPROC
  {
    AllIn(gets, l, i, 0, false) && Permits(sem) + |Granted(gets, l, i, 0, false)| <= |pool.list|
  }

  ghost predicate SemOk(k: K, gets: seq<Pend>, pool: Pool, i: nat)
    requires Sized(k) && |gets| == NPROC
  {
    Live(k, pool.bpsem) && Enough(k.sems[pool.bpsem], k.lists[pool.bpsem], gets, pool, i)
  }

  /** A buffer of the pool is either free, once, or in use, and then its tag is right. */
  ghost predicate ListOk(tags: map<nat, int>, pool: Pool, i: nat) {
    && Once(pool.list) && |pool.list| <= pool.num
    && (forall b :: b in pool.list ==> InPool(pool, b) && b !in tags)
    && (forall b :: InPool(pool, b) && b !in pool.list ==> b in tags && tags[b] == i)
    && (forall b :: b in tags && tags[b] == i ==> InPool(pool, b))
  }

  /** The pool lies within its block of the heap. */
  ghost predicate BlockFits(heap: HeapRuns.State, pool: Pool) {
    && 1 <= pool.num <= BP_MAXN && pool.bpsize % 4 == 0 && pool.bpsize >= BP_MINB
    && pool.block in heap.live && pool.num * (pool.bpsize + TAGSIZE) <= pool.block.len
  }

  ghost predicate NoneShared(pools: seq<Pool>) {
    forall i, j :: 0 <= i < j < |pools| ==> pools[i].bpsem != pools[j].bpsem && pools[i].block != pools[j].block
  }

  ghost predicate GetOk(d: Pend, n: nat) {
    d == Idle || (d.Waits? && d.port < n && d == Getting(d.port))
  }

  ghost predicate TagsOk(tags: map<nat, int>, n: nat) {
    forall b :: b in tags ==> 0 <= tags[b] < n
  }

  ghost predicate ArenaOk(heap: HeapRuns.State, lo: nat, hi: nat, arena: seq<Heap.Block>) {
    && HeapRuns.HeapOk(heap, arena) && heap.total < Heap.TWO32
    && forall x {:trigger Heap.Covered(arena, x)} :: Heap.Covered(arena, x) ==> lo <= x <= hi
  }

  ghost predicate BInv(s: B, arena: seq<Heap.Block>) {
    && BSized(s) && Inv(s.k) && |s.pools| <= NBPOOLS
    && (forall i :: 0 <= i < |s.pools| ==> SemOk(s.k, s.gets, s.pools[i], i))
    && (forall i :: 0 <= i < |s.pools| ==> ListOk(s.tags, s.pools[i], i))
    && (forall i :: 0 <= i < |s.pools| ==> BlockFits(s.heap, s.pools[i]))
    && NoneShared(s.pools) && TagsOk(s.tags, |s.pools|)
    && (forall q :: 0 <= q < NPROC ==> GetOk(s.gets[q], |s.pools|))
    && ArenaOk(s.heap, s.minheap, s.maxheap, arena)
  }

  // ---- the parts, by themselves ----

  lemma PoolIs(s: B, arena: seq<Heap.Block>, i: nat)
    requires BInv(s, arena) && i < |s.pools|
    ensures BSized(s) && Inv(s.k) && |s.pools| <= NBPOOLS
    ensures SemOk(s.k, s.gets, s.pools[i], i)
    ensures ListOk(s.tags, s.pools[i], i)
    ensures BlockFits(s.heap, s.pools[i])
  {
  }

  /** The state is in order when its semaphores and its lists are. */
  lemma Restored(s: B, t: B, arena: seq<Heap.Block>)
    requires BInv(s, arena) && BSized(t) && Inv(t.k) && |t.pools| == |s.pools|
    requires forall i :: 0 <= i < |s.pools| ==>
               t.pools[i] == s.pools[i].(list := t.pools[i].list)
    requires forall i :: 0 <= i < |s.pools| ==> SemOk(t.k, t.gets, t.pools[i], i)
    requires forall i :: 0 <= i < |s.pools| ==> ListOk(t.tags, t.pools[i], i)
    requires TagsOk(t.tags, |s.pools|)
    requires forall q :: 0 <= q < NPROC ==> GetOk(t.gets[q], |s.pools|)
    requires t.heap == s.heap && t.minheap == s.minheap && t.maxheap == s.maxheap
    ensures BInv(t, arena)
  {
    hide Inv, SemOk, ListOk, TagsOk, GetOk, ArenaOk;
    forall i | 0 <= i < |s.pools|
      ensures BlockFits(t.heap, t.pools[i])
    {
      assert BlockFits(s.heap, s.pools[i]);
    }
  }

  // ---- one pool, when the step was about another ----

  /** A pool whose semaphore kept its permits. */
  lemma SemKept(k: K, t: K, gets: seq<Pend>, gets': seq<Pend>, pool: Pool, i: nat)
    requires Sized(k) && Sized(t) && |gets| == |gets'| == NPROC && SemOk(k, gets, pool, i)
    requires Fewer(gets, gets', i, 0, false) && Quiet(k, t, gets, gets', pool.bpsem)
    ensures SemOk(t, gets', pool, i)
  {
    hide AllIn, Granted, Fewer, Shrunk;
    GrantedShrinks(gets, gets', k.lists[pool.bpsem], t.lists[pool.bpsem], i, 0, false);
  }

  /** A pool other than that of the current process. */
  lemma SemAside(s: B, t: B, arena: seq<Heap.Block>, i: nat, r: int)
    requires BInv(s, arena) && BSized(t) && i < |s.pools| && s.pools[i].bpsem != r && Only(s.k, t.k, r)
    requires t.gets == s.gets[s.k.currpid := t.gets[s.k.currpid]]
    requires !In(t.gets, s.k.currpid, i, 0, false) && !In(s.gets, s.k.currpid, i, 0, false)
    ensures SemOk(t.k, t.gets, s.pools[i], i)
  {
    PoolIs(s, arena, i);
    hide BInv, Inv, AllIn, Granted, ListOk, BlockFits;
    NotQueued(s.k, s.pools[i].bpsem);
    OtherSide(s.gets, t.gets, s.k.lists[s.pools[i].bpsem], s.k.currpid, i, 0, false);
  }

  /** Buffers in other pools when those in use change by buffer b of pool i. */
  lemma ListAside(tags: map<nat, int>, tags': map<nat, int>, pool: Pool, i: nat, b: nat)
    requires ListOk(tags, pool, i) && !InPool(pool, b)
    requires forall x :: x != b ==> (x in tags' <==> x in tags) && (x in tags ==> tags'[x] == tags[x])
    requires b in tags' ==> tags'[b] != i
    ensures ListOk(tags', pool, i)
  {
  }

  // ---- pools are disjoint ----

  /** Where buffer b of a pool is. */
  lemma PlaceIn(pool: Pool, b: nat) returns (j: nat)
    requires InPool(pool, b)
    ensures j < pool.num && b == pool.block.addr + j * (pool.bpsize + TAGSIZE)
  {
    var l := Carve(pool.block.addr, pool.bpsize + TAGSIZE, pool.num);
    j :| 0 <= j < |l| && l[j] == b;
  }

  lemma Product(j: nat, n: nat, size: nat)
    requires j < n
    ensures j * size + size <= n * size
  {
    assert (j + 1) * size <= n * size;
  }

  /** A buffer lies within the block of its pool. */
  lemma InBlock(heap: HeapRuns.State, pool: Pool, b: nat, x: int)
    requires BlockFits(heap, pool) && InPool(pool, b) && b <= x < b + TAGSIZE + pool.bpsize
    ensures Heap.In(pool.block, x)
  {
    var j := PlaceIn(pool, b);
    Product(j, pool.num, pool.bpsize + TAGSIZE);
  }

  lemma BlocksApart(heap: HeapRuns.State, arena: seq<Heap.Block>, a: Heap.Block, b: Heap.Block, x: int)
    requires HeapRuns.HeapOk(heap, arena) && a in heap.live && b in heap.live && Heap.In(a, x) && Heap.In(b, x)
    ensures a == b && !Heap.Covered(heap.free, x)
  {
  }

  /** No byte belongs to two buffers. */
  lemma Disjoint(s: B, arena: seq<Heap.Block>, i: nat, j: nat, b: nat, c: nat, x: int)
    requires BInv(s, arena) && i < |s.pools| && j < |s.pools| && InPool(s.pools[i], b) && InPool(s.pools[j], c)
    requires b <= x < b + TAGSIZE + s.pools[i].bpsize && c <= x < c + TAGSIZE + s.pools[j].bpsize
    ensures i == j && b == c
  {
    hide InPool;
    PoolIs(s, arena, i);
    PoolIs(s, arena, j);
    InBlock(s.heap, s.pools[i], b, x);
    InBlock(s.heap, s.pools[j], c, x);
    BlocksApart(s.heap, arena, s.pools[i].block, s.pools[j].block, x);
    SamePool(s, arena, i, j);
    var m := PlaceIn(s.pools[i], b);
    var n := PlaceIn(s.pools[i], c);
    if m < n {
      Product(m, n, s.pools[i].bpsize + TAGSIZE);
    } else if n < m {
      Product(n, m, s.pools[i].bpsize + TAGSIZE);
    }
  }

  lemma SamePool(s: B, arena: seq<Heap.Block>, i: nat, j: nat)
    requires BInv(s, arena) && i < |s.pools| && j < |s.pools|
    ensures s.pools[i].block == s.pools[j].block || s.pools[i].bpsem == s.pools[j].bpsem ==> i == j
  {
  }

  /** A buffer is in one pool only. */
  lemma OnePool(s: B, arena: seq<Heap.Block>, i: nat, j: nat, b: nat)
    requires BInv(s, arena) && i < |s.pools| && j < |s.pools| && InPool(s.pools[i], b) && InPool(s.pools[j], b)
    ensures i == j
  {
    hide BInv, InPool;
    Disjoint(s, arena, i, j, b, b, b);
  }
}
