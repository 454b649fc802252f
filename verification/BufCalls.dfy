/** Every step keeps the buffer pools in order. */
module BufCalls {
  import opened KernelQueues
  import opened KernelSpec
  import opened KernelInv
  import opened KernelCalls
  import opened KernelFrame
  import opened KernelProcs
  import opened KernelRuns
  import opened PortSpec
  import opened PortInv
  import opened PortCalls
  import opened PortKeeps
  import opened BufSpec
  import opened BufInv
  import Heap = HeapSpec
  import HeapRuns
  import HeapLaws

  // ---- other calls, and the heap ----

  /** Other calls are made by processes outside of getbuf, and keep off the semaphores of
      pools. */
  ghost predicate MayCall(s: B, e: Step) {
    && BSized(s) && Enabled(s.k, e) && s.gets[s.k.currpid] == Idle
    && forall i :: 0 <= i < |s.pools| ==> s.pools[i].bpsem != Uses(e)
  }

  lemma CallKeeps(s: B, e: Step, arena: seq<Heap.Block>)
    requires BInv(s, arena) && MayCall(s, e)
    ensures BInv(Beside(s, e), arena)
  {
    hide BInv, Inv, Do, Enabled, SemOk, ListOk, BlockFits, TagsOk, ArenaOk, Fewer, Quiet, Other;
    var p, t := Base(s), Beside(s, e);
    CallIs(s, e, arena);
    forall i | 0 <= i < |s.pools|
      ensures SemOk(t.k, t.gets, t.pools[i], i) && ListOk(t.tags, t.pools[i], i)
    {
      PoolIs(s, arena, i);
      CallSpares(s, e, i);
    }
    Restored(s, t, arena);
  }

  lemma CallIs(s: B, e: Step, arena: seq<Heap.Block>)
    requires BInv(s, arena) && MayCall(s, e)
    ensures var t := Beside(s, e);
            && Inv(t.k) && TagsOk(t.tags, |t.pools|) && t == s.(k := t.k, gets := t.gets)
            && forall q :: 0 <= q < NPROC ==> GetOk(t.gets[q], |s.pools|)
  {
    hide Inv, Do, Enabled, SemOk, ListOk, BlockFits, TagsOk, ArenaOk, NoneShared;
    StepKeeps(s.k, e);
  }

  lemma CallSpares(s: B, e: Step, i: nat)
    requires BSized(s) && Inv(s.k) && MayCall(s, e) && i < |s.pools| && SemOk(s.k, s.gets, s.pools[i], i)
    ensures SemOk(Beside(s, e).k, Beside(s, e).gets, s.pools[i], i)
  {
    hide Inv, Do, Enabled, Enough, Fewer, Quiet, Other;
    OtherQuiet(Base(s), e, s.pools[i].bpsem);
    OtherFewer(Base(s), e, i, 0, false);
    SemKept(s.k, Beside(s, e).k, s.gets, Beside(s, e).gets, s.pools[i], i);
  }

  /** The memory of pools is not given back by others. */
  ghost predicate Spares(s: B, op: HeapRuns.Op) {
    HeapRuns.Enabled(s.heap, op) && forall i :: 0 <= i < |s.pools| && op.DoFree? ==> s.pools[i].block != op.b
  }

  lemma HeapKeeps(s: B, op: HeapRuns.Op, arena: seq<Heap.Block>)
    requires BInv(s, arena) && Spares(s, op)
    ensures BInv(OnHeap(s, op), arena)
  {
    hide Inv, SemOk, ListOk, TagsOk, HeapRuns.HeapOk, HeapRuns.Enabled, HeapRuns.Given, Heap.Covered, Heap.FreeMem;
    HeapRuns.StepOk(s.heap, op, s.minheap, s.maxheap, arena);
    forall i | 0 <= i < |s.pools|
      ensures BlockFits(OnHeap(s, op).heap, s.pools[i])
    {
      assert BlockFits(s.heap, s.pools[i]);
    }
  }

  // ---- getbuf ----

  /** The current process may start to get a buffer of pool i. */
  ghost predicate MayGet(s: B, i: int) {
    && BSized(s) && s.gets[s.k.currpid] == Idle && s.k.ctx[s.k.currpid] == Nothing
    && (!BadPool(s, i) && Live(s.k, s.pools[i].bpsem) ==> CanBlock(s.k) || s.k.sems[s.pools[i].bpsem].count > 0)
  }

  lemma BeginGetKeeps(s: B, i: int, arena: seq<Heap.Block>)
    requires BInv(s, arena) && MayGet(s, i)
    ensures BInv(BeginGet(s, i), arena)
  {
    hide BInv, Inv, SemOk, ListOk, BlockFits, ArenaOk, Only, Wait, In;
    if BadPool(s, i) {
      return;
    }
    var t := BeginGet(s, i);
    BeginIs(s, i, arena);
    forall j | 0 <= j < |s.pools|
      ensures SemOk(t.k, t.gets, t.pools[j], j) && ListOk(t.tags, t.pools[j], j)
    {
      PoolIs(s, arena, j);
      if j == i {
        BeginHere(s, i, arena);
      } else {
        SamePool(s, arena, i, j);
        OnPool(s.gets, s.k.currpid, j);
        OnPool(t.gets, s.k.currpid, j);
        SemAside(s, t, arena, j, s.pools[i].bpsem);
      }
    }
    Restored(s, t, arena);
  }

  /** A process is in getbuf on the pool that it is on. */
  lemma OnPool(gets: seq<Pend>, c: nat, i: nat)
    requires |gets| == NPROC && c < NPROC && GetOk(gets[c], NBPOOLS)
    ensures In(gets, c, i, 0, false) <==> gets[c] == Getting(i)
  {
  }

  lemma BeginIs(s: B, i: nat, arena: seq<Heap.Block>)
    requires BInv(s, arena) && MayGet(s, i) && i < |s.pools|
    ensures var t := BeginGet(s, i);
            && Inv(t.k) && TagsOk(t.tags, |s.pools|) && Only(s.k, t.k, s.pools[i].bpsem) && |s.pools| <= NBPOOLS
            && t == s.(k := t.k, gets := s.gets[s.k.currpid := Getting(i)])
            && forall q :: 0 <= q < NPROC ==> GetOk(t.gets[q], |s.pools|) && GetOk(t.gets[q], NBPOOLS)
                                              && GetOk(s.gets[q], NBPOOLS)
  {
    hide Inv, ListOk, BlockFits, TagsOk, ArenaOk, Only, Wait, CanBlock, Enough, NoneShared;
    WaitKeeps(s.k, s.pools[i].bpsem);
    WaitOnly(s.k, s.pools[i].bpsem);
  }

  lemma BeginHere(s: B, i: nat, arena: seq<Heap.Block>)
    requires BInv(s, arena) && MayGet(s, i) && i < |s.pools|
    ensures SemOk(BeginGet(s, i).k, BeginGet(s, i).gets, s.pools[i], i)
  {
    hide BInv, Inv, ListOk, BlockFits, Wait, AllIn, Granted, CanBlock;
    PoolIs(s, arena, i);
    var r, k, t := s.pools[i].bpsem, s.k, BeginGet(s, i);
    NotQueued(k, r);
    WaitEffect(k, r);
    BeginSide(k.lists[r], t.k.lists[r], k.sems[r], t.k.sems[r], s.gets, k.currpid, i, 0, false, 0);
  }

  /** A process that was let through finds a buffer. */
  lemma NeverNull(s: B, arena: seq<Heap.Block>)
    requires BInv(s, arena) && GoesOn(s)
    ensures var i := s.gets[s.k.currpid].port;
            && s.gets[s.k.currpid] == Getting(i) && |s.pools[i].list| > 0
            && Got(s) !in s.tags && InPool(s.pools[i], Got(s))
  {
    var c, i := s.k.currpid, s.gets[s.k.currpid].port;
    PoolIs(s, arena, i);
    assert GetOk(s.gets[c], |s.pools|);
    hide BInv, Inv, BlockFits;
    NotQueued(s.k, s.pools[i].bpsem);
    assert c in Granted(s.gets, s.k.lists[s.pools[i].bpsem], i, 0, false);
    Counted(Granted(s.gets, s.k.lists[s.pools[i].bpsem], i, 0, false), c);
  }

  lemma EndGetKeeps(s: B, arena: seq<Heap.Block>)
    requires BInv(s, arena) && GoesOn(s)
    ensures EndGet(s).1 && BInv(EndGet(s).0, arena)
  {
    hide BInv, Inv, SemOk, ListOk, BlockFits, ArenaOk, Only, In, InPool;
    NeverNull(s, arena);
    var i, t := s.gets[s.k.currpid].port, EndGet(s).0;
    EndIs(s, arena);
    forall j | 0 <= j < |s.pools|
      ensures SemOk(t.k, t.gets, t.pools[j], j) && ListOk(t.tags, t.pools[j], j)
    {
      PoolIs(s, arena, j);
      if j == i {
        EndHere(s, arena);
      } else {
        OnPool(s.gets, s.k.currpid, j);
        OnPool(t.gets, s.k.currpid, j);
        NoPool(s, arena, j, -1);
        SemAside(s, t, arena, j, -1);
        NotThere(s, arena, i, j, Got(s));
        ListAside(s.tags, t.tags, s.pools[j], j, Got(s));
      }
    }
    Restored(s, t, arena);
  }

  lemma NotThere(s: B, arena: seq<Heap.Block>, i: nat, j: nat, b: nat)
    requires BInv(s, arena) && i < |s.pools| && j < |s.pools| && i != j && InPool(s.pools[i], b)
    ensures !InPool(s.pools[j], b)
  {
    hide BInv, InPool;
    if InPool(s.pools[j], b) {
      OnePool(s, arena, i, j, b);
      assert false;
    }
  }

  lemma NoPool(s: B, arena: seq<Heap.Block>, j: nat, r: int)
    requires BInv(s, arena) && j < |s.pools| && r < 0
    ensures s.pools[j].bpsem != r
  {
    PoolIs(s, arena, j);
  }

  lemma EndIs(s: B, arena: seq<Heap.Block>)
    requires BInv(s, arena) && GoesOn(s) && |s.pools[s.gets[s.k.currpid].port].list| > 0
    ensures var i, t := s.gets[s.k.currpid].port, EndGet(s).0;
            && Inv(t.k) && TagsOk(t.tags, |s.pools|) && Only(s.k, t.k, -1) && |s.pools| <= NBPOOLS
            && t == s.(pools := s.pools[i := s.pools[i].(list := s.pools[i].list[1..])],
                       gets := s.gets[s.k.currpid := Idle], tags := s.tags[Got(s) := i])
            && forall q :: 0 <= q < NPROC ==> GetOk(t.gets[q], |s.pools|) && GetOk(t.gets[q], NBPOOLS)
                                              && GetOk(s.gets[q], NBPOOLS)
  {
    hide Inv, SemOk, ListOk, BlockFits, ArenaOk, NoneShared;
  }

  lemma EndHere(s: B, arena: seq<Heap.Block>)
    requires BInv(s, arena) && GoesOn(s) && |s.pools[s.gets[s.k.currpid].port].list| > 0
    ensures var i, t := s.gets[s.k.currpid].port, EndGet(s).0;
            SemOk(t.k, t.gets, t.pools[i], i) && ListOk(t.tags, t.pools[i], i)
  {
    hide BInv, Inv, BlockFits, AllIn, Granted, ListOk, In, InPool;
    var i, t := s.gets[s.k.currpid].port, EndGet(s).0;
    NeverNull(s, arena);
    PoolIs(s, arena, i);
    NotQueued(s.k, s.pools[i].bpsem);
    Itself(s.gets, s.k.currpid, i);
    DoneSide(s.k.lists[s.pools[i].bpsem], s.gets, s.k.currpid, i, 0, false);
    Taken(s.tags, s.pools[i], i);
  }

  lemma Itself(gets: seq<Pend>, c: nat, i: nat)
    requires |gets| == NPROC && c < NPROC && gets[c] == Getting(i)
    ensures In(gets, c, i, 0, false)
  {
  }

  /** The first buffer comes into use. */
  lemma Taken(tags: map<nat, int>, pool: Pool, i: nat)
    requires ListOk(tags, pool, i) && |pool.list| > 0
    ensures ListOk(tags[pool.list[0] := i], pool.(list := pool.list[1..]), i)
  {
    var p := pool.(list := pool.list[1..]);
    assert forall b :: b in pool.list <==> b == pool.list[0] || b in p.list;
    assert forall b :: InPool(p, b) <==> InPool(pool, b);
  }

  // ---- freebuf ----

  lemma Sizes(s: B, arena: seq<Heap.Block>)
    requires BInv(s, arena)
    ensures BSized(s) && |s.pools| <= NBPOOLS
  {
  }

  lemma GiveKeeps(s: B, b: nat, arena: seq<Heap.Block>)
    requires BInv(s, arena) && b in s.tags && s.k.ctx[s.k.currpid] == Nothing
    ensures Give(s, b).1 == OK && BInv(Give(s, b).0, arena)
  {
    hide BInv, Inv, SemOk, ListOk, BlockFits, ArenaOk, Only, Signal, InPool;
    Sizes(s, arena);
    GiveIs(s, b, arena);
    var i, t := s.tags[b], Give(s, b).0;
    forall j | 0 <= j < |s.pools|
      ensures SemOk(t.k, t.gets, t.pools[j], j) && ListOk(t.tags, t.pools[j], j)
    {
      PoolIs(s, arena, j);
      if j == i {
        GiveHere(s, b, arena);
      } else {
        SamePool(s, arena, i, j);
        GiveAside(s, t, j, s.pools[i].bpsem);
        InUse(s, arena, b, i);
        NotThere(s, arena, i, j, b);
        ListAside(s.tags, t.tags, s.pools[j], j, b);
      }
    }
    Restored(s, t, arena);
  }

  lemma GiveAside(s: B, t: B, j: nat, r: int)
    requires BSized(s) && BSized(t) && j < |s.pools| && s.pools[j].bpsem != r && Only(s.k, t.k, r) && t.gets == s.gets
    requires SemOk(s.k, s.gets, s.pools[j], j)
    ensures SemOk(t.k, t.gets, s.pools[j], j)
  {
    hide Enough;
  }

  lemma InUse(s: B, arena: seq<Heap.Block>, b: nat, i: nat)
    requires BInv(s, arena) && b in s.tags && s.tags[b] == i && i < |s.pools|
    ensures InPool(s.pools[i], b) && b !in s.pools[i].list
  {
    PoolIs(s, arena, i);
  }

  lemma GiveIs(s: B, b: nat, arena: seq<Heap.Block>)
    requires BInv(s, arena) && b in s.tags
    ensures var i, t := s.tags[b], Give(s, b).0;
            && 0 <= i < |s.pools| && Give(s, b).1 == OK
            && Inv(t.k) && TagsOk(t.tags, |s.pools|) && Only(s.k, t.k, s.pools[i].bpsem)
            && t == s.(pools := s.pools[i := s.pools[i].(list := [b] + s.pools[i].list)], tags := s.tags - {b},
                       k := t.k)
            && forall q :: 0 <= q < NPROC ==> GetOk(t.gets[q], |s.pools|)
  {
    hide Inv, ListOk, BlockFits, ArenaOk, Only, Signal, NoneShared;
    var i := s.tags[b];
    RoomFor(s, b, arena);
    SignalOnly(s.k, s.pools[i].bpsem);
  }

  /** There is room for the buffer, and for the signal. */
  lemma RoomFor(s: B, b: nat, arena: seq<Heap.Block>)
    requires BInv(s, arena) && b in s.tags
    ensures 0 <= s.tags[b] < |s.pools|
    ensures var pool := s.pools[s.tags[b]];
            |pool.list| < pool.num <= BP_MAXN && Live(s.k, pool.bpsem) && s.k.sems[pool.bpsem].count < MAXCOUNT
  {
    assert 0 <= s.tags[b] < |s.pools|;
    PoolIs(s, arena, s.tags[b]);
    InUse(s, arena, b, s.tags[b]);
    hide BInv, Inv, AllIn, Granted, InPool;
    var pool := s.pools[s.tags[b]];
    RoomLeft(pool.list, Carve(pool.block.addr, pool.bpsize + TAGSIZE, pool.num), b) by {
      OfPool(pool, b);
      forall x | x in pool.list
        ensures x in Carve(pool.block.addr, pool.bpsize + TAGSIZE, pool.num)
      {
        OfPool(pool, x);
      }
    }
  }

  lemma OfPool(pool: Pool, b: nat)
    requires InPool(pool, b)
    ensures b in Carve(pool.block.addr, pool.bpsize + TAGSIZE, pool.num)
  {
  }

  function Elems(l: seq<nat>): set<nat> {
    set x | x in l
  }

  lemma LastElem(l: seq<nat>)
    requires |l| > 0
    ensures Elems(l) == Elems(l[..|l| - 1]) + {l[|l| - 1]}
  {
    var m, x := l[..|l| - 1], l[|l| - 1];
    assert l == m + [x];
    assert forall y :: y in l <==> y in m || y == x;
  }

  lemma {:induction false} HowMany(l: seq<nat>)
    ensures |Elems(l)| <= |l| && (Once(l) ==> |Elems(l)| == |l|)
  {
    if |l| > 0 {
      var m := l[..|l| - 1];
      LastElem(l);
      HowMany(m);
      assert Once(l) ==> Once(m) && l[|l| - 1] !in m;
    }
  }

  /** A list without repetition, of things of m but not b, is shorter than m. */
  lemma RoomLeft(l: seq<nat>, m: seq<nat>, b: nat)
    requires Once(l) && b in m && b !in l && forall x :: x in l ==> x in m
    ensures |l| < |m|
  {
    HowMany(l);
    HowMany(m);
    assert Elems(l) + {b} <= Elems(m);
    Subset(Elems(l) + {b}, Elems(m));
  }

  lemma GiveHere(s: B, b: nat, arena: seq<Heap.Block>)
    requires BInv(s, arena) && b in s.tags && 0 <= s.tags[b] < |s.pools|
    ensures var i, t := s.tags[b], Give(s, b).0;
            SemOk(t.k, t.gets, t.pools[i], i) && ListOk(t.tags, t.pools[i], i)
  {
    hide BInv, Inv, BlockFits, AllIn, Granted, ListOk, In, InPool, SignalOne;
    Sizes(s, arena);
    var i, t := s.tags[b], Give(s, b).0;
    RoomFor(s, b, arena);
    PoolIs(s, arena, i);
    InUse(s, arena, b, i);
    var r, k := s.pools[i].bpsem, s.k;
    NotQueued(k, r);
    SignalEffect(k, r);
    QueueIs(k, r);
    SignalSide(k.lists[r], t.k.lists[r], k.sems[r], t.k.sems[r], s.gets, i, 0, false);
    GivenBack(s.tags, s.pools[i], i, b);
  }

  lemma QueueIs(k: K, r: nat)
    requires Inv(k) && Live0(k, r)
    ensures |k.lists[r]| == Waiting(k.sems[r]) && Once(k.lists[r]) && Procs(k.lists[r])
  {
    SemIs(k, r);
  }

  /** A buffer in use is free again. */
  lemma GivenBack(tags: map<nat, int>, pool: Pool, i: nat, b: nat)
    requires ListOk(tags, pool, i) && b in tags && tags[b] == i && b !in pool.list && |pool.list| < pool.num
    ensures ListOk(tags - {b}, pool.(list := [b] + pool.list), i)
  {
    var p := pool.(list := [b] + pool.list);
    assert forall x :: x in p.list <==> x == b || x in pool.list;
    assert forall x :: InPool(p, x) <==> InPool(pool, x);
  }

  // ---- mkbufpool ----

  lemma CarveOnce(a: nat, size: nat, n: nat)
    requires size > 0
    ensures Once(Carve(a, size, n))
  {
    forall i, j | 0 <= i < j < n
      ensures Carve(a, size, n)[i] != Carve(a, size, n)[j]
    {
      Product(i, j, size);
    }
  }

  lemma HeapIs(s: B, arena: seq<Heap.Block>)
    requires BInv(s, arena)
    ensures Heap.Coalesced(s.heap.free) && s.heap.total < Heap.TWO32 && HeapRuns.HeapOk(s.heap, arena)
    ensures forall x {:trigger Heap.Covered(s.heap.free, x)} :: Heap.Covered(s.heap.free, x) ==>
            s.minheap <= x <= s.maxheap
    ensures ArenaOk(s.heap, s.minheap, s.maxheap, arena)
  {
    hide Inv, SemOk, ListOk, BlockFits, TagsOk, Heap.Covered;
  }

  /** If it fails, nothing has changed. */
  lemma MkPoolFails(s: B, bufsiz: int, numbufs: int, arena: seq<Heap.Block>)
    requires BInv(s, arena) && MkPool(s, bufsiz, numbufs).1 == SYSERR
    ensures MkPool(s, bufsiz, numbufs).0 == s
  {
    hide BInv, Inv, Heap.GetMem, Heap.FreeMem, SemCreate, HeapRuns.HeapOk, ArenaOk, Heap.Covered, Heap.Coalesced;
    Sizes(s, arena);
    HeapIs(s, arena);
    if !BadPoolSize(s, bufsiz, numbufs) {
      var size := Words(bufsiz) + TAGSIZE;
      FitsWord(bufsiz, numbufs);
      Positive(numbufs, size);
      var (m, a) := Heap.GetMem(s.heap.free, numbufs * size);
      if a >= 0 {
        HeapLaws.FreeUndoesGet(s.heap.free, s.minheap, s.maxheap, numbufs * size);
        NoSem(s.k, numbufs);
        Returned(s.heap.total, Heap.RoundMb(numbufs * size));
      }
    }
  }

  lemma Positive(a: nat, b: nat)
    requires a > 0 && b > 0
    ensures a * b > 0
  {
  }

  lemma Returned(total: nat, n: nat)
    requires total < Heap.TWO32
    ensures ((total - n) % Heap.TWO32 + n) % Heap.TWO32 == total
  {
  }

  lemma NoSem(k: K, count: int)
    requires Sized(k)
    ensures SemCreate(k, count).1 == SYSERR ==> SemCreate(k, count).0 == k
  {
  }

  /** The memory of a new pool, and what remains of the heap. */
  lemma NewBlock(s: B, bufsiz: int, numbufs: int, arena: seq<Heap.Block>)
    requires BInv(s, arena) && MkPool(s, bufsiz, numbufs).1 != SYSERR
    ensures var t := MkPool(s, bufsiz, numbufs).0;
            && !BadPoolSize(s, bufsiz, numbufs)
            && var pool := t.pools[|s.pools|];
            && ArenaOk(t.heap, s.minheap, s.maxheap, arena) && s.heap.live <= t.heap.live
            && BlockFits(t.heap, pool) && pool.block !in s.heap.live
            && (forall x :: Heap.In(pool.block, x) ==> Heap.Covered(s.heap.free, x))
  {
    hide BInv, Inv, Heap.GetMem, Heap.FreeMem, SemCreate, ArenaOk, Heap.Covered, Words, BlockFits, Heap.RoundMb;
    Sizes(s, arena);
    HeapIs(s, arena);
    var size := Words(bufsiz) + TAGSIZE;
    FitsWord(bufsiz, numbufs);
    Positive(numbufs, size);
    NewMemory(s.heap, s.minheap, s.maxheap, arena, numbufs * size);
    WholeWords(bufsiz);
    FitsIn(MkPool(s, bufsiz, numbufs).0.heap, MkPool(s, bufsiz, numbufs).0.pools[|s.pools|]);
  }

  lemma WholeWords(n: nat)
    requires n >= BP_MINB
    ensures Words(n) % 4 == 0 && Words(n) >= BP_MINB
  {
  }

  lemma FitsIn(heap: HeapRuns.State, pool: Pool)
    requires 1 <= pool.num <= BP_MAXN && pool.bpsize % 4 == 0 && pool.bpsize >= BP_MINB
    requires pool.block in heap.live && pool.num * (pool.bpsize + TAGSIZE) <= pool.block.len
    ensures BlockFits(heap, pool)
  {
  }

  lemma NewMemory(heap: HeapRuns.State, lo: nat, hi: nat, arena: seq<Heap.Block>, n: nat)
    requires ArenaOk(heap, lo, hi, arena) && 0 < n <= Heap.MAXREQ && Heap.GetMem(heap.free, n).1 >= 0
    ensures var (m, a) := Heap.GetMem(heap.free, n);
            var block := Heap.Block(a, Heap.RoundMb(n));
            && ArenaOk(heap.(free := m, total := (heap.total - Heap.RoundMb(n)) % Heap.TWO32,
                             live := heap.live + {block}),
                       lo, hi, arena)
            && n <= block.len && block !in heap.live
            && (forall x :: Heap.In(block, x) ==> Heap.Covered(heap.free, x))
  {
    hide Heap.GetMem, HeapRuns.HeapOk, Heap.Covered, Heap.Coalesced, Heap.BlockOk, Heap.RoundMb;
    var op := HeapRuns.DoGetMem(n);
    HeapRuns.GiveOk(heap, op, lo, hi, arena);
    CoalescedHeap(heap, arena);
    HeapRuns.GivenOk(heap, op);
    WasFree(heap, arena, Heap.Block(Heap.GetMem(heap.free, n).1, Heap.RoundMb(n)));
  }

  lemma CoalescedHeap(heap: HeapRuns.State, arena: seq<Heap.Block>)
    requires HeapRuns.HeapOk(heap, arena)
    ensures Heap.Coalesced(heap.free)
  {
  }

  /** Free memory is not in use. */
  lemma WasFree(heap: HeapRuns.State, arena: seq<Heap.Block>, b: Heap.Block)
    requires HeapRuns.HeapOk(heap, arena) && Heap.BlockOk(b) && Heap.Free(heap.free, b)
    ensures b !in heap.live
  {
    assert Heap.In(b, b.addr);
  }

  /** Nobody is on the new pool. */
  lemma NobodyThere(gets: seq<Pend>, n: nat)
    requires |gets| == NPROC && forall q :: 0 <= q < NPROC ==> GetOk(gets[q], n)
    ensures forall l: seq<nat> | |l| == 0 :: AllIn(gets, l, n, 0, false) && Granted(gets, l, n, 0, false) == {}
  {
  }

  lemma NewList(s: B, bufsiz: int, numbufs: int, arena: seq<Heap.Block>)
    requires BInv(s, arena) && MkPool(s, bufsiz, numbufs).1 != SYSERR
    ensures var t := MkPool(s, bufsiz, numbufs).0;
            |t.pools| == |s.pools| + 1 && ListOk(s.tags, t.pools[|s.pools|], |s.pools|)
  {
    hide BInv, Inv, Heap.GetMem, Heap.FreeMem, SemCreate, HeapRuns.HeapOk, Heap.Covered, Heap.Coalesced, ArenaOk,
         TagsOk;
    Sizes(s, arena);
    var t := MkPool(s, bufsiz, numbufs).0;
    NewBlock(s, bufsiz, numbufs, arena);
    var pool := t.pools[|s.pools|];
    CarveOnce(pool.block.addr, pool.bpsize + TAGSIZE, pool.num);
    TagsAre(s, arena);
    forall b | b in pool.list
      ensures b !in s.tags
    {
      InBlock(t.heap, pool, b, b);
      NotUsed(s, arena, b);
    }
  }

  lemma TagsAre(s: B, arena: seq<Heap.Block>)
    requires BInv(s, arena)
    ensures forall b :: b in s.tags ==> 0 <= s.tags[b] < |s.pools|
  {
  }

  /** What is free memory is not a buffer in use. */
  lemma NotUsed(s: B, arena: seq<Heap.Block>, b: nat)
    requires BInv(s, arena) && Heap.Covered(s.heap.free, b)
    ensures b !in s.tags
  {
    hide BInv, HeapRuns.HeapOk, Heap.Covered, BlockFits, InPool;
    if b in s.tags {
      TagsAre(s, arena);
      InUse(s, arena, b, s.tags[b]);
      PoolIs(s, arena, s.tags[b]);
      InBlock(s.heap, s.pools[s.tags[b]], b, b);
      HeapIs(s, arena);
      LiveBlock(s, arena, s.tags[b]);
      BlocksApart(s.heap, arena, s.pools[s.tags[b]].block, s.pools[s.tags[b]].block, b);
      assert false;
    }
  }

  lemma LiveBlock(s: B, arena: seq<Heap.Block>, i: nat)
    requires BInv(s, arena) && i < |s.pools|
    ensures s.pools[i].block in s.heap.live
  {
    PoolIs(s, arena, i);
  }

  lemma NewSems(s: B, bufsiz: int, numbufs: int, arena: seq<Heap.Block>)
    requires BInv(s, arena) && MkPool(s, bufsiz, numbufs).1 != SYSERR
    ensures var t := MkPool(s, bufsiz, numbufs).0;
            && Inv(t.k) && |t.pools| == |s.pools| + 1 && SemOk(t.k, t.gets, t.pools[|s.pools|], |s.pools|)
            && forall i :: 0 <= i < |s.pools| ==>
                 t.pools[i] == s.pools[i] && SemOk(t.k, t.gets, s.pools[i], i)
                 && t.pools[|s.pools|].bpsem != s.pools[i].bpsem
  {
    hide Inv, Heap.GetMem, Heap.FreeMem, SemCreate, ArenaOk, TagsOk, AllIn, Granted, ListOk, BlockFits, GetOk;
    NewSem(s.k, numbufs);
    NobodyThere(s.gets, |s.pools|);
    var t := MkPool(s, bufsiz, numbufs).0;
    forall i | 0 <= i < |s.pools|
      ensures SemOk(t.k, t.gets, s.pools[i], i) && t.pools[|s.pools|].bpsem != s.pools[i].bpsem
    {
      assert SemOk(s.k, s.gets, s.pools[i], i);
    }
  }

  lemma MkPoolKeeps(s: B, bufsiz: int, numbufs: int, arena: seq<Heap.Block>)
    requires BInv(s, arena)
    ensures BInv(MkPool(s, bufsiz, numbufs).0, arena)
  {
    hide BInv, Inv, Heap.GetMem, Heap.FreeMem, SemCreate, ArenaOk, TagsOk, ListOk, BlockFits, SemOk, Carve;
    Sizes(s, arena);
    if MkPool(s, bufsiz, numbufs).1 == SYSERR {
      MkPoolFails(s, bufsiz, numbufs, arena);
      return;
    }
    var t := MkPool(s, bufsiz, numbufs).0;
    NewBlock(s, bufsiz, numbufs, arena);
    NewList(s, bufsiz, numbufs, arena);
    NewSems(s, bufsiz, numbufs, arena);
    Extended(s, t, arena);
  }

  lemma Extended(s: B, t: B, arena: seq<Heap.Block>)
    requires BInv(s, arena) && BSized(t) && Inv(t.k) && |s.pools| < NBPOOLS && |t.pools| == |s.pools| + 1
    requires t == s.(k := t.k, heap := t.heap, pools := t.pools) && s.heap.live <= t.heap.live
    requires forall i :: 0 <= i < |s.pools| ==>
               t.pools[i] == s.pools[i] && SemOk(t.k, t.gets, s.pools[i], i)
               && t.pools[|s.pools|].bpsem != s.pools[i].bpsem
    requires var pool, n := t.pools[|s.pools|], |s.pools|;
             SemOk(t.k, t.gets, pool, n) && ListOk(t.tags, pool, n) && BlockFits(t.heap, pool)
             && pool.block !in s.heap.live && ArenaOk(t.heap, t.minheap, t.maxheap, arena)
    ensures BInv(t, arena)
  {
    hide Inv, SemOk, ListOk, ArenaOk;
    forall i | 0 <= i < |s.pools|
      ensures BlockFits(t.heap, t.pools[i]) && t.pools[i].block in s.heap.live
    {
      assert BlockFits(s.heap, s.pools[i]);
    }
  }
}
