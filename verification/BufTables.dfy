/** Buffer pools as the source has them: a table of pools, the first word of every buffer, which
    holds a link while the buffer is free and the number of its pool while it is in use, and the
    tables of the process manager and the heap. Each method does to them what the function for
    it in BufSpec does to the state as a value. */
module BufTables {
  import opened KernelQueues
  import opened KernelSpec
  import opened KernelInv
  import opened KernelCalls
  import opened KernelProcs
  import opened KernelRuns
  import opened PortSpec
  import opened PortInv
  import opened PortCalls
  import opened PortKeeps
  import opened BufSpec
  import opened BufInv
  import opened BufCalls
  import opened BufRuns
  import Heap = HeapSpec
  import HeapRuns
  import HeapLaws
  import HeapTables
  import Tables = KernelTables

  const NULL := Heap.NULL

  datatype Bpentry = Bpentry(bpnext: nat, bpsem: int, bpsize: nat)

  datatype Book = Book(list: seq<nat>, block: Heap.Block, num: nat)

  function PoolOf(e: Bpentry, b: Book): Pool {
    Pool(e.bpsem, e.bpsize, b.list, b.block, b.num)
  }

  ghost function PoolsOf(buftab: seq<Bpentry>, book: seq<Book>): (r: seq<Pool>)
    requires |book| == |buftab|
    ensures |r| == |buftab| && forall i :: 0 <= i < |r| ==> r[i] == PoolOf(buftab[i], book[i])
  {
    seq(|buftab|, i requires 0 <= i < |buftab| => PoolOf(buftab[i], book[i]))
  }

  ghost function TagsOf(mem: map<nat, int>, used: set<nat>): (r: map<nat, int>)
    requires used <= mem.Keys
    ensures r.Keys == used
  {
    map b | b in used :: mem[b]
  }

  lemma PoolsOfSet(buftab: seq<Bpentry>, book: seq<Book>, i: nat, e: Bpentry, b: Book)
    requires |book| == |buftab| && i < |book|
    ensures PoolsOf(buftab[i := e], book[i := b]) == PoolsOf(buftab, book)[i := PoolOf(e, b)]
  {
  }

  lemma TagsOfSet(mem: map<nat, int>, used: set<nat>, b: nat, x: int)
    requires used <= mem.Keys
    ensures TagsOf(mem[b := x], used + {b}) == TagsOf(mem, used)[b := x]
    ensures TagsOf(mem[b := x], used - {b}) == TagsOf(mem, used) - {b}
  {
  }

  // ---- chains of buffers ----

  /** The one after the j-th. */
  function Next(l: seq<nat>, j: nat): nat {
    if j + 1 < |l| then l[j + 1] else NULL
  }

  function First(l: seq<nat>): nat {
    if |l| > 0 then l[0] else NULL
  }

  /** The word of every buffer on the list holds the address of the next. */
  ghost predicate Chained(mem: map<nat, int>, l: seq<nat>) {
    forall j :: 0 <= j < |l| ==> l[j] in mem && mem[l[j]] == Next(l, j)
  }

  lemma ChainedKept(mem: map<nat, int>, t: map<nat, int>, l: seq<nat>)
    requires Chained(mem, l) && forall b :: b in l && b in mem ==> b in t && t[b] == mem[b]
    ensures Chained(t, l)
  {
    assert forall j :: 0 <= j < |l| ==> l[j] in l;
  }

  lemma ChainedRest(mem: map<nat, int>, l: seq<nat>)
    requires Chained(mem, l) && |l| > 0
    ensures l[0] in mem && mem[l[0]] == First(l[1..]) && Chained(mem, l[1..])
  {
    forall j | 0 <= j < |l[1..]|
      ensures l[1..][j] in mem && mem[l[1..][j]] == Next(l[1..], j)
    {
      assert l[1..][j] == l[j + 1];
    }
  }

  lemma ChainedFront(mem: map<nat, int>, l: seq<nat>, b: nat)
    requires Chained(mem, l) && b !in l
    ensures Chained(mem[b := First(l)], [b] + l)
  {
    var m := [b] + l;
    forall j | 0 <= j < |m|
      ensures m[j] in mem[b := First(l)] && mem[b := First(l)][m[j]] == Next(m, j)
    {
      assert j > 0 ==> m[j] == l[j - 1] && l[j - 1] in l;
    }
  }

  /** The table, the words of the buffers, and which buffers are free and in use. */
  ghost predicate ListedIn(buftab: seq<Bpentry>, mem: map<nat, int>, book: seq<Book>, used: set<nat>) {
    && |book| == |buftab| && used <= mem.Keys
    && forall i :: 0 <= i < |book| ==> Chained(mem, book[i].list) && buftab[i].bpnext == First(book[i].list)
  }

  ghost predicate NotElsewhere(book: seq<Book>, i: nat, b: nat) {
    forall j :: 0 <= j < |book| && j != i ==> b !in book[j].list
  }

  /** getbuf: the first buffer of pool i is tagged. */
  lemma PopOk(buftab: seq<Bpentry>, mem: map<nat, int>, book: seq<Book>, used: set<nat>, i: nat)
    requires ListedIn(buftab, mem, book, used) && i < |book| && |book[i].list| > 0 && Once(book[i].list)
    requires NotElsewhere(book, i, book[i].list[0])
    ensures var b, l := book[i].list[0], book[i].list[1..];
            && b in mem && buftab[i].bpnext == b && mem[b] == First(l) && mem[b] >= 0
            && ListedIn(buftab[i := buftab[i].(bpnext := mem[b])], mem[b := i], book[i := book[i].(list := l)],
                        used + {b})
            && PoolsOf(buftab[i := buftab[i].(bpnext := mem[b])], book[i := book[i].(list := l)])
               == PoolsOf(buftab, book)[i := PoolOf(buftab[i], book[i]).(list := l)]
            && TagsOf(mem[b := i], used + {b}) == TagsOf(mem, used)[b := i]
  {
    var b, l := book[i].list[0], book[i].list[1..];
    assert b in mem && mem[b] == First(l) by {
      ChainedRest(mem, book[i].list);
    }
    PoolsOfSet(buftab, book, i, buftab[i].(bpnext := mem[b]), book[i].(list := l));
    TagsOfSet(mem, used, b, i);
    ChainedRest(mem, book[i].list);
    ChainedKept(mem, mem[b := i], l);
    forall j | 0 <= j < |book| && j != i
      ensures Chained(mem[b := i], book[j].list)
    {
      ChainedKept(mem, mem[b := i], book[j].list);
    }
  }

  /** freebuf: buffer b goes to the front of pool i. */
  lemma PushOk(buftab: seq<Bpentry>, mem: map<nat, int>, book: seq<Book>, used: set<nat>, i: nat, b: nat)
    requires ListedIn(buftab, mem, book, used) && i < |book| && b in used && b !in book[i].list
    requires NotElsewhere(book, i, b)
    ensures ListedIn(buftab[i := buftab[i].(bpnext := b)], mem[b := buftab[i].bpnext],
                     book[i := book[i].(list := [b] + book[i].list)], used - {b})
    ensures PoolsOf(buftab[i := buftab[i].(bpnext := b)], book[i := book[i].(list := [b] + book[i].list)])
            == PoolsOf(buftab, book)[i := PoolOf(buftab[i], book[i]).(list := [b] + book[i].list)]
    ensures TagsOf(mem[b := buftab[i].bpnext], used - {b}) == TagsOf(mem, used) - {b}
  {
    PoolsOfSet(buftab, book, i, buftab[i].(bpnext := b), book[i].(list := [b] + book[i].list));
    TagsOfSet(mem, used, b, buftab[i].bpnext);
    ChainedFront(mem, book[i].list, b);
    forall j | 0 <= j < |book| && j != i
      ensures Chained(mem[b := buftab[i].bpnext], book[j].list)
    {
      ChainedKept(mem, mem[b := buftab[i].bpnext], book[j].list);
    }
  }

  /** The first k buffers of l are linked, and no others changed. */
  ghost predicate Linking(was: map<nat, int>, mem: map<nat, int>, l: seq<nat>, k: nat) {
    && (forall j :: 0 <= j < k && j < |l| ==> l[j] in mem && mem[l[j]] == Next(l, j))
    && (forall x :: x in was ==> x in mem && (x !in l ==> mem[x] == was[x]))
  }

  lemma NoneLinked(mem: map<nat, int>, l: seq<nat>)
    ensures Linking(mem, mem, l, 0)
  {
  }

  lemma LinkOne(was: map<nat, int>, mem: map<nat, int>, l: seq<nat>, k: nat)
    requires Linking(was, mem, l, k) && Once(l) && k < |l|
    ensures Linking(was, mem[l[k] := Next(l, k)], l, k + 1)
    ensures Next(l, k) == if k + 1 < |l| then l[k + 1] else NULL
  {
    hide Next;
    assert Next(l, k) == if k + 1 < |l| then l[k + 1] else NULL by {
      NextIs(l, k);
    }
    assert l[k] in l;
  }

  lemma NextIs(l: seq<nat>, k: nat)
    ensures Next(l, k) == if k + 1 < |l| then l[k + 1] else NULL
  {
  }

  lemma AllLinked(was: map<nat, int>, mem: map<nat, int>, l: seq<nat>)
    requires Linking(was, mem, l, |l|)
    ensures Chained(mem, l) && was.Keys <= mem.Keys
    ensures forall x :: x in was && x !in l ==> x in mem && mem[x] == was[x]
  {
  }

  /** mkbufpool: one more pool, of buffers that were no buffers before. */
  lemma MakeOk(buftab: seq<Bpentry>, mem: map<nat, int>, t: map<nat, int>, book: seq<Book>, used: set<nat>, e: Bpentry,
               b: Book)
    requires ListedIn(buftab, mem, book, used) && Chained(t, b.list) && e.bpnext == First(b.list)
    requires forall x :: x in mem && x !in b.list ==> x in t && t[x] == mem[x]
    requires forall x :: x in b.list ==> x !in used && forall j :: 0 <= j < |book| ==> x !in book[j].list
    ensures ListedIn(buftab + [e], t, book + [b], used)
    ensures PoolsOf(buftab + [e], book + [b]) == PoolsOf(buftab, book) + [PoolOf(e, b)]
    ensures TagsOf(t, used) == TagsOf(mem, used)
  {
    forall j | 0 <= j < |book|
      ensures Chained(t, book[j].list)
    {
      ChainedKept(mem, t, book[j].list);
    }
  }

  lemma KernelOk(s: B, arena: seq<Heap.Block>)
    requires BInv(s, arena)
    ensures Inv(s.k) && BSized(s)
  {
  }

  /** A buffer lies on the heap. */
  lemma BufferAbove(s: B, arena: seq<Heap.Block>, i: nat, b: nat)
    requires BInv(s, arena) && i < |s.pools| && InPool(s.pools[i], b)
    ensures b >= s.minheap && |s.pools| <= NBPOOLS
  {
    PoolIs(s, arena, i);
    InBlock(s.heap, s.pools[i], b, b);
    HeapIs(s, arena);
    hide BInv, Inv, InPool, SemOk, ListOk;
    assert HeapRuns.LiveAt(s.heap.live, b);
    assert Heap.Covered(arena, b);
  }

  /** A buffer of pool i is on no other list. */
  lemma Unshared(s: B, arena: seq<Heap.Block>, i: nat, b: nat)
    requires BInv(s, arena) && i < |s.pools| && InPool(s.pools[i], b)
    ensures forall j :: 0 <= j < |s.pools| && j != i ==> b !in s.pools[j].list
  {
    hide BInv, InPool;
    forall j | 0 <= j < |s.pools| && j != i
      ensures b !in s.pools[j].list
    {
      PoolIs(s, arena, j);
      NotThere(s, arena, i, j, b);
    }
  }

  class Pools {
    const os: Tables.Kernel
    const heap: HeapTables.Heap
    var buftab: seq<Bpentry>
    var mem: map<nat, int>
    ghost var book: seq<Book>
    ghost var used: set<nat>
    ghost var live: set<Heap.Block>
    ghost var gets: seq<Pend>

    /** The tables of the process manager. */
    ghost function System(): set<object> {
      {os, os.q, os.q.qkey, os.q.qnext, os.q.qprev, os.proctab, os.semtab}
    }

    ghost function Repr(): set<object> {
      System() + {this, heap}
    }

    ghost predicate Listed()
      reads `buftab, `mem, `book, `used
    {
      ListedIn(buftab, mem, book, used)
    }

    ghost predicate Shape()
      reads Repr()
    {
      && os.Shape() && heap.Shape() && |gets| == NPROC && Listed() && heap.minheap > 0
      && this as object !in System() && heap as object !in System()
    }

    ghost function Table(): (r: seq<Pool>)
      reads `buftab, `book
      requires |book| == |buftab|
      ensures |r| == |buftab|
    {
      PoolsOf(buftab, book)
    }

    ghost function Tags(): (r: map<nat, int>)
      reads `mem, `used
      requires used <= mem.Keys
      ensures r.Keys == used
    {
      TagsOf(mem, used)
    }

    /** The tables as a value. */
    ghost function S(): (s: B)
      reads Repr()
      requires Shape()
      ensures BSized(s)
    {
      B(os.S(), Table(), HeapRuns.State(heap.blocks, live, heap.memlist.mlength), heap.minheap, heap.maxheap, gets,
        Tags())
    }

    lemma Facing()
      requires Shape()
      ensures var s := S();
              && s.k == os.S() && s.pools == Table() && s.gets == gets && s.tags == Tags() && BSized(s)
              && s.heap == HeapRuns.State(heap.blocks, live, heap.memlist.mlength)
              && s.minheap == heap.minheap && s.maxheap == heap.maxheap
              && s.k.currpid == os.currpid && s.k.ctx == os.ctx && |gets| == NPROC
              && Listed() && |book| == |buftab| && used <= mem.Keys
              && forall i :: 0 <= i < |buftab| ==> s.pools[i] == PoolOf(buftab[i], book[i])
    {
      os.Facing();
    }

    /** The system is started, with this free memory, and then bufinit. */
    constructor (arena: seq<Heap.Block>, total: nat, lo: nat, hi: nat)
      requires Arena(arena, total, lo, hi) && lo > 0
      ensures Shape() && S() == BBooted(arena, total, lo, hi) && fresh(Repr())
    {
      hide Tables.Kernel.S, Tables.Kernel.Shape, HeapTables.Heap.Shape, Tables.Booted, Heap.Coalesced, Heap.Covered;
      os := new Tables.Kernel();
      heap := new HeapTables.Heap(lo, hi, arena, total);
      buftab, mem, book, used, live, gets := [], map[], [], {}, {}, seq(NPROC, _ => Idle);
    }

    // ---- the parts of calls ----

    method SysWait(sem: int) returns (r: int)
      requires Shape() && Inv(S().k) && os.ctx[os.currpid] == Nothing
      requires Live(S().k, sem) ==> CanBlock(S().k) || S().k.sems[sem].count > 0
      modifies System()
      ensures Shape() && S() == old(S()).(k := Wait(old(S()).k, sem).0)
    {
      hide Inv, Tables.Kernel.S, Tables.Kernel.Shape, HeapTables.Heap.Shape, Wait, Table, Tags, Listed, CanBlock;
      os.Facing();
      r := os.Wait(sem);
    }

    method SysSignal(sem: int) returns (r: int)
      requires Shape() && Inv(S().k)
      modifies System()
      ensures Shape() && S() == old(S()).(k := Signal(old(S()).k, sem).0)
    {
      hide Inv, Tables.Kernel.S, Tables.Kernel.Shape, HeapTables.Heap.Shape, Signal, Table, Tags, Listed;
      r := os.Signal(sem);
    }

    method SysSemCreate(count: int) returns (sem: int)
      requires Shape()
      modifies System()
      ensures Shape() && (S(), sem) == (old(S()).(k := SemCreate(old(S()).k, count).0), SemCreate(old(S()).k, count).1)
    {
      hide Inv, Tables.Kernel.S, Tables.Kernel.Shape, HeapTables.Heap.Shape, SemCreate, Table, Tags, Listed;
      sem := os.SemCreate(count);
    }

    ghost method Note(c: Pend)
      requires Shape()
      modifies `gets
      ensures Shape() && S() == old(S()).(gets := old(S()).gets[old(S()).k.currpid := c])
    {
      hide Tables.Kernel.S, Tables.Kernel.Shape, HeapTables.Heap.Shape, Tags;
      Facing();
      gets := gets[os.currpid := c];
      Facing();
    }

    // ---- getbuf ----

    /** getbuf, up to the point where it may wait; done is when it has failed. */
    method GetBuf(poolid: int, ghost arena: seq<Heap.Block>) returns (done: bool)
      requires Shape() && BInv(S(), arena) && MayGet(S(), poolid)
      modifies System(), `gets
      ensures Shape() && S() == BeginGet(old(S()), poolid) && done == BadPool(old(S()), poolid)
    {
      hide Tables.Kernel.S, Tables.Kernel.Shape, HeapTables.Heap.Shape, Wait, Inv, BInv, S, Listed, Shape, CanBlock;
      Facing();
      KernelOk(S(), arena);
      if poolid < 0 || poolid >= |buftab| {
        return true;
      }
      Note(Getting(poolid));
      Facing();
      var r := SysWait(buftab[poolid].bpsem);
      done := false;
    }

    /** getbuf from there on: the address behind the tag of the first free buffer. */
    method GotBuf(poolid: nat, ghost arena: seq<Heap.Block>) returns (buf: nat)
      requires Shape() && BInv(S(), arena) && GoesOn(S()) && S().gets[S().k.currpid].port == poolid
      modifies this
      ensures Shape() && S() == EndGet(old(S())).0 && buf == Got(old(S())) + TAGSIZE
    {
      hide Tables.Kernel.S, Tables.Kernel.Shape, HeapTables.Heap.Shape, Inv, BInv, ListedIn, PoolsOf, TagsOf;
      Facing();
      Popping(arena);
      PopOk(buftab, mem, book, used, poolid);
      var bufptr := buftab[poolid].bpnext;
      buftab := buftab[poolid := buftab[poolid].(bpnext := mem[bufptr])];
      book := book[poolid := book[poolid].(list := book[poolid].list[1..])];
      mem := mem[bufptr := poolid];
      used := used + {bufptr};
      Facing();
      Note(Idle);
      buf := TAGSIZE + bufptr;
    }

    lemma Popping(arena: seq<Heap.Block>)
      requires Shape() && BInv(S(), arena) && GoesOn(S())
      ensures var i := S().gets[S().k.currpid].port;
              && i < |book| && |book[i].list| > 0 && Once(book[i].list) && Got(S()) == book[i].list[0]
              && NotElsewhere(book, i, book[i].list[0]) && Got(S()) !in used
    {
      hide Tables.Kernel.S, Tables.Kernel.Shape, HeapTables.Heap.Shape, Inv, BInv, ListedIn, InPool;
      Facing();
      NeverNull(S(), arena);
      PoolIs(S(), arena, S().gets[S().k.currpid].port);
      Unshared(S(), arena, S().gets[S().k.currpid].port, Got(S()));
    }

    // ---- freebuf ----

    /** The word in front of the buffer is the number of its pool if it is in use; with any other
        number the call fails. */
    method FreeBuf(bufaddr: nat, ghost arena: seq<Heap.Block>) returns (r: int)
      requires Shape() && BInv(S(), arena) && os.ctx[os.currpid] == Nothing
      requires bufaddr >= TAGSIZE && bufaddr - TAGSIZE in mem
      requires 0 <= mem[bufaddr - TAGSIZE] < |buftab| ==> bufaddr - TAGSIZE in used
      modifies this, System()
      ensures Shape()
      ensures bufaddr - TAGSIZE in old(used) ==> (S(), r) == Give(old(S()), bufaddr - TAGSIZE)
      ensures bufaddr - TAGSIZE !in old(used) ==> (S(), r) == (old(S()), SYSERR)
    {
      hide Tables.Kernel.S, Tables.Kernel.Shape, HeapTables.Heap.Shape, Inv, BInv, ListedIn, Signal, PoolsOf, TagsOf;
      Facing();
      var block := bufaddr - TAGSIZE;
      if block in used {
        Giving(arena, block);
        GiveKeeps(S(), block, arena);
      }
      var poolid := mem[block];
      if poolid < 0 || poolid >= |buftab| {
        return SYSERR;
      }
      PushOk(buftab, mem, book, used, poolid, block);
      mem := mem[block := buftab[poolid].bpnext];
      buftab := buftab[poolid := buftab[poolid].(bpnext := block)];
      book := book[poolid := book[poolid].(list := [block] + book[poolid].list)];
      used := used - {block};
      Facing();
      var _ := SysSignal(buftab[poolid].bpsem);
      r := OK;
    }

    /** The word of a free buffer is a number of a pool if and only if it is the last of its list: so
        freeing it a second time is refused unless it is. */
    lemma SecondFreeBuf(arena: seq<Heap.Block>, i: nat, j: nat)
      requires Shape() && BInv(S(), arena) && heap.minheap >= NBPOOLS && i < |book| && j < |book[i].list|
      ensures var b := book[i].list[j];
              b in mem && (0 <= mem[b] < |buftab| <==> j == |book[i].list| - 1)
    {
      hide Tables.Kernel.S, Tables.Kernel.Shape, HeapTables.Heap.Shape, Inv, BInv, InPool;
      Facing();
      PoolIs(S(), arena, i);
      assert Chained(mem, book[i].list);
      if j + 1 < |book[i].list| {
        assert book[i].list[j + 1] in book[i].list;
        BufferAbove(S(), arena, i, book[i].list[j + 1]);
      }
    }

    lemma Giving(arena: seq<Heap.Block>, b: nat)
      requires Shape() && BInv(S(), arena) && b in S().tags
      ensures Inv(S().k) && b in mem && b in used && S().tags[b] == mem[b] && ListedIn(buftab, mem, book, used)
      ensures 0 <= mem[b] < |book| && b !in book[mem[b]].list && NotElsewhere(book, mem[b], b)
    {
      hide Tables.Kernel.S, Tables.Kernel.Shape, HeapTables.Heap.Shape, Inv, BInv, Chained;
      Facing();
      KernelOk(S(), arena);
      TagsAre(S(), arena);
      InUse(S(), arena, b, mem[b]);
      Unshared(S(), arena, mem[b], b);
    }

    // ---- mkbufpool ----

    /** The buffers are linked, one to the one behind it. */
    method Link(buf: nat, size: nat, n: nat)
      requires size > 0 && n > 0
      modifies `mem
      ensures Chained(mem, Carve(buf, size, n))
      ensures forall x :: x in old(mem) && x !in Carve(buf, size, n) ==> x in mem && mem[x] == old(mem)[x]
      ensures old(mem).Keys <= mem.Keys
    {
      hide Carve, Next, Linking, Chained;
      ghost var l, was := Carve(buf, size, n), mem;
      CarveOnce(buf, size, n);
      CarveStep(buf, size, n);
      var b, k := buf, n - 1;
      NoneLinked(mem, l);
      while k > 0
        invariant 0 <= k < n && b == l[n - 1 - k]
        invariant Linking(was, mem, l, n - 1 - k)
      {
        LinkOne(was, mem, l, n - 1 - k);
        mem := mem[b := b + size];
        b := b + size;
        k := k - 1;
      }
      LinkOne(was, mem, l, n - 1);
      mem := mem[b := NULL];
      AllLinked(was, mem, l);
    }

    /** One more entry, for the buffers that begin at buf. */
    method AddPool(buf: nat, sem: int, size: nat, numbufs: nat, ghost block: Heap.Block)
      requires Shape() && numbufs > 0
      requires forall x :: x in Carve(buf, size + TAGSIZE, numbufs) ==>
                 x !in S().tags && forall j :: 0 <= j < |S().pools| ==> x !in S().pools[j].list
      modifies `buftab, `mem, `book, `live
      ensures Shape()
      ensures var s, pool := old(S()), Pool(sem, size, Carve(buf, size + TAGSIZE, numbufs), block, numbufs);
              S() == s.(pools := s.pools + [pool], heap := s.heap.(live := s.heap.live + {block}))
    {
      hide Tables.Kernel.S, Tables.Kernel.Shape, HeapTables.Heap.Shape, ListedIn, PoolsOf, TagsOf, Carve, Chained;
      Facing();
      ghost var words, b := mem, Book(Carve(buf, size + TAGSIZE, numbufs), block, numbufs);
      CarveStep(buf, size + TAGSIZE, numbufs);
      Link(buf, size + TAGSIZE, numbufs);
      MakeOk(buftab, words, mem, book, used, Bpentry(buf, sem, size), b);
      buftab := buftab + [Bpentry(buf, sem, size)];
      book := book + [b];
      live := live + {block};
      Facing();
    }

    method MkBufPool(bufsiz: int, numbufs: int, ghost arena: seq<Heap.Block>) returns (r: int)
      requires Shape() && BInv(S(), arena)
      modifies this, heap, System()
      ensures Shape() && (S(), r) == MkPool(old(S()), bufsiz, numbufs)
    {
      hide Tables.Kernel.S, Tables.Kernel.Shape, HeapTables.Heap.Shape, Inv, BInv, ListedIn, PoolsOf, TagsOf, Carve,
        Heap.GetMem, Heap.FreeMem, SemCreate, Heap.RoundMb;
      Facing();
      if bufsiz < BP_MINB || bufsiz > BP_MAXB || numbufs < 1 || numbufs > BP_MAXN || |buftab| >= NBPOOLS {
        return SYSERR;
      }
      ghost var was := S();
      Making(was, bufsiz, numbufs, arena);
      var size := (bufsiz + 3) / 4 * 4;
      assert size == Words(bufsiz);
      var buf := heap.GetMem(numbufs * (size + TAGSIZE));
      if buf == SYSERR {
        return SYSERR;
      }
      var sem := SysSemCreate(numbufs);
      if sem == SYSERR {
        var _ := heap.FreeMem(buf, numbufs * (size + TAGSIZE));
        return SYSERR;
      }
      r := |buftab|;
      AddPool(buf, sem, size, numbufs, Heap.Block(buf, Heap.RoundMb(numbufs * (size + TAGSIZE))));
    }
  }

  lemma CarveStep(a: nat, size: nat, n: nat)
    requires n > 0
    ensures Carve(a, size, n)[0] == a
    ensures forall j :: 0 <= j < n - 1 ==> Carve(a, size, n)[j + 1] == Carve(a, size, n)[j] + size
  {
    forall j | 0 <= j < n - 1
      ensures a + (j + 1) * size == a + j * size + size
    {
    }
  }

  /** What mkbufpool needs to know. */
  lemma Making(s: B, bufsiz: int, numbufs: int, arena: seq<Heap.Block>)
    requires BInv(s, arena) && BSized(s) && !BadPoolSize(s, bufsiz, numbufs)
    ensures Inv(s.k)
    ensures var size := Words(bufsiz) + TAGSIZE;
            var n := numbufs * size;
            && 0 < n < Heap.MAXREQ
            && (Heap.GetMem(s.heap.free, n).1 == SYSERR ==> Heap.GetMem(s.heap.free, n).0 == s.heap.free)
            && (var a := Heap.GetMem(s.heap.free, n).1;
                a != SYSERR ==>
                  && Heap.FreeMem(Heap.GetMem(s.heap.free, n).0, s.minheap, s.maxheap, a, n).1 != SYSERR
                  && a > 0 && Heap.RoundMb(n) > 0 && a + Heap.RoundMb(n) < Heap.TWO32
                  && (SemCreate(s.k, numbufs).1 != SYSERR ==>
                        forall x :: x in Carve(a, size, numbufs) ==>
                          x !in s.tags && forall j :: 0 <= j < |s.pools| ==> x !in s.pools[j].list))
  {
    hide BInv, Inv, Heap.GetMem, SemCreate, HeapRuns.HeapOk, Heap.Coalesced, Carve;
    KernelOk(s, arena);
    var size := Words(bufsiz) + TAGSIZE;
    FitsWord(bufsiz, numbufs);
    Positive(numbufs, size);
    var n := numbufs * size;
    var a := Heap.GetMem(s.heap.free, n).1;
    HeapIs(s, arena);
    HeapRuns.GivenOk(s.heap, HeapRuns.DoGetMem(n));
    SomeWhere(s.heap.free, n);
    if a != SYSERR {
      HeapLaws.FreeUndoesGet(s.heap.free, s.minheap, s.maxheap, n);
    }
    if a != SYSERR && SemCreate(s.k, numbufs).1 != SYSERR {
      var t := MkPool(s, bufsiz, numbufs).0;
      MkPoolKeeps(s, bufsiz, numbufs, arena);
      PoolIs(t, arena, |s.pools|);
      var pool := t.pools[|s.pools|];
      assert pool.list == Carve(a, size, numbufs) == Carve(pool.block.addr, pool.bpsize + TAGSIZE, pool.num);
      forall x | x in Carve(a, size, numbufs)
        ensures x !in s.tags && forall j :: 0 <= j < |s.pools| ==> x !in s.pools[j].list
      {
        Unshared(t, arena, |s.pools|, x);
        assert x in pool.list && x !in t.tags;
        forall j | 0 <= j < |s.pools|
          ensures x !in s.pools[j].list
        {
          assert t.pools[j] == s.pools[j];
        }
      }
    }
  }

  lemma SomeWhere(l: seq<Heap.Block>, n: nat)
    requires n < Heap.TWO32
    ensures Heap.GetMem(l, n).1 == SYSERR || Heap.GetMem(l, n).1 >= 0
    ensures Heap.GetMem(l, n).1 == SYSERR ==> Heap.GetMem(l, n).0 == l
  {
  }
}
