/** What users of buffers may rely on: what the calls answer and do, and which buffer is got. */
module BufLaws {
  import opened KernelQueues
  import opened KernelSpec
  import opened KernelInv
  import opened KernelRuns
  import opened KernelAnswers
  import opened PortSpec
  import opened BufSpec
  import opened BufInv
  import opened BufCalls
  import opened BufRuns
  import Heap = HeapSpec
  import HeapRuns
  import HeapFit

  // ---- the calls ----

  /** getbuf is refused for what is no pool; otherwise the process waits on the semaphore of the
      pool, and only notes that. */
  lemma GetBufGives(s: B, i: int)
    requires BSized(s)
    ensures var t := BeginGet(s, i);
            if 0 <= i < |s.pools| then
              && t.k == Wait(s.k, s.pools[i].bpsem).0 && t.gets[s.k.currpid] == Getting(i)
              && (forall q :: 0 <= q < 100 && q != s.k.currpid ==> t.gets[q] == s.gets[q])
              && t.pools == s.pools && t.heap == s.heap && t.tags == s.tags
            else t == s
  {
    hide Wait;
  }

  /** freebuf puts the buffer in front of its pool, which its tag says, and signals. */
  lemma FreeBufGives(s: B, b: nat)
    requires BSized(s) && b in s.tags
    ensures var i := s.tags[b];
            var (t, r) := Give(s, b);
            if 0 <= i < |s.pools| then
              && r == 1 && t.k == Signal(s.k, s.pools[i].bpsem).0 && b !in t.tags
              && (forall c :: c in s.tags && c != b ==> c in t.tags && t.tags[c] == s.tags[c])
              && |t.pools| == |s.pools| && t.pools[i] == s.pools[i].(list := [b] + s.pools[i].list)
              && (forall j :: 0 <= j < |s.pools| && j != i ==> t.pools[j] == s.pools[j])
              && t.heap == s.heap && t.gets == s.gets
            else r == -1 && t == s
  {
    hide Signal;
  }

  /** mkbufpool is refused for buffers of less than 8 or more than 8192 bytes, for less than 1 or
      more than 2048 of them, if there are 20 pools already, if the heap has no block large
      enough, and if every semaphore is in use. Otherwise it answers the number of pools there
      were: the new one has that many free buffers, each of a whole number of words with room for what was
      asked for, one behind the other with four bytes for a tag in front, and a semaphore of that count. */
  lemma MkBufPoolGives(s: B, bufsiz: int, numbufs: int, arena: seq<Heap.Block>)
    requires BInv(s, arena)
    ensures BSized(s)
    ensures var (t, r) := MkPool(s, bufsiz, numbufs);
            && (r == -1 <==>
                  || bufsiz < 8 || bufsiz > 8192 || numbufs < 1 || numbufs > 2048 || |s.pools| >= 20
                  || NoRoom(s.heap.free, numbufs * ((bufsiz + 3) / 4 * 4 + 4))
                  || (forall i :: 0 <= i < 100 ==> s.k.sems[i].used))
            && (r == -1 ==> t.pools == s.pools)
            && (r != -1 ==>
                  && r == |s.pools| && |t.pools| == r + 1 && t.pools[..r] == s.pools
                  && MadeOf(t.pools[r], bufsiz, numbufs) && t.gets == s.gets && t.tags == s.tags
                  && 0 <= t.pools[r].bpsem < 100 && !s.k.sems[t.pools[r].bpsem].used
                  && t.k.sems[t.pools[r].bpsem] == Sem(true, numbufs))
  {
    hide BInv, Inv, MkPool, MadeOf;
    MkBufPoolParts(s, arena);
    if BadPoolSize(s, bufsiz, numbufs) {
      TooMuch(s, bufsiz, numbufs);
    } else {
      RoomFor(s, bufsiz, numbufs);
      SemCreateGives(s.k, numbufs);
      MkPoolIs(s, bufsiz, numbufs);
      hide SemCreate, Heap.GetMem, Heap.Coalesced;
      if MkPool(s, bufsiz, numbufs).1 != -1 {
        Carved(MkPool(s, bufsiz, numbufs).0.pools[|s.pools|], bufsiz, numbufs);
      }
    }
  }

  lemma TooMuch(s: B, bufsiz: int, numbufs: int)
    requires BSized(s) && BadPoolSize(s, bufsiz, numbufs)
    ensures MkPool(s, bufsiz, numbufs) == (s, -1)
  {
    hide Heap.GetMem, Heap.FreeMem, SemCreate;
  }

  lemma RoomFor(s: B, bufsiz: nat, numbufs: nat)
    requires Heap.Coalesced(s.heap.free) && !BadPoolSize(s, bufsiz, numbufs)
    ensures var size := numbufs * (Words(bufsiz) + TAGSIZE);
            && size < Heap.TWO32 && Words(bufsiz) == (bufsiz + 3) / 4 * 4
            && (Heap.GetMem(s.heap.free, size).1 < 0 <==> NoRoom(s.heap.free, size))
  {
    var size := numbufs * (Words(bufsiz) + TAGSIZE);
    FitsWord(bufsiz, numbufs);
    Positive(numbufs, Words(bufsiz) + TAGSIZE);
    SizeUp(size);
    HeapFit.GetMemFits(s.heap.free, size, (size + 7) / 8 * 8);
    hide Heap.GetMem, Heap.Coalesced, Heap.Covered;
  }

  lemma MkPoolIs(s: B, bufsiz: nat, numbufs: nat)
    requires BSized(s) && !BadPoolSize(s, bufsiz, numbufs)
    requires numbufs * (Words(bufsiz) + TAGSIZE) < Heap.TWO32
    ensures var a := Heap.GetMem(s.heap.free, numbufs * (Words(bufsiz) + TAGSIZE)).1;
            var (k, sem) := SemCreate(s.k, numbufs);
            var (t, r) := MkPool(s, bufsiz, numbufs);
            if a < 0 || sem == -1 then r == -1 && t.pools == s.pools
            else
              && r == |s.pools| == |t.pools| - 1 && t.pools[..r] == s.pools && t.k == k && t.gets == s.gets
              && t.tags == s.tags && t.pools[r].bpsem == sem && t.pools[r].bpsize == Words(bufsiz)
              && t.pools[r].num == numbufs && t.pools[r].block.addr == a
              && t.pools[r].list == Carve(a, Words(bufsiz) + TAGSIZE, numbufs)
  {
    hide Heap.GetMem, Heap.FreeMem, SemCreate, Carve, Words;
  }

  lemma Carved(pool: Pool, bufsiz: nat, numbufs: nat)
    requires pool.bpsize == Words(bufsiz) && pool.num == numbufs
    requires pool.list == Carve(pool.block.addr, pool.bpsize + TAGSIZE, numbufs)
    ensures MadeOf(pool, bufsiz, numbufs)
  {
  }

  /** Every free block is too small. */
  ghost predicate NoRoom(l: seq<Heap.Block>, size: int) {
    forall j :: 0 <= j < |l| ==> l[j].len < size
  }

  lemma MkBufPoolParts(s: B, arena: seq<Heap.Block>)
    requires BInv(s, arena)
    ensures BSized(s) && Inv(s.k) && Heap.Coalesced(s.heap.free)
  {
    hide Inv, SemOk, ListOk, BlockFits, TagsOk;
  }

  lemma Positive(n: nat, size: nat)
    requires n > 0 && size > 0
    ensures n * size > 0
  {
  }

  /** What a new pool is made of. */
  ghost predicate MadeOf(pool: Pool, bufsiz: int, numbufs: int) {
    && bufsiz <= pool.bpsize < bufsiz + 4 && pool.bpsize % 4 == 0
    && |pool.list| == numbufs == pool.num
    && forall j :: 0 <= j < numbufs ==> pool.list[j] == pool.block.addr + j * (pool.bpsize + 4)
  }

  lemma SizeUp(size: nat)
    requires 0 < size <= BP_MAXN * (BP_MAXB + 8)
    ensures size <= (size + 7) / 8 * 8 < size + 8 && (size + 7) / 8 * 8 <= 0xFFFF_FFF8
    ensures (size + 7) / 8 * 8 % 8 == 0
  {
  }

  // ---- last in, first out ----

  /** What a step does to the free buffers of pool i. */
  lemma StepStack(s: B, e: BStep, i: nat, arena: seq<Heap.Block>)
    requires BInv(s, arena) && BEnabled(s, e) && i < |s.pools|
    ensures BSized(s) && i < |BDo(s, e).pools|
    ensures var l, t := s.pools[i].list, BDo(s, e);
            if e.FreeBuf? && s.tags[e.b] == i then t.pools[i].list == [e.b] + l
            else if e.GotBuf? && s.gets[s.k.currpid].port == i then
              |l| > 0 && Got(s) == l[0] && t.pools[i].list == l[1..]
            else t.pools[i].list == l
  {
    hide Inv, Enabled, Do, SemOk, ListOk, BlockFits, TagsOk, Wait, Signal, SemCreate, Heap.GetMem, Heap.FreeMem, Other,
      ArenaOk, NoneShared, MayCall, Spares, MayGet;
    if e.GotBuf? {
      hide BInv;
      NeverNull(s, arena);
    } else if e.MkBufPool? {
      hide MkPool;
      MkBufPoolGives(s, e.bufsiz, e.numbufs, arena);
      assert s.pools[i] == BDo(s, e).pools[i];
    }
  }

  /** The step frees a buffer of pool i. */
  ghost predicate Frees(s: B, e: BStep, i: nat)
    requires BEnabled(s, e)
  {
    e.FreeBuf? && s.tags[e.b] == i
  }

  /** The step takes a buffer of pool i. */
  ghost predicate Takes(s: B, e: BStep, i: nat)
    requires BEnabled(s, e)
  {
    e.GotBuf? && s.gets[s.k.currpid].port == i
  }

  /** As far as the run has come, no more buffers of pool i were taken than freed, n more at first;
      and in the end m more were freed. */
  ghost predicate Nested(s: B, es: seq<BStep>, i: nat, n: nat, m: nat)
    requires BRuns(s, es)
    decreases |es|
  {
    if |es| == 0 then n == m
    else if Frees(s, es[0], i) then Nested(BDo(s, es[0]), es[1..], i, n + 1, m)
    else if Takes(s, es[0], i) then n > 0 && Nested(BDo(s, es[0]), es[1..], i, n - 1, m)
    else Nested(BDo(s, es[0]), es[1..], i, n, m)
  }

  lemma PopAbove(top: seq<nat>, rest: seq<nat>)
    requires |top| > 0
    ensures (top + rest)[1..] == top[1..] + rest
  {
  }

  lemma PushAbove(b: nat, top: seq<nat>, rest: seq<nat>)
    ensures [b] + (top + rest) == ([b] + top) + rest
  {
  }

  /** What lies below stays where it is. */
  lemma {:induction false} StackOver(s: B, es: seq<BStep>, i: nat, top: seq<nat>, rest: seq<nat>, m: nat,
                                     arena: seq<Heap.Block>) returns (top': seq<nat>)
    requires BInv(s, arena) && BRuns(s, es) && i < |s.pools| && s.pools[i].list == top + rest
    requires Nested(s, es, i, |top|, m)
    ensures i < |BAfter(s, es).pools| && |top'| == m && BAfter(s, es).pools[i].list == top' + rest
    decreases |es|
  {
    hide BInv, BEnabled, BDo;
    if |es| == 0 {
      top' := top;
    } else {
      StepStack(s, es[0], i, arena);
      BStepKeeps(s, es[0], arena);
      var t := BDo(s, es[0]);
      if Frees(s, es[0], i) {
        PushAbove(es[0].b, top, rest);
        top' := StackOver(t, es[1..], i, [es[0].b] + top, rest, m, arena);
      } else if Takes(s, es[0], i) {
        PopAbove(top, rest);
        top' := StackOver(t, es[1..], i, top[1..], rest, m, arena);
      } else {
        top' := StackOver(t, es[1..], i, top, rest, m, arena);
      }
    }
  }

  /** The buffer freed last is taken first: after b was freed, and in any run since as many were taken as were freed
      after it, and never more, the next one taken of its pool is b. */
  lemma LastFreedFirst(s: B, b: nat, es: seq<BStep>, arena: seq<Heap.Block>)
    requires BInv(s, arena) && BEnabled(s, FreeBuf(b)) && b in s.tags && 0 <= s.tags[b] < |s.pools|
    requires BRuns(BDo(s, FreeBuf(b)), es) && Nested(BDo(s, FreeBuf(b)), es, s.tags[b], 0, 0)
    ensures var t := BAfter(BDo(s, FreeBuf(b)), es);
            GoesOn(t) && t.gets[t.k.currpid].port == s.tags[b] ==> Got(t) == b
  {
    hide BInv, BEnabled, BDo, BRuns, Nested, BAfter;
    var t, i := BDo(s, FreeBuf(b)), s.tags[b];
    StepStack(s, FreeBuf(b), i, arena);
    BStepKeeps(s, FreeBuf(b), arena);
    var l := t.pools[i].list;
    assert [] + l == l;
    var top := StackOver(t, es, i, [], l, 0, arena);
    assert top + l == l;
  }
}
