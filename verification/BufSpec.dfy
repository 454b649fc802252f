/** Buffer pools: getbuf waits for a buffer of a pool, freebuf gives one back, mkbufpool makes
    a pool out of memory of the heap. */
module BufSpec {
  import opened KernelQueues
  import opened KernelSpec
  import opened KernelInv
  import opened KernelRuns
  import opened PortSpec
  import Heap = HeapSpec
  import HeapRuns

  const NBPOOLS := 20
  const BP_MINB := 8
  const BP_MAXB := 8192
  const BP_MAXN := 2048

  /** The pool identifier in front of every buffer. */
  const TAGSIZE := 4

  /** A pool: its free buffers, by the address of their tags, and, as bookkeeping, the block of
      the heap that it was made from and how many buffers that was cut into. */
  datatype Pool = Pool(bpsem: int, bpsize: nat, list: seq<nat>, block: Heap.Block, num: nat)

  /** The process manager, the pools, the heap, who is in the middle of getbuf, and the tags of
      the buffers that are in use. */
  datatype B = B(k: K, pools: seq<Pool>, heap: HeapRuns.State, minheap: nat, maxheap: nat,
                 gets: seq<Pend>, tags: map<nat, int>)

  ghost predicate BSized(s: B) {
    Sized(s.k) && |s.gets| == NPROC
  }

  /** In the middle of getbuf, on pool i. */
  function Getting(i: nat): Pend {
    Waits(i, 0, false, 0)
  }

  predicate BadPool(s: B, i: int) {
    i < 0 || i >= |s.pools|
  }

  /** getbuf, up to the point where it may wait. */
  ghost function BeginGet(s: B, i: int): (t: B)
    requires BSized(s)
    ensures BSized(t)
  {
    if BadPool(s, i) then s
    else s.(k := Wait(s.k, s.pools[i].bpsem).0, gets := s.gets[s.k.currpid := Getting(i)])
  }

  /** The current process goes on with getbuf. */
  ghost predicate GoesOn(s: B) {
    BSized(s) && s.gets[s.k.currpid].Waits? && s.gets[s.k.currpid].port < |s.pools|
  }

  /** The first free buffer of the pool, or NULL if there is none. */
  ghost function Got(s: B): nat
    requires GoesOn(s)
  {
    var pool := s.pools[s.gets[s.k.currpid].port];
    if |pool.list| > 0 then pool.list[0] else Heap.NULL
  }

  /** getbuf from there on; false stands for taking NULL as a buffer. */
  ghost function EndGet(s: B): (r: (B, bool))
    requires GoesOn(s)
    ensures BSized(r.0)
  {
    var c, i := s.k.currpid, s.gets[s.k.currpid].port;
    var pool := s.pools[i];
    if |pool.list| == 0 then (s, false)
    else
      (s.(pools := s.pools[i := pool.(list := pool.list[1..])], gets := s.gets[c := Idle],
          tags := s.tags[pool.list[0] := i]), true)
  }

  /** freebuf of a buffer in use. */
  ghost function Give(s: B, b: nat): (r: (B, int))
    requires BSized(s) && b in s.tags
    ensures BSized(r.0)
  {
    var i := s.tags[b];
    if BadPool(s, i) then (s, SYSERR)
    else
      var pool := s.pools[i];
      (s.(pools := s.pools[i := pool.(list := [b] + pool.list)], tags := s.tags - {b},
          k := Signal(s.k, pool.bpsem).0), OK)
  }

  /** The size is rounded up to whole words. */
  function Words(n: nat): nat {
    (n + 3) / 4 * 4
  }

  /** n buffers of so many bytes, one after the other. */
  function Carve(a: nat, size: nat, n: nat): (l: seq<nat>)
    ensures |l| == n
  {
    seq(n, j requires 0 <= j < n => a + j * size)
  }

  predicate BadPoolSize(s: B, bufsiz: int, numbufs: int) {
    bufsiz < BP_MINB || bufsiz > BP_MAXB || numbufs < 1 || numbufs > BP_MAXN || |s.pools| >= NBPOOLS
  }

  lemma FitsWord(bufsiz: nat, numbufs: nat)
    requires bufsiz <= BP_MAXB && numbufs <= BP_MAXN
    ensures numbufs * (Words(bufsiz) + TAGSIZE) <= BP_MAXN * (BP_MAXB + 8)
  {
    var size := Words(bufsiz) + TAGSIZE;
    assert size <= BP_MAXB + 8;
    Times(numbufs, BP_MAXN, size);
  }

  lemma Times(a: nat, b: nat, size: nat)
    requires a <= b
    ensures a * size <= b * size
  {
  }

  /** mkbufpool; the memory is given back if there is no semaphore. */
  ghost function MkPool(s: B, bufsiz: int, numbufs: int): (r: (B, int))
    requires BSized(s)
    ensures BSized(r.0)
  {
    if BadPoolSize(s, bufsiz, numbufs) then (s, SYSERR)
    else
      var size := Words(bufsiz) + TAGSIZE;
      FitsWord(bufsiz, numbufs);
      var (m, a) := Heap.GetMem(s.heap.free, numbufs * size);
      if a < 0 then (s, SYSERR)
      else
        var n := Heap.RoundMb(numbufs * size);
        var taken := s.heap.(free := m, total := (s.heap.total - n) % Heap.TWO32);
        var (k, sem) := SemCreate(s.k, numbufs);
        if sem == SYSERR then
          var (m', _) := Heap.FreeMem(m, s.minheap, s.maxheap, a, numbufs * size);
          (s.(k := k, heap := taken.(free := m', total := (taken.total + n) % Heap.TWO32)), SYSERR)
        else
          var block := Heap.Block(a, n);
          (s.(k := k, heap := taken.(live := s.heap.live + {block}),
              pools := s.pools + [Pool(sem, Words(bufsiz), Carve(a, size, numbufs), block, numbufs)]), |s.pools|)
  }

  /** The ports play no part here: the state as one of the process manager alone. */
  ghost function Base(s: B): P
    requires BSized(s)
  {
    P(s.k, seq(NPORTS, _ => Port(0, 0, PT_FREE, 0, 0, [], false, false, 0)), 0, 0, s.gets)
  }

  /** Any other call, and the clock. */
  ghost function Beside(s: B, e: Step): (t: B)
    requires BSized(s) && Enabled(s.k, e)
    ensures BSized(t)
  {
    var t := Other(Base(s), e);
    s.(k := t.k, gets := t.pend)
  }

  /** getmem, getstk or freemem by somebody else. */
  ghost function OnHeap(s: B, op: HeapRuns.Op): B
    requires HeapRuns.Enabled(s.heap, op)
  {
    s.(heap := HeapRuns.Do(s.heap, op, s.minheap, s.maxheap))
  }
}
