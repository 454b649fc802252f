/** How many buffers of a pool are out of reach: free, but with neither a permit nor a process
    let through to take them. Only killing a process inside getbuf makes more of them. */
module BufExact {
  import opened KernelQueues
  import opened KernelSpec
  import opened KernelInv
  import opened KernelCalls
  import opened KernelProcs
  import opened KernelFrame
  import opened KernelRuns
  import opened PortSpec
  import opened PortInv
  import opened PortCalls
  import opened PortKeeps
  import opened BufSpec
  import opened BufInv
  import opened BufCalls
  import opened BufRuns
  import Heap = HeapSpec
  import HeapRuns

  /** The processes let through to a buffer of pool i. */
  ghost function Passed(s: B, i: nat): set<int>
    requires BSized(s) && i < |s.pools| && Live(s.k, s.pools[i].bpsem)
  {
    Granted(s.gets, s.k.lists[s.pools[i].bpsem], i, 0, false)
  }

  ghost predicate Is(s: B, i: nat) {
    BSized(s) && i < |s.pools| && Live(s.k, s.pools[i].bpsem)
  }

  /** The free buffers that nobody can take. */
  ghost function Stranded(s: B, i: nat): int {
    if Is(s, i) then |s.pools[i].list| - Permits(s.k.sems[s.pools[i].bpsem]) - |Passed(s, i)| else 0
  }

  /** The processes let through to pool i that die in the step. */
  ghost function Dying(s: B, e: BStep, i: nat): set<int>
    requires BEnabled(s, e)
  {
    if e.Call? && Is(s, i) then set q | q in Passed(s, i) && Beside(s, e.e).gets[q] == Idle else {}
  }

  lemma IsOne(s: B, arena: seq<Heap.Block>, i: nat)
    requires BInv(s, arena) && i < |s.pools|
    ensures Is(s, i) && SemOk(s.k, s.gets, s.pools[i], i) && Inv(s.k) && |s.pools| <= NBPOOLS
    ensures forall q :: 0 <= q < NPROC ==> GetOk(s.gets[q], NBPOOLS)
  {
    PoolIs(s, arena, i);
  }

  // ---- other calls ----

  lemma CallStrands(s: B, e: Step, arena: seq<Heap.Block>, i: nat)
    requires BInv(s, arena) && MayCall(s, e) && i < |s.pools|
    ensures Stranded(Beside(s, e), i) == Stranded(s, i) + |Dying(s, Call(e), i)|
  {
    hide BInv, Inv, Other, MayCall, Granted;
    IsOne(s, arena, i);
    CallQueue(s, e, arena, i);
    var d := Dying(s, Call(e), i);
    WhoPasses(s, e, i);
    Difference(Passed(s, i), d);
  }

  /** What the call does to the semaphore of the pool. */
  lemma CallQueue(s: B, e: Step, arena: seq<Heap.Block>, i: nat)
    requires BInv(s, arena) && MayCall(s, e) && i < |s.pools| && Is(s, i)
    ensures Is(Beside(s, e), i) && Beside(s, e).pools == s.pools
    ensures var r, t := s.pools[i].bpsem, Beside(s, e);
            && Permits(t.k.sems[r]) == Permits(s.k.sems[r])
            && (forall q :: q in t.k.lists[r] ==> q in s.k.lists[r])
            && (forall q :: q in s.k.lists[r] && q !in t.k.lists[r] ==> q < NPROC && t.gets[q] == Idle)
  {
    hide BInv, Inv, Do, KillEnd;
    IsOne(s, arena, i);
    var r := s.pools[i].bpsem;
    WaitersLive(s.k, r);
    OtherQuiet(Base(s), e, r);
  }

  lemma Difference(a: set<int>, b: set<int>)
    requires b <= a
    ensures |a - b| == |a| - |b|
  {
    assert a == (a - b) + b;
  }

  lemma WhoPasses(s: B, e: Step, i: nat)
    requires BSized(s) && MayCall(s, e) && Is(s, i) && Is(Beside(s, e), i)
    requires var l, l' := s.k.lists[s.pools[i].bpsem], Beside(s, e).k.lists[s.pools[i].bpsem];
             && (forall q :: q in l' ==> q in l)
             && (forall q :: q in l && q !in l' ==> q < NPROC && Beside(s, e).gets[q] == Idle)
    ensures Passed(Beside(s, e), i) == Passed(s, i) - Dying(s, Call(e), i)
  {
    hide Do, Enabled;
    var t := Beside(s, e);
    forall q | 0 <= q < NPROC
      ensures t.gets[q] == Idle || t.gets[q] == s.gets[q]
    {
    }
  }

  // ---- getbuf and freebuf ----

  lemma BeginStrands(s: B, j: int, arena: seq<Heap.Block>, i: nat)
    requires BInv(s, arena) && MayGet(s, j) && i < |s.pools|
    ensures Stranded(BeginGet(s, j), i) == Stranded(s, i)
  {
    hide BInv, Inv, Wait, AllIn, Granted, CanBlock, In, Only;
    IsOne(s, arena, i);
    if BadPool(s, j) {
      return;
    }
    var t, r := BeginGet(s, j), s.pools[i].bpsem;
    IsOne(s, arena, j);
    NotQueued(s.k, r);
    if j == i {
      WaitEffect(s.k, r);
      BeginSide(s.k.lists[r], t.k.lists[r], s.k.sems[r], t.k.sems[r], s.gets, s.k.currpid, i, 0, false, 0);
    } else {
      SamePool(s, arena, i, j);
      WaitOnly(s.k, s.pools[j].bpsem);
      SparedBy(s.k, t.k, s.pools[j].bpsem, r);
      OnPool(s.gets, s.k.currpid, i);
      OnPool(t.gets, s.k.currpid, i);
      OtherSide(s.gets, t.gets, s.k.lists[r], s.k.currpid, i, 0, false);
    }
  }

  lemma SparedBy(k: K, t: K, r: int, x: int)
    requires Sized(k) && Sized(t) && Only(k, t, r) && Live(k, x) && x != r
    ensures t.sems[x] == k.sems[x] && t.lists[x] == k.lists[x]
  {
  }

  lemma EndStrands(s: B, arena: seq<Heap.Block>, i: nat)
    requires BInv(s, arena) && GoesOn(s) && i < |s.pools|
    ensures Stranded(EndGet(s).0, i) == Stranded(s, i)
  {
    hide BInv, Inv, AllIn, Granted, In;
    IsOne(s, arena, i);
    NeverNull(s, arena);
    var t, r, c := EndGet(s).0, s.pools[i].bpsem, s.k.currpid;
    NotQueued(s.k, r);
    if s.gets[c].port == i {
      Itself(s.gets, c, i);
      DoneSide(s.k.lists[r], s.gets, c, i, 0, false);
    } else {
      OnPool(s.gets, c, i);
      OnPool(t.gets, c, i);
      OtherSide(s.gets, t.gets, s.k.lists[r], c, i, 0, false);
    }
  }

  lemma GiveStrands(s: B, b: nat, arena: seq<Heap.Block>, i: nat)
    requires BInv(s, arena) && b in s.tags && i < |s.pools|
    ensures Stranded(Give(s, b).0, i) == Stranded(s, i)
  {
    hide BInv, Inv, AllIn, Granted, SignalOne, Only;
    IsOne(s, arena, i);
    RoomFor(s, b, arena);
    var j := s.tags[b];
    IsOne(s, arena, j);
    var t, r, k := Give(s, b).0, s.pools[i].bpsem, s.k;
    if j == i {
      SignalEffect(k, r);
      QueueIs(k, r);
      SignalSide(k.lists[r], t.k.lists[r], k.sems[r], t.k.sems[r], s.gets, i, 0, false);
    } else {
      SamePool(s, arena, i, j);
      SignalOnly(k, s.pools[j].bpsem);
      SparedBy(k, t.k, s.pools[j].bpsem, r);
    }
  }

  // ---- mkbufpool ----

  lemma MkStrands(s: B, bufsiz: int, numbufs: int, arena: seq<Heap.Block>, i: nat)
    requires BInv(s, arena)
    ensures Stranded(MkPool(s, bufsiz, numbufs).0, i) == Stranded(s, i)
  {
    hide BInv, Inv, Heap.GetMem, Heap.FreeMem, SemCreate, Granted, Only, Carve, AllIn;
    Sizes(s, arena);
    if MkPool(s, bufsiz, numbufs).1 == SYSERR {
      MkPoolFails(s, bufsiz, numbufs, arena);
      return;
    }
    var t := MkPool(s, bufsiz, numbufs).0;
    NewSems(s, bufsiz, numbufs, arena);
    if i < |s.pools| {
      IsOne(s, arena, i);
      MadeOnly(s, bufsiz, numbufs, arena);
      SparedBy(s.k, t.k, -1, s.pools[i].bpsem);
    } else if i == |s.pools| {
      MadeWhole(s, bufsiz, numbufs, arena);
    }
  }

  lemma MadeOnly(s: B, bufsiz: int, numbufs: int, arena: seq<Heap.Block>)
    requires BInv(s, arena) && MkPool(s, bufsiz, numbufs).1 != SYSERR
    ensures Only(s.k, MkPool(s, bufsiz, numbufs).0.k, -1)
  {
    hide Inv, Heap.GetMem, Heap.FreeMem, SemCreate, Only, SemOk, ListOk, BlockFits, TagsOk, ArenaOk, Carve;
    NewSem(s.k, numbufs);
  }

  lemma MadeWhole(s: B, bufsiz: int, numbufs: int, arena: seq<Heap.Block>)
    requires BInv(s, arena) && MkPool(s, bufsiz, numbufs).1 != SYSERR
    ensures Stranded(MkPool(s, bufsiz, numbufs).0, |s.pools|) == 0
  {
    hide Inv, Heap.GetMem, Heap.FreeMem, SemCreate, Only, SemOk, ListOk, BlockFits, TagsOk, ArenaOk, AllIn, Granted,
         GetOk;
    NewSem(s.k, numbufs);
    NobodyThere(s.gets, |s.pools|);
  }

  lemma MemoryStrands(s: B, op: HeapRuns.Op, i: nat)
    requires Spares(s, op)
    ensures Stranded(OnHeap(s, op), i) == Stranded(s, i)
  {
    hide HeapRuns.Enabled, HeapRuns.Do, Spares, Granted;
  }

  // ---- any step, any run ----

  lemma StepStrands(s: B, e: BStep, arena: seq<Heap.Block>, i: nat)
    requires BInv(s, arena) && BEnabled(s, e)
    ensures Stranded(BDo(s, e), i) == Stranded(s, i) + |Dying(s, e, i)|
  {
    hide BInv, Beside, BeginGet, EndGet, Give, MkPool, MayCall, Spares, MayGet, Passed;
    if e.MkBufPool? {
      MkStrands(s, e.bufsiz, e.numbufs, arena, i);
    } else if i < |s.pools| {
      match e {
        case Call(e) => CallStrands(s, e, arena, i);
        case Memory(op) => MemoryStrands(s, op, i);
        case GetBuf(j) => BeginStrands(s, j, arena, i);
        case GotBuf => EndStrands(s, arena, i);
        case FreeBuf(b) => GiveStrands(s, b, arena, i);
      }
    } else {
      SamePools(s, e, arena);
    }
  }

  lemma SamePools(s: B, e: BStep, arena: seq<Heap.Block>)
    requires BInv(s, arena) && BEnabled(s, e) && !e.MkBufPool?
    ensures |BDo(s, e).pools| == |s.pools|
  {
    hide BInv, Other, Signal, Wait, MayCall, Spares, MayGet;
  }

  /** How many processes let through to pool i die in the run. */
  ghost function Deaths(s: B, es: seq<BStep>, i: nat): nat
    requires BRuns(s, es)
    decreases |es|
  {
    if |es| == 0 then 0 else |Dying(s, es[0], i)| + Deaths(BDo(s, es[0]), es[1..], i)
  }

  lemma {:induction false} RunStrands(s: B, es: seq<BStep>, arena: seq<Heap.Block>, i: nat)
    requires BInv(s, arena) && BRuns(s, es)
    ensures Stranded(BAfter(s, es), i) == Stranded(s, i) + Deaths(s, es, i)
    decreases |es|
  {
    hide BInv, BEnabled, BDo, Stranded, Dying;
    if |es| > 0 {
      BStepKeeps(s, es[0], arena);
      StepStrands(s, es[0], arena, i);
      RunStrands(BDo(s, es[0]), es[1..], arena, i);
    }
  }

  /** From the start, the free buffers of a pool are as many as its permits, the processes let
      through, and those that were killed when they had been let through: so all of them can
      be taken if and only if none was. */
  lemma StrandedExactly(arena: seq<Heap.Block>, total: nat, lo: nat, hi: nat, es: seq<BStep>, i: nat)
    requires Arena(arena, total, lo, hi) && BRuns(BBooted(arena, total, lo, hi), es)
    requires i < |BAfter(BBooted(arena, total, lo, hi), es).pools|
    ensures var s := BAfter(BBooted(arena, total, lo, hi), es);
            && Is(s, i)
            && |s.pools[i].list| == Permits(s.k.sems[s.pools[i].bpsem]) + |Passed(s, i)|
                                    + Deaths(BBooted(arena, total, lo, hi), es, i)
  {
    var b := BBooted(arena, total, lo, hi);
    hide BRuns, BBooted, BAfter, Arena, BInv, Deaths, Passed;
    InRun(arena, total, lo, hi, es);
    BBootedOk(arena, total, lo, hi);
    IsOne(BAfter(b, es), arena, i);
    RunStrands(b, es, arena, i);
    NonePooled(arena, total, lo, hi, i);
  }

  lemma NonePooled(arena: seq<Heap.Block>, total: nat, lo: nat, hi: nat, i: nat)
    ensures Stranded(BBooted(arena, total, lo, hi), i) == 0
  {
  }
}
