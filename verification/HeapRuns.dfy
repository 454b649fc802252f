/** Runs of the heap: any sequence of getmem, getstk and freemem of blocks that were given
    out. */
module HeapRuns {
  import opened HeapSpec
  import opened HeapLaws

  /** The free list, the blocks that are given out, and the count in memlist. */
  datatype State = State(free: seq<Block>, live: set<Block>, total: nat)

  datatype Op = DoGetMem(nbytes: nat) | DoGetStk(nbytes: nat) | DoFree(b: Block)

  ghost predicate LiveAt(live: set<Block>, x: int) {
    exists b :: b in live && In(b, x)
  }

  /** Every byte of the arena is free or in exactly one block that is given out, and no other
      byte is either. */
  ghost predicate HeapOk(s: State, arena: seq<Block>) {
    && Coalesced(s.free)
    && (forall b :: b in s.live ==> BlockOk(b))
    && (forall b, x {:trigger In(b, x)} :: b in s.live && In(b, x) ==> !Covered(s.free, x))
    && (forall b, c, x {:trigger In(b, x), In(c, x)} :: b in s.live && c in s.live && In(b, x) && In(c, x) ==> b == c)
    && (forall x {:trigger Covered(arena, x)} {:trigger Covered(s.free, x)} ::
          Covered(arena, x) <==> Covered(s.free, x) || LiveAt(s.live, x))
  }

  /** freemem of b, rounded up, would free a byte twice. */
  ghost predicate HasFreeByte(s: State, b: Block)
    requires b.len < TWO32
  {
    b.addr + RoundMb(b.len) < TWO32 && Overlaps(s.free, Block(b.addr, RoundMb(b.len)))
  }

  /** Sizes fit when rounded up. What is given back is a block as it was given out, or one with a
      byte that is free already, as in a second freemem of the same block. */
  ghost predicate Enabled(s: State, op: Op) {
    match op
    case DoGetMem(n) => n <= MAXREQ
    case DoGetStk(n) => n <= MAXREQ
    case DoFree(b) => b.len < TWO32 && (b in s.live || HasFreeByte(s, b))
  }

  /** The block given out by getmem (getstk), if it was. */
  function Given(s: State, op: Op): (seq<Block>, int)
    requires Enabled(s, op) && !op.DoFree?
  {
    if op.DoGetMem? then GetMem(s.free, op.nbytes)
    else
      var (m, p) := GetStk(s.free, op.nbytes);
      (m, if p == SYSERR then SYSERR else p - RoundMb(op.nbytes) + 4)
  }

  function Do(s: State, op: Op, lo: nat, hi: nat): State
    requires Enabled(s, op)
  {
    if op.DoFree? then
      var (m, r) := FreeMem(s.free, lo, hi, op.b.addr, op.b.len);
      if r == SYSERR then s else State(m, s.live - {op.b}, (s.total + RoundMb(op.b.len)) % TWO32)
    else
      var (m, a) := Given(s, op);
      if a < 0 then s
      else State(m, s.live + {Block(a, RoundMb(op.nbytes))}, (s.total - RoundMb(op.nbytes)) % TWO32)
  }

  /** What getmem and getstk give. */
  lemma GivenOk(s: State, op: Op)
    requires Enabled(s, op) && !op.DoFree? && Coalesced(s.free)
    ensures var (m, a) := Given(s, op);
            if a < 0 then op.nbytes == 0 || forall j :: 0 <= j < |s.free| ==> s.free[j].len < op.nbytes
            else
              var b := Block(a, RoundMb(op.nbytes));
              op.nbytes > 0 && BlockOk(b) && Coalesced(m) && Without(s.free, m, b) && Free(s.free, b)
  {
    hide Coalesced, BlockOk, Take, TakeTop;
    if op.nbytes > 0 {
      TakeOk(s.free, RoundMb(op.nbytes));
      TakeTopOk(s.free, RoundMb(op.nbytes));
      if forall j :: 0 <= j < |s.free| ==> s.free[j].len < RoundMb(op.nbytes) {
        Shorter(s.free, op.nbytes);
      }
    }
  }

  lemma Shorter(l: seq<Block>, n: nat)
    requires Coalesced(l) && 0 < n <= MAXREQ && forall j :: 0 <= j < |l| ==> l[j].len < RoundMb(n)
    ensures forall j :: 0 <= j < |l| ==> l[j].len < n
  {
    forall j | 0 <= j < |l|
      ensures l[j].len < n
    {
      assert BlockOk(l[j]);
    }
  }

  lemma GiveOk(s: State, op: Op, lo: nat, hi: nat, arena: seq<Block>)
    requires HeapOk(s, arena) && Enabled(s, op) && !op.DoFree?
    ensures HeapOk(Do(s, op, lo, hi), arena)
  {
    hide Coalesced, BlockOk, Given, Covered;
    GivenOk(s, op);
    var (m, a) := Given(s, op);
    if a >= 0 {
      var b := Block(a, RoundMb(op.nbytes));
      var t := Do(s, op, lo, hi);
      forall x
        ensures LiveAt(t.live, x) <==> LiveAt(s.live, x) || In(b, x)
      {
        assert b in t.live;
      }
    }
  }

  /** Giving back what was given out always succeeds. */
  lemma FreeSucceeds(s: State, b: Block, lo: nat, hi: nat, arena: seq<Block>)
    requires HeapOk(s, arena) && b in s.live && b.len < TWO32
    requires forall x {:trigger Covered(arena, x)} :: Covered(arena, x) ==> lo <= x <= hi
    ensures RoundMb(b.len) == b.len
    ensures var (m, r) := FreeMem(s.free, lo, hi, b.addr, b.len);
            r != SYSERR && Coalesced(m) && With(s.free, m, b)
  {
    hide Coalesced, Put, Covered;
    assert BlockOk(b) && b == Block(b.addr, b.len);
    assert In(b, b.addr) && LiveAt(s.live, b.addr) && Covered(arena, b.addr);
    assert RoundMb(b.len) == b.len;
    PutOk(s.free, b.addr, b.len);
    assert !Overlaps(s.free, b);
  }

  /** A block with a free byte is refused. */
  lemma SecondFree(s: State, b: Block, lo: nat, hi: nat)
    requires Coalesced(s.free) && b.len < TWO32 && HasFreeByte(s, b)
    ensures FreeMem(s.free, lo, hi, b.addr, b.len) == (s.free, SYSERR)
  {
    hide Coalesced, Put, Covered;
    assert RoundMb(b.len) > 0;
    PutOk(s.free, b.addr, RoundMb(b.len));
    assert Put(s.free, b.addr, RoundMb(b.len)).0 == s.free;
  }

  lemma FreeOk(s: State, b: Block, lo: nat, hi: nat, arena: seq<Block>)
    requires HeapOk(s, arena) && Enabled(s, DoFree(b))
    requires forall x {:trigger Covered(arena, x)} :: Covered(arena, x) ==> lo <= x <= hi
    ensures HeapOk(Do(s, DoFree(b), lo, hi), arena)
  {
    hide Coalesced, BlockOk, FreeMem, Covered, Overlaps;
    if b !in s.live {
      SecondFree(s, b, lo, hi);
      return;
    }
    FreeSucceeds(s, b, lo, hi, arena);
    var t := Do(s, DoFree(b), lo, hi);
    forall x
      ensures LiveAt(s.live, x) <==> LiveAt(t.live, x) || In(b, x)
    {
      if LiveAt(s.live, x) {
        var c :| c in s.live && In(c, x);
        assert c == b || c in t.live;
      }
    }
  }

  ghost predicate Runs(s: State, ops: seq<Op>, lo: nat, hi: nat)
    decreases |ops|
  {
    |ops| == 0 || (Enabled(s, ops[0]) && Runs(Do(s, ops[0], lo, hi), ops[1..], lo, hi))
  }

  ghost function After(s: State, ops: seq<Op>, lo: nat, hi: nat): State
    requires Runs(s, ops, lo, hi)
    decreases |ops|
  {
    if |ops| == 0 then s else After(Do(s, ops[0], lo, hi), ops[1..], lo, hi)
  }

  lemma {:induction false} RunOk(s: State, ops: seq<Op>, lo: nat, hi: nat, arena: seq<Block>)
    requires HeapOk(s, arena) && Runs(s, ops, lo, hi)
    requires forall x {:trigger Covered(arena, x)} :: Covered(arena, x) ==> lo <= x <= hi
    ensures HeapOk(After(s, ops, lo, hi), arena)
    decreases |ops|
  {
    hide HeapOk, Enabled, Do;
    if |ops| > 0 {
      StepOk(s, ops[0], lo, hi, arena);
      RunOk(Do(s, ops[0], lo, hi), ops[1..], lo, hi, arena);
    }
  }

  lemma StepOk(s: State, op: Op, lo: nat, hi: nat, arena: seq<Block>)
    requires HeapOk(s, arena) && Enabled(s, op)
    requires forall x {:trigger Covered(arena, x)} :: Covered(arena, x) ==> lo <= x <= hi
    ensures HeapOk(Do(s, op, lo, hi), arena)
  {
    hide HeapOk, Do;
    if op.DoFree? {
      FreeOk(s, op.b, lo, hi, arena);
    } else {
      GiveOk(s, op, lo, hi, arena);
    }
  }

  /** When all is given back, in whatever order, the free list is the arena again. */
  lemma AllGivenBack(arena: seq<Block>, total: nat, ops: seq<Op>, lo: nat, hi: nat)
    requires Coalesced(arena) && Runs(State(arena, {}, total), ops, lo, hi)
    requires forall x {:trigger Covered(arena, x)} :: Covered(arena, x) ==> lo <= x <= hi
    ensures var s := After(State(arena, {}, total), ops, lo, hi);
            HeapOk(s, arena) && (s.live == {} ==> s.free == arena)
  {
    hide Runs, After, BlockOk;
    var s := After(State(arena, {}, total), ops, lo, hi);
    RunOk(State(arena, {}, total), ops, lo, hi, arena);
    if s.live == {} {
      SameBytes(s.free, arena);
    }
  }

  // ---- the count ----

  function Sum(l: seq<Block>): nat {
    if |l| == 0 then 0 else l[0].len + Sum(l[1..])
  }

  lemma {:induction false} SumCat(a: seq<Block>, b: seq<Block>)
    ensures Sum(a + b) == Sum(a) + Sum(b)
  {
    if |a| == 0 {
      assert a + b == b;
    } else {
      assert (a + b)[1..] == a[1..] + b;
      SumCat(a[1..], b);
    }
  }

  lemma SumSplice(l: seq<Block>, i: nat, j: nat, xs: seq<Block>)
    requires i <= j <= |l|
    ensures Sum(Splice(l, i, j, xs)) == Sum(l) - Sum(l[i..j]) + Sum(xs)
  {
    hide Sum;
    assert l[..i] + l[i..j] + l[j..] == l;
    SumCat(l[..i] + xs, l[j..]);
    SumCat(l[..i], xs);
    SumCat(l[..i] + l[i..j], l[j..]);
    SumCat(l[..i], l[i..j]);
  }

  lemma SumFew(l: seq<Block>)
    ensures |l| == 1 ==> Sum(l) == l[0].len
    ensures |l| == 2 ==> Sum(l) == l[0].len + l[1].len
  {
  }

  lemma SumTake(l: seq<Block>, n: nat)
    ensures Take(l, n).1 != SYSERR ==> Sum(Take(l, n).0) == Sum(l) - n
    ensures TakeTop(l, n).1 != SYSERR ==> Sum(TakeTop(l, n).0) == Sum(l) - n
  {
    hide Sum, Splice;
    var j := FirstFit(l, n, 0);
    if j < |l| {
      var xs := if l[j].len == n then [] else [Block(l[j].addr + n, l[j].len - n)];
      SumSplice(l, j, j + 1, xs);
      SumFew(l[j..j + 1]);
      SumNone();
      SumFew(xs);
    }
    var h := LastFit(l, n, |l|);
    if h >= 0 {
      var xs := if l[h].len == n then [] else [Block(l[h].addr, l[h].len - n)];
      SumSplice(l, h, h + 1, xs);
      SumFew(l[h..h + 1]);
      SumNone();
      SumFew(xs);
    }
  }

  lemma SumNone()
    ensures Sum([]) == 0
  {
  }

  lemma SumPut(l: seq<Block>, a: nat, n: nat)
    ensures Put(l, a, n).1 != SYSERR ==> Sum(Put(l, a, n).0) == Sum(l) + n
  {
    hide Sum, Splice, Spot, Clashes;
    var j := Spot(l, a, 0);
    var i, h := if JoinsLeft(l, j, a) then j - 1 else j, if JoinsRight(l, j, a, n) then j + 1 else j;
    SumSplice(l, i, h, [Joined(l, j, a, n)]);
    SumFew([Joined(l, j, a, n)]);
    SumFew(l[i..h]);
    SumNone();
    assert i == h ==> l[i..h] == [];
  }

  lemma Modulo(a: int, b: int, n: int)
    ensures ((a + n) % TWO32 - (b + n)) % TWO32 == (a - b) % TWO32
  {
  }

  /** memlist.mlength keeps its distance, in 32 bits, from the number of free bytes. */
  lemma CountKept(s: State, op: Op, lo: nat, hi: nat)
    requires Enabled(s, op)
    ensures var t := Do(s, op, lo, hi); (t.total - Sum(t.free)) % TWO32 == (s.total - Sum(s.free)) % TWO32
  {
    hide Sum, Take, TakeTop, Put, RoundMb;
    if op.DoFree? {
      SumPut(s.free, op.b.addr, RoundMb(op.b.len));
      Modulo(s.total, Sum(s.free), RoundMb(op.b.len));
    } else {
      SumTake(s.free, RoundMb(op.nbytes));
      var n: int := RoundMb(op.nbytes);
      Modulo(s.total, Sum(s.free), -n);
    }
  }

  lemma {:induction false} CountOverRun(s: State, ops: seq<Op>, lo: nat, hi: nat)
    requires Runs(s, ops, lo, hi)
    ensures var t := After(s, ops, lo, hi); (t.total - Sum(t.free)) % TWO32 == (s.total - Sum(s.free)) % TWO32
    decreases |ops|
  {
    hide Enabled, Do, Sum;
    if |ops| > 0 {
      CountKept(s, ops[0], lo, hi);
      CountOverRun(Do(s, ops[0], lo, hi), ops[1..], lo, hi);
    }
  }
}
