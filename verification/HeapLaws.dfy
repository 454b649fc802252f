/** What users of the heap may rely on, over any run of calls. */
module HeapLaws {
  import opened HeapSpec

  // ---- the free bytes determine the list ----

  lemma HeadIs(l: seq<Block>, m: seq<Block>)
    requires Coalesced(l) && Coalesced(m) && |l| > 0 && |m| > 0
    requires forall x {:trigger Covered(l, x)} :: Covered(l, x) ==> Covered(m, x)
    ensures m[0].addr <= l[0].addr
  {
    assert In(l[0], l[0].addr) && Covered(l, l[0].addr);
    assert Covered(m, l[0].addr);
    var k :| 0 <= k < |m| && In(m[k], l[0].addr);
    assert m[0].addr <= m[k].addr;
  }

  lemma HeadEnds(l: seq<Block>, m: seq<Block>)
    requires Coalesced(l) && Coalesced(m) && |l| > 0 && |m| > 0 && l[0].addr == m[0].addr
    requires forall x {:trigger Covered(l, x)} :: Covered(l, x) ==> Covered(m, x)
    ensures End(l[0]) <= End(m[0])
  {
    FirstCovered(l, End(m[0]));
    GapAfter(m);
  }

  lemma FirstCovered(l: seq<Block>, x: int)
    requires |l| > 0
    ensures In(l[0], x) ==> Covered(l, x)
  {
  }

  lemma GapAfter(l: seq<Block>)
    requires Coalesced(l) && |l| > 0
    ensures !Covered(l, End(l[0]))
  {
    forall k | 0 <= k < |l|
      ensures !In(l[k], End(l[0]))
    {
      assert k > 0 ==> End(l[0]) < l[k].addr;
    }
  }

  lemma TailCovers(l: seq<Block>, x: int)
    requires Coalesced(l) && |l| > 0
    ensures Covered(l[1..], x) <==> Covered(l, x) && x >= End(l[0])
  {
    if Covered(l, x) && x >= End(l[0]) {
      var k :| 0 <= k < |l| && In(l[k], x);
      assert In(l[1..][k - 1], x);
    }
    if Covered(l[1..], x) {
      var k :| 0 <= k < |l[1..]| && In(l[1..][k], x);
      assert In(l[k + 1], x) && End(l[0]) < l[k + 1].addr;
    }
  }

  lemma NoneCovered(l: seq<Block>)
    requires Coalesced(l) && forall x {:trigger Covered(l, x)} :: !Covered(l, x)
    ensures |l| == 0
  {
    if |l| > 0 {
      FirstCovered(l, l[0].addr);
    }
  }

  /** Two lists of the same free bytes are the same list. */
  lemma {:induction false} SameBytes(l: seq<Block>, m: seq<Block>)
    requires Coalesced(l) && Coalesced(m)
    requires forall x {:trigger Covered(l, x)} {:trigger Covered(m, x)} :: Covered(l, x) <==> Covered(m, x)
    ensures l == m
  {
    hide Covered, BlockOk;
    if |l| == 0 {
      CoverNothing(l);
      NoneCovered(m);
    } else if |m| == 0 {
      CoverNothing(m);
      NoneCovered(l);
    } else {
      HeadIs(l, m);
      HeadIs(m, l);
      HeadEnds(l, m);
      HeadEnds(m, l);
      forall x
        ensures Covered(l[1..], x) <==> Covered(m[1..], x)
      {
        TailCovers(l, x);
        TailCovers(m, x);
      }
      CoalescedPart(l, 1, |l|);
      CoalescedPart(m, 1, |m|);
      SameBytes(l[1..], m[1..]);
      assert l == [l[0]] + l[1..] && m == [m[0]] + m[1..];
    }
  }

  lemma CoverNothing(l: seq<Block>)
    requires |l| == 0
    ensures forall x {:trigger Covered(l, x)} :: !Covered(l, x)
  {
  }

  /** What was taken and put back leaves no trace. */
  lemma BackAgain(l: seq<Block>, m: seq<Block>, b: Block)
    requires Coalesced(l) && Coalesced(m) && BlockOk(b) && Without(l, m, b) && Free(l, b)
    ensures Put(m, b.addr, b.len) == (l, 1)
  {
    hide Put, Coalesced, Covered;
    PutOk(m, b.addr, b.len);
    assert b == Block(b.addr, b.len);
    forall x | In(b, x)
      ensures !Covered(m, x)
    {
    }
    var n := Put(m, b.addr, b.len).0;
    forall x
      ensures Covered(n, x) <==> Covered(l, x)
    {
      assert Covered(n, x) <==> Covered(m, x) || In(b, x);
      assert Covered(m, x) <==> Covered(l, x) && !In(b, x);
    }
    SameBytes(l, n);
    PutSays(m, b.addr, b.len);
  }

  lemma PutSays(l: seq<Block>, a: nat, n: nat)
    ensures Put(l, a, n).1 in {SYSERR, 1}
  {
  }

  /** freemem undoes getmem. */
  lemma FreeUndoesGet(l: seq<Block>, lo: nat, hi: nat, nbytes: nat)
    requires Coalesced(l) && 0 < nbytes <= MAXREQ && GetMem(l, nbytes).1 != SYSERR
    requires forall x {:trigger Covered(l, x)} :: Covered(l, x) ==> lo <= x <= hi
    ensures var (m, a) := GetMem(l, nbytes); a > 0 && FreeMem(m, lo, hi, a, nbytes) == (l, 1)
  {
    hide Coalesced, Put, Take;
    var (m, a) := GetMem(l, nbytes);
    TakeOk(l, RoundMb(nbytes));
    assert In(Block(a, RoundMb(nbytes)), a);
    BackAgain(l, m, Block(a, RoundMb(nbytes)));
  }

  /** freestk undoes getstk. */
  lemma FreestkUndoesGetstk(l: seq<Block>, lo: nat, hi: nat, nbytes: nat)
    requires Coalesced(l) && 0 < nbytes <= MAXREQ && GetStk(l, nbytes).1 != SYSERR
    requires forall x {:trigger Covered(l, x)} :: Covered(l, x) ==> lo <= x <= hi
    ensures var (m, p) := GetStk(l, nbytes);
            p - RoundMb(nbytes) + 4 > 0 && FreeMem(m, lo, hi, p - RoundMb(nbytes) + 4, RoundMb(nbytes)) == (l, 1)
  {
    hide Coalesced, Put, TakeTop;
    var n := RoundMb(nbytes);
    var (m, a) := TakeTop(l, n);
    TakeTopOk(l, n);
    assert In(Block(a, n), a);
    assert RoundMb(n) == n;
    BackAgain(l, m, Block(a, n));
  }

  // ---- sizes that do not fit 32 bits when rounded up ----

  /** getmem gives a byte that is not free any more exactly if the size can be rounded up: a
      larger one is rounded to 0, and the first block stays on the list. */
  lemma GetMemExactly(l: seq<Block>, nbytes: nat)
    requires Coalesced(l) && nbytes < TWO32 && GetMem(l, nbytes).1 != SYSERR
    ensures !Covered(GetMem(l, nbytes).0, GetMem(l, nbytes).1) <==> nbytes <= MAXREQ
    ensures nbytes > MAXREQ ==> GetMem(l, nbytes).0 == l
  {
    if nbytes <= MAXREQ {
      var (m, a) := GetMem(l, nbytes);
      TakeOk(l, RoundMb(nbytes));
      assert In(Block(a, RoundMb(nbytes)), a);
      hide Take;
      assert Without(l, m, Block(a, RoundMb(nbytes)));
    } else {
      assert FirstFit(l, 0, 0) == 0;
      assert Splice(l, 0, 1, [Block(l[0].addr + 0, l[0].len - 0)]) == l;
      assert In(l[0], l[0].addr);
    }
  }

  /** freemem sees every overlap, and no other, exactly if the block ends within 32 bits, or its
      first byte is inside of a free block, or all free blocks begin below it. */
  lemma OverlapFound(l: seq<Block>, a: nat, n: nat)
    requires Coalesced(l) && 0 < n < TWO32 && a < TWO32
    ensures (Put(l, a, n).1 == SYSERR <==> Overlaps(l, Block(a, n))) <==>
            a + n < TWO32 || (exists k :: 0 <= k < |l| && l[k].addr < a < End(l[k]))
            || forall k :: 0 <= k < |l| ==> l[k].addr < a
  {
    if a + n < TWO32 {
      PutOk(l, a, n);
    } else {
      var j := Spot(l, a, 0);
      RoundTheEnd(l, j, a, n);
      if j > 0 && a < End(l[j - 1]) {
        assert l[j - 1].addr < a < End(l[j - 1]);
        assert In(Block(a, n), a) && In(l[j - 1], a);
      } else if j < |l| {
        assert BlockOk(l[j]);
        assert In(Block(a, n), l[j].addr) && In(l[j], l[j].addr);
        assert !(l[j].addr < a);
        NoneAcross(l, j, a);
      } else {
        NoneAbove(l, a, n);
      }
    }
  }

  /** The end of the block, in 32 bits, is below its beginning. */
  lemma RoundTheEnd(l: seq<Block>, j: nat, a: nat, n: nat)
    requires j <= |l| && 0 < n < TWO32 && a < TWO32 <= a + n && (j < |l| ==> l[j].addr >= a)
    ensures Clashes(l, j, a, n) <==> j > 0 && a < End(l[j - 1])
  {
    assert (a + n) % TWO32 == a + n - TWO32 < a;
  }

  lemma NoneAcross(l: seq<Block>, j: nat, a: nat)
    requires Coalesced(l) && j <= |l| && (j < |l| ==> l[j].addr >= a) && (j > 0 ==> a >= End(l[j - 1]))
    ensures forall k :: 0 <= k < |l| ==> !(l[k].addr < a < End(l[k]))
  {
    forall k | 0 <= k < |l|
      ensures !(l[k].addr < a < End(l[k]))
    {
      assert k < j ==> End(l[k]) <= End(l[j - 1]);
      assert k >= j ==> l[j].addr <= l[k].addr;
    }
  }

  lemma NoneAbove(l: seq<Block>, a: nat, n: nat)
    requires Coalesced(l) && (|l| > 0 ==> a >= End(l[|l| - 1]))
    ensures !Overlaps(l, Block(a, n))
  {
    forall x | In(Block(a, n), x)
      ensures !Covered(l, x)
    {
      forall k | 0 <= k < |l|
        ensures !In(l[k], x)
      {
        assert End(l[k]) <= End(l[|l| - 1]);
      }
    }
  }

  /** No block is free from address a on. */
  ghost predicate NotAt(l: seq<Block>, a: nat) {
    forall j :: 0 <= j < |l| ==> l[j].addr != a
  }

  /** freemem keeps the list in order exactly if the address is a multiple of 8 and the size can be
      rounded up, or the block touches the one before it. Where a free block begins see
      HeapTables. */
  lemma FreeMemExactly(l: seq<Block>, lo: nat, hi: nat, a: nat, nbytes: nat)
    requires Coalesced(l) && nbytes < TWO32 && FreeMem(l, lo, hi, a, nbytes).1 != SYSERR
    requires a > 0 && a + RoundMb(nbytes) < TWO32 && (nbytes > MAXREQ ==> NotAt(l, a))
    ensures Coalesced(FreeMem(l, lo, hi, a, nbytes).0) <==>
            Aligned(a) && (nbytes <= MAXREQ || JoinsLeft(l, Spot(l, a, 0), a))
  {
    hide Coalesced, Put, Spot, JoinsLeft, Aligned;
    if nbytes <= MAXREQ {
      PutOk(l, a, RoundMb(nbytes));
    } else if JoinsLeft(l, Spot(l, a, 0), a) {
      EmptyJoins(l, a);
      JoinsAligned(l, Spot(l, a, 0), a);
    } else {
      EmptyEnters(l, a);
    }
  }

  lemma JoinsAligned(l: seq<Block>, j: nat, a: nat)
    requires Coalesced(l) && j <= |l| && JoinsLeft(l, j, a)
    ensures Aligned(a)
  {
    hide Aligned;
    assert BlockOk(l[j - 1]);
    AlignedSum(l[j - 1].addr, l[j - 1].len);
  }

  /** No bytes, next to a free block. */
  lemma EmptyJoins(l: seq<Block>, a: nat)
    requires Put(l, a, 0).1 != SYSERR && JoinsLeft(l, Spot(l, a, 0), a)
    requires NotAt(l, a)
    ensures Put(l, a, 0).0 == l
  {
    hide Spot;
    var j := Spot(l, a, 0);
    assert Joined(l, j, a, 0) == l[j - 1];
    assert !JoinsRight(l, j, a, 0);
    assert l[..j - 1] + [l[j - 1]] + l[j..] == l;
  }

  /** No bytes, away from any free block. */
  lemma EmptyEnters(l: seq<Block>, a: nat)
    requires Put(l, a, 0).1 != SYSERR && !JoinsLeft(l, Spot(l, a, 0), a)
    requires NotAt(l, a)
    ensures !Coalesced(Put(l, a, 0).0)
  {
    hide Spot;
    var j := Spot(l, a, 0);
    assert !JoinsRight(l, j, a, 0);
    var m := l[..j] + [Block(a, 0)] + l[j..];
    assert Put(l, a, 0).0 == m;
    assert m[j] == Block(a, 0) && !BlockOk(m[j]);
  }
}
