/** Which block a request is served from. */
module HeapFit {
  import opened HeapSpec

  /** Block j has room for n bytes, and no block below it has. */
  ghost predicate Lowest(l: seq<Block>, j: nat, n: nat) {
    j < |l| && l[j].len >= n && forall k :: 0 <= k < |l| && l[k].addr < l[j].addr ==> l[k].len < n
  }

  /** Block j has room for n bytes, and no block above it has. */
  ghost predicate Highest(l: seq<Block>, j: nat, n: nat) {
    j < |l| && l[j].len >= n && forall k :: 0 <= k < |l| && l[k].addr > l[j].addr ==> l[k].len < n
  }

  /** A block of multiples of 8 has room for a size if and only if it has for the next
      multiple of 8. */
  lemma RoomFor(nbytes: nat, n: nat, len: nat)
    requires nbytes <= n < nbytes + 8 && n % 8 == 0 && len % 8 == 0
    ensures len >= nbytes <==> len >= n
  {
  }

  lemma RoundIs(nbytes: nat, n: nat)
    requires nbytes <= n < nbytes + 8 && n % 8 == 0 && n <= 0xFFFF_FFF8
    ensures RoundMb(nbytes) == n
  {
  }

  lemma RoomInAll(l: seq<Block>, nbytes: nat, n: nat)
    requires Coalesced(l) && nbytes <= n < nbytes + 8 && n % 8 == 0
    ensures forall k :: 0 <= k < |l| ==> (l[k].len >= nbytes <==> l[k].len >= n)
  {
    forall k | 0 <= k < |l|
      ensures l[k].len >= nbytes <==> l[k].len >= n
    {
      assert BlockOk(l[k]);
      RoomFor(nbytes, n, l[k].len);
    }
  }

  /** getmem gives the bottom of the lowest block with room for the request, rounded to a
      multiple of 8; it is refused if no block has room, or nothing is asked for. */
  lemma GetMemFits(l: seq<Block>, nbytes: nat, n: nat)
    requires Coalesced(l) && nbytes <= n < nbytes + 8 && n % 8 == 0 && n <= 0xFFFF_FFF8
    ensures GetMem(l, nbytes).1 == -1 <==> nbytes == 0 || forall k :: 0 <= k < |l| ==> l[k].len < nbytes
    ensures var (m, a) := GetMem(l, nbytes);
            a != -1 ==>
              && (exists j: nat :: Lowest(l, j, nbytes) && a == l[j].addr)
              && Coalesced(m) && forall x :: Covered(m, x) <==> Covered(l, x) && !(a <= x < a + n)
  {
    if nbytes > 0 {
      RoundIs(nbytes, n);
      RoomInAll(l, nbytes, n);
      TakeOk(l, n);
      var j := FirstFit(l, n, 0);
      if j < |l| {
        assert forall k :: j < k < |l| ==> l[j].addr < l[k].addr;
        assert Lowest(l, j, nbytes);
        hide Coalesced, Splice, Covered;
        assert forall x :: In(Block(l[j].addr, n), x) <==> l[j].addr <= x < l[j].addr + n;
      }
    }
  }

  /** getstk gives the top of the highest block with room; the answer is its last word. */
  lemma GetStkFits(l: seq<Block>, nbytes: nat, n: nat)
    requires Coalesced(l) && nbytes <= n < nbytes + 8 && n % 8 == 0 && n <= 0xFFFF_FFF8
    ensures GetStk(l, nbytes).1 == -1 <==> nbytes == 0 || forall k :: 0 <= k < |l| ==> l[k].len < nbytes
    ensures var (m, a) := GetStk(l, nbytes);
            a != -1 ==>
              && (exists j: nat :: Highest(l, j, nbytes) && a + 4 == l[j].addr + l[j].len)
              && Coalesced(m) && forall x :: Covered(m, x) <==> Covered(l, x) && !(a + 4 - n <= x < a + 4)
  {
    if nbytes > 0 {
      RoundIs(nbytes, n);
      RoomInAll(l, nbytes, n);
      TakeTopOk(l, n);
      var j := LastFit(l, n, |l|);
      if j >= 0 {
        assert forall k :: 0 <= k < j ==> l[k].addr < l[j].addr;
        assert Highest(l, j, nbytes);
        assert l[j].len >= n;
        hide Coalesced, Splice, Covered;
        var b := Block(End(l[j]) - n, n);
        assert forall x :: In(b, x) <==> End(l[j]) - n <= x < End(l[j]);
      }
    }
  }

  /** freemem is refused if nothing is given back, the address is outside of the heap, or
      some byte of the block, rounded to a multiple of 8, is free. */
  lemma FreeMemRefused(l: seq<Block>, minheap: nat, maxheap: nat, a: nat, nbytes: nat, n: nat)
    requires Coalesced(l) && nbytes <= n < nbytes + 8 && n % 8 == 0 && a + n < 0x1_0000_0000
    ensures var (m, r) := FreeMem(l, minheap, maxheap, a, nbytes);
            && (r == -1 <==> nbytes == 0 || a < minheap || a > maxheap || exists x :: a <= x < a + n && Covered(l, x))
            && (r == -1 ==> m == l)
            && (r != -1 ==> r == 1 && forall x :: Covered(m, x) <==> Covered(l, x) || a <= x < a + n)
  {
    if nbytes > 0 {
      RoundIs(nbytes, n);
      PutOk(l, a, n);
      hide Coalesced, Covered, Splice, Joined;
      assert forall x :: In(Block(a, n), x) <==> a <= x < a + n;
    }
  }

  /** Two blocks of the same size: getmem takes the lower one, getstk the higher one. */
  lemma LowAndHigh()
    ensures GetMem([Block(4096, 16), Block(8192, 16)], 8) == ([Block(4104, 8), Block(8192, 16)], 4096)
    ensures GetStk([Block(4096, 16), Block(8192, 16)], 8) == ([Block(4096, 16), Block(8192, 8)], 8204)
  {
    var l := [Block(4096, 16), Block(8192, 16)];
    RoundIs(8, 8);
    assert FirstFit(l, 8, 0) == 0 && LastFit(l, 8, 2) == 1;
    assert Splice(l, 0, 1, [Block(4104, 8)]) == [Block(4104, 8), Block(8192, 16)];
    assert Splice(l, 1, 2, [Block(8192, 8)]) == [Block(4096, 16), Block(8192, 8)];
  }
}
