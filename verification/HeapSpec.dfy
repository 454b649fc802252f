/** The free memory of the heap as a list of blocks, and what getmem, getstk and freemem do
    to it. */
module HeapSpec {

  const SYSERR := -1
  const NULL := 0
  const TWO32 := 0x1_0000_0000

  /** The largest size that can be rounded up within 32 bits. */
  const MAXREQ := 0xFFFF_FFF8

  datatype Block = Block(addr: nat, len: nat)

  function End(b: Block): nat {
    b.addr + b.len
  }

  predicate In(b: Block, x: int) {
    b.addr <= x < End(b)
  }

  /** Byte x is free. */
  ghost predicate Covered(l: seq<Block>, x: int) {
    exists j :: 0 <= j < |l| && In(l[j], x)
  }

  predicate Aligned(n: int) {
    n % 8 == 0
  }

  predicate BlockOk(b: Block) {
    0 < b.addr && 0 < b.len && End(b) <= MAXREQ && Aligned(b.addr) && Aligned(b.len)
  }

  /** In order of address, aligned, and with a gap between any two. */
  ghost predicate Coalesced(l: seq<Block>) {
    && (forall j :: 0 <= j < |l| ==> BlockOk(l[j]))
    && (forall i, j :: 0 <= i < j < |l| ==> End(l[i]) < l[j].addr)
  }

  /** roundmb, in 32 bits. */
  function RoundMb(n: nat): (r: nat)
    requires n < TWO32
    ensures Aligned(r) && r <= MAXREQ
    ensures n <= MAXREQ ==> n <= r < n + 8
    ensures n > MAXREQ ==> r == 0
  {
    (7 + n) % TWO32 / 8 * 8
  }

  /** The first block, from i on, of at least n bytes, or |l|. */
  function FirstFit(l: seq<Block>, n: nat, i: nat): (j: nat)
    requires i <= |l|
    ensures i <= j <= |l| && (j < |l| ==> l[j].len >= n) && forall k :: i <= k < j ==> l[k].len < n
    decreases |l| - i
  {
    if i == |l| || l[i].len >= n then i else FirstFit(l, n, i + 1)
  }

  /** The last of the first i blocks of at least n bytes, or -1. */
  function LastFit(l: seq<Block>, n: nat, i: nat): (j: int)
    requires i <= |l|
    ensures -1 <= j < i && (j >= 0 ==> l[j].len >= n) && forall k :: j < k < i ==> l[k].len < n
  {
    if i == 0 then -1 else if l[i - 1].len >= n then i - 1 else LastFit(l, n, i - 1)
  }

  /** How many blocks, from i on, lie below address a. */
  function Spot(l: seq<Block>, a: nat, i: nat): (j: nat)
    requires i <= |l|
    ensures i <= j <= |l| && (j < |l| ==> l[j].addr >= a) && forall k :: i <= k < j ==> l[k].addr < a
    decreases |l| - i
  {
    if i == |l| || l[i].addr >= a then i else Spot(l, a, i + 1)
  }

  /** The list with xs in place of its blocks from i up to j. */
  function Splice(l: seq<Block>, i: nat, j: nat, xs: seq<Block>): seq<Block>
    requires i <= j <= |l|
  {
    l[..i] + xs + l[j..]
  }

  // ---- the calls ----

  /** getmem for n bytes, rounded already: the bottom of the first block that is large enough. */
  function Take(l: seq<Block>, n: nat): (seq<Block>, int) {
    var j := FirstFit(l, n, 0);
    if j == |l| then (l, SYSERR)
    else if l[j].len == n then (Splice(l, j, j + 1, []), l[j].addr)
    else (Splice(l, j, j + 1, [Block(l[j].addr + n, l[j].len - n)]), l[j].addr)
  }

  function GetMem(l: seq<Block>, nbytes: nat): (seq<Block>, int)
    requires nbytes < TWO32
  {
    if nbytes == 0 then (l, SYSERR) else Take(l, RoundMb(nbytes))
  }

  /** getstk likewise: the top of the last block that is large enough. The result is the
      lowest address; the call returns the highest word. */
  function TakeTop(l: seq<Block>, n: nat): (seq<Block>, int) {
    var j := LastFit(l, n, |l|);
    if j < 0 then (l, SYSERR)
    else if l[j].len == n then (Splice(l, j, j + 1, []), l[j].addr)
    else (Splice(l, j, j + 1, [Block(l[j].addr, l[j].len - n)]), End(l[j]) - n)
  }

  function GetStk(l: seq<Block>, nbytes: nat): (seq<Block>, int)
    requires nbytes < TWO32
  {
    if nbytes == 0 then (l, SYSERR)
    else
      var (m, a) := TakeTop(l, RoundMb(nbytes));
      if a == SYSERR then (l, SYSERR) else (m, a + RoundMb(nbytes) - 4)
  }

  /** The new block overlaps its neighbours, as freemem finds it. */
  predicate Clashes(l: seq<Block>, j: nat, a: nat, n: nat)
    requires j <= |l|
  {
    (j > 0 && a < End(l[j - 1])) || (j < |l| && (a + n) % TWO32 > l[j].addr)
  }

  predicate JoinsLeft(l: seq<Block>, j: nat, a: nat)
    requires j <= |l|
  {
    j > 0 && End(l[j - 1]) == a
  }

  predicate JoinsRight(l: seq<Block>, j: nat, a: nat, n: nat)
    requires j <= |l|
  {
    j < |l| && a + n == l[j].addr
  }

  /** The block that is entered, together with the neighbours that it touches. */
  function Joined(l: seq<Block>, j: nat, a: nat, n: nat): Block
    requires j <= |l|
  {
    var low := if JoinsLeft(l, j, a) then l[j - 1].addr else a;
    Block(low, (if JoinsLeft(l, j, a) then l[j - 1].len else 0) + n + if JoinsRight(l, j, a, n) then l[j].len else 0)
  }

  /** freemem for n bytes, rounded already. */
  function Put(l: seq<Block>, a: nat, n: nat): (seq<Block>, int) {
    var j := Spot(l, a, 0);
    if Clashes(l, j, a, n) then (l, SYSERR)
    else (Splice(l, if JoinsLeft(l, j, a) then j - 1 else j, if JoinsRight(l, j, a, n) then j + 1 else j,
                 [Joined(l, j, a, n)]), 1)
  }

  function FreeMem(l: seq<Block>, minheap: nat, maxheap: nat, a: nat, nbytes: nat): (seq<Block>, int)
    requires nbytes < TWO32
  {
    if nbytes == 0 || a < minheap || a > maxheap then (l, SYSERR) else Put(l, a, RoundMb(nbytes))
  }

  // ---- what they mean ----

  ghost predicate Free(l: seq<Block>, b: Block) {
    forall x :: In(b, x) ==> Covered(l, x)
  }

  ghost predicate Overlaps(l: seq<Block>, b: Block) {
    exists x :: In(b, x) && Covered(l, x)
  }

  /** m has the free bytes of l without those of b. */
  ghost predicate Without(l: seq<Block>, m: seq<Block>, b: Block) {
    forall x {:trigger Covered(m, x)} :: Covered(m, x) <==> Covered(l, x) && !In(b, x)
  }

  /** m has the free bytes of l and those of b. */
  ghost predicate With(l: seq<Block>, m: seq<Block>, b: Block) {
    forall x {:trigger Covered(m, x)} :: Covered(m, x) <==> Covered(l, x) || In(b, x)
  }

  // ---- replacing some blocks by others ----

  lemma CoverCat(a: seq<Block>, b: seq<Block>, x: int)
    ensures Covered(a + b, x) <==> Covered(a, x) || Covered(b, x)
  {
    if Covered(a + b, x) {
      var k :| 0 <= k < |a + b| && In((a + b)[k], x);
      assert if k < |a| then In(a[k], x) else In(b[k - |a|], x);
    }
    if Covered(a, x) {
      var k :| 0 <= k < |a| && In(a[k], x);
      assert In((a + b)[k], x);
    }
    if Covered(b, x) {
      var k :| 0 <= k < |b| && In(b[k], x);
      assert In((a + b)[|a| + k], x);
    }
  }

  lemma SpliceCover(l: seq<Block>, i: nat, j: nat, xs: seq<Block>, x: int)
    requires i <= j <= |l|
    ensures Covered(Splice(l, i, j, xs), x) <==> Covered(l[..i], x) || Covered(xs, x) || Covered(l[j..], x)
    ensures Covered(l, x) <==> Covered(l[..i], x) || Covered(l[i..j], x) || Covered(l[j..], x)
  {
    hide Covered;
    CoverCat(l[..i] + xs, l[j..], x);
    CoverCat(l[..i], xs, x);
    CoverCat(l[..i] + l[i..j], l[j..], x);
    CoverCat(l[..i], l[i..j], x);
    assert l[..i] + l[i..j] + l[j..] == l;
  }

  lemma Elsewhere(l: seq<Block>, i: nat, j: nat, x: int)
    requires Coalesced(l) && i <= j <= |l| && Covered(l[i..j], x)
    ensures !Covered(l[..i], x) && !Covered(l[j..], x)
  {
    var k :| 0 <= k < |l[i..j]| && In(l[i..j][k], x);
    assert In(l[i + k], x);
  }

  lemma CoverOne(b: Block, x: int)
    ensures Covered([b], x) <==> In(b, x)
    ensures !Covered([], x)
  {
    if In(b, x) {
      assert In([b][0], x);
    }
  }

  lemma CoalescedCat(a: seq<Block>, b: seq<Block>)
    requires Coalesced(a) && Coalesced(b) && (|a| > 0 && |b| > 0 ==> End(a[|a| - 1]) < b[0].addr)
    ensures Coalesced(a + b)
  {
    hide Aligned;
    assert forall k :: 0 <= k < |a| ==> BlockOk(a[k]) && End(a[k]) <= End(a[|a| - 1]);
    assert forall k :: 0 <= k < |b| ==> BlockOk(b[k]) && b[0].addr <= b[k].addr;
  }

  lemma CoalescedPart(l: seq<Block>, i: nat, j: nat)
    requires Coalesced(l) && i <= j <= |l|
    ensures Coalesced(l[i..j])
  {
    hide BlockOk;
    assert forall k :: 0 <= k < j - i ==> l[i..j][k] == l[i + k];
  }

  lemma SpliceCoalesced(l: seq<Block>, i: nat, j: nat, xs: seq<Block>)
    requires Coalesced(l) && i <= j <= |l| && |xs| <= 1
    requires |xs| == 1 ==>
               && BlockOk(xs[0]) && (i > 0 ==> End(l[i - 1]) < xs[0].addr) && (j < |l| ==> End(xs[0]) < l[j].addr)
    ensures Coalesced(Splice(l, i, j, xs))
  {
    hide Aligned;
    assert l[j..] == l[j..|l|] && l[..i] == l[0..i];
    CoalescedPart(l, 0, i);
    CoalescedPart(l, j, |l|);
    assert i > 0 && j < |l| ==> End(l[i - 1]) < l[j].addr;
    CoalescedCat(l[..i], xs);
    CoalescedCat(l[..i] + xs, l[j..]);
  }

  lemma AlignedSum(a: int, b: int)
    requires Aligned(a) && Aligned(b)
    ensures Aligned(a + b) && Aligned(a - b)
  {
  }

  /** Replacing block j by a part of it. */
  lemma Shrunk(l: seq<Block>, j: nat, xs: seq<Block>, b: Block)
    requires Coalesced(l) && j < |l| && |xs| <= 1
    requires forall x :: In(l[j], x) <==> In(b, x) || (|xs| == 1 && In(xs[0], x))
    requires |xs| == 1 ==> BlockOk(xs[0]) && l[j].addr <= xs[0].addr && End(xs[0]) <= End(l[j])
    requires |xs| == 1 ==> forall x :: !(In(b, x) && In(xs[0], x))
    ensures var m := Splice(l, j, j + 1, xs); Coalesced(m) && Without(l, m, b) && Free(l, b)
  {
    SpliceCoalesced(l, j, j + 1, xs);
    assert l[j..j + 1] == [l[j]] && (|xs| == 1 ==> xs == [xs[0]]);
    forall x
      ensures Covered(Splice(l, j, j + 1, xs), x) <==> Covered(l, x) && !In(b, x)
      ensures In(b, x) ==> Covered(l, x)
    {
      SpliceCover(l, j, j + 1, xs, x);
      CoverOne(l[j], x);
      if |xs| == 1 {
        CoverOne(xs[0], x);
      }
      if In(l[j], x) {
        Elsewhere(l, j, j + 1, x);
      }
    }
  }

  /** getmem gives bytes that were free and are not free any more, and no others change; it
      fails exactly when no block is large enough. */
  lemma TakeOk(l: seq<Block>, n: nat)
    requires Coalesced(l) && n > 0 && Aligned(n)
    ensures Take(l, n).1 == SYSERR <==> forall j :: 0 <= j < |l| ==> l[j].len < n
    ensures Take(l, n).1 == SYSERR ==> Take(l, n).0 == l
    ensures Take(l, n).1 != SYSERR ==>
              var (m, a) := Take(l, n);
              a > 0 && BlockOk(Block(a, n)) && Coalesced(m) && Without(l, m, Block(a, n)) && Free(l, Block(a, n))
  {
    hide Aligned, Without, Free, Splice;
    var j := FirstFit(l, n, 0);
    if j < |l| {
      assert BlockOk(l[j]);
      AlignedSum(l[j].addr, n);
      AlignedSum(l[j].len, n);
      Shrunk(l, j, if l[j].len == n then [] else [Block(l[j].addr + n, l[j].len - n)], Block(l[j].addr, n));
    }
  }

  /** getstk likewise. */
  lemma TakeTopOk(l: seq<Block>, n: nat)
    requires Coalesced(l) && n > 0 && Aligned(n)
    ensures TakeTop(l, n).1 == SYSERR <==> forall j :: 0 <= j < |l| ==> l[j].len < n
    ensures TakeTop(l, n).1 == SYSERR ==> TakeTop(l, n).0 == l
    ensures TakeTop(l, n).1 != SYSERR ==>
              var (m, a) := TakeTop(l, n);
              a > 0 && BlockOk(Block(a, n)) && Coalesced(m) && Without(l, m, Block(a, n)) && Free(l, Block(a, n))
  {
    hide Aligned, Without, Free, Splice;
    var j := LastFit(l, n, |l|);
    if j >= 0 {
      assert BlockOk(l[j]);
      AlignedSum(l[j].addr, l[j].len);
      AlignedSum(End(l[j]), n);
      AlignedSum(l[j].len, n);
      Shrunk(l, j, if l[j].len == n then [] else [Block(l[j].addr, l[j].len - n)], Block(End(l[j]) - n, n));
    }
  }

  /** freemem, for any block within 32 bits, fails exactly when some byte is free already, and
      otherwise frees the bytes and no others; the list stays in order exactly if the address is
      a multiple of 8. */
  lemma PutOk(l: seq<Block>, a: nat, n: nat)
    requires Coalesced(l) && 0 < n && a + n < TWO32
    ensures Put(l, a, n).1 == SYSERR <==> Overlaps(l, Block(a, n))
    ensures Put(l, a, n).1 == SYSERR ==> Put(l, a, n).0 == l
    ensures Put(l, a, n).1 != SYSERR ==> With(l, Put(l, a, n).0, Block(a, n))
    ensures Put(l, a, n).1 != SYSERR && a > 0 && Aligned(n) ==> (Coalesced(Put(l, a, n).0) <==> Aligned(a))
  {
    hide Aligned, With, Overlaps, Joined, Coalesced, Splice, Spot;
    var j := Spot(l, a, 0);
    ClashesExactly(l, j, a, n);
    if !Clashes(l, j, a, n) {
      PutCovers(l, j, a, n);
      if a > 0 && Aligned(n) {
        if Aligned(a) {
          PutInOrder(l, j, a, n);
        } else {
          PutAskew(l, j, a, n);
        }
      }
    }
  }

  lemma PutInOrder(l: seq<Block>, j: nat, a: nat, n: nat)
    requires Coalesced(l) && a > 0 && 0 < n && a + n < TWO32 && Aligned(a) && Aligned(n)
    requires j == Spot(l, a, 0) && !Clashes(l, j, a, n)
    ensures var i, h := if JoinsLeft(l, j, a) then j - 1 else j, if JoinsRight(l, j, a, n) then j + 1 else j;
            Coalesced(Splice(l, i, h, [Joined(l, j, a, n)]))
  {
    hide Joined, Splice, Spot, Coalesced, Clashes;
    assert BlockOk(Block(a, n));
    JoinedOk(l, j, a, n);
    SpliceCoalesced(l, if JoinsLeft(l, j, a) then j - 1 else j, if JoinsRight(l, j, a, n) then j + 1 else j,
                    [Joined(l, j, a, n)]);
  }

  /** At any other address a block is entered that is not aligned; it touches none before it. */
  lemma PutAskew(l: seq<Block>, j: nat, a: nat, n: nat)
    requires Coalesced(l) && !Aligned(a) && j <= |l|
    ensures var i, h := if JoinsLeft(l, j, a) then j - 1 else j, if JoinsRight(l, j, a, n) then j + 1 else j;
            !Coalesced(Splice(l, i, h, [Joined(l, j, a, n)]))
  {
    hide Spot;
    if j > 0 {
      assert BlockOk(l[j - 1]);
      AlignedSum(l[j - 1].addr, l[j - 1].len);
    }
    var h := if JoinsRight(l, j, a, n) then j + 1 else j;
    var m := Splice(l, j, h, [Joined(l, j, a, n)]);
    assert m[j] == Joined(l, j, a, n) && !BlockOk(m[j]);
  }

  lemma ClashesExactly(l: seq<Block>, j: nat, a: nat, n: nat)
    requires Coalesced(l) && 0 < n && a + n < TWO32 && j <= |l|
    requires (forall k :: 0 <= k < j ==> l[k].addr < a) && (j < |l| ==> l[j].addr >= a)
    ensures Clashes(l, j, a, n) <==> Overlaps(l, Block(a, n))
  {
    hide Aligned;
    var b := Block(a, n);
    if j > 0 && a < End(l[j - 1]) {
      assert In(b, a) && In(l[j - 1], a);
    } else if j < |l| && a + n > l[j].addr {
      assert BlockOk(l[j]);
      assert In(b, l[j].addr) && In(l[j], l[j].addr);
    } else {
      forall x | In(b, x)
        ensures !Covered(l, x)
      {
        forall k | 0 <= k < |l|
          ensures !In(l[k], x)
        {
          assert k < j ==> End(l[k]) <= End(l[j - 1]);
          assert k >= j ==> l[j].addr <= l[k].addr;
        }
      }
    }
  }

  lemma JoinedOk(l: seq<Block>, j: nat, a: nat, n: nat)
    requires Coalesced(l) && BlockOk(Block(a, n)) && j == Spot(l, a, 0) && !Clashes(l, j, a, n)
    ensures var i, h := if JoinsLeft(l, j, a) then j - 1 else j, if JoinsRight(l, j, a, n) then j + 1 else j;
            var b := Joined(l, j, a, n);
            BlockOk(b) && (i > 0 ==> End(l[i - 1]) < b.addr) && (h < |l| ==> End(b) < l[h].addr)
  {
    hide Aligned;
    if j > 0 {
      assert BlockOk(l[j - 1]);
      AlignedSum(l[j - 1].len, n);
    }
    if j < |l| {
      assert BlockOk(l[j]);
      AlignedSum(n, l[j].len);
      if j > 0 {
        AlignedSum(l[j - 1].len + n, l[j].len);
      }
    }
  }

  lemma JoinedCovers(l: seq<Block>, j: nat, a: nat, n: nat)
    requires Coalesced(l) && 0 < n && a + n < TWO32 && j <= |l| && !Clashes(l, j, a, n)
    ensures var b := Joined(l, j, a, n);
            forall x :: In(b, x) <==> In(Block(a, n), x) || (JoinsLeft(l, j, a) && In(l[j - 1], x))
                                      || (JoinsRight(l, j, a, n) && In(l[j], x))
  {
    hide Aligned;
  }

  lemma PutCovers(l: seq<Block>, j: nat, a: nat, n: nat)
    requires Coalesced(l) && 0 < n && a + n < TWO32 && j <= |l| && !Clashes(l, j, a, n)
    ensures var i, h := if JoinsLeft(l, j, a) then j - 1 else j, if JoinsRight(l, j, a, n) then j + 1 else j;
            With(l, Splice(l, i, h, [Joined(l, j, a, n)]), Block(a, n))
  {
    var i, h := if JoinsLeft(l, j, a) then j - 1 else j, if JoinsRight(l, j, a, n) then j + 1 else j;
    var b := Joined(l, j, a, n);
    JoinedCovers(l, j, a, n);
    hide Coalesced, Clashes, Joined;
    forall x
      ensures Covered(Splice(l, i, h, [b]), x) <==> Covered(l, x) || In(Block(a, n), x)
    {
      SpliceCover(l, i, h, [b], x);
      CoverOne(b, x);
      CoverPart(l, i, h, x);
    }
  }

  /** At most two blocks. */
  lemma CoverPart(l: seq<Block>, i: nat, h: nat, x: int)
    requires i <= h <= |l| && h <= i + 2
    ensures Covered(l[i..h], x) <==> (i < h && In(l[i], x)) || (i + 1 < h && In(l[i + 1], x))
  {
    if i < h && In(l[i], x) {
      assert In(l[i..h][0], x);
    }
    if i + 1 < h && In(l[i + 1], x) {
      assert In(l[i..h][1], x);
    }
  }
}
