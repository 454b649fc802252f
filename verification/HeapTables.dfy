/** The heap as the source has it: every free block starts with a header that holds the
    address of the next one and its own length, and memlist heads the list. */
module HeapTables {
  import opened HeapSpec
  import opened HeapLaws

  datatype Memblk = Memblk(mnext: nat, mlength: nat)

  /** The address of memlist, where a block would have its own. */
  const HEAD := -1

  /** Where block j is, and where the one before it has its header. */
  function At(l: seq<Block>, j: nat): nat {
    if j < |l| then l[j].addr else NULL
  }

  function Before(l: seq<Block>, j: nat): int
    requires j <= |l|
  {
    if j == 0 then HEAD else l[j - 1].addr
  }

  /** In order of address and apart, within 32 bits. */
  ghost predicate Plain(l: seq<Block>) {
    && (forall j :: 0 <= j < |l| ==> 0 < l[j].addr && End(l[j]) < TWO32)
    && (forall i, j :: 0 <= i < j < |l| ==> l[i].addr < l[j].addr && End(l[i]) <= l[j].addr)
  }

  /** The header of block j. */
  ghost predicate HeaderAt(mem: map<nat, Memblk>, l: seq<Block>, j: nat)
    requires j < |l|
  {
    l[j].addr in mem && mem[l[j].addr] == Memblk(At(l, j + 1), l[j].len)
  }

  ghost predicate Linked(mem: map<nat, Memblk>, l: seq<Block>) {
    forall j :: 0 <= j < |l| ==> HeaderAt(mem, l, j)
  }

  lemma CoalescedPlain(l: seq<Block>)
    requires Coalesced(l)
    ensures Plain(l)
  {
  }

  lemma PlainCat(a: seq<Block>, b: seq<Block>)
    requires Plain(a) && Plain(b)
    requires |a| > 0 && |b| > 0 ==> a[|a| - 1].addr < b[0].addr && End(a[|a| - 1]) <= b[0].addr
    ensures Plain(a + b)
  {
    hide Plain;
    forall k | 0 <= k < |a + b|
      ensures 0 < (a + b)[k].addr && End((a + b)[k]) < TWO32
    {
      if k < |a| {
        PlainAt(a, k, k);
      } else {
        PlainAt(b, k - |a|, k - |a|);
      }
    }
    forall i, j | 0 <= i < j < |a + b|
      ensures (a + b)[i].addr < (a + b)[j].addr && End((a + b)[i]) <= (a + b)[j].addr
    {
      PlainCatAt(a, b, i, j);
    }
    PlainAll(a + b);
  }

  lemma PlainAll(l: seq<Block>)
    requires forall j :: 0 <= j < |l| ==> 0 < l[j].addr && End(l[j]) < TWO32
    requires forall i, j :: 0 <= i < j < |l| ==> l[i].addr < l[j].addr && End(l[i]) <= l[j].addr
    ensures Plain(l)
  {
  }

  lemma PlainAt(l: seq<Block>, i: nat, j: nat)
    requires Plain(l) && i <= j < |l|
    ensures 0 < l[i].addr && End(l[i]) < TWO32
    ensures i < j ==> l[i].addr < l[j].addr && End(l[i]) <= l[j].addr
  {
  }

  lemma PlainCatAt(a: seq<Block>, b: seq<Block>, i: nat, j: nat)
    requires Plain(a) && Plain(b) && i < j < |a + b|
    requires |a| > 0 && |b| > 0 ==> a[|a| - 1].addr < b[0].addr && End(a[|a| - 1]) <= b[0].addr
    ensures (a + b)[i].addr < (a + b)[j].addr && End((a + b)[i]) <= (a + b)[j].addr
  {
    hide Plain;
    if j < |a| {
      PlainAt(a, i, j);
    } else if i >= |a| {
      PlainAt(b, i - |a|, j - |a|);
    } else {
      PlainAt(a, i, |a| - 1);
      PlainAt(b, 0, j - |a|);
    }
  }

  lemma PlainPart(l: seq<Block>, i: nat, j: nat)
    requires Plain(l) && i <= j <= |l|
    ensures Plain(l[i..j])
  {
    assert forall k :: 0 <= k < j - i ==> l[i..j][k] == l[i + k];
  }

  lemma PlainRemove(l: seq<Block>, i: nat, h: nat)
    requires Plain(l) && i <= h <= |l|
    ensures Plain(Splice(l, i, h, []))
  {
    hide Plain;
    var low, high := l[0..i], l[h..|l|];
    PlainPart(l, 0, i);
    PlainPart(l, h, |l|);
    if i > 0 && h < |l| {
      PlainGap(l, i, h);
    }
    PlainCat(low, high);
    assert Splice(l, i, h, []) == low + high;
  }

  /** Block b fits in place of blocks i up to h. */
  ghost predicate Fits(l: seq<Block>, i: nat, h: nat, b: Block)
    requires i <= h <= |l|
  {
    && 0 < b.addr && End(b) < TWO32
    && (i > 0 ==> l[i - 1].addr < b.addr && End(l[i - 1]) <= b.addr)
    && (h < |l| ==> b.addr < l[h].addr && End(b) <= l[h].addr)
  }

  lemma PlainReplace(l: seq<Block>, i: nat, h: nat, b: Block)
    requires Plain(l) && i <= h <= |l| && Fits(l, i, h, b)
    ensures Plain(Splice(l, i, h, [b]))
  {
    hide Plain, End;
    var low, high := l[0..i], l[h..|l|];
    PlainPart(l, 0, i);
    PlainPart(l, h, |l|);
    PlainOne(b);
    PlainCat(low, [b]);
    var m := low + [b];
    assert m[|m| - 1] == b;
    PlainCat(m, high);
    assert Splice(l, i, h, [b]) == m + high;
  }

  lemma PlainOne(b: Block)
    requires 0 < b.addr && End(b) < TWO32
    ensures Plain([b])
  {
  }

  lemma PlainGap(l: seq<Block>, i: nat, h: nat)
    requires Plain(l) && 0 < i <= h < |l|
    ensures l[i - 1].addr < l[h].addr && End(l[i - 1]) <= l[h].addr
  {
  }

  lemma SpliceAt(l: seq<Block>, i: nat, h: nat, xs: seq<Block>, k: nat)
    requires i <= h <= |l| && |xs| <= 1 && k < |Splice(l, i, h, xs)|
    ensures var m, d := Splice(l, i, h, xs), h - i - |xs|;
            && m[k] == (if k < i then l[k] else if k < i + |xs| then xs[0] else l[k + d])
            && At(m, k + 1) == if k + 1 < i then l[k + 1].addr
                               else if k + 1 < i + |xs| then xs[0].addr
                               else At(l, k + 1 + d)
  {
    var m, d := Splice(l, i, h, xs), h - i - |xs|;
    assert k + 1 < |m| ==> m[k + 1] == if k + 1 < i then l[k + 1] else if k + 1 < i + |xs| then xs[0] else l[k + 1 + d];
  }

  lemma SpliceFirst(l: seq<Block>, i: nat, h: nat, xs: seq<Block>)
    requires i <= h <= |l| && |xs| <= 1
    ensures At(Splice(l, i, h, xs), 0) == if i > 0 then l[0].addr else if |xs| == 1 then xs[0].addr else At(l, h)
  {
  }

  /** Blocks i up to h are replaced by xs; only the header before them and that of xs are
      new. */
  lemma Relinked(mem: map<nat, Memblk>, t: map<nat, Memblk>, l: seq<Block>, i: nat, h: nat, xs: seq<Block>)
    requires Linked(mem, l) && i <= h <= |l| && |xs| <= 1
    requires forall k {:trigger l[k]} :: 0 <= k < i - 1 || h <= k < |l| ==>
               l[k].addr in mem && l[k].addr in t && t[l[k].addr] == mem[l[k].addr]
    requires i > 0 ==>
               l[i - 1].addr in t && t[l[i - 1].addr] == Memblk(if |xs| == 1 then xs[0].addr else At(l, h),
                                                                l[i - 1].len)
    requires |xs| == 1 ==> xs[0].addr in t && t[xs[0].addr] == Memblk(At(l, h), xs[0].len)
    ensures Linked(t, Splice(l, i, h, xs))
  {
    var m := Splice(l, i, h, xs);
    forall k | 0 <= k < |m|
      ensures HeaderAt(t, m, k)
    {
      SpliceAt(l, i, h, xs, k);
      hide Splice;
      if k < i {
        assert HeaderAt(mem, l, k);
      } else if k >= i + |xs| {
        assert HeaderAt(mem, l, k + h - i - |xs|);
      }
    }
  }

  /** Address b is that of block i, or between the blocks before i and those from h on. */
  ghost predicate Within(l: seq<Block>, i: nat, h: nat, b: int)
    requires i <= h <= |l|
  {
    || (i < h && b == l[i].addr)
    || ((i > 0 ==> End(l[i - 1]) <= b) && (if i < h then b < End(l[h - 1]) else i < |l| ==> b < l[i].addr))
  }

  /** Headers of blocks other than those that were written. */
  lemma OthersKept(mem: map<nat, Memblk>, t: map<nat, Memblk>, l: seq<Block>, i: nat, h: nat, a: int, b: int)
    requires Plain(l) && Linked(mem, l) && i <= h <= |l| && a == Before(l, i) && (b == HEAD || Within(l, i, h, b))
    requires forall x :: x in mem && x != a && x != b ==> x in t && t[x] == mem[x]
    ensures forall k {:trigger l[k]} :: 0 <= k < i - 1 || h <= k < |l| ==>
              l[k].addr in mem && l[k].addr in t && t[l[k].addr] == mem[l[k].addr]
  {
    forall k | 0 <= k < |l| && (k < i - 1 || h <= k)
      ensures l[k].addr in mem && l[k].addr in t && t[l[k].addr] == mem[l[k].addr]
    {
      assert HeaderAt(mem, l, k);
      assert i > 0 ==> l[k].addr != l[i - 1].addr;
    }
  }

  lemma HeadersOn(mem: map<nat, Memblk>, t: map<nat, Memblk>, l: seq<Block>, j: nat)
    requires Plain(l) && j < |l| && forall k :: j < k < |l| ==> HeaderAt(mem, l, k)
    requires t == mem[l[j].addr := Memblk(At(l, j + 1), l[j].len)]
    ensures forall k :: j <= k < |l| ==> HeaderAt(t, l, k)
  {
    forall k | j <= k < |l|
      ensures HeaderAt(t, l, k)
    {
      assert k > j ==> HeaderAt(mem, l, k) && l[j].addr < l[k].addr;
    }
  }

  /** The block at a, to be entered at place j, overlaps no other. */
  ghost predicate Clear(l: seq<Block>, j: nat, a: nat, n: nat)
    requires j <= |l|
  {
    (j > 0 ==> End(l[j - 1]) <= a && l[j - 1].addr < a) && (j < |l| ==> a <= l[j].addr && a + n <= l[j].addr)
  }

  /** An empty block is entered where block j is, which then follows itself. */
  ghost predicate Loops(l: seq<Block>, j: nat, a: nat, n: nat)
    requires j <= |l|
  {
    n == 0 && j < |l| && l[j].addr == a && !JoinsLeft(l, j, a)
  }

  /** The headers after block a was entered at place j, joined to its neighbours. */
  lemma EnterOk(mem: map<nat, Memblk>, t: map<nat, Memblk>, l: seq<Block>, j: nat, a: nat, n: nat)
    requires Plain(l) && Linked(mem, l) && j <= |l| && 0 < a && a + n < TWO32
    requires Clear(l, j, a, n) && !Loops(l, j, a, n)
    requires var b, h := Joined(l, j, a, n), if JoinsRight(l, j, a, n) then j + 1 else j;
             && b.addr in t && t[b.addr] == Memblk(At(l, h), b.len)
             && (!JoinsLeft(l, j, a) && j > 0 ==> l[j - 1].addr in t && t[l[j - 1].addr] == Memblk(a, l[j - 1].len))
             && forall x :: x in mem && x != b.addr && (j == 0 || x != l[j - 1].addr) ==> x in t && t[x] == mem[x]
    ensures var i, h := if JoinsLeft(l, j, a) then j - 1 else j, if JoinsRight(l, j, a, n) then j + 1 else j;
            var m := Splice(l, i, h, [Joined(l, j, a, n)]);
            Linked(t, m) && Plain(m) && At(m, 0) == if i > 0 then l[0].addr else Joined(l, j, a, n).addr
  {
    var i, h := if JoinsLeft(l, j, a) then j - 1 else j, if JoinsRight(l, j, a, n) then j + 1 else j;
    var b := Joined(l, j, a, n);
    EnterFits(l, j, a, n);
    if i > 0 {
      assert HeaderAt(mem, l, i - 1);
    }
    hide Plain, Linked, Splice, Joined;
    OthersKept(mem, t, l, i, h, Before(l, i), b.addr);
    Relinked(mem, t, l, i, h, [b]);
    PlainReplace(l, i, h, b);
    SpliceFirst(l, i, h, [b]);
  }

  lemma EnterFits(l: seq<Block>, j: nat, a: nat, n: nat)
    requires Plain(l) && j <= |l| && 0 < a && a + n < TWO32
    requires Clear(l, j, a, n) && !Loops(l, j, a, n)
    ensures var i, h := if JoinsLeft(l, j, a) then j - 1 else j, if JoinsRight(l, j, a, n) then j + 1 else j;
            Fits(l, i, h, Joined(l, j, a, n)) && Within(l, i, h, Joined(l, j, a, n).addr)
  {
  }

  /** The headers after both steps of entering a block. */
  lemma EnteredOk(mem: map<nat, Memblk>, mid: map<nat, Memblk>, t: map<nat, Memblk>, l: seq<Block>, j: nat, a: nat,
                  n: nat, block: nat)
    requires Plain(l) && Linked(mem, l) && j <= |l| && 0 < a && a + n < TWO32
    requires Clear(l, j, a, n) && !Loops(l, j, a, n)
    requires block == (if JoinsLeft(l, j, a) then l[j - 1].addr else a) && block in mid
    requires mid[block] == Memblk(At(l, j), n + if JoinsLeft(l, j, a) then l[j - 1].len else 0)
    requires !JoinsLeft(l, j, a) && j > 0 ==>
               l[j - 1].addr in mid && mid[l[j - 1].addr] == Memblk(a, l[j - 1].len)
    requires forall x {:trigger mid[x]} {:trigger x in mid} ::
               x in mem && x != block && (j == 0 || x != l[j - 1].addr) ==> x in mid && mid[x] == mem[x]
    requires j < |l| ==> l[j].addr in mid
    requires t == if block + mid[block].mlength == At(l, j) && j < |l|
                  then mid[block := Memblk(mid[l[j].addr].mnext, mid[block].mlength + mid[l[j].addr].mlength)]
                  else mid
    ensures var i, h := if JoinsLeft(l, j, a) then j - 1 else j, if JoinsRight(l, j, a, n) then j + 1 else j;
            var m := Splice(l, i, h, [Joined(l, j, a, n)]);
            Linked(t, m) && Plain(m) && At(m, 0) == if j > 0 then l[0].addr else a
  {
    hide Plain, Splice;
    if j < |l| {
      assert HeaderAt(mem, l, j);
    }
    assert block in t && Joined(l, j, a, n) == Block(block, t[block].mlength);
    EnterOk(mem, t, l, j, a, n);
  }

  /** The header at a leads back to it; all others are as they were. */
  ghost predicate Looped(mem: map<nat, Memblk>, t: map<nat, Memblk>, a: nat) {
    a in t && t[a] == Memblk(a, 0) && forall x :: x in mem && x != a ==> x in t && t[x] == mem[x]
  }

  lemma LoopedOk(mem: map<nat, Memblk>, mid: map<nat, Memblk>, t: map<nat, Memblk>, l: seq<Block>, j: nat, a: nat)
    requires Plain(l) && Linked(mem, l) && j <= |l| && Loops(l, j, a, 0)
    requires a in mid && mid[a] == Memblk(At(l, j), 0)
    requires j > 0 ==> l[j - 1].addr in mid && mid[l[j - 1].addr] == Memblk(a, l[j - 1].len)
    requires forall x {:trigger mid[x]} {:trigger x in mid} ::
               x in mem && x != a && (j == 0 || x != l[j - 1].addr) ==> x in mid && mid[x] == mem[x]
    requires t == mid[a := Memblk(mid[a].mnext, 0)]
    ensures Looped(mem, t, a)
  {
    if j > 0 {
      assert HeaderAt(mem, l, j - 1);
    }
  }

  // ---- what follows from the headers ----

  lemma Unlooped(l: seq<Block>, j: nat, a: nat, n: nat)
    requires Coalesced(l) && j == Spot(l, a, 0) && !Loops(l, j, a, n)
    ensures n == 0 ==> NotAt(l, a)
  {
    assert 0 < j < |l| ==> End(l[j - 1]) < l[j].addr;
    forall k | n == 0 && 0 <= k < |l|
      ensures l[k].addr != a
    {
      assert k > j ==> l[j].addr < l[k].addr;
    }
  }

  lemma EmptyAt(l: seq<Block>, j: nat, a: nat)
    requires j <= |l| && Loops(l, j, a, 0)
    ensures !JoinsLeft(l, j, a)
  {
  }

  /** The headers form a list in order. */
  ghost predicate ListAt(mem: map<nat, Memblk>, head: nat, l: seq<Block>) {
    Coalesced(l) && Linked(mem, l) && head == At(l, 0)
  }

  /** Two lists from the same head agree as far as the headers do. */
  lemma {:induction false} ChainAgrees(mem: map<nat, Memblk>, l: seq<Block>, t: map<nat, Memblk>, m: seq<Block>, k: nat)
    requires Plain(l) && Plain(m) && Linked(mem, l) && Linked(t, m) && At(l, 0) == At(m, 0) && k <= |m|
    requires forall i :: 0 <= i < k ==> m[i].addr in mem && m[i].addr in t && mem[m[i].addr] == t[m[i].addr]
    ensures k <= |l| && l[..k] == m[..k] && At(l, k) == At(m, k)
  {
    if k > 0 {
      ChainAgrees(mem, l, t, m, k - 1);
      assert HeaderAt(t, m, k - 1) && m[k - 1].addr > 0;
      assert k - 1 < |l| && l[k - 1].addr == m[k - 1].addr;
      assert HeaderAt(mem, l, k - 1) && l[k - 1] == m[k - 1];
      assert l[..k] == l[..k - 1] + [l[k - 1]] && m[..k] == m[..k - 1] + [m[k - 1]];
    }
  }

  /** There is one list at most. */
  lemma OneList(mem: map<nat, Memblk>, l: seq<Block>, m: seq<Block>)
    requires Plain(l) && Plain(m) && Linked(mem, l) && Linked(mem, m) && At(l, 0) == At(m, 0)
    ensures l == m
  {
    forall i | 0 <= i < |m|
      ensures m[i].addr in mem
    {
      assert HeaderAt(mem, m, i);
    }
    ChainAgrees(mem, l, mem, m, |m|);
    assert At(m, |m|) == NULL;
  }

  lemma NotItself(mem: map<nat, Memblk>, l: seq<Block>, j: nat)
    requires Plain(l) && Linked(mem, l) && j < |l|
    ensures l[j].addr in mem && mem[l[j].addr].mnext != l[j].addr
  {
    assert HeaderAt(mem, l, j);
  }

  /** After an empty block was entered where a free one begins there is none. */
  lemma NoList(mem: map<nat, Memblk>, t: map<nat, Memblk>, m: seq<Block>, j: nat, a: nat, l: seq<Block>)
    requires Plain(m) && Linked(mem, m) && j < |m| && m[j].addr == a && Looped(mem, t, a)
    ensures !ListAt(t, At(m, 0), l)
  {
    hide Linked, Coalesced;
    if ListAt(t, At(m, 0), l) {
      CoalescedPlain(l);
      forall i | 0 <= i < j
        ensures m[i].addr in mem && m[i].addr in t && t[m[i].addr] == mem[m[i].addr]
      {
        NotItself(mem, m, i);
      }
      ChainAgrees(t, l, mem, m, j);
      NotItself(t, l, j);
      assert false;
    }
  }

  class Heap {
    const minheap: nat
    const maxheap: nat
    var mem: map<nat, Memblk>
    var memlist: Memblk
    ghost var blocks: seq<Block>

    ghost predicate Shape()
      reads this
    {
      Plain(blocks) && Linked(mem, blocks) && memlist.mnext == At(blocks, 0) && memlist.mlength < TWO32
    }

    /** A heap with these free blocks. */
    constructor (lo: nat, hi: nat, l: seq<Block>, total: nat)
      requires Coalesced(l) && total < TWO32
      ensures Shape() && blocks == l && minheap == lo && maxheap == hi && memlist.mlength == total
    {
      hide Plain, Coalesced, HeaderAt;
      minheap, maxheap, blocks := lo, hi, l;
      memlist := Memblk(if |l| > 0 then l[0].addr else NULL, total);
      var headers: map<nat, Memblk> := map[];
      var j := |l|;
      CoalescedPlain(l);
      while j > 0
        invariant 0 <= j <= |l|
        invariant forall k :: j <= k < |l| ==> HeaderAt(headers, l, k)
      {
        j := j - 1;
        ghost var before := headers;
        headers := headers[l[j].addr := Memblk(if j + 1 < |l| then l[j + 1].addr else NULL, l[j].len)];
        HeadersOn(before, headers, l, j);
      }
      mem := headers;
    }

    /** prev->mnext = next */
    method SetNext(prev: int, next: nat)
      requires prev == HEAD || (prev >= 0 && prev in mem)
      modifies `mem, `memlist
      ensures prev == HEAD ==> mem == old(mem) && memlist == old(memlist).(mnext := next)
      ensures prev != HEAD ==> mem == old(mem)[prev := old(mem)[prev].(mnext := next)] && memlist == old(memlist)
    {
      if prev == HEAD {
        memlist := memlist.(mnext := next);
      } else {
        mem := mem[prev := mem[prev].(mnext := next)];
      }
    }

    /** memlist.mlength -= n */
    method Less(n: nat)
      requires Shape()
      modifies `memlist
      ensures Shape()
      ensures memlist == old(memlist).(mlength := (old(memlist.mlength) - n) % TWO32)
    {
      memlist := memlist.(mlength := (memlist.mlength - n) % TWO32);
    }

    /** Only past the end of the list is NULL. */
    lemma AtNull()
      requires Shape()
      ensures forall j: nat {:trigger At(blocks, j)} :: At(blocks, j) == NULL <==> j >= |blocks|
    {
    }

    lemma HeaderOf(j: nat)
      requires Shape() && j < |blocks|
      ensures HeaderAt(mem, blocks, j) && 0 < blocks[j].addr && End(blocks[j]) < TWO32
      ensures j > 0 ==>
                && HeaderAt(mem, blocks, j - 1)
                && blocks[j - 1].addr < blocks[j].addr && End(blocks[j - 1]) <= blocks[j].addr
      ensures j + 1 < |blocks| ==> blocks[j].addr < blocks[j + 1].addr && End(blocks[j]) <= blocks[j + 1].addr
    {
    }

    /** Block j leaves the list. */
    method Unlink(prev: int, curr: nat, ghost j: nat)
      requires Shape() && j < |blocks| && curr == blocks[j].addr && prev == Before(blocks, j)
      modifies this
      ensures Shape() && blocks == Splice(old(blocks), j, j + 1, []) && memlist.mlength == old(memlist.mlength)
    {
      hide Plain, Linked, Splice;
      HeaderOf(j);
      SetNext(prev, mem[curr].mnext);
      OthersKept(old(mem), mem, blocks, j, j + 1, prev, HEAD);
      Relinked(old(mem), mem, blocks, j, j + 1, []);
      PlainRemove(blocks, j, j + 1);
      SpliceFirst(blocks, j, j + 1, []);
      blocks := Splice(blocks, j, j + 1, []);
    }

    /** getmem */
    method GetMem(nbytes: nat) returns (r: int)
      requires Shape() && nbytes < TWO32
      modifies this
      ensures Shape() && (blocks, r) == HeapSpec.GetMem(old(blocks), nbytes)
      ensures memlist.mlength == if r == SYSERR then old(memlist.mlength)
                                 else (old(memlist.mlength) - RoundMb(nbytes)) % TWO32
    {
      hide Plain, Linked, Splice;
      if nbytes == 0 {
        return SYSERR;
      }
      var n := RoundMb(nbytes);
      AtNull();
      var prev, curr := HEAD, memlist.mnext;
      ghost var j := 0;
      while curr != NULL
        invariant j <= |blocks| && curr == At(blocks, j) && prev == Before(blocks, j)
        invariant FirstFit(blocks, n, 0) == FirstFit(blocks, n, j)
        invariant unchanged(this)
        decreases |blocks| - j
      {
        HeaderOf(j);
        var size := mem[curr].mlength;
        if size == n {
          Unlink(prev, curr, j);
          Less(n);
          return curr;
        } else if size > n {
          Cut(prev, curr, n, j);
          Less(n);
          return curr;
        }
        prev, curr, j := curr, mem[curr].mnext, j + 1;
      }
      r := SYSERR;
    }

    /** Block j loses its first n bytes. */
    method Cut(prev: int, curr: nat, n: nat, ghost j: nat)
      requires Shape() && j < |blocks| && curr == blocks[j].addr && prev == Before(blocks, j) && n < blocks[j].len
      modifies this
      ensures Shape() && memlist.mlength == old(memlist.mlength)
      ensures blocks == Splice(old(blocks), j, j + 1, [Block(curr + n, old(blocks)[j].len - n)])
    {
      hide Plain, Linked, Splice;
      HeaderOf(j);
      var leftover := curr + n;
      ghost var xs := [Block(leftover, blocks[j].len - n)];
      var next, size := mem[curr].mnext, mem[curr].mlength;
      SetNext(prev, leftover);
      mem := mem[leftover := Memblk(next, size - n)];
      OthersKept(old(mem), mem, blocks, j, j + 1, prev, leftover);
      Relinked(old(mem), mem, blocks, j, j + 1, xs);
      PlainReplace(blocks, j, j + 1, xs[0]);
      SpliceFirst(blocks, j, j + 1, xs);
      blocks := Splice(blocks, j, j + 1, xs);
    }

    /** Block j loses its last n bytes. */
    method Crop(curr: nat, n: nat, ghost j: nat)
      requires Shape() && j < |blocks| && curr == blocks[j].addr && n <= blocks[j].len
      modifies this
      ensures Shape() && memlist.mlength == old(memlist.mlength)
      ensures blocks == Splice(old(blocks), j, j + 1, [Block(curr, old(blocks)[j].len - n)])
    {
      hide Plain, Linked, Splice;
      HeaderOf(j);
      ghost var xs := [Block(curr, blocks[j].len - n)];
      mem := mem[curr := mem[curr].(mlength := mem[curr].mlength - n)];
      OthersKept(old(mem), mem, blocks, j, j + 1, Before(blocks, j), curr);
      Relinked(old(mem), mem, blocks, j, j + 1, xs);
      PlainReplace(blocks, j, j + 1, xs[0]);
      SpliceFirst(blocks, j, j + 1, xs);
      blocks := Splice(blocks, j, j + 1, xs);
    }

    /** getstk, the walk: the last block of at least n bytes, and the one before it. */
    method LastOf(n: nat) returns (fits: nat, fitsprev: int, ghost f: int)
      requires Shape()
      ensures f == LastFit(blocks, n, |blocks|)
      ensures if f >= 0 then fits == blocks[f].addr && fitsprev == Before(blocks, f) else fits == NULL
    {
      hide Plain, Linked;
      AtNull();
      var prev, curr := HEAD, memlist.mnext;
      fits, fitsprev, f := NULL, HEAD, -1;
      ghost var j := 0;
      while curr != NULL
        invariant j <= |blocks| && curr == At(blocks, j) && prev == Before(blocks, j)
        invariant f == LastFit(blocks, n, j)
        invariant if f >= 0 then fits == blocks[f].addr && fitsprev == Before(blocks, f) else fits == NULL
        decreases |blocks| - j
      {
        HeaderOf(j);
        if mem[curr].mlength >= n {
          fits, fitsprev, f := curr, prev, j;
        }
        prev, curr, j := curr, mem[curr].mnext, j + 1;
      }
    }

    lemma TopIs(n: nat, f: int)
      requires Shape() && f == LastFit(blocks, n, |blocks|)
      ensures memlist.mlength < TWO32
      ensures f < 0 ==> TakeTop(blocks, n) == (blocks, SYSERR)
      ensures f >= 0 ==>
                var b := blocks[f];
                && 0 < b.addr && b.addr in mem && mem[b.addr].mlength == b.len && n <= b.len
                && TakeTop(blocks, n) ==
                   if n == b.len then (Splice(blocks, f, f + 1, []), b.addr)
                   else (Splice(blocks, f, f + 1, [Block(b.addr, b.len - n)]), End(b) - n)
    {
      hide Splice;
      if f >= 0 {
        HeaderOf(f);
      }
    }

    /** getstk */
    method GetStk(nbytes: nat) returns (r: int)
      requires Shape() && nbytes < TWO32
      modifies this
      ensures Shape() && (blocks, r) == HeapSpec.GetStk(old(blocks), nbytes)
      ensures memlist.mlength == if r == SYSERR then old(memlist.mlength)
                                 else (old(memlist.mlength) - RoundMb(nbytes)) % TWO32
    {
      hide Shape, Plain, Linked, Splice, HeaderAt, At, TakeTop, LastFit;
      if nbytes == 0 {
        return SYSERR;
      }
      var n := RoundMb(nbytes);
      var fits, fitsprev, f := LastOf(n);
      TopIs(n, f);
      if fits == NULL {
        return SYSERR;
      }
      if n == mem[fits].mlength {
        Unlink(fitsprev, fits, f);
      } else {
        Crop(fits, n, f);
        NewHeader(f, Block(fits, old(blocks)[f].len - n), old(blocks));
        fits := fits + mem[fits].mlength;
      }
      Less(n);
      r := fits + n - 4;
    }

    /** The header of a block that was put in place of another. */
    lemma NewHeader(j: nat, b: Block, l: seq<Block>)
      requires Shape() && j < |l| && blocks == Splice(l, j, j + 1, [b])
      ensures b.addr in mem && mem[b.addr].mlength == b.len
    {
      SpliceAt(l, j, j + 1, [b], j);
      assert HeaderAt(mem, blocks, j);
    }

    /** freemem, the walk: the last block below address a, and the one after it. */
    method FindSpot(a: nat, ghost n: nat) returns (prev: int, next: nat, ghost j: nat)
      requires Shape()
      ensures j == Spot(blocks, a, 0) && prev == Before(blocks, j) && next == At(blocks, j)
    {
      hide Plain, Linked;
      AtNull();
      prev, next, j := HEAD, memlist.mnext, 0;
      while next != NULL && next < a
        invariant j <= |blocks| && next == At(blocks, j) && prev == Before(blocks, j)
        invariant Spot(blocks, a, 0) == Spot(blocks, a, j)
        decreases |blocks| - j
      {
        HeaderOf(j);
        prev, next, j := next, mem[next].mnext, j + 1;
      }
    }

    /** freemem, once it has found the place: the block joins the one before it, or becomes one
        of its own. */
    method EnterFirst(prev: int, next: nat, a: nat, n: nat, ghost j: nat) returns (block: nat)
      requires j <= |blocks| && prev == Before(blocks, j) && 0 < a
      requires j > 0 ==> HeaderAt(mem, blocks, j - 1) && blocks[j - 1].addr < a
      requires j > 0 ==> mem[blocks[j - 1].addr].mnext == next
      modifies `mem, `memlist
      ensures block == if JoinsLeft(blocks, j, a) then blocks[j - 1].addr else a
      ensures block in mem && mem[block] == Memblk(next, n + if JoinsLeft(blocks, j, a) then blocks[j - 1].len else 0)
      ensures !JoinsLeft(blocks, j, a) && j > 0 ==>
                blocks[j - 1].addr in mem && mem[blocks[j - 1].addr] == Memblk(a, blocks[j - 1].len)
      ensures forall x {:trigger mem[x]} {:trigger x in mem} ::
                x in old(mem) && x != block && (j == 0 || x != blocks[j - 1].addr) ==> x in mem && mem[x] == old(mem)[x]
      ensures memlist == if j == 0 then old(memlist).(mnext := a) else old(memlist)
    {
      if prev != HEAD && prev + mem[prev].mlength == a {
        mem := mem[prev := mem[prev].(mlength := mem[prev].mlength + n)];
        block := prev;
      } else {
        mem := mem[a := Memblk(next, n)];
        SetNext(prev, a);
        block := a;
      }
    }

    /** What entering a block needs to know of its neighbours. */
    lemma NextTo(a: nat, n: nat, j: nat)
      requires Shape() && j == Spot(blocks, a, 0) && 0 < a && a + n < TWO32
      requires Clear(blocks, j, a, n)
      ensures j > 0 ==> blocks[j - 1].addr < a
      ensures Plain(blocks) && Linked(mem, blocks) && memlist.mlength < TWO32
      ensures memlist.mnext == if j > 0 then blocks[0].addr else At(blocks, j)
      ensures j > 0 ==> HeaderAt(mem, blocks, j - 1) && blocks[j - 1].addr in mem
      ensures j > 0 ==> mem[blocks[j - 1].addr].mnext == At(blocks, j)
      ensures j < |blocks| ==> blocks[j].addr in mem && At(blocks, j) == blocks[j].addr
      ensures j == |blocks| ==> At(blocks, j) == NULL
      ensures var i, h := if JoinsLeft(blocks, j, a) then j - 1 else j,
              if JoinsRight(blocks, j, a, n) then j + 1 else j;
              Put(blocks, a, n).0 == Splice(blocks, i, h, [Joined(blocks, j, a, n)])
    {
      hide Plain, Linked, Splice, Spot, Joined;
      Around(j);
    }

    lemma ShapeOf()
      requires Plain(blocks) && Linked(mem, blocks) && memlist.mnext == At(blocks, 0) && memlist.mlength < TWO32
      ensures Shape()
    {
    }

    /** Then it takes in the next one if it touches that. */
    method Enter(prev: int, next: nat, a: nat, n: nat, ghost j: nat)
      requires Shape() && j == Spot(blocks, a, 0) && prev == Before(blocks, j) && next == At(blocks, j)
      requires 0 < a && a + n < TWO32
      requires Clear(blocks, j, a, n)
      modifies this
      ensures memlist.mlength == old(memlist.mlength)
      ensures !Loops(old(blocks), j, a, n) ==> Shape() && blocks == Put(old(blocks), a, n).0
      ensures Loops(old(blocks), j, a, n) ==>
                blocks == old(blocks) && Looped(old(mem), mem, a) && memlist == old(memlist)
    {
      hide Shape, Plain, Linked, Splice, Spot, Joined, HeaderAt, At, Put, JoinsRight, Clear, Looped;
      NextTo(a, n, j);
      var block := EnterFirst(prev, next, a, n, j);
      ghost var before := mem;
      if block + mem[block].mlength == next {
        mem := mem[block := Memblk(mem[next].mnext, mem[block].mlength + mem[next].mlength)];
      }
      if Loops(blocks, j, a, n) {
        LoopedOk(old(mem), before, mem, blocks, j, a);
      } else {
        EnteredOk(old(mem), before, mem, blocks, j, a, n, block);
        blocks := Put(blocks, a, n).0;
        ShapeOf();
      }
    }

    /** freemem, the test for overlap. */
    lemma Decide(a: nat, n: nat, j: nat)
      requires Shape() && j == Spot(blocks, a, 0) && 0 < a && a + n < TWO32
      ensures Plain(blocks) && Linked(mem, blocks) && memlist.mnext == At(blocks, 0)
      ensures j > 0 ==> blocks[j - 1].addr in mem && mem[blocks[j - 1].addr].mlength == blocks[j - 1].len
      ensures At(blocks, j) != NULL <==> j < |blocks|
      ensures j < |blocks| ==> At(blocks, j) == blocks[j].addr
      ensures Clashes(blocks, j, a, n) <==>
                ((j > 0 && a < End(blocks[j - 1])) || (j < |blocks| && a + n > blocks[j].addr))
      ensures Clashes(blocks, j, a, n) ==> Put(blocks, a, n) == (blocks, SYSERR)
      ensures !Clashes(blocks, j, a, n) ==>
                Put(blocks, a, n).1 == 1 && Clear(blocks, j, a, n)
    {
      hide Plain, Linked, Splice, Spot, Joined;
      Around(j);
    }

    /** The headers form a list of free blocks in order. */
    ghost predicate InOrder()
      reads this
    {
      exists l :: ListAt(mem, memlist.mnext, l)
    }

    /** freemem, of a block that ends within 32 bits. If it succeeds there is a list in order
        afterwards if and only if the address is a multiple of 8, and the size can be rounded up or
        the block touches the one before it. */
    method FreeMem(a: nat, nbytes: nat) returns (r: int)
      requires Shape() && nbytes < TWO32 && 0 < minheap && a + RoundMb(nbytes) < TWO32
      modifies this
      ensures r == HeapSpec.FreeMem(old(blocks), minheap, maxheap, a, nbytes).1
      ensures r == SYSERR || !Loops(old(blocks), Spot(old(blocks), a, 0), a, RoundMb(nbytes)) ==>
                Shape() && blocks == HeapSpec.FreeMem(old(blocks), minheap, maxheap, a, nbytes).0
      ensures r != SYSERR && Coalesced(old(blocks)) ==>
                (InOrder() <==>
                 Aligned(a) && (nbytes <= MAXREQ || JoinsLeft(old(blocks), Spot(old(blocks), a, 0), a)))
      ensures memlist.mlength == if r == SYSERR then old(memlist.mlength)
                                 else (old(memlist.mlength) + RoundMb(nbytes)) % TWO32
    {
      hide Shape, Plain, Linked, Splice, Spot, Joined, HeaderAt, At, Put, Clashes, Coalesced, InOrder, Looped, Clear,
           Loops,
        JoinsLeft;
      if nbytes == 0 || a < minheap || a > maxheap {
        return SYSERR;
      }
      var n := RoundMb(nbytes);
      var prev, next, j := FindSpot(a, n);
      Decide(a, n, j);
      var top := if prev == HEAD then NULL else prev + mem[prev].mlength;
      if (prev != HEAD && a < top) || (next != NULL && a + n > next) {
        return SYSERR;
      }
      ghost var was, before := blocks, mem;
      More(n);
      Enter(prev, next, a, n, j);
      r := 1;
      if Coalesced(was) {
        Judge(was, before, a, nbytes, j);
      }
    }

    /** Whether there is a list in order after freemem. */
    lemma Judge(was: seq<Block>, before: map<nat, Memblk>, a: nat, nbytes: nat, j: nat)
      requires Coalesced(was) && Linked(before, was) && j == Spot(was, a, 0) && nbytes < TWO32
      requires 0 < nbytes && minheap <= a <= maxheap && 0 < a && a + RoundMb(nbytes) < TWO32
      requires !Clashes(was, j, a, RoundMb(nbytes))
      requires !Loops(was, j, a, RoundMb(nbytes)) ==> Shape() && blocks == Put(was, a, RoundMb(nbytes)).0
      requires Loops(was, j, a, RoundMb(nbytes)) ==> Looped(before, mem, a) && memlist.mnext == At(was, 0)
      ensures InOrder() <==> Aligned(a) && (nbytes <= MAXREQ || JoinsLeft(was, j, a))
    {
      hide Plain, Linked, Splice, Spot, Joined, HeaderAt, At, Clashes, Coalesced, Looped, Aligned, JoinsLeft;
      var n := RoundMb(nbytes);
      CoalescedPlain(was);
      if Loops(was, j, a, n) {
        forall l
          ensures !ListAt(mem, memlist.mnext, l)
        {
          NoList(before, mem, was, j, a, l);
        }
        EmptyAt(was, j, a);
      } else {
        Unlooped(was, j, a, n);
        FreeMemExactly(was, minheap, maxheap, a, nbytes);
        if Coalesced(blocks) {
          assert ListAt(mem, memlist.mnext, blocks);
        }
        forall l | ListAt(mem, memlist.mnext, l)
          ensures l == blocks
        {
          CoalescedPlain(l);
          OneList(mem, l, blocks);
        }
      }
    }

    /** The blocks on both sides of a place. */
    lemma Around(j: nat)
      requires Shape() && j <= |blocks|
      ensures j > 0 ==>
                && HeaderAt(mem, blocks, j - 1) && 0 < blocks[j - 1].addr && End(blocks[j - 1]) < TWO32
                && (j > 1 ==>
                      && HeaderAt(mem, blocks, j - 2)
                      && blocks[j - 2].addr < blocks[j - 1].addr && End(blocks[j - 2]) <= blocks[j - 1].addr)
      ensures j < |blocks| ==>
                && HeaderAt(mem, blocks, j) && 0 < blocks[j].addr && End(blocks[j]) < TWO32
                && (j + 1 < |blocks| ==>
                      blocks[j].addr < blocks[j + 1].addr && End(blocks[j]) <= blocks[j + 1].addr)
      ensures 0 < j < |blocks| ==> blocks[j - 1].addr < blocks[j].addr && End(blocks[j - 1]) <= blocks[j].addr
    {
    }

    /** memlist.mlength += n */
    method More(n: nat)
      requires Shape()
      modifies `memlist
      ensures Shape()
      ensures memlist == old(memlist).(mlength := (old(memlist.mlength) + n) % TWO32)
    {
      memlist := memlist.(mlength := (memlist.mlength + n) % TWO32);
    }
  }
}
