/** Ownership of disk blocks. Index blocks and data blocks are both handed out by a
    free list threaded through the blocks themselves; a Pool records, for one kind of
    block, who owns each block at this moment. */
module LfsPool {

  /** A block is the k-th from the bottom of the free list, the k-th block of a file,
      or the k-th block of a file that is being truncated. */
  datatype Owner = Free(k: nat) | Used(f: nat, k: nat) | Limbo(k: nat)

  /** Blocks lo .. |own| exist. The free list is kept as a stack, top last. Entries of
      limbo before gone have already been put on the free list. */
  datatype Pool = Pool(lo: nat, own: seq<Owner>, free: seq<nat>, used: seq<seq<nat>>,
                       limbo: seq<nat>, gone: nat)

  ghost function Total(used: seq<seq<nat>>): nat {
    if |used| == 0 then 0 else Total(used[..|used| - 1]) + |used[|used| - 1]|
  }

  ghost predicate Owns(p: Pool, b: nat, o: Owner) {
    match o
    case Free(k) => k < |p.free| && p.free[k] == b
    case Used(f, k) => f < |p.used| && k < |p.used[f]| && p.used[f][k] == b
    case Limbo(k) => p.gone <= k < |p.limbo| && p.limbo[k] == b
  }

  ghost predicate InPool(p: Pool, b: int) {
    p.lo <= b < |p.own|
  }

  /** Every block has exactly one owner: own and the lists are inverse to each other. */
  ghost predicate PoolOk(p: Pool) {
    && p.lo <= |p.own|
    && p.gone <= |p.limbo|
    && (forall b :: p.lo <= b < |p.own| ==> Owns(p, b, p.own[b]))
    && (forall k :: 0 <= k < |p.free| ==> InPool(p, p.free[k]) && p.own[p.free[k]] == Free(k))
    && (forall f, k :: 0 <= f < |p.used| && 0 <= k < |p.used[f]| ==>
          InPool(p, p.used[f][k]) && p.own[p.used[f][k]] == Used(f, k))
    && (forall k :: p.gone <= k < |p.limbo| ==> InPool(p, p.limbo[k]) && p.own[p.limbo[k]] == Limbo(k))
    && |p.free| + Total(p.used) + |p.limbo| - p.gone == |p.own| - p.lo
  }

  /** The block a pointer to the top of the free list names; -1 for the empty list. */
  ghost function Top(free: seq<nat>): int {
    if |free| == 0 then -1 else free[|free| - 1]
  }

  /** The block after the k-th on the free list. */
  ghost function Below(free: seq<nat>, k: nat): int
    requires k < |free|
  {
    if k == 0 then -1 else free[k - 1]
  }

  lemma {:induction false} TotalUpdate(used: seq<seq<nat>>, f: nat, l: seq<nat>)
    requires f < |used|
    ensures Total(used[f := l]) == Total(used) - |used[f]| + |l|
  {
    var n := |used| - 1;
    if f == n {
      assert used[f := l][..n] == used[..n];
    } else {
      assert used[f := l][..n] == used[..n][f := l];
      TotalUpdate(used[..n], f, l);
    }
  }

  lemma {:induction false} TotalAtLeast(used: seq<seq<nat>>, f: nat)
    requires f < |used|
    ensures |used[f]| <= Total(used)
  {
    var n := |used| - 1;
    if f < n {
      assert used[..n][f] == used[f];
      TotalAtLeast(used[..n], f);
    }
  }

  /** Block b belongs to file f, or to another file. */
  ghost predicate Mine(p: Pool, b: int, f: nat) {
    InPool(p, b) && p.own[b].Used? && p.own[b].f == f
  }

  ghost predicate Foreign(p: Pool, b: nat, f: nat) {
    b < |p.own| && p.own[b].Used? && p.own[b].f != f
  }

  /** The place of block b in file f. */
  lemma Placed(p: Pool, b: nat, f: nat)
    requires PoolOk(p) && Mine(p, b, f)
    ensures f < |p.used| && p.own[b].k < |p.used[f]| && p.used[f][p.own[b].k] == b
  {
    assert Owns(p, b, p.own[b]);
  }

  lemma Listed(p: Pool, f: nat, k: nat)
    requires PoolOk(p) && f < |p.used| && k < |p.used[f]|
    ensures Mine(p, p.used[f][k], f) && p.own[p.used[f][k]].k == k
  {
  }

  /** Blocks of files are not on the free list. */
  lemma NotFree(p: Pool, b: nat, f: nat)
    requires PoolOk(p) && Mine(p, b, f)
    ensures forall k :: 0 <= k < |p.free| ==> p.free[k] != b
  {
  }

  /** A file has no block twice. */
  lemma Once(p: Pool, f: nat, k: nat)
    requires PoolOk(p) && f < |p.used| && k < |p.used[f]|
    ensures forall l :: 0 <= l < |p.used[f]| && l != k ==> p.used[f][l] != p.used[f][k]
  {
    assert p.own[p.used[f][k]] == Used(f, k);
  }

  /** A free block is in no file. */
  lemma OnlyFree(p: Pool, k: nat)
    requires PoolOk(p) && k < |p.free|
    ensures InPool(p, p.free[k])
    ensures forall f :: !Foreign(p, p.free[k], f)
    ensures forall h, l :: 0 <= h < |p.used| && 0 <= l < |p.used[h]| ==> p.used[h][l] != p.free[k]
    ensures forall l :: 0 <= l < |p.free| && l != k ==> p.free[l] != p.free[k]
  {
    assert p.own[p.free[k]] == Free(k);
  }

  /** Allocation: the top free block becomes the last block of file f. */
  ghost function Pop(p: Pool, f: nat): Pool
    requires PoolOk(p) && |p.free| > 0 && f < |p.used|
  {
    var b := p.free[|p.free| - 1];
    p.(own := p.own[b := Used(f, |p.used[f]|)],
       free := p.free[..|p.free| - 1],
       used := p.used[f := p.used[f] + [b]])
  }

  lemma PopOk(p: Pool, f: nat)
    requires PoolOk(p) && |p.free| > 0 && f < |p.used|
    ensures PoolOk(Pop(p, f))
  {
    var q, n, b := Pop(p, f), |p.free| - 1, p.free[|p.free| - 1];
    TotalUpdate(p.used, f, p.used[f] + [b]);
    forall c | p.lo <= c < |p.own|
      ensures Owns(q, c, q.own[c])
    {
      assert Owns(p, c, p.own[c]);
      assert c != b ==> p.own[c] != Free(n);
    }
    forall g, k | 0 <= g < |q.used| && 0 <= k < |q.used[g]|
      ensures InPool(q, q.used[g][k]) && q.own[q.used[g][k]] == Used(g, k)
    {
      assert (g == f && k == |p.used[f]|) || q.used[g][k] == p.used[g][k];
    }
  }

  /** Truncation starts: all blocks of file f are taken from it. */
  ghost function Condemn(p: Pool, f: nat): Pool
    requires f < |p.used|
  {
    p.(own := seq(|p.own|, b requires 0 <= b < |p.own| =>
                if p.own[b].Used? && p.own[b].f == f then Limbo(p.own[b].k) else p.own[b]),
       used := p.used[f := []],
       limbo := p.used[f], gone := 0)
  }

  lemma CondemnOk(p: Pool, f: nat)
    requires PoolOk(p) && f < |p.used| && p.gone == |p.limbo|
    ensures PoolOk(Condemn(p, f))
  {
    TotalUpdate(p.used, f, []);
  }

  /** The next condemned block goes on top of the free list. */
  ghost function FreeNext(p: Pool): Pool
    requires PoolOk(p) && p.gone < |p.limbo|
  {
    var b := p.limbo[p.gone];
    p.(own := p.own[b := Free(|p.free|)], free := p.free + [b], gone := p.gone + 1)
  }

  lemma FreeNextOk(p: Pool)
    requires PoolOk(p) && p.gone < |p.limbo|
    ensures PoolOk(FreeNext(p))
  {
  }

  /** All condemned blocks are free; forget that they were condemned. */
  ghost function Settle(p: Pool): Pool {
    p.(limbo := [], gone := 0)
  }

  lemma SettleOk(p: Pool)
    requires PoolOk(p) && p.gone == |p.limbo|
    ensures PoolOk(Settle(p))
  {
  }

  /** A condemned block belongs to nobody. */
  lemma Condemned(p: Pool, k: nat)
    requires PoolOk(p) && p.gone <= k < |p.limbo|
    ensures InPool(p, p.limbo[k]) && forall f :: !Mine(p, p.limbo[k], f)
    ensures forall f, l :: 0 <= f < |p.used| && 0 <= l < |p.used[f]| ==> p.used[f][l] != p.limbo[k]
    ensures forall l :: 0 <= l < |p.free| ==> p.free[l] != p.limbo[k]
    ensures forall l :: p.gone <= l < |p.limbo| && l != k ==> p.limbo[l] != p.limbo[k]
  {
    assert p.own[p.limbo[k]] == Limbo(k);
  }

  ghost function Reversed(s: seq<nat>): (r: seq<nat>)
    ensures |r| == |s|
    ensures forall k :: 0 <= k < |s| ==> r[k] == s[|s| - 1 - k]
  {
    seq(|s|, k requires 0 <= k < |s| => s[|s| - 1 - k])
  }

  /** All condemned blocks go on the free list in one splice, the first of them on top. */
  ghost function Splice(p: Pool): Pool
    requires p.gone == 0
  {
    p.(own := seq(|p.own|, b requires 0 <= b < |p.own| =>
                if p.own[b].Limbo? && p.own[b].k < |p.limbo|
                then Free(|p.free| + |p.limbo| - 1 - p.own[b].k) else p.own[b]),
       free := p.free + Reversed(p.limbo),
       limbo := [], gone := 0)
  }

  lemma SpliceOk(p: Pool)
    requires PoolOk(p) && p.gone == 0
    ensures PoolOk(Splice(p))
  {
  }

  /** A new file owns nothing. */
  ghost function AddFile(p: Pool): Pool {
    p.(used := p.used + [[]])
  }

  lemma AddFileOk(p: Pool)
    requires PoolOk(p)
    ensures PoolOk(AddFile(p))
  {
    assert (p.used + [[]])[..|p.used|] == p.used;
  }

  /** The pool of a newly formatted disk: every block is free, block lo on top. */
  ghost function Fresh(lo: nat, hi: nat): Pool
    requires lo <= hi
  {
    Pool(lo, seq(hi, b requires 0 <= b < hi => if b < lo then Free(0) else Free(hi - 1 - b)),
         seq(hi - lo, k requires 0 <= k < hi - lo => hi - 1 - k), [], [], 0)
  }

  lemma FreshOk(lo: nat, hi: nat)
    requires lo <= hi
    ensures PoolOk(Fresh(lo, hi))
  {
  }
}
