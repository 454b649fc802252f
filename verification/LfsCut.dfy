/** The steps of lftruncate. */
module LfsCut {
  import opened LfsTypes
  import opened LfsPool
  import opened LfsLayout
  import opened LfsSteps
  import opened LfsMoves

  ghost predicate NoLimbo(s: St) {
    |s.g.ip.limbo| == 0 && s.g.ip.gone == 0 && |s.g.dp.limbo| == 0 && s.g.dp.gone == 0
  }

  /** The file becomes empty; its blocks are in limbo. */
  ghost function Empty(s: St, i: nat): St
    requires Sized(s) && OpenAt(s, i)
  {
    var c := s.cbs[i];
    var f := c.file;
    SetCb(s, i, c.(pos := 0, inum := LF_NULL, dnum := LF_NULL, bptr := LF_BLKSIZ)).(
      dir := s.dir.(files := s.dir.files[f := s.dir.files[f].(ilist := LF_NULL, size := 0)]), dirty := true,
      g := s.g.(ip := Condemn(s.g.ip, f), dp := Condemn(s.g.dp, f), content := s.g.content[f := []]))
  }

  lemma EmptyOk(s: St, i: nat)
    requires Base(s, -1, -1) && NoLimbo(s) && OpenAt(s, i) && !s.cbs[i].idirty && !s.cbs[i].ddirty
    ensures Sized(s) && Base(Empty(s, i), -1, -1)
  {
    hide PoolOk, FileOk, NamesOk, FilesOk, CbsOk;
    var t, c := Empty(s, i), s.cbs[i];
    Unpack(s, i, -1, -1);
    assert Sized(t);
    assert PoolsOk(t) by {
      CondemnOk(s.g.ip, c.file);
      CondemnOk(s.g.dp, c.file);
    }
    assert ListsOk(t);
    assert CbAt(t, i, -1);
    assert Confined(s, t, i, c.file) by { OwnBlocksOnly(s, t, i, c.file, -1); }
    assert FileAt(t, c.file) by { NothingOk(t.ib, t.dat, t.cbs[i]); }
    ConfinedKeeps(s, t, i, c.file, -1, -1, -1, -1);
  }

  lemma NothingOk(ib: seq<IBlock>, dat: seq<Sector>, c: Cb)
    ensures FileOk(ib, dat, [], [], [], c)
  {
  }

  /** A step that writes only condemned blocks changes no file. */
  lemma NobodysBlocks(s: St, t: St)
    requires Base(s, -1, -1) && Sized(t) && PoolsOk(t) && ListsOk(t)
    requires t.cbs == s.cbs && t.dir.files == s.dir.files && |t.ib| == |s.ib| && |t.dat| == |s.dat|
    requires t.g.ip.used == s.g.ip.used && t.g.dp.used == s.g.dp.used && t.g.content == s.g.content
             && t.g.opener == s.g.opener
    requires forall b, f :: 0 <= b < |s.ib| && t.ib[b] != s.ib[b] && 0 <= f < |s.dir.files| ==> !Mine(s.g.ip, b, f)
    requires forall b, f :: 0 <= b < |s.dat| && t.dat[b] != s.dat[b] && 0 <= f < |s.dir.files| ==> !Mine(s.g.dp, b, f)
    ensures Base(t, -1, -1)
  {
    forall h | 0 <= h < |s.dir.files|
      ensures Untouched(s, t, h) && FileAt(t, h) && LensAt(t, h)
    {
      assert FileAt(s, h) && LensAt(s, h);
      forall k | 0 <= k < |s.g.ip.used[h]| && s.g.ip.used[h][k] < |s.ib|
        ensures t.ib[s.g.ip.used[h][k]] == s.ib[s.g.ip.used[h][k]]
      {
        assert Mine(s.g.ip, s.g.ip.used[h][k], h);
      }
      forall k | 0 <= k < |s.g.dp.used[h]| && s.g.dp.used[h][k] < |s.dat|
        ensures t.dat[s.g.dp.used[h][k]] == s.dat[s.g.dp.used[h][k]]
      {
        assert Mine(s.g.dp, s.g.dp.used[h][k], h);
      }
      KeepFile(s, t, h);
    }
    forall j | 0 <= j < |t.cbs|
      ensures CbAt(t, j, -1)
    {
      assert CbAt(s, j, -1);
      KeepCb(s, t, j, -1);
    }
  }

  /** lfdbfree as the disk and the directory see it. */
  ghost function DataFreed(s: St, d: nat): St
    requires d < |s.dat|
  {
    var dir := s.dir.(dfree := d);
    s.(dat := s.dat[d := FreeSector(s.dir.dfree)], dir := dir, dd := DirSector(dir))
  }

  /** lfdbfree of the next condemned data block. */
  ghost function FreeData(s: St): St
    requires PoolsOk(s) && s.g.dp.gone < |s.g.dp.limbo| && s.g.dp.limbo[s.g.dp.gone] < |s.dat|
  {
    var t := DataFreed(s, s.g.dp.limbo[s.g.dp.gone]);
    t.(g := t.g.(dp := FreeNext(s.g.dp)))
  }

  lemma FreeDataOk(s: St)
    requires Base(s, -1, -1) && s.g.dp.gone < |s.g.dp.limbo|
    ensures s.g.dp.limbo[s.g.dp.gone] < |s.dat|
    ensures Base(FreeData(s), -1, -1)
  {
    hide FileOk, FilesOk, CbsOk, NamesOk, ListsOk, FreeData;
    FreeDataPools(s);
    FreeDataLists(s);
    FreeDataIs(s);
    NobodysBlocks(s, FreeData(s));
  }

  lemma FreeDataPools(s: St)
    requires Base(s, -1, -1) && s.g.dp.gone < |s.g.dp.limbo|
    ensures s.g.dp.limbo[s.g.dp.gone] < |s.dat| && Sized(FreeData(s)) && PoolsOk(FreeData(s))
  {
    hide PoolOk, FileOk, FilesOk, CbsOk, NamesOk, ListsOk;
    Condemned(s.g.dp, s.g.dp.gone);
    FreeNextOk(s.g.dp);
  }

  lemma FreeDataIs(s: St)
    requires Base(s, -1, -1) && s.g.dp.gone < |s.g.dp.limbo| && s.g.dp.limbo[s.g.dp.gone] < |s.dat|
    ensures var t := FreeData(s);
            && t.cbs == s.cbs && t.dir.files == s.dir.files && t.ib == s.ib && |t.dat| == |s.dat|
            && t.g.ip == s.g.ip && t.g.dp.used == s.g.dp.used && t.g.content == s.g.content && t.g.opener == s.g.opener
            && forall b, f :: 0 <= b < |s.dat| && t.dat[b] != s.dat[b] && 0 <= f < |s.dir.files| ==> !Mine(s.g.dp, b, f)
  {
    hide PoolOk, FileOk, FilesOk, CbsOk, NamesOk, ListsOk;
    Condemned(s.g.dp, s.g.dp.gone);
  }

  lemma FreeDataLists(s: St)
    requires Base(s, -1, -1) && s.g.dp.gone < |s.g.dp.limbo| && s.g.dp.limbo[s.g.dp.gone] < |s.dat|
    ensures ListsOk(FreeData(s))
  {
    hide PoolOk, FileOk, FilesOk, CbsOk, NamesOk;
    Condemned(s.g.dp, s.g.dp.gone);
  }


  /** lfibput to a condemned index block. */
  ghost function ClearIndex(s: St, n: nat, b: IBlock): St
    requires n < |s.ib|
  {
    s.(ib := s.ib[n := b])
  }

  lemma ClearIndexOk(s: St, k: nat, b: IBlock)
    requires Base(s, -1, -1) && s.g.ip.gone <= k < |s.g.ip.limbo|
    ensures s.g.ip.limbo[k] < |s.ib|
    ensures Base(ClearIndex(s, s.g.ip.limbo[k], b), -1, -1)
  {
    hide PoolOk, FileOk, FilesOk, CbsOk;
    Condemned(s.g.ip, k);
    var t := ClearIndex(s, s.g.ip.limbo[k], b);
    assert ListsOk(t);
    NobodysBlocks(s, t);
  }

  ghost function After(l: seq<nat>, k: nat, end: int): int {
    if k + 1 < |l| then l[k + 1] else end
  }

  /** The condemned index blocks are chained together and end at the free list. */
  ghost predicate Chained(s: St) {
    forall k :: 0 <= k < |s.g.ip.limbo| ==>
      && s.g.ip.limbo[k] < |s.ib|
      && s.ib[s.g.ip.limbo[k]].next == After(s.g.ip.limbo, k, s.dir.ifree)
  }

  ghost function SpliceIndex(s: St): St
    requires |s.g.ip.limbo| > 0 && s.g.ip.gone == 0
  {
    s.(dir := s.dir.(ifree := s.g.ip.limbo[0]), dirty := true,
       g := s.g.(ip := Splice(s.g.ip), dp := Settle(s.g.dp)))
  }

  lemma SplicedAt(ib: seq<IBlock>, free: seq<nat>, limbo: seq<nat>, k: nat)
    requires forall l :: 0 <= l < |free| ==> free[l] < |ib| && ib[free[l]].next == Below(free, l)
    requires forall l :: 0 <= l < |limbo| ==> limbo[l] < |ib| && ib[limbo[l]].next == After(limbo, l, Top(free))
    requires k < |free| + |limbo|
    ensures var all := free + Reversed(limbo); all[k] < |ib| && ib[all[k]].next == Below(all, k)
  {
    var all, n := free + Reversed(limbo), |free|;
    if k < n {
      assert all[k] == free[k];
    } else {
      var m := |limbo| - 1 - (k - n);
      assert all[k] == limbo[m];
      assert k > n ==> all[k - 1] == limbo[m + 1];
    }
  }

  lemma SplicedLists(s: St)
    requires Sized(s) && ListsOk(s) && Chained(s) && |s.g.ip.limbo| > 0 && s.g.ip.gone == 0
    ensures Sized(SpliceIndex(s)) && ListsOk(SpliceIndex(s))
  {
    hide Below, After;
    var t := SpliceIndex(s);
    forall k | 0 <= k < |t.g.ip.free|
      ensures t.g.ip.free[k] < |t.ib| && t.ib[t.g.ip.free[k]].next == Below(t.g.ip.free, k)
    {
      SplicedAt(s.ib, s.g.ip.free, s.g.ip.limbo, k);
    }
  }

  lemma SpliceIndexOk(s: St)
    requires Base(s, -1, -1) && Chained(s) && |s.g.ip.limbo| > 0 && s.g.ip.gone == 0
    requires s.g.dp.gone == |s.g.dp.limbo|
    ensures Base(SpliceIndex(s), -1, -1) && NoLimbo(SpliceIndex(s))
  {
    hide PoolOk, FileOk, FilesOk, CbsOk;
    SpliceOk(s.g.ip);
    SettleOk(s.g.dp);
    var t := SpliceIndex(s);
    SplicedLists(s);
    NobodysBlocks(s, t);
  }

  /** From s to t only condemned blocks were handed back or rewritten. */
  ghost predicate OnlyFreed(s: St, t: St) {
    && t.dir.files == s.dir.files && t.dir.ifree == s.dir.ifree && t.cbs == s.cbs && t.dirty == s.dirty
    && t.g.ip == s.g.ip && t.g.content == s.g.content && t.g.opener == s.g.opener
    && t.g.dp.limbo == s.g.dp.limbo && t.g.dp.lo == s.g.dp.lo
    && |t.ib| == |s.ib| && |t.dat| == |s.dat|
    && (t.dd == s.dd || (t.dd.DirSector? && |t.dd.dir.files| == |t.dir.files|))
  }

  /** The walk of lftruncate stands before the k-th condemned index block: the ones
      before it are relinked, the ones from it on are as the file had them, and the data
      blocks of the former are free. */
  ghost predicate Walked(s: St, k: nat) {
    && Base(s, -1, -1) && s.g.ip.gone == 0
    && k <= |s.g.ip.limbo| && |s.g.dp.limbo| <= LF_IBLEN * |s.g.ip.limbo|
    && s.g.dp.gone == Min(|s.g.dp.limbo|, LF_IBLEN * k)
    && (forall m :: 0 <= m < |s.g.ip.limbo| ==> s.g.ip.limbo[m] < |s.ib|)
    && (forall m :: 0 <= m < k ==> s.ib[s.g.ip.limbo[m]].next == After(s.g.ip.limbo, m, s.dir.ifree))
    && (forall m :: k <= m < |s.g.ip.limbo| ==> IbOk(s.ib[s.g.ip.limbo[m]], s.g.ip.limbo, s.g.dp.limbo, m))
  }

  function Min(a: nat, b: nat): nat {
    if a < b then a else b
  }

  /** Emptying a file starts the walk. */
  lemma WalkStarts(s: St, i: nat)
    requires Base(s, -1, -1) && NoLimbo(s) && OpenAt(s, i) && !s.cbs[i].idirty && !s.cbs[i].ddirty
    ensures Sized(s) && Walked(Empty(s, i), 0) && Empty(s, i).g.ip.limbo == s.g.ip.used[s.cbs[i].file]
    ensures s.dir.files[s.cbs[i].file].ilist == At(s.g.ip.used[s.cbs[i].file], 0)
  {
    hide PoolOk, FilesOk, CbsOk, ListsOk, NamesOk, IbOk;
    var t, c := Empty(s, i), s.cbs[i];
    EmptyOk(s, i);
    Unpack(s, i, -1, -1);
    forall m | 0 <= m < |t.g.ip.limbo|
      ensures t.g.ip.limbo[m] < |t.ib| && IbOk(t.ib[t.g.ip.limbo[m]], t.g.ip.limbo, t.g.dp.limbo, m)
    {
      assert IbOk(EffIb(s.ib, c, s.g.ip.used[c.file][m]), s.g.ip.used[c.file], s.g.dp.used[c.file], m);
    }
  }

  /** The block the walk stands before is never the head of the free list, which is how
      the walk knows where to stop. */
  lemma StopsAtFree(s: St, k: nat)
    requires Walked(s, k) && k < |s.g.ip.limbo|
    ensures s.g.ip.limbo[k] != s.dir.ifree
  {
    hide PoolOk, FilesOk, CbsOk, NamesOk, IbOk;
    Condemned(s.g.ip, k);
  }

  /** Handing back a data block keeps the walk where it is, between two index blocks. */
  ghost predicate Between(s: St, t: St, k: nat, d: nat) {
    && Base(t, -1, -1) && OnlyFreed(s, t) && t.ib == s.ib
    && t.g.dp.gone == Min(|t.g.dp.limbo|, LF_IBLEN * k + d)
  }

  lemma FreeSlot(s: St, t: St, k: nat, d: nat)
    requires Walked(s, k) && k < |s.g.ip.limbo| && Between(s, t, k, d) && d < LF_IBLEN
    ensures var n := At(t.g.dp.limbo, LF_IBLEN * k + d);
            if n == LF_NULL then Between(s, t, k, d + 1)
            else
              && t.g.dp.gone < |t.g.dp.limbo| && t.g.dp.limbo[t.g.dp.gone] == n && n < |t.dat|
              && Between(s, FreeData(t), k, d + 1)
  {
    hide PoolOk, FileOk, FilesOk, CbsOk, ListsOk, NamesOk, IbOk;
    if LF_IBLEN * k + d < |t.g.dp.limbo| {
      FreeDataOk(t);
    }
  }

  /** Relinking the k-th index block moves the walk on. */
  lemma WalkOn(s: St, t: St, k: nat, b: IBlock)
    requires Walked(s, k) && k < |s.g.ip.limbo| && Between(s, t, k, LF_IBLEN)
    requires b.next == After(s.g.ip.limbo, k, s.dir.ifree)
    ensures t.g.ip.limbo[k] < |t.ib|
    ensures Walked(ClearIndex(t, t.g.ip.limbo[k], b), k + 1) && OnlyFreed(s, ClearIndex(t, t.g.ip.limbo[k], b))
  {
    hide PoolOk, FileOk, FilesOk, CbsOk, ListsOk, NamesOk, IbOk, After;
    ClearIndexOk(t, k, b);
    Condemned(t.g.ip, k);
  }

  lemma WalkEnds(s: St)
    requires Walked(s, |s.g.ip.limbo|) && |s.g.ip.limbo| > 0
    ensures Base(SpliceIndex(s), -1, -1) && NoLimbo(SpliceIndex(s))
  {
    hide PoolOk, FileOk, FilesOk, CbsOk, ListsOk, NamesOk, IbOk, After;
    SpliceIndexOk(s);
  }

  lemma WalkFacts(s: St, k: nat)
    requires Walked(s, k) && k < |s.g.ip.limbo|
    ensures s.g.ip.limbo[k] < |s.ib| && IbOk(s.ib[s.g.ip.limbo[k]], s.g.ip.limbo, s.g.dp.limbo, k)
    ensures var n := s.ib[s.g.ip.limbo[k]].next;
            (if n == LF_NULL then s.dir.ifree else n) == After(s.g.ip.limbo, k, s.dir.ifree)
  {
    hide PoolOk, FileOk, FilesOk, CbsOk, ListsOk, NamesOk;
  }

  lemma OnlyFreedOn(s: St, t: St, u: St)
    requires OnlyFreed(s, t) && OnlyFreed(t, u)
    ensures OnlyFreed(s, u)
    ensures u.g.ip.limbo == s.g.ip.limbo && u.dir.ifree == s.dir.ifree
  {
  }
}
