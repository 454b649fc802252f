/** The state of the local file system as one value, and what must hold of it: which
    blocks form which file, what the caches of open files stand for, and how the two
    free lists run through the disk. */
module LfsLayout {
  import opened LfsTypes
  import opened LfsPool

  /** The bookkeeping behind the invariant. ip and dp own the index and data blocks;
      content is what each file holds; opener is the control block that has the file
      open, or -1. */
  datatype Layout = Layout(ip: Pool, dp: Pool, content: seq<seq<byte>>, opener: seq<int>)

  /** A snapshot: the index area unpacked into blocks, the data area by sector number,
      the directory on disk and in memory, the control blocks. */
  datatype St = St(ib: seq<IBlock>, dat: seq<Sector>, dd: Sector, dir: Dir, dirty: bool, cbs: seq<Cb>, g: Layout)

  const NO_CB := Cb(false, 0, "", 0, LF_NULL, IBlock(LF_NULL, 0, []), LF_NULL, [], LF_BLKSIZ, false, false)

  ghost function CacheOf(cbs: seq<Cb>, o: int): Cb {
    if 0 <= o < |cbs| then cbs[o] else NO_CB
  }

  /** Index block n and data block d as the holder of cache c sees them. */
  ghost function EffIb(ib: seq<IBlock>, c: Cb, n: nat): IBlock
    requires n < |ib|
  {
    if c.inum == n then c.ib else ib[n]
  }

  ghost function EffDat(dat: seq<Sector>, c: Cb, d: nat): seq<byte>
    requires d < |dat|
  {
    if c.dnum == d then c.db else if dat[d].DataSector? then dat[d].bytes else []
  }

  ghost function At(l: seq<nat>, k: nat): int {
    if k < |l| then l[k] else LF_NULL
  }

  /** b is the k-th index block of a file. */
  ghost predicate IbOk(b: IBlock, iblks: seq<nat>, dblks: seq<nat>, k: nat) {
    && b.next == At(iblks, k + 1)
    && b.offset == LF_IDATA * k
    && |b.dba| == LF_IBLEN
    && forall d :: 0 <= d < LF_IBLEN ==> b.dba[d] == At(dblks, LF_IBLEN * k + d)
  }

  /** bytes is the j-th data block of a file; bytes past the end of the file are free. */
  ghost predicate DataOk(bytes: seq<byte>, content: seq<byte>, j: nat) {
    && |bytes| == LF_BLKSIZ
    && forall x :: 0 <= x < LF_BLKSIZ && LF_BLKSIZ * j + x < |content| ==> bytes[x] == content[LF_BLKSIZ * j + x]
  }

  /** A file with these index and data blocks holds this content. */
  ghost predicate FileOk(ib: seq<IBlock>, dat: seq<Sector>, iblks: seq<nat>, dblks: seq<nat>, content: seq<byte>,
                         c: Cb) {
    && |dblks| <= LF_IBLEN * |iblks|
    && |content| <= LF_BLKSIZ * |dblks|
    && (forall k :: 0 <= k < |iblks| ==> iblks[k] < |ib| && IbOk(EffIb(ib, c, iblks[k]), iblks, dblks, k))
    && (forall j :: 0 <= j < |dblks| ==> dblks[j] < |dat| && DataOk(EffDat(dat, c, dblks[j]), content, j))
  }

  /** What the control block of an open file may hold. A pending block is one that was
      just allocated and has not been marked dirty yet. */
  ghost predicate CacheOk(ib: seq<IBlock>, dat: seq<Sector>, dblks: seq<nat>, content: seq<byte>, c: Cb,
                          pending: bool) {
    && c.pos <= |content|
    && |c.db| == LF_BLKSIZ
    && c.bptr <= LF_BLKSIZ
    && (if c.inum == LF_NULL then !c.idirty && c.dnum == LF_NULL
        else 0 <= c.inum < |ib| && (c.idirty || ib[c.inum] == c.ib))
    && (if c.dnum == LF_NULL then !c.ddirty && c.bptr == LF_BLKSIZ
        else 0 <= c.dnum < |dat| && (c.ddirty || pending || dat[c.dnum] == DataSector(c.db)))
    && (c.bptr < LF_BLKSIZ ==>
          c.pos / LF_BLKSIZ < |dblks| && c.dnum == dblks[c.pos / LF_BLKSIZ] && c.bptr == c.pos % LF_BLKSIZ)
  }

  ghost predicate Sized(s: St) {
    var n := |s.dir.files|;
    && |s.g.ip.used| == n && |s.g.dp.used| == n && |s.g.content| == n && |s.g.opener| == n
    && n <= LF_NUM_DIR_ENT
    && |s.g.ip.own| == |s.ib| && |s.g.dp.own| == |s.dat|
    && s.g.ip.lo == 0
    && LF_BLKSIZ * |s.dat| < TWO32
  }

  ghost function CacheFor(s: St, f: nat): Cb
    requires f < |s.g.opener|
  {
    CacheOf(s.cbs, s.g.opener[f])
  }

  ghost predicate FileAt(s: St, f: nat)
    requires Sized(s) && f < |s.dir.files|
  {
    && FileOk(s.ib, s.dat, s.g.ip.used[f], s.g.dp.used[f], s.g.content[f], CacheFor(s, f))
    && s.dir.files[f].ilist == At(s.g.ip.used[f], 0)
    && -1 <= s.g.opener[f] < |s.cbs|
    && (s.g.opener[f] >= 0 ==> s.cbs[s.g.opener[f]].open && s.cbs[s.g.opener[f]].file == f)
  }

  /** The directory entry and the number of blocks agree with the length of the file. */
  ghost predicate LensAt(s: St, f: nat)
    requires Sized(s) && f < |s.dir.files|
  {
    && s.dir.files[f].size == |s.g.content[f]|
    && |s.g.ip.used[f]| == Blocks(|s.g.content[f]|, LF_IDATA)
    && |s.g.dp.used[f]| == Blocks(|s.g.content[f]|, LF_BLKSIZ)
  }

  ghost predicate CbAt(s: St, i: nat, p: int)
    requires Sized(s) && i < |s.cbs|
  {
    var c := s.cbs[i];
    c.open ==>
      && c.file < |s.dir.files|
      && s.g.opener[c.file] == i
      && c.name == s.dir.files[c.file].name
      && (c.inum != LF_NULL ==> Mine(s.g.ip, c.inum, c.file))
      && (c.dnum != LF_NULL ==> Mine(s.g.dp, c.dnum, c.file))
      && CacheOk(s.ib, s.dat, s.g.dp.used[c.file], s.g.content[c.file], c, i == p)
  }

  ghost predicate ListsOk(s: St)
    requires Sized(s)
  {
    && s.dir.ifree == Top(s.g.ip.free)
    && s.dir.dfree == Top(s.g.dp.free)
    && (forall k :: 0 <= k < |s.g.ip.free| ==>
          s.g.ip.free[k] < |s.ib| && s.ib[s.g.ip.free[k]].next == Below(s.g.ip.free, k))
    && (forall k :: 0 <= k < |s.g.dp.free| ==>
          s.g.dp.free[k] < |s.dat| && s.dat[s.g.dp.free[k]] == FreeSector(Below(s.g.dp.free, k)))
  }

  ghost predicate NamesOk(s: St) {
    && (forall f :: 0 <= f < |s.dir.files| ==> |s.dir.files[f].name| < LF_NAME_LEN)
    && (forall f, h :: 0 <= f < h < |s.dir.files| ==> s.dir.files[f].name != s.dir.files[h].name)
  }

  ghost predicate PoolsOk(s: St) {
    PoolOk(s.g.ip) && PoolOk(s.g.dp)
  }

  ghost predicate FilesOk(s: St, x: int)
    requires Sized(s)
  {
    && (forall f :: 0 <= f < |s.dir.files| ==> FileAt(s, f))
    && (forall f :: 0 <= f < |s.dir.files| && f != x ==> LensAt(s, f))
  }

  ghost predicate CbsOk(s: St, p: int)
    requires Sized(s)
  {
    forall i :: 0 <= i < |s.cbs| ==> CbAt(s, i, p)
  }

  /** The invariant. While file x is being extended its lengths are not settled; control
      block p may hold a pending block. Between calls both are -1. */
  ghost predicate Base(s: St, x: int, p: int) {
    Sized(s) && PoolsOk(s) && ListsOk(s) && NamesOk(s) && FilesOk(s, x) && CbsOk(s, p)
  }

  ghost predicate Quiet(s: St) {
    && Base(s, -1, -1)
    && |s.g.ip.limbo| == 0 && |s.g.dp.limbo| == 0
  }

  /** File h is none of the business of the step from s to t. */
  ghost predicate Untouched(s: St, t: St, h: nat)
    requires Sized(s) && Sized(t) && h < |s.dir.files| && |t.dir.files| == |s.dir.files|
  {
    && t.g.ip.used[h] == s.g.ip.used[h] && t.g.dp.used[h] == s.g.dp.used[h]
    && t.g.content[h] == s.g.content[h] && t.g.opener[h] == s.g.opener[h]
    && t.dir.files[h] == s.dir.files[h]
    && |t.cbs| == |s.cbs|
    && (s.g.opener[h] >= 0 && s.g.opener[h] < |s.cbs| ==> t.cbs[s.g.opener[h]] == s.cbs[s.g.opener[h]])
    && |t.ib| == |s.ib| && |t.dat| == |s.dat|
    && (forall k :: 0 <= k < |s.g.ip.used[h]| && s.g.ip.used[h][k] < |s.ib| ==>
          t.ib[s.g.ip.used[h][k]] == s.ib[s.g.ip.used[h][k]])
    && (forall k :: 0 <= k < |s.g.dp.used[h]| && s.g.dp.used[h][k] < |s.dat| ==>
          t.dat[s.g.dp.used[h][k]] == s.dat[s.g.dp.used[h][k]])
  }

  /** A file depends only on its blocks as seen through the cache. */
  lemma SameFileOk(ib: seq<IBlock>, dat: seq<Sector>, c: Cb, ib': seq<IBlock>, dat': seq<Sector>, c': Cb,
                   iblks: seq<nat>, dblks: seq<nat>, content: seq<byte>)
    requires FileOk(ib, dat, iblks, dblks, content, c)
    requires |ib'| == |ib| && |dat'| == |dat|
    requires forall k :: 0 <= k < |iblks| ==> EffIb(ib', c', iblks[k]) == EffIb(ib, c, iblks[k])
    requires forall j :: 0 <= j < |dblks| ==> EffDat(dat', c', dblks[j]) == EffDat(dat, c, dblks[j])
    ensures FileOk(ib', dat', iblks, dblks, content, c')
  {
  }

  lemma KeepFile(s: St, t: St, h: nat)
    requires Sized(s) && Sized(t) && h < |s.dir.files| && |t.dir.files| == |s.dir.files|
    requires FileAt(s, h) && Untouched(s, t, h)
    ensures FileAt(t, h)
  {
    SameFileOk(s.ib, s.dat, CacheFor(s, h), t.ib, t.dat, CacheFor(t, h),
               s.g.ip.used[h], s.g.dp.used[h], s.g.content[h]);
  }

  lemma KeepCb(s: St, t: St, j: nat, p: int)
    requires Sized(s) && Sized(t) && j < |s.cbs| && |t.cbs| == |s.cbs| && |t.dir.files| == |s.dir.files|
    requires PoolsOk(s) && PoolsOk(t) && CbAt(s, j, p) && t.cbs[j] == s.cbs[j]
    requires s.cbs[j].open && s.cbs[j].file < |s.dir.files| ==> Untouched(s, t, s.cbs[j].file)
    ensures CbAt(t, j, p)
  {
    hide PoolOk;
    var c := s.cbs[j];
    if c.open {
      if c.inum != LF_NULL {
        Placed(s.g.ip, c.inum, c.file);
        Listed(t.g.ip, c.file, s.g.ip.own[c.inum].k);
      }
      if c.dnum != LF_NULL {
        Placed(s.g.dp, c.dnum, c.file);
        Listed(t.g.dp, c.file, s.g.dp.own[c.dnum].k);
      }
    }
  }

  /** A step that works for control block i on file f leaves the invariant to be shown
      of that file, that control block and the free lists only. */
  ghost predicate Confined(s: St, t: St, i: nat, f: nat)
    requires Sized(s) && Sized(t)
  {
    && |t.cbs| == |s.cbs| && |t.dir.files| == |s.dir.files|
    && (forall h :: 0 <= h < |s.dir.files| ==> t.dir.files[h].name == s.dir.files[h].name)
    && (forall h :: 0 <= h < |s.dir.files| && h != f ==> Untouched(s, t, h))
    && (forall j :: 0 <= j < |s.cbs| && j != i ==> t.cbs[j] == s.cbs[j])
  }

  /** Writing only to blocks that are not another file's is enough. */
  lemma OwnBlocksOnly(s: St, t: St, i: nat, f: nat, x: int)
    requires Sized(s) && Sized(t) && PoolsOk(s) && FilesOk(s, x) && f < |s.dir.files|
    requires |t.cbs| == |s.cbs| && |t.dir.files| == |s.dir.files| && |t.ib| == |s.ib| && |t.dat| == |s.dat|
    requires s.g.opener[f] == i || (s.g.opener[f] == -1 && i < |s.cbs| && !s.cbs[i].open)
    requires forall h :: 0 <= h < |s.dir.files| ==> t.dir.files[h].name == s.dir.files[h].name
    requires forall h :: 0 <= h < |s.dir.files| && h != f ==>
               && t.g.ip.used[h] == s.g.ip.used[h] && t.g.dp.used[h] == s.g.dp.used[h]
               && t.g.content[h] == s.g.content[h] && t.g.opener[h] == s.g.opener[h]
               && t.dir.files[h] == s.dir.files[h]
    requires forall j :: 0 <= j < |s.cbs| && j != i ==> t.cbs[j] == s.cbs[j]
    requires forall b :: 0 <= b < |s.ib| && t.ib[b] != s.ib[b] ==> !Foreign(s.g.ip, b, f)
    requires forall b :: 0 <= b < |s.dat| && t.dat[b] != s.dat[b] ==> !Foreign(s.g.dp, b, f)
    ensures Confined(s, t, i, f)
  {
    forall h | 0 <= h < |s.dir.files| && h != f
      ensures Untouched(s, t, h)
    {
      assert FileAt(s, f) && FileAt(s, h);
    }
  }

  lemma ConfinedFiles(s: St, t: St, i: nat, f: nat, x: int, y: int)
    requires Sized(s) && Sized(t) && FilesOk(s, x) && Confined(s, t, i, f)
    requires f < |s.dir.files| && FileAt(t, f) && (y == f || LensAt(t, f)) && (x == -1 || x == f)
    ensures FilesOk(t, y)
  {
    forall h | 0 <= h < |t.dir.files| && h != f
      ensures FileAt(t, h)
      ensures LensAt(t, h)
    {
      assert FileAt(s, h) && LensAt(s, h);
      KeepFile(s, t, h);
    }
  }

  lemma ConfinedCbs(s: St, t: St, i: nat, f: nat, p: int, q: int)
    requires PoolsOk(s) && PoolsOk(t)
    requires Sized(s) && Sized(t) && CbsOk(s, p) && Confined(s, t, i, f) && i < |s.cbs| && f < |s.dir.files|
    requires CbAt(t, i, q) && (s.g.opener[f] == i || s.g.opener[f] == -1)
    requires (p == -1 || p == i) && (q == -1 || q == i)
    ensures CbsOk(t, q)
  {
    forall j | 0 <= j < |t.cbs|
      ensures CbAt(t, j, q)
    {
      if j != i {
        assert CbAt(s, j, p) && CbAt(s, j, q);
        KeepCb(s, t, j, q);
      }
    }
  }

  lemma ConfinedKeeps(s: St, t: St, i: nat, f: nat, x: int, p: int, y: int, q: int)
    requires Base(s, x, p) && Sized(t) && PoolsOk(t) && ListsOk(t)
    requires i < |s.cbs| && f < |s.dir.files| && Confined(s, t, i, f)
    requires s.g.opener[f] == i || s.g.opener[f] == -1
    requires FileAt(t, f) && (y == f || LensAt(t, f)) && (x == -1 || x == f) && CbAt(t, i, q)
    requires (p == -1 || p == i) && (q == -1 || q == i)
    ensures Base(t, y, q)
  {
    ConfinedFiles(s, t, i, f, x, y);
    ConfinedCbs(s, t, i, f, p, q);
  }
}
