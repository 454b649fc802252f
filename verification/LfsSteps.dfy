/** The steps that file operations are made of, as functions on snapshots, each with the
    proof that it keeps the invariant. */
module LfsSteps {
  import opened LfsTypes
  import opened LfsPool
  import opened LfsLayout

  /** Control block i has its file open. */
  ghost predicate OpenAt(s: St, i: nat) {
    i < |s.cbs| && s.cbs[i].open && s.cbs[i].file < |s.dir.files|
  }

  lemma Unpack(s: St, i: nat, x: int, p: int)
    requires Base(s, x, p) && OpenAt(s, i)
    ensures s.g.opener[s.cbs[i].file] == i
    ensures CbAt(s, i, p) && FileAt(s, s.cbs[i].file) && CacheFor(s, s.cbs[i].file) == s.cbs[i]
    ensures s.cbs[i].file == x || LensAt(s, s.cbs[i].file)
  {
    hide PoolOk;
    assert CbAt(s, i, p);
  }

  ghost function SetCb(s: St, i: nat, c: Cb): St
    requires i < |s.cbs|
  {
    s.(cbs := s.cbs[i := c])
  }

  ghost function SaveDir(s: St): St {
    s.(dd := DirSector(s.dir), dirty := false)
  }

  lemma SaveDirOk(s: St, x: int, p: int)
    requires Base(s, x, p)
    ensures Base(SaveDir(s), x, p)
  {
    hide PoolOk;
    var t := SaveDir(s);
    forall f | 0 <= f < |s.dir.files|
      ensures FileAt(t, f)
      ensures f != x ==> LensAt(t, f)
    {
      assert FileAt(s, f) && (f != x ==> LensAt(s, f));
    }
    forall i | 0 <= i < |s.cbs|
      ensures CbAt(t, i, p)
    {
      assert CbAt(s, i, p);
    }
  }

  /** lfflush: the directory, then the data block, then the index block. */
  ghost function WriteData(s: St, i: nat): St
    requires i < |s.cbs| && 0 <= s.cbs[i].dnum < |s.dat|
  {
    SetCb(s, i, s.cbs[i].(ddirty := false)).(dat := s.dat[s.cbs[i].dnum := DataSector(s.cbs[i].db)])
  }

  lemma WriteDataOk(s: St, i: nat, x: int)
    requires Base(s, x, -1) && OpenAt(s, i) && 0 <= s.cbs[i].dnum < |s.dat|
    requires x == -1 || x == s.cbs[i].file
    ensures Base(WriteData(s, i), x, -1)
  {
    hide PoolOk;
    var t, c := WriteData(s, i), s.cbs[i];
    assert CbAt(s, i, -1) && FileAt(s, c.file) && (c.file != x ==> LensAt(s, c.file));
    NotFree(s.g.dp, c.dnum, c.file);
    SameFileOk(s.ib, s.dat, c, t.ib, t.dat, t.cbs[i],
               s.g.ip.used[c.file], s.g.dp.used[c.file], s.g.content[c.file]);
    OwnBlocksOnly(s, t, i, c.file, x);
    ConfinedKeeps(s, t, i, c.file, x, -1, x, -1);
  }

  ghost function WriteIndex(s: St, i: nat): St
    requires i < |s.cbs| && 0 <= s.cbs[i].inum < |s.ib|
  {
    SetCb(s, i, s.cbs[i].(idirty := false)).(ib := s.ib[s.cbs[i].inum := s.cbs[i].ib])
  }

  lemma WriteIndexOk(s: St, i: nat, x: int)
    requires Base(s, x, -1) && OpenAt(s, i) && 0 <= s.cbs[i].inum < |s.ib|
    requires x == -1 || x == s.cbs[i].file
    ensures Base(WriteIndex(s, i), x, -1)
  {
    hide PoolOk;
    var t, c := WriteIndex(s, i), s.cbs[i];
    assert CbAt(s, i, -1) && FileAt(s, c.file) && (c.file != x ==> LensAt(s, c.file));
    NotFree(s.g.ip, c.inum, c.file);
    SameFileOk(s.ib, s.dat, c, t.ib, t.dat, t.cbs[i],
               s.g.ip.used[c.file], s.g.dp.used[c.file], s.g.content[c.file]);
    OwnBlocksOnly(s, t, i, c.file, x);
    ConfinedKeeps(s, t, i, c.file, x, -1, x, -1);
  }

  /** The caches of control block i may be dropped. */
  ghost predicate Clean(s: St, i: nat)
    requires i < |s.cbs|
  {
    !s.cbs[i].idirty && !s.cbs[i].ddirty && s.cbs[i].bptr == LF_BLKSIZ
  }

  /** lfsetup: bring index block n of the file into the cache; unless keep, forget the
      cached data block. */
  ghost function LoadIndex(s: St, i: nat, n: nat, keep: bool): St
    requires i < |s.cbs| && n < |s.ib|
  {
    var c := s.cbs[i];
    SetCb(s, i, c.(inum := n, ib := s.ib[n], dnum := if keep then c.dnum else LF_NULL))
  }

  lemma LoadIndexOk(s: St, i: nat, n: nat, keep: bool, x: int)
    requires Base(s, x, -1) && OpenAt(s, i) && Clean(s, i)
    requires x == -1 || x == s.cbs[i].file
    requires Sized(s) && Mine(s.g.ip, n, s.cbs[i].file)
    ensures Base(LoadIndex(s, i, n, keep), x, -1)
  {
    hide PoolOk;
    var t, c := LoadIndex(s, i, n, keep), s.cbs[i];
    assert CbAt(s, i, -1) && FileAt(s, c.file) && (c.file != x ==> LensAt(s, c.file));
    SameFileOk(s.ib, s.dat, c, t.ib, t.dat, t.cbs[i],
               s.g.ip.used[c.file], s.g.dp.used[c.file], s.g.content[c.file]);
    OwnBlocksOnly(s, t, i, c.file, x);
    ConfinedKeeps(s, t, i, c.file, x, -1, x, -1);
  }

  /** lfsetup: bring data block d of the file into the cache. */
  ghost function LoadData(s: St, i: nat, d: nat): St
    requires i < |s.cbs| && d < |s.dat| && s.dat[d].DataSector?
  {
    SetCb(s, i, s.cbs[i].(dnum := d, db := s.dat[d].bytes, ddirty := false))
  }

  lemma LoadDataOk(s: St, i: nat, d: nat, x: int)
    requires Base(s, x, -1) && OpenAt(s, i) && s.cbs[i].inum != LF_NULL && !s.cbs[i].ddirty
             && s.cbs[i].bptr == LF_BLKSIZ
    requires x == -1 || x == s.cbs[i].file
    requires Sized(s) && Mine(s.g.dp, d, s.cbs[i].file) && d != s.cbs[i].dnum
    ensures s.dat[d].DataSector? && Base(LoadData(s, i, d), x, -1)
  {
    hide PoolOk;
    var c := s.cbs[i];
    assert CbAt(s, i, -1) && FileAt(s, c.file) && (c.file != x ==> LensAt(s, c.file));
    Placed(s.g.dp, d, c.file);
    assert DataOk(EffDat(s.dat, c, d), s.g.content[c.file], s.g.dp.own[d].k);
    var t := LoadData(s, i, d);
    SameFileOk(s.ib, s.dat, c, t.ib, t.dat, t.cbs[i],
               s.g.ip.used[c.file], s.g.dp.used[c.file], s.g.content[c.file]);
    OwnBlocksOnly(s, t, i, c.file, x);
    ConfinedKeeps(s, t, i, c.file, x, -1, x, -1);
  }

  /** lfsetup: point at the byte of the cached data block that pos names. */
  ghost function Point(s: St, i: nat): St
    requires i < |s.cbs|
  {
    SetCb(s, i, s.cbs[i].(bptr := s.cbs[i].pos % LF_BLKSIZ))
  }

  lemma PointOk(s: St, i: nat, x: int, p: int)
    requires Base(s, x, p) && OpenAt(s, i) && (p == -1 || p == i)
    requires x == -1 || x == s.cbs[i].file
    requires Sized(s) && var c := s.cbs[i];
             c.pos / LF_BLKSIZ < |s.g.dp.used[c.file]| && c.dnum == s.g.dp.used[c.file][c.pos / LF_BLKSIZ]
    ensures Base(Point(s, i), x, p)
  {
    hide PoolOk;
    var t, c := Point(s, i), s.cbs[i];
    assert CbAt(s, i, p) && FileAt(s, c.file) && (c.file != x ==> LensAt(s, c.file));
    SameFileOk(s.ib, s.dat, c, t.ib, t.dat, t.cbs[i],
               s.g.ip.used[c.file], s.g.dp.used[c.file], s.g.content[c.file]);
    OwnBlocksOnly(s, t, i, c.file, x);
    ConfinedKeeps(s, t, i, c.file, x, p, x, p);
  }

  /** lfiballoc as the disk and the directory see it: unlink the top free index block. */
  ghost function PopIndex(s: St): St
    requires 0 <= s.dir.ifree < |s.ib|
  {
    var dir := s.dir.(ifree := s.ib[s.dir.ifree].next);
    s.(dir := dir, dd := DirSector(dir), dirty := false)
  }

  /** lfdballoc likewise. */
  ghost function PopData(s: St): St
    requires 0 <= s.dir.dfree < |s.dat| && s.dat[s.dir.dfree].FreeSector?
  {
    var dir := s.dir.(dfree := s.dat[s.dir.dfree].nextdb);
    s.(dir := dir, dd := DirSector(dir), dirty := false)
  }

  /** lfsetup: the first index block of an empty file. */
  ghost function AllocFirst(s: St, i: nat): St
    requires OpenAt(s, i) && Sized(s) && PoolsOk(s) && |s.g.ip.free| > 0 && 0 <= s.dir.ifree < |s.ib|
  {
    var t, c, n := PopIndex(s), s.cbs[i], s.dir.ifree;
    SetCb(t, i, c.(inum := n, ib := Cleared(0), idirty := true)).(
      dir := t.dir.(files := t.dir.files[c.file := t.dir.files[c.file].(ilist := n)]),
      g := t.g.(ip := Pop(t.g.ip, c.file)))
  }

  /** The block about to be allocated is not in the file yet. */
  lemma TopIsFree(s: St, f: nat)
    requires Sized(s) && PoolsOk(s) && ListsOk(s) && f < |s.dir.files|
    ensures |s.g.ip.free| > 0 ==>
              && InPool(s.g.ip, s.dir.ifree)
              && (forall k :: 0 <= k < |s.g.ip.used[f]| ==> s.g.ip.used[f][k] != s.dir.ifree)
              && !Foreign(s.g.ip, s.dir.ifree, f)
    ensures |s.g.dp.free| > 0 ==>
              && InPool(s.g.dp, s.dir.dfree)
              && (forall j :: 0 <= j < |s.g.dp.used[f]| ==> s.g.dp.used[f][j] != s.dir.dfree)
              && !Foreign(s.g.dp, s.dir.dfree, f)
  {
    hide PoolOk;
    if |s.g.ip.free| > 0 {
      OnlyFree(s.g.ip, |s.g.ip.free| - 1);
    }
    if |s.g.dp.free| > 0 {
      OnlyFree(s.g.dp, |s.g.dp.free| - 1);
    }
  }

  /** The free list of index blocks after its top was taken and other blocks written. */
  lemma IndexPopped(s: St, t: St)
    requires Sized(s) && Sized(t) && ListsOk(s) && |s.g.ip.free| > 0 && 0 <= s.dir.ifree < |s.ib|
    requires t.g.ip.free == s.g.ip.free[..|s.g.ip.free| - 1] && t.dir.ifree == s.ib[s.dir.ifree].next
    requires t.g.dp.free == s.g.dp.free && t.dir.dfree == s.dir.dfree && t.dat == s.dat && |t.ib| == |s.ib|
    requires forall k :: 0 <= k < |t.g.ip.free| ==>
               s.g.ip.free[k] < |s.ib| && t.ib[s.g.ip.free[k]] == s.ib[s.g.ip.free[k]]
    ensures ListsOk(t)
  {
  }

  lemma DataPopped(s: St, t: St)
    requires Sized(s) && Sized(t) && ListsOk(s) && |s.g.dp.free| > 0 && 0 <= s.dir.dfree < |s.dat|
             && s.dat[s.dir.dfree].FreeSector?
    requires t.g.dp.free == s.g.dp.free[..|s.g.dp.free| - 1] && t.dir.dfree == s.dat[s.dir.dfree].nextdb
    requires t.g.ip.free == s.g.ip.free && t.dir.ifree == s.dir.ifree && t.ib == s.ib && t.dat == s.dat
    ensures ListsOk(t)
  {
  }

  lemma FirstFile(ib: seq<IBlock>, dat: seq<Sector>, c: Cb, iblks: seq<nat>, dblks: seq<nat>, content: seq<byte>,
                  n: nat)
    requires FileOk(ib, dat, iblks, dblks, content, c) && |iblks| == 0 && n < |ib|
    ensures FileOk(ib, dat, iblks + [n], dblks, content, c.(inum := n, ib := Cleared(0), idirty := true))
  {
  }

  lemma ExtendFile(ib: seq<IBlock>, dat: seq<Sector>, c: Cb, iblks: seq<nat>, dblks: seq<nat>, content: seq<byte>,
                   n: nat)
    requires FileOk(ib, dat, iblks, dblks, content, c) && !c.ddirty
    requires c.dnum == LF_NULL || (0 <= c.dnum < |dat| && dat[c.dnum] == DataSector(c.db))
    requires |iblks| > 0 && c.inum == iblks[|iblks| - 1] && n < |ib| && forall k :: 0 <= k < |iblks| ==> iblks[k] != n
    requires forall k :: 0 <= k < |iblks| - 1 ==> iblks[k] != c.inum
    ensures FileOk(ib[c.inum := c.ib.(next := n)], dat, iblks + [n], dblks, content,
                   c.(inum := n, ib := Cleared(c.ib.offset + LF_IDATA), idirty := true, dnum := LF_NULL))
  {
    var ib' := ib[c.inum := c.ib.(next := n)];
    var c' := c.(inum := n, ib := Cleared(c.ib.offset + LF_IDATA), idirty := true, dnum := LF_NULL);
    forall k | 0 <= k < |iblks| + 1
      ensures IbOk(EffIb(ib', c', (iblks + [n])[k]), iblks + [n], dblks, k)
    {
      if k < |iblks| {
        assert IbOk(EffIb(ib, c, iblks[k]), iblks, dblks, k);
      } else {
        assert IbOk(EffIb(ib, c, iblks[k - 1]), iblks, dblks, k - 1);
      }
    }
    forall j | 0 <= j < |dblks|
      ensures EffDat(dat, c', dblks[j]) == EffDat(dat, c, dblks[j])
    {}
  }

  lemma BlockOfFile(ib: seq<IBlock>, dat: seq<Sector>, c: Cb, iblks: seq<nat>, dblks: seq<nat>, content: seq<byte>,
                    k: nat)
    requires FileOk(ib, dat, iblks, dblks, content, c) && k < |iblks| && c.inum == iblks[k]
    ensures IbOk(c.ib, iblks, dblks, k)
  {
    assert EffIb(ib, c, iblks[k]) == c.ib;
  }

  lemma AllocDataFile(ib: seq<IBlock>, dat: seq<Sector>, c: Cb, iblks: seq<nat>, dblks: seq<nat>, content: seq<byte>,
                      n: nat, k: nat, dindex: nat)
    requires FileOk(ib, dat, iblks, dblks, content, c) && !c.ddirty
    requires c.dnum == LF_NULL || (0 <= c.dnum < |dat| && dat[c.dnum] == DataSector(c.db))
    requires k < |iblks| && c.inum == iblks[k] && dindex < LF_IBLEN && |dblks| == LF_IBLEN * k + dindex
    requires n < |dat| && forall j :: 0 <= j < |dblks| ==> dblks[j] != n
    requires forall h :: 0 <= h < |iblks| && h != k ==> iblks[h] != c.inum
    requires dindex < |c.ib.dba|
    ensures FileOk(ib, dat, iblks, dblks + [n], content,
                   c.(dnum := n, db := seq(LF_BLKSIZ, _ => DFILL), ib := c.ib.(dba := c.ib.dba[dindex := n]),
                      idirty := true))
  {
    var c' := c.(dnum := n, db := seq(LF_BLKSIZ, _ => DFILL), ib := c.ib.(dba := c.ib.dba[dindex := n]),
                 idirty := true);
    forall h | 0 <= h < |iblks|
      ensures IbOk(EffIb(ib, c', iblks[h]), iblks, dblks + [n], h)
    {
      assert IbOk(EffIb(ib, c, iblks[h]), iblks, dblks, h);
    }
    forall j | 0 <= j < |dblks| + 1
      ensures DataOk(EffDat(dat, c', (dblks + [n])[j]), content, j)
    {
      if j < |dblks| {
        assert EffDat(dat, c', dblks[j]) == EffDat(dat, c, dblks[j]);
      }
    }
  }

  lemma AllocFirstOk(s: St, i: nat)
    requires OpenAt(s, i) && Base(s, s.cbs[i].file, -1) && Clean(s, i) && s.cbs[i].inum == LF_NULL
    requires Sized(s) && |s.g.ip.used[s.cbs[i].file]| == 0 && |s.g.ip.free| > 0
    ensures 0 <= s.dir.ifree < |s.ib|
    ensures Base(AllocFirst(s, i), s.cbs[i].file, -1)
  {
    hide PoolOk, FileOk;
    var t, c := AllocFirst(s, i), s.cbs[i];
    PopOk(s.g.ip, c.file);
    assert CbAt(s, i, -1) && FileAt(s, c.file);
    assert ListsOk(t) by { IndexPopped(s, t); }
    assert FileAt(t, c.file) by {
      FirstFile(s.ib, s.dat, c, s.g.ip.used[c.file], s.g.dp.used[c.file], s.g.content[c.file], s.dir.ifree);
    }
    OwnBlocksOnly(s, t, i, c.file, c.file);
    ConfinedKeeps(s, t, i, c.file, c.file, -1, c.file, -1);
  }

  /** lfsetup: chain a new index block behind the last one. */
  ghost predicate CanExtend(s: St, i: nat) {
    && OpenAt(s, i) && Base(s, s.cbs[i].file, -1) && Clean(s, i)
    && |s.g.ip.free| > 0 && 0 <= s.dir.ifree < |s.ib|
    && var u := s.g.ip.used[s.cbs[i].file];
    |u| > 0 && s.cbs[i].inum == u[|u| - 1] && s.cbs[i].inum < |s.ib|
  }

  ghost function Relink(s: St, i: nat): St
    requires i < |s.cbs| && 0 <= s.cbs[i].inum < |s.ib| && 0 <= s.dir.ifree < |s.ib|
  {
    var t, c, n := PopIndex(s), s.cbs[i], s.dir.ifree;
    SetCb(t, i, c.(inum := n, ib := Cleared(c.ib.offset + LF_IDATA), idirty := true, dnum := LF_NULL)).(
      ib := t.ib[c.inum := c.ib.(next := n)])
  }

  ghost function Extend(s: St, i: nat): St
    requires CanExtend(s, i)
  {
    var t := Relink(s, i);
    t.(g := t.g.(ip := Pop(s.g.ip, s.cbs[i].file)))
  }

  lemma ExtendFileAt(s: St, i: nat)
    requires CanExtend(s, i)
    ensures Sized(Extend(s, i)) && FileAt(Extend(s, i), s.cbs[i].file) && CbAt(Extend(s, i), i, -1)
  {
    hide PoolOk, FileOk, NamesOk, FilesOk, CbsOk;
    var t, c, n := Extend(s, i), s.cbs[i], s.dir.ifree;
    var u := s.g.ip.used[c.file];
    Unpack(s, i, c.file, -1);
    assert Sized(t);
    TopIsFree(s, c.file);
    assert t.g.ip.used[c.file] == u + [n];
    assert CbAt(t, i, -1);
    assert FileOk(t.ib, t.dat, t.g.ip.used[c.file], t.g.dp.used[c.file], t.g.content[c.file], t.cbs[i]) by {
      Once(s.g.ip, c.file, |u| - 1);
      ExtendFile(s.ib, s.dat, c, u, s.g.dp.used[c.file], s.g.content[c.file], n);
    }
  }

  lemma ExtendOk(s: St, i: nat)
    requires CanExtend(s, i)
    ensures Base(Extend(s, i), s.cbs[i].file, -1)
  {
    hide PoolOk, FileOk, NamesOk, FilesOk, CbsOk;
    var t, c := Extend(s, i), s.cbs[i];
    ExtendFileAt(s, i);
    Unpack(s, i, c.file, -1);
    NotFree(s.g.ip, c.inum, c.file);
    assert PoolsOk(t) by { PopOk(s.g.ip, c.file); }
    assert ListsOk(t) by { IndexPopped(s, t); }
    assert Confined(s, t, i, c.file) by { OwnBlocksOnly(s, t, i, c.file, c.file); }
    ConfinedKeeps(s, t, i, c.file, c.file, -1, c.file, -1);
  }

  /** lfsetup: the next data block of the file, entered in the cached index block. */
  ghost function AllocData(s: St, i: nat, dindex: nat): St
    requires OpenAt(s, i) && Sized(s) && PoolsOk(s) && |s.g.dp.free| > 0
    requires 0 <= s.dir.dfree < |s.dat| && s.dat[s.dir.dfree].FreeSector?
    requires dindex < |s.cbs[i].ib.dba|
  {
    var t, c, n := PopData(s), s.cbs[i], s.dir.dfree;
    SetCb(t, i, c.(dnum := n, db := seq(LF_BLKSIZ, _ => DFILL), ib := c.ib.(dba := c.ib.dba[dindex := n]),
                   idirty := true)).(
      g := t.g.(dp := Pop(t.g.dp, c.file)))
  }

  lemma AllocDataOk(s: St, i: nat, dindex: nat, k: nat)
    requires OpenAt(s, i) && Base(s, s.cbs[i].file, -1) && !s.cbs[i].ddirty && s.cbs[i].bptr == LF_BLKSIZ
    requires Sized(s) && |s.g.dp.free| > 0
    requires var c := s.cbs[i];
             && k < |s.g.ip.used[c.file]| && c.inum == s.g.ip.used[c.file][k]
             && dindex < LF_IBLEN && |s.g.dp.used[c.file]| == LF_IBLEN * k + dindex
             && |s.g.content[c.file]| <= LF_BLKSIZ * (LF_IBLEN * k + dindex)
    ensures 0 <= s.dir.dfree < |s.dat| && s.dat[s.dir.dfree].FreeSector? && dindex < |s.cbs[i].ib.dba|
    ensures Base(AllocData(s, i, dindex), s.cbs[i].file, i)
  {
    hide PoolOk, FileOk, NamesOk, FilesOk, CbsOk;
    var c := s.cbs[i];
    Unpack(s, i, c.file, -1);
    BlockOfFile(s.ib, s.dat, c, s.g.ip.used[c.file], s.g.dp.used[c.file], s.g.content[c.file], k);
    var t := AllocData(s, i, dindex);
    assert Sized(t);
    TopIsFree(s, c.file);
    assert CbAt(t, i, i);
    assert Confined(s, t, i, c.file) by { OwnBlocksOnly(s, t, i, c.file, c.file); }
    assert PoolsOk(t) by { PopOk(s.g.dp, c.file); }
    assert ListsOk(t) by { DataPopped(s, t); }
    assert FileOk(t.ib, t.dat, t.g.ip.used[c.file], t.g.dp.used[c.file], t.g.content[c.file], t.cbs[i]) by {
      var u, d, n := s.g.ip.used[c.file], s.g.dp.used[c.file], s.dir.dfree;
      assert t.g.dp.used[c.file] == d + [n];
      Once(s.g.ip, c.file, k);
      AllocDataFile(s.ib, s.dat, c, u, d, s.g.content[c.file], n, k, dindex);
    }
    assert FileAt(t, c.file);
    ConfinedKeeps(s, t, i, c.file, c.file, -1, c.file, i);
  }

  /** lfflush as a whole. */
  ghost function Flushed(s: St, i: nat): St
    requires i < |s.cbs|
    requires s.cbs[i].ddirty ==> 0 <= s.cbs[i].dnum < |s.dat|
    requires s.cbs[i].idirty ==> 0 <= s.cbs[i].inum < |s.ib|
  {
    var s1 := if s.dirty then SaveDir(s) else s;
    var s2 := if s.cbs[i].ddirty then WriteData(s1, i) else s1;
    if s.cbs[i].idirty then WriteIndex(s2, i) else s2
  }

  lemma FlushedOk(s: St, i: nat, x: int)
    requires Base(s, x, -1) && OpenAt(s, i) && (x == -1 || x == s.cbs[i].file)
    ensures s.cbs[i].ddirty ==> 0 <= s.cbs[i].dnum < |s.dat| && InPool(s.g.dp, s.cbs[i].dnum)
    ensures s.cbs[i].idirty ==> 0 <= s.cbs[i].inum < |s.ib|
    ensures Base(Flushed(s, i), x, -1)
  {
    hide Base;
    BoundsOf(s, i, x);
    var s1 := if s.dirty then SaveDir(s) else s;
    if s.dirty {
      SaveDirOk(s, x, -1);
    }
    var s2 := if s.cbs[i].ddirty then WriteData(s1, i) else s1;
    if s.cbs[i].ddirty {
      WriteDataOk(s1, i, x);
    }
    if s.cbs[i].idirty {
      WriteIndexOk(s2, i, x);
    }
  }

  lemma BoundsOf(s: St, i: nat, x: int)
    requires Base(s, x, -1) && OpenAt(s, i)
    ensures s.cbs[i].ddirty ==> 0 <= s.cbs[i].dnum < |s.dat| && InPool(s.g.dp, s.cbs[i].dnum)
    ensures s.cbs[i].idirty ==> 0 <= s.cbs[i].inum < |s.ib|
  {
    hide PoolOk;
    Unpack(s, i, x, -1);
  }
}
