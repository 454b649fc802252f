/** What lfsetup promises, and the facts about index blocks that its walk rests on. */
module LfsSetupSpec {
  import opened LfsTypes
  import opened LfsPool
  import opened LfsLayout
  import opened LfsSteps
  import opened LfsMoves

  /** From s to t nothing changed that a user of the file system could see. */
  ghost predicate Kept(s: St, t: St, i: nat) {
    && i < |s.cbs| && |t.cbs| == |s.cbs|
    && Sized(s) && Sized(t)
    && |t.dir.files| == |s.dir.files| && |t.ib| == |s.ib| && |t.dat| == |s.dat|
    && (forall h :: 0 <= h < |s.dir.files| ==>
          t.dir.files[h].name == s.dir.files[h].name && t.dir.files[h].size == s.dir.files[h].size)
    && t.g.content == s.g.content && t.g.opener == s.g.opener
    && t.g.ip.limbo == s.g.ip.limbo && t.g.ip.gone == s.g.ip.gone
    && t.g.dp.limbo == s.g.dp.limbo && t.g.dp.gone == s.g.dp.gone && t.g.dp.lo == s.g.dp.lo
    && (forall j :: 0 <= j < |s.cbs| && j != i ==> t.cbs[j] == s.cbs[j])
    && t.cbs[i].open == s.cbs[i].open && t.cbs[i].file == s.cbs[i].file
    && t.cbs[i].name == s.cbs[i].name && t.cbs[i].pos == s.cbs[i].pos
    && (t.dd == s.dd || (t.dd.DirSector? && |t.dd.dir.files| == |t.dir.files|))
  }

  /** Both directories, on disk and in memory, are as they were. */
  ghost predicate SameDir(s: St, t: St) {
    t.dir == s.dir && t.dd == s.dd && t.dirty == s.dirty
  }

  ghost predicate AtEnd(s: St, i: nat) {
    OpenAt(s, i) && s.cbs[i].file < |s.g.content| && s.cbs[i].pos == |s.g.content[s.cbs[i].file]|
  }

  /** The byte at the position lies in an index block (data block) that does not exist. */
  ghost predicate NeedsIndex(s: St, i: nat) {
    AtEnd(s, i) && s.cbs[i].pos % LF_IDATA == 0
  }

  ghost predicate NeedsData(s: St, i: nat) {
    AtEnd(s, i) && s.cbs[i].pos % LF_BLKSIZ == 0
  }

  /** A block is needed and none is free. */
  ghost predicate Starved(s: St, i: nat) {
    (NeedsIndex(s, i) && |s.g.ip.free| == 0) || (NeedsData(s, i) && |s.g.dp.free| == 0)
  }

  /** The directory on disk was left alone or brought up to date. */
  ghost predicate DirStep(s: St, t: St) {
    SameDir(s, t) || (t.dir == s.dir && t.dd == DirSector(t.dir) && !t.dirty)
  }

  ghost function UsedIx(s: St, i: nat): seq<nat> {
    if OpenAt(s, i) && s.cbs[i].file < |s.g.ip.used| then s.g.ip.used[s.cbs[i].file] else []
  }

  ghost function UsedDt(s: St, i: nat): seq<nat> {
    if OpenAt(s, i) && s.cbs[i].file < |s.g.dp.used| then s.g.dp.used[s.cbs[i].file] else []
  }

  /** The index blocks of the file between s and t: as before, or one more, which was needed. */
  ghost predicate GrownIx(s: St, t: St, i: nat) {
    && t.g.dp == s.g.dp
    && (if |UsedIx(t, i)| == |UsedIx(s, i)| then t.g.ip == s.g.ip && SameDir(s, t)
        else NeedsIndex(s, i) && |s.g.ip.free| > 0 && |UsedIx(t, i)| == |UsedIx(s, i)| + 1)
  }

  /** The number of index blocks covers the file, or the file and one more byte. */
  ghost predicate IxLens(s: St, i: nat)
    requires Sized(s)
  {
    OpenAt(s, i) &&
    var f := s.cbs[i].file;
    var n := |s.g.content[f]|;
    && s.dir.files[f].size == n && s.cbs[i].pos <= n
    && |s.g.dp.used[f]| == Blocks(n, LF_BLKSIZ)
    && (|s.g.ip.used[f]| == Blocks(n, LF_IDATA) ||
        (s.cbs[i].pos == n && |s.g.ip.used[f]| == Blocks(n + 1, LF_IDATA)))
  }

  /** The cached index block is the k-th of the file, where k is its place. */
  lemma CachedIndex(s: St, i: nat, x: int)
    requires Base(s, x, -1) && OpenAt(s, i) && s.cbs[i].inum != LF_NULL
    ensures 0 <= s.cbs[i].inum < |s.ib| && Mine(s.g.ip, s.cbs[i].inum, s.cbs[i].file)
    ensures var k := s.g.ip.own[s.cbs[i].inum].k;
            && k < |UsedIx(s, i)| && UsedIx(s, i)[k] == s.cbs[i].inum
            && IbOk(s.cbs[i].ib, UsedIx(s, i), UsedDt(s, i), k)
  {
    hide PoolOk, FileOk;
    var c := s.cbs[i];
    Unpack(s, i, x, -1);
    Placed(s.g.ip, c.inum, c.file);
    BlockOfFile(s.ib, s.dat, c, s.g.ip.used[c.file], s.g.dp.used[c.file], s.g.content[c.file], s.g.ip.own[c.inum].k);
  }

  /** The k-th index block of a file whose cache is clean, as the disk has it. */
  lemma StoredIndex(s: St, i: nat, x: int, k: nat)
    requires Base(s, x, -1) && OpenAt(s, i) && !s.cbs[i].idirty && k < |UsedIx(s, i)|
    ensures UsedIx(s, i)[k] < |s.ib| && Mine(s.g.ip, UsedIx(s, i)[k], s.cbs[i].file)
    ensures s.g.ip.own[UsedIx(s, i)[k]].k == k
    ensures IbOk(s.ib[UsedIx(s, i)[k]], UsedIx(s, i), UsedDt(s, i), k)
  {
    hide PoolOk, IbOk;
    var c := s.cbs[i];
    Unpack(s, i, x, -1);
    Listed(s.g.ip, c.file, k);
    assert IbOk(EffIb(s.ib, c, s.g.ip.used[c.file][k]), s.g.ip.used[c.file], s.g.dp.used[c.file], k);
  }

  /** What the phases of lfsetup leave behind. */
  ghost predicate IndexReady(s: St, i: nat)
  {
    && OpenAt(s, i) && Base(s, s.cbs[i].file, -1)
    && IxLens(s, i)
    && !s.cbs[i].ddirty && s.cbs[i].bptr == LF_BLKSIZ && s.cbs[i].inum != LF_NULL
    && LF_IDATA * (s.cbs[i].pos / LF_IDATA) >= s.cbs[i].ib.offset
    && (s.cbs[i].idirty ==> LF_IDATA * (s.cbs[i].pos / LF_IDATA) == s.cbs[i].ib.offset)
  }

  /** The file position is not before the offset of the first index block. */
  lemma LoadFirstReady(s: St, i: nat)
    requires Base(s, -1, -1) && OpenAt(s, i) && Clean(s, i) && |UsedIx(s, i)| > 0
    ensures UsedIx(s, i)[0] < |s.ib| && s.dir.files[s.cbs[i].file].ilist == UsedIx(s, i)[0]
    ensures var t := LoadIndex(s, i, UsedIx(s, i)[0], true); IndexReady(t, i) && Kept(s, t, i) && GrownIx(s, t, i)
  {
    hide PoolOk, FileOk, FilesOk, CbsOk, ListsOk, NamesOk;
    Unpack(s, i, -1, -1);
    StoredIndex(s, i, -1, 0);
    var t, f := LoadIndex(s, i, UsedIx(s, i)[0], true), s.cbs[i].file;
    assert Base(t, f, -1) by {
      LoadIndexOk(s, i, UsedIx(s, i)[0], true, -1);
      Loosen(t, f, -1);
    }
  }

  /** The heads of the free lists, where they lead to a block. */
  lemma Heads(s: St, x: int, p: int)
    requires Base(s, x, p)
    ensures Sized(s)
    ensures s.dir.ifree == LF_NULL <==> |s.g.ip.free| == 0
    ensures |s.g.ip.free| > 0 ==> 0 <= s.dir.ifree < |s.ib|
    ensures s.dir.dfree == LF_NULL <==> |s.g.dp.free| == 0
    ensures |s.g.dp.free| > 0 ==> InPool(s.g.dp, s.dir.dfree) && s.dir.dfree < |s.dat| && s.dat[s.dir.dfree].FreeSector?
  {
    hide PoolOk, FileOk, FilesOk, CbsOk, NamesOk;
    assert |s.g.dp.free| > 0 ==> InPool(s.g.dp, s.g.dp.free[|s.g.dp.free| - 1]) by {
      if |s.g.dp.free| > 0 {
        OnlyFree(s.g.dp, |s.g.dp.free| - 1);
      }
    }
  }

  lemma FirstFacts(s: St, i: nat)
    requires Base(s, -1, -1) && OpenAt(s, i)
    ensures Sized(s) && s.cbs[i].file < |s.g.ip.used| && UsedIx(s, i) == s.g.ip.used[s.cbs[i].file]
    ensures s.dir.files[s.cbs[i].file].ilist == LF_NULL <==> |UsedIx(s, i)| == 0
    ensures s.cbs[i].inum != LF_NULL ==> |UsedIx(s, i)| > 0
  {
    hide PoolOk, FileOk, FilesOk, CbsOk, ListsOk, NamesOk;
    Unpack(s, i, -1, -1);
    if s.cbs[i].inum != LF_NULL {
      CachedIndex(s, i, -1);
    }
  }

  lemma StayReady(s: St, i: nat)
    requires Base(s, -1, -1) && OpenAt(s, i) && Clean(s, i) && s.cbs[i].inum != LF_NULL
    requires s.cbs[i].pos >= s.cbs[i].ib.offset
    ensures IndexReady(s, i) && Kept(s, s, i) && GrownIx(s, s, i)
  {
    hide PoolOk, FileOk, FilesOk, CbsOk, ListsOk, NamesOk;
    Unpack(s, i, -1, -1);
    CachedIndex(s, i, -1);
    Loosen(s, s.cbs[i].file, -1);
  }

  /** A flush leaves the user's view alone and the caches clean. */
  lemma FlushedKept(s: St, i: nat)
    requires Base(s, -1, -1) && OpenAt(s, i) && s.cbs[i].bptr == LF_BLKSIZ
    requires s.cbs[i].ddirty ==> 0 <= s.cbs[i].dnum < |s.dat|
    requires s.cbs[i].idirty ==> 0 <= s.cbs[i].inum < |s.ib|
    ensures OpenAt(Flushed(s, i), i) && Kept(s, Flushed(s, i), i) && Clean(Flushed(s, i), i)
    ensures Flushed(s, i).g.ip == s.g.ip && Flushed(s, i).g.dp == s.g.dp && Flushed(s, i).dir == s.dir
    ensures Flushed(s, i).cbs[i] == s.cbs[i].(idirty := false, ddirty := false)
    ensures DirStep(s, Flushed(s, i)) && Starved(Flushed(s, i), i) == Starved(s, i)
  {
    hide PoolOk, FileOk, FilesOk, CbsOk, ListsOk, NamesOk;
  }

  lemma Loosen(s: St, f: nat, p: int)
    requires Base(s, -1, p)
    ensures Base(s, f, p)
  {
    hide PoolOk, FileAt, LensAt, CbAt;
  }

  lemma AllocFirstReady(s: St, i: nat)
    requires Base(s, -1, -1) && OpenAt(s, i) && Clean(s, i) && s.cbs[i].inum == LF_NULL
    requires |UsedIx(s, i)| == 0 && |s.g.ip.free| > 0
    ensures Sized(s) && PoolsOk(s) && 0 <= s.dir.ifree < |s.ib|
    ensures var t := AllocFirst(s, i); IndexReady(t, i) && Kept(s, t, i) && GrownIx(s, t, i)
  {
    hide PoolOk, FileOk, FilesOk, CbsOk, NamesOk, ListsOk, Blocks, Mine;
    Unpack(s, i, -1, -1);
    Loosen(s, s.cbs[i].file, -1);
    AllocFirstOk(s, i);
    var t := AllocFirst(s, i);
    assert Kept(s, t, i);
    assert GrownIx(s, t, i);
    assert IxLens(t, i);
  }

  /** One turn of the loop: the next index block exists. */
  lemma NextReady(s: St, i: nat)
    requires IndexReady(s, i) && s.cbs[i].ib.offset < LF_IDATA * (s.cbs[i].pos / LF_IDATA)
    requires s.cbs[i].ib.next != LF_NULL
    ensures 0 <= s.cbs[i].ib.next < |s.ib|
    ensures var t := LoadIndex(s, i, s.cbs[i].ib.next, false);
            && IndexReady(t, i) && Kept(s, t, i) && t.g == s.g && SameDir(s, t)
            && t.cbs[i].ib.offset == s.cbs[i].ib.offset + LF_IDATA
  {
    hide PoolOk, FileOk, FilesOk, CbsOk, NamesOk, ListsOk;
    var f := s.cbs[i].file;
    CachedIndex(s, i, f);
    var k := s.g.ip.own[s.cbs[i].inum].k;
    StoredIndex(s, i, f, k + 1);
    LoadIndexOk(s, i, s.cbs[i].ib.next, false, f);
  }

  /** One turn of the loop: the chain ends here and is extended. */
  lemma ChainEnds(s: St, i: nat)
    requires IndexReady(s, i) && s.cbs[i].ib.offset < LF_IDATA * (s.cbs[i].pos / LF_IDATA)
    requires s.cbs[i].ib.next == LF_NULL
    ensures NeedsIndex(s, i) && LF_IDATA * |UsedIx(s, i)| == |s.g.content[s.cbs[i].file]|
    ensures |UsedIx(s, i)| == Blocks(|s.g.content[s.cbs[i].file]|, LF_IDATA)
    ensures |UsedIx(s, i)| > 0 && s.cbs[i].inum == UsedIx(s, i)[|UsedIx(s, i)| - 1]
    ensures s.cbs[i].ib.offset == LF_IDATA * (|UsedIx(s, i)| - 1)
  {
    hide PoolOk, FileOk, FilesOk, CbsOk, NamesOk, ListsOk, Blocks;
    var f := s.cbs[i].file;
    CachedIndex(s, i, f);
    var k := s.g.ip.own[s.cbs[i].inum].k;
    assert k + 1 == |UsedIx(s, i)|;
    var n := |s.g.content[f]|;
    assert LF_IDATA * |UsedIx(s, i)| <= s.cbs[i].pos;
  }

  lemma ContentFits(s: St, f: nat)
    requires Sized(s) && FilesOk(s, f) && f < |s.dir.files|
    ensures |s.g.content[f]| <= LF_BLKSIZ * |s.g.dp.used[f]|
  {
    assert FileAt(s, f);
  }

  lemma ExtendReady(s: St, i: nat)
    requires IndexReady(s, i) && s.cbs[i].ib.offset < LF_IDATA * (s.cbs[i].pos / LF_IDATA)
    requires s.cbs[i].ib.next == LF_NULL && |s.g.ip.free| > 0
    ensures CanExtend(s, i) && 0 <= s.cbs[i].ib.offset + LF_IDATA < TWO32
    ensures var t := Extend(s, i);
            && IndexReady(t, i) && Kept(s, t, i) && GrownIx(s, t, i) && |UsedIx(t, i)| == |UsedIx(s, i)| + 1
            && t.cbs[i].ib.offset == s.cbs[i].ib.offset + LF_IDATA
  {
    hide PoolOk, FileOk, FilesOk, CbsOk, NamesOk, ListsOk, Blocks;
    var f := s.cbs[i].file;
    CachedIndex(s, i, f);
    ChainEnds(s, i);
    Heads(s, f, -1);
    ExtendOk(s, i);
    var n := |s.g.content[f]|;
    SizeFits(s, f);
    ContentFits(s, f);
    BlocksAre(n + 1, LF_IDATA, |UsedIx(s, i)| + 1);
    var t := Extend(s, i);
    assert Kept(s, t, i);
    assert GrownIx(s, t, i);
    assert IxLens(t, i);
  }

  /** The cached index block covers the position. */
  ghost predicate Covered(s: St, i: nat) {
    IndexReady(s, i) && s.cbs[i].ib.offset == LF_IDATA * (s.cbs[i].pos / LF_IDATA)
  }

  lemma CoveredOpen(s: St, i: nat)
    requires Covered(s, i)
    ensures OpenAt(s, i)
  {
  }

  function DIndex(pos: nat): (d: nat)
    ensures d < LF_IBLEN
    ensures LF_IBLEN * (pos / LF_IDATA) + d == pos / LF_BLKSIZ
  {
    pos % LF_IDATA / LF_BLKSIZ
  }

  /** The position is set up for the transfer of one byte. */
  ghost predicate SetUp(s: St, t: St, i: nat) {
    && Kept(s, t, i) && OpenAt(s, i) && Room(t, i) && t.cbs[i].bptr < LF_BLKSIZ
    && (if AtEnd(s, i) then Base(t, s.cbs[i].file, -1) || Base(t, s.cbs[i].file, i)
        else Base(t, -1, -1) && DirStep(s, t))
    && (NeedsData(s, i) ==> t.dd.DirSector? && |t.dd.dir.files| == |t.dir.files|)
  }

  lemma CoveredSlot(s: St, i: nat)
    requires Covered(s, i)
    ensures DIndex(s.cbs[i].pos) < |s.cbs[i].ib.dba|
    ensures s.cbs[i].ib.dba[DIndex(s.cbs[i].pos)] == At(UsedDt(s, i), s.cbs[i].pos / LF_BLKSIZ)
    ensures Mine(s.g.ip, s.cbs[i].inum, s.cbs[i].file)
    ensures var k := s.cbs[i].pos / LF_IDATA; k < |UsedIx(s, i)| && UsedIx(s, i)[k] == s.cbs[i].inum
  {
    hide PoolOk, FileOk, FilesOk, CbsOk, NamesOk, ListsOk, Blocks;
    CachedIndex(s, i, s.cbs[i].file);
  }

  /** The index blocks settle at what the file needs with the byte at its position. */
  lemma SettledIx(s: St, i: nat)
    requires Covered(s, i)
    ensures |UsedIx(s, i)| == Blocks(Max(|s.g.content[s.cbs[i].file]|, s.cbs[i].pos + 1), LF_IDATA)
  {
    hide PoolOk, FileOk, FilesOk, CbsOk, NamesOk, ListsOk, Blocks;
    CoveredSlot(s, i);
    var n, u := |s.g.content[s.cbs[i].file]|, |UsedIx(s, i)|;
    if s.cbs[i].pos == n && u == Blocks(n, LF_IDATA) {
      BlocksAre(n + 1, LF_IDATA, u);
    }
  }

  lemma SlotMissing(s: St, i: nat)
    requires Covered(s, i) && At(UsedDt(s, i), s.cbs[i].pos / LF_BLKSIZ) == LF_NULL
    ensures NeedsData(s, i) && |UsedDt(s, i)| == s.cbs[i].pos / LF_BLKSIZ
    ensures LF_BLKSIZ * |UsedDt(s, i)| == |s.g.content[s.cbs[i].file]|
  {
    hide PoolOk, FileOk, FilesOk, CbsOk, NamesOk, ListsOk, Blocks;
    var n := |s.g.content[s.cbs[i].file]|;
    assert LF_BLKSIZ * |UsedDt(s, i)| <= s.cbs[i].pos;
  }

  lemma DataFound(s: St, i: nat, d: nat)
    requires Covered(s, i) && At(UsedDt(s, i), s.cbs[i].pos / LF_BLKSIZ) == d
    ensures InPool(s.g.dp, d) && d < |s.dat| && !NeedsData(s, i)
    ensures d != s.cbs[i].dnum ==>
              s.dat[d].DataSector? && |s.dat[d].bytes| == LF_BLKSIZ && SetUp(s, Point(LoadData(s, i, d), i), i)
    ensures d == s.cbs[i].dnum ==> SetUp(s, Point(s, i), i)
  {
    hide PoolOk, FileOk, FilesOk, CbsOk, NamesOk, ListsOk, Blocks;
    var c := s.cbs[i];
    CoveredSlot(s, i);
    SettledIx(s, i);
    Listed(s.g.dp, c.file, c.pos / LF_BLKSIZ);
    assert !NeedsData(s, i);
    if d != c.dnum {
      LoadDataOk(s, i, d, c.file);
      var t := LoadData(s, i, d);
      Unpack(t, i, c.file, -1);
      FinishData(s, t, i);
    } else {
      FinishData(s, s, i);
    }
  }

  /** The data block of the position is in the cache: point into it. */
  lemma FinishData(s: St, t: St, i: nat)
    requires Kept(s, t, i) && OpenAt(s, i) && Base(t, s.cbs[i].file, -1) && t.g == s.g && SameDir(s, t)
    requires IxLens(s, i) && s.cbs[i].pos / LF_BLKSIZ < |UsedDt(s, i)| && !NeedsData(s, i)
    requires t.cbs[i].dnum == UsedDt(s, i)[s.cbs[i].pos / LF_BLKSIZ]
    requires |UsedIx(s, i)| == Blocks(Max(|s.g.content[s.cbs[i].file]|, s.cbs[i].pos + 1), LF_IDATA)
    ensures SetUp(s, Point(t, i), i)
  {
    hide PoolOk, FileOk, FilesOk, CbsOk, NamesOk, ListsOk, Blocks;
    var f := s.cbs[i].file;
    PointOk(t, i, f, -1);
    var n := |s.g.content[f]|;
    if s.cbs[i].pos == n {
      Slack(n);
    } else {
      Tighten(Point(t, i), f);
    }
  }

  lemma Tighten(s: St, f: nat)
    requires Base(s, f, -1) && f < |s.dir.files| && LensAt(s, f)
    ensures Base(s, -1, -1)
  {
    hide PoolOk, FileAt, LensAt, CbAt;
  }

  lemma DataAllocated(s: St, i: nat)
    requires Covered(s, i) && At(UsedDt(s, i), s.cbs[i].pos / LF_BLKSIZ) == LF_NULL && |s.g.dp.free| > 0
    ensures Sized(s) && PoolsOk(s) && 0 <= s.dir.dfree < |s.dat| && s.dat[s.dir.dfree].FreeSector?
    ensures DIndex(s.cbs[i].pos) < |s.cbs[i].ib.dba|
    ensures SetUp(s, Point(AllocData(s, i, DIndex(s.cbs[i].pos)), i), i)
  {
    hide PoolOk, FileOk, FilesOk, CbsOk, NamesOk, Blocks;
    var c := s.cbs[i];
    CoveredSlot(s, i);
    SettledIx(s, i);
    SlotMissing(s, i);
    AllocDataOk(s, i, DIndex(c.pos), c.pos / LF_IDATA);
    var t := AllocData(s, i, DIndex(c.pos));
    PointOk(t, i, c.file, i);
    BlocksAre(c.pos + 1, LF_BLKSIZ, |UsedDt(s, i)| + 1);
  }

  /** What lfsetup knows when the flush is done. */
  ghost predicate Begun(s: St, i: nat) {
    Base(s, -1, -1) && OpenAt(s, i) && Clean(s, i)
  }

  lemma LensOf(s: St, i: nat)
    requires Begun(s, i)
    ensures Sized(s) && |UsedIx(s, i)| == Blocks(|s.g.content[s.cbs[i].file]|, LF_IDATA)
    ensures s.cbs[i].pos <= |s.g.content[s.cbs[i].file]|
  {
    hide PoolOk, FileOk, FilesOk, CbsOk, ListsOk, NamesOk, Blocks;
    Unpack(s, i, -1, -1);
  }

  lemma NoFirst(s: St, i: nat)
    requires Begun(s, i) && |UsedIx(s, i)| == 0
    ensures NeedsIndex(s, i)
  {
    hide Base;
    LensOf(s, i);
  }

  /** A turn of the loop that loads the next index block. */
  lemma LoopNext(s: St, t: St, u: St, i: nat)
    requires Kept(s, t, i) && GrownIx(s, t, i) && Kept(t, u, i) && u.g == t.g && SameDir(t, u)
    ensures Kept(s, u, i) && GrownIx(s, u, i)
  {
  }

  /** A turn of the loop where the chain ends: it happens once, for a file that is full. */
  lemma LoopEnds(s: St, t: St, i: nat)
    requires Begun(s, i) && IndexReady(t, i) && Kept(s, t, i) && GrownIx(s, t, i)
    requires t.cbs[i].ib.offset < LF_IDATA * (t.cbs[i].pos / LF_IDATA) && t.cbs[i].ib.next == LF_NULL
    ensures NeedsIndex(s, i) && t.g.ip == s.g.ip && |UsedIx(t, i)| == |UsedIx(s, i)|
  {
    hide Base, Blocks;
    LensOf(s, i);
    ChainEnds(t, i);
    assert t.g.content == s.g.content;
  }

  lemma LoopExtends(s: St, t: St, u: St, i: nat)
    requires Kept(s, t, i) && GrownIx(s, t, i) && Kept(t, u, i) && GrownIx(t, u, i)
    requires NeedsIndex(s, i) && t.g.ip == s.g.ip && |UsedIx(t, i)| == |UsedIx(s, i)| && |s.g.ip.free| > 0
    requires |UsedIx(u, i)| == |UsedIx(t, i)| + 1
    ensures Kept(s, u, i) && GrownIx(s, u, i)
  {
  }

  /** When the loop is over, a block that was needed has been allocated. */
  lemma LoopDone(s: St, t: St, i: nat)
    requires Begun(s, i) && Kept(s, t, i) && GrownIx(s, t, i) && Covered(t, i)
    ensures !(NeedsIndex(s, i) && |s.g.ip.free| == 0)
    ensures NeedsData(t, i) == NeedsData(s, i) && t.g.dp == s.g.dp
  {
    hide Base, Blocks;
    LensOf(s, i);
    CoveredSlot(t, i);
    var n := |s.g.content[s.cbs[i].file]|;
    if n % LF_IDATA == 0 {
      BlocksAre(n, LF_IDATA, n / LF_IDATA);
    }
  }

  lemma SetUpOn(s0: St, s: St, t: St, u: St, i: nat)
    requires OpenAt(s0, i) && Kept(s0, s, i) && DirStep(s0, s)
    requires Kept(s, t, i) && GrownIx(s, t, i) && SetUp(t, u, i)
    ensures SetUp(s0, u, i)
  {
    hide Base, Room;
  }

  lemma CoveredNow(s: St, i: nat)
    requires IndexReady(s, i) && LF_IDATA * (s.cbs[i].pos / LF_IDATA) <= s.cbs[i].ib.offset
    ensures Covered(s, i)
  {
  }

  lemma KeptSelf(s: St, i: nat)
    requires Base(s, -1, -1) && OpenAt(s, i)
    ensures Kept(s, s, i)
  {
    hide PoolOk;
  }

  lemma KeptPos(s: St, t: St, i: nat)
    requires Kept(s, t, i)
    ensures i < |s.cbs| == |t.cbs| && t.cbs[i].pos == s.cbs[i].pos
  {
  }
}
