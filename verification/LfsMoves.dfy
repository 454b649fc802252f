/** The steps that change what a file holds, where it is read, or who has it open. */
module LfsMoves {
  import opened LfsTypes
  import opened LfsPool
  import opened LfsLayout
  import opened LfsSteps

  /** The file of control block i has blocks for the byte at its position. */
  ghost predicate Room(s: St, i: nat)
    requires Sized(s)
  {
    OpenAt(s, i) &&
    var f := s.cbs[i].file;
    var n := Max(|s.g.content[f]|, s.cbs[i].pos + 1);
    && s.dir.files[f].size == |s.g.content[f]|
    && |s.g.ip.used[f]| == Blocks(n, LF_IDATA)
    && |s.g.dp.used[f]| == Blocks(n, LF_BLKSIZ)
  }

  lemma NextByte(pos: nat)
    requires pos % LF_BLKSIZ + 1 < LF_BLKSIZ
    ensures (pos + 1) / LF_BLKSIZ == pos / LF_BLKSIZ && (pos + 1) % LF_BLKSIZ == pos % LF_BLKSIZ + 1
  {
  }

  /** A file that ends inside a data block has room for one more byte. */
  lemma Slack(n: nat)
    requires n / LF_BLKSIZ < Blocks(n, LF_BLKSIZ)
    ensures Blocks(n + 1, LF_BLKSIZ) == Blocks(n, LF_BLKSIZ) && Blocks(n + 1, LF_IDATA) == Blocks(n, LF_IDATA)
  {
    hide Blocks;
    var b, d := Blocks(n, LF_BLKSIZ), Blocks(n, LF_IDATA);
    assert n < LF_BLKSIZ * b;
    BlocksAre(n + 1, LF_BLKSIZ, b);
    assert n != LF_IDATA * d by {
      assert LF_IDATA * d == LF_BLKSIZ * (LF_IBLEN * d);
    }
    BlocksAre(n + 1, LF_IDATA, d);
  }

  /** While lfbyte is inside the buffer no block needs to be set up. */
  lemma RoomHere(s: St, i: nat)
    requires Base(s, -1, -1) && OpenAt(s, i) && s.cbs[i].bptr < LF_BLKSIZ
    ensures Room(s, i)
  {
    hide PoolOk, FileOk, NamesOk, ListsOk, Blocks;
    Unpack(s, i, -1, -1);
    var n := |s.g.content[s.cbs[i].file]|;
    if s.cbs[i].pos == n {
      Slack(n);
    }
  }

  /** No file is so long that its size or a position in it wraps around. */
  lemma SizeFits(s: St, f: nat)
    requires Sized(s) && PoolsOk(s) && f < |s.dir.files|
    ensures LF_BLKSIZ * |s.g.dp.used[f]| < TWO32
  {
    TotalAtLeast(s.g.dp.used, f);
  }

  ghost function Put(s: St, i: nat, ch: byte): St
    requires Sized(s) && OpenAt(s, i) && s.cbs[i].bptr < |s.cbs[i].db| && s.cbs[i].pos <= |s.g.content[s.cbs[i].file]|
  {
    var c := s.cbs[i];
    var f := c.file;
    var e := s.dir.files[f];
    var grow := c.pos >= e.size;
    SetCb(s, i, c.(db := c.db[c.bptr := ch], bptr := c.bptr + 1, pos := c.pos + 1, ddirty := true)).(
      dir := if grow then s.dir.(files := s.dir.files[f := e.(size := e.size + 1)]) else s.dir,
      dirty := grow || s.dirty,
      g := s.g.(content := s.g.content[f := Overwritten(s.g.content[f], c.pos, ch)]))
  }

  lemma PutFile(ib: seq<IBlock>, dat: seq<Sector>, c: Cb, iblks: seq<nat>, dblks: seq<nat>, content: seq<byte>,
                ch: byte)
    requires FileOk(ib, dat, iblks, dblks, content, c) && c.pos <= |content|
    requires |c.db| == LF_BLKSIZ && c.bptr == c.pos % LF_BLKSIZ
    requires c.pos / LF_BLKSIZ < |dblks| && c.dnum == dblks[c.pos / LF_BLKSIZ]
    requires forall j :: 0 <= j < |dblks| && j != c.pos / LF_BLKSIZ ==> dblks[j] != c.dnum
    ensures FileOk(ib, dat, iblks, dblks, Overwritten(content, c.pos, ch),
                   c.(db := c.db[c.bptr := ch], bptr := c.bptr + 1, pos := c.pos + 1, ddirty := true))
  {
    var c' := c.(db := c.db[c.bptr := ch], bptr := c.bptr + 1, pos := c.pos + 1, ddirty := true);
    forall k | 0 <= k < |iblks|
      ensures EffIb(ib, c', iblks[k]) == EffIb(ib, c, iblks[k])
    {}
    forall j | 0 <= j < |dblks|
      ensures DataOk(EffDat(dat, c', dblks[j]), Overwritten(content, c.pos, ch), j)
    {
      assert DataOk(EffDat(dat, c, dblks[j]), content, j);
    }
  }

  ghost predicate CanPut(s: St, i: nat, x: int, p: int) {
    && Base(s, x, p) && Room(s, i) && s.cbs[i].bptr < LF_BLKSIZ
    && (x == -1 || x == s.cbs[i].file) && (p == -1 || p == i)
    && |s.cbs[i].db| == LF_BLKSIZ && s.cbs[i].pos <= |s.g.content[s.cbs[i].file]|
  }

  lemma PutFileAt(s: St, i: nat, ch: byte, x: int, p: int)
    requires CanPut(s, i, x, p)
    ensures Sized(Put(s, i, ch)) && FileAt(Put(s, i, ch), s.cbs[i].file) && LensAt(Put(s, i, ch), s.cbs[i].file)
  {
    hide PoolOk, FileOk, NamesOk, FilesOk, CbsOk, ListsOk, Blocks;
    var t, c := Put(s, i, ch), s.cbs[i];
    Unpack(s, i, x, p);
    assert Sized(t);
    Placed(s.g.dp, c.dnum, c.file);
    Once(s.g.dp, c.file, c.pos / LF_BLKSIZ);
    PutFile(s.ib, s.dat, c, s.g.ip.used[c.file], s.g.dp.used[c.file], s.g.content[c.file], ch);
  }

  lemma PutOk(s: St, i: nat, ch: byte, x: int, p: int)
    requires CanPut(s, i, x, p)
    ensures Base(Put(s, i, ch), -1, -1)
    ensures s.dir.files[s.cbs[i].file].size + 1 < TWO32 && s.cbs[i].pos + 1 < TWO32
  {
    hide PoolOk, FileOk, NamesOk, FilesOk, CbsOk, Blocks, ListsOk, CbAt;
    var t, c := Put(s, i, ch), s.cbs[i];
    Unpack(s, i, x, p);
    SizeFits(s, c.file);
    PutFileAt(s, i, ch, x, p);
    PutLists(s, i, ch, x, p);
    PutCb(s, i, ch, x, p);
    assert Confined(s, t, i, c.file) by { OwnBlocksOnly(s, t, i, c.file, x); }
    assert c.pos + 1 <= LF_BLKSIZ * (c.pos / LF_BLKSIZ + 1) <= LF_BLKSIZ * |s.g.dp.used[c.file]|;
    ConfinedKeeps(s, t, i, c.file, x, p, -1, -1);
  }

  lemma PutLists(s: St, i: nat, ch: byte, x: int, p: int)
    requires CanPut(s, i, x, p)
    ensures ListsOk(Put(s, i, ch))
  {
    hide PoolOk, FileOk, NamesOk, FilesOk, CbsOk, Blocks;
  }

  lemma PutCb(s: St, i: nat, ch: byte, x: int, p: int)
    requires CanPut(s, i, x, p)
    ensures CbAt(Put(s, i, ch), i, -1)
  {
    hide PoolOk, FileOk, NamesOk, FilesOk, CbsOk, Blocks, ListsOk;
    Unpack(s, i, x, p);
    SizeFits(s, s.cbs[i].file);
    PutFileAt(s, i, ch, x, p);
    var c := s.cbs[i];
    if c.bptr + 1 < LF_BLKSIZ {
      NextByte(c.pos);
    }
  }

  /** lflgetc, after the block is set up: step over one byte. */
  ghost function Advance(s: St, i: nat): St
    requires i < |s.cbs|
  {
    SetCb(s, i, s.cbs[i].(bptr := s.cbs[i].bptr + 1, pos := s.cbs[i].pos + 1))
  }

  lemma AdvanceOk(s: St, i: nat)
    requires Base(s, -1, -1) && OpenAt(s, i) && s.cbs[i].bptr < LF_BLKSIZ
    requires Sized(s) && s.cbs[i].pos < |s.g.content[s.cbs[i].file]|
    ensures |s.cbs[i].db| == LF_BLKSIZ && s.cbs[i].db[s.cbs[i].bptr] == s.g.content[s.cbs[i].file][s.cbs[i].pos]
    ensures s.cbs[i].pos + 1 < TWO32
    ensures Base(Advance(s, i), -1, -1)
  {
    hide PoolOk, FileOk, NamesOk, FilesOk, CbsOk;
    var c := s.cbs[i];
    Unpack(s, i, -1, -1);
    SizeFits(s, c.file);
    var t := Advance(s, i);
    assert Sized(t) && ListsOk(t);
    assert CbAt(t, i, -1);
    assert Confined(s, t, i, c.file) by { OwnBlocksOnly(s, t, i, c.file, -1); }
    assert FileAt(t, c.file) by {
      SameFileOk(s.ib, s.dat, c, t.ib, t.dat, t.cbs[i],
                 s.g.ip.used[c.file], s.g.dp.used[c.file], s.g.content[c.file]);
    }
    CachedByte(s.ib, s.dat, c, s.g.ip.used[c.file], s.g.dp.used[c.file], s.g.content[c.file]);
    ConfinedKeeps(s, t, i, c.file, -1, -1, -1, -1);
  }

  lemma CachedByte(ib: seq<IBlock>, dat: seq<Sector>, c: Cb, iblks: seq<nat>, dblks: seq<nat>, content: seq<byte>)
    requires FileOk(ib, dat, iblks, dblks, content, c) && c.pos < |content|
    requires |c.db| == LF_BLKSIZ && c.bptr == c.pos % LF_BLKSIZ
    requires c.pos / LF_BLKSIZ < |dblks| && c.dnum == dblks[c.pos / LF_BLKSIZ]
    ensures c.db[c.bptr] == content[c.pos]
    ensures |content| <= LF_BLKSIZ * |dblks|
  {
    assert DataOk(EffDat(dat, c, dblks[c.pos / LF_BLKSIZ]), content, c.pos / LF_BLKSIZ);
  }

  /** lflseek: move, and force the blocks to be looked up again. */
  ghost function Seek(s: St, i: nat, pos: nat): St
    requires i < |s.cbs|
  {
    SetCb(s, i, s.cbs[i].(pos := pos, bptr := LF_BLKSIZ))
  }

  lemma SeekOk(s: St, i: nat, pos: nat)
    requires Base(s, -1, -1) && OpenAt(s, i)
    requires Sized(s) && pos <= |s.g.content[s.cbs[i].file]|
    ensures Base(Seek(s, i, pos), -1, -1)
  {
    hide PoolOk, FileOk, NamesOk, FilesOk, CbsOk;
    var t, c := Seek(s, i, pos), s.cbs[i];
    Unpack(s, i, -1, -1);
    assert Sized(t) && ListsOk(t);
    assert CbAt(t, i, -1);
    assert Confined(s, t, i, c.file) by { OwnBlocksOnly(s, t, i, c.file, -1); }
    assert FileAt(t, c.file) by {
      SameFileOk(s.ib, s.dat, c, t.ib, t.dat, t.cbs[i],
                 s.g.ip.used[c.file], s.g.dp.used[c.file], s.g.content[c.file]);
    }
    ConfinedKeeps(s, t, i, c.file, -1, -1, -1, -1);
  }

  /** lflclose, after the flush: the control block is free again. */
  ghost function Close(s: St, i: nat): St
    requires OpenAt(s, i) && s.cbs[i].file < |s.g.opener|
  {
    SetCb(s, i, s.cbs[i].(open := false)).(g := s.g.(opener := s.g.opener[s.cbs[i].file := -1]))
  }

  lemma CloseOk(s: St, i: nat)
    requires Base(s, -1, -1) && OpenAt(s, i) && !s.cbs[i].idirty && !s.cbs[i].ddirty
    requires Sized(s)
    ensures Base(Close(s, i), -1, -1)
  {
    hide PoolOk, FileOk, NamesOk, FilesOk, CbsOk;
    var t, c := Close(s, i), s.cbs[i];
    Unpack(s, i, -1, -1);
    assert Sized(t) && ListsOk(t);
    assert CbAt(t, i, -1);
    assert Confined(s, t, i, c.file) by { OwnBlocksOnly(s, t, i, c.file, -1); }
    assert FileAt(t, c.file) by {
      DropCache(s.ib, s.dat, c, NO_CB, s.g.ip.used[c.file], s.g.dp.used[c.file], s.g.content[c.file]);
    }
    ConfinedKeeps(s, t, i, c.file, -1, -1, -1, -1);
  }

  /** A cache that agrees with the disk may be exchanged for one that is empty. */
  lemma DropCache(ib: seq<IBlock>, dat: seq<Sector>, c: Cb, e: Cb, iblks: seq<nat>, dblks: seq<nat>, content: seq<byte>)
    requires FileOk(ib, dat, iblks, dblks, content, c)
    requires c.inum == LF_NULL || (0 <= c.inum < |ib| && ib[c.inum] == c.ib)
    requires c.dnum == LF_NULL || (0 <= c.dnum < |dat| && dat[c.dnum] == DataSector(c.db))
    requires e.inum == LF_NULL && e.dnum == LF_NULL
    ensures FileOk(ib, dat, iblks, dblks, content, e)
  {
    SameFileOk(ib, dat, c, ib, dat, e, iblks, dblks, content);
  }

  /** lfsopen: control block i takes up file f. */
  ghost function Open(s: St, i: nat, f: nat): St
    requires i < |s.cbs| && f < |s.g.opener| && f < |s.dir.files|
  {
    var c := s.cbs[i];
    SetCb(s, i, c.(open := true, file := f, name := s.dir.files[f].name, pos := 0, inum := LF_NULL, dnum := LF_NULL,
                   bptr := LF_BLKSIZ, idirty := false, ddirty := false)).(
      g := s.g.(opener := s.g.opener[f := i]))
  }

  lemma OpenOk(s: St, i: nat, f: nat)
    requires Base(s, -1, -1) && i < |s.cbs| && !s.cbs[i].open && |s.cbs[i].db| == LF_BLKSIZ
    requires f < |s.dir.files| && Sized(s) && s.g.opener[f] == -1
    ensures Base(Open(s, i, f), -1, -1)
  {
    hide PoolOk, FileOk, NamesOk, CbsOk;
    var t := Open(s, i, f);
    assert FileAt(s, f) && LensAt(s, f);
    assert Sized(t) && ListsOk(t);
    assert CbAt(t, i, -1);
    assert Confined(s, t, i, f) by { OwnBlocksOnly(s, t, i, f, -1); }
    assert FileAt(t, f) by {
      DropCache(s.ib, s.dat, NO_CB, t.cbs[i], s.g.ip.used[f], s.g.dp.used[f], s.g.content[f]);
    }
    ConfinedKeeps(s, t, i, f, -1, -1, -1, -1);
  }

  /** lfsopen: a new, empty file at the end of the directory. */
  ghost function Create(s: St, name: string): St {
    s.(dir := s.dir.(files := s.dir.files + [DirEntry(0, LF_NULL, name)]),
       g := s.g.(ip := AddFile(s.g.ip), dp := AddFile(s.g.dp), content := s.g.content + [[]],
                 opener := s.g.opener + [-1]))
  }

  lemma CreateOk(s: St, name: string)
    requires Base(s, -1, -1) && |s.dir.files| < LF_NUM_DIR_ENT && |name| < LF_NAME_LEN
    requires forall f :: 0 <= f < |s.dir.files| ==> s.dir.files[f].name != name
    ensures Base(Create(s, name), -1, -1)
  {
    hide PoolOk, FileOk;
    var t, n := Create(s, name), |s.dir.files|;
    AddFileOk(s.g.ip);
    AddFileOk(s.g.dp);
    assert Sized(t) && ListsOk(t) && NamesOk(t);
    forall f | 0 <= f <= n
      ensures FileAt(t, f) && LensAt(t, f)
    {
      if f < n {
        assert FileAt(s, f) && LensAt(s, f);
      } else {
        EmptyFileOk(s.ib, s.dat);
      }
    }
    forall j | 0 <= j < |t.cbs|
      ensures CbAt(t, j, -1)
    {
      assert CbAt(s, j, -1);
    }
  }

  lemma EmptyFileOk(ib: seq<IBlock>, dat: seq<Sector>)
    ensures FileOk(ib, dat, [], [], [], NO_CB)
  {
  }
}
