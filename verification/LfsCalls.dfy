/** The calls on open local files, each proved against the users' view of LfsSpec. */
module LfsCalls {
  import opened LfsTypes
  import opened LfsPool
  import opened LfsLayout
  import opened LfsSteps
  import opened LfsMoves
  import opened LfsCut
  import opened LfsSetupSpec
  import opened LfsSpec
  import opened LfsRefine
  import opened LfsDevice

  /** The first n entries of a directory. */
  function Upto(dir: Dir, n: nat): Dir {
    if n <= |dir.files| then dir.(files := dir.files[..n]) else dir
  }

  /** The directory on disk lacks at most files created since it was last written, which
      are empty; for the rest it is right unless the one in memory is marked dirty. */
  ghost predicate Synced(s: St) {
    && s.dd.DirSector? && |s.dd.dir.files| <= |s.dir.files|
    && (!s.dirty ==> s.dd == DirSector(Upto(s.dir, |s.dd.dir.files|)))
    && (forall f :: |s.dd.dir.files| <= f < |s.dir.files| ==> s.dir.files[f].size == 0)
  }

  ghost predicate Valid(fs: Lfs)
    reads fs, fs.disk, fs.lfltab, set c | c in fs.lfltab :: c.lfdblock
  {
    && fs.Shape() && Calm(fs.S()) && Synced(fs.S())
    && (!fs.lf_dirpresent ==> !fs.lf_dirdirty && forall i :: 0 <= i < |fs.lfltab| ==> !fs.lfltab[i].lfstate)
  }

  /** What the users see. */
  ghost function View(fs: Lfs): FS
    requires Valid(fs)
    reads fs, fs.disk, fs.lfltab, set c | c in fs.lfltab :: c.lfdblock
  {
    AbsOf(fs.S())
  }

  lemma SyncedAfterPut(s: St, t: St, i: nat, ch: byte)
    requires Calm(s) && OpenAt(s, i) && Synced(s) && SetUp(s, t, i) && !Starved(s, i)
    requires Sized(t) && t.cbs[i].bptr < |t.cbs[i].db| && t.cbs[i].pos <= |t.g.content[t.cbs[i].file]|
    ensures Synced(Put(t, i, ch))
  {
    hide PoolOk, FileOk, FilesOk, CbsOk, ListsOk, NamesOk, Room, LensAt;
    SizeIs(s, i);
  }

  lemma SyncedAfterGet(s: St, t: St, i: nat)
    requires OpenAt(s, i) && Synced(s) && SetUp(s, t, i) && !AtEnd(s, i)
    ensures Synced(Advance(t, i))
  {
    hide Base;
  }

  /** Bring the byte of the position into the buffer if it is not there. */
  method Position(fs: Lfs, i: nat) returns (r: Status)
    requires Valid(fs) && fs.lf_dirpresent && OpenAt(fs.S(), i)
    modifies fs, fs.disk, fs.lfltab[i], fs.lfltab[i].lfdblock
    ensures fs.Shape() && fs.lf_dirpresent
    ensures r == if Starved(old(fs.S()), i) then PANIC else OK
    ensures r == OK ==> SetUp(old(fs.S()), fs.S(), i)
  {
    ghost var s := fs.S();
    assert Base(s, -1, -1);
    hide Base, Starved, SetUp, Synced, Formatted;
    assert s.cbs[i] == fs.lfltab[i].View();
    SizeIs(s, i);
    r := OK;
    if fs.lfltab[i].lfbyte >= LF_BLKSIZ {
      r := fs.Lfsetup(i);
    } else {
      SetUpHere(s, i);
    }
  }

  /** lflputc */
  method Lflputc(fs: Lfs, i: nat, ch: byte) returns (r: Status)
    requires Valid(fs) && i < |fs.lfltab|
    modifies fs, fs.disk, fs.lfltab[i], fs.lfltab[i].lfdblock
    ensures r == PutC(old(View(fs)), i, ch).1
    ensures r != PANIC ==> Valid(fs) && View(fs) == PutC(old(View(fs)), i, ch).0
  {
    var lfptr := fs.lfltab[i];
    ghost var s := fs.S();
    assert s.cbs[i] == lfptr.View();
    OpenAgrees(s, i);
    if !lfptr.lfstate {
      return SYSERR;
    }
    FullAgrees(s, i);
    SizeIs(s, i);
    var ldptr := fs.lf_dir.files[lfptr.lfdirptr];
    if lfptr.lfpos > ldptr.size {
      assert false;
      return SYSERR;
    }
    r := Position(fs, i);
    if r == PANIC {
      return;
    }
    ghost var t := fs.S();
    PutRefines(s, t, i, ch);
    SyncedAfterPut(s, t, i, ch);
    hide Base, SetUp, Starved, PutC, Formatted, Synced;
    assert t.cbs[i] == lfptr.View();
    KeptOpen(s, t, i);
    fs.StoreByte(i, ch);
  }

  lemma KeptOpen(s: St, t: St, i: nat)
    requires OpenAt(s, i) && SetUp(s, t, i)
    ensures Sized(t) && OpenAt(t, i)
  {
    hide Base, Room;
  }

  /** lflgetc */
  method Lflgetc(fs: Lfs, i: nat) returns (r: int)
    requires Valid(fs) && i < |fs.lfltab|
    modifies fs, fs.disk, fs.lfltab[i], fs.lfltab[i].lfdblock
    ensures Valid(fs)
    ensures (View(fs), r) == GetC(old(View(fs)), i)
  {
    var lfptr := fs.lfltab[i];
    ghost var s := fs.S();
    assert s.cbs[i] == lfptr.View();
    OpenAgrees(s, i);
    if !lfptr.lfstate {
      return SYSERR_CODE;
    }
    SizeIs(s, i);
    var ldptr := fs.lf_dir.files[lfptr.lfdirptr];
    if lfptr.lfpos >= ldptr.size {
      return EOF_CODE;
    }
    var st := Position(fs, i);
    ghost var t := fs.S();
    GetRefines(s, t, i);
    SyncedAfterGet(s, t, i);
    hide Base, SetUp, Starved, GetC, Formatted, Synced;
    assert t.cbs[i] == lfptr.View();
    r := fs.LoadByte(i);
  }

  /** lflseek */
  method Lflseek(fs: Lfs, i: nat, offset: nat) returns (r: Status)
    requires Valid(fs) && i < |fs.lfltab|
    modifies fs.lfltab[i]
    ensures Valid(fs)
    ensures (View(fs), r) == SeekTo(old(View(fs)), i, offset)
  {
    var lfptr := fs.lfltab[i];
    ghost var s := fs.S();
    assert s.cbs[i] == lfptr.View();
    OpenAgrees(s, i);
    if !lfptr.lfstate {
      return SYSERR;
    }
    SizeIs(s, i);
    if offset > fs.lf_dir.files[lfptr.lfdirptr].size {
      return SYSERR;
    }
    SeekRefines(s, i, offset);
    hide Base, SeekTo, Formatted;
    fs.MoveTo(i, offset);
    r := OK;
  }

  /** Write everything back if anything changed. */
  method CleanUp(fs: Lfs, i: nat)
    requires fs.Shape() && fs.lf_dirpresent && Base(fs.S(), -1, -1) && OpenAt(fs.S(), i)
    modifies fs`lf_dirdirty, fs`g, fs.disk, fs.lfltab[i]
    ensures fs.Shape() && fs.lf_dirpresent
    ensures var s := old(fs.S());
            && (s.cbs[i].ddirty ==> 0 <= s.cbs[i].dnum < |s.dat|) && (s.cbs[i].idirty ==> 0 <= s.cbs[i].inum < |s.ib|)
            && fs.S() == if s.dirty || s.cbs[i].ddirty || s.cbs[i].idirty then Flushed(s, i) else s
  {
    ghost var s := fs.S();
    var lfptr := fs.lfltab[i];
    assert s.cbs[i] == lfptr.View();
    FlushedOk(s, i, -1);
    hide Base, Formatted, Flushed;
    if fs.lf_dirdirty || lfptr.lfdbdirty || lfptr.lfibdirty {
      fs.Lfflush(i, -1);
    }
  }

  /** lflclose */
  method Lflclose(fs: Lfs, i: nat) returns (r: Status)
    requires Valid(fs) && i < |fs.lfltab|
    modifies fs, fs.disk, fs.lfltab[i]
    ensures Valid(fs)
    ensures (View(fs), r) == CloseF(old(View(fs)), i)
    ensures r == OK ==> !fs.lf_dirdirty
    ensures !old(fs.lf_dirdirty || fs.lfltab[i].lfdbdirty || fs.lfltab[i].lfibdirty) ==>
              fs.disk.Length > 0 && fs.disk[0] == old(fs.disk[0])
  {
    hide Base, Formatted, Flushed, Synced, Calm, AbsOf, IsOpen, Lfs.S, Lfs.Shape;
    var lfptr := fs.lfltab[i];
    ghost var s := fs.S();
    fs.Facing(i);
    CalmIs(s);
    OpenAgrees(s, i);
    if !lfptr.lfstate {
      return SYSERR;
    }
    assert fs.lf_dirpresent;
    FlushedOk(s, i, -1);
    ClosedRefines(s, i);
    CleanUp(fs, i);
    fs.Facing(i);
    fs.Release(i);
    fs.Facing(i);
    r := OK;
  }

  lemma ClosedRefines(s: St, i: nat)
    requires Calm(s) && OpenAt(s, i) && Synced(s)
    requires s.cbs[i].ddirty ==> 0 <= s.cbs[i].dnum < |s.dat|
    requires s.cbs[i].idirty ==> 0 <= s.cbs[i].inum < |s.ib|
    ensures var t := if s.dirty || s.cbs[i].ddirty || s.cbs[i].idirty then Flushed(s, i) else s;
            && OpenAt(t, i) && t.cbs[i].file < |t.g.opener| && !t.dirty
            && Calm(Close(t, i)) && Synced(Close(t, i))
            && CloseF(AbsOf(s), i) == (AbsOf(Close(t, i)), OK)
  {
    hide PoolOk, FileAt, ListsOk, NamesOk, FilesOk, CbsOk;
    var t := if s.dirty || s.cbs[i].ddirty || s.cbs[i].idirty then Flushed(s, i) else s;
    if s.dirty || s.cbs[i].ddirty || s.cbs[i].idirty {
      FlushedOk(s, i, -1);
    }
    CloseRefines(t, i);
    assert FilesOf(t) == FilesOf(s) && HandlesOf(t) == HandlesOf(s);
  }

  /** lftruncate: hand back the data block of one slot, if there is one. */
  method FreeBlock(fs: Lfs, nextdb: int, ghost s: St, ghost k: nat, ghost d: nat)
    requires fs.Shape() && fs.lf_dirpresent && Walked(s, k) && k < |s.g.ip.limbo| && d < LF_IBLEN
    requires Between(s, fs.S(), k, d) && nextdb == At(s.g.dp.limbo, LF_IBLEN * k + d)
    modifies fs`lf_dir, fs`g, fs.disk
    ensures fs.Shape() && fs.lf_dirpresent && Between(s, fs.S(), k, d + 1)
  {
    ghost var t := fs.S();
    SameLimbo(s, t, k, d);
    FreeSlot(s, t, k, d);
    hide Base, Walked, Between, Formatted;
    if nextdb != LF_NULL {
      fs.FreeCondemned(nextdb);
    }
  }

  lemma WalkPauses(s: St, k: nat)
    requires Walked(s, k)
    ensures Between(s, s, k, 0)
  {
  }

  lemma SameLimbo(s: St, t: St, k: nat, d: nat)
    requires Between(s, t, k, d)
    ensures t.g.ip.limbo == s.g.ip.limbo && t.g.dp.limbo == s.g.dp.limbo && Base(t, -1, -1)
  {
  }

  /** lftruncate: hand back the data blocks of one index block, and clear its pointers. */
  method FreeBlocks(fs: Lfs, iblock: IBlock, ghost k: nat) returns (r: IBlock)
    requires fs.Shape() && fs.lf_dirpresent && Walked(fs.S(), k) && k < |fs.g.ip.limbo|
    requires IbOk(iblock, fs.g.ip.limbo, fs.g.dp.limbo, k)
    modifies fs`lf_dir, fs`g, fs.disk
    ensures fs.Shape() && fs.lf_dirpresent && Between(old(fs.S()), fs.S(), k, LF_IBLEN)
    ensures r == iblock.(dba := r.dba) && |r.dba| == LF_IBLEN
    ensures forall d :: 0 <= d < LF_IBLEN ==> r.dba[d] == LF_NULL
  {
    hide Base, Walked, Between, Formatted;
    ghost var s := fs.S();
    r := iblock;
    var d := 0;
    WalkPauses(s, k);
    while d < LF_IBLEN
      invariant d <= LF_IBLEN && fs.Shape() && fs.lf_dirpresent && Between(s, fs.S(), k, d)
      invariant r == iblock.(dba := r.dba) && |r.dba| == LF_IBLEN
      invariant forall e :: 0 <= e < d ==> r.dba[e] == LF_NULL
    {
      FreeBlock(fs, iblock.dba[d], s, k, d);
      r := r.(dba := r.dba[d := LF_NULL]);
      d := d + 1;
    }
  }

  /** lftruncate, one turn of the loop: clear one index block, and link the last one to
      the free list. */
  method FreeIndex(fs: Lfs, nextib: int, ifree: int, ghost k: nat) returns (next: int)
    requires fs.Shape() && fs.lf_dirpresent && Walked(fs.S(), k) && ifree == fs.lf_dir.ifree
    requires k < |fs.g.ip.limbo| && nextib == fs.g.ip.limbo[k]
    modifies fs`lf_dir, fs`g, fs.disk
    ensures fs.Shape() && fs.lf_dirpresent && Walked(fs.S(), k + 1) && OnlyFreed(old(fs.S()), fs.S())
    ensures next == After(old(fs.g).ip.limbo, k, ifree)
  {
    hide Base, Walked, Between, Formatted, OnlyFreed, IbOk, After;
    ghost var t := fs.S();
    WalkFacts(t, k);
    var iblock := fs.Lfibget(nextib);
    iblock := FreeBlocks(fs, iblock, k);
    iblock := iblock.(offset := 0);
    if iblock.next == LF_NULL {
      iblock := iblock.(next := ifree);
    }
    WalkOn(t, fs.S(), k, iblock);
    SameLimbo(t, fs.S(), k, LF_IBLEN);
    fs.Lfibput(nextib, iblock);
    next := iblock.next;
  }

  /** lftruncate: walk down the index blocks of the file. */
  method FreeChain(fs: Lfs, firstib: int)
    requires fs.Shape() && fs.lf_dirpresent && Walked(fs.S(), 0)
    requires |fs.g.ip.limbo| > 0 && firstib == fs.g.ip.limbo[0]
    modifies fs`lf_dir, fs`g, fs.disk
    ensures fs.Shape() && fs.lf_dirpresent && Walked(fs.S(), |fs.g.ip.limbo|) && OnlyFreed(old(fs.S()), fs.S())
  {
    hide Base, Walked, Between, Formatted, OnlyFreed, IbOk, Lfs.S;
    var ifree := fs.lf_dir.ifree;
    ghost var s, k, l := fs.S(), 0, fs.g.ip.limbo;
    var nextib := firstib;
    OnlyFreedSelf(s);
    fs.Facing(0);
    while nextib != ifree
      invariant k <= |l| && fs.Shape() && fs.lf_dirpresent
      invariant Walked(fs.S(), k) && OnlyFreed(s, fs.S())
      invariant fs.S().g.ip.limbo == l && fs.S().dir.ifree == ifree
      invariant nextib == if k < |l| then l[k] else ifree
      decreases |l| - k
    {
      ghost var t := fs.S();
      fs.Facing(0);
      nextib := FreeIndex(fs, nextib, ifree, k);
      OnlyFreedOn(s, t, fs.S());
      k := k + 1;
    }
    fs.Facing(0);
    if k < |l| {
      StopsAtFree(fs.S(), k);
    }
  }

  lemma OnlyFreedSelf(s: St)
    ensures OnlyFreed(s, s)
  {
  }

  lemma TruncateRefines(s: St, f: St, t: St, i: nat)
    requires Calm(s) && OpenAt(s, i) && Synced(s)
    requires Calm(f) && Synced(f) && OpenAt(f, i) && FilesOf(f) == FilesOf(s) && HandlesOf(f) == HandlesOf(s)
    requires |f.ib| == |s.ib| && |f.dat| == |s.dat| && f.g.dp.lo == s.g.dp.lo
    requires Walked(t, |t.g.ip.limbo|) && |t.g.ip.limbo| > 0 && OnlyFreed(Empty(f, i), t)
    ensures t.g.ip.gone == 0 && Calm(SpliceIndex(t)) && Synced(SpliceIndex(t))
    ensures Truncate(AbsOf(s), i) == (AbsOf(SpliceIndex(t)), OK)
  {
    hide PoolOk, FileAt, ListsOk, NamesOk, FilesOk, CbsOk, IbOk, After;
    OpenAgrees(s, i);
    OpenAgrees(f, i);
    WalkEnds(t);
    var u := SpliceIndex(t);
    assert FilesOf(s)[s.cbs[i].file] == FilesOf(f)[s.cbs[i].file];
    assert HandlesOf(f)[i] == HandlesOf(s)[i];
    assert FilesOf(u) == Truncate(AbsOf(s), i).0.files;
    assert HandlesOf(u) == Truncate(AbsOf(s), i).0.handles;
  }

  /** Truncating an empty file changes nothing. */
  lemma TruncateEmpty(s: St, i: nat)
    requires Calm(s) && OpenAt(s, i) && |s.g.content[s.cbs[i].file]| == 0
    ensures Truncate(AbsOf(s), i) == (AbsOf(s), OK)
  {
    hide PoolOk, FileAt, ListsOk, NamesOk, FilesOk, CbsOk, IbOk, After;
    OpenAgrees(s, i);
    SizeIs(s, i);
    assert FilesOf(s) == Truncate(AbsOf(s), i).0.files;
    assert HandlesOf(s) == Truncate(AbsOf(s), i).0.handles;
  }

  lemma CleanedKeeps(s: St, i: nat)
    requires Calm(s) && OpenAt(s, i) && Synced(s)
    requires s.cbs[i].ddirty ==> 0 <= s.cbs[i].dnum < |s.dat|
    requires s.cbs[i].idirty ==> 0 <= s.cbs[i].inum < |s.ib|
    ensures var f := if s.cbs[i].ddirty || s.cbs[i].idirty then Flushed(s, i) else s;
            && Calm(f) && Synced(f) && OpenAt(f, i) && FilesOf(f) == FilesOf(s) && HandlesOf(f) == HandlesOf(s)
            && |f.ib| == |s.ib| && |f.dat| == |s.dat| && f.g.dp.lo == s.g.dp.lo
            && !f.cbs[i].idirty && !f.cbs[i].ddirty && f.dir == s.dir && f.cbs[i].file == s.cbs[i].file
            && f.g.content == s.g.content
  {
    hide PoolOk, FileAt, ListsOk, NamesOk, FilesOk, CbsOk;
    FlushedOk(s, i, -1);
    var f := if s.cbs[i].ddirty || s.cbs[i].idirty then Flushed(s, i) else s;
    assert FilesOf(f) == FilesOf(s) && HandlesOf(f) == HandlesOf(s);
  }

  /** The blocks of a file that is not empty. */
  lemma HasBlocks(s: St, i: nat)
    requires Calm(s) && OpenAt(s, i) && |s.g.content[s.cbs[i].file]| > 0
    ensures |s.g.ip.used[s.cbs[i].file]| > 0
  {
    hide PoolOk, FileOk, ListsOk, NamesOk;
    Unpack(s, i, -1, -1);
  }

  /** lftruncate */
  method Lftruncate(fs: Lfs, i: nat) returns (r: Status)
    requires Valid(fs) && i < |fs.lfltab| && fs.lfltab[i].lfstate
    modifies fs, fs.disk, fs.lfltab[i]
    ensures Valid(fs)
    ensures (View(fs), r) == Truncate(old(View(fs)), i)
  {
    var lfptr := fs.lfltab[i];
    ghost var s := fs.S();
    assert s.cbs[i] == lfptr.View();
    OpenAgrees(s, i);
    SizeIs(s, i);
    var ldptr := fs.lf_dir.files[lfptr.lfdirptr];
    r := OK;
    if ldptr.size == 0 {
      TruncateEmpty(s, i);
      return;
    }
    CutOff(fs, i);
  }

  /** lftruncate of a file that is not empty. */
  method CutOff(fs: Lfs, i: nat)
    requires Valid(fs) && OpenAt(fs.S(), i) && fs.lf_dirpresent && |fs.g.content[fs.lfltab[i].lfdirptr]| > 0
    modifies fs, fs.disk, fs.lfltab[i]
    ensures Valid(fs)
    ensures (View(fs), OK) == Truncate(old(View(fs)), i)
  {
    var lfptr := fs.lfltab[i];
    hide Base, Formatted, Flushed, Truncate, Empty, OnlyFreed, Walked, Synced, Calm, AbsOf, SpliceIndex, FilesOf,
         HandlesOf,
      Lfs.S, Lfs.Shape;
    ghost var s := fs.S();
    fs.Facing(i);
    CalmIs(s);
    FlushedOk(s, i, -1);
    CleanedKeeps(s, i);
    var firstib := fs.lf_dir.files[lfptr.lfdirptr].ilist;
    if lfptr.lfibdirty || lfptr.lfdbdirty {
      fs.Lfflush(i, -1);
    }
    ghost var f := fs.S();
    fs.Facing(i);
    CalmIs(f);
    HasBlocks(f, i);
    WalkStarts(f, i);
    EmptyLimbo(f, i);
    fs.DropFile(i);
    fs.Facing(i);
    FreeChain(fs, firstib);
    ghost var t := fs.S();
    OnlyFreedOn(Empty(f, i), Empty(f, i), t);
    TruncateRefines(s, f, t, i);
    fs.SpliceChain(firstib);
  }

  lemma EmptyLimbo(s: St, i: nat)
    requires Sized(s) && OpenAt(s, i)
    ensures Empty(s, i).g.ip.limbo == s.g.ip.used[s.cbs[i].file] && OnlyFreed(Empty(s, i), Empty(s, i))
  {
  }

  const LF_CTL_TRUNC := 2

  /** lflcontrol */
  method Lflcontrol(fs: Lfs, i: nat, func: int) returns (r: Status)
    requires Valid(fs) && i < |fs.lfltab|
    modifies fs, fs.disk, fs.lfltab[i]
    ensures Valid(fs)
    ensures func == LF_CTL_TRUNC ==> (View(fs), r) == Truncate(old(View(fs)), i)
    ensures func != LF_CTL_TRUNC ==> View(fs) == old(View(fs)) && r == SYSERR
  {
    OpenAgrees(fs.S(), i);
    assert fs.S().cbs[i] == fs.lfltab[i].View();
    r := SYSERR;
    if !fs.lfltab[i].lfstate {
      return;
    }
    if func == LF_CTL_TRUNC {
      r := Lftruncate(fs, i);
    }
  }

  /** lflwrite; the source returns count where this returns OK. */
  method Lflwrite(fs: Lfs, i: nat, buff: seq<byte>, count: int) returns (r: Status)
    requires Valid(fs) && i < |fs.lfltab| && count <= |buff|
    modifies fs, fs.disk, fs.lfltab[i], fs.lfltab[i].lfdblock
    ensures count < 0 ==> r == SYSERR && Valid(fs) && View(fs) == old(View(fs))
    ensures count >= 0 ==> r == WriteF(old(View(fs)), i, buff[..count]).1
    ensures count >= 0 && r != PANIC ==> Valid(fs) && View(fs) == WriteF(old(View(fs)), i, buff[..count]).0
  {
    hide PutC, WriteF, Valid, View;
    if count < 0 {
      return SYSERR;
    }
    var n := 0;
    ghost var a, data := View(fs), buff[..count];
    assert data[0..] == data;
    while n < count
      invariant n <= count && Valid(fs)
      invariant WriteF(a, i, data) == WriteF(View(fs), i, data[n..])
    {
      WriteNext(View(fs), i, data, n);
      r := Lflputc(fs, i, buff[n]);
      if r != OK {
        return;
      }
      n := n + 1;
    }
    WriteNone(View(fs), i, data[n..]);
    r := OK;
  }

  lemma WriteNext(a: FS, i: nat, data: seq<byte>, n: nat)
    requires n < |data|
    ensures var (b, r) := PutC(a, i, data[n]);
            WriteF(a, i, data[n..]) == if r == OK then WriteF(b, i, data[n + 1..]) else (b, r)
  {
    hide PutC;
    assert data[n..][1..] == data[n + 1..];
  }

  lemma WriteNone(a: FS, i: nat, data: seq<byte>)
    requires |data| == 0
    ensures WriteF(a, i, data) == (a, OK)
  {
  }

  method Deliver(fs: Lfs, buff: array<byte>, k: nat, b: byte)
    requires Valid(fs) && k < buff.Length
    requires forall j :: 0 <= j < |fs.lfltab| ==> fs.lfltab[j].lfdblock != buff
    modifies buff
    ensures Valid(fs) && View(fs) == old(View(fs)) && buff[..] == old(buff[..])[k := b]
  {
    buff[k] := b;
  }

  /** What a read returns when data was read before the rest. */
  ghost function ReadOn(data: seq<byte>, rest: (FS, seq<byte>, int)): (FS, seq<byte>, int) {
    (rest.0, data + rest.1, if |data| == 0 || rest.2 == SYSERR_CODE then rest.2
                            else if rest.2 == EOF_CODE then |data| else |data| + rest.2)
  }

  /** A read of count bytes in state a has come to state b with data, and left to go. */
  ghost predicate Reading(a: FS, i: nat, count: nat, data: seq<byte>, b: FS, left: nat) {
    ReadF(a, i, count) == ReadOn(data, ReadF(b, i, left))
  }

  lemma ReadStarts(a: FS, i: nat, count: nat)
    ensures Reading(a, i, count, [], a, count)
  {
    assert [] + ReadF(a, i, count).1 == ReadF(a, i, count).1;
  }

  lemma ReadStep(a: FS, i: nat, count: nat, data: seq<byte>, b: FS, left: nat)
    requires Reading(a, i, count, data, b, left) && left > 0
    ensures var (c, r) := GetC(b, i);
            && (r < 0 ==> r == SYSERR_CODE || r == EOF_CODE) && r < 256
            && (r == SYSERR_CODE ==> ReadF(a, i, count) == (c, data, SYSERR_CODE))
            && (r == EOF_CODE ==> ReadF(a, i, count) == (c, data, if |data| == 0 then EOF_CODE else |data|))
            && (r >= 0 ==> Reading(a, i, count, data + [r as byte], c, left - 1))
  {
    var (c, r) := GetC(b, i);
    if r >= 0 {
      var (d, rest, n) := ReadF(c, i, left - 1);
      assert data + ([r as byte] + rest) == data + [r as byte] + rest;
    } else {
      assert data + [] == data;
    }
  }

  lemma ReadEnds(a: FS, i: nat, count: nat, data: seq<byte>, b: FS)
    requires Reading(a, i, count, data, b, 0)
    ensures ReadF(a, i, count) == (b, data, |data|)
  {
    assert data + [] == data;
  }

  /** The buffer starts with data, and is otherwise as before. */
  ghost predicate Holds(buff: seq<byte>, data: seq<byte>, before: seq<byte>) {
    && |data| <= |buff| == |before|
    && forall k :: 0 <= k < |buff| ==> buff[k] == if k < |data| then data[k] else before[k]
  }

  lemma HoldsNothing(before: seq<byte>)
    ensures Holds(before, [], before)
  {
  }

  lemma HoldsMore(buff: seq<byte>, data: seq<byte>, before: seq<byte>, b: byte)
    requires Holds(buff, data, before) && |data| < |buff|
    ensures Holds(buff[|data| := b], data + [b], before)
  {
  }

  /** lflread into the first count bytes of buff. */
  method Lflread(fs: Lfs, i: nat, buff: array<byte>, count: int) returns (numread: int)
    requires Valid(fs) && i < |fs.lfltab| && count <= buff.Length
    requires forall j :: 0 <= j < |fs.lfltab| ==> fs.lfltab[j].lfdblock != buff
    modifies fs, fs.disk, fs.lfltab[i], fs.lfltab[i].lfdblock, buff
    ensures Valid(fs)
    ensures count < 0 ==> numread == SYSERR_CODE && View(fs) == old(View(fs)) && Holds(buff[..], [], old(buff[..]))
    ensures count >= 0 ==>
              var (a, data, n) := ReadF(old(View(fs)), i, count);
              View(fs) == a && numread == n && |data| <= buff.Length && Holds(buff[..], data, old(buff[..]))
  {
    hide Valid, View, GetC, ReadF, Reading, Holds;
    ghost var before := buff[..];
    HoldsNothing(before);
    if count < 0 {
      return SYSERR_CODE;
    }
    ghost var a := View(fs);
    ghost var data: seq<byte> := [];
    ghost var left: nat := count;
    ReadStarts(a, i, count);
    numread := 0;
    while numread < count
      invariant 0 <= numread <= count && Valid(fs) && |data| == numread
      invariant Holds(buff[..], data, before) && left == count - numread
      invariant Reading(a, i, count, data, View(fs), left)
    {
      ghost var b := View(fs);
      label L:
      var nxtbyte := ReadByte(fs, i, buff, numread);
      ReadStep(a, i, count, data, b, left);
      if nxtbyte == SYSERR_CODE {
        return SYSERR_CODE;
      } else if nxtbyte == EOF_CODE {
        if numread == 0 {
          return EOF_CODE;
        }
        return;
      }
      HoldsMore(old@L(buff[..]), data, before, nxtbyte);
      data := data + [nxtbyte];
      numread, left := numread + 1, left - 1;
    }
    ReadEnds(a, i, count, data, View(fs));
  }

  /** lflread, one turn of the loop. */
  method ReadByte(fs: Lfs, i: nat, buff: array<byte>, k: nat) returns (nxtbyte: int)
    requires Valid(fs) && i < |fs.lfltab| && k < buff.Length
    requires forall j :: 0 <= j < |fs.lfltab| ==> fs.lfltab[j].lfdblock != buff
    modifies fs, fs.disk, fs.lfltab[i], fs.lfltab[i].lfdblock, buff
    ensures Valid(fs) && (View(fs), nxtbyte) == GetC(old(View(fs)), i)
    ensures buff[..] == if 0 <= nxtbyte < 256 then old(buff[..])[k := nxtbyte] else old(buff[..])
  {
    hide Valid, View;
    ghost var a := View(fs);
    nxtbyte := Lflgetc(fs, i);
    if nxtbyte >= 0 {
      Deliver(fs, buff, k, nxtbyte);
    }
  }
}
