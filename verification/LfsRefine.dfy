/** The abstraction from the disk, the directory and the caches to the users' view, and
    the proof that each completed step is a step of that view. */
module LfsRefine {
  import opened LfsTypes
  import opened LfsPool
  import opened LfsLayout
  import opened LfsSteps
  import opened LfsMoves
  import opened LfsCut
  import opened LfsSetupSpec
  import opened LfsSpec

  ghost function FilesOf(s: St): seq<File>
    requires Sized(s)
  {
    seq(|s.dir.files|, f requires 0 <= f < |s.dir.files| => File(s.dir.files[f].name, s.g.content[f]))
  }

  ghost function HandlesOf(s: St): seq<Handle> {
    seq(|s.cbs|, i requires 0 <= i < |s.cbs| => if s.cbs[i].open then Opened(s.cbs[i].file, s.cbs[i].pos) else Closed)
  }

  ghost function AbsOf(s: St): FS
    requires Sized(s) && s.g.dp.lo <= |s.dat|
  {
    FS(FilesOf(s), HandlesOf(s), |s.ib|, |s.dat| - s.g.dp.lo)
  }

  /** Between calls nothing is in limbo and every file is settled. */
  ghost predicate Calm(s: St) {
    Base(s, -1, -1) && NoLimbo(s) && s.g.dp.lo <= |s.dat|
  }

  lemma CalmIs(s: St)
    requires Calm(s)
    ensures Base(s, -1, -1) && Sized(s) && NoLimbo(s) && s.g.dp.lo <= |s.dat|
    ensures |FilesOf(s)| == |s.dir.files| && |HandlesOf(s)| == |s.cbs|
  {
    hide PoolsOk, ListsOk, NamesOk, FilesOk, CbsOk;
  }

  lemma {:induction false} TotalOccupied(used: seq<seq<nat>>, files: seq<File>, size: nat)
    requires size > 0 && |used| == |files|
    requires forall f :: 0 <= f < |files| ==> |used[f]| == Blocks(|files[f].content|, size)
    ensures Total(used) == Occupied(files, size)
  {
    if |files| > 0 {
      TotalOccupied(used[..|used| - 1], files[..|files| - 1], size);
    }
  }

  /** Free blocks and blocks needed for the lengths of the files add up to the disk:
      nothing leaks and nothing is counted twice. */
  lemma Conservation(s: St)
    requires Calm(s)
    ensures |s.g.ip.free| + Occupied(AbsOf(s).files, LF_IDATA) == AbsOf(s).icap
    ensures |s.g.dp.free| + Occupied(AbsOf(s).files, LF_BLKSIZ) == AbsOf(s).dcap
  {
    hide FileAt, CbAt, ListsOk, Blocks;
    var files := FilesOf(s);
    forall f | 0 <= f < |files|
      ensures |s.g.ip.used[f]| == Blocks(|files[f].content|, LF_IDATA)
      ensures |s.g.dp.used[f]| == Blocks(|files[f].content|, LF_BLKSIZ)
    {
      assert LensAt(s, f);
    }
    TotalOccupied(s.g.ip.used, files, LF_IDATA);
    TotalOccupied(s.g.dp.used, files, LF_BLKSIZ);
  }

  /** The control block that has the file open is one that the users see as open. */
  lemma OpenAgrees(s: St, i: nat)
    requires Calm(s) && i < |s.cbs|
    ensures IsOpen(AbsOf(s), i) <==> s.cbs[i].open
    ensures s.cbs[i].open ==> OpenAt(s, i)
  {
    hide PoolOk, FileAt, ListsOk;
    assert CbAt(s, i, -1);
  }

  /** The kernel runs out of blocks exactly when the users' view says the disk is full. */
  lemma FullAgrees(s: St, i: nat)
    requires Calm(s) && OpenAt(s, i)
    ensures IsOpen(AbsOf(s), i) && (Full(AbsOf(s), i) <==> Starved(s, i))
  {
    assert Sized(s);
    hide PoolOk, FileAt, ListsOk, Base, Occupied;
    OpenAgrees(s, i);
    Conservation(s);
  }

  /** With lfbyte inside the buffer the position is set up already. */
  lemma SetUpHere(s: St, i: nat)
    requires Base(s, -1, -1) && OpenAt(s, i) && s.cbs[i].bptr < LF_BLKSIZ
    ensures SetUp(s, s, i) && !Starved(s, i)
  {
    hide PoolOk, FileOk, FilesOk, CbsOk, ListsOk, NamesOk, Blocks;
    RoomHere(s, i);
    Unpack(s, i, -1, -1);
    Loosen(s, s.cbs[i].file, -1);
    if s.cbs[i].pos % LF_BLKSIZ == 0 {
      BlocksAre(s.cbs[i].pos, LF_BLKSIZ, s.cbs[i].pos / LF_BLKSIZ);
    }
  }

  /** lflputc, once the position is set up, is PutC. */
  lemma PutRefines(s: St, t: St, i: nat, ch: byte)
    requires Calm(s) && OpenAt(s, i) && SetUp(s, t, i) && !Starved(s, i)
    ensures Sized(t) && t.cbs[i].bptr < |t.cbs[i].db| && t.cbs[i].pos <= |t.g.content[t.cbs[i].file]|
    ensures t.dir.files[t.cbs[i].file].size + 1 < TWO32 && t.cbs[i].pos + 1 < TWO32
    ensures Calm(Put(t, i, ch)) && PutC(AbsOf(s), i, ch) == (AbsOf(Put(t, i, ch)), OK)
  {
    hide PoolOk, FileAt, ListsOk, NamesOk, FilesOk, CbsOk, Occupied, Full, LensAt;
    OpenAgrees(s, i);
    FullAgrees(s, i);
    var f := s.cbs[i].file;
    var x, p := PutMode(s, t, i);
    Unpack(t, i, x, p);
    assert CanPut(t, i, x, p);
    PutOk(t, i, ch, x, p);
    assert FilesOf(Put(t, i, ch)) == PutC(AbsOf(s), i, ch).0.files;
    assert HandlesOf(Put(t, i, ch)) == PutC(AbsOf(s), i, ch).0.handles;
  }

  lemma PutMode(s: St, t: St, i: nat) returns (x: int, p: int)
    requires OpenAt(s, i) && SetUp(s, t, i)
    ensures Base(t, x, p) && (x == -1 || x == s.cbs[i].file) && (p == -1 || p == i)
  {
    hide Base;
    if !AtEnd(s, i) {
      x, p := -1, -1;
    } else if Base(t, s.cbs[i].file, -1) {
      x, p := s.cbs[i].file, -1;
    } else {
      x, p := s.cbs[i].file, i;
    }
  }

  /** lflgetc, once the position is set up, is GetC. */
  lemma GetRefines(s: St, t: St, i: nat)
    requires Calm(s) && OpenAt(s, i) && SetUp(s, t, i) && !AtEnd(s, i)
    ensures t.cbs[i].bptr < |t.cbs[i].db| && t.cbs[i].pos + 1 < TWO32
    ensures Calm(Advance(t, i)) && GetC(AbsOf(s), i) == (AbsOf(Advance(t, i)), t.cbs[i].db[t.cbs[i].bptr])
  {
    hide PoolOk, FileAt, ListsOk, NamesOk, FilesOk, CbsOk, LensAt;
    OpenAgrees(s, i);
    AdvanceOk(t, i);
    assert FilesOf(Advance(t, i)) == FilesOf(s);
    assert HandlesOf(Advance(t, i)) == GetC(AbsOf(s), i).0.handles;
  }

  lemma SeekRefines(s: St, i: nat, pos: nat)
    requires Calm(s) && OpenAt(s, i) && pos <= |s.g.content[s.cbs[i].file]|
    ensures Calm(Seek(s, i, pos)) && SeekTo(AbsOf(s), i, pos) == (AbsOf(Seek(s, i, pos)), OK)
  {
    hide PoolOk, FileAt, ListsOk, NamesOk, FilesOk, CbsOk, LensAt;
    OpenAgrees(s, i);
    SeekOk(s, i, pos);
    assert FilesOf(Seek(s, i, pos)) == FilesOf(s);
    assert HandlesOf(Seek(s, i, pos)) == SeekTo(AbsOf(s), i, pos).0.handles;
  }

  lemma CloseRefines(s: St, i: nat)
    requires Calm(s) && OpenAt(s, i) && !s.cbs[i].idirty && !s.cbs[i].ddirty
    ensures s.cbs[i].file < |s.g.opener|
    ensures Calm(Close(s, i)) && CloseF(AbsOf(s), i) == (AbsOf(Close(s, i)), OK)
  {
    hide PoolOk, FileAt, ListsOk, NamesOk, FilesOk, CbsOk, LensAt;
    OpenAgrees(s, i);
    CloseOk(s, i);
    assert FilesOf(Close(s, i)) == FilesOf(s);
    assert HandlesOf(Close(s, i)) == CloseF(AbsOf(s), i).0.handles;
  }

  /** The size kept in the directory is the length of the file. */
  lemma SizeIs(s: St, i: nat)
    requires Calm(s) && OpenAt(s, i)
    ensures s.dir.files[s.cbs[i].file].size == |s.g.content[s.cbs[i].file]|
    ensures s.cbs[i].pos <= |s.g.content[s.cbs[i].file]| && s.cbs[i].bptr <= LF_BLKSIZ
  {
    hide PoolOk, ListsOk, NamesOk;
    Unpack(s, i, -1, -1);
  }
}
