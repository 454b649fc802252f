/** What is on disk when nothing is open any more: mounting it again gives every file but
    those whose creation was never written. */
module LfsRemount {
  import opened LfsTypes
  import opened LfsPool
  import opened LfsLayout
  import opened LfsCut
  import opened LfsSpec
  import opened LfsRefine
  import opened LfsDevice
  import opened LfsCalls
  import opened LfsOpen
  import opened LfsFormat

  ghost predicate NothingOpen(cbs: seq<Cb>) {
    forall i :: 0 <= i < |cbs| ==> !cbs[i].open
  }

  /** The pool as it is when only the first k files are known. */
  ghost function Shortened(p: Pool, k: nat): Pool
    requires k <= |p.used|
  {
    p.(used := p.used[..k])
  }

  lemma {:induction false} TotalShortened(used: seq<seq<nat>>, k: nat)
    requires k <= |used| && forall f :: k <= f < |used| ==> |used[f]| == 0
    ensures Total(used[..k]) == Total(used)
  {
    var n := |used| - 1;
    if k <= n {
      assert used[..n][..k] == used[..k];
      TotalShortened(used[..n], k);
    } else {
      assert used[..k] == used;
    }
  }

  lemma ShortenedOk(p: Pool, k: nat)
    requires PoolOk(p) && k <= |p.used| && forall f :: k <= f < |p.used| ==> |p.used[f]| == 0
    ensures PoolOk(Shortened(p, k))
  {
    TotalShortened(p.used, k);
    forall b | p.lo <= b < |p.own|
      ensures Owns(Shortened(p, k), b, p.own[b])
    {
      assert Owns(p, b, p.own[b]);
    }
  }

  /** How many files the directory on disk has. */
  ghost function OnDisk(s: St): nat
    requires s.dd.DirSector?
  {
    |s.dd.dir.files|
  }

  /** The bookkeeping for the disk as it stands. */
  ghost function Reread(s: St): Layout
    requires Sized(s) && s.dd.DirSector? && OnDisk(s) <= |s.dir.files|
  {
    var k := OnDisk(s);
    Layout(Shortened(s.g.ip, k), Shortened(s.g.dp, k), s.g.content[..k], s.g.opener[..k])
  }

  /** The system after mounting the disk again, with new control blocks. */
  ghost function Remounted(s: St, cbs: seq<Cb>): St
    requires Sized(s) && s.dd.DirSector? && OnDisk(s) <= |s.dir.files|
  {
    St(s.ib, s.dat, s.dd, s.dd.dir, false, cbs, Reread(s))
  }

  /** Nothing is open, and the directory in memory is not marked dirty. */
  ghost predicate Idle(s: St) {
    Calm(s) && Synced(s) && !s.dirty && NothingOpen(s.cbs)
  }

  /** A file that is not on disk has no blocks. */
  lemma LostIsEmpty(s: St, f: nat)
    requires Calm(s) && Synced(s) && OnDisk(s) <= f < |s.dir.files|
    ensures |s.g.content[f]| == 0 && |s.g.ip.used[f]| == 0 && |s.g.dp.used[f]| == 0
  {
    hide PoolOk, FileAt, ListsOk, CbsOk, NamesOk;
    assert LensAt(s, f);
  }

  lemma RemountFile(s: St, cbs: seq<Cb>, f: nat)
    requires Idle(s) && NothingOpen(cbs) && f < OnDisk(s)
    ensures var t := Remounted(s, cbs); Sized(t) && FileAt(t, f) && LensAt(t, f) && t.g.opener[f] == -1
  {
    hide PoolOk, ListsOk, CbsOk, NamesOk, FileOk;
    assert FileAt(s, f) && LensAt(s, f);
  }

  lemma RemountPools(s: St, cbs: seq<Cb>)
    requires Idle(s)
    ensures PoolsOk(Remounted(s, cbs)) && Sized(Remounted(s, cbs)) && ListsOk(Remounted(s, cbs))
            && NamesOk(Remounted(s, cbs))
    ensures NoLimbo(Remounted(s, cbs))
  {
    hide PoolOk, FilesOk, CbsOk;
    var k := OnDisk(s);
    forall f | k <= f < |s.dir.files|
      ensures |s.g.ip.used[f]| == 0 && |s.g.dp.used[f]| == 0
    {
      LostIsEmpty(s, f);
    }
    ShortenedOk(s.g.ip, k);
    ShortenedOk(s.g.dp, k);
  }

  /** Mounting the disk again gives a sound file system with the files that the directory
      on disk has. */
  lemma RemountOk(s: St, cbs: seq<Cb>)
    requires Idle(s) && NothingOpen(cbs)
    ensures Calm(Remounted(s, cbs)) && Synced(Remounted(s, cbs))
    ensures OnDisk(s) <= |FilesOf(s)| && FilesOf(Remounted(s, cbs)) == FilesOf(s)[..OnDisk(s)]
    ensures HandlesOf(Remounted(s, cbs)) == seq(|cbs|, _ => Closed)
  {
    hide PoolsOk, ListsOk, NamesOk, FileAt, LensAt, CbAt;
    var t := Remounted(s, cbs);
    RemountPools(s, cbs);
    forall f | 0 <= f < OnDisk(s)
      ensures FileAt(t, f) && LensAt(t, f)
    {
      RemountFile(s, cbs, f);
    }
    forall i | 0 <= i < |cbs|
      ensures CbAt(t, i, -1)
    {
      NotOpen(t, i);
    }
  }

  lemma NotOpen(s: St, i: nat)
    requires Sized(s) && i < |s.cbs| && !s.cbs[i].open
    ensures CbAt(s, i, -1)
  {
  }

  /** Every file survives exactly if the directory on disk has as many as the one in memory,
      and then it is the same directory; what does not survive is the names of empty files. */
  lemma SurvivesExactly(s: St, cbs: seq<Cb>)
    requires Idle(s) && NothingOpen(cbs)
    ensures FilesOf(Remounted(s, cbs)) == FilesOf(s) <==> |s.dd.dir.files| == |s.dir.files|
    ensures s.dd == DirSector(s.dir) <==> |s.dd.dir.files| == |s.dir.files|
    ensures forall f :: |s.dd.dir.files| <= f < |s.dir.files| ==> FilesOf(s)[f].content == []
  {
    hide PoolsOk, ListsOk, NamesOk, FilesOk, CbsOk, Remounted;
    RemountOk(s, cbs);
    forall f | |s.dd.dir.files| <= f < |s.dir.files|
      ensures FilesOf(s)[f].content == []
    {
      LostIsEmpty(s, f);
    }
  }

  /** Nothing is open and the directory is not marked dirty. */
  ghost predicate AllClosed(fs: Lfs)
    reads fs, fs.disk, fs.lfltab, set c | c in fs.lfltab :: c.lfdblock
    requires Valid(fs)
  {
    !fs.lf_dirdirty && forall i :: 0 <= i < |View(fs).handles| ==> View(fs).handles[i].Closed?
  }

  /** How many files the directory sector has. */
  function CountOnDisk(d: seq<Sector>): nat {
    if |d| > 0 && d[0].DirSector? then |d[0].dir.files| else 0
  }

  function FirstFiles(files: seq<File>, n: nat): seq<File> {
    if n <= |files| then files[..n] else files
  }

  lemma ClosedIdle(fs: Lfs)
    requires Valid(fs) && AllClosed(fs)
    ensures Idle(fs.S()) && fs.S().dd == fs.disk[0]
    ensures Sized(fs.S()) && fs.S().dd.DirSector? && OnDisk(fs.S()) <= |fs.S().dir.files|
    ensures View(fs).files == FilesOf(fs.S()) && CountOnDisk(fs.disk[..]) == OnDisk(fs.S())
  {
    hide Formatted, PoolsOk, ListsOk, NamesOk, FilesOk, CbsOk;
    ghost var s := fs.S();
    forall i | 0 <= i < |s.cbs|
      ensures !s.cbs[i].open
    {
      assert View(fs).handles[i].Closed?;
    }
    fs.Facing(0);
  }

  lemma RemountIs(s: St, t: St)
    requires Idle(s) && t.ib == s.ib && t.dat == s.dat && t.dd == s.dd && t.dir == s.dd.dir && !t.dirty
    requires t.g == Reread(s) && NothingOpen(t.cbs)
    ensures t == Remounted(s, t.cbs)
    ensures Calm(t) && Synced(t) && AbsOf(t).files == FilesOf(s)[..OnDisk(s)] && OnDisk(s) <= |FilesOf(s)|
    ensures AbsOf(t).handles == seq(|t.cbs|, _ => Closed)
  {
    hide Calm, Synced;
    RemountOk(s, t.cbs);
  }

  /** The system is started again on the same disk. */
  method Remount(fs: Lfs, n: nat) returns (again: Lfs)
    requires Valid(fs) && AllClosed(fs)
    ensures again.disk == fs.disk && |again.lfltab| == n && Valid(again)
    ensures View(again).files == FirstFiles(old(View(fs)).files, CountOnDisk(fs.disk[..]))
    ensures |View(again).handles| == n && AllClosed(again)
    ensures CountOnDisk(fs.disk[..]) <= |old(View(fs)).files|
  {
    hide Calm, Synced, Formatted, Remounted;
    ghost var s := fs.S();
    ClosedIdle(fs);
    again := new Lfs(fs.disk, n, Reread(s));
    ghost var t := again.S();
    assert forall i :: 0 <= i < n ==> t.cbs[i] == again.lfltab[i].View();
    RemountIs(s, t);
  }

  lemma OpenFirst(n: nat, icap: nat, dcap: nat, name: string)
    requires n > 0 && |name| < LF_NAME_LEN
    ensures var a := FS([], seq(n, _ => Closed), icap, dcap);
            var b := FS([File(name, [])], a.handles[0 := Opened(0, 0)], icap, dcap);
            OpenF(a, name, false, false) == (b, 0) && CloseF(b, 0) == (b.(handles := a.handles), OK)
  {
    var a := FS([], seq(n, _ => Closed), icap, dcap);
    assert !NameIsOpen(a, name) && a.files + [File(name, [])] == [File(name, [])];
    assert FreeHandle(a.handles, 0) == 0 && FindName(a.files, name, 0) == 0;
    assert a.handles[0 := Opened(0, 0)][0 := Closed] == a.handles;
  }

  /** A file that is created on a new disk and closed is lost when the system is started
      again. */
  method LoseFile(disk: array<Sector>, lfiblks: nat, dsiz: nat, name: string) returns (ok: Status, before: Lfs,
      after: Lfs)
    requires dsiz < TWO32 && disk.Length == dsiz / LF_BLKSIZ && |name| < LF_NAME_LEN
    requires lfiblks > 0 && dsiz / LF_BLKSIZ != 2 && Blocks(lfiblks, IB_PER_SECTOR) <= dsiz / LF_BLKSIZ / 2
    modifies disk
    ensures ok == OK && Valid(before) && Valid(after) && after.disk == before.disk == disk
    ensures View(before).files == [File(name, [])] && View(after).files == []
  {
    hide Valid, View, Blocks, OpenF, CloseF, SlotsFree;
    var r, lo := Lfscreate(disk, lfiblks, dsiz, false);
    before := Mount(disk, 1, lo);
    OpenFirst(1, IB_PER_SECTOR * (lo - 1), disk.Length - lo, name);
    var h := Lfsopen(before, name, false, false);
    ok := Lflclose(before, h);
    after := Remount(before, 1);
  }
}
