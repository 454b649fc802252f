/** lfscreate: laying out an empty file system on a disk, and mounting it. */
module LfsFormat {
  import opened LfsTypes
  import opened LfsPool
  import opened LfsLayout
  import opened LfsSteps
  import opened LfsCut
  import opened LfsSpec
  import opened LfsRefine
  import opened LfsDevice
  import opened LfsCalls

  /** A sector read as an index sector; one that never was holds arbitrary index blocks. */
  function SlotsOf(s: Sector): (r: seq<IBlock>)
    ensures |r| == IB_PER_SECTOR
  {
    if s.IndexSector? && |s.ibs| == IB_PER_SECTOR then s.ibs else seq(IB_PER_SECTOR, _ => IBlock(0, 0, []))
  }

  ghost predicate SlotIs(d: seq<Sector>, n: nat, b: IBlock) {
    Ib2Sect(n) < |d| && d[Ib2Sect(n)].IndexSector? && |d[Ib2Sect(n)].ibs| == IB_PER_SECTOR
    && d[Ib2Sect(n)].ibs[n % IB_PER_SECTOR] == b
  }

  /** The next pointer of block k on a free list that runs up to end. */
  function NextUpTo(k: nat, end: nat): int {
    if k + 1 < end then k + 1 else LF_NULL
  }

  ghost function FreeIndexBlock(n: nat, total: nat): IBlock {
    Cleared(0).(next := NextUpTo(n, total))
  }

  ghost predicate SlotsFree(d: seq<Sector>, total: nat) {
    forall n :: 0 <= n < total ==> SlotIs(d, n, FreeIndexBlock(n, total))
  }

  /** A disk with an empty file system: lo - 1 sectors of free index blocks, and every
      sector from lo on free. */
  ghost predicate Empty(d: seq<Sector>, lo: nat) {
    && 2 <= lo < |d| && LF_BLKSIZ * |d| < TWO32
    && d[0] == DirSector(Dir(lo, 0, []))
    && SlotsFree(d, IB_PER_SECTOR * (lo - 1))
    && (forall k :: lo <= k < |d| ==> d[k] == FreeSector(NextUpTo(k, |d|)))
  }

  method PutRaw(disk: array<Sector>, n: nat, b: IBlock)
    requires Ib2Sect(n) < disk.Length
    modifies disk
    ensures SlotIs(disk[..], n, b)
    ensures forall m, c :: m != n && SlotIs(old(disk[..]), m, c) ==> SlotIs(disk[..], m, c)
    ensures forall k :: 0 <= k < disk.Length && k != Ib2Sect(n) ==> disk[k] == old(disk[k])
  {
    var s := Ib2Sect(n);
    disk[s] := IndexSector(SlotsOf(disk[s])[n % IB_PER_SECTOR := b]);
    forall m, c | m != n && SlotIs(old(disk[..]), m, c)
      ensures SlotIs(disk[..], m, c)
    {
      Packing(n, m);
    }
  }

  /** The two loops of lfscreate that build lists make sense: there is an index block, and a data
      block. There is none only on a disk of two sectors, one of them for index blocks. In any
      other case the source runs them past the end of their area. */
  predicate Makes(lfiblks: nat, sectors: nat) {
    lfiblks > 0 && (sectors != 2 || Blocks(lfiblks, IB_PER_SECTOR) > 1)
  }

  /** lfscreate. The number of index blocks is rounded up to whole sectors. baddev is when the disk is
      no device, or one was selected before. */
  method Lfscreate(disk: array<Sector>, lfiblks: nat, dsiz: nat, baddev: bool) returns (r: Status, ghost lo: nat)
    requires dsiz < TWO32 && disk.Length == dsiz / LF_BLKSIZ
    requires baddev || Makes(lfiblks, dsiz / LF_BLKSIZ)
    modifies disk
    ensures lo == Blocks(lfiblks, IB_PER_SECTOR) + 1
    ensures r == if baddev || lo - 1 > dsiz / LF_BLKSIZ / 2 then SYSERR else OK
    ensures r == OK ==> Empty(disk[..], lo)
    ensures r == SYSERR ==> disk[..] == old(disk[..])
  {
    if baddev {
      return SYSERR, Blocks(lfiblks, IB_PER_SECTOR) + 1;
    }
    var sectors := dsiz / LF_BLKSIZ;
    var ibsectors := (lfiblks + (IB_PER_SECTOR - 1)) / IB_PER_SECTOR;
    lo := ibsectors + 1;
    if ibsectors > sectors / 2 {
      return SYSERR, lo;
    }
    var total := ibsectors * IB_PER_SECTOR;
    var dbindex := ibsectors + 1;
    disk[0] := DirSector(Dir(dbindex, 0, []));
    var i := 0;
    while i < total
      invariant i <= total && disk[0] == DirSector(Dir(dbindex, 0, []))
      invariant forall n :: 0 <= n < i ==> SlotIs(disk[..], n, FreeIndexBlock(n, total))
    {
      Packing(i, total - 1);
      PutRaw(disk, i, Cleared(0).(next := NextUpTo(i, total)));
      i := i + 1;
    }
    var k := dbindex;
    while k < sectors
      invariant dbindex <= k <= sectors && disk[0] == DirSector(Dir(dbindex, 0, []))
      invariant forall n :: 0 <= n < total ==> SlotIs(disk[..], n, FreeIndexBlock(n, total))
      invariant forall j :: dbindex <= j < k ==> disk[j] == FreeSector(NextUpTo(j, sectors))
    {
      ghost var before := disk[..];
      disk[k] := FreeSector(NextUpTo(k, sectors));
      forall n | 0 <= n < total
        ensures SlotIs(disk[..], n, FreeIndexBlock(n, total))
      {
        assert SlotIs(before, n, FreeIndexBlock(n, total));
        Packing(n, total - 1);
      }
      k := k + 1;
    }
    r := OK;
  }

  ghost function FirstLayout(d: seq<Sector>, lo: nat): Layout
    requires Empty(d, lo)
  {
    Layout(Fresh(0, IB_PER_SECTOR * (lo - 1)), Fresh(lo, |d|), [], [])
  }

  lemma EmptyFormatted(d: seq<Sector>, lo: nat)
    requires Empty(d, lo)
    ensures Formatted(d, lo)
    ensures |IndexArea(d, lo)| == IB_PER_SECTOR * (lo - 1)
    ensures forall n :: 0 <= n < IB_PER_SECTOR * (lo - 1) ==>
              IndexArea(d, lo)[n] == FreeIndexBlock(n, IB_PER_SECTOR * (lo - 1))
  {
    var total := IB_PER_SECTOR * (lo - 1);
    forall k | 1 <= k < lo
      ensures d[k].IndexSector? && |d[k].ibs| == IB_PER_SECTOR
    {
      assert Ib2Sect(IB_PER_SECTOR * (k - 1)) == k;
      assert SlotIs(d, IB_PER_SECTOR * (k - 1), FreeIndexBlock(IB_PER_SECTOR * (k - 1), total));
    }
    forall n | 0 <= n < total
      ensures d[Ib2Sect(n)].ibs[n % IB_PER_SECTOR] == FreeIndexBlock(n, total)
    {
      assert SlotIs(d, n, FreeIndexBlock(n, total));
    }
  }

  lemma FreshLinks(lo: nat, hi: nat)
    requires lo < hi
    ensures Top(Fresh(lo, hi).free) == lo && Fresh(lo, hi).lo == lo && |Fresh(lo, hi).own| == hi
    ensures |Fresh(lo, hi).used| == 0 && |Fresh(lo, hi).limbo| == 0 && Fresh(lo, hi).gone == 0
    ensures forall k :: 0 <= k < |Fresh(lo, hi).free| ==>
              lo <= Fresh(lo, hi).free[k] < hi && Below(Fresh(lo, hi).free, k) == NextUpTo(Fresh(lo, hi).free[k], hi)
  {
  }

  lemma IndexLinks(ib: seq<IBlock>)
    requires |ib| > 0 && forall n :: 0 <= n < |ib| ==> ib[n] == FreeIndexBlock(n, |ib|)
    ensures forall k :: 0 <= k < |Fresh(0, |ib|).free| ==>
              Fresh(0, |ib|).free[k] < |ib| && ib[Fresh(0, |ib|).free[k]].next == Below(Fresh(0, |ib|).free, k)
  {
    FreshLinks(0, |ib|);
    hide Fresh, Below, NextUpTo;
  }

  lemma DataLinks(dat: seq<Sector>, lo: nat)
    requires lo < |dat| && forall n :: lo <= n < |dat| ==> dat[n] == FreeSector(NextUpTo(n, |dat|))
    ensures forall k :: 0 <= k < |Fresh(lo, |dat|).free| ==>
              Fresh(lo, |dat|).free[k] < |dat|
                && dat[Fresh(lo, |dat|).free[k]] == FreeSector(Below(Fresh(lo, |dat|).free, k))
  {
    FreshLinks(lo, |dat|);
    hide Fresh, Below, NextUpTo;
  }

  /** The free lists written by lfscreate are those of pools in which all is free. */
  lemma EmptyLists(s: St, d: seq<Sector>, lo: nat)
    requires Empty(d, lo) && Formatted(d, lo)
    requires s.ib == IndexArea(d, lo) && s.dat == DataArea(d, lo) && s.dir == Dir(lo, 0, [])
             && s.g == FirstLayout(d, lo)
    ensures Sized(s) && PoolsOk(s) && ListsOk(s)
  {
    hide PoolOk, Fresh, Below, NextUpTo, IndexArea, DataArea, Formatted, SlotsFree, Top, FreeIndexBlock;
    var total := IB_PER_SECTOR * (lo - 1);
    EmptyFormatted(d, lo);
    EmptyData(d, lo);
    IndexLinks(s.ib);
    DataLinks(s.dat, lo);
    FreshOk(0, total);
    FreshOk(lo, |d|);
    FreshLinks(0, total);
    FreshLinks(lo, |d|);
    assert PoolsOk(s);
  }

  lemma EmptyData(d: seq<Sector>, lo: nat)
    requires Empty(d, lo)
    ensures |DataArea(d, lo)| == |d|
    ensures forall k :: lo <= k < |d| ==> DataArea(d, lo)[k] == FreeSector(NextUpTo(k, |d|))
  {
  }

  lemma EmptyCalm(s: St, d: seq<Sector>, lo: nat)
    requires Empty(d, lo) && Formatted(d, lo)
    requires s.ib == IndexArea(d, lo) && s.dat == DataArea(d, lo) && s.dir == Dir(lo, 0, [])
             && s.g == FirstLayout(d, lo)
    requires s.dd == DirSector(s.dir) && forall i :: 0 <= i < |s.cbs| ==> !s.cbs[i].open
    ensures Calm(s) && Synced(s)
    ensures AbsOf(s) == FS([], seq(|s.cbs|, _ => Closed), IB_PER_SECTOR * (lo - 1), |d| - lo)
  {
    hide PoolOk, IndexArea, DataArea, Formatted, SlotsFree, ListsOk, Fresh, Below, NextUpTo, FreeIndexBlock;
    EmptyLists(s, d, lo);
    EmptyFormatted(d, lo);
    EmptyData(d, lo);
    FreshLinks(0, IB_PER_SECTOR * (lo - 1));
    FreshLinks(lo, |d|);
    assert FilesOf(s) == [] && HandlesOf(s) == seq(|s.cbs|, _ => Closed);
  }

  /** A newly formatted disk, mounted, is an empty file system with nothing open. */
  method Mount(disk: array<Sector>, n: nat, ghost lo: nat) returns (fs: Lfs)
    requires Empty(disk[..], lo)
    ensures fs.disk == disk && |fs.lfltab| == n && Valid(fs) && !fs.lf_dirdirty
    ensures fresh(fs) && forall i :: 0 <= i < n ==> fresh(fs.lfltab[i]) && fresh(fs.lfltab[i].lfdblock)
    ensures View(fs) == FS([], seq(n, _ => Closed), IB_PER_SECTOR * (lo - 1), disk.Length - lo)
  {
    EmptyFormatted(disk[..], lo);
    fs := new Lfs(disk, n, FirstLayout(disk[..], lo));
    ghost var s := fs.S();
    assert forall i :: 0 <= i < n ==> s.cbs[i] == fs.lfltab[i].View();
    EmptyCalm(s, disk[..], lo);
    hide Formatted, Empty, SlotsFree, Calm, Synced, AbsOf;
  }
}
