/** The local file system as the kernel keeps it: one disk, one in-memory directory, and
    a table of control blocks for open files. Methods are named after the C functions. */
module LfsDevice {
  import opened LfsTypes
  import opened LfsPool
  import opened LfsLayout
  import opened LfsSteps
  import opened LfsMoves
  import opened LfsCut
  import opened LfsSetupSpec

  /** ib2sect and ib2disp: where index block n is. */
  function Ib2Sect(n: nat): nat {
    n / IB_PER_SECTOR + 1
  }

  function Ib2Disp(n: nat): nat {
    n % IB_PER_SECTOR * IB_SIZE
  }

  const IB_SIZE := 72

  /** Two index blocks never overlap, and none crosses the end of its sector. */
  lemma {:induction false} Packing(n: nat, m: nat)
    ensures Ib2Disp(n) + IB_SIZE <= LF_BLKSIZ && Ib2Disp(n) % IB_SIZE == 0
    ensures n < m && Ib2Sect(n) == Ib2Sect(m) ==> Ib2Disp(n) + IB_SIZE <= Ib2Disp(m)
    ensures n < m ==> Ib2Sect(n) <= Ib2Sect(m)
  {
    assert n == IB_PER_SECTOR * (n / IB_PER_SECTOR) + n % IB_PER_SECTOR;
    assert m == IB_PER_SECTOR * (m / IB_PER_SECTOR) + m % IB_PER_SECTOR;
  }

  /** The sectors before lo are the directory and the index area. */
  ghost predicate Formatted(d: seq<Sector>, lo: nat) {
    && 1 <= lo <= |d|
    && d[0].DirSector?
    && forall k :: 1 <= k < lo ==> d[k].IndexSector? && |d[k].ibs| == IB_PER_SECTOR
  }

  ghost function IndexArea(d: seq<Sector>, lo: nat): seq<IBlock>
    requires Formatted(d, lo)
  {
    seq(IB_PER_SECTOR * (lo - 1), n requires 0 <= n < IB_PER_SECTOR * (lo - 1) => d[Ib2Sect(n)].ibs[n % IB_PER_SECTOR])
  }

  /** The data area, with sector numbers kept. */
  ghost function DataArea(d: seq<Sector>, lo: nat): seq<Sector>
    requires lo <= |d|
  {
    seq(|d|, k requires 0 <= k < |d| => if k < lo then Raw else d[k])
  }

  lemma PutIndex(d: seq<Sector>, lo: nat, n: nat, b: IBlock)
    requires Formatted(d, lo) && n < IB_PER_SECTOR * (lo - 1)
    ensures 1 <= Ib2Sect(n) < lo
    ensures var e := d[Ib2Sect(n) := IndexSector(d[Ib2Sect(n)].ibs[n % IB_PER_SECTOR := b])];
            && Formatted(e, lo)
            && IndexArea(e, lo) == IndexArea(d, lo)[n := b]
            && DataArea(e, lo) == DataArea(d, lo)
  {
  }

  lemma PutSector(d: seq<Sector>, lo: nat, k: nat, s: Sector)
    requires Formatted(d, lo) && lo <= k < |d|
    ensures Formatted(d[k := s], lo)
    ensures IndexArea(d[k := s], lo) == IndexArea(d, lo)
    ensures DataArea(d[k := s], lo) == DataArea(d, lo)[k := s]
  {
  }

  lemma PutDirectory(d: seq<Sector>, lo: nat, dir: Dir)
    requires Formatted(d, lo)
    ensures Formatted(d[0 := DirSector(dir)], lo)
    ensures IndexArea(d[0 := DirSector(dir)], lo) == IndexArea(d, lo)
    ensures DataArea(d[0 := DirSector(dir)], lo) == DataArea(d, lo)
  {
  }

  class Lflcblk {
    var lfstate: bool          // LF_USED
    var lfdirptr: nat          // index of the file's directory entry
    var lfname: string
    var lfpos: nat
    var lfinum: int
    var lfiblock: IBlock
    var lfdnum: int
    const lfdblock: array<byte>
    var lfbyte: nat            // distance from the start of lfdblock
    var lfibdirty: bool
    var lfdbdirty: bool

    ghost function View(): Cb
      reads this, lfdblock
    {
      Cb(lfstate, lfdirptr, lfname, lfpos, lfinum, lfiblock, lfdnum, lfdblock[..], lfbyte, lfibdirty, lfdbdirty)
    }

    /** lflinit */
    constructor ()
      ensures !lfstate && lfdblock.Length == LF_BLKSIZ && fresh(lfdblock)
    {
      lfstate, lfdirptr, lfname, lfpos, lfinum := false, 0, "", 0, LF_NULL;
      lfiblock := IBlock(0, 0, seq(LF_IBLEN, _ => 0));
      lfdnum, lfbyte, lfibdirty, lfdbdirty := 0, LF_BLKSIZ, false, false;
      lfdblock := new byte[LF_BLKSIZ](_ => 0);
    }
  }

  class Lfs {
    const disk: array<Sector>
    const lfltab: seq<Lflcblk>
    var lf_dir: Dir
    var lf_dirpresent: bool
    var lf_dirdirty: bool
    ghost var g: Layout

    /** lfsinit and lflinit: n control blocks, no directory in memory. */
    constructor (disk: array<Sector>, n: nat, ghost h: Layout)
      ensures this.disk == disk && |lfltab| == n && g == h && !lf_dirpresent && !lf_dirdirty
      ensures forall i :: 0 <= i < n ==> !lfltab[i].lfstate && lfltab[i].lfdblock.Length == LF_BLKSIZ
      ensures forall i :: 0 <= i < n ==> fresh(lfltab[i]) && fresh(lfltab[i].lfdblock)
      ensures forall i, j :: 0 <= i < j < n ==> lfltab[i] != lfltab[j] && lfltab[i].lfdblock != lfltab[j].lfdblock
    {
      var tab: seq<Lflcblk> := [];
      while |tab| < n
        invariant |tab| <= n && forall i :: 0 <= i < |tab| ==> fresh(tab[i]) && fresh(tab[i].lfdblock)
        invariant forall i :: 0 <= i < |tab| ==> !tab[i].lfstate && tab[i].lfdblock.Length == LF_BLKSIZ
        invariant forall i, j :: 0 <= i < j < |tab| ==> tab[i] != tab[j] && tab[i].lfdblock != tab[j].lfdblock
        decreases n - |tab|
      {
        var c := new Lflcblk();
        tab := tab + [c];
      }
      this.disk, lfltab := disk, tab;
      lf_dir, lf_dirpresent, lf_dirdirty := Dir(0, 0, []), false, false;
      g := h;
    }

    /** The directory that counts: the copy in memory once it was loaded. */
    ghost function TheDir(): Dir
      reads this, disk
      requires disk.Length > 0 && disk[0].DirSector?
    {
      if lf_dirpresent then lf_dir else disk[0].dir
    }

    ghost function Cbs(): seq<Cb>
      reads lfltab, set c | c in lfltab :: c.lfdblock
    {
      seq(|lfltab|, i requires 0 <= i < |lfltab| reads lfltab, set c | c in lfltab :: c.lfdblock => lfltab[i].View())
    }

    ghost predicate Shape()
      reads this, disk
    {
      && Formatted(disk[..], g.dp.lo)
      && (forall i :: 0 <= i < |lfltab| ==> lfltab[i].lfdblock.Length == LF_BLKSIZ)
      && (forall i, j :: 0 <= i < j < |lfltab| ==> lfltab[i] != lfltab[j] && lfltab[i].lfdblock != lfltab[j].lfdblock)
    }

    /** The abstract state. */
    ghost function S(): St
      reads this, disk, lfltab, set c | c in lfltab :: c.lfdblock
      requires Shape()
    {
      St(IndexArea(disk[..], g.dp.lo), DataArea(disk[..], g.dp.lo), disk[0], TheDir(), lf_dirdirty, Cbs(), g)
    }

    /** The snapshot and the fields it was taken from. */
    lemma Facing(i: nat)
      requires Shape()
      ensures |S().cbs| == |lfltab| && (i < |lfltab| ==> S().cbs[i] == lfltab[i].View()) && S().g == g
      ensures |S().dat| == disk.Length > 0 && S().dirty == lf_dirdirty && (lf_dirpresent ==> S().dir == lf_dir)
      ensures S().dd == disk[0]
    {
    }

    twostate lemma OneCb(i: nat)
      requires i < |lfltab|
      requires forall j, k :: 0 <= j < k < |lfltab| ==>
                 lfltab[j] != lfltab[k] && lfltab[j].lfdblock != lfltab[k].lfdblock
      requires forall j :: 0 <= j < |lfltab| && j != i ==> unchanged(lfltab[j], lfltab[j].lfdblock)
      ensures Cbs() == old(Cbs())[i := lfltab[i].View()]
    {
    }

    /** Bookkeeping only. */
    ghost method Note(h: Layout)
      requires Shape() && h.dp.lo == g.dp.lo
      modifies `g
      ensures Shape() && g == h && S() == old(S()).(g := h)
    {
      g := h;
    }

    /** lfibget */
    method Lfibget(inum: nat) returns (ib: IBlock)
      requires Shape() && inum < |S().ib|
      ensures ib == S().ib[inum]
    {
      var dbuff := disk[Ib2Sect(inum)];
      ib := dbuff.ibs[inum % IB_PER_SECTOR];
    }

    /** lfibput */
    method Lfibput(inum: nat, ib: IBlock)
      requires Shape() && inum < |S().ib|
      modifies disk
      ensures Shape() && S() == old(S()).(ib := old(S()).ib[inum := ib])
    {
      PutIndex(disk[..], g.dp.lo, inum, ib);
      var diskblock := Ib2Sect(inum);
      var dbuff := disk[diskblock];
      disk[diskblock] := IndexSector(dbuff.ibs[inum % IB_PER_SECTOR := ib]);
      assert disk[..] == old(disk[..])[diskblock := IndexSector(dbuff.ibs[inum % IB_PER_SECTOR := ib])];
    }

    method Write(d: nat, s: Sector)
      requires Shape() && g.dp.lo <= d < disk.Length
      modifies disk
      ensures Shape() && S() == old(S()).(dat := old(S()).dat[d := s])
    {
      PutSector(disk[..], g.dp.lo, d, s);
      disk[d] := s;
      assert disk[..] == old(disk[..])[d := s];
    }

    method WriteDirectory()
      requires Shape() && lf_dirpresent
      modifies disk, `g
      ensures Shape() && S() == old(S()).(dd := DirSector(lf_dir))
    {
      PutDirectory(disk[..], g.dp.lo, lf_dir);
      disk[0] := DirSector(lf_dir);
      assert disk[..] == old(disk[..])[0 := DirSector(lf_dir)];
    }

    lemma SectorIs(d: nat)
      requires Shape() && g.dp.lo <= d < disk.Length
      ensures |S().dat| == disk.Length && S().dat[d] == disk[d]
    {
    }

    /** The part of lfflush that writes the data block. */
    method FlushData(i: nat)
      requires Shape() && i < |lfltab| && (lfltab[i].lfdbdirty ==> g.dp.lo <= lfltab[i].lfdnum < disk.Length)
      modifies disk, lfltab[i]
      ensures Shape()
      ensures old(lfltab[i].lfdbdirty) ==> 0 <= old(S()).cbs[i].dnum < |old(S()).dat| && S() == WriteData(old(S()), i)
      ensures !old(lfltab[i].lfdbdirty) ==> S() == old(S())
    {
      var lfptr := lfltab[i];
      if lfptr.lfdbdirty {
        Write(lfptr.lfdnum, DataSector(lfptr.lfdblock[..]));
        lfptr.lfdbdirty := false;
        OneCb(i);
      }
    }

    /** The part of lfflush that writes the index block. */
    method FlushIndex(i: nat)
      requires Shape() && i < |lfltab| && (lfltab[i].lfibdirty ==> 0 <= lfltab[i].lfinum < |S().ib|)
      modifies disk, lfltab[i]
      ensures Shape()
      ensures old(lfltab[i].lfibdirty) ==> 0 <= old(S()).cbs[i].inum < |old(S()).ib| && S() == WriteIndex(old(S()), i)
      ensures !old(lfltab[i].lfibdirty) ==> S() == old(S())
    {
      var lfptr := lfltab[i];
      if lfptr.lfibdirty {
        Lfibput(lfptr.lfinum, lfptr.lfiblock);
        lfptr.lfibdirty := false;
        OneCb(i);
      }
    }

    /** The part of lfflush that writes the directory. */
    method FlushDirectory()
      requires Shape() && lf_dirpresent
      modifies this`lf_dirdirty, this`g, disk
      ensures Shape() && S() == if old(lf_dirdirty) then SaveDir(old(S())) else old(S())
    {
      if lf_dirdirty {
        WriteDirectory();
        lf_dirdirty := false;
      }
    }

    /** lfflush */
    method Lfflush(i: nat, ghost x: int)
      requires Shape() && lf_dirpresent && Base(S(), x, -1) && OpenAt(S(), i)
      requires x == -1 || x == S().cbs[i].file
      modifies this`lf_dirdirty, this`g, disk, lfltab[i]
      ensures FlushedFrom(old(S()), i)
      ensures Shape() && lf_dirpresent && S() == Flushed(old(S()), i)
      ensures Base(S(), x, -1)
    {
      hide Base, Formatted, Lfs.S;
      Facing(i);
      FlushedOk(S(), i, x);
      FlushDirectory();
      Facing(i);
      FlushData(i);
      Facing(i);
      FlushIndex(i);
    }

    ghost predicate FlushedFrom(s: St, i: nat) {
      && i < |s.cbs|
      && (s.cbs[i].ddirty ==> 0 <= s.cbs[i].dnum < |s.dat|)
      && (s.cbs[i].idirty ==> 0 <= s.cbs[i].inum < |s.ib|)
    }

    /** lfiballoc; LF_NULL stands for the panic when no index block is left. */
    method Lfiballoc() returns (ibnum: int)
      requires Shape() && lf_dirpresent
      requires lf_dir.ifree == LF_NULL || 0 <= lf_dir.ifree < |S().ib|
      modifies this`lf_dir, this`lf_dirdirty, this`g, disk
      ensures Shape() && lf_dirpresent && ibnum == old(lf_dir.ifree)
      ensures S() == if ibnum == LF_NULL then old(S()) else PopIndex(old(S()))
    {
      ibnum := lf_dir.ifree;
      if ibnum == LF_NULL {
        return;
      }
      var iblock := Lfibget(ibnum);
      lf_dir := lf_dir.(ifree := iblock.next);
      WriteDirectory();
      lf_dirdirty := false;
    }

    /** lfdballoc into the buffer of control block i; LF_NULL stands for the panic. */
    method Lfdballoc(i: nat) returns (dnum: int)
      requires Shape() && lf_dirpresent && i < |lfltab|
      requires lf_dir.dfree == LF_NULL || (g.dp.lo <= lf_dir.dfree < disk.Length && disk[lf_dir.dfree].FreeSector?)
      modifies this`lf_dir, this`lf_dirdirty, this`g, disk, lfltab[i].lfdblock
      ensures Shape() && lf_dirpresent && dnum == old(lf_dir.dfree)
      ensures dnum == LF_NULL ==> S() == old(S())
      ensures dnum != LF_NULL ==>
                && 0 <= dnum < |old(S()).dat| && old(S()).dat[dnum].FreeSector?
                && S() == SetCb(PopData(old(S())), i, old(S()).cbs[i].(db := seq(LF_BLKSIZ, _ => DFILL)))
    {
      dnum := lf_dir.dfree;
      if dnum == LF_NULL {
        return;
      }
      var dbuff := disk[dnum];
      lf_dir := lf_dir.(dfree := dbuff.nextdb);
      WriteDirectory();
      lf_dirdirty := false;
      var block := lfltab[i].lfdblock;
      forall k | 0 <= k < block.Length {
        block[k] := DFILL;
      }
      assert block[..] == seq(LF_BLKSIZ, _ => DFILL);
      OneCb(i);
    }

    /** lfdbfree */
    method Lfdbfree(dnum: nat)
      requires Shape() && lf_dirpresent && g.dp.lo <= dnum < disk.Length
      modifies this`lf_dir, this`g, disk
      ensures Shape() && lf_dirpresent
      ensures S() == DataFreed(old(S()), dnum)
    {
      Write(dnum, FreeSector(lf_dir.dfree));
      lf_dir := lf_dir.(dfree := dnum);
      WriteDirectory();
    }

    /** lfdbfree of the next condemned block, with the bookkeeping. */
    method FreeCondemned(dnum: nat)
      requires Shape() && lf_dirpresent && Base(S(), -1, -1)
      requires g.dp.gone < |g.dp.limbo| && g.dp.limbo[g.dp.gone] == dnum
      modifies this`lf_dir, this`g, disk
      ensures Shape() && lf_dirpresent && Base(S(), -1, -1)
      ensures PoolsOk(old(S())) && dnum < |old(S()).dat| && S() == FreeData(old(S()))
    {
      FreeDataOk(S());
      Condemned(g.dp, g.dp.gone);
      hide Base, PoolOk, Formatted;
      Lfdbfree(dnum);
      Note(g.(dp := FreeNext(old(g).dp)));
    }

    method LoadIndexBlock(i: nat, ibnum: nat)
      requires Shape() && i < |lfltab| && ibnum < |S().ib|
      modifies lfltab[i]
      ensures Shape() && S() == LoadIndex(old(S()), i, ibnum, true)
    {
      var lfptr := lfltab[i];
      lfptr.lfiblock := Lfibget(ibnum);
      lfptr.lfinum := ibnum;
      OneCb(i);
    }

    method LoadNextBlock(i: nat, ibnum: nat)
      requires Shape() && i < |lfltab| && ibnum < |S().ib|
      modifies lfltab[i]
      ensures Shape() && S() == LoadIndex(old(S()), i, ibnum, false)
    {
      var lfptr := lfltab[i];
      lfptr.lfiblock := Lfibget(ibnum);
      lfptr.lfinum := ibnum;
      lfptr.lfdnum := LF_NULL;
      OneCb(i);
    }

    /** Put a new index block in the cache; it covers the file from the given offset. */
    method EnterIndex(i: nat, ibnum: nat, offset: nat)
      requires Shape() && i < |lfltab|
      modifies lfltab[i]
      ensures Shape()
      ensures S() == SetCb(old(S()), i, old(S()).cbs[i].(inum := ibnum, ib := Cleared(offset), idirty := true))
    {
      var lfptr := lfltab[i];
      lfptr.lfiblock := Cleared(offset);
      lfptr.lfibdirty := true;
      lfptr.lfinum := ibnum;
      OneCb(i);
    }

    method EnterFirst(f: nat, ibnum: nat)
      requires Shape() && lf_dirpresent && f < |lf_dir.files|
      modifies this`lf_dir
      ensures Shape() && lf_dirpresent
      ensures var dir := old(S()).dir;
              S() == old(S()).(dir := dir.(files := dir.files[f := dir.files[f].(ilist := ibnum)]))
    {
      lf_dir := lf_dir.(files := lf_dir.files[f := lf_dir.files[f].(ilist := ibnum)]);
    }

    /** lfsetup: a first index block for an empty file. */
    method AllocFirstBlock(i: nat) returns (ok: bool)
      requires Shape() && lf_dirpresent && Base(S(), -1, -1) && OpenAt(S(), i) && Clean(S(), i)
      requires S().cbs[i].inum == LF_NULL && |UsedIx(S(), i)| == 0
      modifies this`lf_dir, this`lf_dirdirty, this`g, disk, lfltab[i]
      ensures Shape() && lf_dirpresent
      ensures ok <==> |old(g).ip.free| > 0
      ensures ok ==> IndexReady(S(), i) && Kept(old(S()), S(), i) && GrownIx(old(S()), S(), i)
    {
      hide Base, PoolOk, IndexReady, Kept, GrownIx, Formatted;
      ghost var s := S();
      var f := lfltab[i].lfdirptr;
      assert s.cbs[i] == lfltab[i].View();
      Heads(s, -1, -1);
      if |g.ip.free| > 0 {
        AllocFirstReady(s, i);
      }
      var ibnum := Lfiballoc();
      if ibnum == LF_NULL {
        return false;
      }
      EnterIndex(i, ibnum, 0);
      EnterFirst(f, ibnum);
      Note(g.(ip := Pop(old(g).ip, f)));
      ok := true;
    }

    method LinkIndex(i: nat, ibnum: nat)
      requires Shape() && i < |lfltab| && 0 <= lfltab[i].lfinum < |S().ib|
      modifies disk, lfltab[i]
      ensures Shape()
      ensures var c := old(S()).cbs[i];
              0 <= c.inum < |old(S()).ib| && S() == SetCb(old(S()), i, c.(ib := c.ib.(next := ibnum))).(
                ib := old(S()).ib[c.inum := c.ib.(next := ibnum)])
    {
      var lfptr := lfltab[i];
      lfptr.lfiblock := lfptr.lfiblock.(next := ibnum);
      OneCb(i);
      Lfibput(lfptr.lfinum, lfptr.lfiblock);
    }

    method ForgetData(i: nat)
      requires Shape() && i < |lfltab|
      modifies lfltab[i]
      ensures Shape() && S() == SetCb(old(S()), i, old(S()).cbs[i].(dnum := LF_NULL))
    {
      lfltab[i].lfdnum := LF_NULL;
      OneCb(i);
    }

    /** Link the cached index block to a new one, and go on with that one. */
    method StepToNew(i: nat, ibnum: nat)
      requires Shape() && i < |lfltab| && 0 <= lfltab[i].lfinum < |S().ib|
      requires 0 <= lfltab[i].lfiblock.offset + LF_IDATA < TWO32
      modifies disk, lfltab[i]
      ensures Shape()
      ensures var c := old(S()).cbs[i];
              0 <= c.inum < |old(S()).ib| &&
              S() == SetCb(old(S()), i,
                           c.(inum := ibnum, ib := Cleared(c.ib.offset + LF_IDATA), idirty := true, dnum := LF_NULL)).(
                ib := old(S()).ib[c.inum := c.ib.(next := ibnum)])
    {
      hide Formatted;
      ghost var c := S().cbs[i];
      var newoffset := Wrap32(lfltab[i].lfiblock.offset + LF_IDATA);
      LinkIndex(i, ibnum);
      EnterIndex(i, ibnum, newoffset);
      ForgetData(i);
    }

    method NewIndexBlock(i: nat) returns (ibnum: int)
      requires Shape() && lf_dirpresent && i < |lfltab| && 0 <= lfltab[i].lfinum < |S().ib|
      requires lf_dir.ifree == LF_NULL || 0 <= lf_dir.ifree < |S().ib|
      requires lf_dir.ifree != LF_NULL ==> 0 <= lfltab[i].lfiblock.offset + LF_IDATA < TWO32
      modifies this`lf_dir, this`lf_dirdirty, this`g, disk, lfltab[i]
      ensures Shape() && lf_dirpresent && ibnum == old(lf_dir.ifree)
      ensures ibnum != LF_NULL ==>
                var c := old(S()).cbs[i];
                && 0 <= c.inum < |old(S()).ib| && 0 <= ibnum < |old(S()).ib| && ibnum == old(S()).dir.ifree
                && S() == Relink(old(S()), i)
    {
      hide Formatted;
      assert S().cbs[i] == lfltab[i].View();
      ibnum := Lfiballoc();
      if ibnum != LF_NULL {
        StepToNew(i, ibnum);
      }
    }

    lemma PoolReady(s: St, f: nat)
      requires Base(s, f, -1) && f < |s.dir.files|
      ensures PoolOk(s.g.ip) && PoolOk(s.g.dp) && f < |s.g.ip.used| && f < |s.g.dp.used|
    {
      hide PoolOk, ListsOk, NamesOk, FilesOk, CbsOk;
    }

    /** lfsetup: chain a new index block behind the cached one. */
    method ExtendChain(i: nat) returns (ok: bool)
      requires Shape() && lf_dirpresent && IndexReady(S(), i)
      requires S().cbs[i].ib.offset < LF_IDATA * (S().cbs[i].pos / LF_IDATA) && S().cbs[i].ib.next == LF_NULL
      modifies this`lf_dir, this`lf_dirdirty, this`g, disk, lfltab[i]
      ensures Shape() && lf_dirpresent
      ensures ok <==> |old(g).ip.free| > 0
      ensures ok ==> IndexReady(S(), i) && Kept(old(S()), S(), i) && GrownIx(old(S()), S(), i)
      ensures ok ==> |UsedIx(S(), i)| == |UsedIx(old(S()), i)| + 1
      ensures ok ==> S().cbs[i].ib.offset == old(S()).cbs[i].ib.offset + LF_IDATA
    {
      ghost var s := S();
      assert Base(s, s.cbs[i].file, -1) && OpenAt(s, i) && s.cbs[i].inum != LF_NULL;
      hide Base, PoolOk, IndexReady, Kept, GrownIx, Formatted, CanExtend, Pop, Relink, UsedIx, Lfs.S;
      Facing(i);
      Heads(s, s.cbs[i].file, -1);
      if |g.ip.free| > 0 {
        ExtendReady(s, i);
        PoolReady(s, s.cbs[i].file);
      }
      CachedIndex(s, i, s.cbs[i].file);
      var ibnum := NewIndexBlock(i);
      ok := ibnum != LF_NULL;
      if ok {
        Note(g.(ip := Pop(s.g.ip, s.cbs[i].file)));
        assert S() == Extend(s, i);
      }
    }

    /** lfsetup up to the loop: have some index block of the file, not past the position. */
    method FirstIndex(i: nat) returns (ok: bool)
      requires Shape() && lf_dirpresent && Base(S(), -1, -1) && OpenAt(S(), i) && Clean(S(), i)
      modifies this`lf_dir, this`lf_dirdirty, this`g, disk, lfltab[i]
      ensures Shape() && lf_dirpresent
      ensures !ok <==> old(S()).cbs[i].inum == LF_NULL && |UsedIx(old(S()), i)| == 0 && |old(g).ip.free| == 0
      ensures ok ==> IndexReady(S(), i) && Kept(old(S()), S(), i) && GrownIx(old(S()), S(), i)
    {
      hide Base, PoolOk, IndexReady, Formatted, ListsOk, Kept, GrownIx;
      ghost var s := S();
      var lfptr := lfltab[i];
      assert s.cbs[i] == lfptr.View();
      FirstFacts(s, i);
      var ldptr := lf_dir.files[lfptr.lfdirptr];
      ok := true;
      if lfptr.lfinum == LF_NULL && ldptr.ilist == LF_NULL {
        ok := AllocFirstBlock(i);
      } else if lfptr.lfinum == LF_NULL || lfptr.lfpos < lfptr.lfiblock.offset {
        LoadFirstReady(s, i);
        LoadIndexBlock(i, ldptr.ilist);
      } else {
        StayReady(s, i);
      }
    }

    /** lfsetup from the loop on: have the data block of the position, and point into it. */
    method FetchData(i: nat) returns (ok: bool)
      requires Shape() && lf_dirpresent && Covered(S(), i)
      modifies this`lf_dir, this`lf_dirdirty, this`g, disk, lfltab[i], lfltab[i].lfdblock
      ensures Shape() && lf_dirpresent
      ensures !ok <==> NeedsData(old(S()), i) && |old(g).dp.free| == 0
      ensures ok ==> SetUp(old(S()), S(), i)
    {
      hide Base, PoolOk, IndexReady, Formatted, ListsOk, Covered, SetUp, Point, LoadData, SetCb, Lfs.S;
      ghost var s := S();
      CoveredOpen(s, i);
      Facing(i);
      var lfptr := lfltab[i];
      CoveredSlot(s, i);
      var dindex := DIndex(lfptr.lfpos);
      var dnum := lfptr.lfiblock.dba[dindex];
      ok := true;
      if dnum == LF_NULL {
        SlotMissing(s, i);
        ok := NewData(i, dindex);
        if ok {
          PointTo(i);
        }
      } else {
        DataFound(s, i, dnum);
        SectorIs(dnum);
        if dnum != lfptr.lfdnum {
          ReadData(i, dnum);
        }
        PointTo(i);
      }
    }

    /** A new data block, entered in the cached index block. */
    method NewDataBlock(i: nat, dindex: nat) returns (dnum: int)
      requires Shape() && lf_dirpresent && i < |lfltab| && dindex < |lfltab[i].lfiblock.dba|
      requires lf_dir.dfree == LF_NULL || (g.dp.lo <= lf_dir.dfree < disk.Length && disk[lf_dir.dfree].FreeSector?)
      modifies this`lf_dir, this`lf_dirdirty, this`g, disk, lfltab[i], lfltab[i].lfdblock
      ensures Shape() && lf_dirpresent && dnum == old(lf_dir.dfree)
      ensures dnum != LF_NULL ==>
                && 0 <= dnum < |old(S()).dat| && old(S()).dat[dnum].FreeSector?
                && var c := old(S()).cbs[i];
                dindex < |c.ib.dba| &&
                S() == SetCb(PopData(old(S())), i, c.(dnum := dnum, db := seq(LF_BLKSIZ, _ => DFILL),
                                                      ib := c.ib.(dba := c.ib.dba[dindex := dnum]), idirty := true))
    {
      hide Formatted;
      ghost var c := S().cbs[i];
      dnum := Lfdballoc(i);
      if dnum != LF_NULL {
        EnterData(i, dindex, dnum);
      }
    }

    method NewData(i: nat, dindex: nat) returns (ok: bool)
      requires Shape() && lf_dirpresent && Covered(S(), i) && dindex == DIndex(S().cbs[i].pos)
      requires At(UsedDt(S(), i), S().cbs[i].pos / LF_BLKSIZ) == LF_NULL
      modifies this`lf_dir, this`lf_dirdirty, this`g, disk, lfltab[i], lfltab[i].lfdblock
      ensures Shape() && lf_dirpresent
      ensures ok <==> |old(g).dp.free| > 0
      ensures ok ==> SetUp(old(S()), Point(S(), i), i)
    {
      assert Base(S(), S().cbs[i].file, -1);
      hide Base, PoolOk, Covered, IndexReady, Formatted, SetUp, Lfs.S;
      ghost var s := S();
      Facing(i);
      CoveredSlot(s, i);
      Heads(s, s.cbs[i].file, -1);
      if |g.dp.free| > 0 {
        DataAllocated(s, i);
      }
      var dnum := NewDataBlock(i, dindex);
      ok := dnum != LF_NULL;
      if ok {
        Note(g.(dp := Pop(old(g).dp, s.cbs[i].file)));
      }
    }

    method EnterData(i: nat, dindex: nat, dnum: int)
      requires Shape() && i < |lfltab| && dindex < |lfltab[i].lfiblock.dba|
      modifies lfltab[i]
      ensures Shape()
      ensures var c := old(S()).cbs[i];
              dindex < |c.ib.dba| &&
              S() == SetCb(old(S()), i, c.(dnum := dnum, ib := c.ib.(dba := c.ib.dba[dindex := dnum]), idirty := true))
    {
      var lfptr := lfltab[i];
      lfptr.lfiblock := lfptr.lfiblock.(dba := lfptr.lfiblock.dba[dindex := dnum]);
      lfptr.lfibdirty := true;
      lfptr.lfdnum := dnum;
      OneCb(i);
    }

    method ReadData(i: nat, dnum: nat)
      requires Shape() && i < |lfltab| && g.dp.lo <= dnum < disk.Length
      requires disk[dnum].DataSector? && |disk[dnum].bytes| == LF_BLKSIZ
      modifies lfltab[i], lfltab[i].lfdblock
      ensures Shape()
      ensures dnum < |old(S()).dat| && old(S()).dat[dnum].DataSector? && S() == LoadData(old(S()), i, dnum)
    {
      var lfptr := lfltab[i];
      var bytes := disk[dnum].bytes;
      forall k | 0 <= k < LF_BLKSIZ {
        lfptr.lfdblock[k] := bytes[k];
      }
      assert lfptr.lfdblock[..] == bytes;
      lfptr.lfdbdirty := false;
      lfptr.lfdnum := dnum;
      OneCb(i);
    }

    method PointTo(i: nat)
      requires Shape() && i < |lfltab|
      modifies lfltab[i]
      ensures Shape() && S() == Point(old(S()), i)
    {
      lfltab[i].lfbyte := lfltab[i].lfpos % LF_BLKSIZ;
      OneCb(i);
    }

    /** lfsetup: bring in, or allocate, the index block and the data block of the
        position, and point lfbyte at its byte. */
    method Lfsetup(i: nat) returns (r: Status)
      requires Shape() && lf_dirpresent && Base(S(), -1, -1) && OpenAt(S(), i) && S().cbs[i].bptr == LF_BLKSIZ
      modifies this`lf_dir, this`lf_dirdirty, this`g, disk, lfltab[i], lfltab[i].lfdblock
      ensures Shape() && lf_dirpresent
      ensures r == if Starved(old(S()), i) then PANIC else OK
      ensures r == OK ==> SetUp(old(S()), S(), i)
    {
      hide Base, PoolOk, Formatted, IndexReady, SetUp, Covered, Kept, GrownIx;
      Begin(i);
      ghost var s := S();
      assert Begun(s, i);
      var ok := FirstIndex(i);
      if !ok {
        NoFirst(s, i);
        return PANIC;
      }
      var lfptr := lfltab[i];
      assert S().cbs[i] == lfptr.View();
      while lfptr.lfpos / LF_IDATA * LF_IDATA > lfptr.lfiblock.offset
        invariant Shape() && lf_dirpresent && IndexReady(S(), i) && Kept(s, S(), i) && GrownIx(s, S(), i)
        invariant S().cbs[i] == lfptr.View()
        decreases lfptr.lfpos - lfptr.lfiblock.offset
      {
        ok := NextIndex(i, s);
        if !ok {
          return PANIC;
        }
        assert S().cbs[i] == lfptr.View();
      }
      CoveredNow(S(), i);
      ghost var t := S();
      LoopDone(s, t, i);
      ok := FetchData(i);
      if !ok {
        return PANIC;
      }
      SetUpOn(old(S()), s, t, S(), i);
      r := OK;
    }

    /** lfsetup: write the caches back if they changed. */
    method Begin(i: nat)
      requires Shape() && lf_dirpresent && Base(S(), -1, -1) && OpenAt(S(), i) && S().cbs[i].bptr == LF_BLKSIZ
      modifies this`lf_dirdirty, this`g, disk, lfltab[i]
      ensures Shape() && lf_dirpresent && Begun(S(), i)
      ensures Kept(old(S()), S(), i) && DirStep(old(S()), S())
      ensures Starved(S(), i) == Starved(old(S()), i)
    {
      hide Base, PoolOk, Formatted, Kept, Flushed, Lfs.S;
      ghost var s := S();
      Facing(i);
      FlushedOk(s, i, -1);
      FlushedKept(s, i);
      KeptSelf(s, i);
      var lfptr := lfltab[i];
      if lfptr.lfibdirty || lfptr.lfdbdirty {
        Lfflush(i, -1);
      }
    }

    /** lfsetup, one turn of the loop: go to the next index block of the file. */
    method NextIndex(i: nat, ghost s: St) returns (ok: bool)
      requires Shape() && lf_dirpresent && IndexReady(S(), i) && Begun(s, i) && Kept(s, S(), i) && GrownIx(s, S(), i)
      requires S().cbs[i].ib.offset < LF_IDATA * (S().cbs[i].pos / LF_IDATA)
      modifies this`lf_dir, this`lf_dirdirty, this`g, disk, lfltab[i]
      ensures Shape() && lf_dirpresent
      ensures !ok ==> NeedsIndex(s, i) && |s.g.ip.free| == 0
      ensures ok ==> IndexReady(S(), i) && Kept(s, S(), i) && GrownIx(s, S(), i)
      ensures ok ==> S().cbs[i].ib.offset == old(S()).cbs[i].ib.offset + LF_IDATA
      ensures ok ==> S().cbs[i].pos == old(S()).cbs[i].pos
    {
      hide Base, PoolOk, Formatted, IndexReady, Kept, GrownIx, Lfs.S;
      ghost var t := S();
      Facing(i);
      KeptPos(s, t, i);
      var ibnum := lfltab[i].lfiblock.next;
      if ibnum == LF_NULL {
        LoopEnds(s, t, i);
        ok := ExtendChain(i);
        if ok {
          LoopExtends(s, t, S(), i);
        }
      } else {
        NextReady(t, i);
        LoadNextBlock(i, ibnum);
        LoopNext(s, t, S(), i);
        ok := true;
      }
      if ok {
        KeptPos(s, S(), i);
      }
    }

    /** lflputc, after the position is set up. */
    method StoreByte(i: nat, ch: byte)
      requires Shape() && lf_dirpresent && Sized(S()) && OpenAt(S(), i)
      requires lfltab[i].lfbyte < LF_BLKSIZ && lfltab[i].lfpos <= |g.content[lfltab[i].lfdirptr]|
      requires lf_dir.files[lfltab[i].lfdirptr].size + 1 < TWO32 && lfltab[i].lfpos + 1 < TWO32
      modifies this`lf_dir, this`lf_dirdirty, this`g, lfltab[i], lfltab[i].lfdblock
      ensures Shape() && lf_dirpresent
      ensures var s := old(S());
              && Sized(s) && OpenAt(s, i) && s.cbs[i].bptr < |s.cbs[i].db|
                 && s.cbs[i].pos <= |s.g.content[s.cbs[i].file]|
              && S() == Put(s, i, ch)
    {
      hide Formatted;
      var lfptr := lfltab[i];
      var f := lfptr.lfdirptr;
      assert S().cbs[i] == lfptr.View();
      Note(g.(content := g.content[f := Overwritten(g.content[f], lfptr.lfpos, ch)]));
      if lfptr.lfpos >= lf_dir.files[f].size {
        GrowEntry(f);
      }
      BumpByte(i, ch);
    }

    method GrowEntry(f: nat)
      requires Shape() && lf_dirpresent && f < |lf_dir.files| && lf_dir.files[f].size + 1 < TWO32
      modifies this`lf_dir, this`lf_dirdirty
      ensures Shape() && lf_dirpresent
      ensures var s := old(S());
              f < |s.dir.files| &&
              S() == s.(dir := s.dir.(files := s.dir.files[f := s.dir.files[f].(size := s.dir.files[f].size + 1)]),
                        dirty := true)
    {
      var e := lf_dir.files[f];
      lf_dir := lf_dir.(files := lf_dir.files[f := e.(size := Wrap32(e.size + 1))]);
      lf_dirdirty := true;
    }

    method BumpByte(i: nat, ch: byte)
      requires Shape() && i < |lfltab| && lfltab[i].lfbyte < LF_BLKSIZ && lfltab[i].lfpos + 1 < TWO32
      modifies lfltab[i], lfltab[i].lfdblock
      ensures Shape()
      ensures var c := old(S()).cbs[i];
              c.bptr < |c.db| &&
              S() == SetCb(old(S()), i,
                           c.(db := c.db[c.bptr := ch], bptr := c.bptr + 1, pos := c.pos + 1, ddirty := true))
    {
      var lfptr := lfltab[i];
      lfptr.lfdblock[lfptr.lfbyte] := ch;
      assert lfptr.lfdblock[..] == old(lfptr.lfdblock[..])[lfptr.lfbyte := ch];
      lfptr.lfbyte := lfptr.lfbyte + 1;
      lfptr.lfpos := Wrap32(lfptr.lfpos + 1);
      lfptr.lfdbdirty := true;
      OneCb(i);
    }

    /** lflgetc, after the position is set up. */
    method LoadByte(i: nat) returns (onebyte: byte)
      requires Shape() && i < |lfltab| && lfltab[i].lfbyte < LF_BLKSIZ && lfltab[i].lfpos + 1 < TWO32
      modifies lfltab[i]
      ensures Shape() && S() == Advance(old(S()), i)
      ensures old(S()).cbs[i].bptr < |old(S()).cbs[i].db| && onebyte == old(S()).cbs[i].db[old(S()).cbs[i].bptr]
    {
      var lfptr := lfltab[i];
      onebyte := lfptr.lfdblock[lfptr.lfbyte];
      lfptr.lfbyte := lfptr.lfbyte + 1;
      lfptr.lfpos := Wrap32(lfptr.lfpos + 1);
      OneCb(i);
    }

    method MoveTo(i: nat, offset: nat)
      requires Shape() && i < |lfltab|
      modifies lfltab[i]
      ensures Shape() && S() == Seek(old(S()), i, offset)
    {
      var lfptr := lfltab[i];
      lfptr.lfpos := offset;
      lfptr.lfbyte := LF_BLKSIZ;
      OneCb(i);
    }

    method Release(i: nat)
      requires Shape() && i < |lfltab| && OpenAt(S(), i) && lfltab[i].lfdirptr < |g.opener|
      modifies this`g, lfltab[i]
      ensures Shape() && OpenAt(old(S()), i) && old(S()).cbs[i].file < |old(S()).g.opener| && S() == Close(old(S()), i)
      ensures lf_dirpresent == old(lf_dirpresent) && lf_dirdirty == old(lf_dirdirty)
    {
      hide Formatted;
      var lfptr := lfltab[i];
      assert S().cbs[i] == lfptr.View();
      Note(g.(opener := g.opener[lfptr.lfdirptr := -1]));
      label L:
      lfptr.lfstate := false;
      OneCb@L(i);
    }

    /** lftruncate: forget the caches and the position, and clear the directory entry. */
    method DropFile(i: nat)
      requires Shape() && lf_dirpresent && Sized(S()) && OpenAt(S(), i)
      modifies this`lf_dir, this`lf_dirdirty, this`g, lfltab[i]
      ensures Shape() && lf_dirpresent
      ensures Sized(old(S())) && OpenAt(old(S()), i) && S() == Empty(old(S()), i)
    {
      hide Formatted;
      var f := lfltab[i].lfdirptr;
      assert S().cbs[i] == lfltab[i].View();
      Note(g.(ip := Condemn(g.ip, f), dp := Condemn(g.dp, f), content := g.content[f := []]));
      Rewind(i);
      ClearEntry(f);
    }

    method Rewind(i: nat)
      requires Shape() && i < |lfltab|
      modifies lfltab[i]
      ensures Shape()
      ensures S() == SetCb(old(S()), i, old(S()).cbs[i].(pos := 0, inum := LF_NULL, dnum := LF_NULL, bptr := LF_BLKSIZ))
    {
      var lfptr := lfltab[i];
      lfptr.lfpos := 0;
      lfptr.lfinum := LF_NULL;
      lfptr.lfdnum := LF_NULL;
      lfptr.lfbyte := LF_BLKSIZ;
      OneCb(i);
    }

    method ClearEntry(f: nat)
      requires Shape() && lf_dirpresent && f < |lf_dir.files|
      modifies this`lf_dir, this`lf_dirdirty
      ensures Shape() && lf_dirpresent
      ensures var s := old(S());
              f < |s.dir.files| &&
              S() == s.(dir := s.dir.(files := s.dir.files[f := s.dir.files[f].(ilist := LF_NULL, size := 0)]),
                        dirty := true)
    {
      lf_dir := lf_dir.(files := lf_dir.files[f := lf_dir.files[f].(ilist := LF_NULL, size := 0)]);
      lf_dirdirty := true;
    }

    /** lftruncate: the whole chain of index blocks becomes the head of the free list. */
    method SpliceChain(firstib: nat)
      requires Shape() && lf_dirpresent && |g.ip.limbo| > 0 && g.ip.limbo[0] == firstib && g.ip.gone == 0
      modifies this`lf_dir, this`lf_dirdirty, this`g
      ensures Shape() && lf_dirpresent
      ensures |old(S()).g.ip.limbo| > 0 && old(S()).g.ip.gone == 0 && S() == SpliceIndex(old(S()))
    {
      Note(g.(ip := Splice(g.ip), dp := Settle(g.dp)));
      lf_dir := lf_dir.(ifree := firstib);
      lf_dirdirty := true;
    }

    /** lfsopen: read the directory if it is not in memory. */
    method LoadDirectory()
      requires Shape() && !lf_dirpresent
      modifies this`lf_dir, this`lf_dirpresent
      ensures Shape() && lf_dirpresent && S() == old(S())
    {
      lf_dir := disk[0].dir;
      lf_dirpresent := true;
    }

    /** lfsopen: enter a new file in the directory. It is not marked dirty. */
    method CreateEntry(name: string)
      requires Shape() && lf_dirpresent
      modifies this`lf_dir, this`g
      ensures Shape() && lf_dirpresent && S() == Create(old(S()), name)
    {
      Note(g.(ip := AddFile(g.ip), dp := AddFile(g.dp), content := g.content + [[]], opener := g.opener + [-1]));
      lf_dir := lf_dir.(files := lf_dir.files + [DirEntry(0, LF_NULL, name)]);
    }

    /** lfsopen: set up the control block. */
    method TakeUp(i: nat, f: nat, name: string)
      requires Shape() && lf_dirpresent && i < |lfltab| && f < |g.opener| && f < |lf_dir.files|
               && name == lf_dir.files[f].name
      modifies this`g, lfltab[i]
      ensures Shape() && lf_dirpresent
      ensures f < |old(S()).g.opener| && f < |old(S()).dir.files| && S() == Open(old(S()), i, f)
      ensures !lfltab[i].lfibdirty && !lfltab[i].lfdbdirty && lf_dirdirty == old(lf_dirdirty)
    {
      hide Formatted;
      Note(g.(opener := g.opener[f := i]));
      label L:
      var lfptr := lfltab[i];
      lfptr.lfstate := true;
      lfptr.lfdirptr := f;
      lfptr.lfpos := 0;
      lfptr.lfname := name;
      lfptr.lfinum := LF_NULL;
      lfptr.lfdnum := LF_NULL;
      lfptr.lfbyte := LF_BLKSIZ;
      lfptr.lfibdirty := false;
      lfptr.lfdbdirty := false;
      OneCb@L(i);
    }
  }
}
