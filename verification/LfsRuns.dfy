/** Any interleaving of calls on any number of local files is an interleaving of the same
    calls on plain byte sequences. */
module LfsRuns {
  import opened LfsTypes
  import opened LfsPool
  import opened LfsLayout
  import opened LfsSteps
  import opened LfsMoves
  import opened LfsCut
  import opened LfsSpec
  import opened LfsRefine
  import opened LfsDevice
  import opened LfsCalls
  import opened LfsOpen
  import opened LfsLaws

  lemma PoolAccounted(p: Pool)
    requires PoolOk(p) && |p.limbo| == 0
    ensures forall d :: p.lo <= d < |p.own| ==> Owns(p, d, p.own[d]) && !p.own[d].Limbo?
    ensures forall f, k :: 0 <= f < |p.used| && 0 <= k < |p.used[f]| ==>
              p.used[f][k] < |p.own| && p.own[p.used[f][k]] == Used(f, k)
    ensures forall k :: 0 <= k < |p.free| ==> p.free[k] < |p.own| && p.own[p.free[k]] == Free(k)
  {
  }

  /** In every state between calls each sector of the data area is on the free list or in
      exactly one slot of exactly one file, the same holds of index blocks, and the free
      blocks are what the lengths of the files leave. */
  lemma EveryBlockAccounted(s: St)
    requires Calm(s)
    ensures forall d :: s.g.dp.lo <= d < |s.dat| ==>
              d < |s.g.dp.own| && Owns(s.g.dp, d, s.g.dp.own[d]) && !s.g.dp.own[d].Limbo?
    ensures forall n :: 0 <= n < |s.ib| ==>
              n < |s.g.ip.own| && Owns(s.g.ip, n, s.g.ip.own[n]) && !s.g.ip.own[n].Limbo?
    ensures forall f, k :: 0 <= f < |s.g.dp.used| && 0 <= k < |s.g.dp.used[f]| ==>
              s.g.dp.used[f][k] < |s.g.dp.own| && s.g.dp.own[s.g.dp.used[f][k]] == Used(f, k)
    ensures forall f, k :: 0 <= f < |s.g.ip.used| && 0 <= k < |s.g.ip.used[f]| ==>
              s.g.ip.used[f][k] < |s.g.ip.own| && s.g.ip.own[s.g.ip.used[f][k]] == Used(f, k)
    ensures |s.g.dp.free| == |s.dat| - s.g.dp.lo - Occupied(AbsOf(s).files, LF_BLKSIZ)
    ensures |s.g.ip.free| == |s.ib| - Occupied(AbsOf(s).files, LF_IDATA)
  {
    hide PoolOk, ListsOk, FilesOk, CbsOk, NamesOk, Occupied, Owns;
    Conservation(s);
    PoolAccounted(s.g.ip);
    PoolAccounted(s.g.dp);
  }

  lemma HandleAt(s: St, i: nat)
    requires Calm(s) && i < |s.cbs| && s.cbs[i].open
    ensures IsOpen(AbsOf(s), i) && s.cbs[i].file < |s.g.opener| && s.g.opener[s.cbs[i].file] == i
  {
    hide PoolOk, ListsOk, FileAt, LensAt, CacheOk, IsOpen;
    OpenAgrees(s, i);
    assert CbAt(s, i, -1);
  }

  lemma NamesAgree(s: St)
    requires Calm(s)
    ensures var files := AbsOf(s).files;
            && |files| <= LF_NUM_DIR_ENT
            && (forall f :: 0 <= f < |files| ==> |files[f].name| < LF_NAME_LEN)
            && (forall f, h :: 0 <= f < h < |files| ==> files[f].name != files[h].name)
  {
    hide PoolOk, ListsOk, FilesOk, CbsOk;
    assert forall f :: 0 <= f < |s.dir.files| ==> AbsOf(s).files[f].name == s.dir.files[f].name;
  }

  /** The laws of LfsLaws that ask for a well-formed view apply between any two calls. */
  lemma ViewWellFormed(s: St)
    requires Calm(s)
    ensures WellFormed(AbsOf(s)) && Within(AbsOf(s))
  {
    assert Sized(s);
    hide Base, Occupied, IsOpen;
    Conservation(s);
    NamesAgree(s);
    var a := AbsOf(s);
    forall i | 0 <= i < |a.handles| && a.handles[i].Opened?
      ensures IsOpen(a, i) && a.handles[i].file < |s.g.opener| && s.g.opener[a.handles[i].file] == i
    {
      HandleAt(s, i);
    }
  }

  predicate InRange(op: Op, n: nat) {
    op.DoOpen? || op.i < n
  }

  /** One call. */
  method Call(fs: Lfs, op: Op) returns (r: Res)
    requires Valid(fs) && InRange(op, |fs.lfltab|)
    modifies fs, fs.disk, fs.lfltab, set c | c in fs.lfltab :: c.lfdblock
    ensures r == Do(old(View(fs)), op).1
    ensures r != Stat(PANIC) ==> Valid(fs) && View(fs) == Do(old(View(fs)), op).0
  {
    hide Valid, View, OpenF, CloseF, PutC, GetC, SeekTo, Truncate, WriteF, ReadF;
    match op
    case DoOpen(name, mustExist, mustBeNew) =>
      var code := Lfsopen(fs, name, mustExist, mustBeNew);
      r := Code(code);
    case DoClose(i) =>
      var status := Lflclose(fs, i);
      r := Stat(status);
    case DoPut(i, ch) =>
      var status := Lflputc(fs, i, ch);
      r := Stat(status);
    case DoGet(i) =>
      var code := Lflgetc(fs, i);
      r := Code(code);
    case DoSeek(i, offset) =>
      var status := Lflseek(fs, i, offset);
      r := Stat(status);
    case DoTruncate(i) =>
      var status := Lflcontrol(fs, i, LF_CTL_TRUNC);
      r := Stat(status);
    case DoWrite(i, buff) =>
      assert buff[..|buff|] == buff;
      var status := Lflwrite(fs, i, buff, |buff|);
      r := Stat(status);
    case DoRead(i, count) =>
      r := ReadInto(fs, i, count);
  }

  lemma ReadLength(a: FS, i: nat, count: nat)
    ensures ReadF(a, i, count).2 < 0 ==> |ReadF(a, i, count).1| == 0
  {
    if IsOpen(a, i) {
      ReadIs(a, i, count);
    }
  }

  /** A read into a buffer of its own. */
  method ReadInto(fs: Lfs, i: nat, count: nat) returns (r: Res)
    requires Valid(fs) && i < |fs.lfltab|
    modifies fs, fs.disk, fs.lfltab[i], fs.lfltab[i].lfdblock
    ensures Valid(fs)
    ensures (View(fs), r) == Do(old(View(fs)), DoRead(i, count))
  {
    hide Valid, View, ReadF;
    var buff := new byte[count](_ => 0);
    var n := Lflread(fs, i, buff, count);
    ghost var data := ReadF(old(View(fs)), i, count).1;
    ReadLength(old(View(fs)), i, count);
    r := Data(buff[..if n < 0 then 0 else n], n);
    assert buff[..if n < 0 then 0 else n] == data;
  }

  /** A whole run of calls, up to the point where the kernel stops if it does: results and
      final contents are those of the same run on byte sequences. */
  method RunCalls(fs: Lfs, ops: seq<Op>) returns (rs: seq<Res>)
    requires Valid(fs) && forall k :: 0 <= k < |ops| ==> InRange(ops[k], |fs.lfltab|)
    modifies fs, fs.disk, fs.lfltab, set c | c in fs.lfltab :: c.lfdblock
    ensures rs == Run(old(View(fs)), ops).1
    ensures Stat(PANIC) !in rs ==> Valid(fs) && View(fs) == Run(old(View(fs)), ops).0
    decreases |ops|
  {
    hide Valid, View, Do;
    rs := [];
    if |ops| > 0 {
      var r := Call(fs, ops[0]);
      if r == Stat(PANIC) {
        return [r];
      }
      var rest := RunCalls(fs, ops[1..]);
      rs := [r] + rest;
      assert Stat(PANIC) in rest ==> Stat(PANIC) in rs;
    }
  }
}
