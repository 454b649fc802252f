/** Opening local files, formatting a disk, and whole runs of calls. */
module LfsOpen {
  import opened LfsTypes
  import opened LfsPool
  import opened LfsLayout
  import opened LfsSteps
  import opened LfsMoves
  import opened LfsCut
  import opened LfsSetupSpec
  import opened LfsSpec
  import opened LfsRefine
  import opened LfsDevice
  import opened LfsCalls

  /** A name is open when some open control block carries it. */
  lemma NameOpenAgrees(s: St, name: string)
    requires Calm(s)
    ensures NameIsOpen(AbsOf(s), name) <==> exists i :: 0 <= i < |s.cbs| && s.cbs[i].open && s.cbs[i].name == name
  {
    hide PoolOk, FileAt, ListsOk, CacheOk, IsOpen;
    forall i | 0 <= i < |s.cbs|
      ensures s.cbs[i].open <==> IsOpen(AbsOf(s), i)
      ensures s.cbs[i].open ==>
                s.cbs[i].file < |s.dir.files| && s.cbs[i].name == AbsOf(s).files[s.cbs[i].file].name
    {
      OpenAgrees(s, i);
      assert CbAt(s, i, -1);
    }
    assert forall i :: 0 <= i < |s.cbs| ==>
           AbsOf(s).handles[i] == (if s.cbs[i].open then Opened(s.cbs[i].file, s.cbs[i].pos) else Closed);
  }

  /** A file that no open control block names has no opener. */
  lemma NotOpened(s: St, f: nat)
    requires Calm(s) && f < |s.dir.files|
    requires forall i :: 0 <= i < |s.cbs| && s.cbs[i].open ==> s.cbs[i].name != s.dir.files[f].name
    ensures s.g.opener[f] == -1
  {
    hide PoolOk, FileOk, ListsOk, CacheOk, CbsOk;
    assert FileAt(s, f);
    if s.g.opener[f] != -1 {
      OpenerName(s, f);
    }
  }

  lemma OpenerName(s: St, f: nat)
    requires Calm(s) && f < |s.dir.files| && s.g.opener[f] != -1
    ensures var i := s.g.opener[f];
            0 <= i < |s.cbs| && s.cbs[i].open && s.cbs[i].name == s.dir.files[f].name
  {
    hide PoolOk, FileOk, ListsOk, CacheOk;
    assert FileAt(s, f);
    assert CbAt(s, s.g.opener[f], -1);
  }

  lemma CreateRefines(s: St, name: string)
    requires Calm(s) && Synced(s) && |s.dir.files| < LF_NUM_DIR_ENT && |name| < LF_NAME_LEN
    requires forall f :: 0 <= f < |s.dir.files| ==> s.dir.files[f].name != name
    ensures Calm(Create(s, name)) && Synced(Create(s, name))
    ensures FilesOf(Create(s, name)) == FilesOf(s) + [File(name, [])] && HandlesOf(Create(s, name)) == HandlesOf(s)
  {
    hide PoolOk, FileAt, ListsOk, CbAt, LensAt;
    CreateOk(s, name);
  }

  lemma OpenRefines(s: St, i: nat, f: nat)
    requires Calm(s) && Synced(s) && i < |s.cbs| && !s.cbs[i].open && |s.cbs[i].db| == LF_BLKSIZ
    requires f < |s.dir.files| && s.g.opener[f] == -1
    ensures Calm(Open(s, i, f)) && Synced(Open(s, i, f))
    ensures FilesOf(Open(s, i, f)) == FilesOf(s) && HandlesOf(Open(s, i, f)) == HandlesOf(s)[i := Opened(f, 0)]
  {
    hide PoolOk, FileAt, ListsOk, CbAt, LensAt;
    OpenOk(s, i, f);
  }

  /** lfsopen: the first loop, over the control blocks. The result is the first unused
      one, |lfltab| when there is none, or SYSERR_CODE when the name is open. */
  method FindBlock(fs: Lfs, name: string) returns (lfnext: int)
    ensures lfnext == SYSERR_CODE ==>
              exists j :: 0 <= j < |fs.lfltab| && fs.lfltab[j].lfstate && fs.lfltab[j].lfname == name
    ensures lfnext != SYSERR_CODE ==>
              && 0 <= lfnext <= |fs.lfltab|
              && (forall j :: 0 <= j < |fs.lfltab| && fs.lfltab[j].lfstate ==> fs.lfltab[j].lfname != name)
              && (lfnext < |fs.lfltab| ==> !fs.lfltab[lfnext].lfstate)
              && (forall j :: 0 <= j < lfnext ==> fs.lfltab[j].lfstate)
  {
    lfnext := |fs.lfltab|;
    var i := 0;
    while i < |fs.lfltab|
      invariant 0 <= i <= |fs.lfltab| && 0 <= lfnext <= |fs.lfltab|
      invariant forall j :: 0 <= j < i && fs.lfltab[j].lfstate ==> fs.lfltab[j].lfname != name
      invariant lfnext < |fs.lfltab| ==> lfnext < i && !fs.lfltab[lfnext].lfstate
      invariant forall j :: 0 <= j < i && j < lfnext ==> fs.lfltab[j].lfstate
    {
      var lfptr := fs.lfltab[i];
      if !lfptr.lfstate {
        if lfnext == |fs.lfltab| {
          lfnext := i;
        }
      } else if lfptr.lfname == name {
        return SYSERR_CODE;
      }
      i := i + 1;
    }
  }

  lemma FirstClosed(handles: seq<Handle>, n: nat)
    requires n <= |handles| && (n < |handles| ==> handles[n].Closed?)
    requires forall j :: 0 <= j < n ==> handles[j].Opened?
    ensures n == FreeHandle(handles, 0)
  {
  }

  lemma FirstNamed(files: seq<File>, name: string, n: nat)
    requires n <= |files| && (n < |files| ==> files[n].name == name)
    requires forall j :: 0 <= j < n ==> files[j].name != name
    ensures n == FindName(files, name, 0)
  {
  }

  lemma FirstEntry(s: St, name: string, n: nat)
    requires Sized(s) && n <= |s.dir.files| && (n < |s.dir.files| ==> s.dir.files[n].name == name)
    requires forall j :: 0 <= j < n ==> s.dir.files[j].name != name
    ensures |FilesOf(s)| == |s.dir.files| && n == FindName(FilesOf(s), name, 0)
  {
    hide Sized;
    FirstNamed(FilesOf(s), name, n);
  }

  /** lfsopen: the second loop, over the directory. */
  method FindEntry(files: seq<DirEntry>, name: string) returns (f: nat)
    ensures f <= |files| && (f < |files| ==> files[f].name == name)
    ensures forall h :: 0 <= h < f ==> files[h].name != name
  {
    f := 0;
    while f < |files| && files[f].name != name
      invariant f <= |files| && forall h :: 0 <= h < f ==> files[h].name != name
    {
      f := f + 1;
    }
  }

  /** What the two searches of lfsopen found, in the users' terms. */
  lemma Found(fs: Lfs, name: string, lfnext: int)
    requires Valid(fs)
    requires lfnext == SYSERR_CODE ==>
               exists j :: 0 <= j < |fs.lfltab| && fs.lfltab[j].lfstate && fs.lfltab[j].lfname == name
    requires lfnext != SYSERR_CODE ==>
               && 0 <= lfnext <= |fs.lfltab|
               && (forall j :: 0 <= j < |fs.lfltab| && fs.lfltab[j].lfstate ==> fs.lfltab[j].lfname != name)
               && (lfnext < |fs.lfltab| ==> !fs.lfltab[lfnext].lfstate)
               && (forall j :: 0 <= j < lfnext ==> fs.lfltab[j].lfstate)
    ensures lfnext == SYSERR_CODE <==> NameIsOpen(View(fs), name)
    ensures lfnext != SYSERR_CODE ==> lfnext == FreeHandle(View(fs).handles, 0) && |View(fs).handles| == |fs.lfltab|
    ensures lfnext != SYSERR_CODE ==>
              forall f :: 0 <= f < |fs.S().dir.files| && fs.S().dir.files[f].name == name ==> fs.S().g.opener[f] == -1
  {
    ghost var s := fs.S();
    NameOpenAgrees(s, name);
    assert forall j :: 0 <= j < |fs.lfltab| ==> s.cbs[j] == fs.lfltab[j].View();
    hide Calm, Synced, NameIsOpen, Formatted;
    if lfnext == SYSERR_CODE {
      var j :| 0 <= j < |fs.lfltab| && fs.lfltab[j].lfstate && fs.lfltab[j].lfname == name;
      assert s.cbs[j].open && s.cbs[j].name == name;
    } else {
      FirstClosed(HandlesOf(s), lfnext);
      forall f | 0 <= f < |s.dir.files| && s.dir.files[f].name == name
        ensures s.g.opener[f] == -1
      {
        NotOpened(s, f);
      }
    }
  }

  /** lfsopen: create the file if it does not exist, and open it. */
  method Enter(fs: Lfs, name: string, i: nat, f: nat)
    requires fs.Shape() && fs.lf_dirpresent && Calm(fs.S()) && Synced(fs.S()) && |name| < LF_NAME_LEN
    requires i < |fs.lfltab| && !fs.lfltab[i].lfstate && f <= |fs.lf_dir.files|
    requires f < |fs.lf_dir.files| ==> fs.lf_dir.files[f].name == name && fs.S().g.opener[f] == -1
    requires f == |fs.lf_dir.files| ==> f < LF_NUM_DIR_ENT && forall h :: 0 <= h < f ==> fs.lf_dir.files[h].name != name
    modifies fs, fs.lfltab[i]
    ensures fs.Shape() && fs.lf_dirpresent && Calm(fs.S()) && Synced(fs.S())
    ensures var s := old(fs.S());
            var n := |s.dir.files|;
            && FilesOf(fs.S()) == (if f == n then FilesOf(s) + [File(name, [])] else FilesOf(s))
            && i < |HandlesOf(s)| && HandlesOf(fs.S()) == HandlesOf(s)[i := Opened(f, 0)]
            && |fs.S().ib| == |s.ib| && |fs.S().dat| == |s.dat| && fs.S().g.dp.lo == s.g.dp.lo
    ensures !fs.lfltab[i].lfibdirty && !fs.lfltab[i].lfdbdirty && fs.lf_dirdirty == old(fs.lf_dirdirty)
  {
    ghost var s := fs.S();
    assert s.cbs[i] == fs.lfltab[i].View();
    hide Calm, Synced, Formatted;
    if f == |fs.lf_dir.files| {
      CreateRefines(s, name);
      CreateOpener(s, name);
      fs.CreateEntry(name);
    }
    ghost var t := fs.S();
    OpenRefines(t, i, f);
    fs.TakeUp(i, f, name);
  }

  lemma CreateOpener(s: St, name: string)
    requires Calm(s)
    ensures |Create(s, name).g.opener| == |Create(s, name).dir.files| == |s.dir.files| + 1
    ensures Create(s, name).g.opener[|s.dir.files|] == -1 && Create(s, name).dir.files[|s.dir.files|].name == name
  {
    hide PoolOk, FileAt, CbAt, LensAt;
  }

  lemma OpenFails(a: FS, name: string, mustExist: bool, mustBeNew: bool)
    requires |name| >= LF_NAME_LEN || NameIsOpen(a, name) || FreeHandle(a.handles, 0) == |a.handles|
    ensures OpenF(a, name, mustExist, mustBeNew) == (a, SYSERR_CODE)
  {
  }

  /** The directory decides: the call fails, or the first free handle is taken. */
  ghost predicate Refused(n: nat, f: nat, mustExist: bool, mustBeNew: bool) {
    (f == n && (mustExist || n >= LF_NUM_DIR_ENT)) || (f < n && mustBeNew)
  }

  lemma OpenDecides(a: FS, b: FS, name: string, i: nat, f: nat, mustExist: bool, mustBeNew: bool)
    requires !NameIsOpen(a, name) && |name| < LF_NAME_LEN
    requires i == FreeHandle(a.handles, 0) && i < |a.handles| && f == FindName(a.files, name, 0)
    requires !Refused(|a.files|, f, mustExist, mustBeNew) ==>
               && b.files == (if f == |a.files| then a.files + [File(name, [])] else a.files)
               && b.handles == a.handles[i := Opened(f, 0)]
               && b.icap == a.icap && b.dcap == a.dcap
    requires Refused(|a.files|, f, mustExist, mustBeNew) ==> b == a
    ensures OpenF(a, name, mustExist, mustBeNew) == (b,
                                                     if Refused(|a.files|, f, mustExist,
                                                                mustBeNew) then SYSERR_CODE else i)
  {
    hide NameIsOpen, FreeHandle, FindName;
  }

  /** The states before and after the directory was searched. */
  lemma Decided(s: St, t: St, name: string, i: nat, f: nat, mustExist: bool, mustBeNew: bool)
    requires Calm(s) && Calm(t) && |name| < LF_NAME_LEN && !NameIsOpen(AbsOf(s), name)
    requires i < |s.cbs| && i == FreeHandle(AbsOf(s).handles, 0)
    requires f <= |s.dir.files| && (f < |s.dir.files| ==> s.dir.files[f].name == name)
    requires forall j :: 0 <= j < f ==> s.dir.files[j].name != name
    requires !Refused(|s.dir.files|, f, mustExist, mustBeNew) ==>
               && FilesOf(t) == (if f == |s.dir.files| then FilesOf(s) + [File(name, [])] else FilesOf(s))
               && i < |HandlesOf(s)| && HandlesOf(t) == HandlesOf(s)[i := Opened(f, 0)]
               && |t.ib| == |s.ib| && |t.dat| == |s.dat| && t.g.dp.lo == s.g.dp.lo
    requires Refused(|s.dir.files|, f, mustExist, mustBeNew) ==> t == s
    ensures OpenF(AbsOf(s), name, mustExist, mustBeNew) ==
            (AbsOf(t), if Refused(|s.dir.files|, f, mustExist, mustBeNew) then SYSERR_CODE else i)
  {
    hide Calm, Base, Sized, NoLimbo, NameIsOpen, FreeHandle, FindName, OpenF, Refused, FilesOf, HandlesOf;
    CalmIs(s);
    CalmIs(t);
    FirstEntry(s, name, f);
    assert |AbsOf(s).files| == |s.dir.files| && |AbsOf(s).handles| == |s.cbs|;
    OpenDecides(AbsOf(s), AbsOf(t), name, i, f, mustExist, mustBeNew);
  }

  /** lfsopen, from the directory on. */
  method OpenInDirectory(fs: Lfs, name: string, i: nat, mustExist: bool, mustBeNew: bool) returns (r: int)
    requires Valid(fs) && fs.lf_dirpresent && !NameIsOpen(View(fs), name) && |name| < LF_NAME_LEN
    requires i < |fs.lfltab| && !fs.lfltab[i].lfstate && i == FreeHandle(View(fs).handles, 0)
    requires forall f :: 0 <= f < |fs.S().dir.files| && fs.S().dir.files[f].name == name ==> fs.S().g.opener[f] == -1
    modifies fs, fs.lfltab[i]
    ensures Valid(fs)
    ensures (View(fs), r) == OpenF(old(View(fs)), name, mustExist, mustBeNew)
    ensures fs.lf_dirdirty == old(fs.lf_dirdirty)
    ensures r == SYSERR_CODE || (r == i && !fs.lfltab[i].lfibdirty && !fs.lfltab[i].lfdbdirty)
  {
    hide Calm, Synced, NameIsOpen, Formatted, FreeHandle, OpenF, FilesOf, HandlesOf, AbsOf, Lfs.S;
    ghost var s := fs.S();
    CalmIs(s);
    fs.Facing(i);
    var n := |fs.lf_dir.files|;
    var f := FindEntry(fs.lf_dir.files, name);
    if (f == n && (mustExist || n >= LF_NUM_DIR_ENT)) || (f < n && mustBeNew) {
      Decided(s, s, name, i, f, mustExist, mustBeNew);
      return SYSERR_CODE;
    }
    Enter(fs, name, i, f);
    Decided(s, fs.S(), name, i, f, mustExist, mustBeNew);
    r := i;
  }

  method ObtainDirectory(fs: Lfs)
    requires Valid(fs)
    modifies fs`lf_dir, fs`lf_dirpresent
    ensures Valid(fs) && fs.lf_dirpresent && View(fs) == old(View(fs))
    ensures fs.Shape() && fs.S() == old(fs.S())
  {
    hide Calm, Synced, Formatted;
    if !fs.lf_dirpresent {
      fs.LoadDirectory();
    }
  }

  /** lfsopen; mustExist and mustBeNew stand for the parsed mode. */
  method Lfsopen(fs: Lfs, name: string, mustExist: bool, mustBeNew: bool) returns (r: int)
    requires Valid(fs)
    modifies fs, fs.lfltab
    ensures Valid(fs)
    ensures (View(fs), r) == OpenF(old(View(fs)), name, mustExist, mustBeNew)
    ensures fs.lf_dirdirty == old(fs.lf_dirdirty)
    ensures 0 <= r < |fs.lfltab| ==> !fs.lfltab[r].lfibdirty && !fs.lfltab[r].lfdbdirty
  {
    hide Valid, View, NameIsOpen, FreeHandle, OpenF;
    if |name| >= LF_NAME_LEN {
      OpenFails(View(fs), name, mustExist, mustBeNew);
      return SYSERR_CODE;
    }
    var lfnext := FindBlock(fs, name);
    Found(fs, name, lfnext);
    if lfnext == SYSERR_CODE || lfnext == |fs.lfltab| {
      OpenFails(View(fs), name, mustExist, mustBeNew);
      return SYSERR_CODE;
    }
    ObtainDirectory(fs);
    r := OpenInDirectory(fs, name, lfnext, mustExist, mustBeNew);
  }
}
