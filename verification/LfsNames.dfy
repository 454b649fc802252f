/** What every call on a local file answers and does, file by file and handle by handle. */
module LfsNames {
  import opened LfsTypes
  import opened LfsSpec
  import opened LfsLaws

  /** A file of that name is in the directory. */
  ghost predicate Exists(a: FS, name: string) {
    exists f :: 0 <= f < |a.files| && a.files[f].name == name
  }

  /** Some handle is open on a file of that name. */
  ghost predicate HeldOpen(a: FS, name: string) {
    exists j, f :: 0 <= j < |a.handles| && 0 <= f < |a.files| && OpenedBy(a, j, f) && a.files[f].name == name
  }

  ghost predicate AllOpen(a: FS) {
    forall j :: 0 <= j < |a.handles| ==> a.handles[j].Opened?
  }

  /** Opening is refused for a name that is too long or open already, if all handles are in
      use, if the file exists and must be new, or if it does not exist and must, or cannot
      be entered in the directory. */
  lemma OpenRefused(a: FS, name: string, mustExist: bool, mustBeNew: bool)
    requires WellFormed(a)
    ensures OpenF(a, name, mustExist, mustBeNew).1 == -1 <==>
            || |name| >= 16
            || HeldOpen(a, name)
            || AllOpen(a)
            || (Exists(a, name) && mustBeNew)
            || (!Exists(a, name) && (mustExist || |a.files| >= 20))
    ensures OpenF(a, name, mustExist, mustBeNew).1 == -1 ==> OpenF(a, name, mustExist, mustBeNew).0 == a
  {
    HeldIs(a, name);
  }

  lemma HeldIs(a: FS, name: string)
    requires WellFormed(a)
    ensures HeldOpen(a, name) <==> NameIsOpen(a, name)
  {
    if NameIsOpen(a, name) {
      var i :| 0 <= i < |a.handles| && IsOpen(a, i) && a.files[a.handles[i].file].name == name;
      assert OpenedBy(a, i, a.handles[i].file);
    }
  }

  /** With 'n' only a file that was not there is opened, with 'o' only one that was; a new
      file is empty and the last of the directory, and nothing else changes there. The
      handle is the first closed one, and is at the beginning of the file of that name. */
  lemma OpenGives(a: FS, name: string, mustExist: bool, mustBeNew: bool)
    requires WellFormed(a) && OpenF(a, name, mustExist, mustBeNew).1 != -1
    ensures mustBeNew ==> !Exists(a, name)
    ensures mustExist ==> Exists(a, name)
    ensures var (b, r) := OpenF(a, name, mustExist, mustBeNew);
            && b.files == (if Exists(a, name) then a.files else a.files + [File(name, [])])
            && 0 <= r < |a.handles| == |b.handles| && a.handles[r].Closed?
            && (forall j :: 0 <= j < r ==> a.handles[j].Opened?)
            && (forall j :: 0 <= j < |a.handles| && j != r ==> b.handles[j] == a.handles[j])
            && b.handles[r].Opened? && b.handles[r].pos == 0 && b.handles[r].file < |b.files|
            && b.files[b.handles[r].file].name == name
            && b.icap == a.icap && b.dcap == a.dcap
  {
    HeldIs(a, name);
    OpenRefused(a, name, mustExist, mustBeNew);
  }

  /** A file that exists is not opened with mode n, though a handle is free. */
  lemma NewIsNew()
    ensures OpenF(FS([File("a", [7])], [Closed], 9, 9), "a", false, true) ==
            (FS([File("a", [7])], [Closed], 9, 9), -1)
  {
    var a := FS([File("a", [7])], [Closed], 9, 9);
    assert a.files[0].name == "a";
    OpenRefused(a, "a", false, true);
  }

  /** Nothing but handle i, and of the file behind it at most the contents, is different. */
  ghost predicate OnlyHandle(a: FS, b: FS, i: nat) {
    && |b.files| == |a.files| && |b.handles| == |a.handles| && b.icap == a.icap && b.dcap == a.dcap
    && (forall j :: 0 <= j < |a.handles| && j != i ==> b.handles[j] == a.handles[j])
    && (forall f :: 0 <= f < |a.files| ==> b.files[f].name == a.files[f].name)
    && (forall f :: 0 <= f < |a.files| && !OpenedBy(a, i, f) ==> b.files[f] == a.files[f])
  }

  /** lflseek is refused on a closed handle and behind the end of the file; otherwise it
      sets the position, and no file is different. */
  lemma SeekGives(a: FS, i: nat, offset: nat)
    requires WellFormed(a)
    ensures var (b, r) := SeekTo(a, i, offset);
            if i < |a.handles| && a.handles[i].Opened? && offset <= |a.files[a.handles[i].file].content| then
              && r == OK && OnlyHandle(a, b, i) && b.files == a.files
              && b.handles[i] == Opened(a.handles[i].file, offset)
            else r == SYSERR && b == a
  {
    assert i < |a.handles| && a.handles[i].Opened? ==> IsOpen(a, i);
  }

  /** lflclose is refused on a closed handle; otherwise the handle is closed, and no file
      is different. */
  lemma CloseGives(a: FS, i: nat)
    requires WellFormed(a)
    ensures var (b, r) := CloseF(a, i);
            if i < |a.handles| && a.handles[i].Opened? then
              r == OK && OnlyHandle(a, b, i) && b.files == a.files && b.handles[i].Closed?
            else r == SYSERR && b == a
  {
    assert i < |a.handles| && a.handles[i].Opened? ==> IsOpen(a, i);
  }

  /** lftruncate is refused on a closed handle; otherwise its file is empty, and it is at
      the beginning. */
  lemma TruncateGives(a: FS, i: nat)
    requires WellFormed(a)
    ensures var (b, r) := Truncate(a, i);
            if i < |a.handles| && a.handles[i].Opened? then
              && r == OK && OnlyHandle(a, b, i) && b.handles[i] == Opened(a.handles[i].file, 0)
              && |b.files[a.handles[i].file].content| == 0
            else r == SYSERR && b == a
  {
    assert i < |a.handles| && a.handles[i].Opened? ==> IsOpen(a, i);
  }

  /** lflputc is refused on a closed handle, and otherwise is done if the disk can hold the
      file with it: the byte stands at the position, which moves on by one; every other
      byte is what it was. */
  lemma PutGives(a: FS, i: nat, ch: byte)
    requires WellFormed(a) && Within(a)
    ensures !(i < |a.handles| && a.handles[i].Opened?) ==> PutC(a, i, ch) == (a, SYSERR)
    ensures i < |a.handles| && a.handles[i].Opened? ==>
              var (h, b) := (a.handles[i], PutC(a, i, ch).0);
              var c := a.files[h.file].content;
              if Fits(a, i, Max(|c|, h.pos + 1)) then
                && PutC(a, i, ch).1 == OK && OnlyHandle(a, b, i) && b.handles[i] == Opened(h.file, h.pos + 1)
                && |b.files[h.file].content| == Max(|c|, h.pos + 1) && b.files[h.file].content[h.pos] == ch
                && forall x :: 0 <= x < |c| && x != h.pos ==> b.files[h.file].content[x] == c[x]
              else PutC(a, i, ch) == (a, PANIC)
  {
    if i < |a.handles| && a.handles[i].Opened? {
      assert IsOpen(a, i);
      PutFits(a, i, ch);
    }
  }

  /** lflgetc is refused on a closed handle, and answers EOF at the end of the file;
      otherwise it answers the byte at the position, which moves on by one. */
  lemma GetGives(a: FS, i: nat)
    requires WellFormed(a)
    ensures !(i < |a.handles| && a.handles[i].Opened?) ==> GetC(a, i) == (a, -1)
    ensures i < |a.handles| && a.handles[i].Opened? ==>
              var (h, b) := (a.handles[i], GetC(a, i).0);
              var c := a.files[h.file].content;
              if h.pos == |c| then GetC(a, i) == (a, -2)
              else
                && GetC(a, i).1 == c[h.pos] && OnlyHandle(a, b, i) && b.files == a.files
                && b.handles[i] == Opened(h.file, h.pos + 1)
  {
    assert i < |a.handles| && a.handles[i].Opened? ==> IsOpen(a, i);
  }

  /** lflwrite and lflread on a closed handle: nothing is written or read. */
  lemma ClosedRefuses(a: FS, i: nat, buff: seq<byte>, count: nat)
    requires WellFormed(a) && !(i < |a.handles| && a.handles[i].Opened?)
    ensures WriteF(a, i, buff) == (a, if |buff| == 0 then OK else SYSERR)
    ensures ReadF(a, i, count) == (a, [], if count == 0 then 0 else -1)
  {
  }

  /** Opened for reading, a file that nobody holds gives its bytes from the first on. */
  lemma OpenReads(a: FS, f: nat, count: nat)
    requires WellFormed(a) && f < |a.files| && NobodyHolds(a, f) && !AllOpen(a) && 0 < count
    ensures OpenF(a, a.files[f].name, true, false).1 >= 0
    ensures var (b, r) := OpenF(a, a.files[f].name, true, false);
            var c := a.files[f].content;
            var (d, data, n) := ReadF(b, r, count);
            && data == c[..if count <= |c| then count else |c|]
            && n == (if |c| == 0 then -2 else |data|) && d.files == a.files
  {
    var name := a.files[f].name;
    assert Exists(a, name);
    HeldIs(a, name);
    forall j, g | 0 <= j < |a.handles| && 0 <= g < |a.files| && OpenedBy(a, j, g)
      ensures a.files[g].name != name
    {
    }
    OpenRefused(a, name, true, false);
    var (b, r) := OpenF(a, name, true, false);
    assert b.handles[r] == Opened(f, 0);
    ReadIs(b, r, count);
  }
}
