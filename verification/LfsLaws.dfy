/** What users of the file system may rely on, over single calls and over whole runs. */
module LfsLaws {
  import opened LfsTypes
  import opened LfsSpec

  /** Names are distinct and short, and no file is open twice. */
  ghost predicate WellFormed(a: FS) {
    && |a.files| <= LF_NUM_DIR_ENT
    && (forall f :: 0 <= f < |a.files| ==> |a.files[f].name| < LF_NAME_LEN)
    && (forall f, h :: 0 <= f < h < |a.files| ==> a.files[f].name != a.files[h].name)
    && (forall i :: 0 <= i < |a.handles| && a.handles[i].Opened? ==> IsOpen(a, i))
    && (forall i, j :: 0 <= i < j < |a.handles| && a.handles[i].Opened? && a.handles[j].Opened? ==>
          a.handles[i].file != a.handles[j].file)
  }

  datatype Op =
    | DoOpen(name: string, mustExist: bool, mustBeNew: bool)
    | DoClose(i: nat)
    | DoPut(i: nat, ch: byte)
    | DoGet(i: nat)
    | DoSeek(i: nat, offset: nat)
    | DoTruncate(i: nat)
    | DoWrite(i: nat, buff: seq<byte>)
    | DoRead(i: nat, count: nat)

  datatype Res = Stat(status: Status) | Code(code: int) | Data(bytes: seq<byte>, n: int)

  function Do(a: FS, op: Op): (FS, Res) {
    match op
    case DoOpen(name, mustExist, mustBeNew) => var (b, r) := OpenF(a, name, mustExist, mustBeNew); (b, Code(r))
    case DoClose(i) => var (b, r) := CloseF(a, i); (b, Stat(r))
    case DoPut(i, ch) => var (b, r) := PutC(a, i, ch); (b, Stat(r))
    case DoGet(i) => var (b, r) := GetC(a, i); (b, Code(r))
    case DoSeek(i, offset) => var (b, r) := SeekTo(a, i, offset); (b, Stat(r))
    case DoTruncate(i) => var (b, r) := Truncate(a, i); (b, Stat(r))
    case DoWrite(i, buff) => var (b, r) := WriteF(a, i, buff); (b, Stat(r))
    case DoRead(i, count) => var (b, data, n) := ReadF(a, i, count); (b, Data(data, n))
  }

  /** A run ends with its last call or when the kernel stops for want of blocks. */
  function Run(a: FS, ops: seq<Op>): (FS, seq<Res>)
    decreases |ops|
  {
    if |ops| == 0 then (a, [])
    else
      var (b, r) := Do(a, ops[0]);
      if r == Stat(PANIC) then (b, [r])
      else
        var (c, rs) := Run(b, ops[1..]);
        (c, [r] + rs)
  }

  /** File f looks the same, and is open only if it was. */
  ghost predicate SameFile(a: FS, b: FS, f: nat) {
    && f < |a.files| && f < |b.files| && b.files[f] == a.files[f]
    && |b.handles| == |a.handles|
    && forall j :: 0 <= j < |a.handles| && b.handles[j].Opened? && b.handles[j].file == f ==>
       a.handles[j] == b.handles[j]
  }

  /** The handle a call works on. */
  function Target(op: Op): nat {
    if op.DoOpen? then 0 else op.i
  }

  ghost predicate OpenedBy(a: FS, i: nat, f: nat) {
    i < |a.handles| && a.handles[i].Opened? && a.handles[i].file == f
  }

  ghost predicate NobodyHolds(a: FS, f: nat) {
    forall i :: 0 <= i < |a.handles| ==> !OpenedBy(a, i, f)
  }

  lemma {:induction false} WriteKeeps(a: FS, i: nat, buff: seq<byte>, f: nat)
    requires f < |a.files| && !OpenedBy(a, i, f)
    ensures SameFile(a, WriteF(a, i, buff).0, f) && !OpenedBy(WriteF(a, i, buff).0, i, f)
    decreases |buff|
  {
    if |buff| > 0 {
      var (b, r) := PutC(a, i, buff[0]);
      assert SameFile(a, b, f) && !OpenedBy(b, i, f);
      if r == OK {
        WriteKeeps(b, i, buff[1..], f);
      }
    }
  }

  lemma {:induction false} ReadKeeps(a: FS, i: nat, count: nat, f: nat)
    requires f < |a.files|
    ensures ReadF(a, i, count).0.files == a.files
    ensures !OpenedBy(a, i, f) ==> SameFile(a, ReadF(a, i, count).0, f) && !OpenedBy(ReadF(a, i, count).0, i, f)
    decreases count
  {
    if count > 0 {
      var (b, c) := GetC(a, i);
      if c >= 0 {
        ReadKeeps(b, i, count - 1, f);
      }
    }
  }

  /** A call changes no file but the one its handle holds; opening changes none. */
  lemma OnlyTarget(a: FS, op: Op, f: nat)
    requires f < |a.files| && (op.DoOpen? || !OpenedBy(a, Target(op), f))
    requires op.DoOpen? ==> op.name != a.files[f].name
    ensures SameFile(a, Do(a, op).0, f)
  {
    match op
    case DoOpen(name, mustExist, mustBeNew) =>
    case DoClose(i) =>
    case DoPut(i, ch) =>
    case DoGet(i) =>
    case DoSeek(i, offset) =>
    case DoTruncate(i) =>
    case DoWrite(i, buff) => WriteKeeps(a, i, buff, f);
    case DoRead(i, count) => ReadKeeps(a, i, count, f);
  }

  /** A file that nobody holds survives every run in which its name is not opened. */
  lemma {:induction false} Survives(a: FS, ops: seq<Op>, f: nat)
    requires f < |a.files| && NobodyHolds(a, f)
    requires forall k :: 0 <= k < |ops| && ops[k].DoOpen? ==> ops[k].name != a.files[f].name
    ensures f < |Run(a, ops).0.files| && Run(a, ops).0.files[f] == a.files[f] && NobodyHolds(Run(a, ops).0, f)
    decreases |ops|
  {
    if |ops| > 0 {
      var b := Do(a, ops[0]).0;
      OnlyTarget(a, ops[0], f);
      forall i | 0 <= i < |b.handles|
        ensures !OpenedBy(b, i, f)
      {
        assert !OpenedBy(a, i, f);
      }
      Survives(b, ops[1..], f);
    }
  }

  /** What a file holds after buff was written at pos. */
  function Patched(content: seq<byte>, pos: nat, buff: seq<byte>): seq<byte>
    requires pos <= |content|
  {
    content[..pos] + buff + (if pos + |buff| <= |content| then content[pos + |buff|..] else [])
  }

  /** A write that succeeds puts all its bytes at the position, moves the position past
      them, and does nothing else. */
  lemma {:induction false} WriteIs(a: FS, i: nat, buff: seq<byte>)
    requires IsOpen(a, i) && WriteF(a, i, buff).1 == OK
    ensures var h := a.handles[i];
            var file := a.files[h.file];
            WriteF(a, i, buff).0 ==
            a.(files := a.files[h.file := file.(content := Patched(file.content, h.pos, buff))],
               handles := a.handles[i := h.(pos := h.pos + |buff|)])
    decreases |buff|
  {
    var h := a.handles[i];
    var c := a.files[h.file].content;
    if |buff| == 0 {
      assert Patched(c, h.pos, buff) == c;
    } else {
      var b := PutC(a, i, buff[0]).0;
      WriteIs(b, i, buff[1..]);
      PatchedOn(c, h.pos, buff);
    }
  }

  lemma PatchedOn(c: seq<byte>, pos: nat, buff: seq<byte>)
    requires pos <= |c| && |buff| > 0
    ensures Patched(Overwritten(c, pos, buff[0]), pos + 1, buff[1..]) == Patched(c, pos, buff)
  {
    assert [buff[0]] + buff[1..] == buff;
  }

  lemma SliceHead(c: seq<byte>, pos: nat, n: nat)
    requires 0 < n && pos + n <= |c|
    ensures c[pos..pos + n] == [c[pos]] + c[pos + 1..pos + n]
  {
  }

  /** A read delivers the bytes from the position on, as far as count and the file go;
      at the end of the file it reports so. */
  lemma {:induction false} ReadIs(a: FS, i: nat, count: nat)
    requires IsOpen(a, i)
    ensures var h := a.handles[i];
            var c := a.files[h.file].content;
            var n := if h.pos + count <= |c| then count else |c| - h.pos;
            ReadF(a, i, count) ==
            (a.(handles := a.handles[i := h.(pos := h.pos + n)]), c[h.pos..h.pos + n],
             if count > 0 && n == 0 then EOF_CODE else n)
    decreases count
  {
    var h := a.handles[i];
    var c := a.files[h.file].content;
    if count > 0 && h.pos < |c| {
      ReadIs(GetC(a, i).0, i, count - 1);
      ReadOne(a, i, count);
      SliceHead(c, h.pos, if h.pos + count <= |c| then count else |c| - h.pos);
    } else {
      assert a.handles[i := h.(pos := h.pos + 0)] == a.handles && c[h.pos..h.pos + 0] == [];
    }
  }

  /** The first byte of a read. */
  lemma ReadOne(a: FS, i: nat, count: nat)
    requires IsOpen(a, i) && count > 0 && a.handles[i].pos < |a.files[a.handles[i].file].content|
    ensures var h, b := a.handles[i], GetC(a, i).0;
            && b == a.(handles := a.handles[i := h.(pos := h.pos + 1)]) && IsOpen(b, i)
            && forall k :: b.handles[i := h.(pos := k)] == a.handles[i := h.(pos := k)]
    ensures var h := a.handles[i];
            var (d, rest, n) := ReadF(GetC(a, i).0, i, count - 1);
            ReadF(a, i, count) == (d, [a.files[h.file].content[h.pos]] + rest,
                                   if n == SYSERR_CODE then n else if n == EOF_CODE then 1 else n + 1)
  {
  }

  lemma OccupiedUpdate(files: seq<File>, f: nat, file: File, size: nat)
    requires f < |files| && size > 0
    ensures Occupied(files[f := file], size) ==
            Occupied(files, size) - Blocks(|files[f].content|, size) + Blocks(|file.content|, size)
    decreases |files|
  {
    var n := |files| - 1;
    if f == n {
      assert files[f := file][..n] == files[..n];
    } else {
      assert files[f := file][..n] == files[..n][f := file];
      OccupiedUpdate(files[..n], f, file, size);
    }
  }

  lemma BlocksGrow(n: nat, size: nat)
    requires size > 1
    ensures Blocks(n + 1, size) == Blocks(n, size) + if n % size == 0 then 1 else 0
  {
    var q := n / size;
    assert n == size * q + n % size;
    if n % size == 0 {
      BlocksAre(n, size, q);
      BlocksAre(n + 1, size, q + 1);
    } else {
      BlocksAre(n, size, q + 1);
      BlocksAre(n + 1, size, q + 1);
    }
  }

  /** The disk has blocks enough to let the file behind handle i grow to n bytes. */
  ghost predicate Fits(a: FS, i: nat, n: nat)
    requires IsOpen(a, i)
  {
    var c := |a.files[a.handles[i].file].content|;
    && Occupied(a.files, LF_IDATA) - Blocks(c, LF_IDATA) + Blocks(n, LF_IDATA) <= a.icap
    && Occupied(a.files, LF_BLKSIZ) - Blocks(c, LF_BLKSIZ) + Blocks(n, LF_BLKSIZ) <= a.dcap
  }

  ghost predicate Within(a: FS) {
    Occupied(a.files, LF_IDATA) <= a.icap && Occupied(a.files, LF_BLKSIZ) <= a.dcap
  }

  lemma PutFits(a: FS, i: nat, ch: byte)
    requires IsOpen(a, i) && Within(a)
    ensures var n := Max(|a.files[a.handles[i].file].content|, a.handles[i].pos + 1);
            PutC(a, i, ch).1 == if Fits(a, i, n) then OK else PANIC
    ensures PutC(a, i, ch).1 == OK ==> Within(PutC(a, i, ch).0)
    ensures PutC(a, i, ch).1 == OK ==> forall m :: Fits(PutC(a, i, ch).0, i, m) <==> Fits(a, i, m)
  {
    var h := a.handles[i];
    var c := a.files[h.file].content;
    BlocksGrow(|c|, LF_IDATA);
    BlocksGrow(|c|, LF_BLKSIZ);
    if !Full(a, i) {
      var file := a.files[h.file].(content := Overwritten(c, h.pos, ch));
      OccupiedUpdate(a.files, h.file, file, LF_IDATA);
      OccupiedUpdate(a.files, h.file, file, LF_BLKSIZ);
    }
  }

  lemma FitsLess(a: FS, i: nat, m: nat, n: nat)
    requires IsOpen(a, i) && m <= n && Fits(a, i, n)
    ensures Fits(a, i, m)
  {
    BlocksMono(m, n, LF_IDATA);
    BlocksMono(m, n, LF_BLKSIZ);
  }

  /** A write succeeds exactly when the disk has blocks for the length the file will
      have; otherwise the kernel stops. */
  lemma {:induction false} WriteFits(a: FS, i: nat, buff: seq<byte>)
    requires IsOpen(a, i) && Within(a)
    ensures var n := Max(|a.files[a.handles[i].file].content|, a.handles[i].pos + |buff|);
            WriteF(a, i, buff).1 == if Fits(a, i, n) then OK else PANIC
    decreases |buff|
  {
    if |buff| > 0 {
      hide Fits, Within, Full;
      var c, p := |a.files[a.handles[i].file].content|, a.handles[i].pos;
      PutFits(a, i, buff[0]);
      var (b, r) := PutC(a, i, buff[0]);
      if r == OK {
        WriteFits(b, i, buff[1..]);
      } else if Fits(a, i, Max(c, p + |buff|)) {
        FitsLess(a, i, Max(c, p + 1), Max(c, p + |buff|));
      }
    }
  }

  /** What was written is there after the file is closed, opened again under its name,
      and read from the same place. */
  lemma WriteCloseOpenRead(a: FS, i: nat, buff: seq<byte>)
    requires WellFormed(a) && IsOpen(a, i) && WriteF(a, i, buff).1 == OK && |buff| > 0
    ensures var name, pos := a.files[a.handles[i].file].name, a.handles[i].pos;
            var b := WriteF(a, i, buff).0;
            var c := CloseF(b, i).0;
            var (d, j) := OpenF(c, name, true, false);
            && 0 <= j < |d.handles| && SeekTo(d, j, pos).1 == OK
            && ReadF(SeekTo(d, j, pos).0, j, |buff|).1 == buff
            && ReadF(SeekTo(d, j, pos).0, j, |buff|).2 == |buff|
  {
    var h := a.handles[i];
    var name, pos := a.files[h.file].name, h.pos;
    WriteIs(a, i, buff);
    var b := WriteF(a, i, buff).0;
    var c := CloseF(b, i).0;
    assert c.handles[i].Closed?;
    assert c.files[h.file].name == name;
    assert FindName(c.files, name, 0) == h.file;
    assert !NameIsOpen(c, name);
    var (d, j) := OpenF(c, name, true, false);
    var e := SeekTo(d, j, pos).0;
    ReadIs(e, j, |buff|);
    var content := e.files[h.file].content;
    assert content[pos..pos + |buff|] == buff;
  }
}
