/** The local file system as its users see it: named byte sequences, and for each open
    file a position. Also here: what this view promises, as laws about its operations. */
module LfsSpec {
  import opened LfsTypes

  datatype File = File(name: string, content: seq<byte>)

  datatype Handle = Closed | Opened(file: nat, pos: nat)

  /** icap and dcap are the numbers of index and data blocks on the disk. */
  datatype FS = FS(files: seq<File>, handles: seq<Handle>, icap: nat, dcap: nat)

  const SYSERR_CODE := -1
  const EOF_CODE := -2

  /** Blocks that the files occupy. */
  function Occupied(files: seq<File>, size: nat): nat
    requires size > 0
  {
    if |files| == 0 then 0
    else Occupied(files[..|files| - 1], size) + Blocks(|files[|files| - 1].content|, size)
  }

  predicate IsOpen(a: FS, i: nat) {
    i < |a.handles| && a.handles[i].Opened? && a.handles[i].file < |a.files|
    && a.handles[i].pos <= |a.files[a.handles[i].file].content|
  }

  /** The byte at the position of an open file is in a block that cannot be had. */
  predicate Full(a: FS, i: nat)
    requires IsOpen(a, i)
  {
    var pos := a.handles[i].pos;
    && pos == |a.files[a.handles[i].file].content|
    && ((pos % LF_IDATA == 0 && Occupied(a.files, LF_IDATA) == a.icap) ||
        (pos % LF_BLKSIZ == 0 && Occupied(a.files, LF_BLKSIZ) == a.dcap))
  }

  function PutC(a: FS, i: nat, ch: byte): (FS, Status) {
    if !IsOpen(a, i) then (a, SYSERR)
    else if Full(a, i) then (a, PANIC)
    else
      var h := a.handles[i];
      var file := a.files[h.file];
      (a.(files := a.files[h.file := file.(content := Overwritten(file.content, h.pos, ch))],
          handles := a.handles[i := h.(pos := h.pos + 1)]), OK)
  }

  function GetC(a: FS, i: nat): (FS, int) {
    if !IsOpen(a, i) then (a, SYSERR_CODE)
    else
      var h := a.handles[i];
      var content := a.files[h.file].content;
      if h.pos >= |content| then (a, EOF_CODE)
      else (a.(handles := a.handles[i := h.(pos := h.pos + 1)]), content[h.pos])
  }

  function SeekTo(a: FS, i: nat, offset: nat): (FS, Status) {
    if !IsOpen(a, i) || offset > |a.files[a.handles[i].file].content| then (a, SYSERR)
    else (a.(handles := a.handles[i := a.handles[i].(pos := offset)]), OK)
  }

  function Truncate(a: FS, i: nat): (FS, Status) {
    if !IsOpen(a, i) then (a, SYSERR)
    else
      var h := a.handles[i];
      (a.(files := a.files[h.file := a.files[h.file].(content := [])],
          handles := a.handles[i := h.(pos := 0)]), OK)
  }

  function CloseF(a: FS, i: nat): (FS, Status) {
    if !IsOpen(a, i) then (a, SYSERR) else (a.(handles := a.handles[i := Closed]), OK)
  }

  /** The first free handle from i on, or |handles|. */
  function FreeHandle(handles: seq<Handle>, i: nat): (r: nat)
    requires i <= |handles|
    ensures i <= r <= |handles| && (r < |handles| ==> handles[r].Closed?)
    ensures forall j :: i <= j < r ==> handles[j].Opened?
    decreases |handles| - i
  {
    if i == |handles| || handles[i].Closed? then i else FreeHandle(handles, i + 1)
  }

  /** The first file of that name from f on, or |files|. */
  function FindName(files: seq<File>, name: string, f: nat): (r: nat)
    requires f <= |files|
    ensures f <= r <= |files| && (r < |files| ==> files[r].name == name)
    ensures forall g :: f <= g < r ==> files[g].name != name
    decreases |files| - f
  {
    if f == |files| || files[f].name == name then f else FindName(files, name, f + 1)
  }

  predicate NameIsOpen(a: FS, name: string) {
    exists i :: 0 <= i < |a.handles| && IsOpen(a, i) && a.files[a.handles[i].file].name == name
  }

  /** Opening a file; mustExist and mustBeNew are the mode characters 'o' and 'n'. The
      result is a handle, or SYSERR_CODE. */
  function OpenF(a: FS, name: string, mustExist: bool, mustBeNew: bool): (FS, int) {
    var i := FreeHandle(a.handles, 0);
    var f := FindName(a.files, name, 0);
    if |name| >= LF_NAME_LEN || NameIsOpen(a, name) || i == |a.handles| then (a, SYSERR_CODE)
    else if f < |a.files| then
      if mustBeNew then (a, SYSERR_CODE) else (a.(handles := a.handles[i := Opened(f, 0)]), i)
    else if mustExist || |a.files| >= LF_NUM_DIR_ENT then (a, SYSERR_CODE)
    else (a.(files := a.files + [File(name, [])], handles := a.handles[i := Opened(f, 0)]), i)
  }

  /** lflwrite: bytes one at a time until one fails. */
  function WriteF(a: FS, i: nat, buff: seq<byte>): (FS, Status)
    decreases |buff|
  {
    if |buff| == 0 then (a, OK)
    else
      var (b, r) := PutC(a, i, buff[0]);
      if r == OK then WriteF(b, i, buff[1..]) else (b, r)
  }

  /** lflread: at most count bytes, as far as the file goes. */
  function ReadF(a: FS, i: nat, count: nat): (r: (FS, seq<byte>, int))
    ensures |r.1| <= count && r.2 in {SYSERR_CODE, EOF_CODE, |r.1|}
    ensures r.2 < 0 && |r.1| > 0 ==> r.2 == SYSERR_CODE
    decreases count
  {
    if count == 0 then (a, [], 0)
    else
      var (b, c) := GetC(a, i);
      if c == SYSERR_CODE then (b, [], SYSERR_CODE)
      else if c == EOF_CODE then (b, [], EOF_CODE)
      else
        var (d, rest, n) := ReadF(b, i, count - 1);
        (d, [c as byte] + rest, if n == SYSERR_CODE then n else if n == EOF_CODE then 1 else n + 1)
  }
}
