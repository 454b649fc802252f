/** Shapes and constants of the local file system, after xinu-vbox/include/lfilesys.h. */
module LfsTypes {

  type byte = b: int | 0 <= b < 256

  const LF_BLKSIZ := 512        // bytes in a disk sector
  const LF_IBLEN := 16          // data-block pointers in an index block
  const LF_IDATA := 8192        // bytes of a file covered by one index block
  const LF_NULL := -1           // LF_INULL and LF_DNULL
  const LF_NAME_LEN := 16
  const LF_NUM_DIR_ENT := 20
  const IB_PER_SECTOR := 7      // 72-byte index blocks in a 512-byte sector
  const DFILL: byte := 43       // '+', the fill of a newly allocated data block
  const TWO32 := 0x1_0000_0000

  datatype IBlock = IBlock(next: int, offset: int, dba: seq<int>)

  datatype DirEntry = DirEntry(size: nat, ilist: int, name: string)

  /** lfd_nfiles is |files|; the identification fields are not modelled. */
  datatype Dir = Dir(dfree: int, ifree: int, files: seq<DirEntry>)

  /** What a sector holds. A sector that was never formatted is Raw. */
  datatype Sector =
    | Raw
    | DirSector(dir: Dir)
    | IndexSector(ibs: seq<IBlock>)
    | FreeSector(nextdb: int)
    | DataSector(bytes: seq<byte>)

  /** A snapshot of one open-file control block (struct lflcblk).
      bptr is the distance of lfbyte from the start of lfdblock. */
  datatype Cb = Cb(open: bool, file: nat, name: string, pos: nat,
                   inum: int, ib: IBlock, dnum: int, db: seq<byte>,
                   bptr: nat, idirty: bool, ddirty: bool)

  /** Results of a call. PANIC stands for the kernel stopping for want of free blocks. */
  datatype Status = OK | SYSERR | EOF | PANIC

  /** lfibclear: an index block that points nowhere. */
  function Cleared(offset: int): IBlock {
    IBlock(LF_NULL, offset, seq(LF_IBLEN, _ => LF_NULL))
  }

  function Wrap32(n: nat): nat {
    n % TWO32
  }

  /** Number of blocks of the given size that hold n bytes. */
  function Blocks(n: nat, size: nat): (r: nat)
    requires size > 0
    ensures size * r >= n && size * r < n + size
  {
    (n + size - 1) / size
  }

  function Max(a: nat, b: nat): nat {
    if a < b then b else a
  }

  /** Writing byte ch at pos of a file, which is at most its length. */
  function Overwritten(content: seq<byte>, pos: nat, ch: byte): seq<byte>
    requires pos <= |content|
  {
    if pos < |content| then content[pos := ch] else content + [ch]
  }

  lemma MulLe(size: nat, x: nat, y: nat)
    requires x <= y
    ensures size * x <= size * y
  {
  }

  lemma MulLess(size: nat, x: nat, y: nat)
    requires size * x < size * y
    ensures x < y
  {
    if y <= x {
      MulLe(size, y, x);
    }
  }

  /** The number of blocks is the least that holds n bytes. */
  lemma BlocksAre(n: nat, size: nat, r: nat)
    requires size > 0 && n <= size * r < n + size
    ensures Blocks(n, size) == r
  {
    hide Blocks;
    var b := Blocks(n, size);
    MulLess(size, b, r + 1);
    MulLess(size, r, b + 1);
  }

  lemma BlocksMono(m: nat, n: nat, size: nat)
    requires size > 0 && m <= n
    ensures Blocks(m, size) <= Blocks(n, size)
  {
    hide Blocks;
    MulLess(size, Blocks(m, size), Blocks(n, size) + 1);
  }
}
