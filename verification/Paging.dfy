/** The page tables that the system starts with: a directory and eight tables in the frames
    from 32 MB on, and the walk of the processor through them. */
module Paging {
  const PAGE_SIZE := 4096
  const PAGE_TABLE_AREA_START_ADDRESS := 0x0200_0000
  const XINU_PAGE_DIRECTORY_LENGTH := 8
  const PAGE_TABLE_ENTRIES := 1024
  const TWO32 := 0x1_0000_0000

  /** An entry of a directory or a table: whether it is present, and may be written, and the
      number of the frame. */
  datatype Entry = Entry(pres: bool, write: bool, user: bool, base: nat)

  const ABSENT := Entry(false, false, false, 0)

  /** Entry number i of the table in the frame at address a. */
  function At(a: nat, i: nat): nat {
    a + 4 * i
  }

  /** The entry at an address. */
  function Load(mem: map<nat, Entry>, a: nat): Entry {
    if a in mem then mem[a] else ABSENT
  }

  datatype Result = Fault | Frame(addr: nat)

  /** Translating an address: section 4.3 of the Intel manual, Volume 3A, for pages of 4 KB. The
      directory is at cr3. */
  function Walk(mem: map<nat, Entry>, cr3: nat, a: nat): Result {
    var pde := Load(mem, At(cr3, a / 0x40_0000));
    if !pde.pres then Fault
    else
      var pte := Load(mem, At(pde.base * PAGE_SIZE, a / PAGE_SIZE % PAGE_TABLE_ENTRIES));
      if !pte.pres then Fault else Frame(pte.base * PAGE_SIZE + a % PAGE_SIZE)
  }

  /** The frame of the directory, and of the table for entry d of it. */
  const DIRECTORY := PAGE_TABLE_AREA_START_ADDRESS

  function TableOf(d: nat): nat {
    PAGE_TABLE_AREA_START_ADDRESS + (d + 1) * PAGE_SIZE
  }

  /** What the first n entries of the table for directory entry d are to be. */
  ghost predicate Filled(mem: map<nat, Entry>, d: nat, n: nat) {
    forall i :: 0 <= i < n ==>
      At(TableOf(d), i) in mem && mem[At(TableOf(d), i)] == Entry(true, true, false, d * PAGE_TABLE_ENTRIES + i)
  }

  /** The first n entries of the directory, and no others, are present. */
  ghost predicate Directory(mem: map<nat, Entry>, n: nat) {
    forall d :: 0 <= d < PAGE_TABLE_ENTRIES ==>
      && At(DIRECTORY, d) in mem
      && mem[At(DIRECTORY, d)] == if d < n then Entry(true, true, false, TableOf(d) / PAGE_SIZE) else ABSENT
  }

  ghost predicate Tables(mem: map<nat, Entry>, n: nat) {
    Directory(mem, n) && forall d :: 0 <= d < n ==> Filled(mem, d, PAGE_TABLE_ENTRIES)
  }

  class Memory {
    var mem: map<nat, Entry>
    var next_free_pt_frame: nat
    var first_page_directory: nat

    constructor ()
      ensures next_free_pt_frame == PAGE_TABLE_AREA_START_ADDRESS
    {
      mem, next_free_pt_frame, first_page_directory := map[], PAGE_TABLE_AREA_START_ADDRESS, 0;
    }

    method GetNextFreePtFrame() returns (addr: nat)
      modifies `next_free_pt_frame
      ensures addr == old(next_free_pt_frame) && next_free_pt_frame == addr + PAGE_SIZE
    {
      addr := next_free_pt_frame;
      next_free_pt_frame := next_free_pt_frame + PAGE_SIZE;
    }

    /** memset: all entries of a frame are absent. */
    method ClearFrame(a: nat)
      modifies `mem
      ensures forall i :: 0 <= i < PAGE_TABLE_ENTRIES ==> At(a, i) in mem && mem[At(a, i)] == ABSENT
      ensures forall x :: x in old(mem) && (x < a || x >= a + PAGE_SIZE) ==> x in mem && mem[x] == old(mem)[x]
    {
      var i := 0;
      while i < PAGE_TABLE_ENTRIES
        invariant 0 <= i <= PAGE_TABLE_ENTRIES
        invariant forall j :: 0 <= j < i ==> At(a, j) in mem && mem[At(a, j)] == ABSENT
        invariant forall x :: x in old(mem) && (x < a || x >= a + PAGE_SIZE) ==> x in mem && mem[x] == old(mem)[x]
      {
        mem := mem[At(a, i) := ABSENT];
        i := i + 1;
      }
    }

    /** The table for entry d of the directory. */
    method FillTable(d: nat)
      requires d < XINU_PAGE_DIRECTORY_LENGTH
      modifies `mem
      ensures Filled(mem, d, PAGE_TABLE_ENTRIES)
      ensures forall x :: x in old(mem) && (x < TableOf(d) || x >= TableOf(d) + PAGE_SIZE) ==>
                x in mem && mem[x] == old(mem)[x]
    {
      var i := 0;
      while i < PAGE_TABLE_ENTRIES
        invariant 0 <= i <= PAGE_TABLE_ENTRIES && Filled(mem, d, i)
        invariant forall x :: x in old(mem) && (x < TableOf(d) || x >= TableOf(d) + PAGE_SIZE) ==>
                    x in mem && mem[x] == old(mem)[x]
      {
        var phy_frame := (d * 1024 + i) * PAGE_SIZE;
        mem := mem[At(TableOf(d), i) := Entry(true, true, false, phy_frame / PAGE_SIZE)];
        i := i + 1;
      }
    }

    method PageTableInit()
      requires next_free_pt_frame == PAGE_TABLE_AREA_START_ADDRESS
      modifies this
      ensures first_page_directory == DIRECTORY && Tables(mem, XINU_PAGE_DIRECTORY_LENGTH)
      ensures next_free_pt_frame == TableOf(XINU_PAGE_DIRECTORY_LENGTH)
    {
      hide Filled, Directory;
      var pdbr := GetNextFreePtFrame();
      ClearFrame(pdbr);
      first_page_directory := pdbr;
      NoneYet(mem);
      var d := 0;
      while d < XINU_PAGE_DIRECTORY_LENGTH
        invariant 0 <= d <= XINU_PAGE_DIRECTORY_LENGTH && Tables(mem, d)
        invariant pdbr == first_page_directory == DIRECTORY && next_free_pt_frame == TableOf(d)
      {
        var page_table := GetNextFreePtFrame();
        ghost var was := mem;
        ClearFrame(page_table);
        mem := mem[At(pdbr, d) := Entry(true, true, false, page_table / PAGE_SIZE)];
        FillTable(d);
        OneMore(was, mem, d);
        d := d + 1;
      }
    }
  }

  lemma NoneYet(mem: map<nat, Entry>)
    requires forall i :: 0 <= i < PAGE_TABLE_ENTRIES ==> At(DIRECTORY, i) in mem && mem[At(DIRECTORY, i)] == ABSENT
    ensures Directory(mem, 0)
  {
  }

  /** Another table, in a frame of its own, and its entry in the directory. */
  lemma OneMore(was: map<nat, Entry>, mem: map<nat, Entry>, d: nat)
    requires d < XINU_PAGE_DIRECTORY_LENGTH && Tables(was, d) && Filled(mem, d, PAGE_TABLE_ENTRIES)
    requires At(DIRECTORY, d) in mem && mem[At(DIRECTORY, d)] == Entry(true, true, false, TableOf(d) / PAGE_SIZE)
    requires forall x :: x in was && (x < TableOf(d) || x >= TableOf(d) + PAGE_SIZE) && x != At(DIRECTORY, d) ==>
               x in mem && mem[x] == was[x]
    ensures Tables(mem, d + 1)
  {
    forall e | 0 <= e < d
      ensures Filled(mem, e, PAGE_TABLE_ENTRIES)
    {
      assert Filled(was, e, PAGE_TABLE_ENTRIES);
    }
  }

  /** Then every address below 32 MB stands for itself, and any other is a fault. */
  lemma WalkExactly(mem: map<nat, Entry>, a: nat)
    requires Tables(mem, XINU_PAGE_DIRECTORY_LENGTH) && a < TWO32
    ensures Walk(mem, DIRECTORY, a) == if a < PAGE_TABLE_AREA_START_ADDRESS then Frame(a) else Fault
  {
    var d, i := a / 0x40_0000, a / PAGE_SIZE % PAGE_TABLE_ENTRIES;
    assert d * PAGE_TABLE_ENTRIES + i == a / PAGE_SIZE;
    if d < XINU_PAGE_DIRECTORY_LENGTH {
      assert Filled(mem, d, PAGE_TABLE_ENTRIES);
    }
  }

  /** So nothing can be reached of the directory and the tables, which lie in nine frames of
      their own. */
  lemma TablesOutOfReach(mem: map<nat, Entry>, a: nat, d: nat)
    requires Tables(mem, XINU_PAGE_DIRECTORY_LENGTH) && a < TWO32 && d < XINU_PAGE_DIRECTORY_LENGTH
    ensures var r := Walk(mem, DIRECTORY, a);
            r.Frame? ==> r.addr < DIRECTORY && DIRECTORY + PAGE_SIZE <= TableOf(d)
    ensures forall e :: 0 <= e < d ==> TableOf(e) + PAGE_SIZE <= TableOf(d)
  {
    WalkExactly(mem, a);
  }
}
