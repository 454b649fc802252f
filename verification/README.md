# Xinu kernel: a verified model

Xinu keeps files in blocks on a disk, processes on linked lists in one table, messages in
nodes shared by all ports, and free memory in a list threaded through the memory itself. This
project models that code in Dafny, in the form it has (tables, arrays, headers and links
that calls update in place), and proves what the rest of the system relies on: what every call
does, what every step keeps, and what holds over whole runs.

| part | modules |
|---|---|
| local file system on a block disk | `Lfs*` |
| queues, processes, semaphores, the clock | `Kernel*` |
| ports | `Port*` |
| buffer pools | `Buf*` |
| the heap | `Heap*` |
| sorting | `Sorting` |
| domain names in messages | `Dns`, `DnsLaws` |
| decimal numerals | `Decimal`, `DecimalField` |
| the first page tables | `Paging` |

In each of the first five parts there is a state machine on plain sequences (`...Spec`), a
class whose methods work on the tables as the source does and are proved to make the same
transitions (`LfsDevice` and `LfsCalls`, `KernelTables` over `KernelQueues`, `PortTables` over
`PortNodes`, `BufTables`, `HeapTables`), the invariant (`...Inv`, `LfsLayout`), and theorems
about all runs (`...Runs`, `...Laws`, `...Exact`). Calls that can lose the processor halfway
(`receive`, `recvtime`, `kill`, `ptsend`, `ptrecv`, `ptreset`, `ptdelete`, `getbuf`, the clock
handler) are two or more steps, between which any other process may take any step.

What the calls answer and do, and whom or what they choose, is stated once more without the
transition functions, entry by entry over the tables, with the numbers of the source: `LfsNames`,
`KernelAnswers`, `KernelStates` (the diagram of process states), `KernelMail`, `KernelSlice`,
`KernelReleases`, `HeapFit`, `PortMail`, `BufLaws`.

The file system is stated against byte sequences: a file is its contents, a handle a file and a
position. `LfsRuns.RunCalls` says that any run of calls on the real disk, caches and free lists
gives the results of the same run on these; the laws in `LfsLaws` are about the latter.

## What was found

Each of these is a theorem with the condition under which the code does what it should.

- A file that is created and closed is not on disk: creating it does not mark the directory as
  changed. All files survive a restart if and only if the directory on disk has as many entries
  as the one in memory; what is lost is the names of empty files (`LfsRemount.SurvivesExactly`,
  `LfsRemount.LoseFile`).
- Disposing of the messages of a port takes place while its nodes are still in use, and may
  reschedule. So the sizes of ports in use do not bound the nodes in use: `ptsend` can panic
  although they fit (`PortPanic.ClearedPortsCount`). It does so exactly if all nodes hold
  messages (`PortPanic.PanicsExactly`), and never if ports in use and messages yet to be disposed
  of fit together (`PortLaws.PanicUnreachable`).
- `ptcreate` keeps the size of a port in 16 bits: whenever the port is reset it has the size it
  was made with if and only if that is less than 65536 (`PortReset.ResetSize`,
  `PortReset.SizeLost`).
- A process that waits while its port is cleared a multiple of 2^32 times is taken for one that
  just came; in no other case (`PortNumbers.NumberExactly`).
- `signal` keeps counts and queues in step if and only if the count is not the largest 32-bit
  integer (`KernelLaws.SignalExactly`).
- `recvtime(0)` puts a key of zero at the head of the sleep queue, and the next tick is lost on
  everybody else: a tick takes one from a sleeper if and only if the first key is at least 1
  (`KernelWake.TickTakesOne`, `KernelWake.RecvZero`).
- A process killed after it was let through to a buffer, but before it ran, leaves one that
  nobody can get; there are exactly as many of these as such deaths (`BufExact.StrandedExactly`).
- A second `freebuf` of the same buffer is refused if and only if it is not the last on the list of
  its pool (`BufTables.Pools.SecondFreeBuf`).
- `getmem` and `freemem` round sizes above 2^32 - 8 to 0. Then `getmem` gives out memory that is
  still free, and `freemem` enters an empty block, or makes the list circular
  (`HeapLaws.GetMemExactly`, `HeapTables.Heap.FreeMem`). `freemem` also takes addresses that are
  not multiples of 8, and the list is in order afterwards only if they are (`HeapSpec.PutOk`); and it
  misses overlaps of a block that ends beyond 32 bits (`HeapLaws.OverlapFound`).
- `lflclose` writes an index block back without the mutex of the directory. If it crosses a put of
  another file in the same sector, one of the two index blocks is lost (`LfsOverlap.CrossedExactly`);
  under the mutex that cannot happen (`LfsOverlap.LockedApart`, `LfsOverlap.OneAfterTheOther`).
- `dns_bldq` takes names of up to 499 characters, but the question fits the data of a message if
  and only if the name has at most 494 (`Dns.FitsExactly`); the name is read back if and only if
  its labels have 1 to 63 characters (`DnsLaws.RoundTripExactly`). Without any label
  `dns_getrname` writes its NUL in front of the buffer.
- `%d` of `_fdoprnt` is right if and only if the argument is not the smallest integer
  (`Decimal.FdoprntExactly`); that of `_doprnt` always is (`Decimal.DoprntD`). A field that is
  filled with zeros on the right shows another number unless it is 0 (`DecimalField.FieldReads`), and
  a precision cuts digits off (`DecimalField.PrecisionReads`).

Where comments and code differ the code is followed: `lfsopen` has a comment that it adds a file
to the directory, which happens in memory only (xinu-vbox/device/lfs/lfsopen.c:134-150).

## What is assumed

- A call of the file system is one step in `LfsRuns`. Of overlapping calls only the writing of index
  blocks is modelled, in `LfsOverlap`, step by step between the read and the write of a sector.
- Interrupts are off in the kernel, so that a piece of a call between two rescheduling points is
  one step; the null process never blocks, and a process blocks only if it has not put off
  rescheduling.
- In the state machine of ports the sequence number is an integer; what that means for the 32 bits
  it has is `PortNumbers`.
- The function given to `ptreset` and `ptdelete` may make any kernel call, but no call on ports.
- Semaphores of ports and of buffer pools are used by nobody else, and the memory of a pool is
  given back by nobody; a buffer is freed by somebody who has it, and its tag is not overwritten.
- Signed arithmetic wraps round in 32 bits, as the compiler of this system has it.
- The comparison given to `qsort` is a function of the two elements; only for `Sorted` must it be
  a preorder.

## Model

| member | source | states |
|---|---|---|
| `LfsDevice.Packing` | xinu-vbox/include/lfilesys.h:79-84 | seven index blocks to a sector: no two of them overlap, and none crosses the end of its sector |
| `LfsDevice.Lfs.constructor` | xinu-vbox/device/lfs/lflinit.c:11-46 | control blocks that are closed, with empty caches and no directory in memory |
| `LfsDevice.Lfs.Lfibget` | xinu-vbox/device/lfs/lfibget.c:10-31 | delivers exactly index block n out of its sector, and changes nothing |
| `LfsDevice.Lfs.Lfibput` | xinu-vbox/device/lfs/lfibput.c:10-43 | replaces index block n on disk; the other six of its sector, and every other sector, stay |
| `LfsDevice.Lfs.Lfiballoc` | xinu-vbox/device/lfs/lfiballoc.c:10-33 | takes the first index block off the free list, or panics if there is none; files are as before |
| `LfsDevice.Lfs.Lfdballoc` | xinu-vbox/device/lfs/lfdballoc.c:12-40 | takes the first data block off the free list, into a zeroed buffer, or panics if there is none |
| `LfsDevice.Lfs.Lfdbfree` | xinu-vbox/device/lfs/lfdbfree.c:10-25 | makes the block the first of the free list, linked to the former first one; two sectors are written and no other |
| `LfsDevice.Lfs.Lfflush` | xinu-vbox/device/lfs/lfflush.c:10-42 | writes back what is dirty of directory, data and index block; caches and disk agree afterwards and the files read the same |
| `LfsDevice.Lfs.Lfsetup` | xinu-vbox/device/lfs/lfsetup.c:10-122 | the buffer holds the block of the position, found or newly allocated at any distance along the chain, and lfbyte its byte; no file changes its contents; PANIC exactly if a block is needed and none is free |
| `LfsCalls.Lflputc` | xinu-vbox/device/lfs/lflputc.c:9-64 | on byte sequences: the byte at the position is replaced, or appended at the end, and nothing else changes; PANIC and SYSERR exactly when the view says so |
| `LfsCalls.Lflgetc` | xinu-vbox/device/lfs/lflgetc.c:9-52 | on byte sequences: the byte at the position, or EOF at the end; files stay the same |
| `LfsCalls.Lflseek` | xinu-vbox/device/lfs/lflseek.c:9-41 | moves the position, not past the end; files stay the same |
| `LfsCalls.Lflwrite` | xinu-vbox/device/lfs/lflwrite.c:9-29 | SYSERR for a negative count; otherwise a run of lflputc on the view, stopped by the first that fails |
| `LfsCalls.Lflread` | xinu-vbox/device/lfs/lflread.c:9-39 | is a run of lflgetc on the view, and fills the buffer with what that yields |
| `LfsCalls.Lflclose` | xinu-vbox/device/lfs/lflclose.c:9-38 | releases the handle; what the caches held is on disk, so that the files read the same |
| `LfsCalls.Lflcontrol` | xinu-vbox/device/lfs/lflcontrol.c:9-47 | truncation is the only function; anything else, and a closed device, is SYSERR |
| `LfsCut.StopsAtFree` | xinu-vbox/device/lfs/lftruncate.c:51-60 | the walk never stands at the former head of the free list before it has seen the whole chain, even if that list is empty, so it stops neither early nor late |
| `LfsCalls.Lftruncate` | xinu-vbox/device/lfs/lftruncate.c:10-104 | ends, gives every block of the file back once, leaves an empty file at position 0, and changes no other file |
| `LfsOpen.FindBlock` | xinu-vbox/device/lfs/lfsopen.c:60-92 | the first free control block, or the finding that the name is open already |
| `LfsOpen.FindEntry` | xinu-vbox/device/lfs/lfsopen.c:105-124 | the first directory entry of that name |
| `LfsOpen.Lfsopen` | xinu-vbox/device/lfs/lfsopen.c:36-191 | the whole effect on the view once the mode is known: an existing file, a new empty one, or one of the refusals, in the order of the source (which, by LfsNames.OpenRefused and OpenGives) |
| `LfsFormat.Lfscreate` | xinu-vbox/device/lfs/lfscreate.c:10-89 | the disk holds an empty directory and two free lists with all blocks, each once; SYSERR, and an untouched disk, exactly for a bad device or if index blocks would take more than half |
| `LfsFormat.Mount` | xinu-vbox/device/lfs/lfsinit.c:11-32 | a newly formatted disk, mounted, is an empty file system with all blocks free |
| `LfsRuns.RunCalls` | xinu-vbox/device/lfs/lfsetup.c:26-121 | so has any run of open, seek, getc, putc, read, write, truncate and close on any handles, in any order, up to a panic |
| `LfsRuns.EveryBlockAccounted` | xinu-vbox/device/lfs/lfscreate.c:37-86 | between calls every data sector and every index block is on the free list or in exactly one place of exactly one file, and the free ones are what the lengths of the files leave |
| `LfsRefine.Conservation` | xinu-vbox/device/lfs/lfsetup.c:45-114 | free data blocks and the sum of ceil(size / 512), and free index blocks and the sum of ceil(size / 8192), are what the disk has |
| `LfsRefine.FullAgrees` | xinu-vbox/device/lfs/lfsetup.c:45-114 | the kernel runs out of blocks exactly when, by the lengths of the files, the disk is full |
| `LfsLaws.WriteIs` | xinu-vbox/device/lfs/lflwrite.c:9-29 | a successful write puts all its bytes at the position, moves past them, and does nothing else |
| `LfsLaws.ReadIs` | xinu-vbox/device/lfs/lflread.c:9-39 | a read delivers the bytes from the position as far as count and the file go; at the end it reports EOF |
| `LfsLaws.WriteFits` | xinu-vbox/device/lfs/lflwrite.c:22-28 | a write completes exactly if the disk has blocks for the resulting length, and the kernel panics otherwise |
| `LfsLaws.OnlyTarget` | xinu-vbox/device/lfs/lflputc.c:33-60 | no call changes a file that is not open under its handle; opening changes no file that exists |
| `LfsLaws.Survives` | xinu-vbox/device/lfs/lfsetup.c:26-121 | a file that nobody holds keeps its contents over every run that does not open it, whatever happens to others |
| `LfsLaws.WriteCloseOpenRead` | xinu-vbox/device/lfs/lflclose.c:28-37 | what was written is read back after close, open and seek |
| `LfsNames.OpenRefused` | xinu-vbox/device/lfs/lfsopen.c:36-157 | lfsopen is refused exactly for a name of 16 characters or more, one that is open, no free control block, a file that exists with n, and one that does not with o or in a full directory; then nothing changes |
| `LfsNames.OpenGives` | xinu-vbox/device/lfs/lfsopen.c:126-191 | otherwise: with n the file did not exist, with o it did; the directory is as before, or has an empty file of that name behind the others; the handle is the first free one, on the file of that name, at its beginning, and no other handle is different |
| `LfsNames.NewIsNew` | xinu-vbox/device/lfs/lfsopen.c:152-157 | a file that exists is not opened with n |
| `LfsNames.OpenReads` | xinu-vbox/device/lfs/lfsopen.c:159-191 | a file that nobody holds, opened, gives its bytes from the first on |
| `LfsNames.SeekGives` | xinu-vbox/device/lfs/lflseek.c:16-40 | refused on a closed handle and behind the end; otherwise the position is the offset, and nothing else is different |
| `LfsNames.CloseGives` | xinu-vbox/device/lfs/lflclose.c:20-37 | refused on a closed handle; otherwise it is closed, and nothing else is different |
| `LfsNames.TruncateGives` | xinu-vbox/device/lfs/lftruncate.c:24-48 | refused on a closed handle; otherwise its file is empty, the position 0, and nothing else is different |
| `LfsNames.PutGives` | xinu-vbox/device/lfs/lflputc.c:23-63 | refused on a closed handle; PANIC exactly if the disk cannot hold the file then; otherwise the byte is at the position, which moves on, and every other byte is what it was |
| `LfsNames.GetGives` | xinu-vbox/device/lfs/lflgetc.c:23-51 | refused on a closed handle; EOF at the end; otherwise the byte at the position, which moves on |
| `LfsNames.ClosedRefuses` | xinu-vbox/device/lfs/lflwrite.c:16-28 | on a closed handle nothing is written or read |
| `LfsRemount.RemountOk` | xinu-vbox/device/lfs/lfsinit.c:11-32 | once all files are closed the disk, mounted again, is a sound file system with the files that the directory on disk has, each with its full contents |
| `LfsRemount.SurvivesExactly` | xinu-vbox/device/lfs/lfsopen.c:136-150 | all files survive a restart if and only if the directory on disk has as many entries as the one in memory; those that do not are empty |
| `LfsRemount.Remount` | xinu-vbox/device/lfs/lfsinit.c:11-32 | the restart itself, on the real disk array |
| `LfsRemount.LoseFile` | xinu-vbox/device/lfs/lfsopen.c:143-150 | format, mount, create a file, close it, restart: the file is gone |
| `LfsMode.Lfgetmode` | xinu-vbox/device/lfs/lfgetmode.c:9-61 | fails exactly if a character is unknown, r or w stands twice, or o and n stand more than once; otherwise the bits, both r and w if neither is given |
| `LfsMode.CountMeans` | xinu-vbox/device/lfs/lfgetmode.c:21-51 | a letter counts as there if and only if it is, and as there twice if and only if it stands at two places |
| `LfsMode.LfsopenMode` | xinu-vbox/device/lfs/lfsopen.c:25-58 | lfsopen with a mode string: refused without a disk, for a name too long or a mode that is wrong, and else the open of that mode |
| `LfsRuns.ViewWellFormed` | xinu-vbox/device/lfs/lfsopen.c:104-186 | between calls the files have different names and fit the disk, every open handle is on a file, and no file is open twice |
| `LfsOverlap.FinishExactly` | xinu-vbox/device/lfs/lfibput.c:28-41 | when other processes run between its read and its write, lfibput replaces its index block and nothing else if and only if nobody changed another block of the sector meanwhile |
| `LfsOverlap.OneAfterTheOther` | xinu-vbox/device/lfs/lfibput.c:28-41 | in any run in which no two puts on one sector overlap the index blocks are those of the puts one after the other |
| `LfsOverlap.LockedApart` | xinu-vbox/device/lfs/lfsetup.c:26-40 | puts made under the mutex of the directory never overlap |
| `LfsOverlap.CrossedExactly` | xinu-vbox/device/lfs/lflclose.c:18-36 | a put of lflclose can cross one of another file, and then the first is lost if and only if both are in one sector, on different blocks, and the first changes something |
| `KernelQueues.QueueTab.NewQueue` | xinu-vbox/system/newqueue.c:9-30 | one more empty list between two new sentinels, while there is room in the table; all others stay |
| `KernelQueues.QueueTab.Enqueue` | xinu-vbox/system/queue.c:11-30 | the process goes to the end of the list; the links of all lists stay in order |
| `KernelQueues.QueueTab.Dequeue` | xinu-vbox/system/queue.c:36-52 | the first process leaves the list, or EMPTY |
| `KernelQueues.QueueTab.GetFirst` | xinu-vbox/system/getitem.c:9-22 | the first process leaves its list |
| `KernelQueues.QueueTab.GetLast` | xinu-vbox/system/getitem.c:28-41 | the last process leaves its list |
| `KernelQueues.QueueTab.GetItem` | xinu-vbox/system/getitem.c:47-58 | a process leaves the list it is on, from any place, and all lists stay in order |
| `KernelQueues.QueueTab.Insert` | xinu-vbox/system/insert.c:9-36 | the process goes behind all of at least its key |
| `KernelQueues.QueueTab.InsertD` | xinu-vbox/system/insertd.c:9-42 | the process goes behind all who wake no later, and the one behind it gives up the delay it takes over |
| `KernelQueues.QueueTab.IsEmpty` | xinu-vbox/include/queue.h:29-29 | whether the list is empty, from the link of its head alone |
| `KernelQueues.QueueTab.FirstKey` | xinu-vbox/include/queue.h:31-31 | the key of the first process, or that of the tail |
| `KernelSleep.PutLeft` | xinu-vbox/system/insertd.c:22-39 | insertd gives the newcomer exactly its delay as a sum of keys, and changes nobody else's |
| `KernelSleep.PlacedBehind` | xinu-vbox/system/insertd.c:22-28 | the newcomer goes behind exactly those who have no more left than it, so also behind its equals |
| `KernelSleep.CutLeft` | xinu-vbox/system/unsleep.c:39-44 | unsleep changes nobody else's |
| `KernelSleep.TickLeft` | xinu-vbox/system/clkhandler.c:28-33 | decrementing the first key takes one from everybody |
| `KernelTables.Kernel.constructor` | xinu-vbox/system/initialize.c:172-212 | all queues empty, the null process current |
| `KernelTables.Kernel.Resched` | xinu-vbox/system/resched.c:11-49 | the current process keeps the processor if it is of higher priority than all that are ready, and otherwise goes behind its equals and the first ready process runs; under deferral only the attempt is noted |
| `KernelTables.Kernel.DeferStart` | xinu-vbox/system/resched.c:55-66 | deferral nests |
| `KernelTables.Kernel.DeferStop` | xinu-vbox/system/resched.c:68-75 | the last one out reschedules if that was attempted; without deferral it does nothing |
| `KernelTables.Kernel.Ready` | xinu-vbox/system/ready.c:11-29 | has, on the linked tables, the effect and the answer of the function of that name on plain sequences |
| `KernelTables.Kernel.Wait` | xinu-vbox/system/wait.c:9-39 | has, on the linked tables, the effect and the answer of the function of that name on plain sequences |
| `KernelTables.Kernel.Signal` | xinu-vbox/system/signal.c:9-31 | has, on the linked tables, the effect and the answer of the function of that name on plain sequences |
| `KernelTables.Kernel.SignalN` | xinu-vbox/system/signaln.c:9-37 | has, on the linked tables, the effect and the answer of the function of that name on plain sequences |
| `KernelTables.Kernel.SemCreate` | xinu-vbox/system/semcreate.c:11-50 | has, on the linked tables, the effect and the answer of the function of that name on plain sequences |
| `KernelTables.Kernel.SemDelete` | xinu-vbox/system/semdelete.c:9-36 | has, on the linked tables, the effect and the answer of the function of that name on plain sequences |
| `KernelTables.Kernel.SemReset` | xinu-vbox/system/semreset.c:9-35 | has, on the linked tables, the effect and the answer of the function of that name on plain sequences |
| `KernelTables.Kernel.Create` | xinu-vbox/system/create.c:11-98 | has the effect on the process table, given whether there was a stack |
| `KernelTables.Kernel.NewPid` | xinu-vbox/system/create.c:104-121 | the next free entry, going round the table |
| `KernelTables.Kernel.Resume` | xinu-vbox/system/resume.c:9-31 | has, on the linked tables, the effect and the answer of the function of that name on plain sequences |
| `KernelTables.Kernel.Suspend` | xinu-vbox/system/suspend.c:9-41 | has, on the linked tables, the effect and the answer of the function of that name on plain sequences |
| `KernelTables.Kernel.Unsleep` | xinu-vbox/system/unsleep.c:11-47 | has, on the linked tables, the effect and the answer of the function of that name on plain sequences |
| `KernelTables.Kernel.Send` | xinu-vbox/system/send.c:9-41 | on the linked tables, the effect and the answer that KernelMail.SendGives and KernelStates.StepStates state |
| `KernelTables.Kernel.Receive` | xinu-vbox/system/receive.c:9-25 | up to where it may have to wait |
| `KernelTables.Kernel.ReceiveResumed` | xinu-vbox/system/receive.c:19-24 | from there on |
| `KernelTables.Kernel.RecvTime` | xinu-vbox/system/recvtime.c:9-32 | up to where it may have to wait |
| `KernelTables.Kernel.RecvTimeResumed` | xinu-vbox/system/recvtime.c:34-43 | from there on |
| `KernelTables.Kernel.SleepMs` | xinu-vbox/system/sleep.c:26-53 | has, on the linked tables, the effect and the answer of the function of that name on plain sequences |
| `KernelTables.Kernel.KillBegin` | xinu-vbox/system/kill.c:9-32 | as far as the message to the parent, in which the caller may lose the processor |
| `KernelTables.Kernel.KillEnd` | xinu-vbox/system/kill.c:34-59 | from there on, whatever became of the victim in the meantime |
| `KernelTables.Kernel.Wakeup` | xinu-vbox/system/wakeup.c:9-20 | all whose time is up, and no others, are made ready |
| `KernelTables.Kernel.ClkHandler` | xinu-vbox/system/clkhandler.c:26-36 | the tick, as far as wakeup |
| `KernelTables.Kernel.ClkRest` | xinu-vbox/system/clkhandler.c:38-45 | the end of the time slice, when the interrupted process goes on, as KernelSlice.SliceGives states it |
| `KernelRuns.StepKeeps` | xinu-vbox/system/resched.c:11-80 | every call, every rest of a call and every tick keeps the invariant, and with it all that AlwaysSafe says |
| `KernelRuns.Perform` | xinu-vbox/system/resched.c:11-80 | every such step, made on the linked tables, is the step of the state machine |
| `KernelRuns.AlwaysSafe` | xinu-vbox/system/resched.c:25-44 | after any run: one process is current and no ready one comes before it, the null process can run, every process is once on the list its state says and on no other, a count of -k means k waiters and any other none, nobody waits for a message that is there |
| `KernelInv.NeverStuck` | xinu-vbox/system/resched.c:38-44 | resched, when the current process cannot go on, finds a ready one |
| `KernelLaws.RoundRobin` | xinu-vbox/system/resched.c:27-44 | n + 1 processes of the highest priority run in turn, each once in n + 1 turns |
| `KernelReleases.ReschedGives` | xinu-vbox/system/resched.c:23-44 | on any lists in order: a current process of higher priority than all that are ready keeps the processor; otherwise one of the highest priority gets it, for two ticks, and in every priority the order stays, the former one, if it can go on, coming last |
| `KernelSlice.SliceGives` | xinu-vbox/system/clkhandler.c:38-45 | the slice is 2 or 1 ticks; at 2 only the counting down changes anything; at 1 it is 2 again and the next of the ring runs, the former one going to its end; under deferral that is only noted |
| `KernelSlice.RingMembers` | xinu-vbox/system/resched.c:27-37 | the ring: the current process and, each once, the ready ones of its priority |
| `KernelSlice.YieldGives` | xinu-vbox/system/sleep.c:36-39 | a process that sleeps for no time yields: it goes to the end of the ring, and the next one runs |
| `KernelSlice.ClockTurns` | xinu-vbox/system/clkhandler.c:38-45 | over any n interrupts of the clock in which nobody wakes up the ring turns by one with every second: exactly that process runs then, with exactly that much left of its slice |
| `KernelStates.StepStates` | xinu-vbox/include/process.h:11-18 | the diagram of process states: for every step and every process, the state it is in afterwards; whoever is released, told, woken or resumed can run, whoever must wait waits, suspend, create and kill do what they say, and nobody else moves |
| `KernelAnswers.SemaphoreAnswers` | xinu-vbox/system/wait.c:17-35 | wait, signal, signaln, semdelete and semreset answer OK exactly for a semaphore in use and a count that is not negative, and otherwise SYSERR, changing nothing |
| `KernelAnswers.ResumeSuspendAnswer` | xinu-vbox/system/suspend.c:17-40 | resume and suspend answer the priority of the process, or SYSERR, changing nothing, exactly if it does not exist, is the null process (suspend), or is in a state that cannot be resumed or suspended |
| `KernelAnswers.UnsleepAnswer` | xinu-vbox/system/unsleep.c:24-46 | unsleep answers OK exactly for a process that sleeps, and otherwise SYSERR, changing nothing |
| `KernelAnswers.OthersRefuse` | xinu-vbox/system/kill.c:17-22 | kill, ready and the timed calls leave everything as it is for what is no process, the null process (kill), or a negative time |
| `KernelAnswers.SemCreateGives` | xinu-vbox/system/semcreate.c:11-50 | refused exactly for a negative count or if all are in use; otherwise the next free one, going round, with that count and nobody waiting, and no other changes |
| `KernelAnswers.EmptiedGives` | xinu-vbox/system/semdelete.c:27-35 | semdelete leaves the semaphore out of use and its queue empty, semreset with the new count and its queue empty; all others are as before |
| `KernelAnswers.NewPidGives` | xinu-vbox/system/create.c:104-121 | refused exactly if all entries are taken; otherwise the next free one, going round |
| `KernelAnswers.CreateGives` | xinu-vbox/system/create.c:32-51 | refused exactly for a priority below 1, no free entry, or no stack; otherwise a suspended process of that priority, whose parent is the caller, without a message; no other changes |
| `KernelAnswers.StepDefers` | xinu-vbox/system/resched.c:55-75 | deferral nests: only its own two calls change its depth, and signaln, semreset, semdelete and wakeup end at the depth at which they began |
| `KernelAnswers.DeferGives` | xinu-vbox/system/resched.c:61-75 | the first deferral forgets former attempts; the end of one inside of another, or of one in which nobody tried to reschedule, only counts down |
| `KernelReleases.ReleasedInOrder` | xinu-vbox/system/semreset.c:28-32 | those whom signaln, semreset and semdelete let go under deferral come to the ready list behind their equals, in the order in which they waited |
| `KernelReleases.WokenInOrder` | xinu-vbox/system/wakeup.c:13-18 | so do those whom a tick wakes, in the order of the sleep queue, of which they are the first |
| `KernelMail.SendGives` | xinu-vbox/system/send.c:17-40 | refused exactly if there is no such process or it has a message; otherwise it has the message sent, and nobody else has another one than before |
| `KernelMail.StepMail` | xinu-vbox/system/send.c:23-29 | in every step: the message a process had, and the one sent to it (a child that is killed sends its number to its parent), is the one it takes or still has; its priority and parent stay |
| `KernelMail.SentAreTaken` | xinu-vbox/system/receive.c:16-24 | over any run: the messages a process takes are those sent to it, each once, in order, except for one it may still have |
| `KernelMail.MailWaits` | xinu-vbox/system/send.c:24-27 | a message stays until it is taken, in any run, whatever else is sent |
| `KernelMail.SentIsReceived` | xinu-vbox/system/receive.c:21-24 | after a send that was not refused, and any run in which the process takes none, what it has, and takes then, is the message sent |
| `KernelMail.PerformReceive` | xinu-vbox/system/recvtime.c:34-43 | receive and recvtime, at once or after the wait, answer the message that is taken; without one, TIMEOUT, and SYSERR for a negative limit |
| `KernelLaws.Balance` | xinu-vbox/system/wait.c:29-35 | over any run, even one that kills waiters: completed waits and permits left are the permits at first and the signals |
| `KernelLaws.FirstComeFirstServed` | xinu-vbox/system/kill.c:45-50 | over any run that neither deletes nor resets the semaphore: what left its queue and what is on it is what was there and what joined, in this order, and exactly those killed while they waited are missing |
| `KernelLaws.ServedInFull` | xinu-vbox/system/signal.c:26-28 | if none of them is killed, nobody is missing: waiters are released exactly in the order in which they came |
| `KernelLaws.SignalExactly` | xinu-vbox/system/signal.c:26-28 | signal keeps count and queue in step if and only if the count is not at its 32-bit limit |
| `KernelWake.StepSleeps` | xinu-vbox/system/unsleep.c:39-44 | no step between ticks changes what a sleeper has left |
| `KernelWake.TickExactly` | xinu-vbox/system/clkhandler.c:28-36 | what a tick does to every sleeper, whether or not the first has a delay of zero: that one wakes, and the others lose one tick or none |
| `KernelWake.TickTakesOne` | xinu-vbox/system/clkhandler.c:28-36 | a tick takes one from a sleeper if and only if the first key is at least 1 |
| `KernelWake.RecvZero` | xinu-vbox/system/recvtime.c:24-33 | recvtime(0) brings the other case about |
| `KernelWake.WakesAtTick` | xinu-vbox/system/insertd.c:22-39 | a process that goes to sleep for d ticks, by sleepms or by recvtime, is ready after the tick that is the d-th to take one, in any run, and not before |
| `KernelWake.EveryTickTakes` | xinu-vbox/system/recvtime.c:24-33 | without recvtime(0) every tick takes one |
| `KernelWake.WakesAtDth` | xinu-vbox/system/wakeup.c:13-18 | without recvtime(0), after exactly d ticks |
| `PortNodes.NodePool.constructor` | xinu-vbox/system/ptinit.c:36-43 | all nodes on one nil-terminated list |
| `PortNodes.NodePool.Put` | xinu-vbox/system/ptsend.c:40-55 | the first free node takes the message and becomes the last of the port; the lists stay disjoint, linked and complete |
| `PortNodes.NodePool.Take` | xinu-vbox/system/ptrecv.c:37-43 | the first node of the port yields its message and becomes the first free one |
| `PortNodes.NodePool.Splice` | xinu-vbox/system/ptclear.c:32-37 | one link moves all nodes of the port to the free list |
| `PortNodes.NodePool.Walk` | xinu-vbox/system/ptclear.c:28-30 | one step of the walk along the messages |
| `PortTables.Ports.constructor` | xinu-vbox/system/ptinit.c:13-45 | the ports and nodes at the start |
| `PortTables.Ports.Begin` | xinu-vbox/system/ptsend.c:20-30 | on table and nodes: the transition of that name on the state machine of PortSpec, for ptsend and ptrecv up to the wait |
| `PortTables.Ports.SendRest` | xinu-vbox/system/ptsend.c:30-58 | on table and nodes: the transition of that name on the state machine of PortSpec, from there on: SYSERR if the port was cleared meanwhile |
| `PortTables.Ports.RecvRest` | xinu-vbox/system/ptrecv.c:28-47 | on table and nodes: the transition of that name on the state machine of PortSpec, likewise |
| `PortTables.Ports.ClearBegin` | xinu-vbox/system/ptclear.c:19-24 | on table and nodes: the transition of that name on the state machine of PortSpec, limbo and a new sequence number |
| `PortTables.Ports.DisposeNext` | xinu-vbox/system/ptclear.c:28-30 | on table and nodes: the transition of that name on the state machine of PortSpec, one message handed to the caller's function, which may lose the processor |
| `PortTables.Ports.ClearFirst` | xinu-vbox/system/ptclear.c:33-43 | on table and nodes: the transition of that name on the state machine of PortSpec, the nodes freed and the senders let go |
| `PortTables.Ports.ClearOn` | xinu-vbox/system/ptclear.c:42-45 | on table and nodes: the transition of that name on the state machine of PortSpec, the receivers let go, in a later step since semreset and semdelete can reschedule |
| `PortTables.Ports.ClearEnd` | xinu-vbox/system/ptclear.c:47-48 | on table and nodes: the transition of that name on the state machine of PortSpec, the port in its new state |
| `PortTables.Ports.Find` | xinu-vbox/system/ptcreate.c:24-34 | the next free entry, going round from the hint |
| `PortTables.Ports.Create` | xinu-vbox/system/ptcreate.c:9-46 | on table and nodes: the transition of that name on the state machine of PortSpec, the size cut to 16 bits for the table |
| `PortRuns.PStepKeeps` | xinu-vbox/system/ptsend.c:9-59 | every step of every call, with any kernel step in between, keeps the invariant of all ports |
| `PortPerform.Perform` | xinu-vbox/system/ptsend.c:9-59 | every such step, made on the table and the nodes, is the step of the state machine |
| `PortRuns.PortsSafe` | xinu-vbox/system/ptsend.c:29-56 | after any run: messages, free permits and senders let through but not yet run fit the port, every permit and every receiver let through has its message, and nodes are conserved |
| `PortRuns.NeverEmptyHanded` | xinu-vbox/system/ptrecv.c:28-45 | a receiver that goes on finds a message, or is stale and touches nothing |
| `PortLaws.ClearStales` | xinu-vbox/system/ptclear.c:19-24 | clearing makes stale all who wait on the port |
| `PortLaws.StaleRefused` | xinu-vbox/system/ptsend.c:29-34 | who is stale answers SYSERR and touches nothing, however late it runs |
| `PortNumbers.NumberExactly` | xinu-vbox/system/ptsend.c:29-34 | for a process that waits, comparing sequence numbers in 32 bits is right if and only if its port is not in use, or was cleared and made a number of times that is 0 or no multiple of 2^32 |
| `PortLaws.FirstInFirstOut` | xinu-vbox/system/ptrecv.c:37-45 | between resets messages are received once each, in the order in which they were sent |
| `PortMail.BeginGives` | xinu-vbox/system/ptsend.c:20-30 | ptsend and ptrecv are refused exactly on a port not in use; otherwise the caller waits on the semaphore of that side, with port, sequence number and message noted, and nothing else is different |
| `PortMail.RestAnswers` | xinu-vbox/system/ptrecv.c:28-47 | after the wait they answer OK and the first message if the port was not cleared meanwhile, and otherwise SYSERR |
| `PortMail.SentIsPut` | xinu-vbox/system/ptsend.c:29-55 | after ptsend with a message and any run in which the caller waits, what it puts on the port is that message, behind all others, or nothing if the port was cleared |
| `PortMail.NewPortGives` | xinu-vbox/system/ptcreate.c:18-46 | refused exactly for a negative count or without a free port; otherwise the next free one, going round, with no messages, a new sequence number and two new semaphores, and no other changes |
| `PortMail.DeletedComesNext` | xinu-vbox/system/ptdelete.c:23-24 | a port that was deleted is the next to be made |
| `PortMail.ClearGives` | xinu-vbox/system/ptclear.c:19-23 | refused exactly on a port not in use; otherwise it is in limbo at once with a new sequence number, and nothing else is different |
| `PortMail.ClearStepsGive` | xinu-vbox/system/ptclear.c:34-47 | the nodes of all messages are free again; the two semaphores, one after the other, are out of use, or have the size in the table and 0, and nobody waits on them |
| `PortMail.ClearEndGives` | xinu-vbox/system/ptdelete.c:23-24 | a port that was reset is in use again, one that was deleted is free; only deleting moves the place where ptcreate looks first |
| `PortLaws.DisposedOnce` | xinu-vbox/system/ptclear.c:26-31 | a cleared port hands over each message once, in order, whatever other processes do in between |
| `PortLaws.PanicUnreachable` | xinu-vbox/system/ptsend.c:36-40 | ptsend does not panic while the sizes of ports in use and the messages still to be disposed of are together at most the number of nodes |
| `PortPanic.PanicsExactly` | xinu-vbox/system/ptsend.c:36-40 | it panics if and only if its port is unchanged and all nodes hold messages |
| `PortPanic.OnePort` | xinu-vbox/system/ptsend.c:36-40 | with one port, some run panics if and only if the port is larger than the number of nodes |
| `PortPanic.ClearedPortsCount` | xinu-vbox/system/ptclear.c:26-36 | a run that panics although the ports in use fit: the messages of one in limbo take up nodes until all are disposed of |
| `PortExact.StepHeld` | xinu-vbox/system/ptsend.c:54-56 | in every step a permit used on one side is given on the other, no more and no fewer |
| `PortExact.NothingLost` | xinu-vbox/system/ptsend.c:54-56 | so a port on which nobody is killed never loses room |
| `PortExact.NewIsWhole` | xinu-vbox/system/ptcreate.c:32-42 | a new port has room for all its messages |
| `PortExact.ResetIsWhole` | xinu-vbox/system/ptclear.c:39-42 | a reset port has room for as many as the table says |
| `PortLaws.SizeKept` | xinu-vbox/system/ptcreate.c:36-40 | ptcreate enters in the table the size that the semaphore has if and only if that is less than 65536 |
| `PortReset.SizeLost` | xinu-vbox/system/ptclear.c:39-41 | once a port for 65536 messages is reset there are no permits to send |
| `PortReset.ResetSize` | xinu-vbox/system/ptclear.c:39-41 | a port made for count messages has, whenever it is reset, room for count modulo 65536, and so the size it was made with if and only if that is less |
| `BufTables.Pools.constructor` | xinu-vbox/system/bufinit.c:12-16 | no pools |
| `BufTables.Pools.GetBuf` | xinu-vbox/system/getbuf.c:9-30 | up to the wait |
| `BufTables.Pools.GotBuf` | xinu-vbox/system/getbuf.c:31-43 | from there on: the first buffer is unlinked, through the word it holds, and tagged with its pool |
| `BufTables.Pools.FreeBuf` | xinu-vbox/system/freebuf.c:9-39 | the pool is found by the tag, the buffer becomes its first, and the semaphore is signalled; with a tag that is no pool nothing changes |
| `BufTables.Pools.SecondFreeBuf` | xinu-vbox/system/freebuf.c:21-26 | a second freebuf of the same buffer is refused if and only if it is not the last of its list |
| `BufTables.Pools.Link` | xinu-vbox/system/mkbufpool.c:46-52 | every buffer of the new pool is linked to the one behind it, and no other word changes |
| `BufTables.Pools.MkBufPool` | xinu-vbox/system/mkbufpool.c:9-55 | on heap, semaphores and buffers: a pool of the size rounded to words, or SYSERR |
| `BufCalls.MkPoolFails` | xinu-vbox/system/mkbufpool.c:20-44 | if mkbufpool fails nothing has changed, even if the memory was taken and given back |
| `BufRuns.BStepKeeps` | xinu-vbox/system/getbuf.c:9-43 | every step, with any kernel and heap step in between, keeps the invariant of all pools |
| `BufPerform.Perform` | xinu-vbox/system/getbuf.c:9-43 | every such step, made on the tables and the heap, is the step of the state machine |
| `BufRuns.PoolsSafe` | xinu-vbox/system/getbuf.c:28-36 | after any run: a free buffer for every permit and every process let through, and every buffer free, once, or in use, never both |
| `BufRuns.NoneTwice` | xinu-vbox/system/getbuf.c:30-36 | a process that goes on with getbuf takes a buffer that is not NULL and not in use |
| `BufLaws.GetBufGives` | xinu-vbox/system/getbuf.c:19-30 | refused exactly for what is no pool; otherwise the caller waits on the semaphore of the pool |
| `BufLaws.FreeBufGives` | xinu-vbox/system/freebuf.c:19-38 | the buffer is the first of the pool its tag names, the semaphore is signalled, and nothing else is different |
| `BufLaws.MkBufPoolGives` | xinu-vbox/system/mkbufpool.c:19-55 | refused exactly for sizes, numbers or pools out of bounds, no room on the heap, or no semaphore; otherwise the next number, with that many buffers one behind the other, whole words with room for what was asked for and a tag, and a semaphore of that count |
| `BufLaws.LastFreedFirst` | xinu-vbox/system/freebuf.c:32-36 | the buffer freed last is got first: after it was freed, and any run in which as many were got as freed since and never more, it is the next one got |
| `BufRuns.BuffersApart` | xinu-vbox/system/mkbufpool.c:28-52 | no byte belongs to two buffers, or to a buffer and free or foreign memory; buffers are aligned to words |
| `BufExact.StrandedExactly` | xinu-vbox/system/getbuf.c:30-36 | free buffers are permits, processes let through, and processes killed when let through, exactly |
| `HeapSpec.RoundMb` | xinu-vbox/include/memory.h:11-11 | the next multiple of 8, or 0 if that does not fit 32 bits |
| `HeapSpec.TakeOk` | xinu-vbox/system/getmem.c:22-47 | getmem gives bytes that were free, are not free any more, and no others change; the list stays in order; it fails exactly if no block is large enough |
| `HeapSpec.TakeTopOk` | xinu-vbox/system/getstk.c:23-51 | getstk likewise |
| `HeapSpec.PutOk` | xinu-vbox/system/freemem.c:25-67 | for any block within 32 bits: freemem fails exactly if some byte is free already, and otherwise frees these bytes and no others; the list stays in order and coalesced if and only if the address is a multiple of 8 |
| `HeapFit.GetMemFits` | xinu-vbox/system/getmem.c:17-49 | getmem gives the bottom of the lowest block with room for the request, rounded to a multiple of 8, and is refused exactly if none has room or nothing is asked for |
| `HeapFit.GetStkFits` | xinu-vbox/system/getstk.c:18-51 | getstk gives the top of the highest block with room; the answer is its last word |
| `HeapFit.FreeMemRefused` | xinu-vbox/system/freemem.c:19-47 | refused exactly for no bytes, an address outside of the heap, or if some byte of the rounded block is free |
| `HeapFit.LowAndHigh` | xinu-vbox/system/getstk.c:30-37 | of two blocks that fit getmem takes the lower one and getstk the higher one |
| `HeapTables.Heap.GetMem` | xinu-vbox/system/getmem.c:9-50 | on the headers in memory: the effect of getmem on the list, and on the count; which block, by HeapFit.GetMemFits |
| `HeapTables.Heap.GetStk` | xinu-vbox/system/getstk.c:9-52 | on the headers in memory: the effect of getstk |
| `HeapTables.Heap.FreeMem` | xinu-vbox/system/freemem.c:9-70 | on the headers in memory: the effect of freemem; whether there is a list in order afterwards at all, with an empty block at the address of a free one on the failing side |
| `HeapLaws.SameBytes` | xinu-vbox/system/freemem.c:45-67 | the list is determined by the set of free bytes |
| `HeapLaws.FreeUndoesGet` | xinu-vbox/system/freemem.c:9-70 | freemem undoes getmem |
| `HeapLaws.FreestkUndoesGetstk` | xinu-vbox/include/memory.h:18-21 | freestk undoes getstk |
| `HeapRuns.RunOk` | xinu-vbox/system/freemem.c:28-67 | over any run of getmem, getstk and freemem, with second frees of the same block among them: free and live blocks are disjoint and cover the arena exactly |
| `HeapRuns.AllGivenBack` | xinu-vbox/system/freemem.c:28-67 | when all is given back, in any order, the list is the one of the start |
| `HeapRuns.CountOverRun` | xinu-vbox/system/getmem.c:30-40 | memlist.mlength minus the free bytes is constant modulo 2^32 |
| `HeapLaws.GetMemExactly` | xinu-vbox/system/getmem.c:22-42 | the block given out is no longer free if and only if the size can be rounded up within 32 bits |
| `HeapLaws.FreeMemExactly` | xinu-vbox/system/freemem.c:19-60 | the list that freemem leaves is in order if and only if the address is a multiple of 8, and the size can be rounded up or the block touches the one before |
| `HeapLaws.OverlapFound` | xinu-vbox/system/freemem.c:43-47 | freemem refuses a block exactly when it overlaps a free one, if and only if it ends within 32 bits, or begins inside of a free block, or all free blocks begin below it |
| `Sorting.Exchange` | xinu-vbox/lib/qsort.c:55-58 | two elements of the array change places and no other element changes |
| `Sorting.Rotate` | xinu-vbox/lib/qsort.c:77-82 | three elements move round, also if two of the places are the same, and no other changes |
| `Sorting.Qsexc` | xinu-vbox/lib/qsort.c:116-134 | the bytes of two elements change places, one by one |
| `Sorting.Qstexc` | xinu-vbox/lib/qsort.c:140-162 | the bytes of three elements move round, also if the last two are the same |
| `Sorting.FromRight` | xinu-vbox/lib/qsort.c:67-90 | the loop on the right: what is known of the elements stays true, and it makes progress |
| `Sorting.Partition` | xinu-vbox/lib/qsort.c:42-109 | ends for any comparison whatsoever and only rearranges; for a preorder it leaves a band equal to the pivot between smaller and greater elements |
| `Sorting.Qs1` | xinu-vbox/lib/qsort.c:29-110 | the same for the whole: sorted if the comparison is a preorder, with at most floor(log2 n) + 1 calls open at a time |
| `Sorting.Qsort` | xinu-vbox/lib/qsort.c:13-23 | of n elements of any size: sorted, and a permutation |
| `Dns.DnsBldq` | xinu-vbox/net/dns.c:135-199 | the buffer holds the labels of the name, each behind its length, then type and class; SYSERR exactly from 500 characters on |
| `Dns.DnsGetrname` | xinu-vbox/net/dns.c:326-374 | for any name that can be read by following finitely many pointers: the labels, dots and NUL that section 4.1.4 of RFC 1035 gives (DnsLaws.CompressedRoundTrip), and the bytes used in place |
| `DnsLaws.BackEnds` | xinu-vbox/net/dns.c:357-365 | every name whose pointers go to names that begin earlier is one of these |
| `DnsLaws.NeverEnds` | xinu-vbox/net/dns.c:357-365 | one that ends in a pointer to itself is not |
| `DnsLaws.ReadPointer` | xinu-vbox/net/dns.c:357-365 | labels and then a pointer, of 14 bits from the start of the message, to a name: read together, taking up the labels and two bytes |
| `DnsLaws.CompressedRoundTrip` | xinu-vbox/net/dns.c:347-365 | a name whose end stands elsewhere in the message, as section 4.1.4 of RFC 1035 compresses it, is read back whole |
| `DnsLaws.PointsFromStart` | xinu-vbox/net/dns.c:357-365 | a pointer to 12 goes to the first byte behind the header |
| `Dns.SplitJoins` | xinu-vbox/net/dns.c:158-176 | the labels of a name make it up again and have no dots in them |
| `DnsLaws.RoundTripExactly` | xinu-vbox/net/dns.c:326-374 | the name in a question is read back as it was if and only if all its labels have 1 to 63 characters, in any message around it |
| `DnsLaws.ReadsBack` | xinu-vbox/net/dns.c:370-373 | in the buffer: the name and NUL, and nothing else touched in front |
| `Dns.FitsExactly` | xinu-vbox/net/dns.c:158-163 | the question fits the data of a message if and only if the name has at most 494 characters |
| `DnsLaws.QuestionIs` | xinu-vbox/net/dns.c:150-197 | the question byte by byte: the characters one place further on, the length in front of each label, then 0, 0, 1, 0, 1, six bytes more than the name |
| `Decimal.NumeralMeans` | xinu-vbox/lib/fdoprnt.c:251-270 | what a numeral is: digits, with the value of the number, without zeros in front |
| `Decimal.Prtl10` | xinu-vbox/lib/fdoprnt.c:251-270 | the digits of the number, each subtracted from '0' if it is negative |
| `Decimal.Prtl10Abs` | xinu-vbox/lib/doprnt.c:286-306 | the numeral of the absolute value, also of the smallest integer |
| `Decimal.DoprntD` | xinu-vbox/lib/doprnt.c:130-138 | %d of every integer: sign and numeral in the field that was asked for |
| `Decimal.FdoprntD` | xinu-vbox/lib/fdoprnt.c:128-137 | %d of the other function, and what it prints of the smallest integer |
| `Decimal.PutField` | xinu-vbox/lib/doprnt.c:224-278 | the loops that cut, fill and sign: where blanks, zeros, sign and digits come |
| `DecimalField.FieldWidth` | xinu-vbox/lib/doprnt.c:224-278 | a field is as wide as its contents, and at least as wide as was asked for up to 80 |
| `DecimalField.FieldIs` | xinu-vbox/lib/doprnt.c:224-278 | what a field looks like: a precision from 1 to 80 cuts the text, a width up to 80 is filled up behind or in front, blanks before the sign and zeros behind it |
| `DecimalField.FieldReads` | xinu-vbox/lib/doprnt.c:224-278 | atoi gives the integer back from a field if and only if it was not filled with zeros on the right, or is 0 |
| `DecimalField.PrecisionReads` | xinu-vbox/lib/doprnt.c:224-278 | with a precision, if and only if there are not more digits than that |
| `Decimal.FdoprntExactly` | xinu-vbox/lib/fdoprnt.c:128-137 | that is the numeral if and only if the integer is not the smallest |
| `Decimal.PrintU` | xinu-vbox/lib/fdoprnt.c:139-155 | %u prints the numeral of every 32-bit number in its field, although it subtracts with wrap-around and patches the first digit |
| `Decimal.Atoi` | xinu-vbox/lib/atoi.c:7-34 | atoi, in 32 bits, is Read |
| `Decimal.AtoiUndoes` | xinu-vbox/lib/atoi.c:13-33 | Read undoes %d of every integer, with blanks in front and anything but digits behind |
| `Decimal.AtoiUnsigned` | xinu-vbox/lib/atoi.c:28-33 | Read undoes %u modulo 2^32 |
| `Decimal.ReadIs` | xinu-vbox/lib/atoi.c:13-33 | atoi of any string: behind blanks and tabs, and one sign at most, the digits up to the first other character, modulo 2^32; 0 if there are none |
| `Decimal.Decimally` | xinu-vbox/lib/atoi.c:28-31 | digits and values are decimal, by an example |
| `Paging.Memory.PageTableInit` | xinu-vbox/system/helper_functions.c:14-50 | eight present entries in the directory, all others absent, and eight full tables in frames of their own |
| `Paging.WalkExactly` | xinu-vbox/system/helper_functions.c:25-47 | the walk of section 4.3 of the Intel manual, Volume 3A, gives every address below 32 MB itself and a fault for any other |
| `Paging.TablesOutOfReach` | xinu-vbox/system/helper_functions.c:7-12 | the nine frames of directory and tables are disjoint, and nothing in them can be reached |

## Left out

- Overlapping calls of the local file system other than in the writing of index blocks; the mutex of
  a single file.
- Errors of the disk: reads and writes of sectors succeed.
- The bytes of directory, index blocks and lists within a sector; of the layout only the seven
  index blocks to a sector are kept. The identification fields that `lfscheck` compares.
- LfsFormat.Lfscreate: asks, of a disk that can be used, for at least one index block, and on a disk
  of two sectors for more than one sector of them, in which case it is refused. Otherwise the loops
  that build the free lists run past their area.
- LfsRuns.RunCalls: says nothing about the disk once the kernel has panicked.
- KernelLaws.SignalExactly: is about one signal; that the loop of signaln keeps counts in step is
  proved for counts that stay below the 32-bit limit (`KernelCalls.SignalNKeeps`), not the converse.
- KernelTables.Kernel.Create: stacks, names and descriptors; whether there is a stack is a
  parameter. Likewise KernelTables.Kernel.KillEnd does not close descriptors, and prcount and
  `xdone` are not kept.
- KernelTables.Kernel.ClkHandler: the second and its millisecond counter.
- `chprio`, `recvclr`, `meminit` (the heap starts from any list that is in order), the context
  switch itself.
- PortLaws.StaleRefused: is about integers for sequence numbers; `PortNumbers.NumberExactly` says when
  that is right for 32 bits.
- PortTables.Ports.constructor: the memory of the nodes is there; `getmem` is not called.
- HeapTables.Heap.FreeMem: asks that the block ends within 32 bits; beyond, the source writes lengths
  that wrap round, or follows NULL.
- BufTables.Pools.FreeBuf: asks for a buffer in use, or a word that is no number of a pool; of other
  addresses the source takes what memory holds for a tag.
- Sorting.Qsort: asks for elements of at least one byte in an array that fits the address space.
- Dns.DnsBldq: asks for a buffer that takes the question, which that of a message does for names of
  up to 494 characters.
- Dns.DnsGetrname: asks that the name can be read by following finitely many pointers within the
  message, since the source does not end otherwise, and that a name without any label is not read
  into the front of a buffer, since it writes before it.
- The rest of the resolver: headers, answers, the network.
- The other conversions of the printing functions, and their parsing of formats.
- Of paging, dumping the directory, and loading the control registers.
- Devices, the network stack, the shell, the string library, and what the repository's description
  announces but does not contain (virtual heaps, demand paging, eviction).
