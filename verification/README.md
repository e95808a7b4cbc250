# xv6, proved in Dafny

A model of the hard parts of xv6 for RISC-V (the variant with per-process scheduling counters):
the write-ahead log, the buffer cache, files on blocks and the file system on the log, page tables and physical pages, processes,
the virtio disk queue, pipes, the user-level allocator and grep.

Most parts come in two layers. A *machine* module describes the protocol as atomic steps of several
actors over a shared state and proves what every run keeps; a *code* module holds the routine itself
as a class with loops over arrays, lists and maps. Where both exist, the code records the machine steps
it takes in a ghost run, so an object that methods have worked on is the end of a run and every
theorem about runs applies to it. A spinlock is an atomic critical section; everything another CPU,
process, device or crash could do in between is a step of its own.

| part | modules |
|---|---|
| write-ahead log (`kernel/log.c`) | `LogMachine`, `LogSafety`, `LogSpace`, `LogCode` |
| buffer cache (`kernel/bio.c`) | `CacheMachine`, `CacheSafety`, `CacheCode` |
| file blocks (`kernel/fs.c`, `kernel/file.c`) | `FsModel`, `FsCode`, `FileSpace`, `FileData`, `FileWrite` |
| the file system on the log (`kernel/fs.c`, `kernel/fs.h`, `kernel/log.c`) | `FsImage`, `Journal` |
| page tables, pages (`kernel/vm.c`, `kernel/kalloc.c`, `kernel/proc.c`) | `PageTable`, `VmCode`, `UserMemory`, `FreeWalk`, `ProcMemory`, `AddressSpaces` |
| scheduling, sleep, sleeplocks, counters (`kernel/proc.c`, `kernel/sleeplock.c`, `kernel/trap.c`) | `SchedMachine`, `SchedInvariant`, `SchedSafety` |
| fork, exit, wait (`kernel/proc.c`) | `FamilyMachine`, `FamilySafety`, `FamilyCode` |
| virtio queue (`kernel/virtio_disk.c`) | `VirtioModel`, `VirtioSafety`, `VirtioCode` |
| pipe (`kernel/pipe.c`) | `PipeCode` |
| K&R allocator (`user/umalloc.c`) | `HeapList`, `HeapBlocks`, `HeapCode` |
| grep (`user/grep.c`) | `RegexModel`, `GrepCode` |

`dafny verify dfyconfig.toml` checks everything.

Inputs the code takes from outside are parameters: what `sbrk` answers, where a copy to or from user
memory fails, when a process is found killed, how many bytes a read brings, which request the device
completes next, when the machine crashes.

## What the code does where its comments say otherwise

- `mkfs` makes the log area exactly `LOGSIZE` blocks, so the second guard of `log_write` is one block
  tighter than the reservation in `begin_op`. `ReservationSuffices` shows that the reservation alone
  keeps the log within its area. `PanicExactly` says for which sizes of the area the guard can fire on a
  call that is within its reservation: exactly up to `LOGSIZE`. `NoPanicBelowMax` says that it cannot
  when calls stay one block below their reservation.
- A writer that is killed inside `pipewrite` returns without waking readers. `Pipe.Write` says, from the
  state before the call, exactly when this leaves a reader asleep beside data; no other method can cause
  it (`Read`, `Close` and `Kill` say so), and `KilledWriter` is such a run.
- A copy that fails inside a block leaves changed bytes in a buffer that is not logged. `Writei` and
  `Filewrite` give the bytes that lie over the file afterwards, and from the state before the call
  exactly when a copy fails, how many bytes count as written then, and how many more were laid
  (`Outcome`, `FileOutcome`). `TornOverwrite` is a write that reports failure, leaves the offset and the
  size alone, and has changed a byte of the file. Such bytes last while the buffer is cached:
  `Journal.Jfs.Evict` recycles it, and then the file reads as the log has it. After a crash they are gone.
- `malloc` hands the byte count to `sbrk`, which takes an `int`. `SafeRequest` gives the exact request
  sizes for which the count survives; `HugeRequest` is one that turns into `sbrk(0)`.
- grep does not judge a last line without a newline, and it stops at the first line that does not fit
  into its buffer, because a read into no room looks like the end of the file. `OutputIsAll` says exactly
  when every matching line is written; `TailIsLost` and `LongIsLost` are inputs where one is not.

A panic of the kernel is either an outcome of the model's method, with the exact condition for it, or a
precondition that the callers in the model are proved to meet.

## Model

| member | source | states |
|---|---|---|
| `LogSafety.CrashAtomicity` | kernel/log.c:68-203 | in every state of every run, including between any two block writes of a commit and of a recovery, a crash followed by recovery gives the initial disk with a whole number of operations applied: those of the captured prefix of the history, and all of it when no operation is open |
| `LogSafety.QuiescentSurvives` | kernel/log.c:68-203 | any property of the disk that holds whenever no operation is open holds of the disk a recovery yields, wherever the crash falls |
| `LogSafety.CapturedStays` | kernel/log.c:68-203 | what a recovery would keep at one point of a run it keeps at every later point, through any further crashes |
| `LogSafety.CommitPoint` | kernel/log.c:193-203 | over all steps, what a recovery would give changes only when a non-empty header reaches the disk (or a group wrote nothing), and then it becomes the state after every logged write; crashes and partial recoveries never change it |
| `LogSafety.RecoveryCompletes` | kernel/log.c:116-123 | a completed recovery leaves an empty header and home blocks equal to the durable state |
| `LogSafety.ReadsSeeWrites` | kernel/log.c:214-235 | reading a block through cache and disk gives the effect of all log_writes so far |
| `LogSafety.GroupCommit` | kernel/log.c:126-175 | in every interleaving committing implies that no operation is open, and the list of logged blocks stays duplicate-free and inside the home area |
| `LogSafety.ClosedIsWhole` | kernel/log.c:146-175 | a history with no open operation consists of whole operations |
| `LogSafety.HeadCommits` | kernel/log.c:102-114 | with all blocks in the log area, writing the header makes recovery yield the cached contents |
| `LogSafety.InstallKeepsDurable` | kernel/log.c:68-83 | installing one block never changes what recovery yields |
| `LogSafety.ClearKeepsDurable` | kernel/log.c:193-203 | once every block is home, erasing the header changes nothing |
| `LogSafety.CopyLoopsEnabled` | kernel/log.c:178-191 | the copy, install and recovery loops can always take their next block |
| `LogSafety.RunInv` | kernel/log.c:55-235 | the log invariant in every state of every run with crashes |
| `LogSpace.ReservationSuffices` | kernel/log.c:126-142 | without the guard in log_write: if each operation adds at most MAXOPBLOCKS new blocks, the reservation keeps the count within LOGSIZE and the list duplicate-free |
| `LogSpace.NoPanicBelowMax` | kernel/log.c:214-235 | with at most nine new blocks per operation the "too big" panic is unreachable |
| `LogSpace.NoPanicAbove` | kernel/log.c:214-235 | with an area of more than LOGSIZE blocks the panic never hits a call within its reservation |
| `LogSpace.PanicExactly` | kernel/log.c:214-235 | when calls use their full reservation of ten blocks, the panic can hit one of them exactly when the log area, its header included, has at most LOGSIZE blocks |
| `LogSpace.RunSpace` | kernel/log.c:126-175 | the reservation invariant over every run |
| `LogCode.Log.BeginOp` | kernel/log.c:126-142 | admits the operation exactly when the machine does: not committing and room for every open operation |
| `LogCode.Log.LogWrite` | kernel/log.c:214-235 | each of the three outcomes exactly when the source reaches it; a logged write is the machine's step |
| `LogCode.Log.Absorb` | kernel/log.c:224-233 | the header in memory gains the block only if it was not there |
| `LogCode.Log.WriteLog` | kernel/log.c:178-191 | the loop takes the machine through all copying steps |
| `LogCode.Log.InstallTrans` | kernel/log.c:68-83 | the loop takes the machine through all installing (or recovering) steps |
| `LogCode.Log.ReadHead` | kernel/log.c:86-97 | the list read is the one in the header block |
| `LogCode.Log.WriteHead` | kernel/log.c:102-114 | the header block holds the list |
| `LogCode.Log.Commit` | kernel/log.c:193-203 | takes the machine through copying, header, installing and clearing without another call in between, and leaves the log empty |
| `LogCode.Log.EndOp` | kernel/log.c:146-175 | the panic is not reached, and after the last operation the home blocks on disk hold every write of the history |
| `LogCode.Log.RecoverFromLog` | kernel/log.c:116-123 | after a reboot anywhere, recovery ends in the durable state with an empty log |
| `CacheSafety.BreadReturnsLatest` | kernel/bio.c:92-103 | in every run of the protocol a locked, valid buffer holds the latest data of its block, across hits, misses and evictions |
| `CacheSafety.KeyStaysWhileReferenced` | kernel/bio.c:58-89 | a referenced buffer keeps its device and block number |
| `CacheSafety.PinnedStaysCached` | kernel/bio.c:139-151 | a block that is logged and not installed stays in the cache |
| `CacheSafety.KeysUnique` | kernel/bio.c:58-89 | no two buffers have the same key with a device other than 0 |
| `CacheSafety.VictimIsOldest` | kernel/bio.c:73-89 | the recycled buffer is the unreferenced one whose last release is oldest |
| `CacheSafety.UnpinKeepsCount` | kernel/bio.c:146-151 | in the log's protocol bunpin never drops a count to zero |
| `CacheSafety.RunInv` | kernel/bio.c:36-151 | the cache invariant in every state of every run |
| `CacheCode.RingRemove` | kernel/bio.c:116-137 | unlinking a node leaves one cycle through the head and the other nodes |
| `CacheCode.RingInsert` | kernel/bio.c:116-137 | linking a node behind the head gives one cycle through all |
| `CacheCode.BCache.constructor` | kernel/bio.c:36-53 | binit builds a ring of all buffers, with prev the inverse of next |
| `CacheCode.BCache.Lookup` | kernel/bio.c:64-71 | the forward scan finds the cached buffer or there is none |
| `CacheCode.BCache.FindVictim` | kernel/bio.c:73-87 | the backward scan finds the last unreferenced buffer in use order or all are referenced |
| `CacheCode.BCache.Bget` | kernel/bio.c:58-89 | hit, recycling and the panic exactly when the machine says, and the matching step |
| `CacheCode.BCache.FillBuf` | kernel/bio.c:92-103 | an invalid buffer is filled from disk |
| `CacheCode.BCache.Bwrite` | kernel/bio.c:106-112 | the disk block becomes the buffer's data |
| `CacheCode.BCache.ReleaseBuf` | kernel/bio.c:116-121 | panics exactly when the buffer is not locked; otherwise the machine's unlock |
| `CacheCode.BCache.DropBuf` | kernel/bio.c:123-137 | the machine's last step of brelse: the count falls, and at zero the buffer moves to the front of the ring |
| `CacheCode.BCache.MoveToFront` | kernel/bio.c:127-134 | the four link updates move one node of the ring to the front, in place |
| `CacheCode.BCache.Bpin` | kernel/bio.c:139-144 | the reference count rises by one |
| `CacheCode.BCache.LogBuf` | kernel/log.c:224-233 | log_write on the cache's side: a block new to the log is pinned, one that the log lists stays as it is |
| `CacheCode.BCache.Bunpin` | kernel/bio.c:146-151 | the reference count falls by one and the order stays |
| `FsModel.FlipBit` | kernel/fs.c:75-77 | setting a clear bit or clearing a set bit of a byte changes no other bit |
| `FsModel.SetMarked` | kernel/fs.c:71-79 | marking one block in the bitmap marks this block and no other, whatever bitmap block it falls in |
| `FsModel.ClearMarked` | kernel/fs.c:97-103 | unmarking likewise |
| `FsModel.PutGetWord` | kernel/fs.c:408-416 | writing one 32-bit entry of an indirect block reads back and leaves the others |
| `FsModel.AllocInv` | kernel/fs.c:65-88 | allocation keeps the ownership invariant: the block was owned by nobody and no indirect block is overwritten |
| `FsModel.PlaceInode` | kernel/fs.c:388-408 | hanging a fresh block at an empty slot changes this pointer and no other |
| `FsModel.PlaceEntry` | kernel/fs.c:409-417 | the same for an entry of the indirect block |
| `FsModel.FreeInv` | kernel/fs.c:91-105 | an owned block is marked, so freeing it does not panic, and freeing keeps the invariant |
| `FsModel.DetachInv` | kernel/fs.c:431-449 | dropping the indirect block drops all its freed entries with it |
| `FsModel.OwnedOnce` | kernel/fs.c:382-421 | a block reachable from an inode is marked, is no metadata, and is reachable from one place only |
| `FsModel.NoLeak` | kernel/fs.c:382-453 | a marked block that is no metadata is reachable from some inode |
| `FsCode.FileSys.Balloc` | kernel/fs.c:65-88 | the lowest unmarked block, until now owned by nobody, marked and zeroed; or 0 exactly when every block is marked; one free block fewer |
| `FsCode.AvailIsUnmarked` | kernel/fs.c:71-79 | the free blocks of the accounting are the clear bits of the bitmap |
| `FsCode.FileSys.Bfree` | kernel/fs.c:91-105 | panics exactly on a free block; otherwise exactly this block becomes free |
| `FsCode.FileSys.Bmap` | kernel/fs.c:382-421 | panics exactly from MAXFILE on; otherwise looks the block up or hangs a fresh zeroed one, succeeds exactly when the blocks it lacks are free, changes no other pointer but a first indirect block and no file's data, and logs at most one bitmap block per allocation, the new block and the indirect block |
| `FsCode.FileSys.FreeEntries` | kernel/fs.c:439-446 | frees every block the indirect block lists |
| `FsCode.FileSys.Itrunc` | kernel/fs.c:425-453 | exactly the blocks of this inode become free, and only bitmap blocks change |
| `FsCode.FileSys.Iupdate` | kernel/fs.c:226-241 | the inode's words are written and its block logged |
| `FsCode.FileSys.Flush` | kernel/log.c:214-235 | once the log has the logged blocks, it has the file system as it is read, but for blocks that a failed copy has changed, none of which holds pointers |
| `FsCode.TrackWrite` | kernel/fs.c:71-103 | a block that gets new contents and is passed to log_write keeps the account of what the log has |
| `FileSpace.TrackStep` | kernel/fs.c:382-421 | one call of bmap keeps the balance between what the rest of the file lacks and what is free, or shows that nothing further fits |
| `FileSpace.TrackThen` | kernel/fs.c:505-539 | balances of consecutive writes join, also where both touch one block |
| `FileData.Writei` | kernel/fs.c:505-539 | for all 32-bit offsets and counts: -1 exactly when the range starts past the end or ends past the largest file; otherwise the bytes laid are a prefix of the source over the file at off, size is the maximum, other files are unchanged; from the state before: the count is n exactly when the memory delivers and the missing blocks are free, a copy fails exactly when the memory ends early and there is room up to the block where it ends, and then the count is the start of that block and min(part, rest) bytes more are laid; bounds the blocks logged |
| `FileData.TornInBlock` | kernel/fs.c:515-528 | the bytes of a failed copy lie within the one block that follows the counted bytes |
| `FileData.Readi` | kernel/fs.c:471-496 | returns exactly the part of the request that lies in the file, for all 32-bit offsets and counts, and changes nothing |
| `FileData.ReadsBack` | kernel/fs.c:471-539 | what was overlaid is what the same range then holds |
| `FileData.BlockBytes` | kernel/fs.c:516-528 | changing bytes of a mapped block changes just these bytes of one file |
| `FileData.MappedBytes` | kernel/fs.c:382-421 | bmap changes no byte of any file, across the direct/indirect boundary |
| `FileData.WriteLoop` | kernel/fs.c:515-528 | the loop lays a prefix of the source over the file, ends as told from the state before (complete, no block, or a failed copy), keeps every file without holes, and tallies the blocks it logs |
| `FileWrite.ChunkFits` | kernel/file.c:149-156 | a chunk spans at most four blocks of which three are new, so data, bitmap, indirect and inode blocks are at most MAXOPBLOCKS |
| `FileWrite.WriteOp` | kernel/file.c:158-164 | one transaction of filewrite logs at most MAXOPBLOCKS distinct blocks, whatever the alignment and the number of bitmap blocks |
| `FileWrite.Filewrite` | kernel/file.c:134-181 | all chunks together overlay the file at the old offset with the bytes laid; the offset moves by what counts as written; n or -1; every transaction within the bound; from the state before: complete exactly when the memory delivers, the file stays within bounds and the missing blocks are free, and exactly when and where a copy fails with how many bytes laid |
| `FileWrite.OpStops` | kernel/file.c:150-172 | the transaction that falls short, told from the state before the first transaction |
| `FileWrite.LedgerThen` | kernel/file.c:150-172 | what fits after some transactions is what fitted before them |
| `FileWrite.TornOverwrite` | kernel/file.c:150-172 | a failed write that has changed a byte of the file |
| `FileData.Truncate` | kernel/fs.c:425-453 | one file becomes empty and every other keeps its bytes |
| `FileData.OtherFile` | kernel/fs.c:425-453 | a file whose inode stays keeps its bytes when only metadata blocks change |
| `FsImage.InodeBack` | kernel/fs.h:32-45 | an inode written into the bytes of its block, sixteen to a block, reads back with its size and addresses |
| `FsImage.InodesBack` | kernel/fs.c:226-241 | so do all inodes of a disk image |
| `FsImage.MetaInv` | kernel/fs.c:382-421 | the file system invariant depends on the bitmap and on indirect blocks and no other block |
| `Journal.Jfs.CrashAnywhere` | kernel/log.c:68-203 | at every point of every run of file system calls on the log, in any interleaving of open calls and between any two block writes of a commit or a recovery, the recovered disk reads as a file system that satisfies the invariant, with inodes, bitmap, indirect blocks and file data as they were when some last call ended, no later than the crash |
| `Journal.Jfs.LogAll` | kernel/log.c:214-235 | logging every changed block brings the log's view to the file system as it is; after the "too big" panic a crash is still safe |
| `Journal.Jfs.Write` | kernel/file.c:158-172 | writei within a call does what it does alone, and all its changes reach the log |
| `Journal.Jfs.Truncate` | kernel/fs.c:425-453 | so does itrunc |
| `Journal.Jfs.End` | kernel/log.c:146-175 | when the last open call ends, the disk recovers to the file system as it is |
| `Journal.Jfs.Crash` | kernel/log.c:116-123 | after a crash at any point and a recovery, reading inodes and blocks from the disk gives the file system of a snapshot, ready for the next call |
| `Journal.Jfs.Evict` | kernel/bio.c:73-89 | recycling the unpinned buffer of a failed copy brings back what the log has, and the file system stays in order |
| `Journal.Mount` | kernel/fs.c:42-47 | a freshly made disk with an empty log is such a file system |
| `PageTable.WalkUse` | kernel/vm.c:85-103 | the three levels of a walk are the tables their use records say |
| `PageTable.TableUnique` | kernel/vm.c:85-103 | page-table pages form an unshared three-level tree |
| `PageTable.SetLastEntry` | kernel/vm.c:142-165 | storing a leaf entry changes the translation of one page under one root |
| `PageTable.AddTableLookup` | kernel/vm.c:93-100 | hanging an empty table changes no translation |
| `VmCode.Vm.constructor` | kernel/kalloc.c:26-40 | every page after the kernel is on the free list |
| `VmCode.Vm.Kfree` | kernel/kalloc.c:46-63 | the page joins the free list, or the panic exactly for a page outside the range |
| `VmCode.Vm.Kalloc` | kernel/kalloc.c:68-82 | the first page of the free list, or 0 exactly when it is empty |
| `VmCode.Vm.Walk` | kernel/vm.c:85-103 | finds the leaf table; allocating adds only empty tables and no translation |
| `VmCode.Vm.Walkaddr` | kernel/vm.c:108-126 | the page mapped for user mode at the address, or 0 |
| `VmCode.Vm.MapPage` | kernel/vm.c:142-165 | mapping a page changes its translation and no other below MAXVA |
| `VmCode.Vm.UnmapOne` | kernel/vm.c:178-190 | unmapping a page clears its translation and no other |
| `VmCode.Vm.Uvmunmap` | kernel/vm.c:170-192 | a panic exactly when a page of the range is unmapped; otherwise exactly the range loses its translations and its pages become free |
| `UserMemory.Uvmalloc` | kernel/vm.c:225-249 | user memory grows to the new size with zeroed pages, or on any shortage the mappings are as before and every user page is given back; table pages made on the way stay |
| `UserMemory.Uvmdealloc` | kernel/vm.c:255-267 | exactly the pages past the new size are unmapped and free |
| `UserMemory.Uvmcopy` | kernel/vm.c:305-333 | the child has all pages with equal bytes and flags, or none |
| `UserMemory.FewerThanPages` | kernel/vm.c:225-249 | a pigeonhole bound: memory runs out before user pages reach the trapframe |
| `FreeWalk.Freewalk` | kernel/vm.c:271-287 | on a tree without leaves the "leaf" panic is unreachable and exactly its tables become free |
| `ProcMemory.Uvmcreate` | kernel/vm.c:196-205 | an empty root or no change |
| `ProcMemory.Uvmfree` | kernel/vm.c:291-297 | every page and table of the space becomes free, and no other |
| `ProcMemory.ProcPagetable` | kernel/proc.c:178-208 | trampoline and trapframe mapped, or on any shortage everything given back |
| `ProcMemory.ProcFreepagetable` | kernel/proc.c:212-218 | the whole space becomes free without a panic |
| `AddressSpaces.Spaces.AllocProc` | kernel/proc.c:111-152 | a fresh space or nothing changed, on every out-of-memory path |
| `AddressSpaces.Spaces.FreeProc` | kernel/proc.c:157-174 | the process's pages become free; others keep theirs |
| `AddressSpaces.Spaces.Fork` | kernel/proc.c:281-299 | a child with a copy of the memory, for which the only pages that changed hands are free ones that became its trapframe, its tables and its user pages; or every page as before. Either way every translation and the contents of every page that was in use are as before |
| `AddressSpaces.Spaces.Growproc` | kernel/proc.c:261-277 | the new size exactly, modulo 2^64, with zeroed writable pages and their tables from the free list, or with exactly the pages past the new size unmapped and given back; or on a shortage new empty tables and nothing else. No other translation of any process changes, nor the contents of any page that stays in use |
| `AddressSpaces.Spaces.KernelTake` | kernel/kalloc.c:68-82 | a page for another part of the kernel joins the pages it holds; every translation and every other page in use is as before |
| `AddressSpaces.Spaces.KernelGive` | kernel/kalloc.c:46-63 | and leaves them for the free list, likewise |
| `AddressSpaces.Spaces.Accounted` | kernel/proc.c:111-299 | conservation: every page is the kernel image's, free, held by another part of the kernel or else the trapframe of exactly one process, a table of a live process reached where its use record says, or mapped below a live process's size at the place recorded |
| `SchedSafety.RunningOnOneCpu` | kernel/proc.c:446-514 | in every run, whenever p->lock is free, p is RUNNING exactly when one and only one CPU has proc = p |
| `SchedSafety.NoLostWakeup` | kernel/proc.c:538-584 | for every channel, whatever lock guards it and whatever other channels share that lock: when a wakeup issued by a process under the lock has finished its scan, no process is asleep on the channel or committed to sleep on it |
| `SchedSafety.NoLostInterrupt` | kernel/proc.c:570-584 | the same for a wakeup by an interrupt handler on any CPU |
| `SchedSafety.TestedUnderLock` | kernel/proc.c:538-551 | from looking at its condition until it is one whom a wakeup finds, a process in sleep holds the channel's lock |
| `SchedSafety.ScannedAreAwake` | kernel/proc.c:570-584 | during the scan, whoever it has passed is awake |
| `SchedSafety.FreeLockHasNoSleeper` | kernel/sleeplock.c:21-41 | a sleeplock that nobody holds, with its inner lock free, has no sleeper |
| `SchedSafety.MutualExclusion` | kernel/sleeplock.c:21-52 | two processes never hold the same sleeplock, and the lock names its holder |
| `SchedSafety.SchedChecks` | kernel/proc.c:484-502 | sched's panics are unreachable: the caller holds its own lock and no other spinlock, is not RUNNING, and no interrupt handler can start |
| `SchedSafety.RunsAddUp` | kernel/proc.c:446-566 | per slot and in every state, runCount is preemptCount plus sleepCount plus exits, plus one while RUNNING |
| `SchedSafety.UserCounts` | kernel/trap.c:36-90 | in user mode interruptCount is at most preemptCount, and systemcallCount plus interruptCount at most trapCount |
| `SchedInvariant.FreeIsOff` | kernel/proc.c:408-421 | with its lock free a process that is not running is on no CPU, so freeing a zombie is safe |
| `SchedSafety.RunInv` | kernel/proc.c:446-584 | the invariant behind these in every state of every run |
| `FamilySafety.ParentsAlive` | kernel/proc.c:330-437 | in every run a parent is neither unused nor a zombie, and everybody but init who has started has one |
| `FamilySafety.ZombieReapable` | kernel/proc.c:347-388 | a zombie's parent can run and is not asleep in wait |
| `FamilySafety.SleeperHasLiveChild` | kernel/proc.c:391-437 | whoever sleeps in wait has a child and none of its children is a zombie |
| `FamilySafety.FreedOnce` | kernel/proc.c:157-174 | exits of a slot equal freeings plus one while it is a zombie |
| `FamilySafety.OnlyParentFrees` | kernel/proc.c:405-421 | only the current parent, holding wait_lock, frees a zombie |
| `FamilySafety.ScanIsRight` | kernel/proc.c:400-435 | a finished scan saw no child exactly when there is none, and goes to sleep only with no zombie child |
| `FamilySafety.RunInv` | kernel/proc.c:281-437 | the invariant behind these in every state of every run |
| `FamilyCode.Table.Wakeup` | kernel/proc.c:570-584 | exactly the process sleeping on the channel is woken |
| `FamilyCode.Table.Reparent` | kernel/proc.c:332-343 | every child is passed to init, init is woken exactly when there was one, and nothing else changes |
| `FamilyCode.Table.Exit` | kernel/proc.c:367-387 | children to init, the parent awake and init if it got a child, the process a zombie, every other field of every process unchanged |
| `FamilyCode.Table.ScanKids` | kernel/proc.c:401-427 | stops at the lowest zombie child, or knows whether there is a child |
| `FamilyCode.Table.Wait` | kernel/proc.c:391-437 | frees the lowest zombie child, reports no children exactly when there are none, or sleeps |
| `FamilyCode.Table.Fork` | kernel/proc.c:281-328 | the lowest unused slot becomes a child and no other slot changes, or there is none or the copy fails and nothing changes |
| `VirtioModel.RoomInRings` | kernel/virtio_disk.c:265-274 | a pigeonhole bound: the rings never hold NUM entries when one is added, so no entry is overwritten |
| `VirtioModel.ChainsApart` | kernel/virtio_disk.c:236-263 | different requests share no descriptor |
| `VirtioModel.PublishInv` | kernel/virtio_disk.c:215-277 | publishing a request on free descriptors keeps the partition into free ones and chains of three |
| `VirtioModel.FetchInv` | kernel/virtio_disk.c:267-274 | so does the device's taking an entry |
| `VirtioModel.CompleteInv` | kernel/virtio_disk.c:305-313 | and its completing any request it has taken |
| `VirtioModel.SeeInv` | kernel/virtio_disk.c:309-324 | and the driver's seeing a completion, whose status is good and whose buffer is waiting |
| `VirtioModel.ReleaseInv` | kernel/virtio_disk.c:286-289 | and the freeing of a finished chain |
| `VirtioSafety.RunInv` | kernel/virtio_disk.c:215-327 | the queue's invariant in every run of driver and device, whatever the order of starts, completions, interrupts and ends |
| `VirtioSafety.RequestStays` | kernel/virtio_disk.c:215-291 | while its buffer waits, a request stays at its head with its buffer and its chain and never goes back a stage, whatever other requests do |
| `VirtioSafety.ClearedStep` | kernel/virtio_disk.c:309-324 | a buffer stops waiting only in a turn of the interrupt handler, for a request of its own that was completed with good status |
| `VirtioSafety.WaitsForItsOwn` | kernel/virtio_disk.c:281-324 | from virtio_disk_rw to the interrupt: the first moment a buffer no longer waits is when the handler has come to its own completed request |
| `VirtioSafety.WaiterHasRequest` | kernel/virtio_disk.c:281-284 | a waiting buffer has an open request that no handler has come to |
| `VirtioCode.Disk.AllocDesc` | kernel/virtio_disk.c:155-166 | the lowest free descriptor, or none exactly when all are taken |
| `VirtioCode.Disk.FreeDesc` | kernel/virtio_disk.c:168-182 | the panics exactly past the table and on a free descriptor; otherwise the descriptor is cleared and free |
| `VirtioCode.Disk.Alloc3` | kernel/virtio_disk.c:199-213 | three different free descriptors, or with fewer than three free none is taken |
| `VirtioCode.Disk.StartRw` | kernel/virtio_disk.c:215-279 | the request is published as the machine does and nothing else changes, or the caller sleeps with fewer than three descriptors free |
| `VirtioCode.Disk.IntrOne` | kernel/virtio_disk.c:309-324 | clears the flag of exactly the buffer whose request was completed longest ago, in 16-bit indices that wrap, and changes nothing else |
| `VirtioCode.Disk.Intr` | kernel/virtio_disk.c:294-327 | sees every completion and only completions: exactly the buffers of completed requests stop waiting |
| `VirtioCode.Disk.FreeChain` | kernel/virtio_disk.c:184-197 | follows the links over exactly the three descriptors; free_desc does not panic |
| `VirtioCode.Disk.FinishRw` | kernel/virtio_disk.c:281-291 | the chain of a finished request is free again and nothing else changes |
| `VirtioCode.Wrapped` | kernel/virtio_disk.c:265-271 | a 16-bit index names the same slot as the count it abbreviates |
| `PipeCode.Counters` | kernel/pipe.c:88-95 | 32-bit counters that wrap still tell the slot, emptiness and fullness |
| `PipeCode.PutByte` | kernel/pipe.c:94-96 | a byte put into a pipe that is not full overwrites nothing pending |
| `PipeCode.Pipe.Write` | kernel/pipe.c:76-103 | appends exactly the bytes it reports, sleeps only when full; from the state before: a reader is left asleep beside data exactly when one slept and the writer is found killed before it is done or the pipe is full, with data in the pipe |
| `PipeCode.Pipe.Read` | kernel/pipe.c:105-130 | returns the next bytes in order; 0 for a positive request only when everything was read and the write end is closed; sleeps only when empty; strands no reader |
| `PipeCode.Pipe.Close` | kernel/pipe.c:58-74 | closing an end wakes the other side; the pipe is freed exactly when both are closed |
| `PipeCode.KilledWriter` | kernel/pipe.c:83-87 | a run in which a reader stays asleep beside data |
| `HeapList.InsertListed` | user/umalloc.c:32-43 | inserting a block with both joins keeps the list sorted and fully coalesced |
| `HeapList.InsertSum` | user/umalloc.c:32-43 | and gains exactly its units |
| `HeapList.TakeListed` | user/umalloc.c:74-82 | taking units from the tail of a block, or all of it, keeps the list sorted and coalesced and the units apart |
| `HeapList.SearchStep` | user/umalloc.c:29-31 | free's two stop conditions hold at the one place where the block belongs and nowhere else |
| `HeapBlocks.FreeAll` | user/umalloc.c:24-44 | free keeps links, order, disjointness from live blocks and the unit count |
| `HeapBlocks.TakeAll` | user/umalloc.c:73-85 | so does malloc's taking of a block |
| `HeapBlocks.GrowAll` | user/umalloc.c:46-61 | and morecore's new memory |
| `HeapBlocks.OneBlockPerUnit` | user/umalloc.c:24-90 | every unit of a block came from sbrk and no unit is in two blocks |
| `HeapBlocks.LinkedInsert` | user/umalloc.c:32-43 | the pointer updates of free link exactly the list with the block inserted |
| `HeapCode.Heap.FindPlace` | user/umalloc.c:29-31 | the search terminates, from wherever freep stands, at the gap |
| `HeapCode.Heap.Free` | user/umalloc.c:24-44 | the block leaves the live blocks and joins the free list |
| `HeapCode.Heap.Morecore` | user/umalloc.c:46-61 | at least 4096 units join the heap, or nothing changes when sbrk fails |
| `HeapCode.Heap.Search` | user/umalloc.c:72-89 | the search terminates with at most one call of morecore, made only when no block is long enough |
| `HeapCode.Heap.Malloc` | user/umalloc.c:63-90 | a new live block of the right length, or 0 exactly when sbrk was needed and failed |
| `HeapCode.SafeRequest` | user/umalloc.c:52-54 | the argument of sbrk is the request exactly up to 2 GB less two headers |
| `HeapCode.HugeRequest` | user/umalloc.c:52-54 | a larger request whose argument is 0 |
| `RegexModel.OneToken` | user/grep.c:92-93 | a plain character or a dot takes one character that fits |
| `RegexModel.EndToken` | user/grep.c:90-91 | a final dollar accepts only the end |
| `RegexModel.StarToken` | user/grep.c:97-105 | a starred character takes some run of characters that fit |
| `GrepCode.MatchHere` | user/grep.c:83-95 | answers yes exactly when the text splits into one segment per token and a rest |
| `GrepCode.MatchStar` | user/grep.c:97-105 | the same for a starred character and what follows |
| `GrepCode.Match` | user/grep.c:71-81 | yes exactly when the pattern matches somewhere, or at the beginning after a caret |
| `GrepCode.LinesAndTail` | user/grep.c:20-28 | a text is its newline-terminated lines and its tail |
| `GrepCode.ShortIsAll` | user/grep.c:17-18 | the lines before the first that does not fit; all of them exactly when every line has at most 1022 bytes |
| `GrepCode.OutputIsAll` | user/grep.c:17-33 | every matching line, the last one without a newline included, is written exactly when each matching line ends with a newline and has no line too long at or before it |
| `GrepCode.TailIsLost` | user/grep.c:20-28 | a matching last line without a newline that is not written |
| `GrepCode.LongIsLost` | user/grep.c:17-18 | a matching line of 1023 bytes or more that is not written |
| `GrepCode.JudgeLines` | user/grep.c:20-28 | the inner loop outputs the matching complete lines of the buffer and leaves the rest |
| `GrepCode.Grep` | user/grep.c:10-34 | for NUL-free input, however the reads split it, the output is the matching newline-terminated lines in order, up to the first line that does not fit into the buffer |

## Left out

- Assembly, device registers, UART, PLIC, console, printf: hardware access and formatting; `swtch` is one hand-off step.
- Fences and the test-and-set of spinlocks: acquire and release are atomic.
- System call dispatch and argument fetching, `exec`, directories and path lookup, link counts: mostly calls into the parts above.
- The kernel's own page table and mappings of several pages at once: user address spaces only use one page at a time and `uvmunmap` ranges.
- Type, device numbers and link count of an inode, which are left zero in its bytes; inode allocation and reference counts.
- Changes to buffers in the middle of a file system call: `writei` and `itrunc` are atomic between calls of others, and their log_writes follow them.
- Reads of holes: no file ever has one below its size, so `readi` never allocates; that is part of `FileData.Valid`.
- Scheduling, sleep and wakeup are steps of a machine only: the scheduler loop never ends and gives no method to state a postcondition for.
- Fairness and progress beyond "nobody stays asleep": the machines say what may happen, not that it will.
- Overflow of the scheduling counters: they are unbounded, so the counter laws hold for the C integers modulo 2^32.
- A device that reports an error: the driver panics; the device here completes every request with status 0.
- Waiting in `begin_op`, `virtio_disk_rw` and the pipe is sleeping and being called again; `SchedSafety.NoLostWakeup` and `NoLostInterrupt` hold for any channel and lock, but the code modules do not take steps of that machine.
- Code that holds two spinlocks besides `p->lock` at once: the scheduling machine has one at a time, and `exit` with `wait_lock` and `p->lock`.
- LogCode.Log.BeginOp: one turn of the loop; going to sleep and trying again is the caller's.
- LogCode.Log.EndOp: does not state the wakeup of waiting callers, which have no place in the log's state.
- CacheCode.BCache.Bget: takes devices other than 0, because `binit` leaves every buffer with device 0 and block 0.
- CacheCode.BCache.ReleaseBuf: takes a buffer that is unchanged or was passed to `log_write`, as callers in the file system do except `writei` after a failed copy; what becomes of that buffer is in `Journal.Jfs.Evict`.
- CacheCode.BCache.Bpin: takes a block that is not pinned yet, as `log_write` calls it; `LogBuf` covers a block that is.
- CacheCode.BCache.Bunpin: takes a buffer that has just been written home, as its one caller does.
- FsCode.FileSys.Bfree: takes a block of a file or a free block; freeing a bitmap or inode block would be accepted by the source.
- VmCode.Vm.Kfree: takes a page that is mapped nowhere; the source cannot tell and would put a page in use on the free list.
- VmCode.Vm.MapPage: `mappages` for one page, as all calls on user page tables are.
- VmCode.Vm.UnmapOne: frees ordinary pages and not the trampoline or a trapframe, as all callers of `uvmunmap` ask.
- VmCode.Vm.Uvmunmap: the same.
- FamilyCode.Table.Wakeup: the channels of `wait`, on each of which one process can sleep; any channel is in `SchedMachine`.
- HeapCode.Heap.Morecore: takes requests whose byte count fits `sbrk`'s `int`; `SafeRequest` says which.
- HeapCode.Heap.Search: the same.
- HeapCode.Heap.Malloc: the same.
- `printf`-style output of grep's `main`, and reading several files in turn.
- HeapCode.SafeRequest: the heap's methods take requests up to that size; beyond it the memory obtained is not what the header claims.
