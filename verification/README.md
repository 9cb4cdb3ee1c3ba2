# xv6 for RISC-V: a verified model

This project models the parts of an xv6 kernel and its user programs whose correctness is hard to
see from the code, and proves what they promise. `dafny verify dfyconfig.toml` checks all of it.

- **The write-ahead log** (`LogDisk`, `LogProtocol`, `LogRuns`, `Log`). A step system over
  processes, a disk and crashes refines a specification with one atomic commit step; the code's
  loops are proved to pass through exactly the disks that the crash lemmas speak of.
- **Files on disk** (`Blocks`, `FsLayout`, `FsOwnership`, `FsContent`, `FsWrite`, `FsBudget`, `Fs`,
  `FileWrite`). The bitmap, the inodes and the indirect blocks together keep one owner per block,
  a file is a flat byte sequence, and what a write logs is known exactly; its bound is reached
  (`FsTight`, `FsTightState`).
- **Files over the log** (`LogClient`, `LogCommits`, `FsCrash`). However many processes run transactions, whichever
  of them a commit groups and wherever the machine crashes, it comes up with the file system after a
  prefix of them: those complete when no operation was in progress last, or the time before.
- **The buffer cache** (`BufferRing`, `Bcache`). Reads see the newest contents, references are
  holders plus pins, and the links stay one circle in order of use. Commit and recovery are carried
  out through it (`LogPins`, `LogCache`) and pass through the disks of `Log`.
- **Address spaces** (`PageTable`, `Vm`, `UserSpace`, `UserVm`, `UserGrow`, `UserCopy`,
  `UserFree`, `CopyUser`, `UserSbrk`). The three-level tables are one flat map, every frame is free,
  a table, a user page or held by the running code, and memory from sbrk reads as zero and can be
  written.
- **Processes** (`ProcState`, `ProcInv`, `ProcSteps`, `ProcFamily`, `ProcTimes`, `ProcSleep`,
  `ProcWait`, `ProcRuns`, `ProcSched`). Any number of CPUs and processes, interleaved between lock
  operations: scheduling, fork, exit, wait, kill, sleep and wakeup, one sleep lock and the clock.
  Besides the invariant there are the life of a process over any run (`ProcLife`), its exact times
  (`ProcAccount`), and what each call achieves when it runs to its end (`ProcAlone`, `ProcCalls`,
  `ProcFork`, `ProcWake`, `ProcExit`, `ProcSwitch`).
- **The user heap** (`FreeList`, `Heap`), **the virtio disk queue** (`VirtQueue`, `VirtioDisk`),
  **the shell's parser** (`ShellSyntax`, `ShellGrammar`, `ShellRoundTrip`, `Shell`), **grep's
  matcher** (`Grep`) and **calendar conversion** (`Datetime`).

Conventions. Code that works in place is a class with methods; protocols with several actors are
step systems with an inductive invariant and theorems over reachable states. What the environment
decides is a parameter: which user copies fail (`faults`), what sbrk answers, which choice the
scheduler made, when the device completes, when the machine crashes. A panic that the source tests
for is either a result value or a precondition that every modelled caller is proved to meet.
Disks and memory are sequences; shifts and masks are written as division and remainder.

What the code does, where one might expect otherwise:

- The log region must have LOGSIZE+1 blocks. `BudgetSuffices` and `SmallLogPanics` show the bound
  to be exact.
- log_write refuses a full log before it looks for an entry to absorb (`FullLogRefusesAbsorption`).
- NBUF equals LOGSIZE, so a commit of a full log finds every buffer pinned and panics in bget:
  `LogCache.CachedLog.Commit` returns, when nobody holds a buffer, exactly if fewer than NBUF blocks
  are logged. A panic is `ok == false`. `LogFull.FillAndCommit` gets there: thirty blocks read, logged
  and released on a fresh disk, and then a commit.
- A truncation logs more than MAXOPBLOCKS blocks exactly when the bits of the file's blocks lie in
  MAXOPBLOCKS or more bitmap blocks (`FsBudget.TruncateBudget`). `FsTruncateState.TruncationOverBudget`
  has such a file, of ten blocks. filewrite never logs more.
- malloc passes its size to sbrk as an int, so for a request that needs 2 GB or more sbrk gets a
  number too small for the size, and malloc takes the memory for obtained all the same
  (`Heap.Heap.Malloc`).
- growproc with a decrease larger than the size succeeds and changes nothing, because the wrapped
  size is above the old one.
- kill finds slots by pid, unused slots have pid 0, and allocproc does not clear the mark; so a process
  can be born killed (`ProcFork.KilledAtBirth`), exactly when its slot was killed while it was unused
  (`ProcLife.LifeOverRuns`).
- FCFS and PRIORITY are selection rules only: the timer preempts in every mode, and PRIORITY
  prefers the youngest process.
- adjust_timezone is called with +2 although the printed text says UTC-2; the property is stated
  for every offset.
- getprocinfo reports the current tick count as the creation time, and reaps a zombie child the
  way wait does.

## Model

| member | source | states |
|---|---|---|
| LogDisk.HeaderRoundTrip | kernel/log.c:87-114 | the list of home blocks that write_head encodes in the header block is the list read_head decodes, for every list that fits |
| LogDisk.CommitPoint | kernel/log.c:103-114 | writing the header over filled log slots turns what a reboot would see from the old file system into the old one overlaid with the whole transaction |
| LogProtocol.StepRefines | kernel/log.c:55-235 | every step of begin_op, log_write, end_op, commit, crash and recovery, by any number of processes, keeps the invariant and is a step of a two-disk specification in which only the header write of a commit changes what survives a crash |
| LogProtocol.BudgetBounds | kernel/log.c:127-142 | the blocks still unused by active operations are at most MAXOPBLOCKS for each of them, which is what the admission test of begin_op adds up |
| LogRuns.FreshBoot | kernel/log.c:55-65 | a booting kernel on a disk with an empty log header meets the invariant, so the results below hold from there |
| LogRuns.RunRefines | kernel/log.c:67-203 | crash atomicity: after any run, with crashes between any two block writes, the file system a reboot comes up with is the one the specification holds durable, never a mixture |
| LogRuns.RebootsAgree | kernel/log.c:117-123 | however often the machine crashes while recovering, the system that comes up has exactly the blocks that were durable at the first crash |
| LogRuns.CommitCompletes | kernel/log.c:147-203 | a commit under way can finish by its own steps; it then has made the current state durable, emptied the log and left nobody asleep in begin_op |
| LogRuns.RecoveryCompletes | kernel/log.c:117-123 | from any crash, recovery by itself brings the system up with an empty log |
| LogRuns.NobodyStranded | kernel/log.c:127-175 | a process asleep in begin_op always has an active operation or a commit that will wake it |
| LogRuns.NoMissedAdmission | kernel/log.c:126-175 | in every state of every run from a fresh boot, a process asleep in begin_op is one that its test refuses: a commit is under way or one more reservation does not fit |
| LogRuns.OpLife | kernel/log.c:126-235 | a process enters an operation, or goes to sleep, exactly by its own begin_op as one more reservation fits or not; it sleeps until an end_op that leaves others in progress, the end of a commit or a crash; its budget goes down exactly by the blocks it adds |
| LogRuns.EmptyCommit | kernel/log.c:194-203 | the last end_op with nothing logged writes no block |
| LogRuns.BudgetSuffices | kernel/log.c:215-223 | with a log region of at least LOGSIZE+1 blocks, log_write never panics on an operation that has budget left, in any interleaving |
| LogRuns.SmallLogPanics | kernel/log.c:215-223 | with any smaller region three operations within budget reach that panic, so the bound is exact |
| LogRuns.FullLogRefusesAbsorption | kernel/log.c:220-233 | because the space test precedes the search for an absorbable entry, an operation that has used its budget panics on rewriting a block it already logged |
| Log.CommitIsAtomic | kernel/log.c:179-203 | of the disks a commit passes through, every one before the header write reboots into the old file system and every one from it on into the new one |
| Log.RecoveryReboots | kernel/log.c:69-123 | recovery ends with exactly what the disk stood for at its home blocks, and a crash at any point of it reboots into the same file system |
| Log.Log.WriteLog | kernel/log.c:179-191 | the loop copies pinned blocks to the log slots in order; the disks in between are the ones the lemmas speak of |
| Log.Log.WriteHead | kernel/log.c:103-114 | the header on disk lists the logged blocks |
| Log.Log.ReadHead | kernel/log.c:87-97 | the list in memory is the one on disk |
| Log.Log.InstallTrans | kernel/log.c:69-83 | the loop copies log slots home, and drops pins only outside recovery |
| Log.Log.Commit | kernel/log.c:194-203 | the home blocks end up as the operations read them, through exactly the disks that CommitIsAtomic speaks of |
| Log.Log.RecoverFromLog | kernel/log.c:117-123 | the home blocks end up as the disk stood for, through exactly the disks that RecoveryReboots speaks of |
| Log.Log.LogWrite | kernel/log.c:215-235 | which of the two panics happens or that the block is pinned; what is read afterwards changes at that block only; the list grows only for a new block |
| Blocks.WordOfPutWords | kernel/fs.c:407-413 | words of a block that were stored read back, the others are untouched |
| Blocks.OrBitSets | kernel/fs.c:75-77 | setting a bit in a byte sets that bit and no other |
| Blocks.AndNotBitClears | kernel/fs.c:99-102 | clearing a bit clears that bit and no other |
| FsLayout.MarkUsed | kernel/fs.c:66-105 | marking a block in the bitmap changes the state of that block and of no other, whichever bitmap block it is in |
| FsLayout.ReadOfWriteInode | kernel/fs.c:226-241 | an inode written by iupdate reads back, and no other inode changes |
| FsOwnership.OwnershipMeaning | kernel/fs.c:383-453 | the ownership invariant means: every pointer is to an allocated data block, no two slots share a block, and every allocated data block is pointed at |
| FsOwnership.AdoptKeeps | kernel/fs.c:383-421 | giving a free block to a slot keeps ownership exact |
| FsOwnership.ReleaseDirect | kernel/fs.c:432-437 | freeing a direct block and clearing its slot keeps ownership exact |
| FsOwnership.ReleaseEntry | kernel/fs.c:439-445 | freeing the entries of an indirect block, which the code does not erase, keeps ownership exact up to the entries already freed |
| FsOwnership.ReleaseIndirect | kernel/fs.c:446-448 | freeing the indirect block last makes ownership exact again |
| FsContent.AdoptExtends | kernel/fs.c:383-421 | allocation changes no byte of any file |
| FsContent.StoreKeeps | kernel/fs.c:516-528 | storing a data block changes that block of that file only |
| FsWrite.WrittenContent | kernel/fs.c:516-531 | the content after a write is the old content with the bytes spliced in |
| FsWrite.TruncatedBits | kernel/fs.c:426-453 | truncation clears exactly the bitmap bits of blocks the inode owned |
| FsWrite.ChunkWithinBudget | kernel/file.c:155-167 | the bound on the blocks that one chunk of filewrite logs is at most MAXOPBLOCKS for every offset and disk size; FsTight.TightBudget reaches it |
| FsBudget.LogsMore | kernel/fs.c:516-528 | one more turn of the write loop adds to the logged set exactly the blocks balloc handed out, their bitmap blocks, the indirect block if an entry was stored, and the data block written |
| FsBudget.LogsBound | kernel/fs.c:504-539 | that set, with the inode block, has at most two blocks for each block the bytes lie in, plus three, less one when the write starts inside a block |
| FsBudget.LogsBelong | kernel/fs.c:504-539 | besides the inode block only bitmap and data blocks are logged |
| FsBudget.TruncateBudget | kernel/fs.c:426-453 | truncation logs at most n blocks exactly when the bits of the file's blocks lie in fewer than n bitmap blocks |
| FsTight.TightBudget | kernel/file.c:155-167 | a write that starts inside file block 9, 10 or 11, covers three blocks more that the file lacks, with no indirect block yet and the first four free blocks under four different bitmap blocks, goes through and logs exactly ten blocks |
| FsTruncateState.TruncationOverBudget | kernel/sysfile.c:387-393 | there is a file system at rest with a file of ten blocks whose truncation has to log more than MAXOPBLOCKS blocks |
| FsTightState.BoundIsReached | kernel/file.c:155-167 | there is a file system at rest in which appending a chunk of 3072 bytes to a file is such a write |
| Fs.FileSystem.Balloc | kernel/fs.c:66-88 | the first free block, marked and zeroed; 0 exactly when every block is in use |
| Fs.FileSystem.Bfree | kernel/fs.c:92-105 | the bit is cleared; callers prove the "freeing free block" panic unreachable |
| Fs.FileSystem.Bmap | kernel/fs.c:383-421 | the file's block, allocating it and the indirect block if missing; 0 only on a full disk; existing files keep blocks and bytes, and exactly the blocks allocated, their bitmap blocks and the indirect block are logged |
| Fs.FileSystem.Iupdate | kernel/fs.c:226-241 | the inode on disk is the one in memory; no bitmap bit and no file content changes |
| Fs.FileSystem.Readi | kernel/fs.c:472-496 | the slice of the content clipped to the size, or -1 on a failed copy; nothing is allocated, logged or changed |
| Fs.FileSystem.Writei | kernel/fs.c:506-539 | the content becomes the old one with the first tot bytes spliced in; -1 exactly for an offset past the end or too large a file; short only at a failed copy or when the disk is full and the next block is missing; the logged set is exact and the inode's block comes last; every other file and the ownership invariant are kept |
| Fs.FileSystem.Itrunc | kernel/fs.c:426-453 | the file is empty, exactly its blocks are freed, exactly their bitmap blocks and the inode block are logged, and other files are unchanged |
| FileWrite.WriteChunk | kernel/file.c:162-167 | one transaction: the chunk is written at the file offset, which moves by what was written; the transaction is added to the history with its writes, which take the old disk to the new one, touch at most MAXOPBLOCKS blocks, exactly that many in the worst case of FsTight, and end with a block not written before |
| FileWrite.Filewrite | kernel/file.c:135-181 | the chunks together splice the first t bytes of the source into the file; t is short only for a reason given, and passes no byte at which a copy begins and fails; among the transactions that other processes commit before each chunk, filewrite makes exactly as many as n and t determine, each within MAXOPBLOCKS and leaving every other file alone; after every transaction, of whichever process, the file system is at rest and the file holds the chunks so far |
| FileWrite.TruncateFile | kernel/sysfile.c:387-393 | the transaction of a truncating open is added to the history; it is within MAXOPBLOCKS exactly when the file's bits lie in fewer than MAXOPBLOCKS bitmap blocks |
| LogClient.StepTracks | kernel/log.c:126-235 | every step of any number of processes that write transactions through the log, of the log itself and every crash keeps the current file system at what the writes so far make it, and the durable one at what it was when no operation was in progress last, or the time before that while the commit is under way |
| LogClient.RebootAfterPrefix | kernel/log.c:126-235 | wherever such a run stops, a reboot comes up with the disk after the transactions that were complete at one of those two moments, and at the later one if no commit is under way |
| LogClient.WriteFits | kernel/log.c:214-235 | an operation of at most MAXOPBLOCKS different blocks, the last of them written once, never makes log_write panic when the log has its full size, whatever other processes have in progress |
| LogCommits.OperationCommits | kernel/log.c:126-235 | on a log at rest, every operation that fits can begin, make its writes, end and commit, and the log is then at rest with exactly those writes on the home blocks, as a reboot finds them |
| FsCrash.CrashKeepsPrefix | kernel/log.c:68-235 | over any run of file-system transactions by any number of processes, grouped in commits in any way, with crashes anywhere, the rebooted disk keeps the ownership invariant, has no holes, and every file is as after a prefix of the transactions that ends where no operation was in progress |
| FsCrash.FilewriteSurvivesCrash | kernel/file.c:135-181 | after a crash in filewrite the file is the old content with the bytes of a prefix of the chunks spliced in, whatever transactions of other processes came between the chunks or were committed with them |
| FsCrash.FilewriteFitsLog | kernel/file.c:149-167 | in any run of any processes, each log_write of filewrite's transactions has room in the log |
| FsCrash.ChunkCommits | kernel/file.c:149-167 | each of filewrite's transactions can run so, and a reboot then comes up with the file system after it |
| BufferRing.UnlinkRing | kernel/bio.c:128-129 | unlinking a buffer leaves the others on one doubly linked circle in the same order |
| BufferRing.PushFrontRing | kernel/bio.c:130-133 | linking it after the head puts it first on the circle |
| Bcache.RecycleOk | kernel/bio.c:75-86 | a buffer with no references can be recycled without losing a logged block or duplicating a cached one |
| Bcache.DropOk | kernel/bio.c:117-137 | giving back a reference keeps the count equal to holders plus pins |
| Bcache.UnpinOk | kernel/bio.c:147-151 | a pin can be dropped once the newest contents are on disk |
| Bcache.Cache.constructor | kernel/bio.c:37-53 | all buffers on one circle, none in use |
| Bcache.Cache.Bget | kernel/bio.c:59-89 | the buffer that caches the block, else the least recently used one without references; fails exactly when there is neither |
| Bcache.Cache.Bread | kernel/bio.c:93-103 | the buffer returned holds the newest logged contents of the block, or else what is on disk |
| Bcache.Cache.LogWrite | kernel/log.c:225-233 | the newest contents of the block become the new data, and its buffer is pinned once |
| Bcache.Cache.Bwrite | kernel/bio.c:107-112 | the disk gets the newest contents of that block |
| Bcache.Cache.Overwrite | kernel/log.c:76-78 | contents copied into a held buffer and written are the newest contents and what is on disk, and every invariant stays |
| Bcache.Cache.Bunpin | kernel/bio.c:147-151 | after the block is home the pin goes, and every invariant stays |
| Bcache.Cache.Brelse | kernel/bio.c:117-137 | the reference is given back; a buffer left with none moves to the front and the others keep their order |
| LogPins.FreeBuffer | kernel/bio.c:75-86 | with fewer pins and holders than buffers some buffer can be recycled |
| LogPins.AllPinned | kernel/bio.c:75-88 | with NBUF pins every buffer is referenced and caches a logged block |
| LogCache.CachedLog.CopyToLog | kernel/log.c:183-190 | a turn of write_log through bread, bwrite and brelse puts the newest contents of the block into the log block and leaves pins and holders as they were |
| LogCache.CachedLog.CopyHome | kernel/log.c:73-82 | a turn of install_trans through the cache puts the log block home, on disk and as newest contents, and a commit drops exactly that pin |
| LogCache.CachedLog.WriteLog | kernel/log.c:179-191 | through the cache, the disks of Log.Fill in order; with no buffer held it runs out of buffers exactly when the log pins NBUF of them |
| LogCache.CachedLog.WriteHead | kernel/log.c:103-114 | the header block, read and written through the cache, lists the logged blocks |
| LogCache.CachedLog.InstallTrans | kernel/log.c:69-83 | in both modes the disks of Log.Install in order, with no pin left |
| LogCache.CachedLog.Commit | kernel/log.c:194-203 | a commit that returns goes through exactly the disks of Log.Commit; afterwards nothing is pinned and every block outside the log has on disk what was its newest contents; with no buffer held it returns exactly when fewer than NBUF blocks are logged |
| LogFull.FillAndCommit | kernel/log.c:194-203 | on a fresh disk and cache, LOGSIZE blocks read, logged and released one after another, and then the commit, end in the panic of bget |
| LogCache.CachedLog.ReadHead | kernel/log.c:87-97 | the list read through the cache is the one on disk |
| LogCache.CachedLog.RecoverFromLog | kernel/log.c:117-123 | recovery through the cache goes through the disks of Log.RecoverFromLog and installs what the disk stood for |
| LogCache.CachedLog.LogWrite | kernel/log.c:214-235 | both panics, absorption and the pin; the header list and the pins in the cache stay the same blocks |
| PageTable.Indices | kernel/riscv.h:367-383 | the three table indices of an address determine its page |
| PageTable.GrowLookup | kernel/vm.c:94-106 | adding an empty table page leaves the flat map from virtual page to entry unchanged |
| PageTable.StoreLookup | kernel/vm.c:147-176 | storing a leaf entry updates the flat map at that page and nowhere else |
| Vm.GrowQuiet | kernel/vm.c:94-106 | walk taking a frame for a table page keeps the tree well formed, the map unchanged and every frame accounted for |
| Vm.StoreMaps | kernel/vm.c:147-176 | one turn of the mapping loop extends the run of mapped pages by one |
| Vm.Machine.Kalloc | kernel/kalloc.c:69-82 | the first free frame; fails exactly when there is none |
| Vm.Machine.Kfree | kernel/kalloc.c:47-63 | the frame is free again, and only once |
| Vm.Machine.Walk | kernel/vm.c:87-108 | the address of the entry that the flat map has for the page; without alloc nothing changes and failure means no table; with alloc failure means no free frame |
| Vm.Machine.Mappages | kernel/vm.c:147-176 | the pages are mapped to consecutive frames with the given flags; it stops early only when frames run out |
| UserSpace.TakeOk | kernel/vm.c:248-254 | taking a free frame leaves the address space well formed and the frame accounted for nowhere else |
| UserSpace.MapUserOk | kernel/vm.c:254-255 | mapping a held frame makes it a page of this address space and of nothing else |
| UserSpace.ReleaseOk | kernel/vm.c:197-202 | freeing a mapped frame and clearing its entry returns exactly that frame |
| UserVm.UnmappedFrees | kernel/vm.c:181-204 | unmapping n pages frees at most n frames |
| UserVm.Uvmunmap | kernel/vm.c:181-204 | the pages are gone from the flat map, owned frames are free, every other page keeps its frame and bytes, no frame is lost |
| UserGrow.ImageFits | kernel/vm.c:237-263 | a process image has fewer pages than there are frames, so growing never runs into the trapframe |
| UserGrow.GrownUndo | kernel/vm.c:237-263 | unmapping what a failed uvmalloc had added brings back the old image |
| UserGrow.Uvmdealloc | kernel/vm.c:270-282 | exactly the pages from the rounded-up new size on are unmapped and freed; growing is ignored |
| UserGrow.Uvmalloc | kernel/vm.c:237-263 | on success the new pages are zeroed, mapped with the right flags and all else is unchanged; on failure pages, bytes and map are as before the call and no more frames are free than were asked for |
| UserGrow.Growproc | kernel/proc.c:285-304 | size and image change together: on growth the new pages are owned, readable and writable by the user, not executable, and zero, and every other page is mapped as before; on shrinking exactly the pages from the rounded new size on are unmapped and freed; -1 only for want of frames, with nothing changed but table pages |
| UserCopy.BystanderOk | kernel/vm.c:322-351 | whatever an operation does to one address space, a disjoint one keeps its map and its bytes |
| UserCopy.Uvmcopy | kernel/vm.c:322-351 | the child gets a copy of every page with the parent's flags and the parent is unchanged; on failure the child is as empty as before, for want of frames |
| UserFree.Freewalk | kernel/vm.c:286-305 | every table page below the root is freed once; the "freewalk: leaf" panic is unreachable |
| UserFree.Uvmfree | kernel/vm.c:309-314 | the free list gains exactly the frames of the address space |
| UserFree.ProcFreepagetable | kernel/proc.c:239-244 | the same for a process, whose trampoline and trapframe pages stay allocated |
| CopyUser.Walkaddr | kernel/vm.c:114-131 | non-zero exactly for pages mapped with PTE_V and PTE_U, and then the frame the address space owns there |
| CopyUser.Copyin | kernel/vm.c:398-418 | the bytes at the user addresses, up to the first page that is not readable |
| CopyUser.Copyout | kernel/vm.c:368-393 | exactly the bytes at the user addresses change; every page written is valid, a user page and writable, and -1 exactly at the first page that is not; the page tables do not change |
| CopyUser.Copyinstr | kernel/vm.c:424-468 | the bytes up to and including the first NUL, or -1 with no NUL in max bytes or before an unreadable page |
| CopyUser.Uvmclear | kernel/vm.c:355-363 | the page stays mapped and owned but is no longer accessible to the copy routines; the rest of the map is unchanged |
| UserSbrk.Sbrk | kernel/sysproc.c:38-49 | the old size, with what growproc promises, or -1 with size, pages and map as before |
| UserSbrk.GrowAndUse | kernel/proc.c:285-304 | after a successful sbrk, copyin anywhere in its pages gives zeroes, copyout of any bytes there succeeds, and copyin then gives those bytes |
| ProcRuns.StartOk | kernel/proc.c:259-281 | the state after userinit, for any number of slots and CPUs, satisfies the invariant |
| ProcRuns.InvKeeps | kernel/proc.c:115-814 | every step of the scheduler, fork, exit, wait, kill, sleep, wakeup, yield, sleep locks and the clock keeps the invariant |
| ProcRuns.RunKeeps | kernel/proc.c:115-814 | so every run does |
| ProcRuns.RunningIsCurrent | kernel/proc.c:634-714 | in every reachable state a process whose lock is free is RUNNING exactly when it is the current process of a CPU, and never of two, although the scheduler's choice may be stale |
| ProcRuns.ParentsLive | kernel/proc.c:308-431 | in every reachable state every process but init that is alive or a zombie has a parent, and parents are neither unused nor zombies |
| ProcRuns.OneHolder | kernel/sleeplock.c:22-41 | a sleep lock has at most one holder, and is locked while it has one |
| ProcRuns.NoLostWakeup | kernel/sleeplock.c:22-41 | when the sleep lock is free and its spinlock too, no process sleeps on it or is committed to sleeping on it |
| ProcRuns.NoMissedZombie | kernel/proc.c:381-431 | when wait_lock is free, a process asleep in wait or committed to it has no zombie child |
| ProcRuns.AccountsBalance | kernel/proc.c:418-423 | no process has run longer than it has existed, and the recorded waiting and run times of a zombie add up to its turnaround time |
| ProcTimes.ExitTimes | kernel/proc.c:418-423 | at exit neither subtraction wraps: turnaround is the time since creation and waiting the rest of it |
| ProcTimes.TimesKeep | kernel/proc.c:571-585 | every step keeps run_time within the time since creation, so that no subtraction at exit wraps |
| ProcAccount.AccountsAreExact | kernel/proc.c:571-585 | over every run from the start, the run time of a process is the number of clock ticks since its creation at which it was RUNNING, and the waiting time of a zombie the number of those before its exit at which it was not |
| ProcLife.LifeOverRuns | kernel/proc.c:115-814 | in every run a process changes its state only along the edges of its life, each by the one who may: fork by its maker, a wakeup of its channel or a kill, the scheduler that holds its lock, itself, or its parent's wait; its parent only by fork, by the parent's exit or when freed; its killed mark only by kill or when freed; and a freed slot is cleared |
| ProcLife.ZombieLeaves | kernel/proc.c:511-561 | a zombie leaves the table only by its parent's wait, and its slot is then unused with no parent |
| ProcCalls.WaitCollects | kernel/proc.c:511-561 | with a zombie child and the locks it needs free, wait returns by its own steps and has freed the first zombie child and changed nothing else, or nothing at all when the copy of the status fails |
| ProcCalls.WaitSleeps | kernel/proc.c:511-561 | without one it goes to sleep on itself if it has children and has not been killed, and returns otherwise; nothing else changes |
| ProcCalls.SleepSleeps | kernel/proc.c:742-767 | the process sleeps on the channel, off its CPU, and nothing else changes |
| ProcCalls.KillWakes | kernel/proc.c:793-814 | the victim is marked, and runnable if it slept; nothing else changes |
| ProcCalls.Begins | kernel/proc.c:308-814 | from user code each call can be entered: wait, sleep, kill, fork and wakeup always, exit except by init or while holding the lock, acquire without it and release with it |
| ProcFork.ForkMakes | kernel/proc.c:308-360 | into a free slot, fork makes a runnable child of the caller, created now with no run time; nothing else changes |
| ProcFork.ForkGivesUp | kernel/proc.c:320-326 | when memory runs out the slot is unused again and nothing else has changed |
| ProcFork.ForkRefused | kernel/proc.c:314-318 | without a free slot nothing changes |
| ProcFork.KilledAtBirth | kernel/proc.c:793-814 | a reachable state has a new child that is marked as killed, because its slot was killed while unused |
| ProcWake.WakeupWakes | kernel/proc.c:772-788 | exactly the sleepers on the channel become runnable |
| ProcWake.AcquireTakes | kernel/sleeplock.c:21-32 | a free sleep lock is taken by the caller |
| ProcWake.AcquireSleeps | kernel/sleeplock.c:21-32 | at a taken one the caller goes to sleep on it |
| ProcWake.ReleaseWakes | kernel/sleeplock.c:33-41 | the lock is free and exactly its sleepers are runnable |
| ProcExit.ExitLeavesZombie | kernel/proc.c:364-431 | exit by its own steps leaves a zombie that records its turnaround and waiting time and has left its CPU; exactly its children have become init's; exactly those asleep as its parent are awake, and as init if there were children |
| ProcSwitch.SwitchRuns | kernel/proc.c:634-675 | a runnable process that the scheduler chooses runs on that CPU from where it left off, and nothing else changes |
| ProcSwitch.StaleChoice | kernel/proc.c:652-669 | choosing a process that is no longer runnable changes nothing |
| ProcSwitch.PreemptYields | kernel/proc.c:707-714 | a preempted process is runnable, off its CPU, at the place it was |
| ProcSteps.CoreKeeps | kernel/proc.c:588-714 | every step keeps each lock held by exactly the CPU whose code is between acquire and release, and the current process of each CPU |
| ProcSteps.DispatchedBase | kernel/proc.c:652-669 | the scheduler's second look at the state under the lock makes the stale choice harmless |
| ProcFamily.FamilyKeeps | kernel/proc.c:364-431 | every step keeps the parent relation |
| ProcFamily.KinExit | kernel/proc.c:407-426 | a process that becomes a zombie has passed on all its children and is not init |
| ProcSleep.SleepDue | kernel/proc.c:742-788 | a process that still waits for the lock after any step finds it locked or the releaser not yet past it in the wakeup loop |
| ProcWait.WaitStep | kernel/proc.c:511-561 | every step keeps: a scan of wait that saw no zombie stays right until wait_lock is released, and an exiting child wakes its parent before it becomes a zombie |
| ProcWait.WaitExit | kernel/proc.c:407-426 | the step that makes the zombie leaves no sleeping parent behind |
| ProcSched.ChooseNext | kernel/proc.c:588-632 | round robin takes the first runnable slot, FCFS the oldest, PRIORITY the youngest process, ties by slot; none exactly when none is runnable or the mode is unknown |
| FreeList.MergeTiled | user/umalloc.c:33-43 | merging two touching blocks keeps every unit of the arena in exactly one block |
| FreeList.SplitTiled | user/umalloc.c:78-82 | so does cutting a block in two |
| FreeList.FreedOk | user/umalloc.c:25-44 | listing a block and merging it with the neighbours it touches gives an address-ordered ring with no two free blocks adjacent |
| FreeList.FreedFields | user/umalloc.c:33-43 | the pointer and size fields that free writes are the ones of that heap |
| FreeList.TakeOk | user/umalloc.c:75-77 | unlinking an exact fit keeps the heap invariant and adds that block to those handed out |
| FreeList.CutOk | user/umalloc.c:78-82 | so does cutting the tail off a larger one |
| Heap.SearchEnd | user/umalloc.c:74-88 | a scan that comes round to freep has seen that no free block is large enough |
| Heap.Heap.FindSpot | user/umalloc.c:29-32 | the search stops, after at most one round, at the entry the block belongs after |
| Heap.Heap.Free | user/umalloc.c:25-44 | the block is no longer handed out, all others are, the arena is unchanged, and one free block holds all of it |
| Heap.Heap.Morecore | user/umalloc.c:47-61 | the region from sbrk joins the arena as free memory; null exactly when sbrk fails; broken exactly when sbrk answers a request of 2 GB or more, which reaches it as a number too small for the size |
| Heap.Heap.Malloc | user/umalloc.c:64-90 | a block of the rounded-up size not overlapping any other; sbrk is asked once and only when no free block fits; null exactly when it then fails; for every request, the promise is broken exactly when sbrk has to be asked for 2 GB or more |
| VirtQueue.NeverFull | kernel/virtio_disk.c:216-292 | at most two requests are in flight, so neither ring ever has an unread slot overwritten |
| VirtQueue.RingAdd | kernel/virtio_disk.c:271-277 | writing the slot at idx % NUM appends to the ring across the 16-bit wrap |
| VirtQueue.RingTake | kernel/virtio_disk.c:312-323 | reading the slot at the reader's index gives the oldest entry |
| VirtQueue.ChainsApart | kernel/virtio_disk.c:216-292 | requests in flight share no descriptor and no buffer, and free descriptors plus three per request are NUM |
| VirtQueue.DeviceSees | kernel/virtio_disk.c:235-266 | a device that follows the chain by its NEXT and WRITE bits sees, for every request in flight, the transfer of that block to or from that buffer; it stores the data exactly for a read, and the status where the handler looks |
| VirtQueue.SubmitKeeps | kernel/virtio_disk.c:235-277 | describing and publishing a request keeps the queue invariant |
| VirtQueue.NoticeKeeps | kernel/virtio_disk.c:312-323 | the entry the handler reads is the oldest reported request, the status it finds is the one the device stored, and the mark it clears is that request's |
| VirtQueue.ReleaseKeeps | kernel/virtio_disk.c:288-289 | freeing a seen request's chain keeps the queue invariant |
| VirtioDisk.Disk.constructor | kernel/virtio_disk.c:120-146 | zeroed rings and descriptors, all descriptors free, no request in flight |
| VirtioDisk.Disk.AllocDesc | kernel/virtio_disk.c:157-166 | a free descriptor is taken, or -1 when there is none |
| VirtioDisk.Disk.FreeDesc | kernel/virtio_disk.c:170-182 | the descriptor is zeroed and free |
| VirtioDisk.Disk.Alloc3Desc | kernel/virtio_disk.c:202-213 | three different free descriptors exactly when three are free; otherwise the free set is as before |
| VirtioDisk.Disk.Submit | kernel/virtio_disk.c:216-277 | a chain of header, data and status descriptors for the buffer goes to the back of the avail ring; fails exactly when fewer than three descriptors are free |
| VirtioDisk.Disk.DeviceTake | kernel/virtio_disk.c:271-277 | the device reads the oldest head that was submitted |
| VirtioDisk.Disk.DeviceComplete | kernel/virtio_disk.c:309-314 | any taken request can be reported, in any order and with any status |
| VirtioDisk.Disk.Intr | kernel/virtio_disk.c:295-327 | it panics exactly when some reported request has a status other than 0; otherwise exactly the reported requests are acknowledged and exactly their buffers' marks cleared |
| VirtioDisk.Disk.FreeChain | kernel/virtio_disk.c:186-197 | exactly the three descriptors of the chain are freed |
| VirtioDisk.Disk.Finish | kernel/virtio_disk.c:283-289 | once the mark is clear the request leaves the queue and three descriptors are free again |
| ShellSyntax.TokenAt | user/sh.c:267-309 | a token lies inside the rest of the line, and every token but the end moves forward |
| ShellSyntax.ParseLine | user/sh.c:346-360 | parsing terminates on every line and a result never reads past the line |
| ShellGrammar.ItemsParse | user/sh.c:430-446 | words and redirections in any order parse to one command with those words, wrapped in the redirections in order, exactly when there are fewer than MAXARGS words |
| ShellGrammar.LineParse | user/sh.c:346-447 | a line of the grammar, in any spacing, parses to its meaning exactly when no command in it has too many words: | binds closer than &, & than ;, and | and ; group to the right |
| ShellGrammar.LineFound | user/sh.c:346-447 | whatever the parser accepts is a line of the grammar |
| ShellGrammar.SentenceParses | user/sh.c:329-343 | parsecmd accepts a sentence exactly when its commands have few enough words, and gives its meaning |
| ShellGrammar.GrammarDecides | user/sh.c:329-343 | parsecmd succeeds exactly on the sentences of the grammar |
| ShellGrammar.SentenceMeansOne | user/sh.c:329-447 | no line has two meanings |
| ShellRoundTrip.LineMeans | user/sh.c:346-447 | the sentence printed for a tree means that tree |
| ShellRoundTrip.RoundTrip | user/sh.c:329-447 | parsing the printing of a tree, with parentheses only where precedence, association or a redirection needs them, gives the tree |
| ShellRoundTrip.FewestGroups | user/sh.c:401-414 | no sentence with the same meaning has fewer parentheses than the printed one |
| Shell.LineGood | user/sh.c:346-447 | every word of a parsed command is a maximal run of ordinary characters of the line |
| Shell.Parser.GetToken | user/sh.c:267-309 | the loops compute the token of the grammar and the position after it |
| Shell.Parser.Peek | user/sh.c:312-321 | skips spaces and tells whether one of the symbols comes next |
| Shell.Parser.ParseRedirs | user/sh.c:376-398 | the loop collects the redirections of the grammar or panics |
| Shell.Parser.TakeArgs | user/sh.c:430-446 | the loop collects the words and redirections of the grammar or panics |
| Shell.Parser.TakeExec | user/sh.c:417-447 | the method, with its cursor, agrees with the parse functions that ShellGrammar is about on every line, panics included |
| Shell.Parser.TakeBlock | user/sh.c:401-414 | the same for a parenthesised command |
| Shell.Parser.TakePipe | user/sh.c:363-373 | the same for a pipeline |
| Shell.Parser.TakeLine | user/sh.c:346-360 | the same for a line |
| Shell.Parser.NulTerminate | user/sh.c:451-494 | a NUL is stored after every word and nowhere inside one |
| Shell.Parser.Parse | user/sh.c:329-343 | succeeds exactly on the sentences of the grammar, with the command it means, and in the buffer every word of it now reads, as a C string, as its slice of the line |
| Grep.OneMore | user/grep.c:93-94 | a literal or a dot matches one character and the rest follows |
| Grep.Repeats | user/grep.c:99-106 | a star matches some number of characters and the rest follows |
| Grep.MatchHere | user/grep.c:85-96 | true exactly when some prefix of the text is in the language of the expression |
| Grep.MatchStar | user/grep.c:99-106 | the same for a starred character followed by an expression |
| Grep.Match | user/grep.c:73-82 | true exactly when some prefix of some suffix is, or of the whole text under ^ |
| Datetime.SecondsDetermine | kernel/datetime.c:31-72 | two dates with the same seconds since the epoch are equal |
| Datetime.SecondsArePosix | kernel/datetime.c:15-21 | from 1970 on, counting days with the table of months and the leap-year rule gives the seconds of POSIX.1-2017, section 4.16, with the day of the year in closed form |
| Datetime.LengthsArePosix | kernel/datetime.c:15-21 | so the length of every month is the distance to the first of the next |
| Datetime.RtcDate.TimestampToDate | kernel/datetime.c:31-72 | the date, valid in the calendar, whose seconds since the epoch, by the formula of POSIX.1-2017, are the timestamp |
| Datetime.AfterIsNext | kernel/datetime.c:104-124 | the carry over month and year ends is the next day |
| Datetime.BeforeIsPrevious | kernel/datetime.c:81-101 | the borrow over month and year starts is the previous day |
| Datetime.RtcDate.AdjustTimezone | kernel/datetime.c:75-128 | the result is a date exactly when the hour moves by at most one day, which covers every offset from -24 to 24, and then its seconds have moved by 3600 times the offset; with SecondsDetermine it is the date converted directly |
| Datetime.AdjustIsConvert | kernel/datetime.c:31-128 | converting a timestamp and then adjusting by h hours, |h| <= 24, gives the date that converting the moved timestamp gives |
| Datetime.RtcDate.SysDatetime | kernel/datetime.c:132-159 | the date printed is two hours ahead of boot time plus time since boot, in POSIX seconds |

## Left out

- ProcTimes.TimesKeep: the clock tick is one step, and tick counts do not wrap at 32 bits.
- ProcSched.ChooseNext: the table is read in one snapshot; in the step system the choice is arbitrary instead.
- FileWrite.Filewrite: no other process writes the file between two transactions; pipes and devices are not modelled.
- Fs.FileSystem.OtherProcesses: stands for the transactions of other processes by its contract only; its body has them do nothing.
- FsCrash.FilewriteSurvivesCrash: the log_writes of one chunk do not alternate with those of another operation, though any number of operations may be in progress and share the commit.
- Fs.FileSystem.Readi: a copy to or from user space succeeds or fails for a whole block.
- VirtioDisk.Disk.Submit: sleeping for descriptors and for completion, which the process model covers, and the device registers and memory fences.
- Shell.Parser.TakeArgs: the redirection nodes that share the command under construction are built after its last argument instead of before.
- Directories, path names, inode allocation and reference counts (ialloc, iget, iput, dirlink, namex) are not modelled.
- exec, system-call argument handling, pipes, the console and device drivers other than the disk queue.
- Spinlock internals, memory ordering, trap entry and assembly: locks are atomic steps.
- More than one sleep lock at a time, and the spinlocks that generic sleep and wakeup callers hold.
- Liveness of scheduling: no fairness is assumed or proved; what is proved is that an operation, a commit, a recovery and each system call can run to completion by their own steps.
- ProcCalls.KillWakes: the slot with the given pid is a parameter, and the exit of a killed process on its way to user space is not modelled.
- The kernel's own page table, and page contents beyond free, table and user bytes.
- Other user programs, and the input loop of grep.
