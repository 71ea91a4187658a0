# Verified core of the xv6 tree and the vaccination protocol

This project models, in Dafny, the stateful cores of the operating-systems assignments: the
kernel of the xv6 tree under Assignment5 (crash-safe log, buffer cache, files, virtual memory,
processes, the multi-level feedback queue scheduler, pipes), three of its user programs
(allocator, shell parser, grep matcher), and the vaccination zones of Assignment4. Nothing was
executed; every statement below is proved by the Dafny verifier for all inputs, runs or states.
`dafny verify dfyconfig.toml` checks all of it.

| file | models |
|---|---|
| `Words.dfy`, `Lists.dfy`, `ProcState.dfy` | blocks as bytes and as little-endian words; lists without repetitions; process states |
| `LogProtocol.dfy` | the redo log as a protocol over single-block writes |
| `LogRuns.dfy` | whole runs of the log: interleaved operations and readers, crashes anywhere |
| `BufferCache.dfy` | `bio.c`: the buffer ring in front of the disk |
| `RedoLog.dfy` | `log.c` over the buffer cache, tied to the protocol's write plans |
| `FileLayer.dfy` | `fs.c`: bitmap, block map, read, write, truncate, what each logs; `filewrite` of `file.c` |
| `Umalloc.dfy` | `umalloc.c`: the K&R allocator (section 8.7 of The C Programming Language, 2nd ed.) |
| `Paging.dfy` | `kalloc.c` and `vm.c`: frames, page tables, address spaces |
| `Processes.dfy` | `sleeplock.c` and the sleeping half of `proc.c`, step by step |
| `Mlfq.dfy` | `MLFQ.c` and the timing fields of `proc.c` |
| `Shell.dfy` | the parser of `sh.c` |
| `Pipes.dfy`, `Grep.dfy`, `Zones.dfy` | `pipe.c`, the matcher of `grep.c`, `q2.c` |

Conventions and assumptions:

- A panic stops the machine. Methods report it by a result (`ok`, `-1`, `Panicked`), and the crash
  theorem covers it, since only the disk survives. In `Paging.dfy` two panics are preconditions
  instead, because they are demands on the caller: pages to be mapped are not mapped yet ("remap"),
  and the pages that `copyuvm` copies are present.
- A single block write is atomic, as `iderw` of `memide.c` has it (`memide.c:35-60`). A crash may
  come before any of them. At boot the header names at most LOGSIZE distinct home blocks.
- A panic for lack of a buffer in `bread` by a reader or a writer is a crash of the run theorems. Buffers
  that an operation holds are released before its `end_op`, so only readers hold any during a commit.
- Buffers start as block 0 of device 0, so the cache is unique for every other identity only.
- `sbrk` fails, or answers with an address above `base` and above what it gave before; memory that it
  gives ends below KERNBASE (`vm.c:227`).
- Files are grown from empty by `writei`. The superblock's bitmap precedes the data blocks.
- `data`, where kmap's third row starts, is page-aligned, as `kernel.ld` makes it.
- The scheduler runs on one CPU, and `ticks` stays below 1e9 (the scan's sentinel). Wakeups name the
  processes they reach; the channels are in `Processes.dfy`.
- The registration flags of `q2.c` start at zero (its loop at lines 429-431 clears one flag per zone).

Properties that are false of the code, each with its exact condition:

- MAXOPBLOCKS is the most distinct blocks an operation writes, and begin_op reserves that many. Even so
  operations can meet "too big a transaction": never, for operations of at most b > 0 distinct blocks, if
  and only if b < MAXOPBLOCKS and the log has at least MAXOPBLOCKS + 2b + 2 blocks
  (`LogRuns.ReservationSoundIff`). With the 30 blocks that `mkfs` makes, b = 9 is safe and b = 10 is not.
  `filewrite` stays within 10, and within 7 where the free map is one block, as `mkfs` makes it
  (`FileLayer.FileSys.FileWrite`).
- `commit` can find every buffer in use. With at most r buffers held by readers outside operations, and
  operations of MAXOPBLOCKS blocks, it never does if and only if the log has at most NBUF - r blocks (or
  no room for any entry); the condition for smaller operations is in `LogRuns.CommitHasBufferIff`. With
  `mkfs`'s log one reader is enough to make it panic.
- `iotime`, which `waitx` takes from the waiting time, is not the time asleep: it grows exactly by the
  clock ticks that find the process asleep and still the last one dispatched (`Mlfq.TimesCount`).
- `malloc` gives a block that is big enough and made of memory it has if and only if `nbytes` is at most
  0x7FFFFFF0 (`Umalloc.BigEnoughIff`, `Umalloc.Heap.Malloc`).

## Model

| member | source | states |
|---|---|---|
| LogProtocol.HeaderReadsBack | Assignment5/2019101050-xv6/xv6/log.c:84-113 | read_head after write_head gives back the logged block list exactly, whatever the header block held before |
| LogProtocol.RecoverMeaning | Assignment5/2019101050-xv6/xv6/log.c:115-122 | recovery, pointwise: a home block named by the header gets its log copy, every other home block is untouched, and the log is empty afterwards |
| LogProtocol.RecoveryRestartable | Assignment5/2019101050-xv6/xv6/log.c:68-82 | a recovery (or the install half of a commit) cut off after any number of block writes can be run again and gives the same home blocks |
| LogProtocol.CommitAtomic | Assignment5/2019101050-xv6/xv6/log.c:192-202 | a commit cut off after any j of its block writes recovers to the old disk if the header write is not among them, and to what readers saw in the cache if it is |
| LogProtocol.CommitEnds | Assignment5/2019101050-xv6/xv6/log.c:192-202 | an undisturbed commit leaves every home block as readers saw it and the log empty |
| LogRuns.StepKeeps | Assignment5/2019101050-xv6/xv6/log.c:124-233 | every step (begin_op, log_write of any operation of any size, end_op, a reader taking or releasing a buffer, each block write of a commit or recovery, a crash anywhere) keeps the invariant of the logging layer |
| LogRuns.GuardsHold | Assignment5/2019101050-xv6/xv6/log.c:124-233 | in every state of a run the machine can stop, every outstanding operation can end, and a log_write is held up by nothing but a missing buffer and its own panic test |
| LogRuns.CrashAtomicity | Assignment5/2019101050-xv6/xv6/log.c:69-202 | over every run with any number of crashes at any block write, including during recovery: the recovered disk is a prefix of the log_writes applied to the disk found at boot, and each begin_op/end_op bracket is wholly inside or wholly outside that prefix |
| LogRuns.DurableGrows | Assignment5/2019101050-xv6/xv6/log.c:145-174 | what has committed stays committed, the committed history only grows, and when a commit is over everything logged so far is durable |
| LogRuns.ReadersSeeAllWrites | Assignment5/2019101050-xv6/xv6/log.c:176-233 | before, during and after a commit, readers of home blocks see every log_write so far, in order |
| LogRuns.Bookkeeping | Assignment5/2019101050-xv6/xv6/log.c:125-174 | over every run: logged numbers are distinct home blocks that fit the log and include every block an outstanding operation logged; nothing is outstanding during a commit or a recovery; and nobody sleeps in begin_op while it would succeed: a sleeper has a commit in progress, or the log has no room for it and an outstanding operation will wake it |
| LogRuns.SleepersAndHolders | Assignment5/2019101050-xv6/xv6/log.c:125-174 | who sleeps in begin_op and who holds buffers after any step, exactly: an end_op with others outstanding, the end of a commit and a crash wake everybody, and nothing else does |
| LogRuns.PinsAreDue | Assignment5/2019101050-xv6/xv6/log.c:192-202 | at every point of a commit the pinned blocks are exactly the home blocks it has still to write |
| LogRuns.ReservationHolds | Assignment5/2019101050-xv6/xv6/log.c:125-141 | over every run whose operations log at most b <= MAXOPBLOCKS distinct blocks each: logged blocks plus the distinct blocks that outstanding operations may still log never exceed MAXOPBLOCKS + 2b, which is LOGSIZE for b = MAXOPBLOCKS |
| LogRuns.LogBounded | Assignment5/2019101050-xv6/xv6/log.c:125-141 | the most blocks ever logged at once, for operations of at most b distinct blocks: the least of LOGSIZE, size - 1 and MAXOPBLOCKS + 2b |
| LogRuns.FillLog | Assignment5/2019101050-xv6/xv6/log.c:125-233 | that bound is reached: a run of short operations and then two long ones, all within b, at every log size |
| LogRuns.ReservationSoundIff | Assignment5/2019101050-xv6/xv6/log.c:213-221 | operations of at most b > 0 distinct blocks never meet log_write's panic in any run if and only if b < MAXOPBLOCKS and the log has at least MAXOPBLOCKS + 2b + 2 blocks; the panic test comes before absorption, so with b = MAXOPBLOCKS no log size is enough |
| LogRuns.PanicReached | Assignment5/2019101050-xv6/xv6/log.c:218-219 | an explicit run to the panic whenever that condition fails, in particular for operations of MAXOPBLOCKS distinct blocks and a log of any size |
| LogRuns.CommitHasBufferIff | Assignment5/2019101050-xv6/xv6/bio.c:78-92 | with at most r buffers held by readers, who need no begin_op, commit finds a buffer for the log block in every run if and only if the most that can be logged plus r is less than NBUF; for operations of MAXOPBLOCKS blocks, if and only if the log has at most NBUF - r blocks |
| LogRuns.RunLastEnd | Assignment5/2019101050-xv6/xv6/log.c:145-174 | the last end_op, its commit's block writes and the finish form a run that ends with the view on disk and an empty log |
| BufferCache.Unlink | Assignment5/2019101050-xv6/xv6/bio.c:132-133 | taking a buffer out by its own links leaves one circular list of the others, in order |
| BufferCache.LinkFront | Assignment5/2019101050-xv6/xv6/bio.c:134-137 | putting a buffer after the head gives one circular list with it in front |
| BufferCache.RecycleCoherent | Assignment5/2019101050-xv6/xv6/bio.c:81-87 | giving a clean unreferenced buffer to a block that is not cached changes nothing that any reader sees, and pins and unpins nothing |
| BufferCache.Cache.constructor | Assignment5/2019101050-xv6/xv6/bio.c:38-56 | binit: one circular list of all NBUF buffers; readers see the disk |
| BufferCache.Cache.BGet | Assignment5/2019101050-xv6/xv6/bio.c:61-93 | the buffer of the block if cached, else a recycled one that was neither referenced nor dirty; panics exactly when there is neither |
| BufferCache.Cache.FindVictim | Assignment5/2019101050-xv6/xv6/bio.c:81-91 | the victim is the least recently used buffer with no reference and not dirty |
| BufferCache.Cache.BRead | Assignment5/2019101050-xv6/xv6/bio.c:96-106 | a locked buffer whose data is what the logical disk (the disk overlaid by pinned buffers) holds in that block; or, exactly when some process holds the buffer, a wait with a reference that keeps the buffer; or a panic exactly when there is no buffer or no such block |
| BufferCache.Cache.Resume | Assignment5/2019101050-xv6/xv6/bio.c:101-105 | bread after the wait: the same promise from the buffer as it is then |
| BufferCache.Cache.BWrite | Assignment5/2019101050-xv6/xv6/bio.c:109-116 | one block write; exactly that block is unpinned and readers see the written data |
| BufferCache.Cache.BRelse | Assignment5/2019101050-xv6/xv6/bio.c:120-141 | the last release moves the buffer to the front and keeps the order of the others; the list stays one ring of all buffers |
| RedoLog.Log.LogWrite | Assignment5/2019101050-xv6/xv6/log.c:213-233 | panics exactly on a full log or outside a transaction; else logs the block once (absorption), pins it, and makes its contents what readers see without writing the disk; it is the log_write step of the run theorems, enabled exactly when it does not panic |
| RedoLog.Log.WriteLog | Assignment5/2019101050-xv6/xv6/log.c:176-190 | writes to the log area exactly what readers see in the logged blocks, in log order, and leaves the buffers of concurrent readers alone |
| RedoLog.Log.WriteHead | Assignment5/2019101050-xv6/xv6/log.c:101-113 | one block write of the encoded in-memory header, beside any readers |
| RedoLog.Log.ReadHead | Assignment5/2019101050-xv6/xv6/log.c:85-96 | the in-memory header becomes the one on disk; nothing is written |
| RedoLog.Log.InstallTrans | Assignment5/2019101050-xv6/xv6/log.c:68-82 | the writes are exactly the install plan; every logged block ends unpinned; readers keep their buffers |
| RedoLog.Log.Commit | Assignment5/2019101050-xv6/xv6/log.c:192-202 | the block writes of the code are exactly the commit plan of the protocol, in order, while readers hold any buffers of blocks that are not logged; panics exactly when logged and held blocks take up all NBUF buffers |
| RedoLog.Log.RecoverFromLog | Assignment5/2019101050-xv6/xv6/log.c:115-122 | the block writes are exactly the recovery plan of the disk as found; it cannot fail; it is a recovery of the run theorems, all writes and the finish |
| RedoLog.Log.TryBeginOp | Assignment5/2019101050-xv6/xv6/log.c:125-141 | refines the run theorems: for every system with the same log, outstanding count and commit flag, it is admitted exactly when the begin_op step is enabled and then takes it, and sleeps exactly when the sleep step is; an admitted operation has its budget reserved beside all others' |
| RedoLog.Log.EndOp | Assignment5/2019101050-xv6/xv6/log.c:145-174 | the last operation out commits everything logged; any other writes nothing; in the run theorems' terms it is the end_op step, and for the last one the whole run of the commit; it panics exactly when that commit runs out of buffers |
| RedoLog.FreeIffRoom | Assignment5/2019101050-xv6/xv6/bio.c:78-92 | some buffer can be recycled if and only if logged blocks and readers' blocks together are fewer than the buffers |
| Umalloc.FreedCanonical | Assignment5/2019101050-xv6/xv6/umalloc.c:33-42 | free's insertion and merging keep the list ordered, disjoint and fully coalesced |
| Umalloc.FreedCovers | Assignment5/2019101050-xv6/xv6/umalloc.c:33-42 | free adds exactly the units of the freed block to the free memory |
| Umalloc.CanonicalUnique | Assignment5/2019101050-xv6/xv6/umalloc.c:24-44 | the free list is determined by which memory is free: two ordered coalesced lists over the same units are equal |
| Umalloc.FreeUndoesCarve | Assignment5/2019101050-xv6/xv6/umalloc.c:75-85 | giving back a block just carved by malloc restores the very same free list, whether it was split off or taken whole |
| Umalloc.PredStops | Assignment5/2019101050-xv6/xv6/umalloc.c:30-32 | free's two loop exits hold at a list cell exactly when it is the address-order predecessor, including at the wrap-around |
| Umalloc.BigEnoughIff | Assignment5/2019101050-xv6/xv6/umalloc.c:69-72 | the block has room for nbytes and sbrk is asked for exactly the memory that is then used if and only if nbytes <= 0x7FFFFFF0; beyond that sbrk's 32-bit signed argument is not positive, or the rounding wraps |
| Umalloc.BadRequests | Assignment5/2019101050-xv6/xv6/umalloc.c:46-61 | 2^31 bytes ask sbrk for a negative amount, 2^32 - 8 bytes for nothing, and 2^32 - 1 bytes are taken for none |
| Umalloc.Heap.FindPred | Assignment5/2019101050-xv6/xv6/umalloc.c:30-32 | from wherever the roving pointer is, the loop ends at the predecessor |
| Umalloc.Heap.Free | Assignment5/2019101050-xv6/xv6/umalloc.c:24-44 | keeps the heap invariant (ring, order, coalescing, free and live units partition everything from sbrk); free memory grows by exactly the block |
| Umalloc.Heap.MoreCore | Assignment5/2019101050-xv6/xv6/umalloc.c:46-61 | asks for at least 4096 units, never fewer than needed, and frees them into the list whether or not sbrk, called with the wrapped and signed product, really gave them |
| Umalloc.Heap.Malloc | Assignment5/2019101050-xv6/xv6/umalloc.c:63-90 | keeps the heap invariant; terminates after at most one morecore; a fresh live block of the right size, or 0 exactly when no free block is big enough and sbrk fails; from a heap of real memory, the block is big enough and real if and only if nbytes <= 0x7FFFFFF0 |
| FileLayer.MarkBits | Assignment5/2019101050-xv6/xv6/fs.c:63-74 | setting or clearing the bit of one block changes the bit of no other block |
| FileLayer.ReadBack | Assignment5/2019101050-xv6/xv6/fs.c:481-511 | on byte sequences: reading the range just written gives what was written, and the rest of the file is as before |
| FileLayer.MappedDense | Assignment5/2019101050-xv6/xv6/fs.c:372-400 | bmap at or just past the end of a file without holes leaves it without holes, and allocates nothing below the end |
| FileLayer.WriteStep | Assignment5/2019101050-xv6/xv6/fs.c:498-504 | one turn of writei's loop extends the written range, across blocks and the direct/indirect split, and disturbs no other file |
| FileLayer.TruncatedSound | Assignment5/2019101050-xv6/xv6/fs.c:407-435 | itrunc keeps block ownership exact: set bits of the data area are exactly the remaining references, each referenced once |
| FileLayer.LeftAreClear | Assignment5/2019101050-xv6/xv6/fs.c:56-78 | the clear bits of the free map are exactly as many as the data blocks that belong to no file |
| FileLayer.WriteLogs | Assignment5/2019101050-xv6/xv6/file.c:127-133 | the reckoning behind filewrite's chunk: data blocks, a block of the free map for each new block, the indirect block and the inode come to at most 2 * ceil(n / BSIZE) + 4 distinct blocks |
| FileLayer.FileSys.BAlloc | Assignment5/2019101050-xv6/xv6/fs.c:56-78 | the first block whose bit is clear, now marked, zeroed and both logged; panics exactly when every bit is set |
| FileLayer.FileSys.BFree | Assignment5/2019101050-xv6/xv6/fs.c:81-95 | clears exactly that bit; panics exactly when it is clear already |
| FileLayer.FileSys.BMap | Assignment5/2019101050-xv6/xv6/fs.c:372-400 | existing references stay; the block exists afterwards, zeroed and owned by nobody else if it is new, so that no stale indirect entry appears; panics exactly when fewer blocks are left than it has to allocate, which is none for a block that exists |
| FileLayer.FileSys.ReadI | Assignment5/2019101050-xv6/xv6/fs.c:452-476 | returns exactly the slice of the file that the range covers and never allocates or changes anything; -1 exactly for an offset past the end or a wrapping range |
| FileLayer.FileSys.WriteI | Assignment5/2019101050-xv6/xv6/fs.c:481-511 | the file becomes its old contents with the range replaced, grown if needed; every other file is unchanged; there are no holes; the inode on disk equals the one in memory although iupdate runs only when the size grows; it panics if and only if the clear bits of the map are fewer than the blocks that the range adds, the indirect block counted if it is the first to reach it, so never inside the blocks it has; every block it changes it logs; and it logs at most 2 * ceil(n / BSIZE) + 4 distinct blocks |
| FileLayer.FileSys.FileWrite | Assignment5/2019101050-xv6/xv6/file.c:126-156 | the chunked transactions together are one write of the range, as far as whole chunks fit below MAXFILE; complete if and only if the range starts in the file and fits; panics if and only if the map has too few clear bits for what fits; each transaction logs at most MAXOPBLOCKS distinct blocks, and at most 7 where the free map is one block |
| FileLayer.FileSys.ITrunc | Assignment5/2019101050-xv6/xv6/fs.c:407-435 | the file becomes empty, exactly its blocks' bits are cleared, no other file changes, bfree's panic is never met, and every block it changes it logs |
| Paging.FramesConserved | Assignment5/2019101050-xv6/xv6/kalloc.c:59-95 | in every sound state the free frames and the owned frames add up to all frames from the end of the kernel to PHYSTOP |
| Paging.SameFree | Assignment5/2019101050-xv6/xv6/kalloc.c:59-95 | if the owned frames are the same ones, so are the free frames, as a multiset |
| Paging.PutPteRefs | Assignment5/2019101050-xv6/xv6/vm.c:73 | a store to one page table entry changes no other entry of this or any address space |
| Paging.RightsOf | Assignment5/2019101050-xv6/xv6/vm.c:48-54 | in every sound state each present directory entry has the bits P, W and U, so that the rights of user code to a page, which the processor takes from both levels, are those of the page table entry |
| Paging.FreePageParts | Assignment5/2019101050-xv6/xv6/vm.c:270-275 | freeing the frame before clearing its entry, as deallocuvm does, is the same as after |
| Paging.Machine.constructor | Assignment5/2019101050-xv6/xv6/kalloc.c:31-53 | every frame is on the free list, once |
| Paging.Machine.KFree | Assignment5/2019101050-xv6/xv6/kalloc.c:59-77 | the frame is pushed on the list that is linked through the frames themselves |
| Paging.Machine.KAlloc | Assignment5/2019101050-xv6/xv6/kalloc.c:82-95 | the head of the list, or 0 exactly when it is empty |
| Paging.Machine.WalkPgdir | Assignment5/2019101050-xv6/xv6/vm.c:35-55 | finds the table, or makes a zeroed one exactly when asked and a frame is free, changing no mapping of any address space and leaving all protection to the page table entries |
| Paging.Machine.DeallocUvm | Assignment5/2019101050-xv6/xv6/vm.c:255-279 | the loop that skips whole directory entries unmaps exactly the pages from newsz up to oldsz and frees exactly their frames |
| Paging.Machine.FreeVm | Assignment5/2019101050-xv6/xv6/vm.c:283-298 | frees exactly the user frames, the tables and the directory of that address space; every other frame keeps its owner and its contents |
| Paging.Machine.AllocUvm | Assignment5/2019101050-xv6/xv6/vm.c:221-249 | succeeds if and only if the free frames cover the new pages and the tables they lack; then the new pages are zeroed frames that nobody used, which user code may read and write through both levels; on failure every user frame and mapping is as before, only tables of that directory may remain |
| Paging.Machine.MapRange | Assignment5/2019101050-xv6/xv6/vm.c:60-80 | mappages over a row of kmap: the entries are those of kmap; fails exactly when the tables cannot be had |
| Paging.Machine.SetupKvm | Assignment5/2019101050-xv6/xv6/vm.c:118-136 | succeeds if and only if 65 frames are free; then the kernel part is exactly kmap's, closed to user code and a direct map of memory with read-only text, and nothing else changed; on failure every frame is where it was |
| Paging.Machine.CopyUvm | Assignment5/2019101050-xv6/xv6/vm.c:315-345 | succeeds if and only if enough frames are free for the kernel part, the pages and their tables; then every page below sz has the parent's contents, flags and user rights, through both levels, on a frame that was free, and the kernel part is closed to user code; on failure every frame is where it was |
| Processes.StepKeeps | Assignment5/2019101050-xv6/xv6/proc.c:194-460 | every step of every process, at the grain of single lock operations, keeps the invariant of locks, sleepers, parents and forks |
| Processes.NoLostWakeup | Assignment5/2019101050-xv6/xv6/sleeplock.c:22-42 | in every interleaving: while a sleep lock's spin lock is free, a process asleep on it implies that it is locked; a parent asleep in wait has no zombie child |
| Processes.OneHolder | Assignment5/2019101050-xv6/xv6/sleeplock.c:22-42 | in every interleaving a sleep lock has at most one holder, and is locked while it has one |
| Processes.ParentLives | Assignment5/2019101050-xv6/xv6/proc.c:239-322 | in every interleaving a process's parent is alive: never a zombie and never a freed slot |
| Processes.NoDeadlock | Assignment5/2019101050-xv6/xv6/proc.c:383-460 | in every interleaving a running process can take its next step, or waits for a spin lock whose holder can, or waits for ptable.lock whose holder can |
| Processes.CanStep | Assignment5/2019101050-xv6/xv6/proc.c:383-460 | a running process can take the next step of its code exactly when the one spin lock that this step takes is free |
| Processes.Choices | Assignment5/2019101050-xv6/xv6/proc.c:239-322 | from user code every call can begin exactly when the lock it starts with is free |
| Processes.Dispatchable | Assignment5/2019101050-xv6/xv6/MLFQ.c:44-82 | a runnable process can be dispatched exactly when ptable.lock is free, wherever it was switched away |
| Processes.Handover | Assignment5/2019101050-xv6/xv6/sleeplock.c:22-42 | from every state with the spin locks free: releasesleep by the holder and acquiresleep's way back give the lock to a process asleep on it |
| Processes.AcquireTries | Assignment5/2019101050-xv6/xv6/sleeplock.c:22-31 | acquiresleep takes a free lock, and on a taken one falls asleep on the lock's channel, with every spin lock released |
| Processes.WaitReaps | Assignment5/2019101050-xv6/xv6/proc.c:239-322 | from every state with ptable.lock free: exit by a child whose parent sleeps in wait brings the parent back with the child's slot free and the child's children given to init |
| Processes.ForkWorks | Assignment5/2019101050-xv6/xv6/proc.c:194-234 | fork gives a child in the free slot, with the right parent, running, and changes nothing else |
| Processes.KillAndWake | Assignment5/2019101050-xv6/xv6/proc.c:421-460 | kill makes a sleeper runnable and marks it, and a wakeup makes exactly the sleepers on its channel runnable |
| Processes.ExitKeeps | Assignment5/2019101050-xv6/xv6/proc.c:261-277 | exit's wakeups and reparenting leave nobody asleep in wait over a zombie child, init included |
| Processes.ExitStep | Assignment5/2019101050-xv6/xv6/proc.c:261-277 | exit's table code, as its loops compute it, is the step that the interleaving theorems are about |
| Processes.Table.Wakeup1 | Assignment5/2019101050-xv6/xv6/proc.c:421-430 | every sleeper on the channel becomes runnable, and nothing else changes |
| Processes.Table.PassChildren | Assignment5/2019101050-xv6/xv6/proc.c:266-273 | the loop gives exactly p's children to init and wakes init exactly if one of them is a zombie, although it wakes in the middle of the pass |
| Processes.Table.Exit | Assignment5/2019101050-xv6/xv6/proc.c:261-277 | the parent's wakeup, the pass over the children and the ZOMBIE state together |
| Processes.Table.ScanChildren | Assignment5/2019101050-xv6/xv6/proc.c:291-317 | reaps the first zombie child, or reports exactly whether there are children |
| Mlfq.StepKeeps | Assignment5/2019101050-xv6/xv6/MLFQ.c:76-110 | every tick, switch, sleep, wakeup, fork, exit and reap keeps the scheduler's books |
| Mlfq.Accounting | Assignment5/2019101050-xv6/xv6/MLFQ.c:144-165 | over every run: q0+..+q4 equals rtime, cur_q is 0..4 for all but zombies, at most the current process is RUNNING, and waitx's wtime is not negative |
| Mlfq.StepPlaces | Assignment5/2019101050-xv6/xv6/MLFQ.c:57-110 | what any step does to any process, exactly: queue, entry time, slice, dispatch count, state and times; a process that leaves the CPU with its slice used up goes down one queue, one that waited more than 2^(level+4) ticks goes up one, a dispatched one gets 2^level ticks, and nothing else moves anybody |
| Mlfq.Demotion | Assignment5/2019101050-xv6/xv6/MLFQ.c:87-94 | over every run: with one tick left and not sent into exit, a running process is at min(level + 1, 4) after the tick; one that sleeps with ticks left keeps its level; no other step raises a level |
| Mlfq.TimesCount | Assignment5/2019101050-xv6/xv6/MLFQ.c:144-165 | over every run: while a process lives its rtime grows by exactly the clock ticks that found it running, q0 to q4 by those that found it running in that queue, and iotime by those that found it asleep with nothing dispatched since |
| Mlfq.BestUnique | Assignment5/2019101050-xv6/xv6/MLFQ.c:57-75 | the process least by (cur_q, toe, table index) is unique, so the dispatch is determined |
| Mlfq.DispatchLeast | Assignment5/2019101050-xv6/xv6/MLFQ.c:57-82 | while any process is RUNNABLE the dispatch picks one, and it comes before every other runnable process in that order |
| Mlfq.AgingBound | Assignment5/2019101050-xv6/xv6/MLFQ.c:96-110 | over every run: a process that stays RUNNABLE while the CPU is busy is at level 0 within the sum over its levels of 2^(level+4) plus one longest slice of 16 ticks, or 17 when processes are being killed |
| Mlfq.Scheduler.FindNext | Assignment5/2019101050-xv6/xv6/MLFQ.c:57-75 | the queue-by-queue scan finds the least runnable process by (cur_q, toe, index), or none |
| Mlfq.Scheduler.AgeAll | Assignment5/2019101050-xv6/xv6/MLFQ.c:98-110 | the aging pass, on every entry of the table |
| Mlfq.Scheduler.Reschedule | Assignment5/2019101050-xv6/xv6/MLFQ.c:85-123 | from the switch back to the next dispatch: demotion, aging and the scan |
| Mlfq.Scheduler.TimerTrap | Assignment5/2019101050-xv6/xv6/MLFQ.c:143-222 | the tick: the charge to c->proc, the wakeups, and the yield when the slice is used up |
| Mlfq.Scheduler.Wakeup1 | Assignment5/2019101050-xv6/xv6/proc.c:421-430 | exactly the chosen sleepers become runnable, with their entry time set |
| Shell.PrintParses | Assignment5/2019101050-xv6/xv6/sh.c:327-446 | for every command tree with at most MAXARGS-1 plain words per command, its parenthesised printing lexes to its tokens and parses back to the same tree |
| Shell.LineBack | Assignment5/2019101050-xv6/xv6/sh.c:344-446 | the round trip in front of the end or of any closing parenthesis |
| Shell.TerseParses | Assignment5/2019101050-xv6/xv6/sh.c:327-446 | operator precedence: every plain tree printed with the fewest parentheses (a pipe's right operand may be a pipe, a background's operand and a list's left operand a background, a list's right operand anything) lexes to its tokens and parses back to the same tree; and no line that parses to the tree has fewer parentheses |
| Shell.TerseLine | Assignment5/2019101050-xv6/xv6/sh.c:344-446 | that round trip in front of the end or of any closing parenthesis |
| Shell.LineLeast | Assignment5/2019101050-xv6/xv6/sh.c:344-413 | a text of a command has at least the parentheses of its terse printing |
| Shell.ParsesIffPlain | Assignment5/2019101050-xv6/xv6/sh.c:327-446 | a tree is the parse of some NUL-free line if and only if all its words are plain and no command has more than MAXARGS-1 of them |
| Shell.CommandConserves | Assignment5/2019101050-xv6/xv6/sh.c:344-446 | nothing typed is lost or invented: the words and operators of the tree are, with multiplicity, those of the line |
| Shell.LexRender | Assignment5/2019101050-xv6/xv6/sh.c:265-308 | printed tokens lex as themselves |
| Shell.GetToken | Assignment5/2019101050-xv6/xv6/sh.c:265-308 | consumes exactly the next token of the text; a word's span is that word, and ends at a character that is no part of a word |
| Shell.Peek | Assignment5/2019101050-xv6/xv6/sh.c:310-320 | looks at the next token without consuming it |
| Shell.ParseRedirs | Assignment5/2019101050-xv6/xv6/sh.c:374-397 | wraps the redirections of the grammar around the command, or panics where the grammar fails |
| Shell.ParseArgs | Assignment5/2019101050-xv6/xv6/sh.c:429-445 | the words of one command, with redirections anywhere among them; panics exactly at a tenth word, a misplaced symbol or a missing file |
| Shell.ParseExec | Assignment5/2019101050-xv6/xv6/sh.c:415-446 | the buffer parser agrees with the token grammar for a command or block |
| Shell.ParseBlock | Assignment5/2019101050-xv6/xv6/sh.c:399-413 | the buffer parser agrees with the token grammar for a parenthesised line |
| Shell.ParsePipe | Assignment5/2019101050-xv6/xv6/sh.c:361-372 | the buffer parser agrees with the token grammar for a pipeline |
| Shell.ParseLine | Assignment5/2019101050-xv6/xv6/sh.c:344-359 | the buffer parser agrees with the token grammar for a line; the recursion ends on the remaining input |
| Shell.NulTerminate | Assignment5/2019101050-xv6/xv6/sh.c:449-493 | a NUL is written at the end of every word and nowhere else |
| Shell.ReadsBack | Assignment5/2019101050-xv6/xv6/sh.c:449-493 | a NUL at the end of one word is inside no other, so every argument and file name reads back as exactly its token |
| Shell.ParseCmd | Assignment5/2019101050-xv6/xv6/sh.c:327-342 | panics exactly where the grammar does, with the buffer untouched; else the C strings left in the buffer are the parsed command, and no character of any word is damaged |
| Pipes.Pipe.constructor | Assignment5/2019101050-xv6/xv6/pipe.c:33-36 | an empty pipe with both ends open |
| Pipes.CountersTell | Assignment5/2019101050-xv6/xv6/pipe.c:85-106 | the two tests on counters that wrap at 2^32 mean empty and full |
| Pipes.Pipe.Write | Assignment5/2019101050-xv6/xv6/pipe.c:78-98 | accepts bytes in order until done or full; what was delivered stays a prefix of what was accepted, with at most PIPESIZE in flight |
| Pipes.Pipe.Read | Assignment5/2019101050-xv6/xv6/pipe.c:100-121 | delivers the next accepted bytes in order; for n > 0 nothing is returned only when the pipe is empty and the write end closed |
| Pipes.Pipe.Close | Assignment5/2019101050-xv6/xv6/pipe.c:59-75 | closes one end and frees the pipe exactly when both are closed; no byte is lost |
| Grep.StarHere | Assignment5/2019101050-xv6/xv6/grep.c:98-106 | c*re matches at a place if and only if some k characters there are accepted by c and re matches after them |
| Grep.MatchHere | Assignment5/2019101050-xv6/xv6/grep.c:84-96 | 1 exactly when the meaning of the pattern holds at the beginning of the text; terminates on the pattern |
| Grep.MatchStar | Assignment5/2019101050-xv6/xv6/grep.c:98-106 | 1 exactly when some k characters match c and the rest of the pattern matches after them |
| Grep.Match | Assignment5/2019101050-xv6/xv6/grep.c:72-82 | 1 exactly when some position of the text (the first, under ^) satisfies the declarative meaning of the pattern |
| Zones.StepKeeps | Assignment4/2019101050/q2/q2.c:185-358 | every critical section of every zone and student keeps the invariant |
| Zones.CollectKeeps | Assignment4/2019101050/q2/q2.c:247-265 | assert(vaccines >= studentCount) holds whenever it is reached |
| Zones.VaccinateReady | Assignment4/2019101050/q2/q2.c:266-280 | a vaccinating zone always has a dose and a student who is owed one for the next turn of its loop |
| Zones.EveryRun | Assignment4/2019101050/q2/q2.c:185-358 | in every interleaving: registered students plus open slots fit in a zone's vaccines, no student is held by two zones, each registration is one dose given or owed, no dose is lost, and waitingStudents counts the waiting |
| Zones.NobodyStuck | Assignment4/2019101050/q2/q2.c:185-358 | in every state each zone's next critical section is there for it, once somebody waits if it is to open slots, and a student waits only for an open slot or for the dose |
| Zones.StudentCanGo | Assignment4/2019101050/q2/q2.c:185-358 | from every state of every run a waiting student can still register at any zone and get exactly one dose |
| Zones.SlotsOpened | Assignment4/2019101050/q2/q2.c:190-198 | a zone opens as many slots as the limit, the students it saw waiting and its vaccines allow, at least one |
| Zones.CollectRegistered | Assignment4/2019101050/q2/q2.c:248-254 | lists exactly the set registration flags, in order, and clears them |

## Left out

- Umalloc.Heap.MoreCore: an argument to `sbrk` that is negative and within the size of the process also takes memory away; the model says only that it gives none.
- Paging.Machine.AllocUvm: a failed call may leave new, empty tables in the directory, as in the code; they are freed by freevm, so the free list itself is not restored.
- Shell.ParseArgs: command records are values; the write to `argv` through a pointer into the redirection chain is an update of the chain's innermost command.
- RedoLog.Log.Commit: starts, as `EndOp`, `WriteLog` and `InstallTrans` do, when no reader holds a logged block; in the code `commit` waits for such a reader. The interleaving of readers with the single writes of a commit is in `LogRuns.dfy`, where any block may be held.
- Processes.StepKeeps: acquiresleep, releasesleep, sleep, fork and kill are steps over values, because the claims are about interleavings of single lock operations; only the loops over the table are code. The part of fork and exit that touches files and memory, and pids, are not modelled; channels other than sleep locks and wait are one family.
- Zones.StepKeeps: critical sections are steps over values for the same reason; a student takes any zone with an open slot, where the code takes the first one whose lock it gets.
- Mlfq.AgingBound: says nothing about waiting inside queue 0, where aging resets the entry time too.
- FileLayer.FileSys.FileWrite: for a writable file that is an inode; the other cases are a return of -1 and the pipe's write, and device inodes are not modelled.
- The layout of inodes in inode blocks, link counts, directories, path names, the inode cache and `sysfile.c`.
- `exec.c`, which builds a program's memory from an ELF file and its arguments; `loaduvm` and `copyout`, which copy into an address space page by page; the switching of segments and page tables.
- Device drivers, boot code, traps other than the timer's, system-call argument checking.
- The other schedulers (`RR.c`, `FCFS.c`, `PBS.c`), which are simpler than the one modelled, and `ps`.
- Wakeup guarantees for pipe readers: a killed writer can return without waking them.
- The line-buffering loop of `grep.c`, and running commands in `sh.c`.
- The company side of `q2.c`, its vaccine queue and antibody test, and the rest of Assignments 1, 3, 4 and 6: sockets, system calls, or textbook sorting.
