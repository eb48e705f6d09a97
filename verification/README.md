# Verification of the PlugAndPlay kernel

A model in Dafny of the parts of PlugAndPlay that move memory and processes about, with proofs of what they keep.
`dafny verify dfyconfig.toml` verifies the whole project.

The memory half is built in layers. `words.dfy`, `sticks.dfy` and `swap.dfy` are the hardware: `uint32_t`
arithmetic, Memory Sticks that together form one flat array of bytes, and a swap file of fixed blocks behind a bump
allocator. `free_list.dfy` is the list of free blocks with best and worst fit and merging. `segments.dfy` holds the
segment tables, what it means for them to be sound, and the logical view: for each process, the bytes of each of its
segments, from RAM or from swap. `tables.dfy` and `compaction.dfy` prove, on values, what each change of the tables
does to soundness and to the view. `kernel_memory.dfy` is the class with the handlers of the scheduler's requests, each
proved against the abstract machine of `logical.dfy`, in which bases, free blocks, sticks and swap do not exist.
`mmu.dfy` and `cpu.dfy` are the other side: the translation with its wrapping sums, and the memory instructions.
`runs.dfy` puts both together: any sequence of requests and CPU accesses is a run of the abstract machine, and in such
runs the bytes of a segment change only when somebody writes to it; and every answer is the one that the tables call for.

Soundness is stated by counting: every address of memory is in exactly one free block or resident segment
(`Segments.Tiles`), free blocks are merged, and swap ranges lie below the next block to be handed out.

`limits.dfy` builds small machines with the handlers themselves on which the known failures show.

The scheduler half consists of independent models. `mutexes.dfy` is a class with priority inheritance along the
wait-for graph. `suspension.dfy` is a state machine whose actions are the critical sections and the unlocked accesses of
the suspension timers, the I/O workers, the dispatcher and the medium-term scheduler; an independent observer of the
messages to Kernel Memory says what is allowed. `suspension_runs.dfy` proves of all orderly runs that the observer is
content and what that means (orderly runs are those without the two races listed below), `suspension_order.dfy` that
orderly is exactly what a run must be, and `suspension_progress.dfy` that no process is ever left hanging in a wait. `dispatcher.dfy` is a state machine of all the queues, the CPUs, the hands of the
threads and the two semaphores, with an estado for each process (`estados.dfy`); `conservation.dfy` proves of it where
each process is, and `dispatch_order.dfy` whose turn it is. `wire.dfy` has the encoders, the parsers and the
demultiplexer (with `little_endian.dfy`), and `wire_layout.dfy` says what the bytes are.

Where the code does not do what one would expect of it, the code was followed, and a contract or a lemma says when it does:

- `KernelMemory.Memory.DeleteSegment`: freeing the base of a swapped segment puts a block into the free list that is not
  memory. The state is sound afterwards if and only if the segment was in RAM (or not found).
- `KernelMemory.Memory.UnsuspendProcess`: restoring a process that still has bytes in RAM, as a suspension that ran out
  of swap leaves it, loses the memory these had. The state is sound afterwards if and only if there were none.
- `KernelMemory.Memory.SuspendProcess`: a segment already in swap is dumped again, from no address. The request is
  answered and memory stays sound if and only if the segments that swap still has room for, counted from the first, are
  all in RAM.
- `Mmu.AcceptedRanges`: the limit test can wrap. It is exact if and only if address and end do not both wrap, which the
  bound on memory plus segment size excludes.
- `KernelMemory.Memory.WriteMemory`: a range whose end wraps past 2^32 passes the limit test and is written up to the end
  of memory, and the write is acknowledged. An acknowledged write is a store if and only if its range does not wrap.
  `Limits.WrappedWrite` shows it on a machine built by the handlers, as `DeletedInSwap`, `RestoredInPart` and
  `SuspendedTwice` do for the other three handlers.
- `Wire.ReturnedBack`: a returned process is read back as sent if and only if a system call is sent with the motive
  MOTIVO_SYSCALL and with no other.
- `SuspensionOrder.OrderExact`: the suspension protocol has two races. A mutex wait raises `block_epoch` and reads it again
  as two unlocked accesses, so that an I/O wait of the same process can begin before the one or between both, and the timer
  of the mutex wait then suspends the wait for I/O. And the dispatcher writes EXEC into a process that it has already sent
  to a CPU, so that a timer can have put it in SUSP_BLOCK meanwhile; the EXEC then hides the suspension from the I/O worker.
  The protocol can go wrong if and only if an I/O wait begins while such an epoch is open (of a process whose estado is
  BLOCK and not about to be overwritten), or a timer marks a process whose EXEC is outstanding. `EpochRace` and `ExecRace`
  are the runs.
- `Conservation.RunExact`: the same late EXEC can put a process that is in a READY, BLOCK or mutex queue in EXEC. Every
  process is in a place for its estado throughout a run if and only if each EXEC finds it on its CPU, or taken off it and
  not yet decided about. `LateExec` is a run in which it does not.
- `Mutexes.Scheduler.BlockOn`: LOCK reads the owner and enters the queue without a lock in between. The second half is in
  order if and only if the mutex is still taken; `LateWaiter` shows it free with a process in its queue.
- `FreeBlocks.EmptyBlockLeftBehind`: segments of no bytes can leave blocks of no bytes in the free list, so "the same
  free blocks" after a rollback speaks of blocks of at least one byte.

The module documentation in the repository is partly out of date; the code was followed throughout.

## Model

| member | source | states |
|---|---|---|
| `FreeBlocks.FreeList.Assign` | PlugAndPlay.main/kernel_memory/src/memory_bloques.c:23-62 | best or worst fit: the block carved is the first of the smallest (largest) that fit; failure means that none fits and changes nothing |
| `FreeBlocks.GivesSame` | PlugAndPlay.main/kernel_memory/src/memory_bloques.c:23-62 | an allocation has one outcome: one block is chosen, and what is left is determined |
| `FreeBlocks.CarveKeeps` | PlugAndPlay.main/kernel_memory/src/memory_bloques.c:48-61 | taking bytes off a block removes exactly those bytes from the free set and keeps the list merged, disjoint and in range |
| `FreeBlocks.FreeList.Release` | PlugAndPlay.main/kernel_memory/src/memory_bloques.c:64-88 | adds exactly the released bytes, ends with no two adjoining blocks (the merge loop terminates by list length); releasing a base that is not memory leaves a block outside memory |
| `FreeBlocks.FreeList.FindAdjoining` | PlugAndPlay.main/kernel_memory/src/memory_bloques.c:70-86 | the nested search finds a pair to merge unless there is none |
| `FreeBlocks.Strays` | PlugAndPlay.main/kernel_memory/src/memory_bloques.c:64-88 | a block that is not memory, once released, stays in the list whatever is released after it |
| `FreeBlocks.RunIsOneBlock` | PlugAndPlay.main/kernel_memory/src/memory_bloques.c:64-88 | a stretch of memory that is all free lies in one block of a merged list |
| `FreeBlocks.FuseKeeps` | PlugAndPlay.main/kernel_memory/src/memory_bloques.c:76-82 | merging two adjoining blocks keeps the set of free bytes and stays in range, in 32-bit arithmetic |
| `FreeBlocks.Canonical` | PlugAndPlay.main/kernel_memory/src/memory_bloques.c:64-88 | two merged lists that free the same bytes hold the same blocks (of at least one byte) |
| `FreeBlocks.EmptyBlockLeftBehind` | PlugAndPlay.main/kernel_memory/src/memory_bloques.c:64-88 | why blocks of no bytes are set apart: they survive merging, so the same bytes can be free in two different lists |
| `FreeBlocks.WholeMemoryIsOneBlock` | PlugAndPlay.main/kernel_memory/src/memory_bloques.c:64-88 | a merged list that frees all of memory contains the one block that is all of it |
| `FreeBlocks.MassIsTotal` | PlugAndPlay.main/kernel_memory/src/memory_bloques.c:90-98 | the sum of the block sizes is the number of free addresses counted one by one, with multiplicity |
| `FreeBlocks.FreeList.FreeSpace` | PlugAndPlay.main/kernel_memory/src/memory_bloques.c:90-98 | the loop returns the sum of the block sizes |
| `FreeBlocks.FreeList.ResetToSingle` | PlugAndPlay.main/kernel_memory/src/memory_bloques.c:100-110 | one block, or none if it would be empty |
| `MemorySticks.Bank.AddStick` | PlugAndPlay.main/kernel_memory/src/memory_conexiones.c:140-170 | a stick is laid right after the memory there was, whose content is kept; a full table changes nothing |
| `MemorySticks.Bank.TotalRam` | PlugAndPlay.main/kernel_memory/src/memory_conexiones.c:252-260 | the sum of the stick sizes is the size of the flat memory |
| `MemorySticks.FindStick` | PlugAndPlay.main/kernel_memory/src/memory_conexiones.c:262-277 | finds a stick holding the address exactly when the address is below the total, with the wrapping bound test of the code |
| `MemorySticks.StickOrder` | PlugAndPlay.main/kernel_memory/src/memory_conexiones.c:140-170 | sticks lie in table order, none reaching into a later one |
| `MemorySticks.Bank.Read` | PlugAndPlay.main/kernel_memory/src/memory_io.c:11-70 | a read split over sticks returns the bytes of one flat array; it fails exactly when the range leaves memory |
| `MemorySticks.Bank.ReadSome` | PlugAndPlay.main/kernel_memory/src/memory_io.c:20-64 | one round reads a positive number of bytes from inside one stick, or finds none |
| `MemorySticks.Bank.Write` | PlugAndPlay.main/kernel_memory/src/memory_io.c:75-123 | a write split over sticks is one overlay on the flat array and nothing else; what fits is written even when it fails |
| `MemorySticks.Bank.WriteSome` | PlugAndPlay.main/kernel_memory/src/memory_io.c:81-116 | one round writes a positive number of bytes inside one stick, or finds none |
| `MemorySticks.Bank.WriteChunk` | PlugAndPlay.main/memory_stick/src/utils_memory_stick.c:61-118 | one message to one stick patches exactly its range of the flat array |
| `Words.PatchedTwice` | PlugAndPlay.main/kernel_memory/src/memory_io.c:81-116 | consecutive patches from the same data compose to one |
| `Swap.SwapArea.Reserve` | PlugAndPlay.main/kernel_memory/src/memory_swap.c:25-36 | the bump allocator hands out the next blocks exactly when they fit, with the code's wrapping test |
| `Swap.SwapFile.WriteBlock` | PlugAndPlay.main/swap/src/utils_swap.c:23-51 | a valid block number stores the block, any other changes nothing |
| `Swap.SwapFile.ReadBlock` | PlugAndPlay.main/swap/src/utils_swap.c:23-83 | a valid block number returns what was stored there |
| `Swap.DumpSegment` | PlugAndPlay.main/kernel_memory/src/memory_scheduler.c:280-308 | the dump puts the segment's bytes, block by block with a partial last one, into the reserved blocks and into no other; it fails exactly when the segment is not in RAM |
| `Swap.LoadSegment` | PlugAndPlay.main/kernel_memory/src/memory_scheduler.c:412-434 | the load puts the bytes held by the segment's blocks at its base and writes nothing outside it; it fails only on an invalid block |
| `Swap.BlocksForBounds` | PlugAndPlay.main/kernel_memory/src/memory_scheduler.c:325-334 | the number of blocks is the least that holds the segment |
| `Swap.SwapBytesAppend` | PlugAndPlay.main/kernel_memory/src/memory_scheduler.c:285-306 | one more block extends what the blocks hold by its bytes |
| `Swap.SwapBytesFrame` | PlugAndPlay.main/kernel_memory/src/memory_scheduler.c:280-308 | what a segment's blocks hold depends on no other block |
| `Segments.FindSegment` | PlugAndPlay.main/kernel_memory/src/memory_procesos.c:197-202 | the first segment with the id |
| `Segments.Decomposed` | PlugAndPlay.main/cpu/src/cpu_mmu.c:30-38 | a logical address splits into the one segment number and offset it was made of |
| `Segments.Conservation` | PlugAndPlay.main/kernel_memory/src/memory_bloques.c:90-98 | in every sound state free space plus the limits of the resident segments is the size of memory |
| `Segments.UsedBySegment` | PlugAndPlay.main/kernel_memory/src/memory_procesos.c:41-60 | every resident segment accounts for its addresses in the count of used ones |
| `Segments.BytesFrame` | PlugAndPlay.main/kernel_memory/src/memory_scheduler.c:280-308 | a segment's bytes do not depend on RAM outside it or on swap blocks not yet reserved |
| `Segments.ViewFrame` | PlugAndPlay.main/kernel_memory/src/memory_scheduler.c:311-374 | writing free RAM and unreserved blocks leaves the bytes of every segment alone |
| `Tables.Exchange` | PlugAndPlay.main/kernel_memory/src/memory_scheduler.c:311-374 | moving bytes between the free list and one process, none lost or shared, keeps memory exactly tiled |
| `Tables.LostBytes` | PlugAndPlay.main/kernel_memory/src/memory_scheduler.c:437-478 | losing a byte in such a move breaks the tiling |
| `Tables.Allocated` | PlugAndPlay.main/kernel_memory/src/memory_scheduler.c:547-591 | a segment carved from a free block and appended keeps the tables sound |
| `Tables.Deleted` | PlugAndPlay.main/kernel_memory/src/memory_scheduler.c:611-619 | deleting a segment keeps the tables sound exactly if it was in RAM: the code frees its base without looking |
| `Tables.DropProcess` | PlugAndPlay.main/kernel_memory/src/memory_scheduler.c:639-662 | freeing the resident segments of a process and dropping it keeps the tables sound |
| `Tables.MoreMemory` | PlugAndPlay.main/kernel_memory/src/memory_cpu.c:217-230 | a new stick and its free block keep the tables sound |
| `Tables.MovedOut` | PlugAndPlay.main/kernel_memory/src/memory_scheduler.c:335-360 | a dumped segment takes the next swap blocks, which overlap no others, and gives up its RAM |
| `Tables.MovedOutView` | PlugAndPlay.main/kernel_memory/src/memory_scheduler.c:335-360 | and keeps its bytes, as does every other segment |
| `Tables.MovedIn` | PlugAndPlay.main/kernel_memory/src/memory_scheduler.c:437-478 | new bases for a whole process are sound exactly if none of its bytes were still in RAM |
| `Tables.MovedInView` | PlugAndPlay.main/kernel_memory/src/memory_scheduler.c:412-434 | a restored process has the bytes it had, whatever its new bases |
| `Compaction.SortByBase` | PlugAndPlay.main/kernel_memory/src/memory_compactacion.c:36-82 | the entries, permuted, in order of base |
| `Compaction.CursorBehind` | PlugAndPlay.main/kernel_memory/src/memory_compactacion.c:84-101 | the packed segments never reach past where the next one still is, so sliding down overwrites nothing needed |
| `Compaction.SlideRam` | PlugAndPlay.main/kernel_memory/src/memory_compactacion.c:84-101 | one copy keeps the bytes of every segment, moved or not yet moved, although source and target may overlap |
| `Compaction.SlideTable` | PlugAndPlay.main/kernel_memory/src/memory_compactacion.c:84-101 | one move changes one base, to the cursor |
| `Compaction.SlideCount` | PlugAndPlay.main/kernel_memory/src/memory_compactacion.c:84-101 | after each move the used addresses are [0, cursor) and those of the segments still to move |
| `Compaction.CompactedSound` | PlugAndPlay.main/kernel_memory/src/memory_compactacion.c:84-105 | packed segments and one free block after them tile memory |
| `Compaction.CompactedView` | PlugAndPlay.main/kernel_memory/src/memory_compactacion.c:45-106 | every segment, in RAM or in swap, keeps its bytes through a compaction |
| `Compaction.CompactionLowersAndKeepsOrder` | PlugAndPlay.main/kernel_memory/src/memory_compactacion.c:84-101 | no base is raised, swapped segments are left alone, and the order of the segments in RAM is kept |
| `Compaction.CompactedFreeSpace` | PlugAndPlay.main/kernel_memory/src/memory_compactacion.c:104-105 | the single free block has all the free space there was |
| `KernelMemory.Memory.constructor` | PlugAndPlay.main/kernel_memory/src/memory_bloques.c:11-14 | the empty machine is sound, shows no process, and places segments by the fit it was asked for |
| `KernelMemory.Memory.CreateProcess` | PlugAndPlay.main/kernel_memory/src/memory_scheduler.c:128-163 | a process without segments is appended to the logical memory |
| `KernelMemory.Memory.RegisterStick` | PlugAndPlay.main/kernel_memory/src/memory_cpu.c:208-250 | memory grows by the stick and no process sees a difference |
| `KernelMemory.Memory.DeleteSegment` | PlugAndPlay.main/kernel_memory/src/memory_scheduler.c:595-627 | removes the first segment with the id from the logical memory; memory stays exactly tiled if and only if the segment was in RAM or does not exist |
| `KernelMemory.Memory.FinishProcess` | PlugAndPlay.main/kernel_memory/src/memory_scheduler.c:630-669 | removes the process from the logical memory and gives all its RAM back |
| `KernelMemory.Memory.FreeResident` | PlugAndPlay.main/kernel_memory/src/memory_scheduler.c:639-650 | the loop frees exactly the RAM of the process's resident segments |
| `KernelMemory.Memory.SuspendProcess` | PlugAndPlay.main/kernel_memory/src/memory_scheduler.c:311-374 | swap has room for the first k segments; it answers and leaves memory sound if and only if these are in RAM, and then exactly they have moved to swap and no segment of any process has changed its bytes; there is no answer if and only if one of them has bytes already in swap |
| `KernelMemory.Memory.SuspendAll` | PlugAndPlay.main/kernel_memory/src/memory_scheduler.c:335-362 | the loop, round by round, with what is left of swap |
| `KernelMemory.SuspendStep` | PlugAndPlay.main/kernel_memory/src/memory_scheduler.c:335-360 | one round moves one more segment, or leaves a block that is not memory in the free list for good |
| `KernelMemory.Memory.SwapOut` | PlugAndPlay.main/kernel_memory/src/memory_scheduler.c:335-360 | nothing happens exactly when swap has too few blocks left; a segment in RAM moves to the next ones, bytes kept; one with bytes already in swap fails |
| `KernelMemory.Memory.DumpOut` | PlugAndPlay.main/kernel_memory/src/memory_scheduler.c:347-359 | dump, free and forget the base: it fails exactly for a segment with bytes in swap; a segment in RAM is then in its reserved blocks with the bytes it had, and nothing else changed |
| `KernelMemory.SwappedOut` | PlugAndPlay.main/kernel_memory/src/memory_scheduler.c:347-359 | the tables stay sound and no process sees a difference |
| `KernelMemory.Memory.UnsuspendProcess` | PlugAndPlay.main/kernel_memory/src/memory_scheduler.c:437-478 | on success all segments are in RAM with the bytes they had before, and the state is sound if and only if none had been in RAM; with its bytes in reserved blocks it is restored if and only if, taking the segments in table order, each from the block chosen for it, none is left without a block; the new bases are those of the chosen blocks; without room every base and every free block is as before |
| `KernelMemory.Memory.ReserveAll` | PlugAndPlay.main/kernel_memory/src/memory_scheduler.c:377-409 | refuses if and only if, taking the segments in table order and carving the chosen block for each, some of them leave a list in which no block fits the next; otherwise each has the base of its chosen block; on refusal the same tables and the same free blocks as before |
| `KernelMemory.TookSame` | PlugAndPlay.main/kernel_memory/src/memory_scheduler.c:377-409 | there is one way to take the segments in order: the bases and what is left free are determined |
| `KernelMemory.TookAll` | PlugAndPlay.main/kernel_memory/src/memory_scheduler.c:377-409 | a process that got RAM for all its segments could not have been refused |
| `KernelMemory.Memory.PutBack` | PlugAndPlay.main/kernel_memory/src/memory_scheduler.c:390-402 | the rollback restores each base and frees exactly what was taken |
| `KernelMemory.SameAfterRollback` | PlugAndPlay.main/kernel_memory/src/memory_scheduler.c:390-402 | a rolled-back free list holds the same blocks |
| `KernelMemory.Memory.LoadAll` | PlugAndPlay.main/kernel_memory/src/memory_scheduler.c:412-434 | every segment of the process is loaded from its blocks and no RAM outside them is written |
| `KernelMemory.MovedInFacts` | PlugAndPlay.main/kernel_memory/src/memory_scheduler.c:412-478 | after the load: sound and with the same bytes exactly if nothing of the process was in RAM |
| `KernelMemory.Memory.Compact` | PlugAndPlay.main/kernel_memory/src/memory_compactacion.c:45-106 | no process sees a difference; without segments nothing changes; otherwise segments are packed from 0 in their order, with one free block after them |
| `KernelMemory.Memory.CollectInOrder` | PlugAndPlay.main/kernel_memory/src/memory_compactacion.c:56-82 | the resident segments, each once, in order of base |
| `KernelMemory.Memory.SlideAll` | PlugAndPlay.main/kernel_memory/src/memory_compactacion.c:84-101 | the sliding loop moves every collected segment and ends with the cursor after the last |
| `KernelMemory.Memory.SlideEntry` | PlugAndPlay.main/kernel_memory/src/memory_compactacion.c:86-100 | one segment is copied down to the cursor and its base set |
| `KernelMemory.SlideStep` | PlugAndPlay.main/kernel_memory/src/memory_compactacion.c:84-101 | each round keeps what the sliding loop relies on |
| `KernelMemory.AllMoved` | PlugAndPlay.main/kernel_memory/src/memory_compactacion.c:84-105 | when all have moved nothing was lost and memory is tiled |
| `KernelMemory.Memory.CreateSegment` | PlugAndPlay.main/kernel_memory/src/memory_scheduler.c:528-592 | for a positive size within the maximum and an existing process it succeeds exactly when the free space is enough in total, compacting only when no block is; the new segment is the last of the process, at the base answered, and no other changes its bytes; the base is that of the chosen block, or, after a compaction, where the packed segments end |
| `KernelMemory.Memory.PlaceSegment` | PlugAndPlay.main/kernel_memory/src/memory_scheduler.c:547-591 | the part after the checks: granted exactly when the free space is enough in total |
| `KernelMemory.Memory.FindRoom` | PlugAndPlay.main/kernel_memory/src/memory_scheduler.c:547-577 | a block, after a compaction only if no block fits; none exactly when the free space is not enough |
| `KernelMemory.CompactedStart` | PlugAndPlay.main/kernel_memory/src/memory_scheduler.c:486-525 | what compaction leaves free begins at the size of memory less the free space there was |
| `KernelMemory.Memory.CompactAndReassign` | PlugAndPlay.main/kernel_memory/src/memory_scheduler.c:486-525 | after compaction a positive size always fits |
| `KernelMemory.CompactionMakesRoom` | PlugAndPlay.main/kernel_memory/src/memory_scheduler.c:486-525 | compaction turns enough free space in total into one block that is enough; with no segments there is such a block already |
| `KernelMemory.Memory.FreeSpace` | PlugAndPlay.main/kernel_memory/src/memory_scheduler.c:184-195 | the answer is memory minus the limits of the resident segments |
| `KernelMemory.Memory.Translate` | PlugAndPlay.main/kernel_memory/src/memory_procesos.c:189-225 | the physical address exactly when the segment is found, in RAM and passes the wrapping limit test |
| `KernelMemory.TranslatedRange` | PlugAndPlay.main/kernel_memory/src/memory_procesos.c:189-225 | a translated range lies in its segment unless its end wraps, and then it leaves memory |
| `KernelMemory.Memory.ReadMemory` | PlugAndPlay.main/kernel_memory/src/memory_scheduler.c:198-232 | a fault exactly when the translation fails; otherwise the logical bytes if there are such bytes, and no answer exactly when the range wraps past 2^32 |
| `KernelMemory.Memory.WriteMemory` | PlugAndPlay.main/kernel_memory/src/memory_scheduler.c:235-272 | a fault changes nothing; an acknowledged write is a store of the logical machine if its range does not wrap past 2^32, and then changes no other segment of any process; if it wraps there are no such bytes to load |
| `KernelMemory.SegmentsApart` | PlugAndPlay.main/kernel_memory/src/memory_scheduler.c:528-592 | no address belongs to two segments |
| `KernelMemory.ViewStore` | PlugAndPlay.main/kernel_memory/src/memory_scheduler.c:235-272 | isolation: writing inside one segment changes the bytes of that segment only |
| `KernelMemory.ViewLoad` | PlugAndPlay.main/kernel_memory/src/memory_scheduler.c:198-232 | RAM at the translated address is what the logical memory shows |
| `Limits.WrappedWrite` | PlugAndPlay.main/kernel_memory/src/memory_scheduler.c:235-272 | a machine on which a write whose end wraps is acknowledged, is no store, and has overwritten the bytes of another segment |
| `Limits.DeletedInSwap` | PlugAndPlay.main/kernel_memory/src/memory_scheduler.c:611-619 | a machine that deleting a swapped segment leaves unsound |
| `Limits.RestoredInPart` | PlugAndPlay.main/kernel_memory/src/memory_scheduler.c:437-478 | a process of which swap had room for one segment only: restoring it succeeds and leaves the machine unsound |
| `Limits.SuspendedTwice` | PlugAndPlay.main/kernel_memory/src/memory_scheduler.c:335-362 | a process suspended twice: the second request has no answer |
| `Runs.Serve` | PlugAndPlay.main/kernel_memory/src/memory_scheduler.c:62-121 | each request, and each read or write of a CPU, is one step of the logical memory machine, and its answer is the one that the tables before it call for: a segment is granted exactly for a size within the maximum and the free space, to a process that exists; an access passes exactly under the limit test of a segment in RAM; free space is memory less the limits of the segments in it; suspending and restoring answer and move exactly as swap and free list allow |
| `Runs.ServeSegment` | PlugAndPlay.main/kernel_memory/src/memory_scheduler.c:528-592 | granted or refused exactly as the tables call for, at the place they call for |
| `Runs.ServeDelete` | PlugAndPlay.main/kernel_memory/src/memory_scheduler.c:595-627 | the first segment with the id goes, and no other |
| `Runs.ServeSwap` | PlugAndPlay.main/kernel_memory/src/memory_scheduler.c:311-478 | as many segments go as swap has room for; all come back or none does, exactly as the free list has room for them in order |
| `Runs.ServeAccess` | PlugAndPlay.main/kernel_memory/src/memory_scheduler.c:198-272 | data, an acknowledgement, a fault or no answer, exactly as the tables call for |
| `Runs.Announced` | PlugAndPlay.main/kernel_memory/src/memory_scheduler.c:184-195 | over any run: with nothing but accesses in between, a segment is granted exactly for a size up to the free space announced, however it is scattered |
| `Runs.ServeAll` | PlugAndPlay.main/kernel_memory/src/memory_scheduler.c:62-121 | every run that keeps to the protocol is a run of the logical machine; at every moment of it the tables are sound and the answer the one they call for; it stops only at a request outside the protocol |
| `Runs.RunKeeps` | PlugAndPlay.main/kernel_memory/src/memory_scheduler.c:311-669 | over any stretch of any run the bytes of a segment change only by writes to it, its deletion or the end of its process |
| `Runs.ReadAfterWrite` | PlugAndPlay.main/kernel_memory/src/memory_scheduler.c:198-272 | a read by CPU or scheduler sees the last write to the segment by either, and around it what was there before |
| `Runs.StepKeeps` | PlugAndPlay.main/kernel_memory/src/memory_scheduler.c:62-121 | one request changes only the segment it addresses |
| `Runs.StoreIsLocal` | PlugAndPlay.main/kernel_memory/src/memory_scheduler.c:235-272 | a store overlays the addressed segment and leaves the others |
| `Runs.StoreByCpu` | PlugAndPlay.main/cpu/src/cpu_ciclo.c:247-269 | a CPU write through the MMU is a store of the logical machine and keeps Kernel Memory sound |
| `Runs.LoadByCpu` | PlugAndPlay.main/cpu/src/cpu_ciclo.c:213-243 | a CPU read through the MMU is a load of the logical machine |
| `Mmu.Translate` | PlugAndPlay.main/cpu/src/cpu_mmu.c:43-108 | succeeds exactly when the limit test passes and the range is in memory; the chunks follow one another from the physical address to its end |
| `Mmu.Distribute` | PlugAndPlay.main/cpu/src/cpu_mmu.c:80-107 | each chunk is positive and inside its stick, at most one per stick in table order, so the result array is never overrun |
| `Mmu.LaterStick` | PlugAndPlay.main/cpu/src/cpu_mmu.c:83-105 | the address after the end of a stick is held only by later sticks |
| `Mmu.AcceptedRanges` | PlugAndPlay.main/cpu/src/cpu_mmu.c:62-72 | with wrapping sums: accepted exactly the ranges that fit the segment, and those whose address and end both wrap |
| `Mmu.TranslationExact` | PlugAndPlay.main/cpu/src/cpu_mmu.c:62-105 | while memory and the largest segment stay within 2^32 together, success exactly when offset + size fits, at base + offset |
| `Mmu.WrappedRangeAccepted` | PlugAndPlay.main/cpu/src/cpu_mmu.c:62-72 | a range that passes when that bound is not kept |
| `CpuInstructions.Cpu.Read` | PlugAndPlay.main/cpu/src/cpu_ciclo.c:213-243 | the bytes at the translated address across sticks, or a fault |
| `CpuInstructions.Cpu.Write` | PlugAndPlay.main/cpu/src/cpu_ciclo.c:247-269 | one overlay at the translated address, or a fault that leaves memory untouched |
| `CpuInstructions.Gather` | PlugAndPlay.main/cpu/src/cpu_ciclo.c:228-238 | the chunks in order are the bytes of the flat range |
| `CpuInstructions.Scatter` | PlugAndPlay.main/cpu/src/cpu_ciclo.c:259-265 | writing chunk by chunk is one overlay |
| `CpuInstructions.Cpu.MovIn` | PlugAndPlay.main/cpu/src/cpu_ciclo.c:271-295 | the register takes the number at SI, the byte that counts least first, or nothing changes |
| `CpuInstructions.Cpu.MovOut` | PlugAndPlay.main/cpu/src/cpu_ciclo.c:298-316 | memory at DI takes the bytes of the register, the one that counts least first, or nothing changes |
| `CpuInstructions.Cpu.CopyMem` | PlugAndPlay.main/cpu/src/cpu_ciclo.c:319-343 | a copy as if all bytes moved at once, overlap included; a fault on either side changes nothing |
| `CpuInstructions.Cpu.MovOutThenIn` | PlugAndPlay.main/cpu/src/cpu_ciclo.c:271-316 | MOV_OUT and then MOV_IN of any register, with the same address in SI and DI: both succeed or both fault, and the registers are as they were |
| `CpuInstructions.Cpu.MovOutThenInOf` | PlugAndPlay.main/cpu/src/cpu_ciclo.c:271-316 | MOV_OUT of one register and MOV_IN of another no wider, at the same address: the second gets the low bytes of the first; it faults after a store only if the longer range wraps past 2^32 |
| `CpuInstructions.AssignReads` | PlugAndPlay.main/cpu/src/cpu_ciclo.c:164-195 | a register holds what was assigned to it, cut to its width, and no other changes; unknown names have no effect |
| `CpuInstructions.ReadIsLoad` | PlugAndPlay.main/cpu/src/cpu_ciclo.c:213-243 | what a CPU reads is what Kernel Memory shows at the same logical address |
| `CpuInstructions.WriteIsStore` | PlugAndPlay.main/cpu/src/cpu_ciclo.c:247-269 | what a CPU writes changes the addressed segment and no other of any process |
| `LittleEndian.DecodeEncode` | PlugAndPlay.main/cpu/src/cpu_ciclo.c:286-287 | a value that fits in n bytes survives being stored in them |
| `LittleEndian.EncodeDecode` | PlugAndPlay.main/utils/src/utils/serializacion.c:47-53 | n bytes are the encoding of the value they denote |
| `LittleEndian.ByteAt` | PlugAndPlay.main/cpu/src/cpu_ciclo.c:286-310 | byte i of an encoding is the value divided by 256 to the power i, modulo 256 |
| `LittleEndian.DecodeIsWeight` | PlugAndPlay.main/cpu/src/cpu_ciclo.c:286-287 | a number is the sum of its bytes, each times 256 to the power of its index |
| `Mutexes.Scheduler.CreateProcess` | PlugAndPlay.main/kernel_scheduler/src/crearProceso.c:80-96 | a new process has its base priority and waits for nothing |
| `Mutexes.Scheduler.Find` | PlugAndPlay.main/kernel_scheduler/src/globalesKernelScheduler.c:242-257 | the first mutex of the name |
| `Mutexes.Scheduler.CreateMutex` | PlugAndPlay.main/kernel_scheduler/src/utils_kernel_scheduler.c:525-542 | a mutex of the name exists afterwards; an existing one is left as it is |
| `Mutexes.Scheduler.Lock` | PlugAndPlay.main/kernel_scheduler/src/utils_kernel_scheduler.c:544-581 | takes a free mutex or queues the caller, then every process has the priority it should have: the best of its base and its waiters' |
| `Mutexes.Scheduler.BlockOn` | PlugAndPlay.main/kernel_scheduler/src/utils_kernel_scheduler.c:564-579 | what LOCK does after it has read that the mutex is taken is in order if and only if it still is; a process queued on a mutex that has become free is left waiting for nobody |
| `Mutexes.LateWaiter` | PlugAndPlay.main/kernel_scheduler/src/utils_kernel_scheduler.c:560-621 | LOCK of one process and UNLOCK of another, interleaved: the mutex ends free with a process in its queue |
| `Mutexes.Scheduler.Propagate` | PlugAndPlay.main/kernel_scheduler/src/globalesKernelScheduler.c:345-372 | ends with every priority as it should be, also when the wait-for graph has cycles; the set of processes with a worse priority shrinks in each call |
| `Mutexes.Lent` | PlugAndPlay.main/kernel_scheduler/src/globalesKernelScheduler.c:360-370 | lending moves what is still to be done one step along the chain |
| `Mutexes.BlockedPending` | PlugAndPlay.main/kernel_scheduler/src/utils_kernel_scheduler.c:564-572 | blocking leaves one thing to do: lend the priority to the owner |
| `Mutexes.Scheduler.Recalculate` | PlugAndPlay.main/kernel_scheduler/src/globalesKernelScheduler.c:374-402 | the best of the base priority and the priorities of all who wait for the process's mutexes |
| `Mutexes.Scheduler.Unlock` | PlugAndPlay.main/kernel_scheduler/src/utils_kernel_scheduler.c:583-621 | only the owner can; the mutex goes to the one that waited longest, and all priorities are as they should be |
| `Mutexes.Scheduler.Terminate` | PlugAndPlay.main/kernel_scheduler/src/globalesKernelScheduler.c:268-306 | every mutex of the process is handed to its next waiter or freed, no other is touched, and all priorities are as they should be |
| `Mutexes.Remaining` | PlugAndPlay.main/kernel_scheduler/src/globalesKernelScheduler.c:293-301 | the rebuilt queue is that of the others; it is the same if the process was not in it |
| `Mutexes.OthersAre` | PlugAndPlay.main/kernel_scheduler/src/globalesKernelScheduler.c:293-301 | exactly everybody else is in it |
| `Mutexes.OthersCount` | PlugAndPlay.main/kernel_scheduler/src/globalesKernelScheduler.c:293-301 | as often as before |
| `Mutexes.OthersInOrder` | PlugAndPlay.main/kernel_scheduler/src/globalesKernelScheduler.c:293-301 | and in the same order |
| `Mutexes.HandOffKeeps` | PlugAndPlay.main/kernel_scheduler/src/utils_kernel_scheduler.c:603-615 | a hand-off keeps queues and waits in agreement and disturbs no third process |
| `Mutexes.InheritedPriority` | PlugAndPlay.main/kernel_scheduler/src/globalesKernelScheduler.c:345-402 | a process that is not blocked runs with exactly the best base priority of itself and of all it keeps waiting, directly or through others |
| `Mutexes.NeverBehind` | PlugAndPlay.main/kernel_scheduler/src/globalesKernelScheduler.c:345-402 | along any chain of waits priorities never get worse |
| `Mutexes.Lender` | PlugAndPlay.main/kernel_scheduler/src/globalesKernelScheduler.c:345-402 | some process up the chain lends its own base priority |
| `Suspension.StepOk` | PlugAndPlay.main/kernel_scheduler/src/colaIO.c:218-254 | each step of a process keeps what the observer of the protocol expects of it, if no I/O wait begins while block_epoch of a mutex wait is still to be raised or read |
| `Suspension.StepStarts` | PlugAndPlay.main/kernel_scheduler/src/utils_kernel_scheduler.c:577-578 | a timer that is started could suspend only the wait that starts it |
| `Suspension.StepSleeps` | PlugAndPlay.main/kernel_scheduler/src/colaIO.c:232-244 | and no later step makes it fit another wait |
| `Suspension.StepWaits` | PlugAndPlay.main/kernel_scheduler/src/colaIO.c:41-65 | no step takes a process out of BLOCK while its dump is in flight |
| `Suspension.MarkKeeps` | PlugAndPlay.main/kernel_scheduler/src/planificadorMedianoPlazo.c:104-123 | the timer's check under the lock suspends only the wait it was started for, if no EXEC of the dispatcher is outstanding |
| `Suspension.DumpKeeps` | PlugAndPlay.main/kernel_scheduler/src/planificadorMedianoPlazo.c:134-139 | SUSPENDER and its acknowledgement come at an allowed moment |
| `Suspension.TryKeeps` | PlugAndPlay.main/kernel_scheduler/src/planificadorMedianoPlazo.c:246-255 | DES_SUSPENDER, accepted or not, comes at an allowed moment |
| `Suspension.WriteKeeps` | PlugAndPlay.main/kernel_scheduler/src/planificadorMedianoPlazo.c:263-279 | the deferred STDIN result is written once, with the process in RAM |
| `Suspension.ActionKeeps` | PlugAndPlay.main/kernel_scheduler/src/planificadorMedianoPlazo.c:78-286 | every orderly action of every thread keeps the invariant |
| `SuspensionRuns.NeverWrong` | PlugAndPlay.main/kernel_scheduler/src/planificadorMedianoPlazo.c:78-286 | in no orderly interleaving does an independent observer see the protocol broken |
| `SuspensionRuns.ListedExactly` | PlugAndPlay.main/kernel_scheduler/src/planificadorMedianoPlazo.c:33-56 | a process in SUSP_READY not taken up is in the suspended list exactly once, one that is not suspended never |
| `SuspensionRuns.QuietInSwap` | PlugAndPlay.main/kernel_scheduler/src/planificadorMedianoPlazo.c:134-258 | from SUSPENDER until DES_SUSPENDER is accepted there is no access, no write, no second SUSPENDER and no READY for the process |
| `SuspensionRuns.RestoreFollowsAck` | PlugAndPlay.main/kernel_scheduler/src/planificadorMedianoPlazo.c:246-250 | DES_SUSPENDER follows the acknowledgement of a SUSPENDER that has not been undone |
| `SuspensionRuns.SuspendsCurrentWait` | PlugAndPlay.main/kernel_scheduler/src/planificadorMedianoPlazo.c:104-117 | SUSPENDER is sent by the timer of the wait the process is in, an I/O that has not ended |
| `SuspensionRuns.StdinWrittenOnce` | PlugAndPlay.main/kernel_scheduler/src/colaIO.c:399-434 | between a STDIN result and READY there is exactly one write of it |
| `SuspensionRuns.EveryRun` | PlugAndPlay.main/kernel_scheduler/src/planificadorMedianoPlazo.c:78-286 | QuietInSwap, RestoreFollowsAck, SuspendsCurrentWait and StdinWrittenOnce together, for every process at every moment of every orderly run |
| `SuspensionRuns.EndIsFinal` | PlugAndPlay.main/kernel_scheduler/src/colaIO.c:286-307 | nothing is sent for a process after its end |
| `SuspensionRuns.EpochCounts` | PlugAndPlay.main/kernel_scheduler/src/utils_kernel_scheduler.c:564-578 | in every run block_epoch is the number of waits begun less those that have still to raise it |
| `SuspensionRuns.AccessNeedsSend` | PlugAndPlay.main/kernel_scheduler/src/utils_kernel_scheduler.c:47-105 | in every run a process that is preempted, ends or goes to wait accesses memory again only after it has been sent to a CPU |
| `SuspensionRuns.ResultOfStdin` | PlugAndPlay.main/kernel_scheduler/src/colaIO.c:399-434 | an I/O comes back with a result to be written exactly if it was begun as a STDIN |
| `SuspensionProgress.NoHang` | PlugAndPlay.main/kernel_scheduler/src/planificadorMedianoPlazo.c:78-286 | from every moment of every orderly run at which a process waits for I/O, suspended or not, orderly steps lead to READY if the result of its STDIN is written, and to its end if it cannot be |
| `SuspensionProgress.WaitEnds` | PlugAndPlay.main/kernel_scheduler/src/planificadorMedianoPlazo.c:134-286 | the same from every state that is in order, with a bound on the number of steps |
| `SuspensionProgress.ActionAttends` | PlugAndPlay.main/kernel_scheduler/src/planificadorMedianoPlazo.c:104-151 | every action keeps that a process suspended in the BLOCK queue without its flag has a timer at work that will set it |
| `SuspensionProgress.AlwaysTimed` | PlugAndPlay.main/kernel_scheduler/src/colaIO.c:232-252 | in every orderly run a wait whose I/O is requested has its timer, and a process detained in the BLOCK queue has one at work |
| `SuspensionProgress.SuspendsWhenDue` | PlugAndPlay.main/kernel_scheduler/src/planificadorMedianoPlazo.c:104-151 | the timer of a wait whose process is still in BLOCK puts it in SUSP_BLOCK, lists it, has it suspended and sets the flag |
| `SuspensionProgress.GoesOffInVain` | PlugAndPlay.main/kernel_scheduler/src/planificadorMedianoPlazo.c:119-123 | a timer whose wait is over changes nothing |
| `SuspensionProgress.OwnNearer` | PlugAndPlay.main/kernel_scheduler/src/colaIO.c:41-65 | each step of an undetained process brings the end of its wait, always the same one, nearer |
| `SuspensionProgress.TimerNearer` | PlugAndPlay.main/kernel_scheduler/src/planificadorMedianoPlazo.c:125-151 | so does each step of the timer that detains it |
| `SuspensionProgress.SnapshotNearer` | PlugAndPlay.main/kernel_scheduler/src/planificadorMedianoPlazo.c:205-224 | a round of the medium-term scheduler has every process in SUSP_READY among its candidates |
| `SuspensionProgress.TryNearer` | PlugAndPlay.main/kernel_scheduler/src/planificadorMedianoPlazo.c:235-256 | going through the candidates reaches the process |
| `SuspensionProgress.OtherNearer` | PlugAndPlay.main/kernel_scheduler/src/planificadorMedianoPlazo.c:257-286 | a process taken up before it is done with in at most three steps |
| `SuspensionProgress.HeldNearer` | PlugAndPlay.main/kernel_scheduler/src/planificadorMedianoPlazo.c:246-286 | once taken up it is delisted, written to and made READY, or ended |
| `SuspensionProgress.ComesToRun` | PlugAndPlay.main/kernel_scheduler/src/planificadorCortoPlazo.c:133-219 | a process that is READY, on a CPU or in a mutex queue comes to access memory, whatever EXEC is outstanding |
| `SuspensionOrder.OrderExact` | PlugAndPlay.main/kernel_scheduler/src/planificadorMedianoPlazo.c:104-117 | from a state in order, an action leads to where orderly steps can break the protocol if and only if it is one of the two races: an I/O wait begun while block_epoch is open, or a timer that marks a process whose EXEC is outstanding |
| `SuspensionOrder.RunExact` | PlugAndPlay.main/kernel_scheduler/src/planificadorMedianoPlazo.c:78-286 | a run is free of both races if and only if it never reaches a state from which orderly steps can break the protocol |
| `SuspensionOrder.EpochRace` | PlugAndPlay.main/kernel_scheduler/src/utils_kernel_scheduler.c:564-578 | a run that goes wrong because a mutex hand-off comes before block_epoch is raised, and one because it comes before it is read again |
| `SuspensionOrder.ExecRace` | PlugAndPlay.main/kernel_scheduler/src/planificadorCortoPlazo.c:207-219 | a run that goes wrong because the dispatcher writes EXEC after the timer has put the process in SUSP_BLOCK |
| `SuspensionOrder.RaisesLate` | PlugAndPlay.main/kernel_scheduler/src/utils_kernel_scheduler.c:577-578 | an I/O wait with block_epoch open can be suspended by the timer of the earlier wait, within five steps |
| `SuspensionOrder.MarkedWhileDue` | PlugAndPlay.main/kernel_scheduler/src/planificadorCortoPlazo.c:207-219 | a process suspended with its EXEC outstanding goes wrong within ten steps |
| `SuspensionOrder.Lost` | PlugAndPlay.main/kernel_scheduler/src/colaIO.c:399-434 | an I/O that ends in EXEC with the segments in swap writes to memory that is not there or makes the process READY without it |
| `Wire.Packet.AppendString` | PlugAndPlay.main/utils/src/utils/serializacion.c:57-63 | count with the NUL, then the bytes up to the first NUL |
| `Wire.Packet.Serialize` | PlugAndPlay.main/utils/src/utils/serializacion.c:69-87 | operation code, size, payload |
| `Wire.SendReturned` | PlugAndPlay.main/utils/src/utils/mensajes.c:212-236 | the bytes of a returned process: no name sends no call, a negative count no parameters |
| `Wire.Channel.Receive` | PlugAndPlay.main/utils/src/utils/serializacion.c:153-160 | all the bytes asked for, unless the stream ends before |
| `Wire.Channel.ReceiveString` | PlugAndPlay.main/utils/src/utils/serializacion.c:153-160 | reads back a string with its count |
| `Wire.Channel.ReceiveReturned` | PlugAndPlay.main/utils/src/utils/mensajes.c:238-281 | reads field by field; whether a call follows is decided by the motive alone |
| `Wire.StringBack` | PlugAndPlay.main/utils/src/utils/serializacion.c:57-63 | a string without NUL is read back, leaving the rest |
| `Wire.StringsBack` | PlugAndPlay.main/utils/src/utils/mensajes.c:274-279 | so is a list of them |
| `Wire.ReturnedBack` | PlugAndPlay.main/utils/src/utils/mensajes.c:212-281 | DEVOLVER_PROCESO is read back as sent, with nothing left over, if and only if a call is sent exactly with the motive SYSCALL |
| `Wire.ContextBack` | PlugAndPlay.main/utils/src/utils/mensajes.c:136-150 | a context, registers and segment table included, is read back as sent |
| `Wire.ValidatedBack` | PlugAndPlay.main/utils/src/utils/serializacion.c:132-149 | the size written is the size the receiver finds available |
| `Wire.CreateBack` | PlugAndPlay.main/utils/src/utils/mensajes.c:161-178 | CREAR_PROCESO, with its path, is read back as sent |
| `Wire.MessageBack` | PlugAndPlay.main/utils/src/utils/serializacion.c:91-102 | each message is read back as sent |
| `Wire.StreamBack` | PlugAndPlay.main/utils/src/utils/serializacion.c:91-102 | any concatenation of messages is read back in order with nothing left over |
| `Wire.Channel.Dispatch` | PlugAndPlay.main/kernel_scheduler/src/memory_protocol.c:84-94 | a notification is drained and handled, an answer left in place; the start of a compaction is acknowledged |
| `Wire.Channel.ReceiveAnswer` | PlugAndPlay.main/kernel_scheduler/src/memory_protocol.c:96-104 | handles the notifications before the answer and returns its code |
| `Wire.DemuxExact` | PlugAndPlay.main/kernel_scheduler/src/memory_protocol.c:96-104 | exactly the notifications sent before the answer are handled, each once and in order, and reading stops after the answer's code |
| `WireLayout.MessageLayout` | PlugAndPlay.main/utils/src/utils/serializacion.c:69-102 | operation code, as numbered by the protocol, size in eight bytes, payload |
| `WireLayout.FrameLayout` | PlugAndPlay.main/utils/src/utils/serializacion.c:69-87 | four bytes of operation code and eight of size, the byte that counts least first |
| `WireLayout.RegsLayout` | PlugAndPlay.main/utils/src/utils/utils.h:20-35 | where each register lies in the 32 bytes of a context |
| `WireLayout.SegsLayout` | PlugAndPlay.main/utils/src/utils/utils.h:37-43 | 16 bytes for each segment, in order: id, base, limit, swap block |
| `WireLayout.ContextLayout` | PlugAndPlay.main/utils/src/utils/mensajes.c:136-150 | pid, registers, number of segments, segments |
| `WireLayout.StrsLayout` | PlugAndPlay.main/utils/src/utils/serializacion.c:57-63 | strings one after another, each with its length counting the NUL |
| `WireLayout.ReturnedLayout` | PlugAndPlay.main/utils/src/utils/mensajes.c:212-236 | pid and motive and, for a call, its name, how many parameters, and the parameters |
| `WireLayout.NewMemoryLayout` | PlugAndPlay.main/utils/src/utils/mensajes.c:487-498 | size, base, address, port |
| `WireLayout.CreateLayout` | PlugAndPlay.main/utils/src/utils/mensajes.c:161-168 | pid and path |
| `WireLayout.AckLayout` | PlugAndPlay.main/utils/src/utils/serializacion.c:167-174 | an acknowledgement carries -1 |
| `Dispatcher.StepRouses` | PlugAndPlay.main/kernel_scheduler/src/planificadorCortoPlazo.c:133-219 | every critical section and semaphore operation of every thread keeps the READY and CPU tokens enough |
| `Dispatcher.NeverAsleepInVain` | PlugAndPlay.main/kernel_scheduler/src/planificadorCortoPlazo.c:133-219 | in every run: asleep without READY tokens there is no READY process, asleep without CPU tokens no free CPU; no connected CPU is left neither free nor with a process |
| `Dispatcher.ChooseVictim` | PlugAndPlay.main/kernel_scheduler/src/utils_kernel_scheduler.c:1146-1213 | nobody unless a running process is strictly less urgent; then the least urgent, the longest running, the first |
| `DispatchOrder.PopTakesFirst` | PlugAndPlay.main/kernel_scheduler/src/utils_kernel_scheduler.c:1253-1271 | the process dispatched is the first of the best level that has any; that level loses it and no other level changes |
| `DispatchOrder.PopFindsNone` | PlugAndPlay.main/kernel_scheduler/src/utils_kernel_scheduler.c:1253-1271 | with nothing queued nothing is dispatched |
| `DispatchOrder.SendTakesFirstFree` | PlugAndPlay.main/kernel_scheduler/src/utils_kernel_scheduler.c:697-738 | the process goes to the first free CPU and to no other |
| `DispatchOrder.CpuTurnover` | PlugAndPlay.main/kernel_scheduler/src/utils_kernel_scheduler.c:47-105 | a CPU a process is taken off is free for another unless reserved for the same one, which then can go back; a CPU that is gone is never free |
| `DispatchOrder.ConnectAdds` | PlugAndPlay.main/kernel_scheduler/src/utils_kernel_scheduler.c:1053-1062 | a CPU that connects is free, while there is room in the table |
| `DispatchOrder.JoinsBehind` | PlugAndPlay.main/kernel_scheduler/src/utils_kernel_scheduler.c:1239 | whoever joins a READY level, a mutex queue or NEW is behind all who are in it |
| `DispatchOrder.JumpsAhead` | PlugAndPlay.main/kernel_scheduler/src/utils_kernel_scheduler.c:1295-1303 | whoever is put at the front of a level is ahead of all who are in it |
| `DispatchOrder.OrderStays` | PlugAndPlay.main/kernel_scheduler/src/utils_kernel_scheduler.c:1229-1310 | nothing but the turn of the first, or a move, changes the order of two processes in a line |
| `DispatchOrder.NoTurnBehind` | PlugAndPlay.main/kernel_scheduler/src/utils_kernel_scheduler.c:1253-1271 | as long as one is ahead of another in a line it is not the turn of the other |
| `DispatchOrder.FirstServed` | PlugAndPlay.main/kernel_scheduler/src/utils_kernel_scheduler.c:1253-1271 | over any stretch of any orderly run, in a READY level, a mutex queue or NEW: of two processes that are not moved the one ahead has its turn first |
| `DispatchOrder.FirstCome` | PlugAndPlay.main/kernel_scheduler/src/utils_kernel_scheduler.c:603-615 | so the one that is there when the other joins has its turn first |
| `DispatchOrder.DispatchesSoon` | PlugAndPlay.main/kernel_scheduler/src/planificadorCortoPlazo.c:133-219 | at every moment of every run with a process in READY and a free CPU, at most eight steps of the dispatcher, or posts already due, send a process to a CPU |
| `Conservation.ActionKeeps` | PlugAndPlay.main/kernel_scheduler/src/utils_kernel_scheduler.c:47-177 | every orderly action of every thread keeps each process in exactly one place, one for its estado, and moves exactly the process it is about, from the one place to the other |
| `Conservation.EveryStepTravels` | PlugAndPlay.main/kernel_scheduler/src/utils_kernel_scheduler.c:47-177 | the same over every orderly run: who moves at each step, and between which places |
| `Conservation.Conserved` | PlugAndPlay.main/kernel_scheduler/src/utils_kernel_scheduler.c:47-177 | at every moment of every orderly run each live process is exactly once in exactly one place, which is one for its estado: NEW, READY queue, CPU, BLOCK queue, mutex queue, suspended list alone, or the hand of a thread; none is lost or duplicated |
| `Conservation.EstadoTells` | PlugAndPlay.main/kernel_scheduler/src/planificadorMedianoPlazo.c:33-56 | what is in EXEC is on a CPU, what is in SUSP_READY is once in the suspended list or with the medium-term scheduler, what is in SUSP_BLOCK is once in the BLOCK queue or just out of it and once in the list or about to be, and nothing else is listed |
| `Conservation.RunExact` | PlugAndPlay.main/kernel_scheduler/src/planificadorCortoPlazo.c:207-219 | every process is in a place for its estado at every moment of a run if and only if each EXEC of the dispatcher finds the process on its CPU |
| `Conservation.ExecKeeps` | PlugAndPlay.main/kernel_scheduler/src/planificadorCortoPlazo.c:219 | an EXEC written while the process is on its CPU, or off it and undecided about, is in order |
| `Conservation.ExecBreaks` | PlugAndPlay.main/kernel_scheduler/src/planificadorCortoPlazo.c:219 | one written later leaves a process in EXEC in a place that is not for EXEC |
| `Conservation.LateExec` | PlugAndPlay.main/kernel_scheduler/src/planificadorCortoPlazo.c:207-219 | a run that ends with a process in EXEC in a READY queue |
| `Conservation.SendKeeps` | PlugAndPlay.main/kernel_scheduler/src/utils_kernel_scheduler.c:697-738 | dispatching moves the process to the first free CPU |
| `Conservation.ReturnKeeps` | PlugAndPlay.main/kernel_scheduler/src/utils_kernel_scheduler.c:47-105 | taking a process off a CPU, reserving the CPU or not, loses neither |
| `Conservation.DecideKeeps` | PlugAndPlay.main/kernel_scheduler/src/utils_kernel_scheduler.c:907-995 | the thread of the CPU writes the new estado while it has the process in hand |
| `Conservation.SettleKeeps` | PlugAndPlay.main/kernel_scheduler/src/utils_kernel_scheduler.c:107-177 | and then puts it in the READY, BLOCK or mutex queue of that estado, or ends it |
| `Conservation.PopKeeps` | PlugAndPlay.main/kernel_scheduler/src/utils_kernel_scheduler.c:1253-1271 | the first of the best level goes to the dispatcher, and nobody else moves |
| `Conservation.MoveKeeps` | PlugAndPlay.main/kernel_scheduler/src/globalesKernelScheduler.c:312-343 | moving a READY process between levels keeps it in one slot of one queue |
| `Conservation.HandOffKeeps` | PlugAndPlay.main/kernel_scheduler/src/utils_kernel_scheduler.c:603-615 | the first in a mutex queue leaves it to be made READY |
| `Conservation.MarkKeeps` | PlugAndPlay.main/kernel_scheduler/src/planificadorMedianoPlazo.c:104-117 | put in SUSP_BLOCK, a process stays in the BLOCK queue, with one timer at work on it |
| `Conservation.ListKeeps` | PlugAndPlay.main/kernel_scheduler/src/planificadorMedianoPlazo.c:33-42 | the timer lists it once |
| `Conservation.TimerHolds` | PlugAndPlay.main/kernel_scheduler/src/planificadorMedianoPlazo.c:104-151 | from the check of the timer until the dump is over the process cannot be taken out of the BLOCK queue, and from then on it can |
| `Conservation.ExtractKeeps` | PlugAndPlay.main/kernel_scheduler/src/colaIO.c:41-65 | an I/O worker takes it out of the BLOCK queue, in SUSP_BLOCK only after the dump |
| `Conservation.ServeKeeps` | PlugAndPlay.main/kernel_scheduler/src/colaIO.c:258-282 | from BLOCK to READY, or from SUSP_BLOCK to SUSP_READY, where the suspended list alone has it |
| `Conservation.DelistKeeps` | PlugAndPlay.main/kernel_scheduler/src/planificadorMedianoPlazo.c:246-258 | restored, it leaves that list for the medium-term scheduler |

## Left out

- Configuration: memory plus SEGMENT_MAX_SIZE, SEGMENT_MAX_SIZE plus the swap block size, and the number of swap blocks plus SEGMENT_MAX_SIZE are taken to stay below 2^32; the code does not test it.
- Runs.ServeAll: stops at the first request outside the protocol (deleting a swapped segment, suspending or running a process that is not in RAM, restoring one that is, a range past 2^32), because the code keeps no promise after it.
- KernelMemory.Memory.RegisterStick: adds the stick and its free block in one step; in the code a compaction could come between.
- KernelMemory.Memory.CompactAndReassign: the memory lock released around a compaction is not modelled; requests come from one thread, so no other request runs meanwhile.
- Runs.LoadByCpu: a CPU's copy of the segment table is taken to be the current one, as for Runs.StoreByCpu.
- Runs.StoreByCpu: a CPU's copy of the segment table is taken to be the current one, and its write-back of the context to leave the tables as they are; the CPU itself does not test whether a segment is in swap.
- Scripts, registers kept by Kernel Memory, the decoding of instructions and the arithmetic instructions.
- Failures of sticks, swap and sockets, disconnection of sticks, BSOD, and more than one swap module.
- The notifications that Kernel Memory sends when memory is freed; they carry no memory content.
- Compaction.SortByBase: the library sort is modelled by an insertion sort; only its result matters.
- Allocation of C objects, logging, delays, configuration files and connection set-up.
- Mutexes.Scheduler.Lock: taken as atomic, although each CPU's thread runs it without a lock; what goes wrong between its reading of the owner and its entering the queue is Mutexes.Scheduler.BlockOn. Two LOCKs that both read a free mutex are not modelled.
- Mutexes.Scheduler.Unlock: taken as atomic, although each CPU's thread runs it without a lock.
- Mutexes.Scheduler.Terminate: taken as atomic too; the library lock that the code takes twice is not modelled, only the change of state; the place in the READY queues is left to the dispatcher model.
- Mutexes.InheritedPriority: says nothing of a process that is itself blocked; what holds of those is that their priority is the best of their base and their direct waiters'.
- SuspensionRuns.NeverWrong: `block_epoch` does not wrap around, and the order of the candidates, a sort by priority and age, is left open, so that the theorem holds for any order.
- SuspensionRuns.NeverWrong: memory answers every message; the branch for a lost connection is not modelled.
- SuspensionProgress.NoHang: says that the steps are there to be taken, not that the threads take them; the semaphore that wakes the medium-term scheduler is not modelled, and Kernel Memory may refuse a process for as long as it has no room.
- Suspension.ActionKeeps: an EXEC written by the dispatcher after the process has ended goes to a PCB that has been freed; here it has no effect.
- Wire.StreamBack: payloads of 2^31 bytes or more, which the code cannot send, and the messages whose payload is fixed fields only.
- Dispatcher.NeverAsleepInVain: quantum timers and the clock are left out; priorities are within the configured levels, as the code discards other processes.
- Conservation.Conserved: which of several mutexes a process waits for, and that its queue agrees with the wait, is kept by Mutexes; which timer may suspend it and when its memory is dumped is the subject of Suspension. The end of a process in the hand of an I/O worker or of the medium-term scheduler is one step.
