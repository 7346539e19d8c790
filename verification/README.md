# RT-Thread kernel: a verified model

This project models the parts of the RT-Thread 5.0.0 kernel (two processors, 32-bit, 64-byte alignment) that keep
structure across calls, threads and processors, and proves what they keep. Two independent programs of the repository,
the option parser and the worst-case stack analysis, are included for the same reason.

| module | what it models |
|---|---|
| `PriorityInheritance` | mutexes, nested holds, wait queues by priority, and the recursive priority update along the chain of owners |
| `QueueOrder` | the order in which waiters of a mutex are served, over whole runs of the same kernel |
| `Deadlock` | what the same kernel does to the priorities of threads that wait for each other in a cycle |
| `SmallMem` | the small memory allocator with its headers inside the heap array, address-ordered first fit and a lowest-free hint |
| `MemHeap` | the memory heap: a circular block list in address order and a separate doubly linked free list |
| `SlabPages`, `Slab` | the page allocator and the slab zones cut from its pages |
| `TimerList` | the timer skip list of any height over wrapping ticks, and the expiry loop with its callbacks |
| `MessageQueue`, `Mailbox`, `Semaphore`, `Event`, `WaitList` | blocking communication as interleaved steps of any number of threads |
| `Scheduler`, `CpuLock` | ready tables and bitmaps of two or more processors, context switches, and the global lock handed across them |
| `OptParse` | the option parser that permutes its argument vector while it recurses |
| `WorstCaseStack` | the memoised depth-first search over the call graph |

Each module has two layers. The specification is made of values, functions and lemmas: an invariant, what every
operation does to it, and what follows from it over whole runs. The classes hold the same state in fields and arrays
and change it step by step as the source does; their methods are proved to compute the functions of the specification.

Where the code and its comments disagree, the code is modelled:

- The comments of the slab allocator promise that sizes that are powers of two are aligned to their size. Up to the page
  size this holds (`Slab.SmallAligned`); above it, it holds if and only if the page that the allocation will be cut from
  is so aligned (`Slab.AllocAlignedIff`), and it fails for the first request of 8192 bytes in every new heap of 4 to 1024
  pages (`Slab.LargeMisaligned`; `Slab.ChunkMisaligned` for a chunk).
- `rt_event_send` relies on an assertion to keep out receivers that give neither AND nor OR. This configuration defines
  `RT_DEBUG` (`rtconfig.h:33`), which keeps the assertion in. With assertions compiled out, the early
  return can leave satisfied receivers waiting (`Event.ReliableIff` says exactly when).
- `rt_memheap_alloc` refuses a request of exactly the available size, so it can fail although a block fits
  (`MemHeap.MemHeapObject.Alloc` states both reasons for failing, `MemHeap.AskForAll` shows it for a new heap).
- The priority update is meant to let a thread run at the least initial priority among itself and those blocked behind
  it. It does, deadlocks included, except after the deletion of a thread that was the only source of a boost inside a
  deadlock: then the deadlocked threads keep it (`Deadlock.StepKeepsExactIff`, and `Deadlock.DeadlockMayKeepBoost` for a
  run that ends so).

Verify with `dafny verify dfyconfig.toml`.

## Model

| member | source | states |
|---|---|---|
| `PriorityInheritance.UpdatePriority` | rt-thread/src/ipc.c:748-788 | The recursive update, started at any thread whose priority must move towards its goal, terminates on every wait-for graph, cyclic ones included, restores the whole fixpoint, keeps ownership and waiting as they were, and moves priorities in one direction only |
| `PriorityInheritance.UpdateStep` | rt-thread/src/ipc.c:748-788 | One level of the recursion repairs the equation of its thread and can break only that of the thread which blocks it |
| `PriorityInheritance.BlockerFollows` | rt-thread/src/ipc.c:781-785 | The owner that the recursion turns to has to move in the same direction as the thread just changed |
| `PriorityInheritance.DistanceDrops` | rt-thread/src/ipc.c:748-788 | Every level brings the sum of all distances to the end of the priority range strictly down, which is why the recursion ends |
| `PriorityInheritance.ReprioritizeMutex` | rt-thread/src/ipc.c:768-775 | A re-queued waiter moves the cached priority of its mutex the same way as its own priority moved |
| `PriorityInheritance.HeadIsLeast` | rt-thread/src/ipc.c:713-728 | The cached mutex priority is the most urgent one in the whole queue, not only that of the head |
| `PriorityInheritance.Block` | rt-thread/src/ipc.c:1189-1204 | Queueing the caller and letting the owner inherit re-establishes the fixpoint and makes nobody less urgent |
| `PriorityInheritance.TakeInv` | rt-thread/src/ipc.c:1105-1288 | Every outcome of a take keeps the fixpoint |
| `PriorityInheritance.TakeEffect` | rt-thread/src/ipc.c:1131-1204 | When a take succeeds, times out or overflows the hold count, and what it then changes: owner, hold count and taken list of the caller and nothing of any other thread or mutex |
| `PriorityInheritance.TakeBlocks` | rt-thread/src/ipc.c:1181-1224 | A blocking take queues exactly the caller, leaves every owner, hold count and taken list as it was, and only makes other threads more urgent |
| `PriorityInheritance.ReleaseInv` | rt-thread/src/ipc.c:1326-1444 | Every outcome of a release keeps the fixpoint |
| `PriorityInheritance.KeptLeast` | rt-thread/src/ipc.c:1372-1385 | Recomputing the priority only when the released mutex may have been the source of it gives the least priority still inherited |
| `PriorityInheritance.ReleaseHandsOver` | rt-thread/src/ipc.c:1364-1434 | The last release gives the mutex to the most urgent waiter, wakes exactly that one, and leaves the caller with exactly the urgency it still inherits |
| `PriorityInheritance.TakeTells` | rt-thread/src/ipc.c:1105-1224 | What a take leaves in the record of its caller: its error, its state and what it waits for |
| `PriorityInheritance.ReleaseEffect` | rt-thread/src/ipc.c:1353-1367 | Only the last release of the owner gives the mutex up; before that a release takes one off the hold count and changes nothing else, and a release by anybody else only sets the error |
| `PriorityInheritance.TakeThenRelease` | rt-thread/src/ipc.c:1105-1444 | A release right after a successful take restores the previous state |
| `PriorityInheritance.DropWaiter` | rt-thread/src/ipc.c:897-936 | Dropping a dying waiter lets the owner give up what it inherited from it, along the whole chain, and re-establishes the fixpoint |
| `PriorityInheritance.Delete` | rt-thread/src/thread.c:403-447 | Detaching or deleting a thread that owns no mutex, waiting or not, keeps the fixpoint |
| `PriorityInheritance.DeleteRemoves` | rt-thread/src/thread.c:403-447 | A deleted thread is closed and in no queue; owners, hold counts, all other waiters and all other records stay, and priorities only become less urgent |
| `PriorityInheritance.StepKeepsInv` | rt-thread/src/ipc.c:713-1444 | Creating threads and mutexes, taking, releasing and deleting all keep the fixpoint |
| `PriorityInheritance.RunKeepsInv` | rt-thread/src/ipc.c:713-1444 | The fixpoint holds in every state of every run |
| `PriorityInheritance.OwnerAtLeastAsUrgent` | rt-thread/src/ipc.c:730-788 | In a reachable state a thread is at least as urgent as every thread blocked behind it over any chain of mutexes |
| `PriorityInheritance.PriorityIsExact` | rt-thread/src/ipc.c:730-788 | A thread that is not on a cycle of the wait-for graph runs at exactly the least initial priority among itself and those blocked behind it |
| `PriorityInheritance.InheritedFrom` | rt-thread/src/ipc.c:730-746 | An inherited priority can be followed back to a blocked thread that has it from its creation |
| `PriorityInheritance.MutexKernel.ListSuspend` | rt-thread/src/ipc.c:124-171 | The search loop queues the thread behind all that are at least as urgent; a suspended thread stays suspended |
| `PriorityInheritance.MutexKernel.MutexUpdatePriority` | rt-thread/src/ipc.c:713-728 | The cached priority becomes that of the head, or 255 for an empty queue |
| `PriorityInheritance.MutexKernel.ThreadGetMutexPriority` | rt-thread/src/ipc.c:730-746 | The loop computes the minimum of the initial priority and the cached priorities of all mutexes held |
| `PriorityInheritance.MutexKernel.ChangePriority` | rt-thread/src/ipc.c:753-775 | Changing the priority, unlinking and re-queueing the thread and refreshing the mutex have the effect of one re-queueing step |
| `PriorityInheritance.MutexKernel.ThreadUpdatePriority` | rt-thread/src/ipc.c:748-788 | The recursion over the shared records computes the update of the model |
| `PriorityInheritance.MutexKernel.BlockOn` | rt-thread/src/ipc.c:1181-1224 | The blocking branch queues the caller and updates the owner |
| `PriorityInheritance.MutexKernel.TakeMutex` | rt-thread/src/ipc.c:1105-1288 | The whole take, up to the point where a blocked caller leaves the processor |
| `PriorityInheritance.MutexKernel.WakeFirst` | rt-thread/src/ipc.c:1387-1433 | The mutex is handed to the first waiter, which becomes ready, or is left free |
| `PriorityInheritance.MutexKernel.Unlink` | rt-thread/src/ipc.c:1364-1385 | The mutex leaves the taken list of its owner, whose priority is recomputed where it may have come from this mutex |
| `PriorityInheritance.MutexKernel.ReleaseMutex` | rt-thread/src/ipc.c:1326-1444 | The whole release with its error outcomes |
| `PriorityInheritance.MutexKernel.DropThread` | rt-thread/src/ipc.c:897-936 | Unlinking a closed waiter and updating the owner |
| `QueueOrder.JoinPlace` | rt-thread/src/ipc.c:139-168 | After a take queues its caller, an old waiter stands in front of the caller if and only if it is at least as urgent |
| `QueueOrder.JoinOrder` | rt-thread/src/ipc.c:139-168 | All other waiters of all mutexes keep their order |
| `QueueOrder.RequeuePlace` | rt-thread/src/ipc.c:753-775 | After a priority change re-queues a waiter, another one stands in front of it if and only if it is at least as urgent as the new priority |
| `QueueOrder.RequeueOrder` | rt-thread/src/ipc.c:753-775 | All other waiters of all mutexes keep their order |
| `QueueOrder.UpdateOrder` | rt-thread/src/ipc.c:748-788 | Two threads whose priorities the whole recursive update leaves alone keep their order in every queue |
| `QueueOrder.BlockPlace` | rt-thread/src/ipc.c:1181-1224 | So the whole blocking take puts its caller behind exactly the waiters at least as urgent, those whose priority it changes aside |
| `QueueOrder.ReleaseOrder` | rt-thread/src/ipc.c:1387-1433 | A release leaves those who go on waiting in their order |
| `QueueOrder.DeleteOrder` | rt-thread/src/ipc.c:897-936 | So does a deletion, for those whose priority it leaves alone |
| `QueueOrder.StepKeepsOrder` | rt-thread/src/ipc.c:713-1444 | No critical section changes the order of two waiters of a mutex that go on waiting with the priorities they have |
| `QueueOrder.ReleaseServes` | rt-thread/src/ipc.c:1387-1433 | The mutex goes to the most urgent waiter, and among the most urgent to the one in front of all others |
| `QueueOrder.FirstComeFirstServed` | rt-thread/src/ipc.c:713-1444 | Over any run: of two threads that wait for a mutex with unchanged priorities the more urgent one stands in front, and with equal priorities the one that came first |
| `QueueOrder.ServedInTurn` | rt-thread/src/ipc.c:713-1444 | Hence the mutex never goes to the second of the two before the first |
| `Deadlock.UpdateJustifies` | rt-thread/src/ipc.c:748-788 | The recursive update leaves every priority explained by the initial one of a thread behind it, on cycles too |
| `Deadlock.BlockJustifies` | rt-thread/src/ipc.c:1189-1204 | So does a take that blocks, also when it closes a cycle |
| `Deadlock.TakeJustifies` | rt-thread/src/ipc.c:1105-1288 | So does every other outcome of a take |
| `Deadlock.ReleaseJustifies` | rt-thread/src/ipc.c:1326-1444 | So does a release, which can open a chain but never removes the source of a boost that stays |
| `Deadlock.CyclesAreEven` | rt-thread/src/ipc.c:748-788 | All threads of a cycle have one priority |
| `Deadlock.UpdateSpares` | rt-thread/src/ipc.c:748-788 | An update towards less urgency never changes a thread on a cycle |
| `Deadlock.DropSpares` | rt-thread/src/ipc.c:897-936 | Dropping a waiter never changes the priority of a thread on a cycle |
| `Deadlock.DeleteEffect` | rt-thread/src/thread.c:403-447 | A deletion takes the thread out of every chain, leaves who blocks whom among the others, and changes no priority on a cycle |
| `Deadlock.DeleteKeepsExactIff` | rt-thread/src/ipc.c:897-936 | Deleting a thread keeps all priorities exact if and only if it is not blocked behind a cycle with a more urgent initial priority than every other thread behind that cycle |
| `Deadlock.StepKeepsExactIff` | rt-thread/src/ipc.c:713-1444 | Every critical section keeps all priorities exact, those in deadlocks included, if and only if it is not such a deletion |
| `Deadlock.RunKeepsExact` | rt-thread/src/ipc.c:713-1444 | In every state of every run without such a deletion every priority is exact |
| `Deadlock.DeadlockMayKeepBoost` | rt-thread/src/ipc.c:897-936 | A run from the empty system at whose end two deadlocked threads of initial priority 10 run at 1, which no thread behind them explains, because the thread of priority 1 has been deleted |
| `SmallMem.AllocGood` | rt-thread/src/mem.c:317-404 | Taking a fitting block, split or whole, keeps the blocks tiling the heap with no two free ones adjacent |
| `SmallMem.FreeGood` | rt-thread/src/mem.c:516-559 | Freeing any used block keeps the tiling and leaves no two free blocks adjacent |
| `SmallMem.ShrinkGood` | rt-thread/src/mem.c:468-496 | Cutting a used block down keeps the tiling and leaves no two free blocks adjacent |
| `SmallMem.AllocThenFree` | rt-thread/src/mem.c:279-559 | Freeing a block that was just allocated gives back the previous block map, and with it the hint and the account |
| `SmallMem.AllocSpan` | rt-thread/src/mem.c:328-375 | What an allocation adds to the bytes in use: header and aligned size when the block is split, the whole block when it is not |
| `SmallMem.FreeSpanDrop` | rt-thread/src/mem.c:543-558 | A free takes exactly the span of its block off the bytes in use, whatever is merged |
| `SmallMem.ShrinkSpan` | rt-thread/src/mem.c:468-471 | A shrink takes exactly the cut-off bytes off the bytes in use |
| `SmallMem.SpansCoverHeap` | rt-thread/src/mem.c:178-242 | Used and free spans together are always the whole heap |
| `SmallMem.AllocLowest` | rt-thread/src/mem.c:385-392 | Allocating anywhere but in the lowest free block leaves the hint right; allocating there moves it only upwards |
| `SmallMem.FreedLowest` | rt-thread/src/mem.c:549-553 | The hint is the minimum of the old one and the block freed |
| `SmallMem.AbsorbRep` | rt-thread/src/mem.c:125-163 | The three header writes of a merge turn the header chain of one block map into that of the merged map |
| `SmallMem.SplitRep` | rt-thread/src/mem.c:341-358 | The header writes of a split turn the header chain of one block map into that of the split map |
| `SmallMem.AllocKeeps` | rt-thread/src/mem.c:317-404 | No other block is moved or resized by an allocation |
| `SmallMem.FreeKeeps` | rt-thread/src/mem.c:516-559 | No other live block is moved or resized by a free |
| `SmallMem.ShrinkKeeps` | rt-thread/src/mem.c:468-496 | No other live block is moved or resized by a shrink |
| `SmallMem.NoneFits` | rt-thread/src/mem.c:310-315 | A request larger than the heap fits nowhere, so the early return loses nothing |
| `SmallMem.FitsRounded` | rt-thread/src/mem.c:303-308 | A block holds a size exactly when it holds the size rounded up, because every payload is a multiple of the alignment |
| `SmallMem.StaysIff` | rt-thread/src/mem.c:457-496 | A resize leaves the block where it is exactly when its payload is the new size already, or larger by more than a header and the minimal payload |
| `SmallMem.MovedBlocks` | rt-thread/src/mem.c:498-506 | After allocate, copy and free, the new block is in place and every other live block is where it was |
| `SmallMem.SmallHeap.constructor` | rt-thread/src/mem.c:178-242 | The initial heap is one free block between its header and the end marker, with nothing in use |
| `SmallMem.SmallHeap.Merge` | rt-thread/src/mem.c:145-147 | One merge, as header writes in the heap array, absorbs the free block and changes no live payload |
| `SmallMem.SmallHeap.PlugHoles` | rt-thread/src/mem.c:125-163 | Both merges together join a free block with every free neighbour, move the hint along, and change no live payload |
| `SmallMem.SmallHeap.SplitBlock` | rt-thread/src/mem.c:341-358 | The header of the rest is written behind the requested bytes and linked on both sides |
| `SmallMem.SmallHeap.AdvanceLowest` | rt-thread/src/mem.c:385-392 | The loop moves the hint to the lowest free block, or to the end marker |
| `SmallMem.SmallHeap.Search` | rt-thread/src/mem.c:317-323 | Starting at the hint, the loop finds the lowest-address free block that fits, and finds none only if there is none in the whole heap |
| `SmallMem.SmallHeap.Claim` | rt-thread/src/mem.c:325-392 | The found block is split or taken whole; account, maximum and hint follow |
| `SmallMem.SmallHeap.Alloc` | rt-thread/src/mem.c:279-408 | Exact first fit in terms of the size asked: null if and only if the size is 0 or no free block holds it, and then nothing changes; otherwise the lowest block that holds it, whose payload afterwards is at least that size; live payloads never change |
| `SmallMem.SmallHeap.Free` | rt-thread/src/mem.c:516-559 | The block is freed and merged, the account drops by its span, live payloads of all others are unchanged, and null is ignored |
| `SmallMem.SmallHeap.Shrink` | rt-thread/src/mem.c:468-496 | The block keeps its address and its first bytes; the rest is freed and merged |
| `SmallMem.SmallHeap.Move` | rt-thread/src/mem.c:498-506 | Null with everything unchanged exactly when no block fits; otherwise the first min(old, new) bytes are in the lowest block that fits, the old one is free, no other block or payload changed, and the maximum counts the moment when both are in use |
| `SmallMem.SmallHeap.Resize` | rt-thread/src/mem.c:457-506 | The three ways of a resize: in place, shrinking with a split, or by moving, each with its blocks, bytes and maximum |
| `SmallMem.SmallHeap.Realloc` | rt-thread/src/mem.c:422-507 | A live block of a positive new size is refused exactly when it must move and no block fits, and then nothing changes; otherwise the first min(old, new) bytes are kept apart from all other live blocks and the maximum is exact. Either way the block returned has room for the size asked. Size 0 frees; null allocates exactly when a block fits |
| `MemHeap.UnlinkKeeps` | rt-thread/src/memheap.c:267-271 | Joining the two neighbours of a free header takes exactly that header off the doubly linked free list |
| `MemHeap.PushKeeps` | rt-thread/src/memheap.c:273-277 | Linking a header in behind the sentinel puts it in front of the free list |
| `MemHeap.SplitKeepsList` | rt-thread/src/memheap.c:240-265 | A new header behind the requested bytes keeps the circular block list doubly linked in address order |
| `MemHeap.MergeKeepsList` | rt-thread/src/memheap.c:659-683 | Taking over the next header keeps the circular block list doubly linked in address order |
| `MemHeap.TakenLists` | rt-thread/src/memheap.c:236-307 | After an allocation the free list holds exactly the free blocks again, each once |
| `MemHeap.FreedLists` | rt-thread/src/memheap.c:650-713 | After a free with its merges the free list holds exactly the free blocks again, each once |
| `MemHeap.TakenPayloads` | rt-thread/src/memheap.c:282-292 | What an allocation takes off the free payloads: size and header when split, the whole payload when not |
| `MemHeap.FreedPayloads` | rt-thread/src/memheap.c:647-673 | What a free gives back: the payload and one header for each merge |
| `MemHeap.PoolAccount` | rt-thread/src/memheap.c:74-150 | Used spans, free payloads and free headers with the tail header add up to the pool |
| `MemHeap.MergeOrder` | rt-thread/src/memheap.c:650-688 | Merging to the left first and then to the right gives the same blocks as the order of the block model |
| `MemHeap.GrowLists` | rt-thread/src/memheap.c:430-474 | Growing in place moves the free rest and keeps the free list equal to the free blocks |
| `MemHeap.GrowPayloads` | rt-thread/src/memheap.c:430-435 | Growing in place takes exactly the added bytes off the free payloads |
| `MemHeap.GrowResult` | rt-thread/src/memheap.c:430-484 | Growing in place gives the block the asked size at the same address and moves no other block |
| `MemHeap.ShrinkLists` | rt-thread/src/memheap.c:521-574 | Cutting a block off and merging the rest keeps the free list equal to the free blocks |
| `MemHeap.ShrinkPayloads` | rt-thread/src/memheap.c:547-578 | What a cut gives back to the free payloads, with and without a merge |
| `MemHeap.TakenInFront` | rt-thread/src/memheap.c:267-277 | The rest that an allocation splits off goes to the front of the free list, and the other free blocks keep their order |
| `MemHeap.FreedInFront` | rt-thread/src/memheap.c:690-708 | A freed block goes to the front of the free list unless it joins a free block before it, and the others keep their order |
| `MemHeap.StaysIff` | rt-thread/src/memheap.c:413-519 | A resize leaves the block where it is exactly when its payload is large enough, or the block behind it is free and the two payloads together exceed the new size by more than the minimal rest |
| `MemHeap.SearchResult` | rt-thread/src/memheap.c:217-231 | The first block on the free list that is large enough fits, and when the list holds none, no block of the heap fits |
| `MemHeap.MemHeapObject.constructor` | rt-thread/src/memheap.c:74-150 | One free block and the used tail; use and maximum are the two headers |
| `MemHeap.MemHeapObject.UnlinkItem` | rt-thread/src/memheap.c:267-271 | Unlinking one header by its own two links |
| `MemHeap.MemHeapObject.PushItem` | rt-thread/src/memheap.c:273-277 | Linking one header in behind the sentinel |
| `MemHeap.MemHeapObject.NewItem` | rt-thread/src/memheap.c:240-265 | Writing a new header and linking it into the block list |
| `MemHeap.MemHeapObject.Search` | rt-thread/src/memheap.c:217-228 | The loop over the free list stops at the first header whose block is large enough |
| `MemHeap.MemHeapObject.Carve` | rt-thread/src/memheap.c:230-310 | The block is taken, blocks, free list, available size and maximum all follow |
| `MemHeap.MemHeapObject.AllocAligned` | rt-thread/src/memheap.c:200-345 | Null exactly when the size reaches the available size or no block fits, and then nothing changes; otherwise the first fitting block on the free list is taken |
| `MemHeap.MemHeapObject.Alloc` | rt-thread/src/memheap.c:183-346 | The same in terms of any positive size asked: null exactly when it exceeds what is available less the alignment or no free block holds it; otherwise the block taken has room for it |
| `MemHeap.MemHeapObject.MergeLeft` | rt-thread/src/memheap.c:650-667 | A free left neighbour takes the block over and keeps its place on the free list |
| `MemHeap.MemHeapObject.MergeRight` | rt-thread/src/memheap.c:669-688 | A free right neighbour is taken over and leaves the free list |
| `MemHeap.MemHeapObject.Coalesce` | rt-thread/src/memheap.c:650-713 | Both merges and the choice whether the block is linked in |
| `MemHeap.MemHeapObject.Release` | rt-thread/src/memheap.c:597-724 | A free keeps block list, free list and accounts in agreement; the maximum stays |
| `MemHeap.MemHeapObject.CanGrow` | rt-thread/src/memheap.c:413-430 | The test for growing in place, in terms of the starts of the two blocks and the end of the second |
| `MemHeap.MemHeapObject.Grow` | rt-thread/src/memheap.c:430-484 | Growing into the next free block keeps every part of the invariant, including the running maximum |
| `MemHeap.MemHeapObject.Shrink` | rt-thread/src/memheap.c:505-587 | Cutting down with a merge keeps every part of the invariant |
| `MemHeap.AskForAll` | rt-thread/src/memheap.c:200-201 | A new heap refuses a request for exactly what it says is available, although its one block has the room |
| `MemHeap.MemHeapObject.Move` | rt-thread/src/memheap.c:494-502 | Allocate, copy, free: null with everything unchanged exactly when the allocation is refused; otherwise the old bytes are at the new address, all other blocks and bytes are as before, and the maximum is at least the use between the allocation and the free |
| `MemHeap.MemHeapObject.Resize` | rt-thread/src/memheap.c:387-588 | Growing, keeping, cutting or moving a live block: when each happens, when null is returned, and the exact blocks, available size and maximum after each |
| `MemHeap.MemHeapObject.Realloc` | rt-thread/src/memheap.c:361-588 | The same with null and size 0: null allocates, and fails exactly when an allocation would; a block returned has room for the size asked; size 0 frees and leaves the maximum; failure leaves heap, lists, accounts and bytes unchanged |
| `SlabPages.TakeKeeps` | rt-thread/src/slab.c:211-239 | Taking pages keeps the free runs sorted, disjoint and coalesced |
| `SlabPages.TakeCovers` | rt-thread/src/slab.c:211-239 | The pages returned were free, and exactly they are not free any more |
| `SlabPages.TakeFails` | rt-thread/src/slab.c:211-239 | Nothing is returned exactly when no run is long enough |
| `SlabPages.TakeFirst` | rt-thread/src/slab.c:211-239 | The pages come from the front of the first run that is long enough |
| `SlabPages.GiveKeeps` | rt-thread/src/slab.c:252-294 | Freeing pages keeps the runs sorted, disjoint and coalesced |
| `SlabPages.GiveCovers` | rt-thread/src/slab.c:252-294 | Exactly the given pages become free |
| `SlabPages.TakeThenGive` | rt-thread/src/slab.c:211-294 | Giving back what was just taken restores the list |
| `SlabPages.HandOut` | rt-thread/src/slab.c:211-239 | Blocks of pages handed out never overlap: a new one lies apart from all others, and every page stays either free or in one block |
| `SlabPages.HandBack` | rt-thread/src/slab.c:252-294 | A block given back leaves every page either free or in one of the remaining blocks |
| `SlabPages.PageList.constructor` | rt-thread/src/slab.c:299-306 | The list starts as one run of all pages |
| `SlabPages.PageList.Alloc` | rt-thread/src/slab.c:211-239 | The loop takes the first run that is long enough, from its front; no pages are asked for in vain |
| `SlabPages.PageList.Locate` | rt-thread/src/slab.c:265-289 | Where the loop stops |
| `SlabPages.PageList.Free` | rt-thread/src/slab.c:252-294 | The loop merges with the run in front, with the one behind, with both, or links a new run in |
| `Slab.ZoneIndexFits` | rt-thread/src/slab.c:408-466 | The list index determines the chunk size, which holds the request and is the least of all sizes that do |
| `Slab.ZoneIndexLeast` | rt-thread/src/slab.c:408-466 | No other list would serve the request with a smaller chunk |
| `Slab.ZoneIndexWaste` | rt-thread/src/slab.c:408-466 | Rounding up wastes less than eight bytes or less than an eighth of the request |
| `Slab.ShapeFits` | rt-thread/src/slab.c:621-637 | A zone of any chunk size that is allowed has room for its header and at least two chunks |
| `Slab.LiveApart` | rt-thread/src/slab.c:541-642 | No two live allocations overlap, chunks and large ones alike |
| `Slab.LiveInside` | rt-thread/src/slab.c:635-641 | A live allocation lies within the pages of its zone or of its own run |
| `Slab.LiveClear` | rt-thread/src/slab.c:541-642 | A live allocation never covers a zone header or a free page |
| `Slab.LiveCount` | rt-thread/src/slab.c:546-561 | The chunks of a zone that are out are as many as its two counters say |
| `Slab.FindLive` | rt-thread/src/slab.c:759-788 | The address of a live allocation leads through the page usage table back to its own zone and chunk, or to its own run |
| `Slab.TakeLargeKeeps` | rt-thread/src/slab.c:503-526 | A large allocation keeps the invariant and adds one block of pages |
| `Slab.UseZoneKeeps` | rt-thread/src/slab.c:541-577 | Taking a chunk keeps the zone on its list exactly as long as it has another one, and the account exact |
| `Slab.TakeChunkOk` | rt-thread/src/slab.c:546-570 | The chunk taken, never used before or from the chain, was not live, and no other chunk of the zone changes hands |
| `Slab.OpenZoneKeeps` | rt-thread/src/slab.c:618-650 | A free zone, cut for any allowed size, comes into use with its first chunk out |
| `Slab.AddZoneKeeps` | rt-thread/src/slab.c:597-616 | A zone got from the page allocator is marked page by page |
| `Slab.PushChunkKeeps` | rt-thread/src/slab.c:786-800 | A chunk put on the chain puts a full zone back on its list and keeps the account exact |
| `Slab.EmptyZone` | rt-thread/src/slab.c:808 | When the counters agree that a zone is wholly free, no chunk of it is live |
| `Slab.RetireZoneKeeps` | rt-thread/src/slab.c:808-828 | A wholly free zone leaves its list for the free zones; nothing live is lost |
| `Slab.ReleaseZoneKeeps` | rt-thread/src/slab.c:830-851 | A free zone beyond the second goes back to the page allocator with its pages unmarked |
| `Slab.FreeLargeKeeps` | rt-thread/src/slab.c:761-779 | Freeing a large allocation gives its pages back and takes exactly their bytes off the account |
| `Slab.AllocKeeps` | rt-thread/src/slab.c:487-654 | Every allocation keeps page list, zones, lists and account right, adds exactly one live block and moves none; a refusal changes nothing |
| `Slab.FreeKeeps` | rt-thread/src/slab.c:736-853 | Every free keeps the invariant and takes away exactly that block |
| `Slab.AllocSize` | rt-thread/src/slab.c:487-654 | What is handed out is at least as large as asked |
| `Slab.AllocRefused` | rt-thread/src/slab.c:487-654 | A request is refused exactly when no zone of its size has a free chunk, no free zone is kept and no run of pages is long enough |
| `Slab.AllocServes` | rt-thread/src/slab.c:541-577 | Which chunk a small request gets: from the first zone of its list, the next one that was never out, and when there is none the one freed last; nothing else of any zone changes |
| `Slab.ChunkReused` | rt-thread/src/slab.c:786-800 | Once all chunks of a zone have been out, a freed chunk is the next one it hands out |
| `Slab.AllocAccount` | rt-thread/src/slab.c:487-654 | The account goes up by the size handed out and the peak follows; a refusal changes nothing at all |
| `Slab.FreeAccount` | rt-thread/src/slab.c:736-853 | A free takes the size of the block off the account and leaves the peak |
| `Slab.ChunkFreed` | rt-thread/src/slab.c:786-851 | When a chunk is freed its zone is given up exactly when it is wholly free and another zone can serve the size; two such zones are kept, and a further one goes back to the page allocator |
| `Slab.ReallocSize` | rt-thread/src/slab.c:687-722 | What a resize returns, kept or moved, is at least as large as asked |
| `Slab.ReallocStays` | rt-thread/src/slab.c:706-708 | A chunk is kept exactly when it has the size that the request is rounded to, and then nothing changes |
| `Slab.ReallocRefused` | rt-thread/src/slab.c:687-716 | A resize is refused exactly when it cannot stay and there is neither a free chunk nor a free zone nor a run of pages for the new block |
| `Slab.ReallocToZero` | rt-thread/src/slab.c:677-681 | A resize to 0 makes exactly that block stop being live |
| `Slab.ReallocKeeps` | rt-thread/src/slab.c:667-725 | A resize keeps the invariant, replaces that block by one and moves no other; failure changes nothing |
| `Slab.ReallocCopies` | rt-thread/src/slab.c:687-722 | The copy of a resize stays within both blocks, which do not overlap, and takes all that both have room for |
| `Slab.RunKeeps` | rt-thread/src/slab.c:321-853 | The invariant holds after any run of allocations, resizes and frees of live blocks |
| `Slab.InitGood` | rt-thread/src/slab.c:321-379 | The invariant holds after initialisation, whatever the uncleared usage table contains |
| `Slab.PowerAligned` | rt-thread/src/slab.c:624-641 | A chunk whose size is a power of two is aligned to that size if and only if its zone is, hence always up to the page size |
| `Slab.NextPageIs` | rt-thread/src/slab.c:211-239 | The page that an allocation is cut from can be told before the call: that of the first listed zone, of the first free zone, or of the first run that is long enough |
| `Slab.AllocAlignedIff` | rt-thread/src/slab.c:487-654 | What is handed out for a power of two, chunk or large, is aligned to that size if and only if the size is at most a page or the page it will be cut from is so aligned |
| `Slab.SmallAligned` | rt-thread/src/slab.c:487-654 | Up to the page size the promised alignment always holds |
| `Slab.LargeMisaligned` | rt-thread/src/slab.c:503-526 | Above it the promise fails: in every new heap of 4 to 1024 pages that starts at a multiple of 8192, the first request of 8192 bytes gets two pages from page 1 on |
| `Slab.ChunkMisaligned` | rt-thread/src/slab.c:597-649 | It fails for chunks too: in such a heap of 16385 pages the first chunk of 8192 bytes starts at page 17 |
| `Slab.SlabHeap.constructor` | rt-thread/src/slab.c:321-379 | The loop chooses the zone size; the usage table is the first block of pages |
| `Slab.SlabHeap.AllocLarge` | rt-thread/src/slab.c:503-526 | The branch for requests at or above the limit |
| `Slab.SlabHeap.AllocFromZone` | rt-thread/src/slab.c:541-577 | The branch for a list that is not empty |
| `Slab.SlabHeap.MarkPages` | rt-thread/src/slab.c:608-615 | The loop writes the distance from the zone start into the entry of every page of the zone |
| `Slab.SlabHeap.UnmarkPages` | rt-thread/src/slab.c:839-845 | The loop clears the entries of all pages of the zone |
| `Slab.SlabHeap.ObtainZone` | rt-thread/src/slab.c:590-616 | A free zone if there is one, otherwise pages, otherwise nothing |
| `Slab.SlabHeap.OpenAt` | rt-thread/src/slab.c:618-649 | The zone header is written and the zone linked to its list |
| `Slab.SlabHeap.Alloc` | rt-thread/src/slab.c:487-654 | The whole allocation returns the address of the block that the model hands out |
| `Slab.SlabHeap.LookUp` | rt-thread/src/slab.c:759-783 | Page arithmetic and the usage table name the block that an address belongs to |
| `Slab.SlabHeap.FreePages` | rt-thread/src/slab.c:761-779 | The branch for large allocations |
| `Slab.SlabHeap.Unlink` | rt-thread/src/slab.c:816-819 | The search loop takes exactly the zone off its list |
| `Slab.SlabHeap.PutChunk` | rt-thread/src/slab.c:786-800 | The chunk goes on the chain, the zone back on its list when it was full |
| `Slab.SlabHeap.ReturnChunk` | rt-thread/src/slab.c:781-852 | The branch for chunks, with retiring and releasing the zone |
| `Slab.SlabHeap.RetireAt` | rt-thread/src/slab.c:815-826 | The wholly free zone goes from its list to the free zones |
| `Slab.SlabHeap.Free` | rt-thread/src/slab.c:736-853 | The whole free, from the bare address; null is ignored |
| `Slab.SlabHeap.Move` | rt-thread/src/slab.c:691-694 | A new block, a copy that changes nothing any other allocation holds, and a free; a refusal changes nothing |
| `Slab.SlabHeap.Realloc` | rt-thread/src/slab.c:667-725 | The whole resize: kept in place when the chunk size is the same, otherwise a new block that holds the first bytes of the old one; what all others hold stays |
| `TimerList.LaterIsDistance` | rt-thread/src/timer.c:464-471 | Inside a window of half the tick range the wrapping comparison is the order of distances from its base |
| `TimerList.ScanSplits` | rt-thread/src/timer.c:448-475 | A scan of an ordered row stops exactly between the timers that are not later and those that are |
| `TimerList.ScansAgree` | rt-thread/src/timer.c:447-475 | The scans of two neighbouring rows agree on which timers come first, so a row may be entered where the sparser one was left |
| `TimerList.WithTimerOrdered` | rt-thread/src/timer.c:477-496 | Inserting at the scanned place keeps a row ordered, the newcomer last among its equals |
| `TimerList.WithTimerSub` | rt-thread/src/timer.c:477-496 | After a start every row is still a subsequence of the row below it |
| `TimerList.StartKeeps` | rt-thread/src/timer.c:407-523 | For any number of rows and any tick, a start keeps every row sorted and a subsequence of the one below |
| `TimerList.StartPlaces` | rt-thread/src/timer.c:447-475 | The timer is placed in the bottom row exactly where a linear scan puts it: behind all that are not later |
| `TimerList.StartRows` | rt-thread/src/timer.c:481-496 | A start links the timer into the bottom row, and into the k-th row above it exactly when 4 to the power k divides the number of starts, counted in 32 bits; no other timer changes rows |
| `TimerList.StartFlags` | rt-thread/src/timer.c:407-523 | The activated flag says exactly which timers are on a list |
| `TimerList.PlayKeeps` | rt-thread/src/timer.c:666-667 | A callback that stops or restarts its own timer any number of times touches no other timer |
| `TimerList.FireKeeps` | rt-thread/src/timer.c:654-688 | One round of the check takes the expired timer out and brings it back exactly when it is periodic and still wanted, or was restarted |
| `TimerList.DueHead` | rt-thread/src/timer.c:645-654 | Looking at the head of the ordered row is enough to know whether any timer is due, and which is first |
| `TimerList.CheckKeeps` | rt-thread/src/timer.c:629-696 | The check fires every expired timer exactly once in list order and leaves exactly the others and the re-armed ones pending, in order |
| `TimerList.RoundKeeps` | rt-thread/src/timer.c:645-690 | Each turn of the loop fires the next due timer and leaves the rest of the check to do |
| `TimerList.Rebase` | rt-thread/src/timer.c:629-696 | After a check the window can be moved to the next tick |
| `TimerList.InitSound` | rt-thread/src/timer.c:833-841 | The empty list is sound, with timers of any positive time that is accepted |
| `TimerList.StepSound` | rt-thread/src/timer.c:407-696 | Starts, stops and ticks with their checks keep the list sound |
| `TimerList.RunKeeps` | rt-thread/src/timer.c:407-696 | Over any run the list stays sound, however often the tick count wraps |
| `TimerList.FiresOnTime` | rt-thread/src/timer.c:654 | At the next tick exactly the pending timers whose timeout it is are due |
| `TimerList.StaysPending` | rt-thread/src/timer.c:407-696 | Over any run a timer that is started and left alone stays pending with exactly the rest of its time to go |
| `TimerList.FiresWhenDue` | rt-thread/src/timer.c:407-696 | It fires in the tick that is as many ticks after its start as it was set to, and in none before, whatever other timers do and however often the tick count wraps |
| `TimerList.FiredAgain` | rt-thread/src/timer.c:666-687 | A timer that has fired is pending again with all of its time to go when its callback restarted it last, or when it is periodic and its callback left it alone; otherwise it is off the list |
| `TimerList.StopEffect` | rt-thread/src/timer.c:533-557 | A stopped timer is in no row and not activated; nothing else has changed |
| `TimerList.StaysStopped` | rt-thread/src/timer.c:407-696 | Over any run a stopped timer is off the list until it is started again |
| `TimerList.NeverFiresStopped` | rt-thread/src/timer.c:407-696 | Hence it does not fire before |
| `TimerList.TimerQueue.RemoveTimer` | rt-thread/src/timer.c:188-196 | The timer leaves every row and the list of firing timers |
| `TimerList.TimerQueue.FindPlaces` | rt-thread/src/timer.c:447-475 | The nested search that descends from row to row stops in each row where a scan of the whole row would |
| `TimerList.TimerQueue.Link` | rt-thread/src/timer.c:481-496 | The counter decides how many rows above the bottom get the timer |
| `TimerList.TimerQueue.Start` | rt-thread/src/timer.c:407-523 | The whole start |
| `TimerList.TimerQueue.Stop` | rt-thread/src/timer.c:533-557 | The timer leaves all rows; an inactive timer is an error |
| `TimerList.TimerQueue.Callback` | rt-thread/src/timer.c:666-667 | The operations of a callback, one after the other |
| `TimerList.TimerQueue.FireHead` | rt-thread/src/timer.c:656-687 | One round: unlink, call back, unlink again, restart |
| `TimerList.TimerQueue.Round` | rt-thread/src/timer.c:645-690 | One turn of the loop fires the head if it is due, or leaves the loop |
| `TimerList.TimerQueue.Check` | rt-thread/src/timer.c:629-696 | The loop ends and has fired exactly the due timers in order |
| `TimerList.TimerQueue.NextTimeout` | rt-thread/src/timer.c:157-181 | The reported tick is the timeout of a pending timer, and no pending timer expires before it |
| `WaitList.Place` | rt-thread/src/ipc.c:139-168 | The place that the priority search finds: behind all that are at least as urgent, before all that are less |
| `WaitList.SuspendContents` | rt-thread/src/ipc.c:124-171 | Queueing adds the thread once, by arrival or by priority |
| `WaitList.SuspendPlace` | rt-thread/src/ipc.c:124-171 | A thread queues behind everybody in order of arrival, and behind exactly those at least as urgent by priority |
| `WaitList.SuspendOrder` | rt-thread/src/ipc.c:124-171 | The others keep their order |
| `MessageQueue.HoldersDiffer` | rt-thread/src/ipc.c:3101-3136 | Two threads in the middle of an operation never own the same node |
| `MessageQueue.PartitionFacts` | rt-thread/src/ipc.c:2767-2777 | Free list, queue and nodes in flight share no node and leave none out |
| `MessageQueue.DrainOk` | rt-thread/src/ipc.c:3499-3517 | The reset loop moves every queued node to the free list and leaves nodes in flight alone |
| `MessageQueue.LinkInKeeps` | rt-thread/src/ipc.c:3112-3149 | The second half of a send keeps the invariant and wakes a waiting receiver for the message |
| `MessageQueue.GiveBackKeeps` | rt-thread/src/ipc.c:3435-3454 | The second half of a receive keeps the invariant and wakes a waiting sender for the node |
| `MessageQueue.ResetKeeps` | rt-thread/src/ipc.c:3489-3521 | A reset in the middle of other operations keeps the invariant and empties the queue |
| `MessageQueue.StepKeeps` | rt-thread/src/ipc.c:2995-3528 | Every critical section, copy, expiry and reset, in any interleaving, keeps the nodes partitioned, the counters right and no wakeup lost |
| `MessageQueue.RunKeeps` | rt-thread/src/ipc.c:2995-3528 | The invariant holds after any number of steps of any threads in any order |
| `MessageQueue.StepRefines` | rt-thread/src/ipc.c:2995-3528 | At any moment the queue behaves as a deque: messages enter it at the linking step, whole, leave it at the head, and no other step changes it |
| `MessageQueue.EnterEffect` | rt-thread/src/ipc.c:3040-3110 | What a call of a send does with the buffer: a buffer that fits is carried, with its urgency, to the first free node; without one a waiting send waits with it; everything else is refused |
| `MessageQueue.CarriedKept` | rt-thread/src/ipc.c:2995-3528 | No step between the call and the link changes the buffer or the urgency that a thread carries |
| `MessageQueue.RetryKeeps` | rt-thread/src/ipc.c:3040-3110 | The retry after a wait and the copy keep both |
| `MessageQueue.WakeKeeps` | rt-thread/src/ipc.c:3441-3454 | So does being woken by a receiver |
| `MessageQueue.LinksLastSend` | rt-thread/src/ipc.c:2995-3528 | Over any run: the message that a link adds starts with the buffer of the last send of its thread, and stands at the head if and only if that send was urgent |
| `MessageQueue.RecvEffect` | rt-thread/src/ipc.c:3343-3427 | A receiver gets the first message, or waits, or returns, and changes no other thread |
| `MessageQueue.LinkReturns` | rt-thread/src/ipc.c:3138-3149 | The end of a send returns its caller and touches at most the first receiver |
| `MessageQueue.GiveBackReturns` | rt-thread/src/ipc.c:3435-3454 | The end of a receive returns its caller and touches at most the first sender |
| `MessageQueue.ExpireEffect` | rt-thread/src/thread.c:127-160 | A timeout ends the waiting of exactly that thread |
| `MessageQueue.ResetEffect` | rt-thread/src/ipc.c:3489-3521 | A reset ends every waiting, goes on with operations in progress where they are, and leaves no message |
| `MessageQueue.StepKeepsRanked` | rt-thread/src/ipc.c:124-171 | Every step keeps both lists of waiters in the order of priorities |
| `MessageQueue.SenderWaits` | rt-thread/src/ipc.c:3040-3057 | A sender that has to wait queues behind everybody in order of arrival, and behind exactly those at least as urgent by priority |
| `MessageQueue.ReceiverWaits` | rt-thread/src/ipc.c:3351-3370 | The same for a receiver |
| `MessageQueue.WakesFirst` | rt-thread/src/ipc.c:3138-3149 | A link wakes the first receiver, and a node given back the first sender, which keeps its message |
| `MessageQueue.OverflowUnreachable` | rt-thread/src/ipc.c:3127-3136 | The branch for a full entry counter after a link is never taken |
| `MessageQueue.NobodyStuck` | rt-thread/src/ipc.c:3040-3149 | When no operation is in progress, receivers wait only at an empty queue and senders only at a full one |
| `MessageQueue.InitKeeps` | rt-thread/src/ipc.c:2857-2917 | A new queue satisfies the invariant, whatever its memory contains |
| `MessageQueue.MessageQueueObject.constructor` | rt-thread/src/ipc.c:2857-2917 | The nodes are chained into the free list, the last one first; the count is cut to 16 bits |
| `MessageQueue.MessageQueueObject.TakeFreeNode` | rt-thread/src/ipc.c:3101-3102 | A node leaves the free list |
| `MessageQueue.MessageQueueObject.CopyInto` | rt-thread/src/ipc.c:3107-3110 | The message is copied into the node, which has no successor |
| `MessageQueue.MessageQueueObject.LinkNode` | rt-thread/src/ipc.c:3114-3136 | The node is linked at the tail, or at the head when urgent, and counted |
| `MessageQueue.MessageQueueObject.TakeFirst` | rt-thread/src/ipc.c:3414-3427 | The head node is taken and the count and tail follow |
| `MessageQueue.MessageQueueObject.GiveNodeBack` | rt-thread/src/ipc.c:3437-3439 | The node is linked in front of the free list |
| `MessageQueue.MessageQueueObject.Clear` | rt-thread/src/ipc.c:3499-3517 | The loop of the reset command |
| `Mailbox.PutMails` | rt-thread/src/ipc.c:2331-2347 | Writing at the input offset, which wraps, appends one mail |
| `Mailbox.PutFirstMails` | rt-thread/src/ipc.c:2429-2443 | Stepping the output offset back, with wrap, puts one mail in front |
| `Mailbox.GetMails` | rt-thread/src/ipc.c:2586-2598 | Reading at the output offset, which wraps, takes the oldest mail |
| `Mailbox.DepositKeeps` | rt-thread/src/ipc.c:2270-2360 | A send, stored, waiting or refused, keeps the ring and loses no wakeup |
| `Mailbox.WithdrawKeeps` | rt-thread/src/ipc.c:2523-2613 | A receive keeps the ring and loses no wakeup |
| `Mailbox.MbResetKeeps` | rt-thread/src/ipc.c:2639-2671 | A reset wakes all waiters and empties the ring |
| `Mailbox.MbStepKeeps` | rt-thread/src/ipc.c:2237-2671 | Every step keeps the ring in order; suspended receivers imply that there are no more mails than receivers resumed but not yet back, and dually for senders and free slots |
| `Mailbox.MbStepRefines` | rt-thread/src/ipc.c:2237-2671 | What each step does to the mails: a bounded deque |
| `Mailbox.MbSendEffect` | rt-thread/src/ipc.c:2270-2360 | A send that finds room is done; at a full mailbox it waits with its value or returns |
| `Mailbox.MbRecvEffect` | rt-thread/src/ipc.c:2523-2613 | A receive that finds a mail is done; at an empty mailbox it waits or returns |
| `Mailbox.MbEndsWaiting` | rt-thread/src/ipc.c:2639-2671 | A timeout ends the waiting of exactly that thread, and a reset that of every thread |
| `Mailbox.HoldingKept` | rt-thread/src/ipc.c:2237-2671 | No step changes the value that a thread is in the middle of sending |
| `Mailbox.AppendsLastSend` | rt-thread/src/ipc.c:2237-2360 | Over any run: the mail that a retry puts in is the value of the last send of its thread |
| `Mailbox.MbStepKeepsRanked` | rt-thread/src/ipc.c:124-171 | Every step keeps both lists of waiters in the order of priorities |
| `Mailbox.MbSenderWaits` | rt-thread/src/ipc.c:2270-2287 | A sender that has to wait queues behind everybody in order of arrival, and behind exactly those at least as urgent by priority |
| `Mailbox.MbReceiverWaits` | rt-thread/src/ipc.c:2523-2542 | The same for a receiver |
| `Mailbox.MbWakesFirst` | rt-thread/src/ipc.c:2349-2360 | A mail put in wakes the first receiver, and one taken out the first sender, which keeps its value |
| `Mailbox.MbRunKeeps` | rt-thread/src/ipc.c:2237-2671 | The same over any run |
| `Mailbox.MbInitKeeps` | rt-thread/src/ipc.c:2026-2055 | A new mailbox satisfies the invariant and is empty |
| `Mailbox.MailboxObject.constructor` | rt-thread/src/ipc.c:2026-2055 | An empty ring |
| `Mailbox.MailboxObject.Send` | rt-thread/src/ipc.c:2237-2366 | Without waiting: refused when full, otherwise appended |
| `Mailbox.MailboxObject.Urgent` | rt-thread/src/ipc.c:2410-2462 | Refused when full, otherwise put in front |
| `Mailbox.MailboxObject.Recv` | rt-thread/src/ipc.c:2491-2621 | Without waiting: refused when empty, otherwise the oldest mail |
| `Semaphore.InitKeeps` | rt-thread/src/ipc.c:298-320 | A new semaphore satisfies the invariant |
| `Semaphore.StepKeeps` | rt-thread/src/ipc.c:486-706 | Every take, release, expiry and reset keeps the queue in order, the value at 0 while anybody waits, and the account of units exact |
| `Semaphore.UnitsConserved` | rt-thread/src/ipc.c:505-646 | Units are neither made nor lost: the value moves exactly with the units given and taken, and a release is lost only at the maximum value |
| `Semaphore.ResetWakesAll` | rt-thread/src/ipc.c:680-702 | A reset lets every waiter go without a unit and sets the count, cut to 16 bits |
| `Semaphore.ReleaseWakesFirst` | rt-thread/src/ipc.c:629-646 | A release with waiters lets exactly the first one go, the others stay as they stand, and by priority nobody more urgent stays behind |
| `Semaphore.TakeWaits` | rt-thread/src/ipc.c:522-540 | A take at value 0 queues its caller: behind everybody in order of arrival, and behind exactly those at least as urgent by priority; the others keep their order |
| `Semaphore.ExpireLeaves` | rt-thread/src/ipc.c:559-564 | A waiter that gives up leaves the queue, and the others keep their order |
| `Semaphore.RunKeeps` | rt-thread/src/ipc.c:486-706 | All of this holds over any run, resets included |
| `Semaphore.SemaphoreObject.constructor` | rt-thread/src/ipc.c:298-320 | The initial value, nobody waiting |
| `Semaphore.SemaphoreObject.Join` | rt-thread/src/ipc.c:124-171 | The loop over the waiting list finds the place by priority, or the end |
| `Semaphore.SemaphoreObject.TakeOrWait` | rt-thread/src/ipc.c:486-571 | A take gets a unit, is refused, or suspends the caller |
| `Semaphore.SemaphoreObject.Give` | rt-thread/src/ipc.c:608-656 | A release wakes the first waiter, or counts up, or reports the full value |
| `Semaphore.SemaphoreObject.SetCount` | rt-thread/src/ipc.c:674-706 | The loop of the reset command wakes all waiters, then the count is set |
| `Event.WalkLeavesNone` | rt-thread/src/ipc.c:1711-1765 | Although bits are cleared during the walk, nobody who still waits has a satisfied request at its end |
| `Event.WalkAnswers` | rt-thread/src/ipc.c:1715-1763 | Whoever is woken gets present bits that satisfy its own request |
| `Event.WalkConsumesOnce` | rt-thread/src/ipc.c:1754-1759 | Bits that one woken thread consumed are not handed to a later one |
| `Event.WalkSplits` | rt-thread/src/ipc.c:1715-1764 | Every waiter is kept or woken, once |
| `Event.WalkBits` | rt-thread/src/ipc.c:1754-1759 | The bits left are those sent less what the woken threads that asked to clear were given |
| `Event.WalkDecides` | rt-thread/src/ipc.c:1711-1765 | A waiter is woken exactly when its request is satisfied by the bits that those in front of it have left |
| `Event.SentLeavesNone` | rt-thread/src/ipc.c:1686-1775 | A send leaves no satisfied request waiting as long as nobody who asks queues behind a thread that gave neither AND nor OR |
| `Event.SendEffect` | rt-thread/src/ipc.c:1686-1775 | Which waiters a send lets go, what they are given, and which bits are left |
| `Event.SendSpares` | rt-thread/src/ipc.c:1686-1775 | Nobody else is touched, and those that go on waiting keep their order |
| `Event.RecvEffect` | rt-thread/src/ipc.c:1843-1923 | A receive whose bits are there gets exactly those, and clears them if it asked to; otherwise it waits with its request, or is refused |
| `Event.ExpireLeaves` | rt-thread/src/thread.c:127-157 | A waiter whose time is up leaves the queue, and the others keep their order |
| `Event.RecvPlace` | rt-thread/src/ipc.c:1890-1893 | A thread that has to wait is last in order of arrival, and behind exactly those at least as urgent by priority |
| `Event.StepKeepsRanked` | rt-thread/src/ipc.c:1686-1977 | Every step keeps the waiters in the order of priorities |
| `Event.StepKeeps` | rt-thread/src/ipc.c:1686-1977 | After every send, receive, expiry and reset no suspended thread has a satisfied request |
| `Event.RunKeeps` | rt-thread/src/ipc.c:1686-1977 | The same over any run |
| `Event.InitKeeps` | rt-thread/src/ipc.c:1516-1535 | A new event set satisfies the invariant |
| `Event.StuckBehind` | rt-thread/src/ipc.c:1740-1746 | Behind a thread that gave neither AND nor OR, a request can be satisfied and stay waiting |
| `Event.ReliableIff` | rt-thread/src/ipc.c:1740-1746 | With the assertion compiled out, sends are reliable if and only if nobody who asks queues behind a thread that gave neither AND nor OR |
| `Event.AheadStep` | rt-thread/src/ipc.c:1715-1764 | Unlinking waiters in the course of the walk does not change where it ends |
| `Event.EventObject.WalkWaiters` | rt-thread/src/ipc.c:1715-1764 | The loop, which unlinks waiters as it goes, ends with its early return or at the end of the list where the walk of the model does |
| `Event.EventObject.SendBits` | rt-thread/src/ipc.c:1686-1775 | The whole send, and whether it comes through |
| `Event.EventObject.RecvBits` | rt-thread/src/ipc.c:1811-1931 | A receive gets its bits at once, is refused, or suspends the caller |
| `Scheduler.InsertKeeps` | rt-thread/src/scheduler.c:653-737 | A suspended thread put into the list of its binding and priority is in one place, and the bitmap follows |
| `Scheduler.SuspendKeeps` | rt-thread/src/thread.c:875-909 | Suspending the running thread keeps everything in place |
| `Scheduler.ExitKeeps` | rt-thread/src/thread.c:91-119 | So does its exit |
| `Scheduler.StartupKeeps` | rt-thread/src/thread.c:362-391 | A started thread enters its list |
| `Scheduler.WakeEffect` | rt-thread/src/thread.c:920-954 | Waking a suspended thread makes it ready and puts it into the list of its binding and priority, in front unless it has yielded, or lets it run on when it has not left its processor; every other thread and list stays |
| `Scheduler.StartEffect` | rt-thread/src/thread.c:362-391 | A started thread is ready and in front of the list of its binding and priority, or at its end after a yield; every other thread and list stays |
| `Scheduler.SuspendEffect` | rt-thread/src/thread.c:875-909 | The running thread is suspended and in no list; one that was suspended or closed in between stays so |
| `Scheduler.LeaveEffect` | rt-thread/src/thread.c:91-119 | The running thread is closed and in no list |
| `Scheduler.YieldEffect` | rt-thread/src/thread.c:577-582 | A yield marks the running thread and changes nothing else |
| `Scheduler.SetPriorityEffect` | rt-thread/src/thread.c:767-810 | The thread has the new priority; a ready one moves to the list of it, in front unless it has yielded, and is in no other; every other thread and list stays |
| `Scheduler.ChangeKeeps` | rt-thread/src/thread.c:767-810 | A priority change, of a ready thread or of any other, moves it to the list of its new priority with both bits right |
| `Scheduler.StepDownKeeps` | rt-thread/src/scheduler.c:343-359 | The thread leaving the processor goes back into its list when it can run on |
| `Scheduler.DispatchKeeps` | rt-thread/src/scheduler.c:360-369 | The chosen thread leaves its list and runs on this processor only |
| `Scheduler.ScheduleKeeps` | rt-thread/src/scheduler.c:301-417 | The whole switch keeps the invariant |
| `Scheduler.PickIsLeast` | rt-thread/src/scheduler.c:133-167 | No ready thread that this processor may run is more urgent than the choice between the two bitmaps |
| `Scheduler.GivesWayIff` | rt-thread/src/scheduler.c:340-369 | The thread on a processor gives way exactly when it cannot run on, or a more urgent one is ready, or one as urgent after it has yielded |
| `Scheduler.StayEffect` | rt-thread/src/scheduler.c:370-417 | When it runs on, at most the mark of its yield is cleared |
| `Scheduler.SwitchEffect` | rt-thread/src/scheduler.c:340-369 | The first thread of the most urgent list runs next, the list of the processor before the global one; it leaves its list, and the thread it replaces goes back in front of its own, or to the end after a yield |
| `Scheduler.IdleRuns` | rt-thread/src/scheduler.c:340-343 | When nothing is ready, the idle thread of the processor is the one running |
| `Scheduler.RunsMostUrgent` | rt-thread/src/scheduler.c:301-417 | After an unlocked call outside an interrupt the processor runs a thread that can run, and no thread it might run instead is more urgent |
| `Scheduler.YieldGivesWay` | rt-thread/src/thread.c:572-585 | A thread whose slice is used up gives way to the first of the same priority and queues behind the others |
| `Scheduler.InitKeeps` | rt-thread/src/scheduler.c:197-242 | The first state, in which every processor runs its idle thread, satisfies the invariant |
| `Scheduler.StepKeeps` | rt-thread/src/scheduler.c:133-843 | Every critical section keeps the invariant |
| `Scheduler.RunKeeps` | rt-thread/src/scheduler.c:133-843 | It holds at every release of the lock over any run |
| `Scheduler.OnePlace` | rt-thread/src/scheduler.c:133-843 | A thread is running on one processor, or in the one list its binding and priority choose, once, or in neither; a bit is set exactly when its list is not empty |
| `Scheduler.Kernel.InsertThread` | rt-thread/src/scheduler.c:653-737 | Insertion into the global table or that of the bound processor, or nothing for a running thread |
| `Scheduler.Kernel.RemoveThread` | rt-thread/src/scheduler.c:793-843 | Removal, clearing the bit when the list runs empty |
| `Scheduler.Kernel.HighestPriorityThread` | rt-thread/src/scheduler.c:133-167 | The choice between the global and the local table |
| `Scheduler.Kernel.GiveUp` | rt-thread/src/scheduler.c:343-359 | The current thread steps down |
| `Scheduler.Kernel.SwitchTo` | rt-thread/src/scheduler.c:360-369 | The chosen thread becomes the current one |
| `Scheduler.Kernel.ScheduleOn` | rt-thread/src/scheduler.c:301-417 | In an interrupt the switch is only noted; with the scheduler locked nothing happens; otherwise the switch |
| `Scheduler.Kernel.IrqSwitch` | rt-thread/src/scheduler.c:554-641 | A noted switch is done at the end of the last interrupt unless the scheduler is locked |
| `Scheduler.Kernel.SuspendThread` | rt-thread/src/thread.c:875-909 | Suspension of the running thread |
| `Scheduler.Kernel.ResumeThread` | rt-thread/src/thread.c:920-954 | Only a suspended thread is resumed |
| `Scheduler.Kernel.StartupThread` | rt-thread/src/thread.c:362-391 | A new thread becomes ready |
| `Scheduler.Kernel.SetPriority` | rt-thread/src/thread.c:767-810 | The two branches of a priority change |
| `CpuLock.InitKeeps` | rt-thread/src/thread.c:220-228 | With no lock taken the counters and the lock agree |
| `CpuLock.StepKeeps` | rt-thread/src/cpu.c:170-231 | Nested locking, critical sections and both kinds of context switch keep counters and lock in agreement |
| `CpuLock.RunKeeps` | rt-thread/src/cpu.c:170-231 | The same over any run |
| `CpuLock.IrqSwitchKeeps` | rt-thread/src/scheduler.c:554-641 | The switch at the end of an interrupt, which never unlocks on behalf of the thread it leaves, keeps the agreement |
| `CpuLock.OwnerByCalls` | rt-thread/src/cpu.c:170-231 | Over any run a processor owns the lock exactly when the thread that runs on it has more lock and enter calls than unlock and exit calls behind it, wherever they were made; its scheduler counter adds up the rest |
| `CpuLock.LockThenUnlock` | rt-thread/src/cpu.c:170-214 | Matched calls leave no trace, for the lock and for critical sections |
| `CpuLock.Cpus.AcquireAll` | rt-thread/src/cpu.c:170-191 | The counters and the spin lock of `rt_cpus_lock` |
| `CpuLock.Cpus.ReleaseAll` | rt-thread/src/cpu.c:199-214 | The counters and the spin lock of `rt_cpus_unlock` |
| `CpuLock.Cpus.Enter` | rt-thread/src/scheduler.c:882-919 | Entering a critical section, the outermost one taking the lock count |
| `CpuLock.Cpus.Leave` | rt-thread/src/scheduler.c:944-983 | Leaving it, and whether the scheduler is called |
| `CpuLock.Cpus.StatusRestore` | rt-thread/src/cpu.c:222-231 | The current thread changes and the lock is released when the new one does not hold it |
| `OptParse.KindInvalid` | packages/optparse-latest/optparse.c:59-70 | A character is no option exactly when it is the colon or does not occur in the option string |
| `OptParse.KindIs` | packages/optparse-latest/optparse.c:59-70 | One colon behind the first occurrence asks for an argument, two allow one |
| `OptParse.BundleIs` | packages/optparse-latest/optparse.c:180-233 | How a bundle is read: flags up to its end or up to the first character that takes an argument or is none, and where that argument comes from |
| `OptParse.CallIsStep` | packages/optparse-latest/optparse.c:148-234 | The recursion with its rotations of `argv` does what skipping the non-option and resuming behind the option would |
| `OptParse.StepMeans` | packages/optparse-latest/optparse.c:148-234 | One call returns the first option of what the arguments mean and leaves the meaning of the rest |
| `OptParse.RunIsReference` | packages/optparse-latest/optparse.c:148-234 | Calling until the end is reading all arguments by the reference, bundles, attached and separate arguments and `--` included |
| `OptParse.ReferenceMerges` | packages/optparse-latest/optparse.c:50-57 | Options with their arguments and the other arguments both keep their order |
| `OptParse.FrontMeans` | packages/optparse-latest/optparse.c:148-234 | Without the other arguments the list means the same options |
| `OptParse.PlainRun` | packages/optparse-latest/optparse.c:148-234 | Such a list is read the same way without permutation |
| `OptParse.DriveIsRun` | packages/optparse-latest/optparse.c:148-234 | Driving the parser over the whole vector is the run over the remaining arguments |
| `OptParse.ParsesByReference` | packages/optparse-latest/optparse.c:148-234 | With permutation and no error, the options returned are those of the reference, and `argv` ends as a permutation with the options moved stably in front |
| `OptParse.SameAsRemoving` | packages/optparse-latest/optparse.c:148-234 | The options are those that a plain left-to-right parse finds once the other arguments are removed |
| `OptParse.StepProgress` | packages/optparse-latest/optparse.c:148-234 | Every option found brings the parser forward, so the run ends |
| `OptParse.OptParser.constructor` | packages/optparse-latest/optparse.c:138-146 | The program name is skipped when there is one |
| `OptParse.OptParser.ArgType` | packages/optparse-latest/optparse.c:59-70 | The scan of the option string for one character and its colons |
| `OptParse.OptParser.Permute` | packages/optparse-latest/optparse.c:50-57 | The loop rotates the non-option behind the options after it |
| `OptParse.OptParser.ReadShort` | packages/optparse-latest/optparse.c:180-233 | One option character of a bundle with its argument, if any |
| `OptParse.OptParser.Next` | packages/optparse-latest/optparse.c:148-234 | The whole call, recursion included |
| `WorstCaseStack.FinishedPath` | rt-thread/tools/WCS.py:245-299 | Every path of calls from a finished function stays within finished functions and uses no more stack than its result |
| `WorstCaseStack.WorstPath` | rt-thread/tools/WCS.py:245-299 | The result is the stack use of some path |
| `WorstCaseStack.BoundedIsRight` | rt-thread/tools/WCS.py:245-299 | A number is the true worst case, and is given only where one exists |
| `WorstCaseStack.UnresolvedIsRight` | rt-thread/tools/WCS.py:286-288 | The unresolved calls of a finished function are exactly those of everything it can reach |
| `WorstCaseStack.ActiveIsRecursive` | rt-thread/tools/WCS.py:265-267 | A function met again while its own search is running can reach itself |
| `WorstCaseStack.Conclusion` | rt-thread/tools/WCS.py:245-299 | When every function has a result: unbounded exactly for those that reach a cycle or a pointer call, otherwise the maximum over all paths |
| `WorstCaseStack.Analyzer.constructor` | rt-thread/tools/WCS.py:182-201 | Manual entries start with their result |
| `WorstCaseStack.Analyzer.Visit` | rt-thread/tools/WCS.py:273-276 | Push, recursive call, pop |
| `WorstCaseStack.Analyzer.AddUnresolved` | rt-thread/tools/WCS.py:286-288 | The loop over the unresolved calls of a callee |
| `WorstCaseStack.Analyzer.SearchCalls` | rt-thread/tools/WCS.py:269-290 | The loop over the calls |
| `WorstCaseStack.Analyzer.CalcWcs` | rt-thread/tools/WCS.py:246-290 | The memoised search ends, leaves earlier results alone, and marks as unbounded only what is |
| `WorstCaseStack.Analyzer.CalcAll` | rt-thread/tools/WCS.py:292-299 | All functions are visited |
| `WorstCaseStack.Analyzer.Analyze` | rt-thread/tools/WCS.py:245-299 | For every finite call graph, cyclic or not, the whole analysis ends with exact results |

## Left out

Not modelled:

- Ceiling mutexes: one that is taken while free is not linked into the taken list, so the fixpoint is not meant to hold for it.
- Mutex waits with a finite timeout: expiry does not reset the pending object nor check for an owner.
- Priority changes by users, detaching or deleting a mutex that has waiters, and deleting a thread that owns a mutex.
- The assertion at `rt-thread/src/thread.c:883` is taken as compiled out: the priority update calls `rt_thread_suspend` for a thread that is not the caller, which then returns early.
- The first critical section of `rt_thread_detach` and the later one are one step in `PriorityInheritance`.
- Wrap-around of `RT_ALIGN` for sizes near 2^32, and requests of size zero to `rt_memheap_alloc`.
- The cast of sizes to signed 32-bit numbers in `rt_memheap_realloc`.
- Alignment of the start address in `rt_smem_init`; the modelled heap starts aligned.
- The headers of `MemHeap` and `Slab` are records found by address rather than bytes of the pool; their magic numbers, `pool_ptr`, locking and tracing are not modelled. `SmallMem` keeps its headers in the heap array.
- In `Slab` a free chunk is named by its position in the zone rather than by a pointer stored in it, and a free run of pages by a list entry rather than by its own first bytes; the bytes of the pool hold only what clients have stored.
- Soft timers, their thread, `rt_timer_control`, and skip-list masks other than the default of 3. The callback of a timer acts on its own timer only.
- `stamp` and `starts` in `TimerList`, `start`, `given` and `taken` in `Semaphore`, and `blocks` and `larges` in `Slab` are history that the source does not keep.
- Lists of threads are sequences; their links are not modelled outside the allocators.
- Event sets are sets of bit positions below 32.
- Deleting semaphores, events, mailboxes and message queues, thread deletion inside blocking communication, and signals.
- Acquiring the global lock is one step of `CpuLock`; waiting for it, interrupt masking, inter-processor interrupts and the boot phase, in which there is no current thread, are not modelled.
- Idle threads never suspend; `Scheduler` relies on it as the kernel does.
- Dictionary equality in `fxn_dict2 in parents` is taken as identity of functions, and the name resolution that builds the call graph is not modelled.
- `optparse_long`, the error message, and calls after an invalid option inside a bundle, which finds `subopt` as the error left it.
- `mempool.c`, `device.c`, `idle.c`, `object.c`, `irq.c`, `clock.c` and `kservice.c`: they would add only easier relatives of what is proved.
- Hooks, logs, shell commands, object names and the object registry; boards, drivers and file systems.

Stated weaker than they might be:

- MessageQueue.MessageQueueObject.LinkNode: covers the linking itself; waking the receiver is part of the interleaved steps above it.
- Mailbox.MailboxObject.Send: covers the call without waiting; the waiting loop is part of the interleaved steps above it.
- Mailbox.MailboxObject.Recv: covers the call without waiting; the waiting loop is part of the interleaved steps above it.
