# MOSRT, modelled and proved in Dafny

MOSRT is a small operating system that runs as an ordinary program. This project models four of its parts and proves what
they keep over every run.

- **Demand-paged memory.** Each process has 64 KB, served through one TLB, page tables, shared frames and shared swap.
  `Pager.Pager` is `pager.c` and the byte loops of `vm.c`. `PagingSpec` is the specification: flat memories, and which pages
  are in RAM, modified, in swap, or in RAM with nothing to back them; only the choice of victims is left open. `Abstraction`
  says which state of the specification a paged memory stands for. `FlatRuns` is plain memory. `PolicyView` says how an access
  moves what the replacement policies go by; `FifoOrder` and `LruOrder` say what follows for the victims of whole runs.
- **Heap allocator.** `HeapBlocks` says what a list of blocks is and what taking, growing and releasing do to it.
  `Heap.Heap` walks and rewrites the linked headers in memory and is proved to do just that to the list.
- **Tick engine and schedulers.** `Runtime.Runtime` is the loop of `runtime.c` over `Sched.Scheduler` and `Proc.ProcTable`.
  `TickSpec` is the specification: the state as one value, and every pass of the loop and every request as a function of it;
  only the answers of calls and, under the priority policy, the choice between equals are left open. Every method of the class
  is proved to be its function. `TickFacts`, `TickWork`, `TickRounds` and `TickPrograms` say what every history keeps;
  `TickTurns` and `TickSleep` say when a turn on the CPU ends and how long IO takes; `TickOrder`, `TickRobin`, `TickAging`,
  `TickKills` and `TickLevels` say what each policy does for those who wait; `TickExamples` has the histories in which it does
  not.
- **Message queues, semaphores, mutexes.** `Ipc.Ipc` and `Sync.Table` are the data structures. `IpcProtocol.System` and
  `SyncProtocol` follow whole histories of calls. `Pairing`, `Cooperation`, `Wakeups` and `CallOutcomes` run them together with
  the runtime, as values; `JointRuntime` does so with the objects.

Classes hold the state that the C code keeps in global arrays, as fields of type `seq` or `map`. Proofs about a step are lemmas
on values; methods only connect them.

## Main results

- `PagedRuns.Run`: the whole pager refines the specification's machine, over every run, with the exact conditions under which
  it is plain memory. Under FIFO pages are given up in the order in which they came in; under LRU no page is given up while
  another one in RAM was last walked to before it.
- `Pager.Pager.AccessPage`: one fault keeps ownership of frames and slots one to one, the TLB coherent and the policy's list
  complete, on error returns too.
- `Heap.Heap.Malloc`, `Heap.Heap.Free`, `Heap.FreeEach`: the allocator keeps its blocks tiled, linked and merged, is complete,
  and gives everything back.
- `RuntimeRuns.Session`: any session with the runtime is a history of the specification, made of its commands in their order.
- `TickOrder.ServedInOrder`: under FCFS and round robin, those who became READY, in that order, are those dispatched so far
  followed by those still waiting.
- `TickRobin.TurnComes`, `TickRobin.StaysPrompt`: under round robin a process is dispatched within the quanta of those before it,
  and nobody waits for more than a quantum for every process, as long as no process is ended and the quantum stays.
- `TickAging.NotPassedOver`, `TickAging.StaysPatient`: under the priority policy nobody READY for 195 ticks is passed over for a
  later process, and nobody waits for more than that and a quantum for every process.
- `TickTurns.BestGoesFirst`, `TickTurns.TurnEndsIff`, `TickTurns.YieldTakesEffect`: whom the priority policy dispatches, exactly
  when a process in a burst loses the CPU under each policy, and that a request to reschedule is met with the next busy tick.
- `TickSleep.IoTakes`, `TickPrograms.StaysOnTrack`: IO takes its ticks, and running time is what the program asks for, over every
  history.
- `TickRounds.RoundsConsume`, `TickRounds.NoIdleWaste`: how many ticks a step consumes, and that none is idle while somebody can
  run.
- `Cooperation.CooperativeRun`: runtime, queues and semaphores together keep each other's assumptions over every run, kills
  included.
- `Wakeups.NothingLost`: if moreover nobody is ended while it waits for a queue or after it was woken for it, messages are
  handed out in the order sent, and nobody waits beside a message or beside free space unless somebody READY or running is about
  to use the queue. `Wakeups.WakesIff` says exactly when a call with somebody waiting wakes anybody.
- `CallOutcomes.CallOutcome`: in every run, exactly which calls end their process, which go through and which block.
- `SyncProtocol.TokensConserved`, `SyncProtocol.MutexSafe`: over any calls.

## Where the code does less than it seems to

Each of these is stated as it is in the code, with a run that shows it and the exact condition where there is one.

- A page read back from swap has no copy there any more and is clean. Evicted again it turns to zeros (`LostWrite`).
  `EvictionHarmless` says when an eviction loses nothing, `PagingTheorems.NothingLost` when a run does not.
- The victim leaves the replacement policy's list before swap is found full (`Unlisted`). `AccessPage` keeps all frames listed if
  and only if it does not run out of memory.
- Growing the heap marks pages absent without giving back their frames (`GrowthBreaks`). `GrowKeepsOwnership` says exactly when
  that is harmless.
- Clock reads reference bits of the faulting process at indices that are frame numbers; its hand skips the entry after the
  victim (`HandReachesSuccessor`).
- MLFQ boosts on every pass once tick 50 is reached, because rebuilding the queues resets the boost clock. From then on the
  process to run is the READY one in the lowest slot (`SlotsDecide`), so that one process with CPU work starves all others, for
  any length of time (`NobodyElse`, `LevelsStarve`). The boost is meant to prevent just that.
- Ending a process puts those who wait in slot order. They keep their order if and only if that was the order of their slots
  (`KillKeepsOrderIff`). Otherwise somebody is overtaken; with processes ended again and again one waits hundreds of times as
  long as a quantum for every process would take (`KillsStarve`).
- Ending a process leaves its entry in the waiting lists. A send, receive, post or unlock then wakes nobody if and only if the
  first in line has been ended (`WakesIff`); the message or token is held for the dead, or the free place offered to nobody, and
  those behind stay BLOCKED (`MessageLost`). `KillHarmlessIff` says exactly which kills do no such harm.
- Aging is meant to take a point every five ticks. It takes one in every pass that begins at such a tick, and several may
  (`AgesExactly`).
- A mutex handed over on unlock cannot be taken by its new owner: the retried lock fails (`HandedOverLockFails`,
  `HandOverHappens`).
- After a policy change the running process is not charged for its time (`KeepsCpu`, `Forgotten`). `StaysCharged` says exactly
  when it is.
- A tick is lost when 1024 passes consume none (`LostRound`, `LostTick`); `RoundConsumes` gives a condition that rules it out.

## Model

| member | source | states |
|---|---|---|
| PagedRuns.RunOn | mosrt/src/vm.c:64-182 | The same run, that the machine ends in the state in which its history ends, and that under FIFO every victim was at the head of the line, under LRU used longest ago. |
| PagedRuns.Run | mosrt/src/vm.c:64-182 | For any sequence of operations on a machine of any size the answers are explained by a history of the specification's machine: when each operation fails, which page each byte evicts, and that each byte read is the last one stored there, or 0 once its page was forgotten. If no page brought back by a read is evicted unwritten, every byte read is simply the last one stored. With a frame for every page touched the answers are those of plain memory. With more frames and slots than pages touched nothing fails for want of memory. As long as no process is destroyed and the policy stays FIFO, pages are given up in the order in which they came in. Whenever the policy is LRU, and memory has not run out since, no page is given up while another one in RAM was last walked to before it. The page table is walked for every page not in RAM or not used since the last dispatch. |
| PagedRuns.Step | mosrt/src/vm.c:64-182 | One operation is a stretch of history, and tables, frames, slots, TLB and policy list agree with it afterwards; under FIFO its victims leave at the head of the line and its pages join at the end; under LRU its victims were used longest ago, and its walks are stamped with its tick. |
| FifoOrder.FirstInFirstOut | mosrt/src/replacement_fifo.c:33-83 | If every victim was at the head of the line, the pages in line and those that came in since, in that order, are the victims followed by those still in line. |
| LruOrder.LeastRecentlyUsed | mosrt/src/replacement_lru.c:30-96 | In every history: under LRU, as long as all frames in use are listed, the page given up is in RAM and no page in RAM was last walked to before it. |
| LruOrder.StampIsUse | mosrt/src/replacement_lru.c:30-53 | The stamp of a page is the tick at which the page table was last walked to it since the policy was chosen, or 0. |
| LruOrder.AllStamped | mosrt/src/pager.c:109-112 | Until memory runs out every page in RAM has a stamp. |
| LruOrder.AccessFits | mosrt/src/vm.c:73-113 | One byte read or written moves the stamps as the history says; the page table is walked exactly if the TLB does not know the page. |
| LruOrder.PolicyFits | mosrt/src/pager.c:48-56 | Choosing LRU stamps every page in RAM with 0. |
| PolicyView.WalkMoves | mosrt/src/pager.c:101-120 | Walking to a resident page stamps its frame under LRU and no other, sets its reference bit and no other, and lets the TLB know it; FIFO and Clock keep their lists. |
| PolicyView.ArrivalMoves | mosrt/src/pager.c:205-221 | A page that comes in is stamped and listed last, its reference bit is set, and the TLB knows it. |
| PolicyView.VictimMoves | mosrt/src/pager.c:137-180 | The victim is the head of the line under FIFO, a page used longest ago under LRU, and the page at which the hand stops under Clock, which clears exactly the bits it passes; the others keep their places, stamps and bits. |
| Pager.Delisted | mosrt/src/pager.c:137-180 | When an entry leaves the list, all frames in use stay listed exactly if its frame is freed. |
| FlatRuns.AmpleRam | mosrt/src/vm.c:64-182 | Every history whose operations touch no more pages than there are frames answers exactly as plain memory does. |
| FlatRuns.AmpleSwap | mosrt/src/pager.c:123-186 | With more frames and slots than pages touched, an operation fails exactly if it fails on plain memory. |
| PagingTheorems.LoadsReturnLast | mosrt/src/vm.c:64-182 | In every history each load returns the byte last stored there by that process, or 0 if there is none since the process began or its page was forgotten. |
| PagingTheorems.NothingLost | mosrt/src/pager.c:162-196 | If no page that a read brought back from swap is evicted before being written, that is the byte last stored, without exception. |
| PagingTheorems.FirstOutOfMemory | mosrt/src/pager.c:126-167 | The first time memory runs out, RAM is full and the policy's victim is dirty with swap full. |
| PagedExamples.LostWrite | mosrt/src/pager.c:162-196 | A run with one frame in which a byte written as 7 reads as 7 and later, with nothing written in between, as 0. |
| PagedExamples.Loses | mosrt/src/pager.c:162-196 | Every history of those operations with one frame and one slot gives these answers. |
| PagedExamples.Unlisted | mosrt/src/pager.c:137-167 | A reachable state in which a frame in use is no longer listed with the policy. |
| PagedExamples.GrowthBreaks | mosrt/src/vm_alloc.c:35-46 | A reachable state in which growing the heap leaves a frame owned by a page that is not resident. |
| Pager.Pager.Read | mosrt/src/vm.c:64-120 | A read is refused outright outside the address space; else it loads byte by byte and gives up only where a byte is refused. |
| Pager.Pager.Write | mosrt/src/vm.c:122-182 | A write stores byte by byte and stops at the first byte that is refused, for permission or for want of memory. |
| Pager.Pager.ReadByte | mosrt/src/vm.c:73-113 | One byte read is one event of the specification: the byte that memory holds, or a refusal for want of memory; the victim, if any, is the policy's choice, and what the policy goes by has moved on, for a walk exactly if the TLB did not know the page. |
| Pager.Pager.WriteByte | mosrt/src/vm.c:131-175 | One byte written is one event: that byte of memory changes and no other except by the eviction of the policy's victim, or it is refused; the policy has moved on in the same way. |
| Pager.Pager.Translate | mosrt/src/vm.c:139-171 | Hit or miss, the frame found is the page's frame and the specification's access has happened, or it is refused for the specification's reason; the victim is the policy's choice. The policy hears of it exactly if the TLB did not know the page, which it then does. |
| Pager.Pager.TlbHit | mosrt/src/vm.c:141-152 | A TLB hit finds the frame and the permissions the page table has, and does to the page what the walk would do, except that the policy and the reference bits do not notice. |
| Pager.Pager.AccessPage | mosrt/src/pager.c:84-226 | Which result in which case; on success page and victim change exactly as the specification says, on failure nothing does; all frames stay listed with the policy if and only if the result is not out of memory; the three counters are exact. Under LRU the page is stamped with this tick and all others listed keep theirs; its reference bit is set. |
| Pager.Pager.Fault | mosrt/src/pager.c:123-225 | A fault succeeds exactly if a frame is free or the policy's victim can be swapped out, and then the page is resident with its old bytes, listed, stamped with this tick and marked as referenced. |
| Pager.Pager.Evict | mosrt/src/pager.c:128-184 | With RAM full the policy's choice is evicted; it fails exactly if nothing is listed or the choice is dirty and swap is full, and then the frame in use has left the list. The other entries keep order and stamps. |
| Pager.Pager.GiveUp | mosrt/src/pager.c:137-180 | The page in the frame given up is expelled, or stays where it is if it is dirty and swap is full. |
| Pager.Pager.Expel | mosrt/src/pager.c:158-180 | A dirty page goes to swap; a clean one is dropped, forgotten if a read had brought it back; the frame is free and the TLB forgets the page. |
| Pager.Pager.Install | mosrt/src/pager.c:188-221 | Filling, mapping, listing with the policy and refreshing the TLB bring the page in as the specification says and restore the invariant. |
| Pager.Pager.HitPage | mosrt/src/pager.c:101-120 | A resident page keeps its frame and its bytes; a write makes it dirty. Under LRU its frame is stamped with this tick and no other is; its reference bit is set and no other changes. |
| Pager.Pager.Switch | mosrt/src/runtime.c:132-137 | After a dispatch every TLB entry is invalid. |
| Pager.Pager.CreateProcess | mosrt/src/vm.c:25-41 | A new process has an address space of zeros; the others keep theirs. |
| Pager.Pager.DestroyProcess | mosrt/src/vm.c:43-62 | Frees exactly the process's frames and slots and forgets exactly its memory; frames stay listed with the policy. |
| Pager.Pager.SetPolicy | mosrt/src/pager.c:28-58 | Under the new policy every allocated frame is listed again, under LRU with stamp 0. |
| Pager.Pager.GrowHeap | mosrt/src/vm_alloc.c:35-46 | Pages untouched before are left alone and the invariant holds. |
| Pager.Pager.constructor | mosrt/src/vm.c:11-16 | The empty machine satisfies every invariant. |
| Abstraction.SwapOutShows | mosrt/src/pager.c:162-175 | Moving a dirty page to a free slot shows as its eviction in the specification. |
| Abstraction.DiscardShows | mosrt/src/pager.c:173-180 | Dropping a clean page shows as its eviction, which forgets it if a read had brought it back. |
| Abstraction.LoadShows | mosrt/src/pager.c:188-212 | Loading a page shows as its coming into RAM and leaving swap, with its bytes. |
| Abstraction.Room | mosrt/src/frame.c:27-40 | RAM, or swap, is full exactly when as many pages are resident, or swapped, as there are frames, or slots. |
| PagerFacts.EvictionHarmless | mosrt/src/pager.c:158-177 | Evicting a page leaves the memory of all processes as it was if and only if the page is dirty or all zeros; no other page is affected. |
| PagerFacts.GrowKeepsOwnership | mosrt/src/vm_alloc.c:35-46 | Growing the heap keeps frames and slots matched with page tables if and only if the new pages were neither resident nor in swap. |
| PagerFacts.DestroyOk | mosrt/src/vm.c:43-62 | Releasing all of a process's frames and slots keeps the matching for everybody else. |
| PagerFacts.EntryFacts | mosrt/src/vm.c:139-152 | A valid TLB entry of the running process agrees with the page table on presence, frame, dirty bit and permissions. |
| PagedMemory.SwapOutOk | mosrt/src/pager.c:162-175 | Moving a dirty page to a free slot keeps every logical byte and the matching of frames and slots. |
| PagedMemory.DiscardOk | mosrt/src/pager.c:173-180 | Dropping a clean page zeros that page only, and nothing if it was not read back from swap. |
| PagedMemory.LoadOk | mosrt/src/pager.c:188-212 | Loading an absent page into a free frame keeps every logical byte and all invariants. |
| PagedMemory.StoreOk | mosrt/src/frame.c:60-64 | A byte stored in a dirty page's frame changes that logical byte and no other, in any process. |
| PagedMemory.ReadOnlySegmentsAreZero | mosrt/src/page_table.c:83-96 | Pages of read-only segments hold zeros in every reachable state. |
| Ownership.MapFrame | mosrt/src/page_table.c:15-22 | Mapping an absent page to a free frame keeps owners and present pages in one-to-one correspondence. |
| Ownership.UnmapFrame | mosrt/src/pager.c:173-180 | Unmapping a page and freeing its frame keeps the correspondence. |
| Ownership.FillSlot | mosrt/src/swap.c:28-40 | Putting a page into a free slot keeps slots and swapped pages in one-to-one correspondence. |
| Ownership.EmptySlot | mosrt/src/swap.c:42-52 | Freeing the slot of a page that leaves swap keeps the correspondence. |
| FlatMemory.ReadAfterWrite | mosrt/src/vm.c:64-182 | In the specification reading a range just written gives what was written. |
| Tlb.Cache.Lookup | mosrt/src/tlb.c:18-32 | Finds the page exactly if it is cached; only its time stamp and the counters change. |
| Tlb.Cache.Insert | mosrt/src/tlb.c:34-76 | Overwrites the entry of the same page, else an invalid one, else a least recently used one. |
| Tlb.Cache.FlushEntry | mosrt/src/tlb.c:89-95 | The page is not cached, all other entries stay. |
| Tlb.InsertCoherent | mosrt/src/tlb.c:34-76 | Inserting the present translation keeps entries distinct and in agreement with the page table. |
| Tlb.FlushCoherent | mosrt/src/tlb.c:89-95 | Flushing one page keeps the agreement even if that page's translation changes. |
| Replacement.Tracker.EvictClock | mosrt/src/replacement_clock.c:75-137 | The victim is the first entry from the hand whose bit is clear, or the hand's own if all are set; exactly the bits passed are cleared; the survivors keep their order; the fallback is never reached. |
| Replacement.Tracker.Evict | mosrt/src/replacement_lru.c:71-96 | Each policy's victim: the head of the list, an entry with least time stamp, or Clock's; it alone leaves the list. |
| Replacement.StopsAfterUnique | mosrt/src/replacement_clock.c:88-121 | The place where Clock stops is determined by list, hand and bits. |
| Replacement.HandReachesSuccessor | mosrt/src/replacement_clock.c:102-112 | The hand points at the victim's successor if and only if the victim was the last entry or one of two. |
| Frames.FrameTable.Alloc | mosrt/src/frame.c:27-40 | The lowest free frame, zeroed; fails exactly when all are taken; the counter is the number taken. |
| Frames.FrameTable.Free | mosrt/src/frame.c:42-51 | The frame is free and the counter still right, whether or not it was taken. |
| Frames.WriteBlockBytes | mosrt/src/frame.c:66-76 | Reading a block back gives what was written to it, and no other block changed. |
| Swap.SwapSpace.Alloc | mosrt/src/swap.c:28-40 | The lowest free slot; fails exactly when all are taken; both counters stay right. |
| Swap.SwapSpace.Free | mosrt/src/swap.c:42-52 | The slot is free and both counters stay right. |
| Heap.Heap.Malloc | mosrt/src/vm_alloc.c:50-159 | First fit, else growth by the pages needed, else 0: exactly when nothing fits and the growth would pass 128 pages. The recursion is one deep. Links, tiling and the absence of adjacent free blocks are kept; the live blocks gain exactly the new one. |
| Heap.Heap.Free | mosrt/src/vm_alloc.c:161-235 | The block and its free neighbours become one free block; the live blocks lose exactly that one; a free block or an address outside changes nothing. |
| Heap.Heap.Search | mosrt/src/vm_alloc.c:72-126 | The walk over the headers ends and stops at the first block that fits, or at the last block. |
| Heap.Heap.Split | mosrt/src/vm_alloc.c:82-111 | Rewriting two or three headers yields exactly the list with the block split. |
| Heap.Heap.Extend | mosrt/src/vm_alloc.c:128-155 | Growth appends one free block linked to the last; it fails exactly at the limit. |
| Heap.Heap.GrowBreak | mosrt/src/vm_alloc.c:25-48 | The break moves by whole pages and never past 128. |
| Heap.Heap.Stats | mosrt/src/vm_alloc.c:237-270 | The counts are right, and free bytes, live bytes and headers add up to the size of the heap. |
| Heap.MallocThenFree | mosrt/src/vm_alloc.c:50-235 | When malloc does not grow the heap, freeing its result restores the block list and the break. |
| HeapBlocks.Ordered | mosrt/src/vm_alloc.c:50-235 | No block reaches into a later one: payloads overlap neither each other nor a header. |
| HeapBlocks.FieldsFit | mosrt/src/vm_alloc.c:25-48 | Addresses and sizes fit into 16 bits. |
| HeapBlocks.AllocLive | mosrt/src/vm_alloc.c:80-119 | The live blocks gain exactly one, with fewer than 12 bytes to spare. |
| HeapBlocks.GrowAllocOk | mosrt/src/vm_alloc.c:128-158 | After growth the request goes into the new block and the list is well-formed. |
| HeapBlocks.FreeLive | mosrt/src/vm_alloc.c:161-235 | The live blocks lose exactly the released one. |
| HeapBlocks.FreeBySteps | mosrt/src/vm_alloc.c:185-234 | Merging forwards and then backwards is the same as merging the whole run at once. |
| HeapBlocks.FreeUndoesAlloc | mosrt/src/vm_alloc.c:80-235 | Releasing what was just taken restores the list, split or not. |
| Heap.FreeEach | mosrt/src/vm_alloc.c:161-235 | Calling free on every live block of a heap, in any order, leaves one free block over the whole heap. |
| HeapBlocks.FreeEverything | mosrt/src/vm_alloc.c:161-235 | Releasing all live blocks of any heap, in any order, leaves one free block over the whole heap. |
| HeapBlocks.BytesAddUp | mosrt/src/vm_alloc.c:237-270 | Free bytes, live bytes and headers add up to the extent of the list. |
| RuntimeRuns.Session | mosrt/src/runtime.c:441-582 | Any session of launches, steps, kills, yields, policy and quantum changes from the empty runtime ends where a history of the specification ends that is made of just these commands, in order. The clock is at most the ticks asked for, and exactly these if little was launched. The CPU idled exactly in the passes in which nobody could run. Without kills and policy changes, or under FCFS from the start, the line is in the order of becoming READY. With launches, steps and yields only, nobody READY has waited for more than 10 ticks for every process; under the priority policy from the start, kills included, for more than 195 on top of that. |
| RuntimeRuns.RunAll | mosrt/src/runtime.c:441-582 | The session itself: the commands one after the other. |
| RuntimeRuns.SessionTicks | mosrt/src/runtime.c:494-525 | Ticks consumed against ticks asked for, over every session. |
| RuntimeRuns.PlainSession | mosrt/src/sched.c:195-238 | Launches, steps and yields: nobody READY has waited for more than a quantum for every process. |
| RuntimeRuns.OrderlySession | mosrt/src/sched.c:18-38 | Without kills and policy changes processes were dispatched in exactly the order in which they became READY. |
| RuntimeRuns.OrderlyPolicy | mosrt/src/sched.c:18-38 | The same for a session that begins by choosing FCFS or round robin; under MLFQ every level is in that order until tick 50. |
| RuntimeRuns.PrioSession | mosrt/src/sched.c:223-252 | A session that begins by choosing the priority policy: nobody READY has waited for more than 195 ticks and a quantum for every process. |
| Runtime.Runtime.Step | mosrt/src/runtime.c:494-525 | Exactly n rounds of passes, each answered by the environment, and the state in which they end. |
| Runtime.Runtime.StepOne | mosrt/src/runtime.c:499-523 | One round: passes until one consumes a tick, none before it does, at most 1024. |
| Runtime.Runtime.Pass | mosrt/src/runtime.c:501-522 | A pass is the specification's: who is woken, aged, boosted and dispatched, and what its instruction does. |
| Runtime.Runtime.Select | mosrt/src/runtime.c:502-514 | Waking, aging, boosting and dispatching; nobody is found exactly if there is nobody to run. |
| Runtime.Runtime.WakeDue | mosrt/src/runtime.c:86-92 | Exactly the processes whose time has come become READY and join the line in slot order. |
| Runtime.Runtime.EnqueueReady | mosrt/src/runtime.c:71-76 | The process is READY since this tick and last in its line. |
| Runtime.Runtime.Rebuild | mosrt/src/runtime.c:101-115 | The lines hold the READY processes in slot order, the heap is in order, and the boost clock is 0. |
| Runtime.Runtime.Age | mosrt/src/sched.c:240-252 | Each READY process that has waited a multiple of five ticks gains one step of priority, and nothing else changes. |
| Runtime.Runtime.Refresh | mosrt/src/runtime.c:503-513 | Aging under the priority policy; under MLFQ a boost on every pass from tick 50 on; the queues in slot order again. |
| Runtime.Runtime.RunNext | mosrt/src/runtime.c:121-138 | The head of the line, of the first level with somebody in it, or a READY process with the best priority, and of these one that has been READY longest, leaves the queue and runs; nobody does exactly if nobody is READY. |
| Runtime.Runtime.GiveWay | mosrt/src/runtime.c:174-181 | The running process is READY again at the end of its line, under MLFQ one level further down. |
| Runtime.Runtime.MaybePreempt | mosrt/src/runtime.c:164-182 | The running process gives way as the specification says, which `TickTurns.TurnEndsIff` spells out: if asked to, if the timer rang, or if its policy says so. |
| Runtime.Runtime.IdleOneTick | mosrt/src/runtime.c:514-519 | A tick is charged to idle and to every waiting or blocked process. |
| Runtime.Runtime.UseTick | mosrt/src/runtime.c:215-223 | A tick is charged to busy and to the running process; the quantum is charged exactly if the scheduler knows the process as the running one. |
| Runtime.Runtime.ExecuteCall | mosrt/src/runtime.c:239-405 | A call that is done wakes at most one process and moves on; one that blocks or faults is tried again; one that fails ends the process. |
| Runtime.Runtime.Execute | mosrt/src/runtime.c:191-413 | One instruction as the specification says; what that is instruction by instruction is `TickPrograms.PassObeys`, and how long IO takes `TickSleep.IoTakes`. |
| Runtime.Runtime.RunWorkload | mosrt/src/runtime.c:465-491 | The new process is READY, last in line; fails exactly when the table is full, and changes nothing then. |
| Runtime.Runtime.Kill | mosrt/src/runtime.c:527-547 | Any live process can be killed; its slot is given back, and those who wait are in slot order. |
| Runtime.Runtime.SetScheduler | mosrt/src/runtime.c:570-576 | Those who wait are in slot order under the new policy, and nobody is known as running. |
| Runtime.Runtime.SetQuantum | mosrt/src/sched.c:135-139 | Only the quantum changes, to the given number of ticks, or 1 for 0. |
| Runtime.Runtime.constructor | mosrt/src/runtime.c:415-429 | The empty runtime: round robin, quantum 10, tick 0. |
| Runtime.HeapForemost | mosrt/src/sched.c:40-112 | The root of an ordered heap of the READY processes has the best priority among them, and of these it has been READY longest. |
| Runtime.HeapIsReady | mosrt/src/sched.c:227-236 | Scanning the heap for a better process is the same as asking whether a READY one comes first. |
| TickFacts.GoodApply | mosrt/src/runtime.c:494-582 | Every pass and request keeps the invariant: the lines of FCFS, round robin and MLFQ hold the READY processes exactly once, each in its level; at most one process runs; the clock is busy plus idle; and each life is running, waiting and blocked time. The priority policy keeps no line; that its heap holds the READY processes exactly once is `HeapOk`, a part of the class invariant that every method of `Runtime.Runtime` keeps. |
| TickFacts.GoodAfter | mosrt/src/runtime.c:494-582 | So does every history. |
| TickWork.PassedWork | mosrt/src/runtime.c:501-522 | A pass consumes a tick or lowers the work left; the bound on that never grows. |
| TickWork.NobodyIff | mosrt/src/runtime.c:502-514 | Nobody is there to run exactly if nobody runs, is READY or is due to wake. |
| TickWork.IdlesIff | mosrt/src/runtime.c:514-519 | A pass idles exactly then. |
| TickPrograms.PassObeys | mosrt/src/runtime.c:191-413 | A pass executes one instruction of the process that runs: it ends with code 0 behind its program and at EXIT and with code 1 at a burst of 0; IO and a call that is done move on; a call that blocks or faults is left to be tried again; one that fails ends it with its code. All other programs stay where they are. |
| TickPrograms.PassCompletes | mosrt/src/runtime.c:140-150 | The process that runs is counted as completed exactly if the pass is its end. |
| TickPrograms.LaunchStarts | mosrt/src/runtime.c:465-491 | A process launched is READY as of now, at the beginning of its program, last in line, with its priority brought into the range from 0 to 39. |
| TickPrograms.KillEnds | mosrt/src/runtime.c:527-547 | A kill ends a live process at this tick with code 130, and leaves all others as they are. |
| TickPrograms.StaysOnTrack | mosrt/src/runtime.c:202-226 | Over every history each process has run for exactly the bursts behind it and what it has done of the present one. |
| TickPrograms.BurstTakes | mosrt/src/runtime.c:202-226 | From the beginning of a burst of n ticks to its end, however often interrupted, its process runs for exactly n ticks. |
| TickPrograms.ProgramTakes | mosrt/src/runtime.c:191-226 | A process at the end of its program has run for exactly the sum of its bursts. |
| TickSleep.IoTakes | mosrt/src/runtime.c:227-238 | A process that executes IO n at tick t and is not killed is BLOCKED in every state before tick t + n, and becomes READY in the first pass from then on, past the instruction. |
| TickSleep.FaultTakes | mosrt/src/runtime.c:381-388 | A process whose call meets a page fault at tick t is BLOCKED in every state before tick t + 5, and becomes READY in the first pass from then on, before the same instruction. |
| TickSleep.BackInPass | mosrt/src/runtime.c:86-92 | When that pass is over it has been dispatched in it or is READY since then. |
| TickTurns.BestGoesFirst | mosrt/src/sched.c:40-53 | Under the priority policy no READY process has a better priority than the one dispatched, and none of the same has been READY longer. |
| TickTurns.TurnEndsIff | mosrt/src/runtime.c:164-182 | After a busy tick the process keeps the CPU if and only if there was no request, the timer was silent, and, except under FCFS, some of its quantum is left and, under the priority policy, no READY process is better. Otherwise it is READY as of now, last in line, under MLFQ one level down, and the request is met. |
| TickTurns.LevelMoves | mosrt/src/sched.c:254-275 | Under MLFQ a process goes down one of four levels exactly when its turn ends with a tick of its burst; from tick 50 on every pass first puts it back to the top. |
| TickTurns.YieldTakesEffect | mosrt/src/runtime.c:564-568 | After a request to reschedule, whatever happens before the next busy tick: with that tick nobody runs, whoever ran is READY, under FCFS and round robin last in line, and the request is met. |
| TickTurns.KeepsTurn | mosrt/src/sched.c:217-238 | With no request and the timer silent a process in a burst keeps the CPU, under FCFS to the end of the burst, under round robin and MLFQ as long as some of its quantum is left. |
| TickTurns.TurnUsedUp | mosrt/src/sched.c:217-238 | Under round robin it gives way with the last tick of its quantum and goes to the end of the line. |
| TickRounds.RoundConsumes | mosrt/src/runtime.c:499-523 | A round consumes its tick if twice the instructions left plus the live processes is below 1024. |
| TickRounds.RoundsConsume | mosrt/src/runtime.c:494-525 | n rounds consume at most n ticks, and exactly n under that condition. |
| TickRounds.NoIdleWaste | mosrt/src/runtime.c:514-519 | Over any history the idle ticks are the passes in which nobody ran, was READY or was due to wake. |
| TickOrder.PassOrder | mosrt/src/sched.c:18-38 | One pass: the line, followed by those it makes READY, is whom it dispatches followed by the new line. |
| TickOrder.ServedInOrder | mosrt/src/sched.c:18-38 | Over any history that rebuilds no queue: those in line and those who became READY since, in that order, are those dispatched followed by those still in line. |
| TickOrder.PlaceAfter | mosrt/src/sched.c:18-38 | Who stands at place i has moved up by the number of dispatches, or is the i-th to be dispatched. |
| TickOrder.PassInOrder | mosrt/src/sched.c:195-215 | Whom FCFS or round robin dispatches has been READY longest; whom MLFQ dispatches before tick 50 is at the lowest level, and there has been READY longest. |
| TickOrder.StaysInOrder | mosrt/src/sched.c:18-38 | Every line stays sorted by the time of becoming READY, those of MLFQ until tick 50. |
| TickRobin.PassWaits | mosrt/src/runtime.c:501-522 | Whoever is READY and not dispatched stays READY since the same tick; whoever else is READY became so in this pass. |
| TickRobin.PassSpends | mosrt/src/sched.c:217-238 | A dispatch buys a quantum and every tick is paid for out of it. |
| TickRobin.TurnComes | mosrt/src/sched.c:195-238 | A process with i before it is dispatched, after exactly these, before i quanta and what is left of the running one's have passed. |
| TickRobin.StaysPrompt | mosrt/src/sched.c:195-238 | Over any history of passes, launches and yields every place in the line can still be served in time. |
| TickRobin.PromptMeans | mosrt/src/sched.c:195-238 | Then no READY process has waited for more than a quantum for every process. |
| TickKills.KillKeepsOrderIff | mosrt/src/runtime.c:527-547 | A kill leaves the others in their order if and only if that is the order of their slots. |
| TickKills.KillKeepsPrompt | mosrt/src/runtime.c:527-547 | If so, nobody waits longer for it. |
| TickKills.KillKeepsTimes | mosrt/src/runtime.c:527-547 | If so, the line stays sorted by the time of becoming READY. |
| TickKills.StaysCharged | mosrt/src/sched.c:130-139 | The running process stays charged for its time exactly if the policy is not changed under it and a new quantum is longer than what it has used. |
| TickAging.AgesWhileWaiting | mosrt/src/sched.c:240-252 | As long as it waits, a process of priority p0 loses a point for every five ticks, down to 0. |
| TickAging.AgesExactly | mosrt/src/sched.c:240-252 | As long as it waits, a process loses exactly one point in every pass that begins a multiple of five ticks after it became READY, down to 0. |
| TickAging.StaysAged | mosrt/src/sched.c:240-252 | Over any history aging has kept up with everybody since the policy was chosen. |
| TickAging.NotPassedOver | mosrt/src/sched.c:40-112 | A process READY for 195 ticks under the policy is passed over only for processes of priority 0 that are READY no later. |
| TickAging.FewerAhead | mosrt/src/sched.c:40-112 | With every such dispatch those that can still go first get fewer by one. |
| TickAging.StaysPatient | mosrt/src/sched.c:223-252 | Over any history of passes, launches, kills and yields each process aged to the top can still be served in time. |
| TickAging.PatientMeans | mosrt/src/sched.c:223-252 | Then no READY process has waited for more than 195 ticks and a quantum for every process. |
| TickLevels.SlotsDecide | mosrt/src/runtime.c:507-513 | Under MLFQ from tick 50 on a process may run if and only if it is the READY one in the lowest slot. |
| TickLevels.NobodyElse | README.md:115-115 | From then on, as long as the lowest live slot has CPU work, nobody else is dispatched, whatever the environment answers. |
| TickExamples.LevelsStarve | README.md:115-115 | A history from the empty runtime in which a process READY since tick 50 has not run n ticks later, for any n. |
| TickExamples.KillsStarve | mosrt/src/runtime.c:527-547 | A history from the empty runtime, under round robin with quantum 10, in which with m processes before it and n more launched and killed one process has been READY and not run for 10 * m * (n + 1) ticks, for any m and n that the 1024 slots allow. |
| TickExamples.KeepsCpu | mosrt/src/sched.c:217-221 | A process that the scheduler does not know as running keeps the CPU under round robin for the rest of its burst, whatever the quantum. |
| TickExamples.Forgotten | mosrt/src/runtime.c:570-576 | A history through a policy change in which, with quantum 10, a process READY from the start has waited n + 1 ticks, for any n. |
| TickExamples.LostRound | mosrt/src/runtime.c:498-523 | Every round of a process with 1024 calls before it answers them all and consumes no tick. |
| TickExamples.LostTick | mosrt/src/runtime.c:498-523 | There is such a round: the first one when the only process makes 1024 calls. |
| Accounting.MoveTime | mosrt/src/proc.c:193-215 | A state change keeps a process's accounts; the response time recorded at the first dispatch is the waiting time so far. |
| Accounting.BusyTick | mosrt/src/runtime.c:206-226 | After a busy tick every account adds up: the clock is busy plus idle, busy is the sum of running times, and each life is running, waiting and blocked time. |
| Accounting.IdleTick | mosrt/src/runtime.c:514-519 | After an idle tick every account adds up. |
| Accounting.AgeStep | mosrt/src/sched.c:240-246 | One aging step, taken once or more often at a tick, keeps up with the bound. |
| Accounting.AgedOut | mosrt/src/sched.c:240-246 | After 195 ticks of being READY under the policy, priority 0 is reached. |
| Sched.Scheduler.Enqueue | mosrt/src/sched.c:178-193 | The process goes to the end of the line of its policy and level, or into the heap; there is always room. |
| Sched.Scheduler.PickNext | mosrt/src/sched.c:195-215 | The head of the ring, the root of the heap or the head of the first nonempty level leaves its queue; nothing is found exactly when nobody is READY. |
| Sched.Scheduler.ShouldPreempt | mosrt/src/sched.c:223-238 | Exactly when the running process must give way, policy by policy. |
| Sched.QueuePush | mosrt/src/sched.c:18-25 | The ring is extended by a new process; a listed one or a full ring changes nothing. |
| Sched.QueuePop | mosrt/src/sched.c:27-38 | The first READY process of the ring; those before it are dropped. |
| Sched.HeapPop | mosrt/src/sched.c:83-112 | Entries that are not READY are skipped; the first READY root is taken and exactly the others stay, in order. |
| PrioHeap.Push | mosrt/src/sched.c:64-81 | Adds one entry and keeps the heap ordered. |
| PrioHeap.PopRoot | mosrt/src/sched.c:83-112 | Takes the root and keeps contents and order of the rest. |
| PrioHeap.RootIsLeast | mosrt/src/sched.c:40-53 | In an ordered heap no entry has a better priority than the root, and none of the same has been READY longer. |
| Rings.PlacesAreModular | mosrt/src/sched.c:18-38 | Entry i of a ring is at (head + i) modulo its size, and pushing and popping use those places. |
| Rings.PushContents | mosrt/src/sched.c:18-25 | A push onto the ring appends to the sequence it stands for, wherever the head is. |
| Rings.PopContents | mosrt/src/sched.c:27-38 | A pop takes the first element of that sequence. |
| Proc.ProcTable.Create | mosrt/src/proc.c:114-159 | A NEW process with clamped priority in the next slot; fails exactly when the table is full. |
| Proc.ProcTable.SetState | mosrt/src/proc.c:193-215 | Exactly the valid transitions go through, with their time stamps. |
| Proc.ProcTable.MarkExited | mosrt/src/proc.c:217-231 | Any process not yet EXITED ends at this tick. |
| IpcProtocol.System.Send | mosrt/src/runtime.c:239-256 | A SEND instruction as one step keeps the invariant of all queues: FIFO, registration and covered free space. |
| IpcProtocol.System.Recv | mosrt/src/runtime.c:257-275 | A RECV instruction as one step keeps the invariant; a woken receiver gets the message held for it and never blocks again. |
| IpcProtocol.NoLostWakeup | mosrt/src/runtime.c:239-275 | A sender stays blocked with nothing pending only beside a full ring. |
| IpcProtocol.NoLostMessage | mosrt/src/ipc.c:101-151 | While a receiver is blocked, the ring is empty and every message sent has been assigned. |
| IpcProtocol.DeliveredWereSent | mosrt/src/ipc.c:101-151 | Messages are assigned in the order sent, and each is delivered at most once, to its assignee. |
| IpcProtocol.RecvBlocks | mosrt/src/runtime.c:257-275 | A receive blocks only on an empty ring and never after being woken; it keeps the invariant. |
| IpcProtocol.CollectsGrant | mosrt/src/ipc.c:61-76 | A woken receiver finds its message. |
| SyncProtocol.HandOverHappens | mosrt/src/sync.c:104-174 | The run in which process 1 locks, 2 waits, 1 unlocks, and 2 locks in vain. |
| SyncProtocol.TokensConserved | mosrt/src/sync.c:46-174 | Over any calls, completed waits, tokens and grants add up to the initial count and the posts; waiters and grants are disjoint and free of duplicates; somebody waits only when no token is left. |
| SyncProtocol.MutexSafe | mosrt/src/sync.c:104-174 | Over any calls, the mutex is taken exactly when it has an owner, and the owner never waits. |
| SyncProtocol.NoBarging | mosrt/src/sync.c:104-129 | While somebody waits, a wait succeeds exactly for a grantee and uses up its grant. |
| SyncProtocol.WaitOutcome | mosrt/src/sync.c:104-129 | A wait never fails. It goes through exactly for a process that holds a grant or if a token is left, and uses up the one or the other; else the process is among the waiters. |
| SyncProtocol.PostOutcome | mosrt/src/sync.c:142-174 | A post never fails. With somebody waiting the first waiter gets a grant, and its retried wait goes through; else there is one token more, and the next wait goes through. |
| SyncProtocol.UnlockOutcome | mosrt/src/sync.c:142-174 | Exactly the owner unlocks. With nobody waiting the mutex is free and the next lock is obtained by whoever takes it; else the first waiter owns it. |
| SyncProtocol.LockOutcome | mosrt/src/sync.c:104-136 | A lock succeeds exactly if nobody owns the mutex and fails exactly for its owner. |
| SyncProtocol.HandedOverLockFails | mosrt/src/sync.c:118-174 | Unlocking with a waiter makes the first one the owner, and its retried lock fails. |
| Pairing.CallStep | mosrt/src/runtime.c:239-325 | Every send, receive, wait, post, lock and unlock of the running process: whom it wakes is BLOCKED with no time set, or was ended, and waits nowhere afterwards; whom it blocks waits in one list; all others who wait still do. |
| Pairing.JointStep | mosrt/src/runtime.c:191-413 | A pass or request of the runtime with the queues and semaphores as environment: every answer is one the runtime allows for, and lists and process states stay in step. |
| Pairing.JointRun | mosrt/src/runtime.c:191-413 | So it is over every run of both, which is a run of the runtime as specified. |
| Pairing.Perform | mosrt/src/runtime.c:239-325 | The calls carried out on the data structures come to what the specification says. |
| Cooperation.MayCall | mosrt/src/runtime.c:239-275 | What a running process sends or receives the protocol allows it to: it is not blocked, and if it was woken it makes the same call again. |
| Cooperation.SendKeeps | mosrt/src/runtime.c:239-256 | A SEND keeps the invariant of all queues, whether it goes through, blocks or fails. |
| Cooperation.RecvKeeps | mosrt/src/runtime.c:257-275 | So does a RECV. |
| Cooperation.Cooperates | mosrt/src/runtime.c:191-413 | Every pass and request keeps the runtime's, the lists' and the protocol's invariants together. |
| Cooperation.CooperativeRun | mosrt/src/runtime.c:191-413 | So does every run of at most 128 processes, whatever their programs; kills included. In particular whoever was woken for a queue and has not called yet is READY, running or ended. |
| Cooperation.MessagesInOrder | mosrt/src/ipc.c:101-151 | In every such run from the start messages are assigned in the order sent, each is delivered or still held, and while a receiver is listed the ring is empty. |
| Cooperation.WokenIsReady | mosrt/src/runtime.c:78-84 | Whoever a call wakes is READY afterwards, unless it was ended. |
| Wakeups.NothingLost | mosrt/src/runtime.c:239-275 | In every run from the start in which nobody is ended while it waits for a queue or after it was woken for it: unless somebody READY or running is about to receive, no message is held and all that were assigned are delivered; a waiting receiver stands before an empty ring; and unless somebody READY or running is about to use the queue, a waiting sender stands before a full one. |
| Wakeups.QuietRun | mosrt/src/runtime.c:239-275 | So when nobody is READY or running: no message is held, waiting receivers stand before empty rings and waiting senders before full ones. |
| Wakeups.GentleStep | mosrt/src/runtime.c:191-413 | Every pass and every other request leaves those who wait for a queue, or were woken for one, alive. |
| Wakeups.KillHarmlessIff | mosrt/src/runtime.c:527-547 | A kill does so if and only if the process killed is none of them. |
| Wakeups.GentleKill | mosrt/src/runtime.c:527-547 | It is none of them if its next instruction is no call on a queue. |
| Wakeups.WakesIff | mosrt/src/runtime.c:78-84 | A send, receive, post or unlock that completes while somebody waits makes a process READY if and only if the first in line has not been ended; the first leaves the line in either case. |
| CallOutcomes.SemsInRuns | mosrt/src/sync.c:46-174 | In every run of at most 128 processes each semaphore and mutex is where the waits and posts on it have led it, with tokens conserved and one owner at most. |
| CallOutcomes.CallOutcome | mosrt/src/runtime.c:239-325 | In every such run a call ends its process, with code 3 or 4, if and only if there is no room for another queue or semaphore, the id is of the wrong kind, an owner locks again, or a mutex not owned or a semaphore never used is posted; it goes through if and only if it can be served at once; else the process is BLOCKED and listed. |
| WakeupExamples.MessageLost | mosrt/src/runtime.c:527-547 | A run from the start in which two processes wait for a message, the first is killed, and the message sent then is held for it while the other stays BLOCKED and nobody is READY or running. |
| JointRuntime.PassBoth | mosrt/src/runtime.c:501-522 | A pass of the loop on the objects, its call carried out on queues and semaphores, is a move of the joint machine. |
| JointRuntime.Answered | mosrt/src/runtime.c:239-325 | The call of the running process comes to what queues and semaphores say, and wakes legally. |
| JointRuntime.WorkBoth | mosrt/src/runtime.c:494-525 | Any number of passes on the objects is a run of the joint machine. |
| Ipc.Ipc.Send | mosrt/src/ipc.c:101-123 | With a receiver waiting the message goes to the first one; else it joins the ring, or blocks when the ring is full; other queues stay. |
| Ipc.Ipc.Recv | mosrt/src/ipc.c:125-151 | A granted message first; else nothing while another waits first or the ring is empty; else the head of the ring. |
| Sync.Table.Wait | mosrt/src/sync.c:104-129 | The call does to one semaphore exactly what the specification says; a missing one is created with one token. |
| Sync.Table.Post | mosrt/src/sync.c:142-174 | A post wakes the first waiter or adds a token; unlocking hands the mutex over or frees it, and only for its owner. |

## Left out

- Shell, benchmark runner, dumps, trace log and statistics output: input, output and formatting only.
- Workload files: a workload is a sequence of instructions; their text form is not part of this model.
- Context switches, guarded stacks and the interval timer: a switch is the TLB flush, a timer preemption is an answer of the
  environment.
- Runtime.Runtime.ExecuteCall: the outcome of a message, semaphore, mutex or memory instruction is an answer of the
  environment. The one assumption, `Legal`, is that a call wakes no process asleep until a set time; `Pairing` proves it of every
  run with queues and semaphores, and `JointRuntime` carries the calls out. Outcomes of memory instructions stay open there.
- RuntimeRuns.Session: the order of the line and the waiting time under round robin are promised for sessions without kills and
  policy changes, the latter without quantum changes too, because the code keeps neither across these. After such a command
  `TickOrder.ServedInOrder` and `TickRobin.TurnComes` count anew from the state it leaves.
- TickRobin.StaysPrompt: every slot of the process table counts as a process, ended ones as well; `TickRobin.TurnComes` counts
  those in line only.
- TickRounds.RoundConsumes: that a tick is consumed is proved below the bound of 1024 and refuted for a family of states above
  it; whether it holds in between depends on the instructions met.
- Cooperation.CooperativeRun: at most 128 processes, because waiting lists of 128 entries overflow with more and waiters are
  lost; `Pairing.JointRun` holds for any number.
- Wakeups.NothingLost: runs in which somebody is ended while it waits for a queue, or after it was woken for it, are not covered;
  `Wakeups.WakesIff` and `WakeupExamples.MessageLost` show what such a kill does.
- IpcProtocol.System.Exit: a killed process may leave its entry in a waiting list; kills of blocked processes are excluded here,
  and included in `Cooperation`.
- IpcProtocol.System.Spawn: at most 128 processes, because waiting lists of 128 entries overflow with more and waiters are lost.
- PagedRuns.Run: heaps grow into pages not touched before, since growing over others loses frames; a process number is not used
  again while it is the one dispatched last, since the source never reuses one.
- PagedRuns.Run: under Clock, and under FIFO once a process is destroyed or the policy changed, a history leaves the victim open,
  since it depends on reference bits and freed frames that the history does not show; `Pager.Pager.ReadByte` and
  `Pager.Pager.WriteByte`, of which every history is made, say that it is the policy's choice. Which pages the TLB still knows is
  bounded from both sides only: `Pager.Pager.Translate` says it exactly.
- TickSleep.IoTakes: IO 0 at tick 0 is excluded; its time to wake is 0, which means none. Workload files cannot ask for IO 0.
- Process numbers: a process is named by its slot in the table. The source numbers processes one after the other and keeps a map
  from number to slot; after a failed set-up a number is skipped.
- Destroying a process whose set-up failed, priorities changed from outside and `nice`: nothing else in the model depends on them.
- Heap.Heap.Free: addresses inside the heap that are no block's payload are excluded, and so are programs that overwrite headers;
  the source would read arbitrary bytes as a header there.
- Heap.Heap.Malloc: headers are records of 8 bytes at an address, read back as last written; failing reads and writes of headers
  are not modelled.
- Pager.Pager.Read, Pager.Pager.Write: only the running process's memory is accessed, as in the runtime, since the TLB holds
  that process's pages.
- Per-process fault statistics, the policies' `remove` operations and page-table unmapping: plain counters, or not called by the
  modelled code.
- 32-bit time stamps of pages and 64-bit clocks: ticks are unbounded numbers.
- Boost spacing and mutex progress: the code does not provide them.
- Arrays that the source updates in place are sequence-valued fields; aliasing between them does not arise.
