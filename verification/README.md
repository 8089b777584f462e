# FlashDriver verification

FlashDriver is a user-space SSD simulator: several flash translation layers (FTLs) over a block manager, with the data
structures they share. This project models its most intricate parts in Dafny and proves what they promise, for every
input, every schedule of device completions and every run.

| part | files |
|---|---|
| Keys: the order KEYCMP and the key_max sentinel; what all parts share | KeyOrder, Sequences, Arithmetic |
| Hash KV FTL: flush of the write buffer, probing reads | FlushSpec, FlushPlaces, FlushControl, FlushProbing, FlushTheorems, FlushResults, FlushNoLoss, FlushOrder, FlushRead, FlushReads, FlushHistory, FlushWitness, FlushEngine |
| Skip list, and cutting a memtable into header-sized tables | SkipHeights, SortedKeys, SkipGraph, SkipList, MemtableCut |
| Page FTL over the base block manager | FlashBlocks, FlashSegments, BlockManager, PageState, PageFtl, BlockAddress |
| DFTL mapping cache, its translation and data garbage collection, its LRU list | DftlState, DftlTrans, Dftl, DftlDataGc, LruList |
| LSM-tree: packing of values into pages, page footers, settlement of collected values | Packing, Packer, Settlement, SettlementLoop |
| Slab allocator, CAS queue, bad-segment remapping | SlabRing, SlabCache, SlabAllocator, LockFreeQueue, LockFreeCalls, BadBlocks |

How things are modelled:

- Code that updates objects in place is a class whose methods do the same updates, with ghost state for the abstract
  value (the map a skip list stands for, the set of live objects of a slab cache, the data a user wrote).
- Asynchronous parts are state machines. The flush, the DFTL cache and the settlement loop are driven by an arbitrary
  list of events, so a run is any interleaving of the program with the completions of the device; the CAS queue is a
  state machine over single atomic steps of any number of threads.
- Random tower heights, free pages handed out by code that is not modelled, hash values and the order of completions
  are parameters. An `abort` or `exit` of the program is an outcome whose exact condition is stated, or is proved
  unreachable.
- Geometry is symbolic except in address arithmetic.

Five properties one would expect do not hold of the code. The code is modelled as it is, the failing case is exhibited,
and the exact condition is proved.

- Page FTL: a relocation during garbage collection does not enter the new address in the mapping (map.c:52-59).
  Relocation is modelled with and without that store. Without it the mapping is right after a collection if and only if
  every channel had a used block without a valid page (`DoGc`, `StoreIsNeeded`); with it every read returns the last
  write (`Write`, `Read`).
- Hash KV FTL: an update of a translation page that was evicted meanwhile, and was never written, is lost for reads
  (coarse.c:279-287, rw.c:128-131), and the load of one page can push such a page out of the cache in the middle of a
  read. `AnUpdateCanBeLost` is a run that shows both. In any state a stored key is found if and only if every
  translation page on its probe path is on flash, dirty, or cached and still listed after the probes before it
  (`ReadStored`, `LoneRead`). With room for all translation pages, or with all of them on flash, nothing is ever lost,
  and any history of flushes and interleaved reads is a map (`FlushKeepsQuiet`, `EveryHistoryIsAMap`).
- LSM-tree: a value is kept although the memtable has a newer one, when a cached level answers first
  (page_kv_noinv.c:410-427; `OldValueIsKept`). A value is kept exactly when it is the newest, if and only if this is not
  the case (`Loop`).
- Skip list: `skiplist_find` for key_max answers with the header of a nonempty list (`Find`).
- Bad segments: the bound on the partner is tested before the back pointer moves (bb_checker.c:201-205), so a segment
  can become its own partner, or the scan can leave the array (`OwnPartner`, `LeavesTheArray`). The pairing is sound if
  and only if every such scan stops above the front segment (`Fixing`).

## Model

| member | source | states |
|---|---|---|
| KeyOrder.KeyCmpIsLexicographic | include/settings.h:103-132 | KEYCMP on length-and-memcmp keys is the lexicographic order on bytes, and both equality tests are equality |
| KeyOrder.KeyCmpTotalOrder | include/settings.h:103-132 | KEYCMP is a strict total order: trichotomy, asymmetry, transitivity |
| KeyOrder.KeyMaxIsGreatest | include/settings.h:103-132 | the key_max sentinel is above every other key |
| FlushSpec.GetLpa | algorithm/demand/utility.c:102-110 | a probe position in 32-bit arithmetic is a slot of the table and never slot 0 |
| FlushSpec.NextProbe | algorithm/demand/utility.c:102-110 | from probe c to the next is 2c + 2 slots on around the table, below the 32-bit wrap |
| FlushPlaces.StepConserves | algorithm/demand/rw.c:255-370 | every step of a flush, in any interleaving, keeps each write-buffer entry in exactly one place: in hand, master queue, retry queue, one page's queue, one device request, or updated |
| FlushPlaces.QueuesFit | algorithm/demand/rw.c:255-261 | no queue ever holds more entries than the buffer, the size it was created with |
| FlushPlaces.NothingLeftOver | algorithm/demand/rw.c:372-375 | when the loop ends every entry was updated once and no queue, page queue or request is left, so the abort after the loop is unreachable |
| FlushControl.StepControl | algorithm/demand/coarse.c:156-260 | every step keeps the cache consistent: LRU list and cached flags agree within the limit, a page in flight has exactly one loader, parked entries wait for a page in flight, jumps fit the requests |
| FlushControl.LoaderIsActive | algorithm/demand/coarse.c:248-260 | the loader of a page in flight is in hand, on the retry queue or at the device, never parked itself |
| FlushControl.NeverStuck | algorithm/demand/rw.c:265-270 | while an entry is not updated the loop can act or a request is in flight |
| FlushProbing.KeyStoredOnce | algorithm/demand/rw.c:317-368 | under the probing invariant no key is stored in two slots |
| FlushProbing.FilterIsExact | algorithm/demand/d_htable.c:26-46 | the d_htable test at a filled slot is true exactly when the slot was written in this flush |
| FlushProbing.WriterIsUnique | algorithm/demand/rw.c:335-346 | no two buffered keys write one slot, and a written slot holds its writer's record |
| FlushProbing.FilteredIsTaken | algorithm/demand/rw.c:335-342 | a slot the filter reports is held by another buffered key, so probing on is right |
| FlushProbing.StoreIsFresh | algorithm/demand/rw.c:357-368 | an entry never overwrites a slot written earlier in this flush, and its grain is not mapped yet |
| FlushProbing.StoreGrains | algorithm/demand/rw.c:349-355 | the grain an overwrite frees was valid, so invalidation never fails, and valid grains stay exactly the mapped and pending ones |
| FlushTheorems.StepInv | algorithm/demand/rw.c:255-370 | every step of the loop and every completion keeps the whole invariant: control state and the probing invariant (each stored key at its first probe slot not held by another key, max_try an upper bound, filter exact) |
| FlushTheorems.RunInv | algorithm/demand/rw.c:255-370 | the invariant holds after every run of any length |
| FlushOrder.ServedInOrder | algorithm/demand/rw.c:265-270 | over every run the entries taken next are those on the retry queue, in their order, and the master queue loses nothing as long as they last |
| FlushOrder.RetryFirst | algorithm/demand/rw.c:265-270 | while an entry is on the retry queue no entry leaves the master queue, and only the entries ahead of it are taken, in order |
| FlushOrder.GoesOnWithItsPage | algorithm/demand/rw.c:265-315 | an entry that waited only for the write of its victim is taken next once that is done, whatever is on the master queue, still finds its page cached, and its update is not lost |
| FlushOrder.QueuesTellApart | algorithm/demand/rw.c:265-346 | over every run an entry on the retry queue has a recorded jump to go on from and one on the master queue has none |
| FlushOrder.ProbeLru | algorithm/demand/coarse.c:175-288 | after a probe the page it found, listed or updated is in front, in place of the last one if the list is full; otherwise the list is as it was |
| FlushOrder.LruOrder | algorithm/demand/coarse.c:175-288 | over every run a page used at some step is in front of every page not used since |
| FlushOrder.VictimIsOldest | algorithm/demand/coarse.c:184-190 | the page that leaves a full cache is the least recently used: every other cached page was used after its last use |
| FlushOrder.RunTraffic | algorithm/demand/coarse.c:156-246 | over every run a translation page is written exactly when a dirty one leaves the cache, a read is issued exactly when a page takes off, only pages on flash do, and a page on flash enters the cache only after it was read |
| FlushResults.StartInv | algorithm/demand/rw.c:244-264 | a flush that starts from a quiet FTL starts in the invariant |
| FlushResults.FlushResult | algorithm/demand/rw.c:255-375 | after a finished flush a record is stored if and only if it is the buffered one of its key, or its key is not buffered and it was stored before |
| FlushNoLoss.BigCacheLosesNothing | algorithm/demand/coarse.c:175-246 | with room for every translation page no step evicts a page an entry still needs, so no update is lost |
| FlushNoLoss.StepLosesNothing | algorithm/demand/coarse.c:268-288 | no step loses an update when the cache has room for every translation page or all of them are on flash |
| FlushNoLoss.RunLosesNothing | algorithm/demand/rw.c:255-370 | nor does a run of any length |
| FlushNoLoss.SafeFlushLosesNothing | algorithm/demand/rw.c:244-384 | a whole flush that starts with room for all translation pages, or with all of them on flash, loses no update under any schedule, and ends so |
| FlushNoLoss.FlushKeepsQuiet | algorithm/demand/rw.c:244-384 | a whole flush from a quiet FTL, under any schedule, leaves it quiet if it starts so, or if it happens to lose no update: probing invariant, no page in flight, every filled slot reachable, valid grains exactly the mapped ones |
| FlushRead.ReadCacheIs | algorithm/demand/coarse.c:175-266 | what a probe does to the cache: the LRU list moves on, a page may be pushed out, and no page that is on flash or dirty stops being so |
| FlushRead.ReadStored | algorithm/demand/rw.c:63-158 | in any idle state a stored key is found if and only if every page on its probe path is on flash, dirty, or cached and still listed after the probes before it; otherwise it is reported as not found |
| FlushRead.ReadIsSound | algorithm/demand/rw.c:465-488 | a read never returns a record that is not stored, in any state |
| FlushRead.ReadIsExact | algorithm/demand/rw.c:63-158 | between flushes a read, which changes the cache as it goes, returns exactly the stored value of a key, and nothing for an absent key |
| FlushReads.TurnKeeps | algorithm/demand/rw.c:63-158 | every step of any number of reads in flight keeps the invariant: a page in flight is not cached and has exactly one loader, the reads parked at a page are exactly those waiting for it, every slot a read has passed is held by another key, every answer is right |
| FlushReads.ListKeeps | algorithm/demand/coarse.c:175-246 | the load of a page lets go exactly the reads parked at it, and each of them goes on to its slot |
| FlushReads.ReadsAreExact | algorithm/demand/rw.c:63-158 | between flushes every answered read, at any point of any run of interleaved reads that come in at any time, was answered with exactly what is stored |
| FlushReads.ReadsNeverStuck | algorithm/demand/coarse.c:248-260 | while a read is not answered, one can be taken from the queue or has a request in flight |
| FlushReads.ReadsEnd | algorithm/demand/rw.c:63-158 | once no more reads come in, the number of steps left is bounded, so every read is answered |
| FlushReads.AnsweredIsQuiet | algorithm/demand/rw.c:63-158 | when all reads are answered the FTL is quiet again, so reads and flushes can follow in any order |
| FlushReads.RunKeepsFlash | algorithm/demand/coarse.c:175-246 | reads take no translation page off flash |
| FlushReads.DispatchTraffic | algorithm/demand/coarse.c:156-246 | the same for the steps of reads: writes for dirty victims only, loads of pages on flash only, and no page on flash enters the cache unread |
| FlushReads.RunTraffic | algorithm/demand/coarse.c:156-246 | this holds in every state of every run of interleaved reads |
| FlushReads.LoneRead | algorithm/demand/rw.c:63-158 | in any idle state a read that runs alone, step by step, ends with the answer and the cache of the simple recursive read |
| FlushReads.ReadAfterFlush | algorithm/demand/rw.c:63-158 | after a whole flush with room for all translation pages, with all of them on flash, or that happens to lose no update, interleaved reads return the newest value of every buffered key and the old value of every other |
| FlushWitness.AnUpdateCanBeLost | algorithm/demand/coarse.c:268-288 | a concrete run from a sound state, three translation pages and room for two, after which a key the flush stored is reported as not found, although every page on its way can be reached when the read starts |
| FlushHistory.FlushIsUpdate | algorithm/demand/rw.c:244-409 | a whole flush that loses no update, under any schedule, is the update of the key-value map by the write buffer |
| FlushHistory.ReadsAreLookups | algorithm/demand/rw.c:63-158 | in a run of interleaved reads every answer is a lookup in that map, and the map stays as it is |
| FlushHistory.FreshIsEmpty | algorithm/demand/coarse.c:71-104 | a new FTL, of whatever cache size, is the empty map |
| FlushHistory.SafeHistoryKeeps | algorithm/demand/rw.c:63-384 | with room for all translation pages, or all of them on flash at the start, no flush of any history loses an update |
| FlushHistory.EveryHistoryIsAMap | algorithm/demand/rw.c:63-384 | over every sequence of flushes and runs of interleaved reads of any length that starts so, or in which no flush loses an update, the FTL is the map: every read returns the value last flushed for its key, or not found |
| FlushEngine.DHtable.Insert | algorithm/demand/d_htable.c:26-35 | the bucket of a grain gains the slot, the other buckets stay |
| FlushEngine.DHtable.Find | algorithm/demand/d_htable.c:37-46 | walking the bucket finds a slot if and only if it was inserted there |
| FlushEngine.Flush.constructor | algorithm/demand/rw.c:255-264 | all entries are queued and the invariant holds |
| FlushEngine.Flush.TouchPage | algorithm/demand/coarse.c:268-288 | the page is then on flash or dirty, or the update is lost, and exactly then; no page that was on flash or dirty stops being so; the LRU list stays the list of cached pages |
| FlushEngine.Flush.MapSlot | algorithm/demand/rw.c:357-368 | the filter now reports the slot, max_try bounds the entry's probe count, and spare areas still point back at the slots if no other slot maps to the grain |
| FlushEngine.Flush.DirectUpdate | algorithm/demand/rw.c:357-368 | the entry is stored and counted once, as the step relation says |
| FlushEngine.Flush.EvictVictim | algorithm/demand/coarse.c:175-246 | the least recently used page leaves; a dirty one is written on behalf of the entry, which then waits |
| FlushEngine.Flush.AdmitPage | algorithm/demand/coarse.c:175-246 | the page is cached, its flight ends and everyone parked at it goes to the retry queue with a jump |
| FlushEngine.Flush.Drain | algorithm/demand/coarse.c:175-246 | all entries parked at a page are moved, in order, to the retry queue with a jump past the load |
| FlushEngine.Flush.ListPage | algorithm/demand/coarse.c:175-246 | eviction and admission together are the list-up step, and tell whether a dirty victim is being written |
| FlushEngine.Flush.ListAndCheck | algorithm/demand/rw.c:312-346 | listing a page and going on to the data check is the step relation's list-up |
| FlushEngine.Flush.LoadPage | algorithm/demand/rw.c:305-315 | a miss waits for a page in flight, loads a page on flash, or lists a page never written, as the step relation says |
| FlushEngine.Flush.Check | algorithm/demand/rw.c:317-346 | the data check at a slot: store, probe on, or read the grain, as the step relation says |
| FlushEngine.Flush.Overwrite | algorithm/demand/rw.c:349-368 | the old copy of the key is invalidated and the entry stored, as the step relation says |
| FlushEngine.Flush.Pass | algorithm/demand/rw.c:265-370 | one pass of the loop is one step of the state machine: with no entry in hand the front of the retry queue is taken, and the master queue is served only when that is empty, else the entry in hand is probed |
| FlushEngine.Flush.EndReq | algorithm/demand/rw.c:489-560 | a completion is one step of the state machine |
| FlushEngine.Flush.Handle | algorithm/demand/rw.c:255-370 | any event, a pass of the loop or a completion, is exactly its step of the state machine, keeps the invariant and loses no update if the start was safe |
| FlushEngine.Flush.MappingUpdate | algorithm/demand/rw.c:244-384 | under any schedule every event is carried out in turn, the invariant holds throughout, the loop is never stuck and stops early only when all entries are updated, and when it ends exactly the buffered records and the old records of other keys are stored; after a safe start the FTL is then quiet |
| FlushEngine.Flush.ReadPage | algorithm/demand/rw.c:118-139 | a hit or a load as the read's step on the cache |
| FlushEngine.Flush.DemandRead | algorithm/demand/rw.c:63-158 | a read answers from the write buffer, else with exactly the stored value, and leaves the FTL quiet |
| SkipHeights.NextInsert | algorithm/Lsmtree/skiplist.c:548-644 | how the links of every level change when a tower of any height is inserted |
| SkipHeights.PassingUnique | algorithm/Lsmtree/skiplist.c:548-644 | at each level exactly one link passes over a gap, so update[] is determined |
| SortedKeys.InsertIsUpdate | algorithm/Lsmtree/skiplist.c:548-644 | inserting at the rank of a new key is the map update |
| SortedKeys.RemoveIsDelete | algorithm/Lsmtree/skiplist.c:716-755 | removing a position of the sorted sequence is the map deletion |
| SkipList.List.constructor | algorithm/Lsmtree/skiplist.c:30-55 | an empty well-formed list, the empty map |
| SkipList.List.Find | algorithm/Lsmtree/skiplist.c:57-77 | on any well-formed list find is the map lookup; key_max is answered with the header, an empty list with null |
| SkipList.List.Descend | algorithm/Lsmtree/skiplist.c:548-560 | the descent ends at the rank of the key and records at every level the node whose link passes over it |
| SkipList.List.Splice | algorithm/Lsmtree/skiplist.c:630-633 | the linking loop turns the links of every level into those of the list with the new tower |
| SkipList.List.InsertKey | algorithm/Lsmtree/skiplist.c:548-644 | insert is the map update, keeps every level a sorted sublist of the one below, size exact, and all_length and the bytes of the keys held grow alike; a new key gets exactly one new node with a tower of the given height and no other tower changes, an old key keeps its node |
| SkipList.List.Overwrite | algorithm/Lsmtree/skiplist.c:564-593 | an existing key keeps its node and gets the new value |
| SkipList.List.AddNode | algorithm/Lsmtree/skiplist.c:594-643 | a new key gets a new node at its rank, with a tower of exactly the given height; the other nodes and towers stay in their order |
| SkipList.List.Unlink | algorithm/Lsmtree/skiplist.c:716-755 | the unlinking loop gives the links of the list without the tower and drops exactly the levels left empty |
| SkipList.List.Delete | algorithm/Lsmtree/skiplist.c:716-755 | delete is the map deletion, answers -1 on an empty list and -2 for an absent key, and keeps the list well formed |
| SkipList.List.CutHigh | algorithm/Lsmtree/skiplist.c:957-982 | the loop above the target's tower cuts every such level in two and finds the level of the front part |
| SkipList.List.CutLow | algorithm/Lsmtree/skiplist.c:984-991 | the loop over the target's own tower cuts the remaining levels and finds the level of the back part |
| SkipList.List.Divide | algorithm/Lsmtree/skiplist.c:948-1004 | divide at any node gives exactly the nodes up to it and the nodes after it, both well formed at every level; at the header the whole list moves |
| SkipList.List.Settle | algorithm/Lsmtree/skiplist.c:985-1004 | the consistency abort of divide is unreachable and both level fields are right |
| MemtableCut.Scan | algorithm/Lsmtree/skiplist.c:412-432 | the scan takes the longest front part that fits a header page in keys and bytes |
| MemtableCut.CuttingHeader | algorithm/Lsmtree/skiplist.c:412-432 | a small list is handed back unchanged, otherwise a table that fits is cut off, table and rest make up the old list, and size and all_length of both are exact |
| MemtableCut.CutNext | algorithm/Lsmtree/compaction_assistant.c:411-426 | one turn of the loop hands on a table that fits and cuts the next; what is cut and what is left make up what was there |
| MemtableCut.CompactionCheck | algorithm/Lsmtree/compaction_assistant.c:405-428 | repeated cutting yields tables that each fit a header page and whose concatenation with the remainder is the memtable; it ends with a small remainder and never takes the whole-list branch of divide |
| MemtableCut.Fill | algorithm/Lsmtree/skiplist.c:548-644 | a memtable filled by any inserts with any heights holds their map, with exact size and byte count |
| MemtableCut.FillAndCheck | algorithm/Lsmtree/compaction_assistant.c:405-428 | any inserts and then compaction_check: tables that each fit a header page and that, in key order and with the remainder, hold exactly the map of the inserts |
| FlashBlocks.MovedInverse | algorithm/Page_ftl/map.c:21-41 | writing or relocating a logical page keeps mapping and spare area inverse on valid pages, once the address is stored |
| FlashSegments.MovedCount | algorithm/Page_ftl/gc.c:7-14 | a write of a new logical page adds one valid page, any other move keeps their number |
| FlashSegments.Capacity | algorithm/Page_ftl/gc.c:42-72 | with one empty block per channel at most (segments - 1) times pages-per-segment pages are valid, with equality exactly when all other blocks are full of valid pages |
| FlashSegments.IssuePosition | blockmanager/base_block_manager.c:280-296 | the cursors of a segment determine the position of the next address, and the segment is full exactly when all its pages are issued |
| FlashSegments.IssuedOnce | blockmanager/base_block_manager.c:280-296 | different positions issue different addresses |
| FlashSegments.EveryPageIssued | blockmanager/base_block_manager.c:280-296 | every page of every block of the segment is issued at some position |
| BlockAddress.DecodeEncode | blockmanager/base_block_manager.h:11-13 | decoding an issued address gives back segment, block, page and unit |
| BlockAddress.EncodeDecode | blockmanager/base_block_manager.h:11-13 | every address is the encoding of what it decodes to |
| BlockAddress.AddressesDiffer | blockmanager/base_block_manager.h:11-13 | different blocks or pages have different addresses |
| BlockManager.BaseBm.constructor | blockmanager/base_block_manager.c:52-88 | all blocks erased and free, heaps empty, equal queues |
| BlockManager.BaseBm.GetSegment | blockmanager/base_block_manager.c:110-130 | one block leaves every channel's queue, so testing channel 0 alone is sound; it fails exactly when channel 0 has none |
| BlockManager.BaseBm.ChangeReserve | blockmanager/base_block_manager.c:132-142 | a new reserve is taken and the old one joins the heaps |
| BlockManager.BaseBm.GetGcTarget | blockmanager/base_block_manager.c:150-161 | every channel gives up a used block with the most invalid pages |
| BlockManager.BaseBm.Trim | blockmanager/base_block_manager.c:163-188 | exactly the victim's blocks are erased and queued as free |
| BlockManager.BaseBm.GetPageNum | blockmanager/base_block_manager.c:280-296 | the next position of the segment is issued and counted; none once all pages are issued |
| FlashBlocks.FilledOk | blockmanager/base_block_manager.c:190-203 | issuing and marking a page makes exactly its address valid, with its logical address in the spare area, and keeps the block counts exact |
| FlashBlocks.InvalidatedOk | blockmanager/base_block_manager.c:205-226 | clearing the bit of a valid page takes exactly its address from the valid ones and keeps the block counts exact and every spare area |
| PageState.GcStart | algorithm/Page_ftl/gc.c:42-55 | the valid pages of a greedy victim fit the reserve, and fill it exactly when every page outside the reserve is valid |
| PageState.NothingToMove | algorithm/Page_ftl/gc.c:42-55 | the greedy victim holds no valid page exactly when every channel has a used block that holds none |
| PageState.ShiftStored | algorithm/Page_ftl/map.c:52-59 | with the store of the new address a relocation keeps mapping, spare area and contents together |
| PageState.TrimOk | algorithm/Page_ftl/gc.c:42-72 | erasing a victim without valid pages loses nothing |
| PageState.LostWithoutStore | algorithm/Page_ftl/map.c:52-59 | a victim with a valid page cannot be trimmed without breaking the mapping unless the new address was stored |
| PageFtl.Ftl.constructor | algorithm/Page_ftl/map.c:9-19 | an empty mapping over a fresh device is a valid state |
| PageFtl.Ftl.Read | algorithm/Page_ftl/page.c:31-43 | a read returns the last data written to the address, and fails exactly for an address never written |
| PageFtl.Ftl.TakePage | algorithm/Page_ftl/map.c:21-41 | the retry loop finds the next page of the active segment or of a new one, and fails exactly when the segment is full and channel 0 has no free block |
| PageFtl.Ftl.Relocate | algorithm/Page_ftl/map.c:52-59 | one (address, data) pair moves from victim to reserve; a page is always left in the reserve |
| PageFtl.Ftl.Collect | algorithm/Page_ftl/gc.c:51-55 | the first pass finds exactly the valid pages of the victim |
| PageFtl.Ftl.MoveAll | algorithm/Page_ftl/gc.c:42-72 | in any order of read completions every valid page of the victim is moved |
| PageFtl.Ftl.Rotate | algorithm/Page_ftl/gc.c:68-70 | the victim is erased and becomes the reserve, the old reserve the active segment and a candidate for collection |
| PageFtl.Ftl.Place | algorithm/Page_ftl/map.c:28-40 | the old page of the address is dropped and a new one entered; the update of the data map, failing exactly when no page is left |
| PageFtl.Ftl.DoGc | algorithm/Page_ftl/gc.c:42-72 | collection keeps every (address, data) pair held by a valid page, trims no valid page, and leaves no free page exactly when every page outside the reserve was mapped; without the store the mapping stays right if and only if every channel had a used block without a valid page before the call |
| PageFtl.Ftl.Write | algorithm/Page_ftl/page.c:45-56 | a write is the update of the data map and keeps the invariant; it fails exactly when the active segment is full, no block is free and (segments - 1) times pages-per-segment pages are mapped; it uses one page of the active segment while that has one |
| PageFtl.StoreIsNeeded | algorithm/Page_ftl/map.c:52-59 | from creation, two writes of one logical page lead to a state in which a collection without the store leaves the mapping wrong |
| DftlTrans.TransInvalidate | algorithm/dftl/dftl.c:366-373 | invalidating the page of an entry takes exactly that entry from the valid translation pages |
| DftlTrans.TransErase | algorithm/dftl/garbage_collection.c:51-95 | erasing a victim and making it the reserve takes exactly its pages from the mapping |
| DftlTrans.LoadDone | algorithm/dftl/garbage_collection.c:51-95 | all valid pages of the victim were loaded, fewer than a block of them when one is invalid |
| DftlState.LandOk | algorithm/dftl/dftl.c:476-585 | when a load ends its owner is finished and all parked and waiting requests are queued again, each in one place |
| DftlState.NobodyStranded | algorithm/dftl/dftl.c:380-585 | while a request is unfinished one can be dispatched or the device will complete one |
| Dftl.Ftl.constructor | algorithm/dftl/dftl.c:135-239 | an empty cache with all requests queued is a valid state |
| Dftl.Ftl.TpageGc | algorithm/dftl/garbage_collection.c:5-96 | the used block with the most invalid pages becomes the reserve, its valid pages move in page order to the front of the old reserve, no other entry changes; the valid translation pages stay exactly the addresses of the clean entries; fails exactly when no used block has an invalid page |
| DftlTrans.RelocatedIs | algorithm/dftl/garbage_collection.c:51-95 | loading in page order and unloading in that order moves the pages of the victim in page order to the front of the reserve |
| Dftl.Ftl.Load | algorithm/dftl/dftl_utils.c:154-167 | exactly the entries whose page is in the victim are loaded, in page order |
| Dftl.Ftl.Unload | algorithm/dftl/dftl_utils.c:169-185 | the i-th loaded page is written to page i of the reserved block and its entry readdressed; no other entry changes |
| Dftl.Ftl.TpAlloc | algorithm/dftl/dftl_utils.c:88-128 | hands out the next page of the block being written, else of the next free block, else of a collected one, and fails exactly when the block is full, no other is free and no page is invalid |
| Dftl.Ftl.Evict | algorithm/dftl/dftl.c:1047-1116 | exactly the least recently used page leaves the cache, a dirty one with a new address on flash; exit exactly for a dirty victim when no translation page can be had |
| Dftl.Ftl.WriteTable | algorithm/dftl/dftl.c:1047-1116 | the page at the cursor becomes the valid translation page of the entry |
| Dftl.Ftl.MakeDirty | algorithm/dftl/dftl.c:366-373 | a clean cached page becomes dirty, and its copy on flash, which it always has, is invalidated |
| Dftl.Ftl.CacheUpdate | algorithm/dftl/dftl.c:322-378 | a hit makes the page most recently used, a write makes it dirty and invalidates its copy, which always exists; nothing else changes |
| Dftl.Ftl.CacheEviction | algorithm/dftl/dftl.c:380-474 | on a miss the request waits for the page's load, waits for any load, or starts one in place of the least recently used page; a page never written is cached at once; exact exit condition |
| Dftl.Ftl.AdmitNew | algorithm/dftl/dftl.c:466-473 | a page never written is cached as dirty and most recently used |
| Dftl.Ftl.Land | algorithm/dftl/dftl.c:557-582 | the load ends: the page is cached in front, its owner finished, parked and waiting requests queued again |
| Dftl.Ftl.WriteFlying | algorithm/dftl/dftl.c:476-525 | after the victim was written the page is read, or a page never written is cached and everyone waiting released; the branch for a read without a page is unreachable |
| Dftl.Ftl.ReadFlying | algorithm/dftl/dftl.c:527-585 | a page that moved meanwhile is read again, else it is cached (dirty for a write, with its copy invalidated) and everyone waiting released |
| Dftl.Ftl.Dispatch | algorithm/dftl/dftl.c:588-800 | every outcome is exact: a hit that is a write or a mapped read moves its page to the front, an unmapped read changes nothing, a miss waits, evicts or loads, the owner of a load resumes it; the program exits exactly on a miss whose dirty victim finds no translation page |
| Dftl.Ftl.Complete | algorithm/dftl/dftl.c:1119-1211 | a completed mapping request is queued again and a read is marked |
| Dftl.Ftl.RewriteTable | algorithm/dftl/garbage_collection.c:193-259 | data collection makes a cached table dirty or rewrites an uncached one at a new address; the exit for want of a translation page is never reached, as the old copy was invalidated before |
| Dftl.Ftl.CacheFacts | algorithm/dftl/dftl.c:380-585 | in every valid state num_caching is the LRU length and the number of cached pages, num_flying the number of flying pages, their sum within num_max_cache, no flying page cached, every dirty entry cached |
| Dftl.Ftl.PageFacts | algorithm/dftl/dftl.c:452-473 | in every valid state the valid translation pages are exactly the t_ppa of clean entries that have one, each with a spare area naming its entry |
| Dftl.Ftl.Run | algorithm/dftl/dftl.c:322-800 | over every run of dispatches, completions and table rewrites each event does exactly what it says, the invariant holds and nobody is stranded; the run exits at the first dispatch that finds no page for a dirty victim and at no other event |
| DftlDataGc.SortIs | algorithm/dftl/dftl_utils.c:74-86 | sorting by lpa_compare gives the same pages in ascending order |
| DftlDataGc.RightIffTrusted | algorithm/dftl/garbage_collection.c:193-222 | the first pass keeps exactly the copies the mapping names if and only if every stale copy is in a cached table that is dirty by the time it is looked at |
| DftlDataGc.RightEntries | algorithm/dftl/garbage_collection.c:193-259 | if so, the entry of every kept page is the address it is written to, and no other entry changes |
| DftlDataGc.Tables.FirstPass | algorithm/dftl/garbage_collection.c:193-259 | for any victim, copies of one logical page included: which pages are dropped, what every entry becomes, which tables become dirty, and each uncached table touched is rewritten once |
| DftlDataGc.Tables.SecondPass | algorithm/dftl/garbage_collection.c:260-287 | kept pages are written in order to consecutive addresses with their spare areas |
| DftlDataGc.Tables.TwoPasses | algorithm/dftl/garbage_collection.c:193-287 | for any loaded pages every kept page is written with its spare area and every entry names the last kept copy; exactly the copies the mapping named are kept if and only if every stale copy is in a cached table that is dirty or made dirty before; each touched uncached table is rewritten exactly once |
| DftlDataGc.Tables.constructor | algorithm/dftl/dftl.c:135-239 | nothing is mapped and no page is valid: a valid state |
| DftlDataGc.Tables.Write | algorithm/dftl/dftl.c:784-793 | after the end of a write, to whatever address, every valid page is still the one its logical page is mapped to; if the address was free, every mapped page is still valid and names its logical page |
| DftlDataGc.Tables.Load | algorithm/dftl/garbage_collection.c:162-170 | the loaded pages are exactly the valid pages of the victim, each once, with its spare area |
| DftlDataGc.Tables.DpageGc | algorithm/dftl/garbage_collection.c:98-287 | in every state of a run no loaded page is stale and none is dropped: exactly the logical pages of the victim move, in order, to the new block, the victim has no valid page left, nothing else changes, exactly the touched uncached tables are rewritten, once each, and exactly the touched cached ones become dirty |
| DftlDataGc.Tables.Run | algorithm/dftl/garbage_collection.c:98-287 | over every run of writes, collections and changes of the cache, each of which does exactly what it says, every valid page is the one its logical page is mapped to; if only free pages are written to, every mapped page is valid and names its logical page |
| DftlDataGc.PassesAgree | algorithm/dftl/garbage_collection.c:193-271 | the addresses the first pass assigned are the ones the second pass wrote |
| LruList.Lru.Push | algorithm/dftl/lru_list.c:14-28 | a new node in front of the doubly linked list |
| LruList.Lru.Pop | algorithm/dftl/lru_list.c:30-46 | the last node leaves; nothing on an empty list |
| LruList.Lru.Update | algorithm/dftl/lru_list.c:48-67 | the node moves to the front, the order of the others stays |
| LruList.Lru.Delete | algorithm/dftl/lru_list.c:69-92 | the node leaves, the order of the others stays |
| LruList.PagesMoved | algorithm/dftl/lru_list.c:48-92 | what update and delete do to the linked nodes is what the mapping cache does to its sequence of pages |
| Packing.ScanFindsAll | algorithm/Lsmtree/page_kv_noinv.c:276-312 | scanning a footer that packing wrote recovers exactly its list of offsets and lengths |
| Packing.ScanPage | algorithm/Lsmtree/page_kv_noinv.c:276-312 | the scan loop computes that list, for any footer |
| Packing.FooterAppend | algorithm/Lsmtree/variable.c:50-79 | putting one more value on a page keeps the footer exact and in bounds |
| Packing.ImageAppend | algorithm/Lsmtree/variable.c:50-79 | copying one more value keeps the pieces of the others at their offsets |
| Packer.Packer.GetPage | algorithm/Lsmtree/lops_default.c:66-90 | page and piece can be read off the address, and the next address is behind the value; its precondition, that the abort is not reached, holds at every call |
| Packer.Packer.Longest | algorithm/Lsmtree/variable.c:51-55 | the longest waiting value that fits, or none |
| Packer.Packer.Put | algorithm/Lsmtree/variable.c:56-78 | one value goes to the page: address, footer entry and copied pieces agree |
| Packer.Packer.FillPage | algorithm/Lsmtree/variable.c:50-79 | a page is filled with waiting live values, each the longest that still fits, out-of-date ones are dropped, and nothing that is left would have fitted |
| Packer.Packer.Pack | algorithm/Lsmtree/variable.c:10-98 | every live value is on exactly one page, once, and every other dropped; no value is longer than one placed before it, on its page or an earlier one, if it would have fitted there; every page's footer, contents and addresses agree; consecutive pages together hold more than one page |
| Packer.Packer.AssignPpa | algorithm/demand/rw.c:170-221 | the same for a write buffer: every value is placed once, longest first, no page is empty, the loop ends with all values done |
| Packer.ReadBack | algorithm/Lsmtree/lops_default.c:66-90 | the recorded address of a value leads to its page, its pieces and its length |
| Packer.NeverShared | algorithm/Lsmtree/variable.c:26-98 | the extents of two values never overlap, on one page or across pages |
| Packer.CollectRecovers | algorithm/Lsmtree/page_kv_noinv.c:276-312 | collecting a packed page recovers every value on it in order, with length, pieces and address, and nothing else |
| Packer.MoreThanHalf | algorithm/Lsmtree/variable.c:31-97 | n pages hold at least 17 times n/2 pieces, which bounds the number of pages |
| Settlement.FindRunIs | algorithm/Lsmtree/lsmtree.c:844-878 | the level search stops at the first level with an entry or a run for the key, and finds nothing only if no level has one |
| Settlement.AnswerAt | algorithm/Lsmtree/page_kv_noinv.c:410-436 | what the loop finds out, the value is the newest or a newer one in the memtable is overlooked, is decided by the first level with an entry |
| Settlement.JudgeIs | algorithm/Lsmtree/page_kv_noinv.c:486-562 | the judgement of a node against a header is right; without an answer the node goes strictly deeper |
| Settlement.JudgedBy | algorithm/Lsmtree/page_kv_noinv.c:508-541 | a value is kept by the header that holds the newest entry of its key, which is the one marked |
| Settlement.NeverNotFound | algorithm/Lsmtree/page_kv_noinv.c:403-482 | a node whose key exists always has a further level to look at |
| SettlementLoop.Settle.IssueHeader | algorithm/Lsmtree/page_kv_noinv.c:403-482 | a node is settled at once, joins the waiters of a run in flight, or becomes its only loader, at a deeper level than before; the marks on headers stay exact |
| SettlementLoop.Settle.GoToRun | algorithm/Lsmtree/page_kv_noinv.c:437-482 | a node waits for a run in flight, has a run in memory at hand, else reads it |
| SettlementLoop.Settle.constructor | algorithm/Lsmtree/page_kv_noinv.c:564-582 | all nodes unsettled, no run in flight, every key somewhere: a valid state |
| SettlementLoop.Settle.OpenHeader | algorithm/Lsmtree/page_kv_noinv.c:486-555 | the loader is judged first: settled, and its header marked if it is kept, or ready to go deeper than the run just read |
| SettlementLoop.Settle.JudgeWaiters | algorithm/Lsmtree/page_kv_noinv.c:508-555 | every waiter of the run is judged once; those settled are counted, the header marked for those kept, the others retry |
| SettlementLoop.Settle.IssueNext | algorithm/Lsmtree/page_kv_noinv.c:557-559 | a loader without an answer goes on to another run, never back to the one it left |
| SettlementLoop.Settle.HeaderCheck | algorithm/Lsmtree/page_kv_noinv.c:486-562 | an arrived header settles or sends on its loader and every waiter, and returns how many were settled |
| SettlementLoop.Settle.Visit | algorithm/Lsmtree/page_kv_noinv.c:564-598 | a visit acts exactly on idle, retrying and answered nodes, makes progress when it acts, and keeps done_cnt the number of settled nodes, so the overshoot abort is unreachable |
| SettlementLoop.Settle.Complete | algorithm/Lsmtree/page_kv_noinv.c:386-401 | the completion of a header read keeps the invariant and makes progress |
| SettlementLoop.Settle.NeverStuck | algorithm/Lsmtree/page_kv_noinv.c:564-598 | while a node is unsettled a visit can act or a read is outstanding |
| SettlementLoop.Settle.WaitersFit | algorithm/Lsmtree/page_kv_noinv.c:403-482 | a run has fewer waiters than there are nodes |
| SettlementLoop.Settle.Loop | algorithm/Lsmtree/page_kv_noinv.c:564-598 | in any interleaving of visits and completions every event that can act makes progress and their number is bounded by the measure at the start; a header is marked to be written exactly when it holds the newest entry of a value that is kept; once done_cnt reaches the number of nodes each value is kept exactly when it is the newest of its key, if and only if the memtable's newer value was not overlooked |
| SettlementLoop.OldValueIsKept | algorithm/Lsmtree/page_kv_noinv.c:410-427 | a run of the loop that keeps a value although the memtable has a newer one |
| SlabRing.List.Remove | include/slab.c:250-271 | the slab leaves the circular list, the order of the others stays |
| SlabRing.List.MoveToFront | include/slab.c:279-299 | the slab becomes the front |
| SlabRing.List.MoveToBack | include/slab.c:307-327 | the slab becomes the back |
| SlabCache.LiveDisjoint | include/slab.c:126-154 | live objects are pairwise disjoint |
| SlabCache.LiveInside | include/slab.c:17-48 | live objects are aligned and lie below the header of their page |
| SlabCache.LinksApart | include/slab.c:75-78 | the links of neighbouring free objects do not overlap if and only if the effective size has room for a pointer |
| SlabCache.TakeLive | include/slab.c:136-141 | the head of a free list was not live, and its link is read only if set |
| SlabCache.PutLive | include/slab.c:167-178 | a freed object goes back to the front of its own slab's free list |
| SlabCache.OrderedMoves | include/slab.c:149-190 | every move keeps slabs with free objects before full ones |
| SlabAllocator.Cache.constructor | include/slab.c:17-48 | the effective size is the least multiple of the alignment that holds the object, and slab_maxbuf the greatest number of such objects below the header of a page |
| SlabAllocator.Cache.LinkObjects | include/slab.c:75-78 | the loop threads the free list through all objects of the new page and touches no other |
| SlabAllocator.Cache.Grow | include/slab.c:55-85 | one empty slab with room for slab_maxbuf objects joins at the front, live objects stay |
| SlabAllocator.Cache.Alloc | include/slab.c:126-154 | an object that was not live becomes live; the cache grows, by one slab, exactly when every slab is full, that is when no free object is left; the unset link of a last object is never followed |
| SlabAllocator.Cache.AllocRun | include/slab.c:126-154 | allocations without a free, from any state: after the room there was is used up the cache grows at every slab_maxbuf-th object and at no other, and no object is handed out twice |
| SlabAllocator.Cache.Take | include/slab.c:136-151 | the head of the front slab's free list is handed out; a slab that becomes full moves to the back |
| SlabAllocator.Cache.UserWrite | include/slab.c:126-154 | a user writing any words of a live object disturbs no free list |
| SlabAllocator.Cache.Free | include/slab.c:162-190 | exactly the freed object stops being live and one more can be handed out; an empty slab leaves with its objects |
| SlabAllocator.Cache.AllFull | include/slab.c:133-134 | testing the front slab alone is sound: it is full exactly when every slab is |
| SlabAllocator.Cache.LiveFacts | include/slab.c:126-190 | in every state between calls live objects are pairwise disjoint, aligned and below the header of their page |
| LockFreeQueue.StepInv | interface/lfqueue.c:16-56 | every atomic step of every thread, in any interleaving, keeps the invariant (one chain of nodes from head, size exact up to pending updates) and can be taken |
| LockFreeQueue.StepContents | interface/lfqueue.c:16-56 | only the linking CAS appends and only the head CAS removes the front value |
| LockFreeQueue.Answers | interface/lfqueue.c:39-56 | NULL is returned only if the queue was empty at that step, else the value this call removed |
| LockFreeQueue.EveryRunIsFifo | interface/lfqueue.c:16-56 | every run is a run of a sequential FIFO queue, its operations in the order of their CAS steps |
| LockFreeQueue.FirstInFirstOut | interface/lfqueue.c:16-56 | in a FIFO history what came out followed by what is left is what went in |
| LockFreeQueue.DequeuedIsPrefix | interface/lfqueue.c:16-56 | over a whole run the dequeued values are a prefix of the linked values in link order, each taken once |
| LockFreeCalls.EnqueueAnswers | interface/lfqueue.c:16-37 | in every run a call of q_enqueue that answers true has linked its own value exactly once, and one that answers false has linked nothing and found the count at the capacity at one of its steps |
| LockFreeCalls.DequeueAnswers | interface/lfqueue.c:39-56 | in every run a call of q_dequeue that answers with a value has removed exactly that value, once, and one that answers NULL has removed nothing and found the queue empty |
| LockFreeCalls.EnqueueAlone | interface/lfqueue.c:16-37 | an enqueue that runs alone ends, however far the tail lags; it answers true exactly when the count is not the capacity, and then its value is last in the queue |
| LockFreeCalls.DequeueAlone | interface/lfqueue.c:39-56 | a dequeue that runs alone ends, with the front value, which leaves the queue, or with NULL exactly when the queue is empty |
| BadBlocks.Checker.ScanDown | blockmanager/bb_checker.c:187-200 | the scan stops at the last good segment at or below its start |
| BadBlocks.Checker.Fixing | blockmanager/bb_checker.c:174-210 | homes and partners of all processed segments are good and all different, and the back tables undo the front ones, if and only if every scan for a partner stays inside the array and stops above its segment; then half of the good segments are processed and every good segment is in use but for at most one; otherwise the last partner is already in use; exact condition for leaving the array |
| BadBlocks.TotalIsHalf | blockmanager/bb_checker.c:184-212 | if homes and partners are sound and all good segments but one are in use, the number of processed segments is half the number of good ones |
| BadBlocks.NoneBad | blockmanager/bb_checker.c:184-212 | without bad segments half of all segments are processed |
| BadBlocks.OwnPartner | blockmanager/bb_checker.c:198-207 | one good segment before a bad one: the table names it as its own partner |
| BadBlocks.LeavesTheArray | blockmanager/bb_checker.c:186-200 | one bad segment before a good one: the scan leaves the array |
| BadBlocks.AllGood | blockmanager/bb_checker.c:184-210 | without bad segments the pairing never fails |
| BadBlocks.SlotInverse | blockmanager/bb_checker.h:46-54 | the page slot determines the page, given whether it moved |
| BadBlocks.SlotOnto | blockmanager/bb_checker.h:46-54 | segment and partner use the same 128 slots, each for exactly one page |
| BadBlocks.FixIs | blockmanager/bb_checker.h:33-65 | a page goes to its slot in the partner if it moves, else in the segment's home |
| BadBlocks.NoTwoPagesShare | blockmanager/bb_checker.h:33-65 | after a sound pairing different logical pages of processed segments go to different physical pages |
| BadBlocks.NeverInBad | blockmanager/bb_checker.h:33-65 | after a sound pairing no logical page goes to a bad segment |

## Left out

- FlushReads.ReadAfterFlush: needs room for all translation pages, all of them on flash, or that no update was lost, since the code can lose an update otherwise; `ReadStored` gives the exact condition for each read in any state.
- FlushHistory.EveryHistoryIsAMap: the same condition; reads and flushes do not overlap, and the keys read are not in the write buffer.
- FlushEngine.Flush.DemandRead: one read at a time; reads in flight together are `FlushReads`.
- FlushControl.NeverStuck: states that a step is always possible, not that probing ends; with no free slot on its probe path an entry probes for ever.
- SkipList.List.Delete: key_max may not be deleted, as it would be the header; all_length is not reduced, as in the code; `back` pointers and data_size are not modelled because the code does not maintain them.
- SkipList.List.InsertKey: the sentinel key_max is not a key a caller may insert; the code would take the header for its node.
- MemtableCut.Fill: the same, for every key inserted.
- SkipList.List.Divide: requires that the target is a node of the list, which the code takes for granted.
- PageFtl.Ftl.Relocate: the store of the new address is a labelled step the code does not have.
- Dftl.Ftl.CacheEviction: the parked and waiting arrays have no capacity here; in the code they hold 1024 requests.
- Dftl.Ftl.TpAlloc: the free blocks for translation pages are a queue of their own, where the code shares one queue with data blocks.
- DftlDataGc.Tables.Run: only addresses are modelled, not the data behind them; a write may use any address, and the cache may change in any way between steps.
- Dftl.Ftl.Dispatch: data pages and their allocation are not modelled, only the translation pages behind them.
- Packer.Packer.Pack: requires that there are no values of length 0 or of a whole page, with which the loop of the code would not end; the footer is zero at the start, as after an erase.
- SlabAllocator.Cache.constructor: effective sizes below a word are excluded; `LinksApart` shows that links would then overlap.
- SlabAllocator.Cache.Alloc: memory for a new page is assumed to be there, and at least two objects fit a slab.
- SlabAllocator.Cache.Free: the object must be live; the read of the counter after the page was released is not modelled as a fault.
- LockFreeCalls.EnqueueAlone: that a call ends is proved for one that runs alone; among others an enqueue can be overtaken without bound.
- LockFreeQueue.StepInv: nodes are never reclaimed, and the size test, which is not atomic with linking, does not bound the queue.
- BadBlocks.Checker.Fixing: a scan below segment 0 is an outcome, where the code reads outside its table.
- Settlement: the write-back of headers after the loop and the order of runs inside a level are not modelled; memtable and levels are fixed while the loop runs, and every collected key exists somewhere.
- Heaps, red-black trees and the device are specifications: a maximal element, a map, a map with completion events.
- DFTL with C_CACHE set, its removal request, and the FTLs that are near copies of it (ctoc, ctoc_batch, dftl_test, hash_dftl, oldhash).
- The fine-grained cache, the partition manager and data garbage collection of the hash KV FTL, and reads in flight while a flush starts.
- skiplist_pop and the other insert variants of the skip list, range searches and iterators.
- LSM-tree levels, compaction merging, header garbage collection and the pipelined compaction.
- The large-object path and the destruction of slab caches.
- Request plumbing, block-device glue, benchmarks, timing, statistics and printing.
- Bloom filters, level size factors and SHA-256; hashes are arbitrary functions.
