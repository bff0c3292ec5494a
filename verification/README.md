# mctx: memory contexts, modelled and proved

This project models the region allocator of this repository in Dafny and proves what it promises: the
AllocSet block and freelist allocator (`aset.c`), the tree of memory contexts and its life cycle
(`mcxt.c`), the packed chunk headers (`memutils_memorychunk.h`) and aligned pointers
(`alignedalloc.c`). `dafny verify dfyconfig.toml` checks all of it.

## How it is put together

Memory is modelled at addresses. malloc hands out disjoint, 8-aligned regions and may refuse at any call;
the sizes refused are on record, so that it is part of every contract what a failure has been due to;
chunk headers, freelist links and payloads are 8-byte words of one shared memory, so that a header or a
link is really stored where the source stores it, a link in the payload of the freed chunk. Block
headers, context headers and tree nodes are records kept by address. Sizes are those of the default LP64
build: 8 bytes for a chunk header, 40 for a block header, 200 for a context header.

| file | what it holds |
|---|---|
| `Layout`, `MemoryChunk`, `SizeClass` | alignment, header packing, size classes and block sizes |
| `HeapState`, `Frames` | the state of the heap, its invariant `Inv`, and what a client sees of it: `LiveMap`, from live pointers to owner and contents |
| `BlockLists`, `ChunkSteps`, `BlockSteps`, `SetSteps`, `AsetFacts` | each elementary step of `aset.c`: it keeps the invariant and changes the live map as it should |
| `Aset` | class `Allocator`: the functions of `aset.c` as methods that work in place |
| `Guarantees`, `Check`, `Accounting`, `Sums`, `Leaks` | what the invariant means: private payloads, the repository's own consistency check, statistics, leak-freedom |
| `Forest`, `Reparent` | the linked tree, recursive orders, the walk without recursion, reparenting |
| `Worlds`, `Deletion`, `Traversal` | heap, tree, callbacks and contexts kept for reuse together, with the invariant `Good` |
| `Registration`, `Embedded` | what registering a callback asks of its caller, and callback structs in memory of their own context |
| `Mcxt` | class `Contexts`: the functions of `mcxt.c`, and the parts of `aset.c` that touch the tree |
| `ByteView`, `AlignedChunks`, `Palloc` | bytes inside words, aligned pointers, dispatch on the method ID |
| `Runs`, `Histories`, `Sessions` | any sequence of requests a client may make, what holds over all of it, and its execution |
| `Following`, `Limits`, `CallbackOrder` | over such sequences: one pointer through all its reallocations, how large blocks get, and the order of calls |
| `Refusals`, `Recycling` | when requests may fail, and which contexts are used again |
| `TreeSteps`, `Ledgers`, `Errands` | what a request does to the tree, what a client has to note to keep the rules, and one client at work |

The methods follow the source branch by branch and are proved against predicates on the state before and
after: what it means for clients (`AllocOutcome`, `ReallocOutcome`, `SubtreeDeleted` and so on), and which
chunk, block or kept context is taken or given back (`Served`, `ReallocServed`, `FreeStep`, `Shelves`).
Ghost fields hold what the proofs know besides the C state: the block list and the freelists as sequences,
the chunks of each block in address order, the children of each context. The invariants tie them to the
links and words in memory.

Where an abort would end the process the result is `Aborted`; the state left behind is well-formed too.

Four promises turn out to need a condition, and the condition is proved exact. Reparenting keeps a
forest if and only if the new parent is not below the context; the source only asserts that it is another
context. Registering a callback keeps the callback lists proper if and only if its struct is on none. The
size computed for an aligned request suffices if and only if it does not wrap. And the
regular blocks of a context stay within its maximum block size if and only if some doubling of the initial
block size has room for a chunk of the limit and is within that maximum; without one, requests of the chunk
limit to the empty context are enough to exceed it (`ExceedMaximum`). A new context always has room
(`CreatedStaysBelow`), but one kept for reuse gets a new maximum and keeps its chunk limit, and may not
(`ReuseExceedsMaximum`).

`AllocSetCheck` is modelled without the sentinels of the builds that contain it. Run on a reachable state of
the default build it would report one thing only, a dedicated chunk without payload, which `repalloc(p, 0)`
leaves behind (`ShrunkToNothing`). No build of the code reports that: the default build has no check, and
in the others the sentinel takes a byte, so that the chunk is not empty.

## Model

| member | source | states |
|---|---|---|
| `MemoryChunk.HdrMaskIsSum` | memutils_memorychunk.h:133-146 | or-ing the shifted fields never makes two fields collide: an even block offset leaves the shared bit to the value, and the word stays below 2^64 |
| `MemoryChunk.HdrMaskRoundTrip` | memutils_memorychunk.h:19-47 | for every even offset, value and method ID in range, all fields of the packed header decode to what was stored and it does not read as external, although the fields take 65 bits |
| `MemoryChunk.HdrMaskExternalRoundTrip` | memutils_memorychunk.h:154-178 | an external header decodes as external, with the magic number and the method ID that were stored |
| `AsetFacts.RegularHeader` | memutils_memorychunk.h:133-146 | the header written for a chunk leads back to its block and its freelist class |
| `AsetFacts.HeaderFitsIn` | aset.c:696 | every header written for a chunk of a well-formed heap meets the bounds of the packing: aligned, and within 30 bits of its block |
| `SizeClass.FreeIndexIsLeast` | aset.c:210-239 | the class computed from the leftmost bit is the smallest one whose chunks hold the request, and below 11 for requests up to 8192 |
| `SizeClass.AllocChunkLimit` | aset.c:394-397 | the halving loop yields the largest power of two in 128..8192 of which four chunks with headers fit into a block of the maximum size |
| `SizeClass.ClassWithinLimit` | aset.c:862-900 | rounding a request within the limit up to its class stays within the limit, so it never needs a class that does not exist |
| `SizeClass.GrowBlockSize` | aset.c:803-809 | the doubling loop computes the size first asked of malloc |
| `SizeClass.GrownIsLeast` | aset.c:803-809 | that size is a doubling of the start size, and the least one that holds the chunk |
| `SizeClass.GrownFitsIff` | aset.c:799-809 | it stays within a maximum if and only if some doubling of the start size is large enough and does |
| `SizeClass.GrowthStaysBelow` | aset.c:794-809 | if some doubling of the initial size has room for a chunk of the limit and is within the maximum, so is every size first asked for, however often nextBlockSize has been doubled or cut off |
| `SizeClass.NewBlockFits` | aset.c:790-824 | a new block fits 30-bit block offsets, and is within the maximum whenever the parameters leave room for that |
| `Frames.ChunksDisjoint` | aset.c:1419-1520 | tiling alone makes all chunks of all blocks, headers included, disjoint |
| `ChunkSteps.AddChunkOk` | aset.c:682-717 | carving a chunk off the free end of a block keeps the whole heap invariant and adds exactly one live pointer |
| `ChunkSteps.PushFreeOk` | aset.c:1003-1041 | pushing a freed chunk, with the link stored in its own payload, keeps the heap invariant and removes exactly that live pointer |
| `ChunkSteps.PopFreeOk` | aset.c:887-922 | popping the newest chunk through the link in its payload keeps the heap invariant and adds exactly one live pointer |
| `ChunkSteps.WriteOk` | aset.c:1419-1520 | a client's writes inside a payload change that payload and nothing else: no header, link or other payload |
| `BlockSteps.InsertBlockOk` | aset.c:829-846 | a block from malloc, linked under the head or in front of it, keeps the heap invariant; a dedicated block adds exactly its chunk |
| `BlockSteps.ExternalChunk` | aset.c:957-990 | the block of an external chunk holds nothing else, is full, is on its context's list, and never at the head of it |
| `BlockSteps.RemoveBlockOk` | aset.c:984-1001 | unlinking and freeing a dedicated block keeps the heap invariant and removes exactly its live pointer |
| `SetSteps.ResetOk` | aset.c:422-492 | after a reset only the keeper block is left, empty, all live pointers of the context are gone and no others |
| `SetSteps.ReleaseOk` | aset.c:580-591 | releasing the region of an empty context keeps the heap invariant and every live pointer |
| `SetSteps.CreateOk` | aset.c:345-408 | a new context with its keeper block keeps the heap invariant and every live pointer |
| `BlockLists.LinkedInsert` | aset.c:652-665 | the assignments to prev and next insert a block into the list as a sequence |
| `BlockLists.LinkedRemove` | aset.c:987-990 | the assignments to prev and next take a block out of the list as a sequence |
| `Guarantees.PayloadIsPrivate` | aset.c:682-717 | every live payload is inside one block of its own context and shares no byte with any other chunk, chunk header, freelist link, block header or context header |
| `Guarantees.OnOneFreelist` | aset.c:1003-1041 | a chunk that is not live is on exactly one freelist, once, that of its own class and context; a live chunk is on none |
| `Limits.NewBlockFitsIff` | aset.c:794-824 | a new head block is within maxBlockSize if some doubling of nextBlockSize has room for the chunk and is within it; unless malloc refused the size first asked for, only then |
| `Limits.RequestsFitIff` | aset.c:794-809 | all requests of an empty context start within maxBlockSize if and only if some doubling of initBlockSize lies between a block for the chunk limit and maxBlockSize |
| `Limits.NoOversizedBlock` | aset.c:790-824 | with such parameters, reused or not, no reachable heap has a regular block above maxBlockSize |
| `Limits.ExceedMaximum` | aset.c:727-849 | with any other parameters an empty context gets such a block by requests of its chunk limit alone, unless malloc refuses something |
| `Limits.ReuseExceedsMaximum` | aset.c:323-324 | unless malloc refuses something, a context made for 8 MB, deleted, reused with 8 kB and asked for chunks of 8192 bytes ends up with a regular block above 8 kB: reuse changes maxBlockSize but not allocChunkLimit |
| `Limits.OversizedExists` | aset.c:323-324 | the invariant does not exclude such blocks: some well-formed heap has one |
| `Limits.StepKeepsSetup` | aset.c:310-337 | no request changes the parameters, or the keeper block's size, of a context that stays in the tree |
| `Limits.RunKeepsSetup` | aset.c:310-337 | the same over any run in which it is not deleted |
| `Limits.CreatedStaysBelow` | aset.c:323-324 | from its creation until its deletion, over any run, a context that was not reused keeps a chunk limit that goes with its maximum and never has a regular block above it; a reused one never has if its parameters leave room |
| `Guarantees.CarvedBelowRequest` | aset.c:737-788 | every class carved off an exhausted block is strictly below the requested one, so the list found empty stays empty |
| `Guarantees.HeadIsRegular` | aset.c:648-665 | the head of a block list is never a dedicated block, so freeing or reallocating one never takes the head branch |
| `Guarantees.FirstPointer` | aset.c:339-417 | in any well-formed heap, a new context's first small chunk starts right behind the context, block and chunk headers, becomes live there for that context and leaves all other live pointers alone |
| `Guarantees.SomePointerIsLive` | aset.c:862-935 | the invariant is not empty: it holds of heaps with a live pointer |
| `Aset.Allocator.AllocSetAllocLarge` | aset.c:601-675 | a dedicated block of exactly the rounded size, second on the list; if the size is invalid, or malloc refuses that very size, nothing has changed |
| `Aset.Allocator.AllocSetAllocChunkFromBlock` | aset.c:682-717 | the chunk at the old free end of the block, of the given class, is live; the block follows |
| `Aset.Allocator.CarveFreeSpace` | aset.c:737-788 | carving terminates, conserves bytes, makes at most one chunk per class in strictly decreasing classes, leaves less than 16 bytes, and changes no live pointer |
| `Aset.Allocator.NextBlockSize` | aset.c:790-797 | the size returned is the old one, the next one is twice that up to the maximum, without overflow of 32 bits |
| `Aset.Allocator.MallocBlock` | aset.c:811-824 | halving after refusals never asks for less than required; a block of a given size comes after refusals of exactly the larger sizes of the series, and a null after refusals of all of them and has changed nothing |
| `Aset.Allocator.AllocSetAllocFromNewBlock` | aset.c:727-849 | what is left of the head block is carved first and nextBlockSize doubled up to the maximum; then a chunk of the requested class, first on a new block at the head of the list, which has the least doubling of nextBlockSize that holds the chunk, or above 1 MB the first of its halves that malloc does not refuse; a failure only after malloc has refused them all, and it keeps every live pointer |
| `Aset.Allocator.AllocSetAlloc` | aset.c:862-942 | one new live pointer with room for the request and nothing else changed for any client: the newest free chunk of the class if there is one, else the next chunk of the head block if it has room, else the first of a new head block; a dedicated block above the chunk limit. In the first two cases it cannot fail, in the others only if malloc refuses; a failure changes no live pointer, and is a null only with NO_OOM |
| `Aset.Allocator.AllocSetFree` | aset.c:949-1042 | exactly that live pointer goes; a regular chunk becomes the newest on its freelist, a dedicated block leaves its list and goes back to malloc |
| `Aset.Allocator.FreeDedicatedBlock` | aset.c:957-1002 | unlinking, accounting and freeing a dedicated block removes exactly its live pointer |
| `Aset.Allocator.AllocSetRealloc` | aset.c:1052-1260 | on all three paths all old words that fit are kept, owner and all other live pointers too; a regular chunk that is large enough stays in place; one that is too small is exchanged for what a new request for the size would get, and fails only if that would; a dedicated chunk is resized to exactly the rounded size unless realloc refuses it; a failure leaves the old chunk live and intact |
| `Aset.ServedChunk` | aset.c:862-942 | the chunk a request gets has exactly the rounded size above the chunk limit, and else is of the least class that holds it, wherever it comes from |
| `Aset.MovedChunk` | aset.c:1234-1260 | the same for the chunk that a small one is exchanged for |
| `Aset.FailureIsRefusal` | aset.c:862-942 | a request of a valid size fails only after a refusal of malloc, and a small one only when no chunk of its class is free and the head block has no room |
| `Aset.Allocator.ReallocDedicated` | aset.c:1063-1164 | the block may move: its contents and its place in the block list stay, links and accounts are repaired, and its capacity is exactly the rounded size; without it, realloc has refused that size or the size is invalid |
| `Aset.Allocator.AllocSetCreate` | aset.c:345-408 | a new empty context with the parameters asked for, a chunk limit that goes with them, and mem_allocated equal to the first block; a null only if malloc has refused the size of that block, and then nothing has changed |
| `Aset.Allocator.AllocSetReset` | aset.c:422-492 | the loop over the blocks leaves the keeper only; the context is as new, its live pointers are gone, no other context notices |
| `Aset.Allocator.AllocSetDestroy` | aset.c:556-591 | all blocks and the header go back to malloc, exactly once each; no other context notices |
| `Aset.Allocator.AllocSetGetChunkContext` | aset.c:1267-1288 | the header of a live pointer leads to the context that owns it |
| `Aset.Allocator.AllocSetGetChunkSpace` | aset.c:1296-1321 | the space of a live pointer: its payload and its header |
| `Check.AllocSetCheck` | aset.c:1419-1521 | the repository's own check, run on any reachable state: the totals equal mem_allocated and it reports something if and only if a dedicated chunk has no payload |
| `Check.ShrunkToNothing` | aset.c:1063-1164 | a chunk above the limit reallocated to size 0 is such a chunk, still live, and the check reports it |
| `Check.CheckBlock` | aset.c:1431-1517 | walking a block by its chunk headers ends exactly at the free end, and every header on the way is sound |
| `Accounting.BlockFilled` | aset.c:1431-1512 | the chunks of a block with their headers fill it from the block header to the free end without a gap |
| `Accounting.LiveOrFree` | aset.c:1342-1405 | the space of all chunks of a context is the space of its live pointers plus that of its freelists |
| `Accounting.AllocSetStats` | aset.c:1342-1405 | totalspace equals mem_allocated, and totalspace less freespace is the context header, the block headers and GetChunkSpace summed over the live pointers |
| `Leaks.RegionsAreBlocks` | aset.c:261-592 | every region outstanding with malloc is one context header with its keeper block or one other block, and belongs to one context |
| `Leaks.ContextAccounted` | aset.c:399-408 | mem_allocated is exactly what the context holds of malloc |
| `Leaks.NothingLeaks` | aset.c:502-592 | the bytes outstanding are the sum of mem_allocated over the contexts in the tree plus the initial blocks of those kept for reuse |
| `Leaks.AllGivenBack` | aset.c:502-592 | without contexts, in use or kept, nothing is outstanding |
| `Leaks.MemoryContextMemConsumed` | mcxt.c:709-726 | totalspace over a tree is the sum MemoryContextMemAllocated returns, the part in use what headers and live pointers take, and the counts are those of all its blocks and free chunks |
| `Forest.WalksAreTheSubtree` | mcxt.c:194-236 | recursive pre-order and post-order list exactly the subtree, each context once |
| `Forest.DescendantsFirst` | mcxt.c:381-415 | in post-order every descendant comes before its ancestor |
| `Forest.AncestorsFirst` | mcxt.c:216-236 | in pre-order every ancestor comes before its descendants |
| `Forest.RestDown` | mcxt.c:216-221 | descending to the first child consumes the head of what pre-order has left |
| `Forest.AfterSideways` | mcxt.c:230-235 | moving to the next sibling consumes the head of what is left, and moving up consumes nothing |
| `Forest.PostDropsLeaf` | mcxt.c:398-414 | deleting the leftmost leaf takes the head off the post-order, and its parent is on the new way down |
| `Reparent.SetParentOk` | mcxt.c:574-617 | delinking and relinking keep the links a forest, move the context to the front of the new list and keep the order of all other siblings |
| `Reparent.SubtreeMoves` | mcxt.c:574-617 | the whole subtree moves with the context, in the same order |
| `Reparent.SetParentKeepsForestIff` | mcxt.c:577-578 | the links stay a forest if and only if the new parent is not below the context; the source only checks that it is another one |
| `Worlds.CreateLinksOk` | mcxt.c:757-778 | a new context becomes the first child of its parent and the links stay a forest |
| `Deletion.DeleteTurn` | mcxt.c:394-414 | one turn of the loop of MemoryContextDelete: the head of the post-order is gone and the rest of the subtree untouched |
| `Deletion.DeleteEnds` | mcxt.c:381-415 | the loop as a whole has deleted the subtree in recursive post-order |
| `Deletion.ChildTurn` | mcxt.c:464-474 | one turn of MemoryContextDeleteChildren: the first child and its subtree are gone, the other children keep their order |
| `Embedded.ReadAtTurn` | mcxt.c:398-454 | when its turn comes in the deletion of a subtree, callback structs that were in chunks of the context itself still read from memory, word by word along their links, as the calls due at the start, although everything below the context has been freed by then |
| `Embedded.ReadBeforeReset` | mcxt.c:321-351 | the same for a context that is reset after its descendants have been deleted |
| `Traversal.WalkDown` | mcxt.c:216-221 | after a context with children comes its first child |
| `Traversal.ClimbMore` | mcxt.c:230-235 | climbing to a parent leaves nothing out and repeats nothing |
| `Traversal.OneMoreReset` | mcxt.c:360-370 | one turn of MemoryContextResetChildren leaves the tree, the parameters of the context and all other contexts as they are |
| `Mcxt.Contexts.AllocSetContextCreateInternal` | aset.c:261-409 | the first context on the list for its kind if there is one, which alone leaves the list; in any case one that is empty, first child of its parent, with a header fully determined by the parameters except for allocChunkLimit when it was kept for reuse; an abort only if none is kept and malloc has refused the first block, and then nothing has changed |
| `Mcxt.Contexts.MemoryContextCreate` | mcxt.c:742-779 | the assignments to the links are those of the forest lemma |
| `Mcxt.Contexts.MemoryContextSetParent` | mcxt.c:574-617 | the branches of the source move the subtree and keep every other list and flag |
| `Mcxt.Contexts.MemoryContextRegisterResetCallback` | mcxt.c:489-499 | the callback is now first on the list and the context no longer counts as reset |
| `Registration.RegisterKeepsListsIff` | mcxt.c:489-499 | the links of the callback structs are proper lists after a registration if and only if the struct was on no list before; the source does not look |
| `Mcxt.Contexts.MemoryContextUnregisterResetCallback` | mcxt.c:512-532 | exactly that callback leaves the list, the others keep their order |
| `Mcxt.Contexts.MemoryContextCallResetCallbacks` | mcxt.c:539-553 | all callbacks of the context are called, last registered first, and its list is empty afterwards |
| `Mcxt.Contexts.CallBack` | mcxt.c:550-551 | a callback is called only once it is off the list: its successor has to be first by then |
| `Mcxt.Contexts.MemoryContextResetOnly` | mcxt.c:340-351 | callbacks first, then the space; the isReset shortcut gives the same result as resetting |
| `Mcxt.NothingToReset` | mcxt.c:340-351 | isReset means no callbacks, no live pointer and a keeper block as new, so skipping the reset skips nothing |
| `Mcxt.Contexts.AllocSetDelete` | aset.c:502-592 | for the rest of the library, keeping a context for reuse (also when the full list is discarded first) is the same as destroying it; kept, it is in front of its old list, or alone if that had 100 entries, and the other list and all that is kept are as they were; destroyed, it is gone |
| `Mcxt.Contexts.DiscardKeptContexts` | aset.c:531-553 | the list of kept contexts is emptied, each region freed once, and neither a context in the tree nor the other list notices |
| `Mcxt.Contexts.MemoryContextDeleteOnly` | mcxt.c:423-456 | callbacks, delinking, then memory: exactly one childless context and its live pointers go |
| `Mcxt.Contexts.MemoryContextDelete` | mcxt.c:381-415 | the descend-to-leaf loop terminates, deletes exactly the subtree in recursive post-order, drops exactly the live pointers owned in it, and leaves all other contexts, their sibling order and payloads unchanged; one after the other in that order, the deleted contexts go to their lists for reuse, or are gone |
| `Mcxt.Contexts.MemoryContextDeleteChildren` | mcxt.c:464-474 | exactly the proper descendants are deleted, child by child in post-order |
| `Mcxt.Contexts.MemoryContextReset` | mcxt.c:321-332 | all descendants are deleted, as by the above, the context is empty with its parameters and keeper block as they were, and every callback among them has been called |
| `Mcxt.Contexts.MemoryContextTraverseNext` | mcxt.c:216-236 | the next context in recursive pre-order, or null when the walk is complete |
| `Mcxt.Contexts.MemoryContextResetChildren` | mcxt.c:360-370 | exactly the proper descendants are reset, in pre-order, each keeps its parameters and keeper block, and the tree is unchanged |
| `Mcxt.Contexts.MemoryContextMemAllocated` | mcxt.c:685-702 | the loop returns the sum over the recursive pre-order of the subtree |
| `Mcxt.Contexts.MemoryContextIsEmpty` | mcxt.c:671-678 | true only for a context without children that owns no live pointer |
| `Mcxt.Contexts.MemoryContextAlloc` | mcxt.c:811-825 | one new live pointer owned by the context, which no longer counts as reset; the chunk is the one that `AllocSetAlloc` takes, and it fails only when that does |
| `Mcxt.Contexts.MemoryContextAllocExtended` | mcxt.c:855-878 | the same with the size check and, on request, the requested bytes set to zero, without other changes |
| `Mcxt.LiveOwner` | mcxt.c:811-825 | whoever owns a live pointer is in the tree and not marked as reset |
| `AlignedChunks.AlignedPtrFacts` | mcxt.c:1004-1006 | the computed address is aligned, leaves room for the header and is at most alignto past the chunk |
| `AlignedChunks.NoSlack` | mcxt.c:986 | the extra bytes requested are enough for every address palloc may return, and one byte less is not |
| `AlignedChunks.RequestSufficesIff` | mcxt.c:986 | the request, computed modulo 2^64, is large enough if and only if it does not wrap |
| `AlignedChunks.RedirectDecodes` | mcxt.c:1015-1020 | the redirecting header gives back the unaligned chunk and the alignment exactly |
| `AlignedChunks.AlignedInside` | mcxt.c:959-1039 | header and usable bytes of an aligned pointer are inside the unaligned chunk, and the pointer is not itself a chunk |
| `AlignedChunks.AlignedStays` | mcxt.c:1015-1020 | operations on other chunks leave an aligned pointer and what it leads to as they were |
| `AlignedChunks.OldSizeCovers` | alignedalloc.c:84-91 | the estimated old size is at least the requested one, and copying that much stays inside the chunk |
| `ByteView.CopiedByte` | alignedalloc.c:113 | memcpy of any number of bytes makes exactly those bytes equal to the source's and leaves the ones behind them as they were, also in the word where the copy ends |
| `Palloc.MemoryContextAllocAligned` | mcxt.c:959-1039 | a new chunk owned by the context with an aligned pointer and `size` usable bytes inside, zeroed on request; the chunk is exactly the one a plain request for the bytes and the overhead gets, and the call fails only when such a request does; a failure changes no live pointer |
| `Palloc.AlignedAllocFree` | alignedalloc.c:29-58 | exactly the unaligned chunk is freed |
| `Palloc.AlignedAllocRealloc` | alignedalloc.c:69-125 | the pointer is exchanged for what a new aligned request for the size would get, with the same alignment and owner and the first bytes kept; the old chunk is freed and no other changed; it fails only if that request would, and then changes no live pointer |
| `Palloc.AlignedAllocGetChunkContext` | alignedalloc.c:132-146 | the owner of the unaligned chunk |
| `Palloc.AlignedAllocGetChunkSpace` | alignedalloc.c:154-168 | the space of the unaligned chunk |
| `Palloc.GetMemoryChunkContext` | mcxt.c:638-641 | dispatch on the method ID, with at most one redirection, finds the context that owns the pointer; no held pointer reaches another method |
| `Palloc.GetMemoryChunkSpace` | mcxt.c:649-652 | dispatch finds the space of the chunk behind the pointer |
| `Palloc.Pfree` | mcxt.c:1057-1066 | dispatch frees exactly the chunk behind the pointer, which goes to the front of its freelist or, if dedicated, with its block back to malloc |
| `Palloc.Repalloc` | mcxt.c:1095-1111 | dispatch reallocates the chunk behind the pointer, in the way of its method, and keeps contents and owner |
| `Runs.Execute` | mcxt.c:321-1111 | every request a client may make, carried out in place by the methods above, is a step of the run model, logs exactly the events of that step, and leaves heap, tree, callbacks and kept contexts with all their invariants |
| `Runs.ExecuteOnHeap` | mcxt.c:855-1111 | the same for allocation, release, reallocation and writes, which log nothing |
| `Runs.ExecuteOnTree` | mcxt.c:321-474 | the same for creation, reparenting, reset and deletion, with the events they log |
| `Runs.ExecuteOnCallbacks` | mcxt.c:489-532 | the same for registration |
| `Histories.StepRefines` | aset.c:862-1260 | refinement: every step of the library, whose headers, links and lists share memory with the payloads, is a step of a machine on the map from live pointers to owner and contents; which bytes a reallocation keeps, of plain and aligned pointers, and which an allocation clears are part of that machine |
| `Histories.RunKeeps` | aset.c:862-1260 | over any run, a live pointer that no request names keeps its owner and its bytes |
| `Sessions.Serve` | mcxt.c:321-1111 | any number of requests of any client whose next request is allowed after every run it may have had with the library, each decided on the answers so far and carried out in place, is a run of the model from the first state to the last, told exactly as it happened, and all invariants hold at the end |
| `TreeSteps.StepTree` | mcxt.c:381-415 | a request of any kind takes exactly the contexts it deletes out of the tree, and the others keep their parents, except one that is moved |
| `Ledgers.ReachesIsCovered` | mcxt.c:321-474 | from the parents a client has noted it can tell exactly which of its contexts a request empties or deletes |
| `Ledgers.PermitsIffAllowed` | mcxt.c:321-1111 | with a ledger that matches the library, a client can tell of any request that names what it has noted whether it is allowed; of writes it can tell within the size asked for |
| `Ledgers.StepNoted` | mcxt.c:321-1111 | after any permitted request, the ledger brought up to date with the request and its answer alone matches the library again: contexts and parents, pointers with owner, size and alignment, and which structs are registered where |
| `Ledgers.StepForgetsNothing` | mcxt.c:321-1111 | a ledger that has all contexts, live chunks and registered structs still has all of them afterwards, so that what is dropped from it is really gone |
| `Ledgers.CarefulKeepsRules` | mcxt.c:321-1111 | a client that goes by such a ledger keeps the rules of `Serve` in every run, from any state that the ledger matches at first |
| `Ledgers.KnowsItAll` | mcxt.c:321-1111 | over any run, a client that has had the library to itself and goes by its ledger knows all there is: its contexts are those of the tree, each live chunk is behind exactly one of its pointers, and no memory is live if and only if it has none |
| `Errands.ErrandKeepsRules` | mcxt.c:321-1111 | a client that creates two contexts, registers a callback, allocates, reallocates and deletes, and takes failures into account, keeps the rules from any state of the library in which its struct is not registered |
| `Errands.ErrandIsTold` | mcxt.c:381-553 | over any of its runs, once it is done its callback has been called exactly once if both contexts could be created, and otherwise never |
| `Errands.RunErrand` | mcxt.c:381-553 | the same of the log, when it is carried out in place; and both contexts are created unless malloc refuses something |
| `Refusals.StepRefusals` | mcxt.c:785-805 | a request of a valid size, of any kind, gets no pointer only after a refusal of malloc or realloc |
| `Refusals.RunRefusals` | mcxt.c:785-805 | over every run there are at least as many refusals as requests that fail for want of memory |
| `Refusals.NoneFails` | mcxt.c:785-805 | in a run without refusals every creation, allocation and reallocation of a valid size gets its pointer, whatever the client does |
| `Recycling.StepShelves` | aset.c:519-553 | whatever the request, except creation: the contexts it deletes go to the lists for reuse in the order of deletion, and nothing else happens to the lists |
| `Recycling.StepUnshelves` | aset.c:310-337 | a creation takes the first context off the list for its kind, if there is one, and touches no other |
| `Recycling.FullListIsDropped` | aset.c:531-553 | the context deleted when its list has 100 entries is alone on it |
| `Recycling.LastDeletedFirst` | aset.c:310-337 | over whole runs: if a list has room for all contexts of its kind that one run deletes, the next run's creations of that kind return these contexts, last deleted first, whatever else the client does meanwhile |
| `Histories.StepCalls` | mcxt.c:321-351 | a request calls exactly the callbacks held by the contexts it empties or deletes, each once |
| `Histories.StepHolds` | mcxt.c:489-553 | who holds which callback after any request |
| `Histories.RunConserves` | mcxt.c:489-553 | over any run, each registration is matched by one call, one unregistration, or the callback still waiting |
| `Histories.WaitsUncalled` | mcxt.c:489-553 | until its context is emptied or deleted a registered callback waits and is not called |
| `Histories.CalledOnce` | mcxt.c:489-553 | when its context is emptied or deleted it is called once and forgotten |
| `CallbackOrder.RegisteredIsNewer` | mcxt.c:489-499 | a callback registered now is in front of all that its context holds |
| `CallbackOrder.RunKeepsOrder` | mcxt.c:489-532 | over any run that neither unregisters them nor empties or deletes their context, two callbacks keep their order, whatever else is registered or unregistered |
| `CallbackOrder.NewerCalledFirst` | mcxt.c:539-553 | when the context is emptied or deleted, alone or with others, the one in front is called first |
| `CallbackOrder.LastRegisteredFirst` | mcxt.c:489-553 | over whole runs: of two callbacks registered with a context at any two times, the one registered later is called first when the context is emptied or deleted next, each with the function and argument it had when it was registered |
| `Histories.DescendantsToldFirst` | mcxt.c:321-456 | when a subtree is deleted or reset, all a descendant has to tell, and the release of its memory, comes before the first call of its ancestor |
| `Histories.AncestorsToldFirst` | mcxt.c:360-370 | MemoryContextResetChildren goes in pre-order, so there the ancestor comes first |
| `Following.RedirectOutlives` | mcxt.c:1015-1020 | an aligned pointer stays one whatever its client writes behind it |
| `Following.StepFollows` | mcxt.c:1057-1111 | one request of any kind: a pointer that is not freed, bypassed or written in front of stays usable, plain or aligned, with the same owner and alignment, and keeps every byte that was neither cut off nor overwritten with another value |
| `Following.RunFollows` | mcxt.c:1057-1111 | over any run, through any number of its own reallocations, a pointer still stands for a chunk of the same context with the same alignment, and may be freed and reallocated again |
| `Following.RunKeepsByte` | alignedalloc.c:69-125 | over any run, every byte within the old size and within each size it was moved to, and not overwritten with another value, is still there |
| `Following.AllocatedOwner` | mcxt.c:638-641 | whatever became of a pointer since it was allocated, its owner is the context it was requested from and its address has the alignment asked for |

## Left out

- Malloc, CFree, Realloc: the C library is a contract, fresh disjoint aligned regions or null at any call; addresses are not bounded by 2^64.
- Block headers, context headers and tree nodes are records by address, not words of memory; that no payload overlaps where they are is proved (`PayloadIsPrivate`), that clients do not write there is assumed of clients, who write inside live payloads only.
- Callback structs are records of their own, owned by the client, which registration and removal update. Where memory of the context itself holds the same structs when a deletion or reset starts, reading them there gives the same calls (`ReadAtTurn`, `ReadBeforeReset`); that a client's struct in memory follows the record until then is not modelled. Callback bodies are not run, each call is logged; they are assumed not to touch the library.
- MemoryContextRegisterResetCallback: asks the caller for a struct that is on no list; `RegisterKeepsListsIff` shows that this is exactly what is needed.
- Words are unbounded integers; header words are shown to stay below 2^64, payload words are the client's.
- AllocSetStats: counts and totals only, without the formatted text; freespace is stated through what is in use.
- MemoryContextAllocAligned: asks the caller for a size that does not wrap when alignto is added; `RequestSufficesIff` shows that this is exactly what is needed.
- AlignedAllocRealloc: asks for the same.
- Repalloc: asks for the same, of aligned pointers only.
- AllocSetCheck: without the requested sizes and sentinels of the builds that contain it, as the model is one of the default build.
- MemoryContextSetParent: asks the caller that the new parent is not below the context; `SetParentKeepsForestIff` shows that this is exactly what is needed.
- MEMORY_CONTEXT_CHECKING (requested sizes and sentinels), Valgrind marks, wiping and randomising of memory.
- Context names and identifiers, the critical-section flag, the node tag.
- MemoryContextInit and the global contexts; asserts that compare with TopMemoryContext or CurrentMemoryContext.
- palloc, palloc0, palloc_extended, MemoryContextAllocZero, MemoryContextAllocHuge, repalloc0 and repalloc_huge: the functions modelled here with fixed arguments.
- pstrdup, pnstrdup, pchomp, add_size, mul_size and the palloc_mul family.
- The table entries for method IDs nothing uses: shown unreachable for every pointer a client holds, not modelled further.
