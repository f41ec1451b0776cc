# A verified model of the compute runtime's stateful core

The project models the parts of the Intel compute runtime that keep state, run loops over it or
compute with it, and proves properties that hold for every input, every run or every reachable
state. `dafny verify dfyconfig.toml` checks all of it.

- **Unified shared memory.** `UsmContext` is clHostMemAllocINTEL, clDeviceMemAllocINTEL,
  clSharedMemAllocINTEL, the free and the queries over three owners tried in a fixed order: device
  pool, host pool (`UsmPool`), SVM manager (`SvmManager`). Underneath are the pool's own
  best-fit allocator (`HeapAllocator`, on `Chunks` and `Alignment`) and the sorted vector of
  allocations with its binary search (`SortedVector`). `FlatHeap` says what the three owners are
  together: one flat set of disjoint ranges. Main results: every program of requests is a legal
  run of that flat heap in which each request is answered for what it asks; queries at any address
  of a live range answer with that range; a pool's backing allocation survives a free exactly when
  the address is outside the pool or the base of a chunk in use; the pool's allocator fails, and
  fails to return, exactly under conditions on the free space before the call.
- **Kernel arguments.** `KernelArgs` is clSetKernelArgSVMPointer with its fast path; `KernelArgRuns`
  decides, over every run with allocations and frees, exactly when the fast path agrees with the
  slow path. `KernelExecInfo` is the address lists of clSetKernelExecInfo. `KernelObjects` is
  clCreateKernelsInProgram with its rollback, down to the kernel objects per root device.
- **Events.** `EventGraph` is the passing on of status changes between events, `UserEvents` the
  calls of a program on user events and waiting commands. Main results: no command leaves the queue
  before the events it waits for, and none stays in it without an event that holds it back; the call that sets an error terminates exactly the open events
  that wait, directly or not, by then, and a command enqueued later is held in the queue until the
  terminated event is destroyed, which then passes the error on; a user event accepts one status
  change.
- **Platforms, devices, queues, sub-buffers.** `Platforms` and `Devices` are clGetPlatformIDs,
  clGetDeviceIDs and the two-phase query of clCreateContextFromType; `QueueProperties` is the
  property-list scanner and the four ways to create a queue; `SubBuffer` is clCreateSubBuffer.
- **Level Zero.** `DdiTables` is the negotiation of dispatch tables with the tracing overlay,
  `Teardown` the setup and teardown of the driver.
- **Build scripts.** `WorkWeek` is the work-week calculator.

Code that updates state is a class or a method proved against functions on values; the theorems
are about those functions and their runs. The invariants of the large owners are stated under a
guard (`Guards`), so that callers pass them on without opening them.

Where the code does something other than its documentation or a caller would expect, the model
follows the code:

- A host or device allocation that fails returns null and reports CL_SUCCESS.
- In a context with several root devices a shared request without a device is served from the cache
  of freed host allocations whenever one fits, and is then reported as host memory.
- `*numDevices` is the clipped count when an array is given.
- The allocator's retry loop does not end for some gaps when an alignment above 2 MB is asked for;
  pools never ask for one.
- clSetKernelArg leaves the null mark and the allocation id of an earlier SVM call in place, and
  kernels for several root devices are judged by their default device alone: in these cases the
  fast path skips a needed update.
- An error set on a user event does not reach commands that are enqueued on it later: they get it
  only when the event is destroyed.
- An alignment that is not a power of two is rounded up to pages and then need not be kept.
- A free of any address of an allocation of the manager frees all of it, a pool's backing included.
- A failed first clGetPlatformIDs that created some platforms fixes the list at those.
- A kernel whose creation fails on a later root device leaves the kernel objects of the earlier
  root devices behind, each holding a reference on the program.
- `origin + size` of a sub-buffer region is computed modulo 2^64; a region that wraps is accepted.
- Queue family and index are cut to 32 bits before they are checked.
- The work-week label is wrong in the New Year week that ends a year 99 or a year that is 100 past
  a multiple of 400.

## Model

| member | source | states |
|---|---|---|
| Chunks.OverlapCountsTwice | shared/source/utilities/heap_allocator.h:80-94 | an address in two chunks is counted twice, so counting at most once means disjoint chunks |
| Chunks.SortKeeps | shared/source/utilities/heap_allocator.cpp:175-207 | sorting chunks keeps the multiset of free bytes |
| HeapAllocators.HeapAllocator.constructor | shared/source/utilities/heap_allocator.h:34-41 | a new heap has exactly its own range free |
| HeapAllocators.HeapAllocator.StoreInFreedChunks | shared/source/utilities/heap_allocator.h:80-94 | storing a range adds exactly its bytes to the freed bytes; it joins a chunk exactly when one touches it |
| HeapAllocators.HeapAllocator.GetFromFreedChunks | shared/source/utilities/heap_allocator.cpp:118-173 | fails exactly when no aligned chunk is large enough; else takes an aligned range from a best-fitting chunk and removes exactly its bytes |
| HeapAllocators.HeapAllocator.MergeLastFreedSmall | shared/source/utilities/heap_allocator.h:96-107 | moving the gap's bound over a freed chunk keeps the set of free bytes |
| HeapAllocators.HeapAllocator.MergeLastFreedBig | shared/source/utilities/heap_allocator.h:109-120 | the same on the left side |
| HeapAllocators.HeapAllocator.CoalesceDescending | shared/source/utilities/heap_allocator.cpp:177-191 | neighbours are merged, no two adjacent chunks remain, the free bytes are the same |
| HeapAllocators.HeapAllocator.CoalesceAscending | shared/source/utilities/heap_allocator.cpp:192-206 | the same in the other order |
| HeapAllocators.HeapAllocator.Defragment | shared/source/utilities/heap_allocator.cpp:175-207 | defragmenting keeps the free bytes, leaves no adjacent chunks in a list, and no last chunk next to the gap; the new space is a function of the old one |
| HeapAllocators.HeapAllocator.AllocateWithCustomAlignment | shared/source/utilities/heap_allocator.cpp:21-89 | three outcomes, each exactly under a condition on the space before the call: a served range is free before and taken after, large enough, inside the heap and aligned as asked or to the retry alignment; out of memory, with no free byte changed; or a loop that does not end |
| HeapAllocators.HeapAllocator.Search | shared/source/utilities/heap_allocator.cpp:38-88 | the passes of the loop: which bytes are taken, and when it is stuck |
| HeapAllocators.ServesExact | shared/source/utilities/heap_allocator.cpp:46-78 | a space serves a request exactly when the gap has room at an aligned address, or a chunk of its class starts at one and is large enough |
| HeapAllocators.HeapAllocator.Release | shared/source/utilities/heap_allocator.cpp:91-111 | releasing a range makes exactly its bytes free again; next to the gap it goes to the gap, with the last chunk if that then touches it |
| HeapAllocators.StallingHeap | shared/source/utilities/heap_allocator.cpp:80-88 | a fresh heap and a request that fits in it, for which the call does not return |
| SortedVectors.Insert | shared/source/utilities/sorted_vector.h:36-45 | the entry is inserted, nothing else changes, and the order is kept |
| SortedVectors.GetImpl | shared/source/utilities/sorted_vector.h:54-82 | the binary search finds an entry exactly when one holds the address (or has it as base), and it is that entry |
| SortedVectors.Extract | shared/source/utilities/sorted_vector.h:84-92 | the entry with the base is removed, and only it |
| SortedVectors.Remove | shared/source/utilities/sorted_vector.h:47-52 | the same without handing it out |
| SortedVectors.HolderUnique | shared/source/utilities/sorted_vector.h:54-82 | at most one entry holds an address |
| SvmManagers.SvmAllocsManager.GetSVMAlloc | shared/source/memory_manager/unified_memory_manager.h:246-251 | the lookup finds an entry exactly when an allocation, live or saved, holds the address |
| SvmManagers.SvmAllocsManager.CacheGet | shared/source/memory_manager/unified_memory_manager.cpp:136-184 | a saved allocation is handed out exactly when one can serve the request: the first such entry, so a smallest one, as one new live range with its old identity and aligned as asked; without one nothing changes |
| SvmManagers.SvmAllocsManager.ServableExact | shared/source/memory_manager/unified_memory_manager.cpp:136-184 | what it takes to be served from the cache: kind, size, use of at least half from 256 KB on, device, flags, alignment, not in use; nothing above 256 MB |
| SvmManagers.SvmAllocsManager.Trim | shared/source/memory_manager/unified_memory_manager.cpp:186-207 | trimming takes exactly the saved blocks of this cache out of the tracker: no live range changes |
| SvmManagers.SvmAllocsManager.InsertSVMAlloc | shared/source/memory_manager/unified_memory_manager.cpp:1149-1158 | one live range is added, with a fresh identity |
| SvmManagers.SvmAllocsManager.CreateUnifiedMemoryAllocation | shared/source/memory_manager/unified_memory_manager.cpp:476-551 | a result other than null is one new live range apart from all others, of the size and kind asked for and aligned as asked; it comes from the device cache exactly when that is enabled and can serve the request; null changes no live range and means that the operating system refused exactly this block when first asked and when last asked |
| SvmManagers.SvmAllocsManager.CreateHostUnifiedMemoryAllocation | shared/source/memory_manager/unified_memory_manager.cpp:405-474 | the same for host memory and the host cache |
| SvmManagers.SvmAllocsManager.CreateSharedUnifiedMemoryAllocation | shared/source/memory_manager/unified_memory_manager.cpp:553-595 | the same for shared memory; it comes from the host cache, as host memory, exactly without a device among several root devices when that cache can serve it |
| SvmManagers.SvmAllocsManager.CreateInBothMemories | shared/source/memory_manager/unified_memory_manager.cpp:826-894 | the same where the memory is migrated, with the pages and the alignment of that path |
| SvmManagers.SvmAllocsManager.AsksExact | shared/source/memory_manager/unified_memory_manager.cpp:417-434 | the operating system is asked for the fewest whole pages that hold the request, aligned to pages and as asked, in the page size of each path |
| SvmManagers.RoundingExact | shared/source/memory_manager/unified_memory_manager.cpp:498-498 | what is aligned for the operating system is aligned as asked exactly when rounding to pages keeps the alignment a divisor, as it does for powers of two |
| SvmManagers.RoundingLosesOthers | shared/source/memory_manager/unified_memory_manager.cpp:498-498 | an alignment of 96 KB becomes 128 KB and need not be kept |
| SvmManagers.HostReuseRun | shared/source/memory_manager/unified_memory_manager.cpp:553-558 | a run in which a shared request comes back as host memory: host allocation, free, shared request without a device |
| SvmManagers.SvmAllocsManager.CacheInsert | shared/source/memory_manager/unified_memory_manager.cpp:63-107 | a freed allocation is saved exactly when it is no larger than 256 MB, reuse is not limited and the cache is not full: its range is not live any more, its block stays |
| SvmManagers.SvmAllocsManager.FreeSVMAlloc | shared/source/memory_manager/unified_memory_manager.cpp:651-677 | succeeds exactly when the address is tracked, and takes the range that holds it, if live, out of the live ranges; the entry is saved exactly when its kind has a cache that takes it, and else leaves the tracker |
| SvmManagers.LowerBound | shared/source/memory_manager/unified_memory_manager.cpp:141-143 | the first cache entry that is large enough |
| UsmPools.UsmMemAllocPool.Initialize | shared/source/memory_manager/unified_memory_pooling.cpp:20-43 | a pool starts empty, with the sizes given, on a backing allocation of the manager; it stays as it was exactly when the manager gets none, so when the operating system refused exactly that block |
| UsmPools.UsmMemAllocPool.CreateUnifiedMemoryAllocation | shared/source/memory_manager/unified_memory_pooling.cpp:99-118 | serves exactly the requests it may pool and has room for; a result other than null is one new chunk inside the pool, apart from the others, aligned, at least as large as asked; every pool address stays either free or in one chunk |
| UsmPools.UsmMemAllocPool.PoolsExact | shared/source/memory_manager/unified_memory_pooling.cpp:65-97 | which requests the pool takes: its memory type, no flags, a serviced size, whole chunks of alignment up to 2 MB |
| UsmPools.UsmMemAllocPool.GapServes | shared/source/memory_manager/unified_memory_pooling.cpp:99-118 | a request that the pool takes is served when the gap of its heap has room at an aligned address |
| UsmPools.UsmMemAllocPool.TakeChunk | shared/source/memory_manager/unified_memory_pooling.cpp:106-109 | alignments that pools allow never send the allocator into the endless retry |
| UsmPools.UsmMemAllocPool.FreeSVMAlloc | shared/source/memory_manager/unified_memory_pooling.cpp:128-139 | frees exactly the chunk with this base, and fails exactly when there is none |
| UsmPools.UsmMemAllocPool.GetPooledAllocationSize | shared/source/memory_manager/unified_memory_pooling.cpp:141-150 | the requested size of the chunk that holds the address, 0 for none |
| UsmPools.UsmMemAllocPool.GetPooledAllocationBasePtr | shared/source/memory_manager/unified_memory_pooling.cpp:152-161 | the base of the chunk that holds the address, 0 for none |
| UsmPools.TakeKeepsPartition | shared/source/memory_manager/unified_memory_pooling.cpp:99-118 | carving a chunk keeps the partition of the pool into free bytes and chunks |
| UsmPools.GiveKeepsPartition | shared/source/memory_manager/unified_memory_pooling.cpp:128-139 | returning one keeps it too |
| UsmContexts.Context.InitializeUsmAllocationPools | opencl/source/context/context.cpp:536-583 | pools are set up once, in a single-device context only; then every enabled pool has its backing allocation unless the operating system refused exactly that block; every other call changes no owner, and none changes the application's heap |
| UsmContexts.Context.PoolSizes | opencl/source/context/context.cpp:536-583 | the sizes of the two pools and of the requests they serve |
| UsmContexts.Context.PlaceHost | opencl/source/api/api.cpp:3980-3988 | pool, cache, operating system, in this order: the result lies in the pool exactly when the pool serves the request, and is not null when pool or cache can serve it |
| UsmContexts.Context.PlaceDevice | opencl/source/api/api.cpp:4044-4052 | the same for device memory |
| UsmContexts.Context.HostMemAlloc | opencl/source/api/api.cpp:3935-3989 | bad properties get CL_INVALID_VALUE, no bytes and, without the flag, more than the limit of the first device CL_INVALID_BUFFER_SIZE, and nothing else is refused; a result other than null adds one range of that size apart from all live ones, aligned as asked; a request that the pool serves lies in the pool; null with success means that the operating system refused exactly this block in the end and, once the pools are set up, that neither pool nor cache could serve it |
| UsmContexts.Context.DeviceMemAlloc | opencl/source/api/api.cpp:3991-4053 | the same for device memory, with the limit of the target device |
| UsmContexts.Context.SharedMemAlloc | opencl/source/api/api.cpp:4055-4119 | the same for shared memory, without a pool and with CL_OUT_OF_RESOURCES for null; a device of another context gets CL_INVALID_DEVICE; it is reported as host memory exactly when the host cache can serve a request without a device among several root devices |
| UsmContexts.Context.PropertiesExact | opencl/source/api/api.cpp:3958-4095 | the owners get alignment, flags, device and root devices as the request says |
| UsmContexts.Context.MemFree | opencl/source/api/api.cpp:4121-4149 | a live pointer is freed, it alone, with CL_SUCCESS; CL_INVALID_VALUE exactly for an address that is not tracked, changing nothing; at every other address the live range of the manager that holds it goes, and a pooled chunk stays; a pool's backing survives exactly when the address is outside the pool or the base of a chunk in use |
| UsmContexts.Context.GetBasePtr | opencl/source/api/api.cpp:4220-4239 | at any address of a live range the answer is its base, whoever owns it |
| UsmContexts.Context.GetSize | opencl/source/api/api.cpp:4240-4259 | at any address of a live range the answer is its size |
| UsmContexts.Context.GetType | opencl/source/api/api.cpp:4197-4219 | at any address of a live range the answer is its kind |
| UsmContexts.Context.Run | opencl/source/api/api.cpp:3935-4149 | every program of requests and frees is a legal run of one flat heap, which stays disjoint; exactly the requests with bad properties, no bytes or too many bytes without the flag are refused; every other gets size, kind and alignment as asked, in particular when pool or cache can serve it, or null after at most six questions to the operating system, which refused exactly this block in the last; every free of an own pointer takes it back with CL_SUCCESS, every free of an untracked address gets CL_INVALID_VALUE, and one of a tracked address that is not owned is not called; an initialized pool keeps its backing |
| UsmContexts.GenerousRun | opencl/source/api/api.cpp:3935-4119 | where the operating system never refuses, every ordinary request of any program is served |
| UsmContexts.OrdinaryRun | opencl/source/api/api.cpp:3935-4119 | a run in which a host, a device and a shared request of 4 KB, none with the flag, get their ranges |
| FlatHeaps.FlatDisjoint | opencl/source/api/api.cpp:3935-4149 | ranges of the three owners never overlap, backing allocations aside |
| FlatHeaps.PoolOwns | opencl/source/api/api.cpp:4226-4256 | an address of a live range is found in a pool exactly when that pool owns the range |
| FlatHeaps.ManagerHolds | opencl/source/api/api.cpp:4226-4256 | the manager tracks every live address, a pooled one through the pool's backing |
| FlatHeaps.RunStaysDisjoint | opencl/source/api/api.cpp:3935-4149 | a legal run keeps the heap disjoint at every moment |
| FlatHeaps.FreeUndoesAlloc | opencl/source/api/api.cpp:4121-4149 | freeing a range undoes its allocation |
| UsmContexts.ManagerFreeEffect | opencl/source/api/api.cpp:4139-4141 | a free that reaches the manager removes the live range with this base, if there is one, and a backing exactly when the address lies in the pool |
| UsmContexts.ManagerFreeExact | opencl/source/api/api.cpp:4139-4141 | the heap after a free by the manager, for every address |
| KernelArgs.MultiDeviceKernel.SetArgSvmAlloc | opencl/source/kernel/multi_device_kernel.cpp:81-93 | every device with memory of the allocation gets pointer, allocation and id, the others keep theirs |
| KernelArgs.MultiDeviceKernel.StoreCounter | opencl/source/kernel/multi_device_kernel.cpp:62-69 | the counter is stored on every device and nothing else changes |
| KernelArgs.MultiDeviceKernel.SetKernelArgSVMPointer | opencl/source/api/api.cpp:5122-5211 | the fast path leaves the records or refreshes the counter, the slow path stores pointer, allocation and id on every device concerned or refuses |
| KernelArgs.FastExact | opencl/source/api/api.cpp:5143-5170 | when the fast path returns: null by the null mark, a pointer by the recorded one, its number and the counter |
| KernelArgs.RecordsExact | opencl/source/api/api.cpp:5143-5208 | every field of every record after a call, fast, refused or slow |
| KernelArgRuns.StepKeepsInv | opencl/source/api/api.cpp:5143-5208 | allocations, frees and argument calls keep the relation between argument records and live blocks |
| KernelArgRuns.CacheAgreement | opencl/source/api/api.cpp:5143-5208 | over every run, a fast return for null or a live pointer leaves what the slow path would leave exactly when every device concerned last got this pointer |
| KernelArgRuns.DisciplinedAgreement | opencl/source/api/api.cpp:5143-5208 | if only SVM calls set the argument and live pointers have memory on the default device, the fast path always agrees, even for reused addresses |
| KernelArgRuns.NullMarkSurvivesSetKernelArg | opencl/source/api/api.cpp:5143-5208 | a run in which the fast path for null leaves a buffer in place |
| KernelArgRuns.DefaultDeviceHidesOthers | opencl/source/kernel/multi_device_kernel.cpp:81-93 | a run in which the second device keeps another pointer |
| KernelArgRuns.TrackerBlocks | shared/source/memory_manager/unified_memory_manager.cpp:1149-1158 | the manager's blocks are as the runs assume: identities unique and not above the counter |
| KernelExecInfo.IndirectKernel.SetPointers | opencl/source/api/api.cpp:5241-5275 | on every root device with a kernel the chosen list is that of all the addresses, or of those before the first unknown one, and the other list is the old one; CL_SUCCESS exactly when all are known |
| KernelObjects.ServeMeaning | opencl/source/kernel/multi_device_kernel.h:36-56 | exactly the root devices before the first failure get a kernel object, each one |
| KernelObjects.KernelHeap.CreatePerDevice | opencl/source/kernel/multi_device_kernel.h:36-52 | one object for every root device before the first failure, all of them without a reference, whether it fails or not |
| KernelObjects.KernelHeap.CreateHandle | opencl/source/kernel/multi_device_kernel.h:36-56 | a new handle with one reference and objects of its own, or no handle and the objects left behind |
| KernelObjects.KernelHeap.Release | opencl/source/api/api.cpp:1906-1926 | the last reference deletes the handle and gives up its kernel objects |
| KernelObjects.KernelHeap.Rollback | opencl/source/api/api.cpp:1865-1874 | every handle made is released once and in order, slots are null, the handles are those before the call |
| KernelObjects.KernelHeap.CreateKernelsInProgram | opencl/source/api/api.cpp:1830-1888 | all kernels live in their slots, or all released, slots up to the failure null, later slots untouched, and exactly the failed kernel's earlier objects left behind |
| KernelObjects.LeakExact | opencl/source/kernel/multi_device_kernel.h:36-52 | nothing is left behind exactly when the failure is on the first device |
| KernelObjects.DropNumbered | opencl/source/kernel/multi_device_kernel.cpp:16-22 | destroying a new handle undoes the creation of its kernel objects |
| Devices.CheckDeviceTypeAndFillDeviceID | opencl/source/api/api.cpp:175-186 | one device: written and counted, counted, passed over, or the stop at capacity |
| Devices.Enumerate | opencl/source/api/api.cpp:259-285 | writes exactly the first matches of the flattened, filtered device list that fit, touches no later slot, and counts all matches without an array |
| Devices.FilterCounts | opencl/source/api/api.cpp:175-186 | a device is selected as often as it is shown if its type is asked for, else never |
| Devices.SelectionExact | opencl/source/api/api.cpp:250-257 | a query for the default selects GPUs, one for all everything but devices that are nothing but custom, any other what shares a bit with it, among the devices shown |
| Devices.LimitExact | opencl/source/api/api.cpp:246-248 | a limit gives the answer for the first root devices, none or a large one that for all |
| Devices.RootsShown | opencl/source/api/api.cpp:261-283 | in composite mode exactly the root devices are shown, in order |
| Devices.SubDevicesShown | opencl/source/api/api.cpp:261-283 | in the other modes sub-devices are shown in order in place of their root device |
| Platforms.PlatformRegistry.GetPlatformIDs | opencl/source/api/api.cpp:62-133 | an empty list is filled with the platforms created before the first failure, any other is kept; a success exposes all platforms or the first so many in count and array, a failure writes nothing; the codes, each exactly |
| Platforms.PlatformListStability | opencl/source/api/api.cpp:86-133 | in every run the list changes only in a call that finds it empty, and every success answers with the front of one fixed list |
| Platforms.PartialBootSticks | opencl/source/api/api.cpp:107-119 | after a partly failed first call every later call succeeds with the shorter list |
| Platforms.PlatformRegistry.GetDeviceIDs | opencl/source/api/api.cpp:188-297 | for every argument the code, the count and the array: the first matches that fit, nothing after them, nothing at all on an error |
| Platforms.AnswerExact | opencl/source/api/api.cpp:208-292 | the codes in their order; a well-formed query succeeds exactly when its platform shows a device of the type, and writes only such |
| Platforms.DefaultIsGpu | opencl/source/api/api.cpp:254-257 | a query for the default type gets code, count and array of one for GPUs |
| Platforms.TargetExact | opencl/source/api/api.cpp:225-244 | the platform of a query: the one named, or the first of the list |
| Platforms.PlatformRegistry.CreateContextFromType | opencl/source/api/api.cpp:467-511 | the two queries succeed together, fill every slot, and give the whole filtered list |
| Platforms.TargetStays | opencl/source/api/api.cpp:489-503 | the second query is about the platform of the first |
| SubBuffers.ConflictExact | opencl/source/api/api.cpp:842-853 | for a well-formed parent the flags that pass are exactly those that ask for no right the parent lacks |
| SubBuffers.InheritedRights | opencl/source/api/api.cpp:855-863 | whatever the parent, a sub-buffer ends up with no right it lacks |
| SubBuffers.DeriveFlags | opencl/source/api/api.cpp:834-863 | flags given are kept, flags not given are the parent's, at most one host flag unless the parent has more |
| SubBuffers.RangeExact | opencl/source/api/api.cpp:882-887 | a region that passes lies in the parent exactly when origin plus size does not wrap |
| SubBuffers.InsidePasses | opencl/source/api/api.cpp:882-887 | every region inside its parent passes, the whole parent included |
| SubBuffers.WrappedRegion | opencl/source/api/api.cpp:882-887 | a region that passes and does not lie in the parent |
| SubBuffers.CreateSubBuffer | opencl/source/api/api.cpp:797-902 | for a well-formed parent the code follows from rights, region and alignment; the sub-buffer has no right its parent lacks and lies in it exactly when the region does not wrap |
| QueueProperties.PairsOfEncode | opencl/source/api/api.cpp:5388-5411 | the scan ends at the terminator whatever the values and whatever follows |
| QueueProperties.GetCmdQueueProperty | opencl/source/helpers/queue_helpers.h:134-154 | the value of the first pair with the key |
| QueueProperties.CheckKeys | opencl/source/api/api.cpp:5388-5411 | accepts exactly the lists of known keys |
| QueueProperties.QueueExact | opencl/source/api/api.cpp:5412-5519 | which lists give a queue |
| QueueProperties.CodesExact | opencl/source/api/api.cpp:5412-5489 | which code every other list gets |
| QueueProperties.OrderIrrelevant | opencl/source/api/api.cpp:5388-5489 | the outcome does not depend on the order of the pairs unless a known key is repeated with another value |
| QueueProperties.OrderExact | opencl/source/helpers/queue_helpers.h:134-154 | what a list asks for is the same in every order exactly when no known key has two values |
| QueueProperties.RepeatedKeyOrderMatters | opencl/source/helpers/queue_helpers.h:134-154 | two orders of a list, one refused and one giving a queue |
| QueueProperties.FamilyIsCut | opencl/source/api/api.cpp:5463-5479 | family 2^32 passes as family 0 |
| QueueProperties.FamilyCheckExact | opencl/source/api/api.cpp:5463-5479 | the queue asked for exists exactly when the check passes and both values are below 2^32 |
| QueueProperties.CreateCommandQueueWithProperties | opencl/source/api/api.cpp:5355-5527 | the outcome for every list, and no on-device bit on any queue |
| QueueProperties.CreateCommandQueue | opencl/source/api/api.cpp:573-626 | the outcome is that of the list with this one pair; bits other than out-of-order and profiling are refused, so no on-device bit |
| QueueProperties.CreatePerfCountersCommandQueue | opencl/source/api/api.cpp:3857-3921 | a queue results exactly for a profiling word without other bits than out-of-order, and has these bits |
| EventGraph.SetStatusCounted | opencl/source/event/event.cpp:602-632 | the parent counter of every event stays the number of its links |
| EventGraph.SetStatusOrderly | opencl/source/event/event.cpp:602-632 | blocked events stay queued or are terminated, queued events keep their links |
| EventGraph.SubmissionOrder | opencl/source/event/event.cpp:866-890 | while an event is queued, what waits for it is queued or terminated |
| EventGraph.ReleaseExact | opencl/source/event/event.cpp:864-890 | a change to complete or submitted submits exactly the queued events whose last link it takes, and those that they release in turn; no other event changes |
| EventGraph.SetStatusTerminates | opencl/source/event/event.cpp:571-632 | an error changes open events to that error only, and leaves no open child behind |
| EventGraph.ErrorReachesAll | opencl/source/event/event.cpp:571-632 | an error reaches the end of every chain of open waiting events |
| EventGraph.ErrorExact | opencl/source/event/event.cpp:571-632 | an open event gets the error exactly when open links lead to it; else it keeps its status |
| EventGraph.DestroyedExact | opencl/source/event/event.cpp:89-136 | the same for the error of an event that is destroyed, -1 if it was open |
| EventGraph.SetStatusWithin | opencl/source/event/event.cpp:571-632 | nothing outside a set of events that no link leads out of is touched |
| EventGraph.SetStatusFinal | opencl/source/event/event.cpp:602-609 | a complete or terminated event keeps its status and its links, and without an error none is terminated |
| EventGraph.AddChildInv | opencl/source/event/event.cpp:558-569 | adding a link keeps all of this |
| EventGraph.Events.Change | opencl/source/event/event.cpp:602-632 | the in-place change, with its recursion over children, is the change on values that the lemmas are about |
| EventGraph.Events.UnblockChildren | opencl/source/event/event.cpp:571-600 | links are detached, then every child is told once |
| EventGraph.Events.TellChild | opencl/source/event/event.cpp:864-890 | a child with other links left is told of errors only; one without is submitted |
| EventGraph.Events.Link | opencl/source/event/event.cpp:558-569 | the child of a complete event is told at once |
| EventGraph.Events.End | opencl/source/event/event.cpp:89-136 | an open event is terminated with -1, and the children left are told the last status |
| UserEvents.CommandsWait | opencl/source/event/event_builder.cpp:44-67 | in every program, a command is not submitted while an event it waits for is queued |
| UserEvents.QueuedHasReason | opencl/source/event/event.cpp:864-890 | in every run a queued command still waits for an event that exists and is queued or terminated, or submitted and linked late |
| UserEvents.CompletionReleases | opencl/source/event/event.cpp:864-890 | a user event that completes or a command that finishes submits exactly the commands whose last link that was, and those that they release in turn |
| UserEvents.EnqueueExact | opencl/source/event/event_builder.cpp:44-67 | a new command is queued exactly while an event of its list is queued, terminated or linked late, and else submitted at once; no other event changes |
| UserEvents.QuickRun | opencl/source/event/event_builder.cpp:44-67 | a run in which a command waits for a user event and is submitted when that completes, and one without a wait list that is submitted at once |
| UserEvents.EnqueueWaits | opencl/source/event/event_builder.cpp:44-67 | a new command waits for every event of its list that is still queued |
| UserEvents.LifeCycle | opencl/source/api/api.cpp:2225-2253 | in every run a user event accepts at most one status, is reported as submitted before and as that status ever after, and ends with -1 if it is destroyed first |
| UserEvents.FinishedForever | opencl/source/event/event.cpp:602-609 | in every run a finished event keeps its status and no new one is accepted |
| UserEvents.ErrorRefusesForever | opencl/source/api/api.cpp:6338-6345 | once an error was accepted every later list with the event is refused |
| UserEvents.ErrorTerminatesWaiters | opencl/source/event/event.h:200-205 | the call that sets an error terminates exactly the open events that wait for the event, directly or not, by then; the other open ones keep their status |
| UserEvents.LateCommandIsQueued | opencl/source/event/event_builder.cpp:44-67 | a command enqueued on an event already terminated is linked to it and queued |
| UserEvents.LateCommandWaits | opencl/source/event/event.cpp:558-569 | in every run, while the terminated event exists, what is linked to it is not submitted |
| UserEvents.DestroyPassesOn | opencl/source/event/event.cpp:89-136 | the end of an event passes its error on to exactly the open events that wait for it |
| UserEvents.LateCommandGetsError | opencl/source/event/event.cpp:134-135 | a late command waits through every run and gets the error, if no other came first, when the event is destroyed |
| UserEvents.LateRun | opencl/source/event/event.cpp:558-569 | a run with a user event at -5 and a command that waits for it and is queued; destroying the event gives the command -5 |
| UserEvents.NextKeeps | opencl/source/api/api.cpp:2161-2253 | every call keeps the invariant and all user events that it neither sets nor destroys |
| UserEvents.ClEvents.SetUserEventStatus | opencl/source/api/api.cpp:2225-2253 | an error code exactly for another object, a status above complete, or an event that has its status already, and then nothing changes; else the status spreads as the release and error laws say |
| UserEvents.ClEvents.CreateUserEvent | opencl/source/api/api.cpp:2161-2184 | a new user event, queued and linked to nothing |
| UserEvents.ClEvents.FinishCommand | opencl/source/event/event.cpp:541-552 | a submitted command completes and tells the children it still has |
| UserEvents.ClEvents.DestroyEvent | opencl/source/event/event.cpp:89-136 | an event without links to it ends: the links it has are told, and it is not usable any more |
| UserEvents.ClEvents.GetExecutionStatus | opencl/source/api/api.cpp:2137-2148 | the initial status is reported as submitted |
| UserEvents.ClEvents.CheckWaitList | opencl/source/api/api.cpp:6338-6345 | refused exactly when the list holds a terminated event |
| UserEvents.ClEvents.CollectParents | opencl/source/event/event_builder.cpp:22-43 | each event of the list once |
| UserEvents.ClEvents.EnqueueCommand | opencl/source/event/event_builder.cpp:44-67 | links are made under the protection of a sentinel |
| DdiTables.NoSelfCapture | level_zero/api/core/ze_core_loader.cpp:32-58 | in every run of loader calls no saved copy ever holds a tracing wrapper |
| DdiTables.WrappersResolve | level_zero/api/core/ze_core_loader.cpp:305-382 | every wrapper in any caller's table calls the driver's function of its slot |
| DdiTables.UnsafeCaptures | level_zero/ddi/ze_ddi_tables.h:27-32 | the condition on required versions is needed: otherwise two calls capture a wrapper |
| DdiTables.CoreSafe | level_zero/api/core/ze_core_loader.cpp:31-795 | the tables of the core loader meet the condition |
| DdiTables.CoreTraced | level_zero/api/core/ze_core_loader.cpp:31-795 | every traced slot of every core table holds its wrapper after a traced call of any supported version, and its own function after another |
| DdiTables.CoreSaved | level_zero/api/core/ze_core_loader.cpp:31-795 | all core tables with wrappers are saved |
| DdiTables.VersionMonotone | level_zero/ddi/ze_ddi_tables.h:27-32 | on fresh tables, traced or not, an older loader gets the newer one's table restricted to the slots it knows |
| DdiTables.TracingFillsTheSame | level_zero/api/core/ze_core_loader.cpp:305-382 | with tracing the same slots are filled |
| DdiTables.Loader.GetProcAddrTable | level_zero/api/core/ze_core_loader.cpp:32-58 | slot by slot: a wrapper exactly where there is one that the version has and tracing is on, else the own function if the version has it, else what the caller had; the copy is saved before the wrappers are laid over; a rejected call changes nothing, and the call is the step that the runs are made of |
| DdiTables.StepKeeps | level_zero/api/core/ze_core_loader.cpp:32-58 | every call keeps the relation between callers' tables and saved copies |
| Teardown.Ownership | level_zero/core/source/global_teardown.cpp:22-73 | in every run the flags are equal and say whether the list exists, and nothing is deleted twice |
| Teardown.TearDownExact | level_zero/core/source/global_teardown.cpp:53-66 | a driver of the calling process is deleted once, one of another process never |
| Teardown.SysmanTornDown | level_zero/core/source/global_teardown.cpp:66-69 | the sysman driver is deleted once, by whatever process tears down |
| Teardown.CreatedExact | level_zero/core/source/driver/driver.cpp:76-83 | a driver for each group that has one, in order, of the calling process |
| Teardown.TearDownTwice | level_zero/core/source/global_teardown.cpp:53-73 | a second teardown changes nothing |
| Teardown.GlobalDriver.SetUp | level_zero/core/source/global_teardown.cpp:22-28 | all three flags are set, and a list that exists keeps its drivers |
| Teardown.GlobalDriver.Shut | level_zero/core/source/global_teardown.cpp:53-73 | the drivers of the calling process are deleted in order, the list, the sysman driver and the flags are gone |
| Teardown.GlobalDriver.InitializeDrivers | level_zero/core/source/driver/driver.cpp:75-101 | drivers are registered, or deleted again when the metric interface fails |
| WorkWeek.LeapTestExact | scripts/neo_ww_calculator.py:22-24 | the two-digit leap test is the Gregorian rule exactly outside the centuries that are not leap years |
| WorkWeek.LabelExact | scripts/neo_ww_calculator.py:13-35 | the label is the meant one exactly outside the New Year weeks of the bad years |
| WorkWeek.SameWeekSameLabel | scripts/neo_ww_calculator.py:26-35 | two dates of one Sunday-to-Saturday week get one label, over New Year too, exactly unless a bad year ends between them |
| WorkWeek.SplitWeeks | scripts/neo_ww_calculator.py:26-35 | weeks around the year 2100 and its like that get two labels |
| WorkWeek.NextWeekLabel | scripts/neo_ww_calculator.py:26-35 | a week on, the label counts up or starts the next year, exactly outside the bad New Year weeks |
| WorkWeek.NextWeekMeant | scripts/neo_ww_calculator.py:26-35 | the same of the meant label, without exception |
| WorkWeek.WeekNumberRange | scripts/neo_ww_calculator.py:26-35 | the week number is between 1 and 53 |
| WorkWeek.MeantLabelsDiffer | scripts/neo_ww_calculator.py:26-35 | different weeks are meant to have different labels |

## Left out

- HeapAllocators.HeapAllocator.AllocateWithCustomAlignment: requests of 0 bytes are not modelled, as
  no caller makes them, and addresses do not wrap.
- EventGraph.Events.Change: callbacks, task levels and the submission of the command itself are not
  modelled.
- Threads and locks: every call is one step, so races inside a call (the reason `late` exists in
  `UserEvents.Enqueue`) appear only as extra inputs.
- Checks of handles and contexts by `validateObjects`, callbacks, reference counts of objects other
  than kernels, tracing hooks, logging and debug flags, which keep their neutral values.
- Placement by the operating system is a function of time, held blocks, size and alignment that
  never hands out overlapping, null or misaligned memory; whether devices, platforms, kernels and queues can be created is
  an input.
- Deferred frees (`freeSVMAllocDefer`), the timed cleaner of the reuse caches, pending map
  operations, and the manager of several pools per device.
- SvmManagers.SvmAllocsManager.CreateInBothMemories: sizes are rounded by remainder, not by bit mask,
  which differs for an alignment that is not a power of two; the second allocation on the device is
  part of the one answer of the operating system.
- 64-bit wrap-around of addresses in the heap allocator and 32-bit wrap-around of the allocation
  counter: both are plain integers.
- Flag and device queries of clGetMemAllocInfoINTEL, which read one field of the tracked entry.
- Exec-info lists of more than 2^32 pointers, whose 32-bit loop index would wrap.
- The property list of clCreateContextFromType: its platform is an input.
- Task levels, profiling and GPU hangs of events; a command that the device finishes is an event of
  the run.
- When the last reference to an event is dropped, which is a call of the run, possible while no link
  leads to it: references that a blocked command itself keeps on its wait list
  (opencl/source/helpers/task_information.cpp:449-461) can put that off.
- The tools and sysman loaders, image and program code, enqueue back ends, clRetain and clRelease
  of the other objects: they would add only easy members.
