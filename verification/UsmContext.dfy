/** The USM entry points of the OpenCL API over their three owners: device pool, host pool,
    SVM manager, tried in that order. */
module UsmContexts {
  import opened Options
  import opened ClTypes
  import opened Alignment
  import opened HeapAllocators
  import opened SortedVectors
  import opened SvmManagers
  import opened UsmPools
  import opened FlatHeaps
  import opened Guards

  datatype MemAllocType = UnknownType | HostType | DeviceType | SharedType

  function TypeOf(kind: MemoryType): MemAllocType {
    match kind
    case DeviceMemory => DeviceType
    case HostMemory => HostType
    case SharedMemory => SharedType
  }

  ghost function StateOf(pool: UsmMemAllocPool): PoolState
    reads pool
  {
    PoolState(pool.pool, pool.poolEnd, pool.poolMemoryType, pool.allocations)
  }

  class Context {
    const svm: SvmAllocsManager
    const devicePool: UsmMemAllocPool
    const hostPool: UsmMemAllocPool
    const device: Device
    const rootDeviceIndices: seq<nat>
    const isSingleDeviceContext: bool
    const devicePoolEnabled: bool
    const hostPoolEnabled: bool
    const is2MBLocalMemAlignmentEnabled: bool
    var usmPoolInitialized: bool

    /** The owners are separate objects, each well formed, and fit together. */
    ghost predicate Sound()
      reads svm, devicePool, hostPool, devicePool.chunkAllocator, hostPool.chunkAllocator
    {
      && rootDeviceIndices != []
      && devicePool != hostPool
      && (devicePool.chunkAllocator != null ==> devicePool.chunkAllocator != hostPool.chunkAllocator)
      && svm.Valid() && devicePool.Valid() && hostPool.Valid()
      && BackingsListed(svm.svmAllocs, StateOf(devicePool), StateOf(hostPool))
      && (devicePool.pool != 0 ==> devicePoolEnabled && devicePool.Shaped(DevicePoolSize(), 0, DevicePoolServes()))
      && (hostPool.pool != 0 ==> hostPoolEnabled && hostPool.Shaped(HOST_POOL_SIZE, 0, HOST_POOL_SERVES))
    }

    function DevicePoolSize(): nat {
      if is2MBLocalMemAlignmentEnabled then 16 * MEGABYTE else 2 * MEGABYTE
    }

    function DevicePoolServes(): nat {
      if is2MBLocalMemAlignmentEnabled then 2 * MEGABYTE else MEGABYTE
    }

    /** The requests for the backing allocations. */
    function DevicePoolProperties(): Properties {
      Properties(DeviceMemory, PAGE_SIZE_2M, Flags(false, false, 0, 0), Some(device), rootDeviceIndices)
    }

    function HostPoolProperties(): Properties {
      Properties(HostMemory, PAGE_SIZE_2M, Flags(false, false, 0, 0), None, rootDeviceIndices)
    }

    /** The pools are of 2 MB for requests up to 1 MB, or with 2 MB alignment of local memory the
        device pool is of 16 MB for requests up to 2 MB. */
    lemma PoolSizes()
      requires Valid()
      ensures devicePool.pool != 0 ==>
                var big := is2MBLocalMemAlignmentEnabled;
                && devicePool.poolMemoryType == DeviceMemory && devicePool.minServicedSize == 0
                && devicePool.poolEnd - devicePool.pool == (if big then 0x100_0000 else 0x20_0000)
                && devicePool.maxServicedSize == (if big then 0x20_0000 else 0x10_0000)
      ensures hostPool.pool != 0 ==>
                && hostPool.poolMemoryType == HostMemory && hostPool.minServicedSize == 0
                && hostPool.poolEnd - hostPool.pool == 0x20_0000 && hostPool.maxServicedSize == 0x10_0000
    {
    }

    /** The owners get what the request says. */
    lemma PropertiesExact(target: Device, device: Option<Device>, args: Args)
      ensures HostProperties(args) == Properties(HostMemory, args.alignment, args.flags, None, rootDeviceIndices)
      ensures DeviceProperties(target, args) ==
              Properties(DeviceMemory, args.alignment, args.flags, Some(target), rootDeviceIndices)
      ensures SharedProperties(device, args) ==
              Properties(SharedMemory, args.alignment, args.flags, device, rootDeviceIndices)
    {
    }

    /** The invariants of the owners, opened. */
    lemma OwnersHold()
      requires Sound()
      ensures Owners(svm.svmAllocs, StateOf(devicePool), StateOf(hostPool))
    {
      svm.Open();
      devicePool.Open();
      hostPool.Open();
    }

    ghost predicate Valid()
      reads this`usmPoolInitialized, svm, devicePool, hostPool, devicePool.chunkAllocator, hostPool.chunkAllocator
    {
      && Sound()
      && (!usmPoolInitialized ==> devicePool.pool == 0 && hostPool.pool == 0)
    }

    /** The live allocations of the application. */
    ghost function Heap(): set<Range>
      reads svm, devicePool, hostPool
    {
      HeapOf(svm.svmAllocs, StateOf(devicePool), StateOf(hostPool))
    }

    constructor (svm: SvmAllocsManager, devicePool: UsmMemAllocPool, hostPool: UsmMemAllocPool, device: Device,
                 rootDeviceIndices: seq<nat>, isSingleDeviceContext: bool, devicePoolEnabled: bool,
                 hostPoolEnabled: bool, is2MB: bool)
      requires svm.Valid() && svm.Live() == {}
      requires devicePool != hostPool && devicePool.Valid() && hostPool.Valid()
      requires devicePool.pool == 0 && hostPool.pool == 0
      requires devicePool.chunkAllocator == null && hostPool.chunkAllocator == null
      requires rootDeviceIndices != []
      ensures Valid() && Heap() == {}
      ensures this.svm == svm && this.devicePool == devicePool && this.hostPool == hostPool && this.device == device
      ensures this.rootDeviceIndices == rootDeviceIndices && this.isSingleDeviceContext == isSingleDeviceContext
      ensures this.devicePoolEnabled == devicePoolEnabled && this.hostPoolEnabled == hostPoolEnabled
      ensures this.is2MBLocalMemAlignmentEnabled == is2MB && !usmPoolInitialized
    {
      this.svm, this.devicePool, this.hostPool := svm, devicePool, hostPool;
      this.device, this.rootDeviceIndices := device, rootDeviceIndices;
      this.isSingleDeviceContext := isSingleDeviceContext;
      this.devicePoolEnabled, this.hostPoolEnabled := devicePoolEnabled, hostPoolEnabled;
      this.is2MBLocalMemAlignmentEnabled := is2MB;
      usmPoolInitialized := false;
      devicePool.Open();
      hostPool.Open();
    }

    /** A pool keeps its heap allocator or gets a new one, and keeps its backing once it has one. */
    twostate predicate PoolKept(pool: UsmMemAllocPool)
      reads pool
    {
      && (pool.chunkAllocator == old(pool.chunkAllocator) || fresh(pool.chunkAllocator))
      && (old(pool.pool) != 0 ==> pool.pool == old(pool.pool) && pool.poolEnd == old(pool.poolEnd))
    }

    twostate predicate PoolsKept()
      reads devicePool, hostPool
    {
      PoolKept(devicePool) && PoolKept(hostPool)
    }

    /** The OS was asked at most `n` times. */
    twostate predicate Ticks(n: nat)
      reads svm
    {
      old(svm.clock) <= svm.clock <= old(svm.clock) + n
    }

    /** An allocation: null, and the OS refused exactly this block in the end; or one new range of
        that size and kind, aligned as asked. */
    twostate predicate Allocates(ptr: nat, extent: nat, size: nat, kind: MemoryType, alignment: nat, ask: Ask)
      reads svm, devicePool, hostPool
    {
      && (ptr == 0 ==> Heap() == old(Heap()) && svm.clock > old(svm.clock) && svm.LastRefused(ask))
      && (ptr != 0 ==>
            size <= extent && Added(old(Heap()), Heap(), Range(ptr, extent, size, kind)) && AlignedAs(ptr, alignment))
    }

    /** The first call in a single-device context sets up every enabled pool, unless the OS refuses its
        backing allocation; no other call does. */
    twostate predicate SetUpOnce()
      reads this`usmPoolInitialized, svm, devicePool, hostPool
    {
      && usmPoolInitialized == (old(usmPoolInitialized) || isSingleDeviceContext)
      && (!old(Settled()) && devicePoolEnabled && devicePool.pool == 0 ==>
            svm.env.Refuses(old(svm.clock), HeldOf(old(svm.svmAllocs)),
                            svm.DeviceAsk(DevicePoolSize(), DevicePoolProperties())))
      && (!old(Settled()) && !devicePoolEnabled && hostPoolEnabled && hostPool.pool == 0 ==>
            svm.env.Refuses(old(svm.clock), HeldOf(old(svm.svmAllocs)),
                            svm.DeviceAsk(HOST_POOL_SIZE, HostPoolProperties())))
      && (!old(Settled()) && hostPoolEnabled && (forall t, held, ask :: !svm.env.Refuses(t, held, ask)) ==>
            hostPool.pool != 0)
    }

    method InitializeDevicePool()
      requires Sound() && devicePool.pool == 0 && devicePoolEnabled
      modifies devicePool, svm
      ensures Sound() && PoolsKept() && Ticks(2) && Heap() == old(Heap())
      ensures devicePool.pool == 0 ==>
                var p := DevicePoolProperties();
                svm.env.Refuses(old(svm.clock), HeldOf(old(svm.svmAllocs)), svm.DeviceAsk(DevicePoolSize(), p))
    {
      ghost var a, d, h := svm.svmAllocs, StateOf(devicePool), StateOf(hostPool);
      OwnersHold();
      var ok := devicePool.Initialize(svm, DevicePoolProperties(), DevicePoolSize(), 0, DevicePoolServes());
      if ok {
        DevicePoolStarts(a, svm.svmAllocs, d, StateOf(devicePool), h);
      }
    }

    method InitializeHostPool()
      requires Sound() && hostPool.pool == 0 && hostPoolEnabled
      modifies hostPool, svm
      ensures Sound() && PoolsKept() && Ticks(2) && Heap() == old(Heap())
      ensures hostPool.pool == 0 ==>
                var ask := svm.DeviceAsk(HOST_POOL_SIZE, HostPoolProperties());
                svm.LastRefused(ask) && svm.env.Refuses(old(svm.clock), HeldOf(old(svm.svmAllocs)), ask)
    {
      ghost var a, d, h := svm.svmAllocs, StateOf(devicePool), StateOf(hostPool);
      OwnersHold();
      var ok := hostPool.Initialize(svm, HostPoolProperties(), HOST_POOL_SIZE, 0, HOST_POOL_SERVES);
      if ok {
        HostPoolStarts(a, svm.svmAllocs, d, h, StateOf(hostPool));
      }
    }

    /** On the first pooled request of a single-device context, and never again.  An enabled pool
        is set up unless the OS refuses its backing allocation. */
    method InitializeUsmAllocationPools()
      requires Valid()
      modifies this`usmPoolInitialized, svm, devicePool, hostPool
      ensures Valid() && PoolsKept() && Ticks(4) && Heap() == old(Heap())
      ensures SetUpOnce()
      ensures old(Settled()) ==> unchanged(svm, devicePool, hostPool)
      ensures !old(Settled()) && devicePoolEnabled && devicePool.pool == 0 ==>
                var p := DevicePoolProperties();
                svm.env.Refuses(old(svm.clock), HeldOf(old(svm.svmAllocs)), svm.DeviceAsk(DevicePoolSize(), p))
      ensures !old(Settled()) && hostPoolEnabled && hostPool.pool == 0 ==>
                svm.LastRefused(svm.DeviceAsk(HOST_POOL_SIZE, HostPoolProperties()))
    {
      if usmPoolInitialized || !isSingleDeviceContext {
        return;
      }
      SetUpPools();
      usmPoolInitialized := true;
    }

    method SetUpPools()
      requires Sound() && devicePool.pool == 0 && hostPool.pool == 0
      modifies svm, devicePool, hostPool
      ensures Sound() && PoolsKept() && Ticks(4) && Heap() == old(Heap())
      ensures devicePoolEnabled && devicePool.pool == 0 ==>
                var p := DevicePoolProperties();
                svm.env.Refuses(old(svm.clock), HeldOf(old(svm.svmAllocs)), svm.DeviceAsk(DevicePoolSize(), p))
      ensures hostPoolEnabled && hostPool.pool == 0 ==>
                var ask := svm.DeviceAsk(HOST_POOL_SIZE, HostPoolProperties());
                && svm.LastRefused(ask)
                && (!devicePoolEnabled ==> svm.env.Refuses(old(svm.clock), HeldOf(old(svm.svmAllocs)), ask))
    {
      if devicePoolEnabled {
        InitializeDevicePool();
      }
      if hostPoolEnabled {
        InitializeHostPool();
      }
    }

    /** No pool will be set up any more. */
    predicate Settled()
      reads this`usmPoolInitialized
    {
      usmPoolInitialized || !isSingleDeviceContext
    }

    method CreateInDevicePool(size: nat, p: Properties) returns (ptr: nat, ghost extent: nat)
      requires Valid() && size > 0
      modifies svm`allocationsCounter, devicePool`allocations, devicePool.chunkAllocator
      ensures Valid()
      ensures ptr != 0 <==> old(devicePool.Pools(size, p))
      ensures ptr == 0 ==> Heap() == old(Heap()) && unchanged(svm)
      ensures ptr != 0 ==>
                && devicePool.IsInPool(ptr) && size <= extent && AlignedAs(ptr, p.alignment)
                && Added(old(Heap()), Heap(), Range(ptr, extent, size, p.memoryType))
    {
      ghost var a, d, h := svm.svmAllocs, StateOf(devicePool), StateOf(hostPool);
      OwnersHold();
      ptr, extent := TakeFromDevicePool(size, p);
      if ptr != 0 {
        DevicePoolGrows(a, d, StateOf(devicePool), h, Range(ptr, extent, size, p.memoryType));
      }
    }

    method TakeFromDevicePool(size: nat, p: Properties) returns (ptr: nat, ghost extent: nat)
      requires Valid() && size > 0
      modifies svm`allocationsCounter, devicePool`allocations, devicePool.chunkAllocator
      ensures Valid()
      ensures ptr != 0 <==> old(devicePool.Pools(size, p))
      ensures ptr == 0 ==> unchanged(svm, devicePool)
      ensures ptr != 0 ==>
                && devicePool.pool != 0 && p.memoryType == devicePool.poolMemoryType && AlignedAs(ptr, p.alignment)
                && size <= extent && devicePool.pool <= ptr && ptr + extent <= devicePool.poolEnd
                && Added(old(devicePool.Live()), devicePool.Live(), Range(ptr, extent, size, p.memoryType))
    {
      ptr, extent := devicePool.CreateUnifiedMemoryAllocation(svm, size, p);
    }

    method CreateInHostPool(size: nat, p: Properties) returns (ptr: nat, ghost extent: nat)
      requires Valid() && size > 0
      modifies svm`allocationsCounter, hostPool`allocations, hostPool.chunkAllocator
      ensures Valid()
      ensures ptr != 0 <==> old(hostPool.Pools(size, p))
      ensures ptr == 0 ==> Heap() == old(Heap()) && unchanged(svm)
      ensures ptr != 0 ==>
                && hostPool.IsInPool(ptr) && size <= extent && AlignedAs(ptr, p.alignment)
                && Added(old(Heap()), Heap(), Range(ptr, extent, size, p.memoryType))
    {
      ghost var a, d, h := svm.svmAllocs, StateOf(devicePool), StateOf(hostPool);
      OwnersHold();
      ptr, extent := TakeFromHostPool(size, p);
      if ptr != 0 {
        HostPoolGrows(a, d, h, StateOf(hostPool), Range(ptr, extent, size, p.memoryType));
      }
    }

    method TakeFromHostPool(size: nat, p: Properties) returns (ptr: nat, ghost extent: nat)
      requires Valid() && size > 0
      modifies svm`allocationsCounter, hostPool`allocations, hostPool.chunkAllocator
      ensures Valid()
      ensures ptr != 0 <==> old(hostPool.Pools(size, p))
      ensures ptr == 0 ==> unchanged(svm, hostPool)
      ensures ptr != 0 ==>
                && hostPool.pool != 0 && p.memoryType == hostPool.poolMemoryType && AlignedAs(ptr, p.alignment)
                && size <= extent && hostPool.pool <= ptr && ptr + extent <= hostPool.poolEnd
                && Added(old(hostPool.Live()), hostPool.Live(), Range(ptr, extent, size, p.memoryType))
    {
      ptr, extent := hostPool.CreateUnifiedMemoryAllocation(svm, size, p);
    }

    /** Pool first, then manager. */
    method PlaceHost(size: nat, p: Properties) returns (ptr: nat, ghost extent: nat)
      requires Valid() && size > 0 && p.memoryType == HostMemory
      modifies svm, hostPool`allocations, hostPool.chunkAllocator
      ensures Valid() && Ticks(2)
      ensures Allocates(ptr, extent, size, HostMemory, p.alignment, svm.HostAsk(size, p))
      ensures old(HostReady(size, p)) ==> ptr != 0
      ensures ptr != 0 ==> (hostPool.IsInPool(ptr) <==> old(hostPool.Pools(size, p)))
    {
      ptr, extent := CreateInHostPool(size, p);
      if ptr == 0 {
        ptr := CreateHost(size, p);
        extent := size;
      }
    }

    method PlaceDevice(size: nat, p: Properties) returns (ptr: nat, ghost extent: nat)
      requires Valid() && size > 0 && p.memoryType == DeviceMemory && p.device.Some?
      modifies svm, devicePool`allocations, devicePool.chunkAllocator
      ensures Valid() && Ticks(2)
      ensures Allocates(ptr, extent, size, DeviceMemory, p.alignment, svm.DeviceAsk(size, p))
      ensures old(DeviceReady(size, p)) ==> ptr != 0
      ensures ptr != 0 ==> (devicePool.IsInPool(ptr) <==> old(devicePool.Pools(size, p)))
    {
      ptr, extent := CreateInDevicePool(size, p);
      if ptr == 0 {
        ptr := CreateDevice(size, p);
        extent := size;
      }
    }

    /** Pool or cache can serve the request without the OS. */
    ghost predicate HostReady(size: nat, p: Properties)
      reads svm, hostPool, hostPool.chunkAllocator
    {
      hostPool.Pools(size, p) || (svm.hostCacheEnabled && svm.Servable(HostMemory, size, p))
    }

    ghost predicate DeviceReady(size: nat, p: Properties)
      reads svm, devicePool, devicePool.chunkAllocator
    {
      devicePool.Pools(size, p) || (svm.deviceCacheEnabled && svm.Servable(DeviceMemory, size, p))
    }

    method ServeHost(size: nat, p: Properties) returns (ptr: nat, ghost extent: nat)
      requires Valid() && size > 0 && p.memoryType == HostMemory
      modifies this`usmPoolInitialized, svm, devicePool, hostPool, hostPool.chunkAllocator
      ensures Valid() && PoolsKept() && Ticks(6) && SetUpOnce()
      ensures Allocates(ptr, extent, size, HostMemory, p.alignment, svm.HostAsk(size, p))
      ensures old(Settled() && HostReady(size, p)) ==> ptr != 0
      ensures old(hostPool.Pools(size, p)) ==> ptr != 0 && hostPool.IsInPool(ptr)
    {
      InitializeUsmAllocationPools();
      ptr, extent := PlaceHost(size, p);
    }

    method ServeDevice(size: nat, p: Properties) returns (ptr: nat, ghost extent: nat)
      requires Valid() && size > 0 && p.memoryType == DeviceMemory && p.device.Some?
      modifies this`usmPoolInitialized, svm, devicePool, hostPool, devicePool.chunkAllocator
      ensures Valid() && PoolsKept() && Ticks(6) && SetUpOnce()
      ensures Allocates(ptr, extent, size, DeviceMemory, p.alignment, svm.DeviceAsk(size, p))
      ensures old(Settled() && DeviceReady(size, p)) ==> ptr != 0
      ensures old(devicePool.Pools(size, p)) ==> ptr != 0 && devicePool.IsInPool(ptr)
    {
      InitializeUsmAllocationPools();
      ptr, extent := PlaceDevice(size, p);
    }

    /** The arguments of a request as the owners get them. */
    function HostProperties(args: Args): Properties {
      args.ToProperties(HostMemory, None, rootDeviceIndices)
    }

    function DeviceProperties(target: Device, args: Args): Properties {
      args.ToProperties(DeviceMemory, Some(target), rootDeviceIndices)
    }

    function SharedProperties(target: Option<Device>, args: Args): Properties {
      args.ToProperties(SharedMemory, target, rootDeviceIndices)
    }

    /** clHostMemAllocINTEL, with the limit of the context's first device.  A failed allocation
        reports no error. */
    method HostMemAlloc(args: Args) returns (ptr: nat, err: ClCode, ghost extent: nat)
      requires Valid()
      modifies this, svm, devicePool, hostPool, hostPool.chunkAllocator
      ensures Valid() && PoolsKept() && Ticks(6)
      ensures !args.propertiesValid ==> err == CL_INVALID_VALUE
      ensures args.propertiesValid && args.size == 0 ==> err == CL_INVALID_BUFFER_SIZE
      ensures args.propertiesValid && args.size > device.maxMemAllocSize && !args.allowUnrestrictedSize ==>
                err == CL_INVALID_BUFFER_SIZE
      ensures args.propertiesValid && 0 < args.size <= device.maxMemAllocSize ==> err == CL_SUCCESS
      ensures args.propertiesValid && 0 < args.size && args.allowUnrestrictedSize ==> err == CL_SUCCESS
      ensures err != CL_SUCCESS ==> ptr == 0 && Heap() == old(Heap())
      ensures err == CL_SUCCESS ==>
                var p := HostProperties(args);
                && SetUpOnce()
                && Allocates(ptr, extent, args.size, HostMemory, args.alignment, svm.HostAsk(args.size, p))
                && (old(Settled() && HostReady(args.size, p)) ==> ptr != 0)
                && (old(hostPool.Pools(args.size, p)) ==> ptr != 0 && hostPool.IsInPool(ptr))
    {
      err := args.Refusal(device.maxMemAllocSize);
      if err != CL_SUCCESS {
        return 0, err, 0;
      }
      ptr, extent := ServeHost(args.size, HostProperties(args));
    }

    /** clDeviceMemAllocINTEL, with the limit of the target device.  A failed allocation reports
        no error. */
    method DeviceMemAlloc(target: Device, args: Args) returns (ptr: nat, err: ClCode, ghost extent: nat)
      requires Valid()
      modifies this, svm, devicePool, hostPool, devicePool.chunkAllocator
      ensures Valid() && PoolsKept() && Ticks(6)
      ensures !args.propertiesValid ==> err == CL_INVALID_VALUE
      ensures args.propertiesValid && args.size == 0 ==> err == CL_INVALID_BUFFER_SIZE
      ensures args.propertiesValid && args.size > target.maxMemAllocSize && !args.allowUnrestrictedSize ==>
                err == CL_INVALID_BUFFER_SIZE
      ensures args.propertiesValid && 0 < args.size <= target.maxMemAllocSize ==> err == CL_SUCCESS
      ensures args.propertiesValid && 0 < args.size && args.allowUnrestrictedSize ==> err == CL_SUCCESS
      ensures err != CL_SUCCESS ==> ptr == 0 && Heap() == old(Heap())
      ensures err == CL_SUCCESS ==>
                var p := DeviceProperties(target, args);
                && SetUpOnce()
                && Allocates(ptr, extent, args.size, DeviceMemory, args.alignment, svm.DeviceAsk(args.size, p))
                && (old(Settled() && DeviceReady(args.size, p)) ==> ptr != 0)
                && (old(devicePool.Pools(args.size, p)) ==> ptr != 0 && devicePool.IsInPool(ptr))
    {
      err := args.Refusal(target.maxMemAllocSize);
      if err != CL_SUCCESS {
        return 0, err, 0;
      }
      ptr, extent := ServeDevice(args.size, DeviceProperties(target, args));
    }

    /** The request can be served by a saved host allocation. */
    ghost predicate HostReusable(size: nat, p: Properties)
      reads svm
    {
      |p.rootDeviceIndices| > 1 && p.device.None? && svm.hostCacheEnabled && svm.Servable(HostMemory, size, p)
    }

    function SharedKind(reusedHost: bool): MemoryType {
      if reusedHost then HostMemory else SharedMemory
    }

    /** clSharedMemAllocINTEL, with the limit of the target device, or else of the context's first
        one: no pool, and a failed allocation reports CL_OUT_OF_RESOURCES.  Exactly the reuse of a
        cached host allocation shows as host memory. */
    method SharedMemAlloc(target: Option<Device>, associated: bool, args: Args)
      returns (ptr: nat, err: ClCode, ghost reusedHost: bool)
      requires Valid()
      modifies svm
      ensures Valid() && Ticks(2)
      ensures target.Some? && !associated ==> err == CL_INVALID_DEVICE
      ensures target.None? || associated ==>
                var limit := (if target.Some? then target.value else device).maxMemAllocSize;
                && (!args.propertiesValid ==> err == CL_INVALID_VALUE)
                && (args.propertiesValid && args.size == 0 ==> err == CL_INVALID_BUFFER_SIZE)
                && (args.propertiesValid && args.size > limit && !args.allowUnrestrictedSize ==>
                      err == CL_INVALID_BUFFER_SIZE)
                && (args.propertiesValid && 0 < args.size && (args.size <= limit || args.allowUnrestrictedSize) ==>
                      err == if ptr == 0 then CL_OUT_OF_RESOURCES else CL_SUCCESS)
      ensures err != CL_SUCCESS ==> ptr == 0 && Heap() == old(Heap())
      ensures err == CL_SUCCESS || err == CL_OUT_OF_RESOURCES ==>
                var p := SharedProperties(target, args);
                && reusedHost == old(Ready(SharedRequest(target, associated, args))) && (reusedHost ==> ptr != 0)
                && Allocates(ptr, args.size, args.size, SharedKind(reusedHost), args.alignment,
                             svm.SharedAsk(args.size, p))
    {
      if target.Some? && !associated {
        return 0, CL_INVALID_DEVICE, false;
      }
      err := args.Refusal((if target.Some? then target.value else device).maxMemAllocSize);
      if err != CL_SUCCESS {
        return 0, err, false;
      }
      ptr, reusedHost := CreateShared(args.size, SharedProperties(target, args));
      if ptr == 0 {
        err := CL_OUT_OF_RESOURCES;
      }
    }

    method CreateShared(size: nat, p: Properties) returns (ptr: nat, ghost reusedHost: bool)
      requires Valid() && size > 0 && p.memoryType == SharedMemory && p.rootDeviceIndices != []
      modifies svm
      ensures Valid() && Ticks(2)
      ensures Allocates(ptr, size, size, SharedKind(reusedHost), p.alignment, svm.SharedAsk(size, p))
      ensures reusedHost == old(HostReusable(size, p)) && (reusedHost ==> ptr != 0)
    {
      ghost var a, d, h := svm.svmAllocs, StateOf(devicePool), StateOf(hostPool);
      OwnersHold();
      var reused;
      ptr, reused := svm.CreateSharedUnifiedMemoryAllocation(size, p);
      reusedHost := reused;
      if ptr != 0 {
        ManagerGrows(a, svm.svmAllocs, d, h, Range(ptr, size, size, SharedKind(reused)));
      }
    }

    method CreateDevice(size: nat, p: Properties) returns (ptr: nat)
      requires Valid() && size > 0 && p.memoryType == DeviceMemory && p.device.Some?
      modifies svm
      ensures Valid() && Ticks(2)
      ensures Allocates(ptr, size, size, DeviceMemory, p.alignment, svm.DeviceAsk(size, p))
      ensures svm.deviceCacheEnabled && old(svm.Servable(DeviceMemory, size, p)) ==> ptr != 0
      ensures ptr != 0 ==> !InAPool(ptr)
    {
      ghost var a, d, h := svm.svmAllocs, StateOf(devicePool), StateOf(hostPool);
      OwnersHold();
      var fromCache;
      ptr, fromCache := svm.CreateUnifiedMemoryAllocation(size, p);
      if ptr != 0 {
        ManagerGrows(a, svm.svmAllocs, d, h, Range(ptr, size, size, DeviceMemory));
      }
    }

    method CreateHost(size: nat, p: Properties) returns (ptr: nat)
      requires Valid() && size > 0 && p.memoryType == HostMemory
      modifies svm
      ensures Valid() && Ticks(2)
      ensures Allocates(ptr, size, size, HostMemory, p.alignment, svm.HostAsk(size, p))
      ensures svm.hostCacheEnabled && old(svm.Servable(HostMemory, size, p)) ==> ptr != 0
      ensures ptr != 0 ==> !InAPool(ptr)
    {
      ghost var a, d, h := svm.svmAllocs, StateOf(devicePool), StateOf(hostPool);
      OwnersHold();
      var fromCache;
      ptr, fromCache := svm.CreateHostUnifiedMemoryAllocation(size, p);
      if ptr != 0 {
        ManagerGrows(a, svm.svmAllocs, d, h, Range(ptr, size, size, HostMemory));
      }
    }

    /** clGetMemAllocInfoINTEL, CL_MEM_ALLOC_BASE_PTR_INTEL: device pool, host pool, manager. */
    method GetBasePtr(ptr: nat) returns (base: nat)
      requires Valid()
      ensures !Covered(svm.svmAllocs, ptr) ==> base == 0
      ensures forall q :: q in Heap() && Contains(q, ptr) ==> base == q.base
    {
      var k := svm.GetSVMAlloc(ptr);
      if k < 0 {
        base := 0;
      } else {
        base := devicePool.GetPooledAllocationBasePtr(ptr);
        if base == 0 {
          base := hostPool.GetPooledAllocationBasePtr(ptr);
          if base == 0 {
            base := svm.svmAllocs[k].ptr;
          }
        }
      }
      forall q | q in Heap() && Contains(q, ptr)
        ensures base == q.base
      {
        QueryOwner(q, ptr, k);
      }
    }

    /** clGetMemAllocInfoINTEL, CL_MEM_ALLOC_SIZE_INTEL. */
    method GetSize(ptr: nat) returns (size: nat)
      requires Valid()
      ensures !Covered(svm.svmAllocs, ptr) ==> size == 0
      ensures forall q :: q in Heap() && Contains(q, ptr) ==> size == q.size
    {
      var k := svm.GetSVMAlloc(ptr);
      if k < 0 {
        size := 0;
      } else {
        size := devicePool.GetPooledAllocationSize(ptr);
        if size == 0 {
          size := hostPool.GetPooledAllocationSize(ptr);
          if size == 0 {
            size := svm.svmAllocs[k].size;
          }
        }
      }
      forall q | q in Heap() && Contains(q, ptr)
        ensures size == q.size
      {
        QueryOwner(q, ptr, k);
      }
    }

    /** clGetMemAllocInfoINTEL, CL_MEM_ALLOC_TYPE_INTEL: the manager alone answers. */
    method GetType(ptr: nat) returns (t: MemAllocType)
      requires Valid()
      ensures !Covered(svm.svmAllocs, ptr) ==> t == UnknownType
      ensures forall q :: q in Heap() && Contains(q, ptr) ==>
                && (q.kind == HostMemory ==> t == HostType) && (q.kind == DeviceMemory ==> t == DeviceType)
                && (q.kind == SharedMemory ==> t == SharedType)
    {
      var k := svm.GetSVMAlloc(ptr);
      t := if k < 0 then UnknownType else TypeOf(svm.svmAllocs[k].value.memoryType);
      forall q | q in Heap() && Contains(q, ptr)
        ensures t == TypeOf(q.kind)
      {
        QueryOwner(q, ptr, k);
      }
    }

    /** Where the three lookups find a live address. */
    lemma QueryOwner(q: Range, ptr: nat, k: int)
      requires Valid() && q in Heap() && Contains(q, ptr)
      requires -1 <= k < |svm.svmAllocs| && (k >= 0 <==> Covered(svm.svmAllocs, ptr)) &&
                (k >= 0 ==> Holds(svm.svmAllocs[k], ptr))
      ensures k >= 0 && TypeOf(svm.svmAllocs[k].value.memoryType) == TypeOf(q.kind)
      ensures Covered(devicePool.allocations, ptr) ==>
        exists i :: 0 <= i < |devicePool.allocations| && Holds(devicePool.allocations[i], ptr) &&
            devicePool.allocations[i].ptr == q.base && devicePool.allocations[i].value.requestedSize == q.size
      ensures !Covered(devicePool.allocations, ptr) && Covered(hostPool.allocations, ptr) ==>
        exists i :: 0 <= i < |hostPool.allocations| && Holds(hostPool.allocations[i], ptr) &&
            hostPool.allocations[i].ptr == q.base && hostPool.allocations[i].value.requestedSize == q.size
      ensures !Covered(devicePool.allocations, ptr) && !Covered(hostPool.allocations, ptr) ==>
        svm.svmAllocs[k].ptr == q.base && svm.svmAllocs[k].size == q.size
    {
      OwnersHold();
      var a, d, h := svm.svmAllocs, StateOf(devicePool), StateOf(hostPool);
      PoolOwns(a, d, h, d, q, ptr);
      PoolOwns(a, d, h, h, q, ptr);
      ManagerHolds(a, d, h, q, ptr);
      PooledMeaning(d.allocations, d.kind);
      PooledMeaning(h.allocations, h.kind);
    }

    /** The pools' turn of a free. */
    method FreeInDevicePool(ptr: nat) returns (ok: bool)
      requires Valid()
      modifies devicePool`allocations, devicePool.chunkAllocator
      ensures Valid()
      ensures ok <==> HasBase(old(devicePool.allocations), ptr)
      ensures !ok ==> devicePool.allocations == old(devicePool.allocations)
      ensures ok ==> HeapLost(old(Heap()), Heap(), ptr) && FreeEffect(old(Heap()), Heap(), ptr, InAPool(ptr))
    {
      ghost var a, d, h := svm.svmAllocs, StateOf(devicePool), StateOf(hostPool);
      OwnersHold();
      ghost var q;
      ok, q := devicePool.FreeSVMAlloc(ptr);
      if ok {
        DevicePoolFree(a, d, StateOf(devicePool), h, q, InAPool(ptr));
      }
    }

    method FreeInHostPool(ptr: nat) returns (ok: bool)
      requires Valid()
      modifies hostPool`allocations, hostPool.chunkAllocator
      ensures Valid()
      ensures ok <==> HasBase(old(hostPool.allocations), ptr)
      ensures !ok ==> hostPool.allocations == old(hostPool.allocations)
      ensures ok ==> HeapLost(old(Heap()), Heap(), ptr) && FreeEffect(old(Heap()), Heap(), ptr, InAPool(ptr))
    {
      ghost var a, d, h := svm.svmAllocs, StateOf(devicePool), StateOf(hostPool);
      OwnersHold();
      ghost var q;
      ok, q := hostPool.FreeSVMAlloc(ptr);
      if ok {
        HostPoolFree(a, d, h, StateOf(hostPool), q, InAPool(ptr));
      }
    }

    /** The address lies in the backing allocation of a pool. */
    predicate InAPool(ptr: nat)
      reads devicePool, hostPool
    {
      devicePool.IsInPool(ptr) || hostPool.IsInPool(ptr)
    }

    /** clMemFreeCommon: device pool, host pool, manager.
        - a live pointer is freed, it alone, with CL_SUCCESS;
        - an address the manager does not track is refused and changes nothing;
        - an address inside a live range of the manager frees that whole range, while a chunk of a
          pool goes only by its base;
        - a pool loses its backing allocation exactly when the address lies in the pool
          without being the base of a chunk in use. */
    method MemFree(ptr: nat) returns (code: ClCode)
      requires Valid()
      modifies svm, devicePool`allocations, hostPool`allocations, devicePool.chunkAllocator, hostPool.chunkAllocator
      ensures code == CL_SUCCESS || code == CL_INVALID_VALUE
      ensures code == CL_INVALID_VALUE <==> ptr != 0 && !Covered(old(svm.svmAllocs), ptr)
      ensures code == CL_INVALID_VALUE || ptr == 0 ==> Valid() && Heap() == old(Heap())
      ensures LiveHere(old(Heap()), ptr) ==> code == CL_SUCCESS && Valid() && HeapLost(old(Heap()), Heap(), ptr)
      ensures FreeEffect(old(Heap()), Heap(), ptr, InAPool(ptr)) && svm.clock >= old(svm.clock)
      ensures devicePool.pool != 0 ==>
        (StateOf(devicePool).Backing() in svm.Live() <==>
            !(devicePool.IsInPool(ptr) && !HasBase(old(devicePool.allocations), ptr)))
      ensures hostPool.pool != 0 ==>
        (StateOf(hostPool).Backing() in svm.Live() <==>
            !(hostPool.IsInPool(ptr) && !HasBase(old(hostPool.allocations), ptr)))
    {
      if ptr == 0 {
        OwnersHold();
        NullIsNotLive(svm.svmAllocs, StateOf(devicePool), StateOf(hostPool));
        return CL_SUCCESS;
      }
      code := FreeOwned(ptr);
    }

    /** A free of a pointer that is not null: the pools, then the manager. */
    method FreeOwned(ptr: nat) returns (code: ClCode)
      requires Valid()
      modifies svm, devicePool`allocations, hostPool`allocations, devicePool.chunkAllocator, hostPool.chunkAllocator
      ensures code == (if Covered(old(svm.svmAllocs), ptr) then CL_SUCCESS else CL_INVALID_VALUE)
      ensures code == CL_INVALID_VALUE ==> Valid() && Heap() == old(Heap())
      ensures LiveHere(old(Heap()), ptr) ==> code == CL_SUCCESS && Valid() && HeapLost(old(Heap()), Heap(), ptr)
      ensures FreeEffect(old(Heap()), Heap(), ptr, InAPool(ptr)) && svm.clock >= old(svm.clock)
      ensures devicePool.pool != 0 ==>
        (StateOf(devicePool).Backing() in svm.Live() <==>
            !(devicePool.IsInPool(ptr) && !HasBase(old(devicePool.allocations), ptr)))
      ensures hostPool.pool != 0 ==>
        (StateOf(hostPool).Backing() in svm.Live() <==>
            !(hostPool.IsInPool(ptr) && !HasBase(old(hostPool.allocations), ptr)))
    {
      code := CL_SUCCESS;
      var pooled := FreeInPools(ptr);
      if !pooled {
        var ok := FreeInManager(ptr);
        code := if ok then CL_SUCCESS else CL_INVALID_VALUE;
      }
    }

    method FreeInPools(ptr: nat) returns (ok: bool)
      requires Valid()
      modifies devicePool`allocations, hostPool`allocations, devicePool.chunkAllocator, hostPool.chunkAllocator
      ensures Valid()
      ensures ok <==> HasBase(old(devicePool.allocations), ptr) || HasBase(old(hostPool.allocations), ptr)
      ensures !ok ==>
                devicePool.allocations == old(devicePool.allocations) &&
                hostPool.allocations == old(hostPool.allocations)
      ensures ok ==>
                HeapLost(old(Heap()), Heap(), ptr) && FreeEffect(old(Heap()), Heap(), ptr, InAPool(ptr)) &&
                Covered(svm.svmAllocs, ptr)
      ensures ok && devicePool.pool != 0 ==>
                StateOf(devicePool).Backing() in svm.Live() &&
                (devicePool.IsInPool(ptr) ==> HasBase(old(devicePool.allocations), ptr))
      ensures ok && hostPool.pool != 0 ==>
                StateOf(hostPool).Backing() in svm.Live() &&
                (hostPool.IsInPool(ptr) ==> HasBase(old(hostPool.allocations), ptr))
    {
      ghost var a, d, h := svm.svmAllocs, StateOf(devicePool), StateOf(hostPool);
      OwnersHold();
      PooledBaseElsewhere(a, d, h, ptr);
      ok := FreeInDevicePool(ptr);
      if ok {
        PooledBaseTracked(a, d, h, d, ptr);
      } else {
        ok := FreeInHostPool(ptr);
        if ok {
          PooledBaseTracked(a, d, h, h, ptr);
        }
      }
    }

    /** The manager's turn of a free, after both pools refused the pointer. */
    method FreeInManager(ptr: nat) returns (ok: bool)
      requires Valid()
      requires !HasBase(devicePool.allocations, ptr) && !HasBase(hostPool.allocations, ptr)
      modifies svm
      ensures ok <==> Covered(old(svm.svmAllocs), ptr)
      ensures !ok ==> Valid() && Heap() == old(Heap())
      ensures LiveHere(old(Heap()), ptr) ==> ok && Valid() && HeapLost(old(Heap()), Heap(), ptr)
      ensures FreeEffect(old(Heap()), Heap(), ptr, InAPool(ptr)) && svm.clock >= old(svm.clock)
      ensures devicePool.pool != 0 ==> (StateOf(devicePool).Backing() in svm.Live() <==> !devicePool.IsInPool(ptr))
      ensures hostPool.pool != 0 ==> (StateOf(hostPool).Backing() in svm.Live() <==> !hostPool.IsInPool(ptr))
    {
      ghost var a, d, h := svm.svmAllocs, StateOf(devicePool), StateOf(hostPool);
      OwnersHold();
      ghost var k;
      ok, k := svm.FreeSVMAlloc(ptr);
      ManagerFreeEffect(a, svm.svmAllocs, d, h, ptr, ok, k);
      ManagerFreeExact(a, svm.svmAllocs, d, h, ptr, ok, k);
    }

    /** Pool or cache can serve the request without the OS. */
    ghost predicate Ready(req: Request)
      reads this`usmPoolInitialized, svm, devicePool, hostPool, devicePool.chunkAllocator, hostPool.chunkAllocator
    {
      match req
      case HostRequest(args) => Settled() && HostReady(args.size, HostProperties(args))
      case DeviceRequest(target, args) => Settled() && DeviceReady(args.size, DeviceProperties(target, args))
      case SharedRequest(target, associated, args) => HostReusable(args.size, SharedProperties(target, args))
      case FreeRequest(p) => false
    }

    ghost function Now(): Moment
      reads this`usmPoolInitialized, svm, devicePool, hostPool, devicePool.chunkAllocator, hostPool.chunkAllocator
    {
      Moment(svm.clock, svm.svmAllocs, iset req: Request | Ready(req))
    }

    /** What a program gets for one call, and what the call does to the heap, when it owns the
        pointers `owned` and the call leads from one moment to the other.  A free of a tracked
        address that the program does not own is not called. */
    ghost predicate Answers(req: Request, owned: set<nat>, e: Event, code: Option<ClCode>, from: Moment, to: Moment) {
      match req
      case HostRequest(args) =>
        && code.Some?
        && Served(args, device.maxMemAllocSize, CL_SUCCESS, svm.HostAsk(args.size, HostProperties(args)),
                  HostMemory, req in from.ready, e, code.value, from.time, to.time, to.tracker)
      case DeviceRequest(target, args) =>
        && code.Some?
        && Served(args, target.maxMemAllocSize, CL_SUCCESS, svm.DeviceAsk(args.size, DeviceProperties(target, args)),
                  DeviceMemory, req in from.ready, e, code.value, from.time, to.time, to.tracker)
      case SharedRequest(target, associated, args) =>
        if target.Some? && !associated then e == Nothing && code == Some(CL_INVALID_DEVICE)
        else
          && code.Some?
          && Served(args, (if target.Some? then target.value else device).maxMemAllocSize, CL_OUT_OF_RESOURCES,
                    svm.SharedAsk(args.size, SharedProperties(target, args)),
                    SharedKind(req in from.ready), req in from.ready, e, code.value, from.time, to.time, to.tracker)
      case FreeRequest(p) =>
        if p in owned then e == Lost(p) && code == Some(CL_SUCCESS)
        else
          e == Nothing && code == if p == 0 then Some(CL_SUCCESS)
                                  else if Covered(from.tracker, p) then None
                                  else Some(CL_INVALID_VALUE)
    }

    /** Bad properties, no bytes, and too many bytes without the flag that lifts the limit are refused,
        and nothing else.  Other requests are served with size, kind and alignment as asked for, at
        any rate when pool or cache can; or get null, and the OS refused exactly this block in the
        end. */
    ghost predicate Served(args: Args, limit: nat, failure: ClCode, ask: Ask, kind: MemoryType, ready: bool,
                           e: Event, code: ClCode, from: nat, to: nat, tracker: Tracker)
    {
      && (!args.propertiesValid ==> e.Nothing? && code == CL_INVALID_VALUE)
      && (args.propertiesValid && args.size == 0 ==> e.Nothing? && code == CL_INVALID_BUFFER_SIZE)
      && (args.propertiesValid && args.size > limit && !args.allowUnrestrictedSize ==>
            e.Nothing? && code == CL_INVALID_BUFFER_SIZE)
      && (args.propertiesValid && 0 < args.size && (args.size <= limit || args.allowUnrestrictedSize) ==>
            if e.Nothing? then
              && !ready && code == failure && from < to <= from + 6
              && svm.env.Refuses(to - 1, HeldOf(tracker), ask)
            else
              && e.Got? && code == CL_SUCCESS
              && e.range.size == args.size <= e.range.extent && e.range.kind == kind
              && AlignedAs(e.range.base, args.alignment))
    }

    /** One call of a client program. */
    method Perform(req: Request, owned: set<nat>) returns (ptr: nat, code: Option<ClCode>, ghost e: Event)
      requires Valid() && AllLive(Heap(), owned)
      modifies this, svm, devicePool, hostPool, devicePool.chunkAllocator, hostPool.chunkAllocator
      ensures Valid() && PoolsKept() && svm.clock >= old(svm.clock)
      ensures Legal(old(Heap()), e) && Heap() == After(old(Heap()), e)
      ensures Answers(req, owned, e, code, old(Now()), Now())
      ensures if e.Got? then ptr == e.range.base != 0 else ptr == 0
    {
      match req {
        case HostRequest(args) =>
          ptr, code, e := PerformHost(args);
        case DeviceRequest(target, args) =>
          ptr, code, e := PerformDevice(target, args);
        case SharedRequest(target, associated, args) =>
          ptr, code, e := PerformShared(target, associated, args);
        case FreeRequest(p) =>
          ptr := 0;
          code, e := PerformFree(p, owned);
      }
    }

    method PerformHost(args: Args) returns (ptr: nat, code: Option<ClCode>, ghost e: Event)
      requires Valid()
      modifies this, svm, devicePool, hostPool, hostPool.chunkAllocator
      ensures Valid() && PoolsKept() && svm.clock >= old(svm.clock)
      ensures Legal(old(Heap()), e) && Heap() == After(old(Heap()), e)
      ensures code.Some? && Served(args, device.maxMemAllocSize, CL_SUCCESS,
                                   svm.HostAsk(args.size, HostProperties(args)), HostMemory,
                                   old(Ready(HostRequest(args))), e, code.value,
                                   old(svm.clock), svm.clock, svm.svmAllocs)
      ensures if e.Got? then ptr == e.range.base != 0 else ptr == 0
    {
      ghost var extent;
      var err;
      ptr, err, extent := HostMemAlloc(args);
      code, e := Some(err), Nothing;
      if ptr != 0 {
        e := Got(Range(ptr, extent, args.size, HostMemory));
      }
    }

    method PerformDevice(target: Device, args: Args) returns (ptr: nat, code: Option<ClCode>, ghost e: Event)
      requires Valid()
      modifies this, svm, devicePool, hostPool, devicePool.chunkAllocator
      ensures Valid() && PoolsKept() && svm.clock >= old(svm.clock)
      ensures Legal(old(Heap()), e) && Heap() == After(old(Heap()), e)
      ensures code.Some? && Served(args, target.maxMemAllocSize, CL_SUCCESS,
                                   svm.DeviceAsk(args.size, DeviceProperties(target, args)), DeviceMemory,
                                   old(Ready(DeviceRequest(target, args))), e, code.value,
                                   old(svm.clock), svm.clock, svm.svmAllocs)
      ensures if e.Got? then ptr == e.range.base != 0 else ptr == 0
    {
      ghost var extent;
      var err;
      ptr, err, extent := DeviceMemAlloc(target, args);
      code, e := Some(err), Nothing;
      if ptr != 0 {
        e := Got(Range(ptr, extent, args.size, DeviceMemory));
      }
    }

    method PerformShared(target: Option<Device>, associated: bool, args: Args)
      returns (ptr: nat, code: Option<ClCode>, ghost e: Event)
      requires Valid()
      modifies svm
      ensures Valid() && PoolsKept() && svm.clock >= old(svm.clock)
      ensures Legal(old(Heap()), e) && Heap() == After(old(Heap()), e)
      ensures target.Some? && !associated ==> e == Nothing && code == Some(CL_INVALID_DEVICE)
      ensures target.None? || associated ==>
                var ready := old(Ready(SharedRequest(target, associated, args)));
                var limit := (if target.Some? then target.value else device).maxMemAllocSize;
                code.Some? && Served(args, limit, CL_OUT_OF_RESOURCES,
                                     svm.SharedAsk(args.size, SharedProperties(target, args)), SharedKind(ready),
                                     ready, e, code.value, old(svm.clock), svm.clock, svm.svmAllocs)
      ensures if e.Got? then ptr == e.range.base != 0 else ptr == 0
    {
      ghost var reused;
      var err;
      ptr, err, reused := SharedMemAlloc(target, associated, args);
      code, e := Some(err), Nothing;
      if ptr != 0 {
        e := Got(Range(ptr, args.size, args.size, SharedKind(reused)));
      }
    }

    method PerformFree(p: nat, owned: set<nat>) returns (code: Option<ClCode>, ghost e: Event)
      requires Valid() && AllLive(Heap(), owned)
      modifies svm, devicePool`allocations, hostPool`allocations, devicePool.chunkAllocator, hostPool.chunkAllocator
      ensures Valid() && svm.clock >= old(svm.clock)
      ensures Legal(old(Heap()), e) && Heap() == After(old(Heap()), e)
      ensures Answers(FreeRequest(p), owned, e, code, old(Now()), Now())
      ensures !e.Got?
    {
      var k := svm.GetSVMAlloc(p);
      if p in owned {
        var err := FreeOwn(p);
        code, e := Some(err), Lost(p);
      } else if p == 0 || k < 0 {
        var err := MemFree(p);
        code, e := Some(err), Nothing;
      } else {
        code, e := None, Nothing;
      }
    }

    /** A free of a live pointer. */
    method FreeOwn(p: nat) returns (code: ClCode)
      requires Valid() && LiveHere(Heap(), p)
      modifies svm, devicePool`allocations, hostPool`allocations, devicePool.chunkAllocator, hostPool.chunkAllocator
      ensures Valid() && svm.clock >= old(svm.clock)
      ensures code == CL_SUCCESS && Heap() == After(old(Heap()), Lost(p))
    {
      ghost var a, d, h := svm.svmAllocs, StateOf(devicePool), StateOf(hostPool);
      OwnersHold();
      code := MemFree(p);
      LostPointer(a, d, h, Heap(), p);
    }

    /** Every call of a program was answered, given what the program owned by then. */
    ghost predicate Answered(requests: seq<Request>, trace: seq<Event>, codes: seq<Option<ClCode>>,
                             moments: seq<Moment>)
    {
      && |trace| == |codes| == |requests| && |moments| == |requests| + 1
      && forall i :: 0 <= i < |requests| ==>
           && moments[i].time <= moments[i + 1].time
           && Answers(requests[i], Owned(trace[..i]), trace[i], codes[i], moments[i], moments[i + 1])
    }

    lemma AnsweredExtends(requests: seq<Request>, n: nat, trace: seq<Event>, codes: seq<Option<ClCode>>,
                          moments: seq<Moment>, e: Event, code: Option<ClCode>, moment: Moment)
      requires n < |requests| && Answered(requests[..n], trace, codes, moments) && moments[n].time <= moment.time
      requires Answers(requests[n], Owned(trace), e, code, moments[n], moment)
      ensures Answered(requests[..n + 1], trace + [e], codes + [code], moments + [moment])
    {
      forall i | 0 <= i <= n
        ensures Owned((trace + [e])[..i]) == if i == n then Owned(trace) else Owned(trace[..i])
      {
        assert (trace + [e])[..i] == trace[..i];
        assert trace[..n] == trace;
      }
    }

    /** The answered requests took the heap from `start` to this one, by a legal run after which
        the program owns these pointers. */
    ghost predicate Ran(start: set<Range>, requests: seq<Request>, trace: seq<Event>, codes: seq<Option<ClCode>>,
                        moments: seq<Moment>, owned: set<nat>)
      reads this`usmPoolInitialized, svm, devicePool, hostPool, devicePool.chunkAllocator, hostPool.chunkAllocator
    {
      && Answered(requests, trace, codes, moments) && moments[|requests|] == Now()
      && LegalRun(start, trace) && Heap() == Replay(start, trace)
      && owned == Owned(trace) && AllLive(Heap(), owned)
    }

    /** The next turn of a program. */
    method Turn(requests: seq<Request>, n: nat, owned: set<nat>, ghost start: set<Range>,
                ghost trace: seq<Event>, ghost codes: seq<Option<ClCode>>, ghost moments: seq<Moment>)
      returns (owned': set<nat>, code: Option<ClCode>, ghost e: Event)
      requires Valid() && n < |requests| && Ran(start, requests[..n], trace, codes, moments, owned)
      modifies this, svm, devicePool, hostPool, devicePool.chunkAllocator, hostPool.chunkAllocator
      ensures Valid() && PoolsKept()
      ensures Ran(start, requests[..n + 1], trace + [e], codes + [code], moments + [Now()], owned')
    {
      var req := requests[n];
      var ptr;
      ptr, code, e := Perform(req, owned);
      AnsweredExtends(requests, n, trace, codes, moments, e, code, Now());
      Extend(start, trace, e);
      OwnedExtends(trace, e);
      owned' := owned;
      if req.FreeRequest? {
        owned' := owned - {req.ptr};
        assert owned' == OwnedAfter(owned, e);
      } else if ptr != 0 {
        owned' := owned + {ptr};
      }
      OwnedStayLive(old(Heap()), Heap(), e, owned);
    }

    /** The first turns of a program. */
    method Turns(requests: seq<Request>, n: nat)
      returns (owned: set<nat>, codes: seq<Option<ClCode>>, ghost trace: seq<Event>, ghost moments: seq<Moment>)
      requires Valid() && n <= |requests|
      modifies this, svm, devicePool, hostPool, devicePool.chunkAllocator, hostPool.chunkAllocator
      ensures Valid() && PoolsKept()
      ensures Ran(old(Heap()), requests[..n], trace, codes, moments, owned) && moments[0] == old(Now())
    {
      if n == 0 {
        return {}, [], [], [Now()];
      }
      owned, codes, trace, moments := Turns(requests, n - 1);
      var code;
      ghost var e;
      owned, code, e := Turn(requests, n - 1, owned, old(Heap()), trace, codes, moments);
      codes, trace, moments := codes + [code], trace + [e], moments + [Now()];
    }

    /** Any program of allocation requests and frees, which frees no tracked address that it does
        not own, is a legal run of one flat heap.  Every call is answered for what it asks, an
        initialized pool keeps its backing allocation, and every owner stays well formed. */
    method Run(requests: seq<Request>)
      returns (codes: seq<Option<ClCode>>, ghost trace: seq<Event>, ghost moments: seq<Moment>)
      requires Valid()
      modifies this, svm, devicePool, hostPool, devicePool.chunkAllocator, hostPool.chunkAllocator
      ensures Valid() && Disjoint(Heap())
      ensures Answered(requests, trace, codes, moments)
      ensures moments[0] == old(Now()) && moments[|requests|] == Now()
      ensures LegalRun(old(Heap()), trace) && Heap() == Replay(old(Heap()), trace)
      ensures old(devicePool.pool) != 0 ==>
                devicePool.pool == old(devicePool.pool) && StateOf(devicePool).Backing() in svm.Live()
      ensures old(hostPool.pool) != 0 ==>
                hostPool.pool == old(hostPool.pool) && StateOf(hostPool).Backing() in svm.Live()
    {
      var owned;
      owned, codes, trace, moments := Turns(requests, |requests|);
      assert requests[..|requests|] == requests;
      OwnersHold();
      HeapDisjoint(svm.svmAllocs, StateOf(devicePool), StateOf(hostPool));
    }
  }

  /** A request for bytes with valid properties and within the limit of its device. */
  predicate Ordinary(c: Context, req: Request, args: Args) {
    && args.propertiesValid && 0 < args.size
    && match req
       case HostRequest(a) => a == args && args.size <= c.device.maxMemAllocSize
       case DeviceRequest(target, a) => a == args && args.size <= target.maxMemAllocSize
       case SharedRequest(target, associated, a) =>
         && a == args && (target.Some? ==> associated)
         && args.size <= (if target.Some? then target.value else c.device).maxMemAllocSize
       case FreeRequest(p) => false
  }

  /** Where the OS never refuses, every ordinary request of any program is served. */
  lemma GenerousRun(c: Context, requests: seq<Request>, trace: seq<Event>, codes: seq<Option<ClCode>>,
                    moments: seq<Moment>, i: nat, args: Args)
    requires c.Answered(requests, trace, codes, moments) && i < |requests| && Ordinary(c, requests[i], args)
    requires forall t: nat, held: seq<Held>, ask: Ask :: !c.svm.env.Refuses(t, held, ask)
    ensures trace[i].Got? && trace[i].range.size == args.size && codes[i] == Some(CL_SUCCESS)
  {
    assert c.Answers(requests[i], Owned(trace[..i]), trace[i], codes[i], moments[i], moments[i + 1]);
  }

  /** An OS that never refuses: it puts a block behind all others. */
  function EndOf(held: seq<Held>): (r: nat)
    ensures r > 0 && forall i :: 0 <= i < |held| ==> held[i].ptr + held[i].bytes <= r
  {
    if held == [] then 1
    else
      var n, e := |held| - 1, held[|held| - 1].ptr + held[|held| - 1].bytes;
      var r := EndOf(held[..n]);
      assert forall i :: 0 <= i < n ==> held[i] == held[..n][i];
      if e <= r then r else e
  }

  function Behind(held: seq<Held>, ask: Ask): nat {
    AlignUp(EndOf(held), if ask.alignment == 0 then 1 else ask.alignment)
  }

  const GENEROUS: Env := Env(
    (t, held, ask) => Some(Behind(held, ask)), (t, p) => false, t => false, (t, n) => false)

  lemma BehindIsApart(held: seq<Held>, ask: Ask)
    ensures var p := Behind(held, ask);
            && p > 0 && (ask.alignment > 0 ==> IsAligned(p, ask.alignment))
            && forall i :: 0 <= i < |held| ==> Apart(held[i].ptr, held[i].bytes, p, ask.Bytes())
  {
    AlignUpIsAligned(EndOf(held), if ask.alignment == 0 then 1 else ask.alignment);
  }

  lemma GenerousIsSound()
    ensures GENEROUS.Sound() && forall t: nat, held: seq<Held>, ask: Ask :: !GENEROUS.Refuses(t, held, ask)
  {
    forall t: nat, held: seq<Held>, ask: Ask | GENEROUS.os(t, held, ask).Some?
      ensures GENEROUS.os(t, held, ask).value > 0
      ensures ask.alignment > 0 ==> IsAligned(GENEROUS.os(t, held, ask).value, ask.alignment)
      ensures forall i :: 0 <= i < |held| ==>
                Apart(held[i].ptr, held[i].bytes, GENEROUS.os(t, held, ask).value, ask.Bytes())
    {
      BehindIsApart(held, ask);
    }
  }

  /** A single-device context with both pools enabled, over such an OS. */
  method MakeGenerous() returns (c: Context)
    ensures c.Valid() && c.svm.env == GENEROUS && c.device.maxMemAllocSize == 0x1_0000_0000
    ensures fresh(c) && fresh(c.svm) && fresh(c.devicePool) && fresh(c.hostPool)
    ensures c.devicePool.chunkAllocator == null && c.hostPool.chunkAllocator == null
  {
    GenerousIsSound();
    var svm := new SvmAllocsManager(GENEROUS, true, true, false, false, false);
    var devicePool := new UsmMemAllocPool();
    var hostPool := new UsmMemAllocPool();
    c := new Context(svm, devicePool, hostPool, Device(0, 0, 0x1_0000_0000), [0], true, true, true, false);
  }

  /** A run in which three ordinary requests, none of them with the flag that lifts the limit, get
      their ranges. */
  method OrdinaryRun() returns (codes: seq<Option<ClCode>>, ghost trace: seq<Event>)
    ensures codes == [Some(CL_SUCCESS), Some(CL_SUCCESS), Some(CL_SUCCESS)]
    ensures |trace| == 3 && forall i :: 0 <= i < 3 ==> trace[i].Got? && trace[i].range.size == 4096
  {
    var c := MakeGenerous();
    var args := Args(true, Flags(false, false, 0, 0), 4096, 0, false);
    var requests := [HostRequest(args), DeviceRequest(c.device, args), SharedRequest(None, false, args)];
    codes, trace := RunThree(c, requests, args);
  }

  method RunThree(c: Context, requests: seq<Request>, args: Args)
    returns (codes: seq<Option<ClCode>>, ghost trace: seq<Event>)
    requires c.Valid() && c.svm.env == GENEROUS && |requests| == 3
    requires forall i :: 0 <= i < 3 ==> Ordinary(c, requests[i], args)
    modifies c, c.svm, c.devicePool, c.hostPool, c.devicePool.chunkAllocator, c.hostPool.chunkAllocator
    ensures codes == [Some(CL_SUCCESS), Some(CL_SUCCESS), Some(CL_SUCCESS)] && |trace| == 3
    ensures forall i :: 0 <= i < 3 ==> trace[i].Got? && trace[i].range.size == args.size
  {
    ghost var moments;
    codes, trace, moments := c.Run(requests);
    ThreeServed(c, requests, trace, codes, moments, args);
  }

  lemma ThreeServed(c: Context, requests: seq<Request>, trace: seq<Event>, codes: seq<Option<ClCode>>,
                    moments: seq<Moment>, args: Args)
    requires c.Answered(requests, trace, codes, moments) && c.svm.env == GENEROUS && |requests| == 3
    requires forall i :: 0 <= i < 3 ==> Ordinary(c, requests[i], args)
    ensures codes == [Some(CL_SUCCESS), Some(CL_SUCCESS), Some(CL_SUCCESS)] && |trace| == 3
    ensures forall i :: 0 <= i < 3 ==> trace[i].Got? && trace[i].range.size == args.size
  {
    GenerousIsSound();
    forall i | 0 <= i < 3
      ensures trace[i].Got? && trace[i].range.size == args.size && codes[i] == Some(CL_SUCCESS)
    {
      GenerousRun(c, requests, trace, codes, moments, i, args);
    }
  }

  const HOST_POOL_SIZE: nat := 2 * MEGABYTE
  const HOST_POOL_SERVES: nat := MEGABYTE

  /** What matters of the owners between two calls: the time, what the manager tracks, and which
      requests pool or cache can serve without the OS. */
  datatype Moment = Moment(time: nat, tracker: Tracker, ready: iset<Request>)

  /** What an allocation request names, its property list already read. */
  datatype Args = Args(propertiesValid: bool, flags: Flags, size: nat, alignment: nat, allowUnrestrictedSize: bool) {
    /** The checks made before any owner is asked. */
    function Refusal(maxMemAllocSize: nat): ClCode {
      if !propertiesValid then CL_INVALID_VALUE
      else if size == 0 || (size > maxMemAllocSize && !allowUnrestrictedSize) then CL_INVALID_BUFFER_SIZE
      else CL_SUCCESS
    }

    function ToProperties(kind: MemoryType, device: Option<Device>, roots: seq<nat>): Properties {
      Properties(kind, alignment, flags, device, roots)
    }
  }

  /** A call of a client program: an allocation, or a free of a pointer it holds. */
  datatype Request =
    | HostRequest(args: Args)
    | DeviceRequest(target: Device, args: Args)
    | SharedRequest(device: Option<Device>, associated: bool, args: Args)
    | FreeRequest(ptr: nat)

  ghost function OwnedAfter(owned: set<nat>, e: Event): set<nat> {
    match e
    case Got(r) => owned + {r.base}
    case Lost(b) => owned - {b}
    case Nothing => owned
  }

  /** The pointers a program holds: handed out and not freed since. */
  ghost function Owned(trace: seq<Event>): set<nat> {
    if trace == [] then {} else OwnedAfter(Owned(trace[..|trace|-1]), trace[|trace|-1])
  }

  lemma OwnedExtends(trace: seq<Event>, e: Event)
    ensures Owned(trace + [e]) == OwnedAfter(Owned(trace), e)
  {
    assert (trace + [e])[..|trace|] == trace;
  }

  lemma OwnedStayLive(before: set<Range>, after: set<Range>, e: Event, owned: set<nat>)
    requires after == After(before, e) && AllLive(before, owned)
    ensures AllLive(after, OwnedAfter(owned, e))
  {
  }

  /** The bases of pooled chunks are tracked addresses: they lie in the backing allocation. */
  lemma PooledBaseTracked(a: Tracker, d: PoolState, h: PoolState, p: PoolState, ptr: nat)
    requires Owners(a, d, h) && (p == d || p == h) && HasBase(p.allocations, ptr)
    ensures Covered(a, ptr) && p.pool <= ptr < p.poolEnd
  {
    assert Asked(0);
    LiveMeaning(a);
    var e :| e in a && !e.value.isSavedForReuse && RangeOf(e) == p.Backing();
    var m :| 0 <= m < |a| && a[m] == e;
    assert Holds(a[m], ptr);
  }

  lemma NullIsNotLive(a: Tracker, d: PoolState, h: PoolState)
    requires Owners(a, d, h)
    ensures !LiveHere(HeapOf(a, d, h), 0)
  {
    assert Asked(0);
    if LiveHere(HeapOf(a, d, h), 0) {
      var q :| q in HeapOf(a, d, h) && q.base == 0;
      HeapDisjoint(a, d, h);
      ManagerHolds(a, d, h, q, 0);
    }
  }

  /** A pooled base lies in its own pool only. */
  lemma PooledBaseElsewhere(a: Tracker, d: PoolState, h: PoolState, ptr: nat)
    requires Owners(a, d, h)
    ensures HasBase(d.allocations, ptr) && h.pool != 0 ==> !(h.pool <= ptr < h.poolEnd)
    ensures HasBase(h.allocations, ptr) && d.pool != 0 ==> !(d.pool <= ptr < d.poolEnd)
  {
    assert Asked(0);
    if d.pool != 0 && h.pool != 0 {
      LiveDisjoint(a, d.Backing(), h.Backing());
    }
  }

  /** The range based at `ptr`, and no other, left the heap. */
  ghost predicate HeapLost(before: set<Range>, after: set<Range>, ptr: nat) {
    exists q :: q in before && q.base == ptr && after == before - {q}
  }

  ghost predicate LiveHere(heap: set<Range>, ptr: nat) {
    exists q :: q in heap && q.base == ptr
  }

  ghost predicate AllLive(heap: set<Range>, owned: set<nat>) {
    forall p :: p in owned ==> LiveHere(heap, p)
  }

  /** A free takes the range that holds the address: any address of it, but for a pooled chunk
      only its base. */
  ghost predicate FreeEffect(before: set<Range>, after: set<Range>, ptr: nat, pooled: bool) {
    forall q :: q in after <==> q in before && !(Contains(q, ptr) && (q.base == ptr || !pooled))
  }

  lemma DevicePoolFree(a: Tracker, d: PoolState, d': PoolState, h: PoolState, q: Range, pooled: bool)
    requires Owners(a, d, h) && d.pool != 0 && d' == d.(allocations := d'.allocations)
    requires q in d.ToView().live && d'.ToView().live == d.ToView().live - {q}
    ensures HeapLost(HeapOf(a, d, h), HeapOf(a, d', h), q.base)
    ensures FreeEffect(HeapOf(a, d, h), HeapOf(a, d', h), q.base, pooled)
  {
    assert Asked(0);
    DevicePoolShrinks(a, d, d', h, q);
    HeapDisjoint(a, d, h);
    LostIsFreeEffect(HeapOf(a, d, h), HeapOf(a, d', h), q.base, pooled);
  }

  lemma HostPoolFree(a: Tracker, d: PoolState, h: PoolState, h': PoolState, q: Range, pooled: bool)
    requires Owners(a, d, h) && h.pool != 0 && h' == h.(allocations := h'.allocations)
    requires q in h.ToView().live && h'.ToView().live == h.ToView().live - {q}
    ensures HeapLost(HeapOf(a, d, h), HeapOf(a, d, h'), q.base)
    ensures FreeEffect(HeapOf(a, d, h), HeapOf(a, d, h'), q.base, pooled)
  {
    assert Asked(0);
    HostPoolShrinks(a, d, h, h', q);
    HeapDisjoint(a, d, h);
    LostIsFreeEffect(HeapOf(a, d, h), HeapOf(a, d, h'), q.base, pooled);
  }

  /** In a disjoint heap the loss of a pointer is what the event says. */
  lemma LostPointer(a: Tracker, d: PoolState, h: PoolState, after: set<Range>, ptr: nat)
    requires Owners(a, d, h) && HeapLost(HeapOf(a, d, h), after, ptr)
    ensures after == After(HeapOf(a, d, h), Lost(ptr))
  {
    assert Asked(0);
    HeapDisjoint(a, d, h);
    var q :| q in HeapOf(a, d, h) && q.base == ptr && after == HeapOf(a, d, h) - {q};
    LostIsAfter(HeapOf(a, d, h), after, q);
  }

  lemma LostIsFreeEffect(before: set<Range>, after: set<Range>, ptr: nat, pooled: bool)
    requires Disjoint(before) && HeapLost(before, after, ptr)
    ensures FreeEffect(before, after, ptr, pooled)
  {
  }

  /** The entry that the manager frees for an address in a pool is the backing allocation. */
  lemma PooledHolder(a: Tracker, p: PoolState, ptr: nat, k: nat)
    requires TrackerOrdered(a) && p.Valid() && (p.pool != 0 ==> p.Backing() in LiveRanges(a))
    requires k < |a| && Holds(a[k], ptr) && p.pool <= ptr < p.poolEnd
    ensures p.pool != 0 && RangeOf(a[k]) == p.Backing()
  {
    LiveMeaning(a);
    var e :| e in a && !e.value.isSavedForReuse && RangeOf(e) == p.Backing();
    var m :| 0 <= m < |a| && a[m] == e;
    HolderIsUnique(a, m, ptr);
  }

  /** What becomes of a live range that holds the address. */
  lemma HeldRange(a: Tracker, d: PoolState, h: PoolState, ptr: nat, k: nat, q: Range)
    requires Owners(a, d, h) && !HasBase(d.allocations, ptr) && !HasBase(h.allocations, ptr)
    requires k < |a| && Holds(a[k], ptr) && q in HeapOf(a, d, h) && Contains(q, ptr)
    ensures q.base == ptr || !(d.pool <= ptr < d.poolEnd || h.pool <= ptr < h.poolEnd) ==>
              q !in d.ToView().live && q !in h.ToView().live && RangeOf(a[k]) == q
  {
    assert Asked(0);
    PoolOwns(a, d, h, d, q, ptr);
    PoolOwns(a, d, h, h, q, ptr);
    ManagerHolds(a, d, h, q, ptr);
    PoolDisjoint(d);
    PoolDisjoint(h);
  }

  lemma RangeAfterFree(a: Tracker, b: Tracker, d: PoolState, h: PoolState, ptr: nat, k: nat, q: Range)
    requires Owners(a, d, h) && !HasBase(d.allocations, ptr) && !HasBase(h.allocations, ptr)
    requires k < |a| && Holds(a[k], ptr) && LiveRanges(b) == LiveRanges(a) - {RangeOf(a[k])}
    ensures q in HeapOf(b, d, h) <==>
            && q in HeapOf(a, d, h)
            && !(Contains(q, ptr) && (q.base == ptr || !(d.pool <= ptr < d.poolEnd || h.pool <= ptr < h.poolEnd)))
  {
    assert Asked(0);
    if q in HeapOf(a, d, h) && Contains(q, ptr) {
      HeldRange(a, d, h, ptr, k, q);
    }
    if d.pool <= ptr < d.poolEnd {
      PooledHolder(a, d, ptr, k);
    } else if h.pool <= ptr < h.poolEnd {
      PooledHolder(a, h, ptr, k);
    }
  }

  /** The heap after the manager's turn, for every address. */
  lemma ManagerFreeExact(a: Tracker, b: Tracker, d: PoolState, h: PoolState, ptr: nat, ok: bool, k: int)
    requires Owners(a, d, h) && !HasBase(d.allocations, ptr) && !HasBase(h.allocations, ptr)
    requires ok <==> Covered(a, ptr)
    requires !ok ==> b == a
    requires ok ==> 0 <= k < |a| && Holds(a[k], ptr) && LiveRanges(b) == LiveRanges(a) - {RangeOf(a[k])}
    ensures FreeEffect(HeapOf(a, d, h), HeapOf(b, d, h), ptr, d.pool <= ptr < d.poolEnd || h.pool <= ptr < h.poolEnd)
  {
    assert Asked(0);
    var pooled := d.pool <= ptr < d.poolEnd || h.pool <= ptr < h.poolEnd;
    forall q
      ensures q in HeapOf(b, d, h) <==> q in HeapOf(a, d, h) && !(Contains(q, ptr) && (q.base == ptr || !pooled))
    {
      if ok {
        RangeAfterFree(a, b, d, h, ptr, k, q);
      } else if q in HeapOf(a, d, h) && Contains(q, ptr) {
        ManagerHolds(a, d, h, q, ptr);
      }
    }
  }

  /** What a free by the manager does to the heap and to the backing allocations. */
  lemma ManagerFreeEffect(a: Tracker, b: Tracker, d: PoolState, h: PoolState, ptr: nat, ok: bool, k: int)
    requires Owners(a, d, h) && !HasBase(d.allocations, ptr) && !HasBase(h.allocations, ptr)
    requires ok <==> Covered(a, ptr)
    requires !ok ==> b == a
    requires ok ==> 0 <= k < |a| && Holds(a[k], ptr) && LiveRanges(b) == LiveRanges(a) - {RangeOf(a[k])}
    ensures LiveHere(HeapOf(a, d, h), ptr) ==>
              ok && LiveBase(a, ptr) && BackingsListed(b, d, h) && HeapLost(HeapOf(a, d, h), HeapOf(b, d, h), ptr)
    ensures d.pool != 0 ==> (d.Backing() in LiveRanges(b) <==> !(d.pool <= ptr < d.poolEnd))
    ensures h.pool != 0 ==> (h.Backing() in LiveRanges(b) <==> !(h.pool <= ptr < h.poolEnd))
  {
    assert Asked(0);
    BackingFate(a, b, d, ptr, ok, k);
    BackingFate(a, b, h, ptr, ok, k);
    if LiveHere(HeapOf(a, d, h), ptr) {
      var q :| q in HeapOf(a, d, h) && q.base == ptr;
      HeapDisjoint(a, d, h);
      PoolOwns(a, d, h, d, q, ptr);
      PoolOwns(a, d, h, h, q, ptr);
      ManagerHolds(a, d, h, q, ptr);
      assert a[k] in a;
      LiveMeaning(a);
      ManagerShrinks(a, b, d, h, q);
    }
  }

  /** A listed backing allocation goes exactly when the freed address lies in it. */
  lemma BackingFate(a: Tracker, b: Tracker, p: PoolState, ptr: nat, ok: bool, k: int)
    requires TrackerOrdered(a) && p.Valid() && (p.pool != 0 ==> p.Backing() in LiveRanges(a))
    requires ok <==> Covered(a, ptr)
    requires !ok ==> b == a
    requires ok ==> 0 <= k < |a| && Holds(a[k], ptr) && LiveRanges(b) == LiveRanges(a) - {RangeOf(a[k])}
    ensures p.pool != 0 ==> (p.Backing() in LiveRanges(b) <==> !(p.pool <= ptr < p.poolEnd))
  {
    if p.pool != 0 {
      LiveMeaning(a);
      var e :| e in a && !e.value.isSavedForReuse && RangeOf(e) == p.Backing();
      var m :| 0 <= m < |a| && a[m] == e;
      if p.pool <= ptr < p.poolEnd {
        assert Holds(a[m], ptr);
        HolderIsUnique(a, m, ptr);
      }
    }
  }
}
