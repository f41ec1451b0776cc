/** The USM pool: one backing allocation of the SVM manager, cut into chunks by a heap
    allocator, with its own address-ordered vector of the chunks in use. */
module UsmPools {
  import opened Options
  import opened Alignment
  import opened Chunks
  import opened HeapAllocators
  import opened SortedVectors
  import opened SvmManagers
  import opened Guards

  const CHUNK_ALIGNMENT: nat := 512
  const POOL_ALIGNMENT: nat := 2 * MEGABYTE

  datatype AllocationInfo = AllocationInfo(address: nat, requestedSize: nat)

  type PoolVector = seq<Entry<AllocationInfo>>

  function PooledRange(e: Entry<AllocationInfo>, kind: MemoryType): Range {
    Range(e.ptr, e.size, e.value.requestedSize, kind)
  }

  ghost function PooledRanges(v: PoolVector, kind: MemoryType): set<Range> {
    if v == [] then {} else {PooledRange(v[0], kind)} + PooledRanges(v[1..], kind)
  }

  ghost function PooledSet(v: PoolVector, kind: MemoryType): set<Range> {
    set e | e in v :: PooledRange(e, kind)
  }

  lemma {:induction false} PooledMeaning(v: PoolVector, kind: MemoryType)
    ensures PooledRanges(v, kind) == PooledSet(v, kind)
  {
    if v != [] {
      PooledMeaning(v[1..], kind);
      assert v == [v[0]] + v[1..];
    }
  }

  /** Every pooled chunk lies in the pool and knows its own address. */
  ghost predicate PoolVectorValid(v: PoolVector, pool: int, poolEnd: int) {
    && Ordered(v)
    && forall i :: 0 <= i < |v| ==>
         && v[i].value.address == v[i].ptr && 0 < v[i].value.requestedSize <= v[i].size
         && pool <= v[i].ptr && v[i].ptr + v[i].size <= poolEnd
  }

  /** Each address of the pool is either free or in exactly one chunk in use. */
  ghost predicate Partition(s: Space, v: PoolVector, pool: int, poolEnd: int) {
    forall x :: pool <= x < poolEnd ==> (s.At(x) == 0 <==> Covered(v, x))
  }

  /** The heap range that was just taken is apart from every chunk in use. */
  lemma TakenIsApart(s: Space, t: Space, v: PoolVector, pool: int, poolEnd: int, ptr: nat, size: nat)
    requires s.Valid(pool, poolEnd) && s.Takes(t, ptr, size) && size > 0
    requires PoolVectorValid(v, pool, poolEnd) && Partition(s, v, pool, poolEnd)
    ensures forall i :: 0 <= i < |v| ==> Apart(v[i].ptr, v[i].size, ptr, size)
  {
    forall i | 0 <= i < |v|
      ensures Apart(v[i].ptr, v[i].size, ptr, size)
    {
      if !Apart(v[i].ptr, v[i].size, ptr, size) {
        var x := if v[i].ptr < ptr then ptr else v[i].ptr;
        assert s.At(x) == t.At(x) + Hit(ptr, size, x);
        assert Holds(v[i], x);
      }
    }
  }

  lemma TakeKeepsPartition(s: Space, t: Space, v: PoolVector, r: PoolVector, k: int, e: Entry<AllocationInfo>,
      pool: int, poolEnd: int)
    requires s.Valid(pool, poolEnd) && s.Takes(t, e.ptr, e.size)
    requires Partition(s, v, pool, poolEnd) && InsertedAt(v, r, k, e)
    ensures Partition(t, r, pool, poolEnd)
  {
    forall x | pool <= x < poolEnd
      ensures t.At(x) == 0 <==> Covered(r, x)
    {
      assert s.At(x) == t.At(x) + Hit(e.ptr, e.size, x);
      InsertCovers(v, r, k, e, x);
      assert s.At(x) <= 1;
    }
  }

  lemma GiveKeepsPartition(s: Space, t: Space, v: PoolVector, r: PoolVector, k: int, pool: int, poolEnd: int)
    requires PoolVectorValid(v, pool, poolEnd) && RemovedAt(v, r, k)
    requires t.Valid(pool, poolEnd) && t.Takes(s, v[k].ptr, v[k].size)
    requires Partition(s, v, pool, poolEnd)
    ensures Partition(t, r, pool, poolEnd)
  {
    forall x | pool <= x < poolEnd
      ensures t.At(x) == 0 <==> Covered(r, x)
    {
      assert t.At(x) == s.At(x) + Hit(v[k].ptr, v[k].size, x);
      RemoveUncovers(v, r, k, x);
    }
  }

  lemma InsertPooledRange(v: PoolVector, r: PoolVector, k: int, e: Entry<AllocationInfo>, kind: MemoryType)
    requires InsertedAt(v, r, k, e) && Ordered(r)
    ensures Added(PooledRanges(v, kind), PooledRanges(r, kind), PooledRange(e, kind))
  {
    assert r[k] == e;
    InsertMembers(v, r, k, e);
    PooledMeaning(r, kind);
    PooledMeaning(v, kind);
    assert PooledSet(r, kind) == PooledSet(v, kind) + {PooledRange(e, kind)};
    forall q | q in PooledSet(v, kind)
      ensures q != PooledRange(e, kind) && Apart(q.base, q.extent, e.ptr, e.size)
    {
      var f :| f in v && PooledRange(f, kind) == q;
      InsertedApart(v, r, k, e, f);
    }
  }

  lemma InsertedApart(v: PoolVector, r: PoolVector, k: int, e: Entry<AllocationInfo>, f: Entry<AllocationInfo>)
    requires InsertedAt(v, r, k, e) && Ordered(r) && f in v
    ensures e.size > 0 && f.size > 0 && Apart(f.ptr, f.size, e.ptr, e.size)
  {
    var i :| 0 <= i < |v| && v[i] == f;
    assert r[k] == e;
    assert r[if i < k then i else i + 1] == f;
  }

  lemma RemovePooledSet(v: PoolVector, r: PoolVector, k: int, kind: MemoryType)
    requires Ordered(v) && RemovedAt(v, r, k)
    ensures PooledSet(r, kind) == PooledSet(v, kind) - {PooledRange(v[k], kind)}
    ensures PooledRange(v[k], kind) in PooledSet(v, kind)
  {
  }

  lemma RemovePooledRange(v: PoolVector, r: PoolVector, k: int, kind: MemoryType)
    requires Ordered(v) && RemovedAt(v, r, k)
    ensures PooledRanges(r, kind) == PooledRanges(v, kind) - {PooledRange(v[k], kind)}
    ensures PooledRange(v[k], kind) in PooledRanges(v, kind)
  {
    RemovePooledSet(v, r, k, kind);
    PooledMeaning(v, kind);
    PooledMeaning(r, kind);
  }

  class UsmMemAllocPool {
    var chunkAllocator: HeapAllocator?
    var pool: nat
    var poolEnd: nat
    var poolMemoryType: MemoryType
    var minServicedSize: nat
    var maxServicedSize: nat
    var allocations: PoolVector

    constructor ()
      ensures Valid() && pool == 0 && chunkAllocator == null
    {
      chunkAllocator, pool, poolEnd, poolMemoryType := null, 0, 0, SharedMemory;
      minServicedSize, maxServicedSize, allocations := 0, 0, [];
    }

    predicate IsInitialized()
      reads this
    {
      pool != 0
    }

    predicate IsInPool(ptr: nat)
      reads this
    {
      pool <= ptr < poolEnd
    }

    /** The invariant, passed on unopened by those who only use the pool. */
    ghost predicate Valid()
      reads this, chunkAllocator
    {
      forall n {:trigger Asked(n)} :: Asked(n) ==> Inv()
    }

    lemma Open()
      requires Valid()
      ensures Inv()
    {
      assert Asked(0);
    }

    ghost predicate Inv()
      reads this, chunkAllocator
    {
      if pool == 0 then
        allocations == [] && poolEnd == 0
      else
        && pool < poolEnd
        && chunkAllocator != null && chunkAllocator.Valid()
        && chunkAllocator.baseAddress == pool && chunkAllocator.End() == poolEnd
        && chunkAllocator.allocationAlignment == CHUNK_ALIGNMENT
        && PoolVectorValid(allocations, pool, poolEnd)
        && Partition(chunkAllocator.Free(), allocations, pool, poolEnd)
    }

    ghost function Live(): set<Range>
      reads this
    {
      PooledRanges(allocations, poolMemoryType)
    }

    /** The backing allocation as the SVM manager lists it. */
    ghost function Backing(): Range
      reads this
      requires pool <= poolEnd
    {
      Range(pool, poolEnd - pool, poolEnd - pool, poolMemoryType)
    }

    predicate SizeIsAllowed(size: nat)
      reads this
    {
      minServicedSize <= size <= maxServicedSize
    }

    static predicate AlignmentIsAllowed(alignment: nat) {
      alignment % CHUNK_ALIGNMENT == 0 && alignment <= POOL_ALIGNMENT
    }

    static predicate FlagsAreAllowed(p: Properties) {
      p.flags.other == 0 && p.flags.alloc == 0
    }

    predicate CanBePooled(size: nat, p: Properties)
      reads this
    {
      SizeIsAllowed(size) && AlignmentIsAllowed(p.alignment) && FlagsAreAllowed(p) && p.memoryType == poolMemoryType
    }

    /** The heap can serve the request, at once, after tidying up or by the retry. */
    ghost predicate HasRoom(requestedSize: nat, alignment: nat)
      reads this, chunkAllocator
    {
      forall n {:trigger Asked(n)} :: Asked(n) ==> HeapServes(requestedSize, alignment)
    }

    ghost predicate HeapServes(requestedSize: nat, alignment: nat)
      reads this, chunkAllocator
    {
      chunkAllocator != null && chunkAllocator.allocationAlignment > 0 &&
      var size := AlignUp(requestedSize, chunkAllocator.allocationAlignment);
      && chunkAllocator.Free().Bytes() >= size
      && !chunkAllocator.Free().Exhausted(size > chunkAllocator.sizeThreshold, size,
                                          chunkAllocator.Effective(alignment))
    }

    /** The pool serves this request. */
    ghost predicate Pools(size: nat, p: Properties)
      reads this, chunkAllocator
    {
      IsInitialized() && CanBePooled(size, p) && HasRoom(size, p.alignment)
    }

    /** An initialized pool serves exactly the requests of its memory type, without flags, of a size
        it is for and an alignment of whole chunks up to 2 MB, for which its heap has room. */
    lemma PoolsExact(size: nat, p: Properties)
      ensures Pools(size, p) <==>
                && pool != 0 && minServicedSize <= size <= maxServicedSize && p.memoryType == poolMemoryType
                && p.flags.other == 0 && p.flags.alloc == 0
                && p.alignment % 512 == 0 && p.alignment <= 0x20_0000
                && HeapServes(size, p.alignment)
    {
      assert Asked(0);
    }

    /** A heap whose gap has room at an aligned address serves the request. */
    lemma GapServes(size: nat, p: Properties, at: int)
      requires Valid() && chunkAllocator != null && pool != 0 && minServicedSize <= size <= maxServicedSize && size > 0
      requires p.memoryType == poolMemoryType && p.flags.other == 0 && p.flags.alloc == 0
      requires p.alignment % 512 == 0 && p.alignment <= 0x20_0000
      requires var s, a := chunkAllocator.Free(), if p.alignment == 0 then 512 else p.alignment;
               s.Bytes() >= AlignUp(size, 512) && IsAligned(at, a) && s.left <= at && at + AlignUp(size, 512) <= s.right
      ensures Pools(size, p)
    {
      Open();
      var s, a := chunkAllocator.Free(), if p.alignment == 0 then 512 else p.alignment;
      GapExact(s, AlignUp(size, 512) > chunkAllocator.sizeThreshold, AlignUp(size, 512), a);
      PoolsExact(size, p);
    }

    /** The sizes of the pool and of the requests it serves. */
    ghost predicate Shaped(poolSize: nat, minServicedSize: nat, maxServicedSize: nat)
      reads this
    {
      && poolEnd == pool + poolSize
      && this.minServicedSize == minServicedSize && this.maxServicedSize == maxServicedSize
    }

    /** Takes its backing allocation from the manager. */
    method Initialize(svm: SvmAllocsManager, p: Properties, poolSize: nat, minServicedSize: nat, maxServicedSize: nat)
        returns (ok: bool)
      requires svm.Valid() && Valid() && pool == 0 && poolSize > 0
      requires p.device.Some? || p.rootDeviceIndices != []
      modifies this, svm
      ensures Valid() && svm.Valid()
      ensures svm.Creates(pool, poolSize, p.memoryType, p, svm.DeviceAsk(poolSize, p))
      ensures ok <==> pool != 0
      ensures !ok ==> unchanged(this)
      ensures ok ==> poolMemoryType == p.memoryType && Shaped(poolSize, minServicedSize, maxServicedSize)
      ensures ok ==> fresh(chunkAllocator)
      ensures allocations == [] && Live() == {}
    {
      Open();
      var ptr, reused := svm.CreateUnifiedMemoryAllocation(poolSize, p);
      if ptr == 0 {
        return false;
      }
      Start(ptr, poolSize, p.memoryType, minServicedSize, maxServicedSize);
      return true;
    }

    /** The second initialize: an empty heap on the allocation at `ptr`. */
    method Start(ptr: nat, size: nat, kind: MemoryType, minServicedSize: nat, maxServicedSize: nat)
      requires ptr > 0 && size > 0 && allocations == []
      modifies this
      ensures Inv() && fresh(chunkAllocator) && allocations == [] && pool == ptr && poolMemoryType == kind
      ensures Shaped(size, minServicedSize, maxServicedSize)
    {
      chunkAllocator := new HeapAllocator(ptr, size, CHUNK_ALIGNMENT, maxServicedSize / 2);
      pool := ptr;
      poolEnd := ptr + size;
      poolMemoryType := kind;
      this.minServicedSize := minServicedSize;
      this.maxServicedSize := maxServicedSize;
    }

    /** Serves a request from the pool, or returns null when the pool does not take it. */
    method CreateUnifiedMemoryAllocation(svm: SvmAllocsManager, requestedSize: nat, p: Properties)
        returns (ptr: nat, ghost extent: nat)
      requires Valid() && svm.Valid() && requestedSize > 0
      modifies this`allocations, chunkAllocator, svm`allocationsCounter
      ensures Valid() && svm.Valid()
      ensures ptr == 0 ==> allocations == old(allocations) && svm.allocationsCounter == old(svm.allocationsCounter)
      ensures ptr != 0 <==> old(Pools(requestedSize, p))
      ensures ptr != 0 ==> pool != 0 && p.memoryType == poolMemoryType
      ensures ptr != 0 ==> svm.allocationsCounter == old(svm.allocationsCounter) + 1
      ensures ptr != 0 ==>
                Added(old(Live()), Live(), Range(ptr, extent, requestedSize, poolMemoryType)) && requestedSize <= extent
      ensures ptr != 0 ==> pool <= ptr && ptr + extent <= poolEnd
      ensures ptr != 0 && p.alignment != 0 ==> IsAligned(ptr, p.alignment)
    {
      Open();
      extent := 0;
      if !IsInitialized() || !CanBePooled(requestedSize, p) {
        return 0, extent;
      }
      ptr, extent := Carve(requestedSize, p.alignment);
      if ptr != 0 {
        svm.CountAllocation();
      }
    }

    /** Takes a chunk from the heap and enters it. */
    method Carve(requestedSize: nat, alignment: nat) returns (ptr: nat, ghost extent: nat)
      requires Inv() && pool != 0 && requestedSize > 0 && AlignmentIsAllowed(alignment)
      modifies this`allocations, chunkAllocator
      ensures Inv()
      ensures ptr != 0 <==> old(HasRoom(requestedSize, alignment))
      ensures ptr == 0 ==> allocations == old(allocations)
      ensures ptr != 0 ==>
                Added(old(Live()), Live(), Range(ptr, extent, requestedSize, poolMemoryType)) && requestedSize <= extent
      ensures ptr != 0 ==> pool <= ptr && ptr + extent <= poolEnd
      ensures ptr != 0 && alignment != 0 ==> IsAligned(ptr, alignment)
    {
      extent := 0;
      assert Asked(0);
      var r := TakeChunk(requestedSize, alignment);
      if !r.Allocated? {
        SameKeepsPartition(old(chunkAllocator.Free()), chunkAllocator.Free(), allocations, pool, poolEnd);
        return 0, extent;
      }
      ptr, extent := r.ptr, r.size;
      Track(r.ptr, r.size, requestedSize, old(chunkAllocator.Free()));
    }

    /** Asks the heap: the alignments that pools allow never send it into the endless retry. */
    method TakeChunk(requestedSize: nat, alignment: nat) returns (r: Outcome)
      requires Inv() && pool != 0 && requestedSize > 0 && AlignmentIsAllowed(alignment)
      modifies chunkAllocator
      ensures chunkAllocator.Valid() && !r.Diverges?
      ensures r.Allocated? <==> old(HeapServes(requestedSize, alignment))
      ensures !r.Allocated? ==> old(chunkAllocator.Free()).Same(chunkAllocator.Free())
      ensures r.Allocated? ==>
                && requestedSize <= r.size && pool <= r.ptr && r.ptr + r.size <= poolEnd
                && old(chunkAllocator.Free()).Takes(chunkAllocator.Free(), r.ptr, r.size)
                && (alignment != 0 ==> IsAligned(r.ptr, alignment))
    {
      r := chunkAllocator.AllocateWithCustomAlignment(requestedSize, alignment);
    }

    /** Enters a chunk that the heap just handed out. */
    method Track(ptr: nat, size: nat, requestedSize: nat, ghost s: Space)
      requires chunkAllocator != null && pool != 0 && pool < poolEnd
      requires chunkAllocator.Valid() && chunkAllocator.baseAddress == pool && chunkAllocator.End() == poolEnd
      requires chunkAllocator.allocationAlignment == CHUNK_ALIGNMENT
      requires PoolVectorValid(allocations, pool, poolEnd) && Partition(s, allocations, pool, poolEnd)
      requires s.Valid(pool, poolEnd) && s.Takes(chunkAllocator.Free(), ptr, size)
      requires 0 < requestedSize <= size && pool <= ptr && ptr + size <= poolEnd
      modifies this`allocations
      ensures Inv()
      ensures Added(old(Live()), Live(), Range(ptr, size, requestedSize, poolMemoryType))
    {
      var e := Entry(ptr, size, AllocationInfo(ptr, requestedSize));
      TakenIsApart(s, chunkAllocator.Free(), allocations, pool, poolEnd, ptr, size);
      ghost var k;
      allocations, k := SortedVectors.Insert(allocations, e);
      TakeKeepsPartition(s, chunkAllocator.Free(), old(allocations), allocations, k, e, pool, poolEnd);
      InsertPooledRange(old(allocations), allocations, k, e, poolMemoryType);
      InsertMembers(old(allocations), allocations, k, e);
      MembersKeepValid(old(allocations), allocations, e, pool, poolEnd);
    }

    /** Gives back the chunk with this very base. */
    method FreeSVMAlloc(ptr: nat) returns (ok: bool, ghost q: Range)
      requires Valid()
      modifies this`allocations, chunkAllocator
      ensures Valid()
      ensures ok <==> HasBase(old(allocations), ptr)
      ensures !ok ==> allocations == old(allocations)
      ensures ok ==> pool != 0 && q in old(Live()) && q.base == ptr && Live() == old(Live()) - {q}
    {
      Open();
      q := Range(0, 0, 0, SharedMemory);
      if !(IsInitialized() && IsInPool(ptr)) {
        return false, q;
      }
      var k;
      var v := allocations;
      allocations, k := Extract(allocations, ptr);
      if k < 0 {
        return false, q;
      }
      q := PooledRange(v[k], poolMemoryType);
      RemovePooledRange(v, allocations, k, poolMemoryType);
      GiveBack(v, k);
      ok := true;
    }

    /** The heap gets back the chunk that just left the vector. */
    method GiveBack(v: PoolVector, k: nat)
      requires chunkAllocator != null && pool != 0 && pool < poolEnd
      requires chunkAllocator.Valid() && chunkAllocator.baseAddress == pool && chunkAllocator.End() == poolEnd
      requires chunkAllocator.allocationAlignment == CHUNK_ALIGNMENT
      requires PoolVectorValid(v, pool, poolEnd) && Partition(chunkAllocator.Free(), v, pool, poolEnd)
      requires k < |v| && RemovedAt(v, allocations, k)
      modifies chunkAllocator
      ensures Inv()
    {
      CoveredIsTaken(chunkAllocator.Free(), v, k, pool, poolEnd);
      chunkAllocator.Release(v[k].value.address, v[k].size);
      GiveKeepsPartition(old(chunkAllocator.Free()), chunkAllocator.Free(), v, allocations, k, pool, poolEnd);
      RemovedStaysValid(v, allocations, k, pool, poolEnd);
    }

    /** The requested size of the chunk that holds `ptr`, or 0. */
    method GetPooledAllocationSize(ptr: nat) returns (size: nat)
      requires Valid()
      ensures size == 0 <==> !Covered(allocations, ptr)
      ensures forall i :: 0 <= i < |allocations| && Holds(allocations[i], ptr) ==>
                size == allocations[i].value.requestedSize
    {
      Open();
      if IsInitialized() && IsInPool(ptr) {
        var k := GetImpl(allocations, ptr, true);
        if k >= 0 {
          return allocations[k].value.requestedSize;
        }
      }
      return 0;
    }

    /** The base of the chunk that holds `ptr`, or null. */
    method GetPooledAllocationBasePtr(ptr: nat) returns (base: nat)
      requires Valid()
      ensures base == 0 <==> !Covered(allocations, ptr)
      ensures forall i :: 0 <= i < |allocations| && Holds(allocations[i], ptr) ==> base == allocations[i].ptr
    {
      Open();
      if IsInitialized() && IsInPool(ptr) {
        var k := GetImpl(allocations, ptr, true);
        if k >= 0 {
          return allocations[k].value.address;
        }
      }
      return 0;
    }
  }

  lemma SameKeepsPartition(s: Space, t: Space, v: PoolVector, pool: int, poolEnd: int)
    requires s.Same(t) && Partition(s, v, pool, poolEnd)
    ensures Partition(t, v, pool, poolEnd)
  {
  }

  lemma MembersKeepValid(v: PoolVector, r: PoolVector, e: Entry<AllocationInfo>, pool: int, poolEnd: int)
    requires PoolVectorValid(v, pool, poolEnd) && Ordered(r)
    requires forall f :: f in r <==> f in v || f == e
    requires e.value.address == e.ptr && 0 < e.value.requestedSize <= e.size
    requires pool <= e.ptr && e.ptr + e.size <= poolEnd
    ensures PoolVectorValid(r, pool, poolEnd)
  {
    forall i | 0 <= i < |r|
      ensures r[i].value.address == r[i].ptr && 0 < r[i].value.requestedSize <= r[i].size && pool <= r[i].ptr &&
                r[i].ptr + r[i].size <= poolEnd
    {
      assert r[i] in r;
    }
  }

  lemma RemovedStaysValid(v: PoolVector, r: PoolVector, k: nat, pool: int, poolEnd: int)
    requires PoolVectorValid(v, pool, poolEnd) && k < |v| && RemovedAt(v, r, k)
    ensures PoolVectorValid(r, pool, poolEnd)
  {
  }

  /** No address of a chunk in use is free. */
  lemma CoveredIsTaken(s: Space, v: PoolVector, k: nat, pool: int, poolEnd: int)
    requires PoolVectorValid(v, pool, poolEnd) && Partition(s, v, pool, poolEnd) && k < |v|
    ensures forall x :: v[k].ptr <= x < v[k].ptr + v[k].size ==> s.At(x) == 0
  {
  }
}
