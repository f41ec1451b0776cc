/** The SVM manager: the tracker of OS-backed USM allocations and the two caches that keep
    freed device and host allocations for reuse. */
module SvmManagers {
  import opened Options
  import opened Alignment
  import opened SortedVectors
  import opened Guards

  datatype MemoryType = DeviceMemory | HostMemory | SharedMemory

  /** What the tracker knows of one allocation.  `bytes` is the size of the underlying
      buffer, the tracked entry's own size is what the application asked for. */
  datatype SvmData = SvmData(
    bytes: nat,
    memoryType: MemoryType,
    allocId: nat,
    roots: set<nat>,
    device: Option<Device>,
    flags: Flags,
    isSavedForReuse: bool)

  type Tracker = seq<Entry<SvmData>>

  /** MemoryProperties: the compression hints apart from all other flags. */
  datatype Flags = Flags(compressedHint: bool, uncompressedHint: bool, other: nat, alloc: nat)

  datatype Device = Device(id: nat, root: nat, maxMemAllocSize: nat)

  /** UnifiedMemoryProperties of a request. */
  datatype Properties = Properties(
    memoryType: MemoryType,
    alignment: nat,
    flags: Flags,
    device: Option<Device>,
    rootDeviceIndices: seq<nat>)
  {
    function RootDeviceIndex(): nat
      requires device.Some? || rootDeviceIndices != []
    {
      if device.Some? then device.value.root else rootDeviceIndices[0]
    }

    function AllRoots(): set<nat> {
      set r | r in rootDeviceIndices
    }
  }

  datatype CacheEntry = CacheEntry(allocationSize: nat, ptr: nat)

  datatype Held = Held(ptr: nat, bytes: nat)

  /** What the OS is asked for: whole pages for `size` bytes, aligned. */
  datatype Ask = Ask(size: nat, page: nat, alignment: nat) {
    function Bytes(): (r: nat)
      ensures r >= size
    {
      if page == 0 then size else AlignUp(size, page)
    }
  }

  /** The environment: where the OS puts a block at a given moment while others are held,
      whether the GPU still uses an allocation, whether reuse is limited, and whether a cache
      is full. */
  datatype Env = Env(
    os: (nat, seq<Held>, Ask) -> Option<nat>,
    busy: (nat, nat) -> bool,
    reuseLimited: nat -> bool,
    cacheFull: (nat, nat) -> bool)
  {
    /** The OS never hands out a null block, one that is not aligned as asked or one that overlaps
        a held block. */
    ghost predicate Sound() {
      forall t: nat, held: seq<Held>, ask: Ask :: os(t, held, ask).Some? ==>
        && os(t, held, ask).value > 0
        && (ask.alignment > 0 ==> IsAligned(os(t, held, ask).value, ask.alignment))
        && forall i :: 0 <= i < |held| ==> Apart(held[i].ptr, held[i].bytes, os(t, held, ask).value, ask.Bytes())
    }

    /** The OS refuses the block at that moment. */
    predicate Refuses(time: nat, held: seq<Held>, ask: Ask) {
      os(time, held, ask).None?
    }
  }

  /** What the process holds of the OS. */
  function HeldOf(a: Tracker): (r: seq<Held>)
    ensures |r| == |a|
    ensures forall i :: 0 <= i < |r| ==> r[i] == Held(a[i].ptr, a[i].value.bytes)
  {
    seq(|a|, i requires 0 <= i < |a| => Held(a[i].ptr, a[i].value.bytes))
  }

  type SoundEnv = e: Env | e.Sound() witness Env((t, h, n) => None, (t, p) => false, t => false, (t, n) => false)

  /** One live allocation as the application sees it: `extent` addresses from `base` on
      belong to it, `size` is what a size query reports. */
  datatype Range = Range(base: nat, extent: nat, size: nat, kind: MemoryType)

  function RangeOf(e: Entry<SvmData>): Range {
    Range(e.ptr, e.size, e.size, e.value.memoryType)
  }

  /** The allocations in use: tracked and not saved for reuse. */
  ghost function LiveRanges(a: Tracker): set<Range> {
    if a == [] then {}
    else (if a[0].value.isSavedForReuse then {} else {RangeOf(a[0])}) + LiveRanges(a[1..])
  }

  ghost function LiveSet(a: Tracker): set<Range> {
    set e | e in a && !e.value.isSavedForReuse :: RangeOf(e)
  }

  lemma {:induction false} LiveMeaning(a: Tracker)
    ensures LiveRanges(a) == LiveSet(a)
  {
    if a != [] {
      LiveMeaning(a[1..]);
      assert a == [a[0]] + a[1..];
    }
  }

  /** The identity of an OS block: fixed from its creation until it leaves the tracker. */
  datatype Block = Block(ptr: nat, bytes: nat, id: nat, roots: set<nat>)

  function BlockOf(e: Entry<SvmData>): Block {
    Block(e.ptr, e.value.bytes, e.value.allocId, e.value.roots)
  }

  ghost function Blocks(a: Tracker): set<Block> {
    if a == [] then {} else {BlockOf(a[0])} + Blocks(a[1..])
  }

  ghost function BlockSet(a: Tracker): set<Block> {
    set e | e in a :: BlockOf(e)
  }

  lemma {:induction false} BlocksMeaning(a: Tracker)
    ensures Blocks(a) == BlockSet(a)
  {
    if a != [] {
      BlocksMeaning(a[1..]);
      assert a == [a[0]] + a[1..];
    }
  }

  lemma Meaning(a: Tracker)
    ensures LiveRanges(a) == LiveSet(a) && Blocks(a) == BlockSet(a)
  {
  }

  /** Blocks come only with a number above the old counter. */
  ghost predicate Evolves(before: set<Block>, counter: nat, after: set<Block>, counter': nat) {
    && counter <= counter'
    && forall b :: b in after ==> b in before || counter < b.id <= counter'
  }

  /** Underlying buffers are disjoint and in order and hold the requested bytes. */
  ghost predicate TrackerOrdered(a: Tracker) {
    && (forall i :: 0 <= i < |a| ==> a[i].ptr > 0 && 0 < a[i].size <= a[i].value.bytes)
    && (forall i, j :: 0 <= i < j < |a| ==> a[i].ptr + a[i].value.bytes <= a[j].ptr)
  }

  ghost predicate IdsUnique(a: Tracker, counter: nat) {
    && (forall i :: 0 <= i < |a| ==> 0 < a[i].value.allocId <= counter)
    && (forall i, j :: 0 <= i < j < |a| ==> a[i].value.allocId != a[j].value.allocId)
  }

  /** A pointer has the alignment that was asked for.  Rounding to pages keeps powers of two. */
  ghost predicate AlignedAs(ptr: nat, alignment: nat) {
    PowerOfTwo(alignment) ==> alignment > 0 && IsAligned(ptr, alignment)
  }

  /** A request rounded up to pages, as it goes to the OS. */
  function Rounded(size: nat, alignment: nat, page: nat): Ask
    requires page > 0
  {
    Ask(size, page, AlignUpNonZero(alignment, page))
  }

  ghost predicate InPages(ask: Ask, size: nat, alignment: nat, page: nat)
    requires page > 0
  {
    && size <= ask.Bytes() < size + page && ask.Bytes() % page == 0
    && ask.alignment % page == 0 && ask.alignment > 0
    && (alignment == 0 ==> ask.alignment == page)
    && (alignment > 0 ==> alignment <= ask.alignment < alignment + page)
  }

  lemma RoundedInPages(size: nat, alignment: nat, page: nat)
    requires page > 0
    ensures InPages(Rounded(size, alignment, page), size, alignment, page)
  {
    AlignUpIsAligned(size, page);
    AlignUpIsAligned(alignment, page);
    UniqueRemainder(page, 1, 0, page);
  }

  /** What is aligned for the OS is aligned as asked for. */
  ghost predicate Honours(ask: Ask, alignment: nat) {
    ask.alignment > 0 && (PowerOfTwo(alignment) ==> alignment > 0 && ask.alignment % alignment == 0)
  }

  lemma HonouredIsAligned(ask: Ask, ptr: nat, alignment: nat)
    requires Honours(ask, alignment) && IsAligned(ptr, ask.alignment)
    ensures AlignedAs(ptr, alignment)
  {
    if PowerOfTwo(alignment) {
      MultipleOfMultiple(ptr, ask.alignment, alignment);
    }
  }

  lemma RoundedHonours(size: nat, alignment: nat, page: nat)
    requires page == PAGE_SIZE || page == PAGE_SIZE_64K || page == PAGE_SIZE_2M
    ensures Honours(Rounded(size, alignment, page), alignment)
  {
    assert Pow2(12) == PAGE_SIZE && Pow2(16) == PAGE_SIZE_64K && Pow2(21) == PAGE_SIZE_2M;
    if PowerOfTwo(alignment) {
      RoundedPower(alignment, page);
    }
  }

  /** Blocks aligned for the OS are aligned as asked for exactly when rounding to pages keeps the
      alignment a divisor, as it does for powers of two. */
  lemma RoundingExact(alignment: nat, page: nat)
    requires alignment > 0 && page > 0
    ensures AlignUpNonZero(alignment, page) % alignment == 0 <==>
            forall ptr: nat :: IsAligned(ptr, AlignUpNonZero(alignment, page)) ==> IsAligned(ptr, alignment)
  {
    var a := AlignUpNonZero(alignment, page);
    if a % alignment == 0 {
      forall ptr: nat | IsAligned(ptr, a)
        ensures IsAligned(ptr, alignment)
      {
        MultipleOfMultiple(ptr, a, alignment);
      }
    } else {
      UniqueRemainder(a, 1, 0, a);
      assert IsAligned(a, a);
    }
  }

  /** Memory aligned to 96 KB is asked for with 128 KB, and may not be aligned to 96 KB. */
  lemma RoundingLosesOthers()
    ensures Rounded(1, 0x1_8000, PAGE_SIZE_64K).alignment == 0x2_0000 && !IsAligned(0x2_0000, 0x1_8000)
  {
  }

  /** A cache lists tracked, saved allocations of its memory type, once each, by size. */
  ghost predicate CacheValid(a: Tracker, cache: seq<CacheEntry>, kind: MemoryType) {
    && (forall i, j :: 0 <= i < j < |cache| ==> cache[i].allocationSize <= cache[j].allocationSize)
    && (forall i, j :: 0 <= i < j < |cache| ==> cache[i].ptr != cache[j].ptr)
    && (forall i :: 0 <= i < |cache| ==> SavedIn(a, cache[i], kind))
  }

  ghost predicate SavedIn(a: Tracker, c: CacheEntry, kind: MemoryType) {
    exists k :: 0 <= k < |a| && IsSaved(a[k], c, kind)
  }

  ghost predicate IsSaved(e: Entry<SvmData>, c: CacheEntry, kind: MemoryType) {
    && e.ptr == c.ptr && e.value.bytes == c.allocationSize
    && e.value.isSavedForReuse && e.value.memoryType == kind
  }

  lemma TrackerIsOrdered(a: Tracker)
    requires TrackerOrdered(a)
    ensures Ordered(a)
  {
  }

  /* ---- effect of tracker changes on the views ---- */

  /** A tracked base belongs to one entry. */
  lemma BaseUnique(a: Tracker, e: Entry<SvmData>, f: Entry<SvmData>)
    requires TrackerOrdered(a) && e in a && f in a && e.ptr == f.ptr
    ensures e == f
  {
  }

  lemma InsertChangesViews(a: Tracker, r: Tracker, k: int, e: Entry<SvmData>)
    requires InsertedAt(a, r, k, e)
    ensures LiveRanges(r) == LiveRanges(a) + (if e.value.isSavedForReuse then {} else {RangeOf(e)})
    ensures Blocks(r) == Blocks(a) + {BlockOf(e)}
  {
    LiveMeaning(a);
    LiveMeaning(r);
    BlocksMeaning(a);
    BlocksMeaning(r);
    InsertMembers(a, r, k, e);
  }

  function Without(a: Tracker, k: nat): Tracker
    requires k < |a|
  {
    a[..k] + a[k+1..]
  }

  lemma WithoutKeepsOrder(a: Tracker, k: nat, counter: nat)
    requires TrackerOrdered(a) && IdsUnique(a, counter) && k < |a|
    ensures TrackerOrdered(Without(a, k)) && IdsUnique(Without(a, k), counter)
  {
    var r := Without(a, k);
    assert forall i :: 0 <= i < |r| ==> r[i] == a[if i < k then i else i + 1];
  }

  lemma WithoutMembers(a: Tracker, k: nat)
    requires TrackerOrdered(a) && k < |a|
    ensures forall e :: e in Without(a, k) <==> e in a && e != a[k]
  {
  }

  lemma WithoutChangesSets(a: Tracker, k: nat)
    requires TrackerOrdered(a) && k < |a|
    ensures LiveSet(Without(a, k)) == LiveSet(a) - {RangeOf(a[k])}
    ensures BlockSet(Without(a, k)) <= BlockSet(a)
  {
  }

  /** Leaving the tracker takes exactly one live range away, or none from a saved entry. */
  lemma WithoutChangesViews(a: Tracker, k: nat)
    requires TrackerOrdered(a) && k < |a|
    ensures LiveRanges(Without(a, k)) == LiveRanges(a) - {RangeOf(a[k])}
    ensures Blocks(Without(a, k)) <= Blocks(a)
  {
    WithoutChangesSets(a, k);
    Meaning(a);
    Meaning(Without(a, k));
  }

  lemma UpdateMembers(a: Tracker, k: int, e: Entry<SvmData>)
    requires TrackerOrdered(a) && 0 <= k < |a|
    ensures forall f :: f in a[k := e] <==> (f in a && f != a[k]) || f == e
  {
    forall f | f in a && f != a[k]
      ensures f in a[k := e]
    {
      var i :| 0 <= i < |a| && a[i] == f;
      assert a[k := e][i] == f;
    }
    assert a[k := e][k] == e;
    forall f | f in a[k := e] && f != e
      ensures f in a && f != a[k]
    {
      var i :| 0 <= i < |a| && a[k := e][i] == f;
    }
  }

  lemma UpdateChangesSets(a: Tracker, k: int, e: Entry<SvmData>)
    requires TrackerOrdered(a) && 0 <= k < |a| && BlockOf(e) == BlockOf(a[k])
    ensures LiveSet(a[k := e]) == LiveSet(a) - {RangeOf(a[k])} + (if e.value.isSavedForReuse then {} else {RangeOf(e)})
    ensures BlockSet(a[k := e]) == BlockSet(a)
  {
    UpdateMembers(a, k, e);
    forall f | f in a && f != a[k]
      ensures RangeOf(f) != RangeOf(a[k])
    {
      if f.ptr == a[k].ptr {
        BaseUnique(a, f, a[k]);
      }
    }
    forall b | b in BlockSet(a)
      ensures b in BlockSet(a[k := e])
    {
      var f :| f in a && BlockOf(f) == b;
      if f == a[k] {
        assert a[k := e][k] == e;
      } else {
        assert f in a[k := e];
      }
    }
  }

  /** An entry changes in place: its old range goes, its new one comes unless it is saved. */
  lemma UpdateChangesViews(a: Tracker, k: int, e: Entry<SvmData>)
    requires TrackerOrdered(a) && 0 <= k < |a|
    requires BlockOf(e) == BlockOf(a[k]) && 0 < e.size <= e.value.bytes
    ensures LiveRanges(a[k := e]) == LiveRanges(a) - {RangeOf(a[k])} + (if e.value.isSavedForReuse then {}
              else {RangeOf(e)})
    ensures Blocks(a[k := e]) == Blocks(a)
  {
    UpdateChangesSets(a, k, e);
    Meaning(a);
    Meaning(a[k := e]);
  }

  lemma UpdateKeepsOrder(a: Tracker, k: int, e: Entry<SvmData>)
    requires TrackerOrdered(a) && 0 <= k < |a|
    requires BlockOf(e) == BlockOf(a[k]) && 0 < e.size <= e.value.bytes
    ensures TrackerOrdered(a[k := e])
  {
  }

  /* ---- the reuse cache ---- */

  const PAGE_SIZE: nat := 0x1000
  const PAGE_SIZE_64K: nat := 0x1_0000
  const PAGE_SIZE_2M: nat := 0x20_0000
  const MAX_SERVICED_SIZE: nat := 256 * 0x10_0000
  const MINIMAL_SIZE_TO_CHECK_UTILIZATION: nat := 4 * 0x1_0000

  predicate SizeAllowed(size: nat) {
    size <= MAX_SERVICED_SIZE
  }

  /** A large candidate must be at least half used. */
  predicate AllocUtilizationAllows(requested: nat, candidate: nat) {
    candidate >= MINIMAL_SIZE_TO_CHECK_UTILIZATION ==> 2 * requested >= candidate
  }

  predicate AlignmentAllows(ptr: nat, alignment: nat) {
    alignment == 0 || ptr % alignment == 0
  }

  /** The saved allocation may serve the request. */
  predicate Reusable(e: Entry<SvmData>, p: Properties, busy: bool) {
    && e.value.device == p.device
    && e.value.flags == p.flags
    && AlignmentAllows(e.ptr, p.alignment)
    && !busy
  }

  /** A cache entry can serve the request: it is large enough, not too large, and what it stands
      for is reusable. */
  ghost predicate EntryServes(a: Tracker, c: CacheEntry, kind: MemoryType, size: nat, p: Properties, busy: bool) {
    && size <= c.allocationSize && AllocUtilizationAllows(size, c.allocationSize)
    && exists k :: 0 <= k < |a| && IsSaved(a[k], c, kind) && Reusable(a[k], p, busy)
  }

  ghost predicate Suits(e: Entry<SvmData>, c: CacheEntry, kind: MemoryType, size: nat, p: Properties, busy: bool) {
    && e.ptr == c.ptr && e.value.bytes == c.allocationSize && e.value.memoryType == kind && e.value.isSavedForReuse
    && size <= c.allocationSize && (c.allocationSize < 0x4_0000 || c.allocationSize <= 2 * size)
    && e.value.device == p.device && e.value.flags == p.flags
    && (p.alignment == 0 || e.ptr % p.alignment == 0) && !busy
  }

  /** The tracked entry decides. */
  lemma ServesThrough(a: Tracker, c: CacheEntry, k: nat, kind: MemoryType, size: nat, p: Properties, busy: bool)
    requires TrackerOrdered(a) && k < |a| && IsSaved(a[k], c, kind)
    ensures EntryServes(a, c, kind, size, p, busy) <==>
            size <= c.allocationSize && AllocUtilizationAllows(size, c.allocationSize) && Reusable(a[k], p, busy)
  {
    forall m | 0 <= m < |a| && IsSaved(a[m], c, kind)
      ensures a[m] == a[k]
    {
      BaseUnique(a, a[m], a[k]);
    }
  }

  /** In a cache sorted by size, no entry after one that is too large is small enough. */
  lemma TooLargeFromHere(cache: seq<CacheEntry>, i: nat, size: nat)
    requires forall j, m :: 0 <= j < m < |cache| ==> cache[j].allocationSize <= cache[m].allocationSize
    requires i < |cache| ==> !AllocUtilizationAllows(size, cache[i].allocationSize)
    ensures forall j :: i <= j < |cache| ==> !AllocUtilizationAllows(size, cache[j].allocationSize)
  {
  }

  /** std::lower_bound by size. */
  method LowerBound(cache: seq<CacheEntry>, size: nat) returns (i: nat)
    requires forall i, j :: 0 <= i < j < |cache| ==> cache[i].allocationSize <= cache[j].allocationSize
    ensures i <= |cache|
    ensures forall j :: 0 <= j < i ==> cache[j].allocationSize < size
    ensures forall j :: i <= j < |cache| ==> size <= cache[j].allocationSize
  {
    i := 0;
    while i < |cache| && cache[i].allocationSize < size
      invariant i <= |cache|
      invariant forall j :: 0 <= j < i ==> cache[j].allocationSize < size
    {
      i := i + 1;
    }
  }

  /** Dropping one cache entry, while its allocation changes or leaves the tracker, keeps the
      cache in order; the other cache, of another memory type, does not notice. */
  lemma CacheDrop(a: Tracker, r: Tracker, cache: seq<CacheEntry>, i: nat, c: seq<CacheEntry>, kind: MemoryType)
    requires CacheValid(a, cache, kind) && i < |cache| && c == cache[..i] + cache[i+1..]
    requires forall e :: e in a && e.ptr != cache[i].ptr ==> e in r
    ensures CacheValid(r, c, kind)
  {
  }

  /** A tracker change that keeps every saved entry of this kind keeps the cache valid. */
  lemma CacheFrame(a: Tracker, r: Tracker, cache: seq<CacheEntry>, kind: MemoryType)
    requires CacheValid(a, cache, kind)
    requires forall e :: e in a && e.value.isSavedForReuse && e.value.memoryType == kind ==> e in r
    ensures CacheValid(r, cache, kind)
  {
  }

  function OtherKind(kind: MemoryType): MemoryType {
    if kind == DeviceMemory then HostMemory else DeviceMemory
  }

  /** The saved entry `k` leaves its cache, and changes in or leaves the tracker. */
  lemma DropKeepsBoth(a: Tracker, r: Tracker, k: nat, cache: seq<CacheEntry>, i: nat, c: seq<CacheEntry>,
      kind: MemoryType, other: seq<CacheEntry>)
    requires kind != SharedMemory && i < |cache| && c == cache[..i] + cache[i+1..] && k < |a| &&
              IsSaved(a[k], cache[i], kind)
    requires CacheValid(a, cache, kind) && CacheValid(a, other, OtherKind(kind))
    requires forall e :: e in a && e != a[k] ==> e in r
    ensures CacheValid(r, c, kind) && CacheValid(r, other, OtherKind(kind))
  {
    CacheDrop(a, r, cache, i, c, kind);
    CacheFrame(a, r, other, OtherKind(kind));
  }

  /** `after` has one more range than `before`, apart from all of them. */
  ghost predicate Added(before: set<Range>, after: set<Range>, r: Range) {
    && r !in before && after == before + {r}
    && r.extent > 0
    && forall q :: q in before ==> Apart(q.base, q.extent, r.base, r.extent)
  }

  /** Live ranges of a well-formed tracker are pairwise disjoint. */
  lemma LiveDisjoint(a: Tracker, q: Range, r: Range)
    requires TrackerOrdered(a) && q in LiveRanges(a) && r in LiveRanges(a)
    ensures q == r || Apart(q.base, q.extent, r.base, r.extent)
  {
    LiveMeaning(a);
    var e :| e in a && !e.value.isSavedForReuse && RangeOf(e) == q;
    var f :| f in a && !f.value.isSavedForReuse && RangeOf(f) == r;
    var i :| 0 <= i < |a| && a[i] == e;
    var j :| 0 <= j < |a| && a[j] == f;
  }

  /** Marking a saved entry as in use adds exactly its range. */
  lemma ReuseAdds(a: Tracker, k: int, size: nat)
    requires TrackerOrdered(a) && 0 <= k < |a| && a[k].value.isSavedForReuse
    requires 0 < size <= a[k].value.bytes
    ensures var r := a[k := a[k].(size := size, value := a[k].value.(isSavedForReuse := false))];
            && TrackerOrdered(r) && Blocks(r) == Blocks(a)
            && Added(LiveRanges(a), LiveRanges(r), Range(a[k].ptr, size, size, a[k].value.memoryType))
  {
    LiveMeaning(a);
    var e := a[k].(size := size, value := a[k].value.(isSavedForReuse := false));
    var r := a[k := e];
    UpdateKeepsOrder(a, k, e);
    UpdateChangesViews(a, k, e);
    assert r[k] == e;
    assert RangeOf(e) in LiveRanges(r);
    forall q | q in LiveRanges(a)
      ensures q != RangeOf(e) && Apart(q.base, q.extent, e.ptr, e.size)
    {
      var f :| f in a && !f.value.isSavedForReuse && RangeOf(f) == q;
      var i :| 0 <= i < |a| && a[i] == f;
      assert i != k;
    }
  }

  ghost predicate LiveBase(a: Tracker, ptr: nat) {
    exists e :: e in a && e.ptr == ptr && !e.value.isSavedForReuse
  }

  lemma SavedNotLive(a: Tracker, k: nat)
    requires TrackerOrdered(a) && k < |a|
    ensures a[k].value.isSavedForReuse ==> RangeOf(a[k]) !in LiveRanges(a)
  {
    LiveMeaning(a);
    if a[k].value.isSavedForReuse && RangeOf(a[k]) in LiveRanges(a) {
      var e :| e in a && !e.value.isSavedForReuse && RangeOf(e) == RangeOf(a[k]);
      BaseUnique(a, e, a[k]);
    }
  }

  /** The holder of an address is the only entry with any claim on it. */
  lemma HolderIsUnique(a: Tracker, k: nat, ptr: nat)
    requires TrackerOrdered(a) && k < |a| && Holds(a[k], ptr)
    ensures forall m :: 0 <= m < |a| && Holds(a[m], ptr) ==> m == k
    ensures LiveBase(a, ptr) ==> a[k].ptr == ptr && !a[k].value.isSavedForReuse
  {
  }

  /** Entry `k` marked as saved for reuse. */
  function Saved(a: Tracker, k: nat): Tracker
    requires k < |a|
  {
    a[k := a[k].(value := a[k].value.(isSavedForReuse := true))]
  }

  lemma SaveStep(a: Tracker, k: nat, counter: nat)
    requires TrackerOrdered(a) && IdsUnique(a, counter) && k < |a|
    ensures TrackerOrdered(Saved(a, k)) && IdsUnique(Saved(a, k), counter)
    ensures LiveRanges(Saved(a, k)) == LiveRanges(a) - {RangeOf(a[k])} && Blocks(Saved(a, k)) == Blocks(a)
  {
    UpdateKeepsOrder(a, k, Saved(a, k)[k]);
    UpdateChangesViews(a, k, Saved(a, k)[k]);
  }

  /** A freshly saved allocation enters its cache at the place of its size. */
  lemma CacheGrow(a: Tracker, r: Tracker, k: nat, cache: seq<CacheEntry>, i: nat, kind: MemoryType,
      other: seq<CacheEntry>)
    requires kind != SharedMemory && k < |a| && |a| == |r| && i <= |cache|
    requires TrackerOrdered(a) && !a[k].value.isSavedForReuse && a[k].value.memoryType == kind
    requires r == Saved(a, k)
    requires CacheValid(a, cache, kind) && CacheValid(a, other, OtherKind(kind))
    requires forall j :: 0 <= j < i ==> cache[j].allocationSize < a[k].value.bytes
    requires forall j :: i <= j < |cache| ==> a[k].value.bytes <= cache[j].allocationSize
    ensures CacheValid(r, Grown(cache, i, CacheEntry(a[k].value.bytes, a[k].ptr)), kind)
    ensures CacheValid(r, other, OtherKind(kind))
  {
    var e := CacheEntry(a[k].value.bytes, a[k].ptr);
    UpdateMembers(a, k, r[k]);
    CacheFrame(a, r, cache, kind);
    CacheFrame(a, r, other, OtherKind(kind));
    assert IsSaved(r[k], e, kind);
    forall j | 0 <= j < |cache|
      ensures cache[j].ptr != e.ptr
    {
      assert SavedIn(a, cache[j], kind);
      var m :| 0 <= m < |a| && IsSaved(a[m], cache[j], kind);
      if a[m].ptr == a[k].ptr {
        BaseUnique(a, a[m], a[k]);
      }
    }
    CacheInsertAt(r, cache, i, e, kind);
  }

  function Grown(cache: seq<CacheEntry>, i: nat, c: CacheEntry): (r: seq<CacheEntry>)
    requires i <= |cache|
    ensures c in r
  {
    var r := cache[..i] + [c] + cache[i..];
    assert r[i] == c;
    r
  }

  lemma CacheInsertAt(a: Tracker, cache: seq<CacheEntry>, i: nat, e: CacheEntry, kind: MemoryType)
    requires CacheValid(a, cache, kind) && SavedIn(a, e, kind) && i <= |cache|
    requires forall j :: 0 <= j < |cache| ==> cache[j].ptr != e.ptr
    requires forall j :: 0 <= j < i ==> cache[j].allocationSize < e.allocationSize
    requires forall j :: i <= j < |cache| ==> e.allocationSize <= cache[j].allocationSize
    ensures CacheValid(a, Grown(cache, i, e), kind)
  {
  }

  /** A saved allocation leaves the tracker and its cache. */
  lemma TrimStep(a: Tracker, k: nat, cache: seq<CacheEntry>, kind: MemoryType, other: seq<CacheEntry>)
    requires TrackerOrdered(a) && kind != SharedMemory
    requires k < |a| && cache != [] && IsSaved(a[k], cache[0], kind)
    requires CacheValid(a, cache, kind) && CacheValid(a, other, OtherKind(kind))
    ensures CacheValid(Without(a, k), cache[1..], kind) && CacheValid(Without(a, k), other, OtherKind(kind))
  {
    WithoutMembers(a, k);
    DropKeepsBoth(a, Without(a, k), k, cache, 0, cache[1..], kind, other);
  }

  /** The cache has an entry for this pointer. */
  predicate Points(cache: seq<CacheEntry>, ptr: nat) {
    exists i :: 0 <= i < |cache| && cache[i].ptr == ptr
  }

  lemma FirstOut(a: Tracker, k: nat, cache: seq<CacheEntry>, kind: MemoryType)
    requires TrackerOrdered(a) && k < |a| && CacheValid(a, cache, kind) && cache != [] && IsSaved(a[k], cache[0], kind)
    ensures forall e :: e in Without(a, k) <==> e in a && e.ptr != cache[0].ptr
    ensures forall x :: Points(cache[1..], x) <==> Points(cache, x) && x != cache[0].ptr
  {
    WithoutMembers(a, k);
    forall e | e in a && e.ptr == cache[0].ptr
      ensures e == a[k]
    {
      BaseUnique(a, e, a[k]);
    }
    forall x | Points(cache, x) && x != cache[0].ptr
      ensures Points(cache[1..], x)
    {
      var i :| 0 <= i < |cache| && cache[i].ptr == x;
      assert cache[1..][i - 1].ptr == x;
    }
    forall x | Points(cache[1..], x)
      ensures Points(cache, x) && x != cache[0].ptr
    {
      var i :| 0 <= i < |cache[1..]| && cache[1..][i].ptr == x;
      assert cache[i + 1].ptr == x;
    }
  }

  /** An allocation in use leaves the tracker. */
  lemma RemoveStep(a: Tracker, k: nat, deviceCache: seq<CacheEntry>, hostCache: seq<CacheEntry>)
    requires TrackerOrdered(a) && k < |a| && !a[k].value.isSavedForReuse
    requires CacheValid(a, deviceCache, DeviceMemory) && CacheValid(a, hostCache, HostMemory)
    ensures CacheValid(Without(a, k), deviceCache, DeviceMemory) && CacheValid(Without(a, k), hostCache, HostMemory)
  {
    WithoutMembers(a, k);
    CacheFrame(a, Without(a, k), deviceCache, DeviceMemory);
    CacheFrame(a, Without(a, k), hostCache, HostMemory);
  }

  lemma InsertedStaysOrdered(a: Tracker, r: Tracker, k: int, e: Entry<SvmData>)
    requires TrackerOrdered(a) && InsertedAt(a, r, k, e) && Ordered(r)
    requires e.ptr > 0 && 0 < e.size <= e.value.bytes
    requires forall i :: 0 <= i < |a| ==> Apart(a[i].ptr, a[i].value.bytes, e.ptr, e.value.bytes)
    ensures TrackerOrdered(r)
  {
  }

  lemma InsertedRangeIsNew(a: Tracker, r: Tracker, k: int, e: Entry<SvmData>)
    requires TrackerOrdered(r) && InsertedAt(a, r, k, e) && !e.value.isSavedForReuse
    ensures Added(LiveRanges(a), LiveRanges(r), RangeOf(e))
  {
    LiveMeaning(a);
    InsertChangesViews(a, r, k, e);
    assert r[k] == e;
    forall q | q in LiveRanges(a)
      ensures q != RangeOf(e) && Apart(q.base, q.extent, e.ptr, e.size)
    {
      var f :| f in a && !f.value.isSavedForReuse && RangeOf(f) == q;
      var i :| 0 <= i < |a| && a[i] == f;
      assert r[if i < k then i else i + 1] == f;
    }
  }

  lemma InsertStep(a: Tracker, r: Tracker, k: int, e: Entry<SvmData>, deviceCache: seq<CacheEntry>,
      hostCache: seq<CacheEntry>)
    requires InsertedAt(a, r, k, e)
    requires CacheValid(a, deviceCache, DeviceMemory) && CacheValid(a, hostCache, HostMemory)
    ensures CacheValid(r, deviceCache, DeviceMemory) && CacheValid(r, hostCache, HostMemory)
  {
    InsertMembers(a, r, k, e);
    CacheFrame(a, r, deviceCache, DeviceMemory);
    CacheFrame(a, r, hostCache, HostMemory);
  }

  lemma InsertedIdsUnique(a: Tracker, r: Tracker, k: int, e: Entry<SvmData>, counter: nat)
    requires IdsUnique(a, counter) && InsertedAt(a, r, k, e) && e.value.allocId == counter + 1
    ensures IdsUnique(r, counter + 1)
  {
  }

  class SvmAllocsManager {
    const env: SoundEnv
    const deviceCacheEnabled: bool
    const hostCacheEnabled: bool
    const discrete: bool
    const localMemory: bool
    const kmdMigration: bool
    var svmAllocs: Tracker
    var allocationsCounter: nat
    var deviceCache: seq<CacheEntry>
    var hostCache: seq<CacheEntry>
    var clock: nat

    /** The invariant, passed on unopened by those who only use the manager. */
    ghost predicate Valid()
      reads this
    {
      forall n {:trigger Asked(n)} :: Asked(n) ==> Inv()
    }

    lemma Open()
      requires Valid()
      ensures Inv()
    {
      assert Asked(0);
    }

    ghost predicate Inv()
      reads this
    {
      && TrackerOrdered(svmAllocs)
      && IdsUnique(svmAllocs, allocationsCounter)
      && CacheValid(svmAllocs, deviceCache, DeviceMemory)
      && CacheValid(svmAllocs, hostCache, HostMemory)
    }

    ghost function Live(): set<Range>
      reads this
    {
      LiveRanges(svmAllocs)
    }

    constructor (env: SoundEnv, deviceCacheEnabled: bool, hostCacheEnabled: bool, discrete: bool, localMemory: bool,
        kmdMigration: bool)
      ensures Valid() && Live() == {} && allocationsCounter == 0
      ensures svmAllocs == [] && deviceCache == [] && hostCache == [] && clock == 0 && this.env == env
      ensures this.deviceCacheEnabled == deviceCacheEnabled && this.hostCacheEnabled == hostCacheEnabled &&
                this.discrete == discrete
    {
      this.discrete, this.localMemory, this.kmdMigration := discrete, localMemory, kmdMigration;
      this.env := env;
      this.deviceCacheEnabled := deviceCacheEnabled;
      this.hostCacheEnabled := hostCacheEnabled;
      svmAllocs, allocationsCounter, deviceCache, hostCache, clock := [], 0, [], [], 0;
    }

    function Cache(kind: MemoryType): seq<CacheEntry>
      reads this
    {
      if kind == DeviceMemory then deviceCache else hostCache
    }

    method SetCache(kind: MemoryType, cache: seq<CacheEntry>)
      requires kind != SharedMemory
      modifies this`deviceCache, this`hostCache
      ensures kind == DeviceMemory ==> deviceCache == cache && hostCache == old(hostCache)
      ensures kind == HostMemory ==> hostCache == cache && deviceCache == old(deviceCache)
    {
      if kind == DeviceMemory {
        deviceCache := cache;
      } else {
        hostCache := cache;
      }
    }

    /** A pool counts the chunks it hands out among the allocations. */
    method CountAllocation()
      requires Valid()
      modifies this`allocationsCounter
      ensures Valid() && allocationsCounter == old(allocationsCounter) + 1
    {
      Open();
      allocationsCounter := allocationsCounter + 1;
    }

    /** Lookup by any address of an allocation; -1 for none. */
    method GetSVMAlloc(ptr: nat) returns (k: int)
      requires Valid()
      ensures -1 <= k < |svmAllocs|
      ensures k >= 0 <==> Covered(svmAllocs, ptr)
      ensures k >= 0 ==> Holds(svmAllocs[k], ptr)
    {
      Open();
      TrackerIsOrdered(svmAllocs);
      k := GetImpl(svmAllocs, ptr, true);
    }

    /** Entry `i` of the cache can serve the request now. */
    ghost predicate ServesAt(kind: MemoryType, size: nat, p: Properties, i: int)
      reads this
    {
      0 <= i < |Cache(kind)| &&
          EntryServes(svmAllocs, Cache(kind)[i], kind, size, p, env.busy(clock, Cache(kind)[i].ptr))
    }

    /** The cache can serve the request. */
    ghost predicate Servable(kind: MemoryType, size: nat, p: Properties)
      reads this
    {
      forall n {:trigger Asked(n)} :: Asked(n) ==> CacheServes(kind, size, p)
    }

    ghost predicate CacheServes(kind: MemoryType, size: nat, p: Properties)
      reads this
    {
      SizeAllowed(size) && exists i :: ServesAt(kind, size, p, i)
    }

    ghost predicate ServesFirst(kind: MemoryType, size: nat, p: Properties, i: int)
      reads this
    {
      ServesAt(kind, size, p, i) && forall j :: 0 <= j < i ==> !ServesAt(kind, size, p, j)
    }

    /** What it takes: a saved allocation of this kind in the cache, large enough and, from 256 KB on,
        not more than twice as large, of the same device and flags, aligned, and not in use by the
        GPU; requests above 256 MB are never served. */
    lemma ServableExact(kind: MemoryType, size: nat, p: Properties)
      ensures Servable(kind, size, p) <==>
                && size <= 0x1000_0000
                && exists i, k :: 0 <= i < |Cache(kind)| && 0 <= k < |svmAllocs| &&
                     Suits(svmAllocs[k], Cache(kind)[i], kind, size, p, env.busy(clock, Cache(kind)[i].ptr))
    {
      assert Asked(0);
      if CacheServes(kind, size, p) {
        var i :| ServesAt(kind, size, p, i);
        var k :| 0 <= k < |svmAllocs| && IsSaved(svmAllocs[k], Cache(kind)[i], kind) &&
                 Reusable(svmAllocs[k], p, env.busy(clock, Cache(kind)[i].ptr));
        assert Suits(svmAllocs[k], Cache(kind)[i], kind, size, p, env.busy(clock, Cache(kind)[i].ptr));
      }
      if i, k :| 0 <= i < |Cache(kind)| && 0 <= k < |svmAllocs| && size <= 0x1000_0000 &&
                 Suits(svmAllocs[k], Cache(kind)[i], kind, size, p, env.busy(clock, Cache(kind)[i].ptr))
      {
        assert IsSaved(svmAllocs[k], Cache(kind)[i], kind);
        assert ServesAt(kind, size, p, i);
      }
    }

    /** The smallest saved allocation that may serve the request, the first in its cache, becomes
        live again, with its old identity. */
    method CacheGet(kind: MemoryType, size: nat, p: Properties) returns (ptr: nat)
      requires Inv() && size > 0 && kind != SharedMemory
      modifies this`svmAllocs, this`deviceCache, this`hostCache
      ensures Inv()
      ensures ptr != 0 <==> old(Servable(kind, size, p))
      ensures ptr != 0 ==> exists i :: old(ServesFirst(kind, size, p, i)) && ptr == old(Cache(kind))[i].ptr
      ensures ptr == 0 ==> svmAllocs == old(svmAllocs)
      ensures ptr != 0 ==> Added(old(Live()), Live(), Range(ptr, size, size, kind)) && AlignmentAllows(ptr, p.alignment)
      ensures Blocks(svmAllocs) == old(Blocks(svmAllocs))
    {
      assert Asked(0);
      var i, k := FindServing(kind, size, p);
      if i < 0 {
        return 0;
      }
      ptr := Cache(kind)[i].ptr;
      Reuse(kind, i, k, size);
    }

    /** The first cache entry that can serve the request, and its tracker entry; -1 for none. */
    method FindServing(kind: MemoryType, size: nat, p: Properties) returns (i: int, k: int)
      requires Inv() && size > 0 && kind != SharedMemory
      ensures i >= 0 <==> CacheServes(kind, size, p)
      ensures i >= 0 ==>
                ServesFirst(kind, size, p, i) && 0 <= k < |svmAllocs| && IsSaved(svmAllocs[k], Cache(kind)[i], kind)
      ensures i >= 0 ==> Cache(kind)[i].ptr > 0
    {
      if !SizeAllowed(size) {
        return -1, -1;
      }
      i := LowerBound(Cache(kind), size);
      while i < |Cache(kind)| && AllocUtilizationAllows(size, Cache(kind)[i].allocationSize)
        invariant 0 <= i <= |Cache(kind)|
        invariant forall j :: i <= j < |Cache(kind)| ==> size <= Cache(kind)[j].allocationSize
        invariant forall j :: 0 <= j < i ==> !ServesAt(kind, size, p, j)
      {
        var c := Cache(kind)[i];
        k := SavedIndex(kind, i);
        ServesThrough(svmAllocs, c, k, kind, size, p, env.busy(clock, c.ptr));
        if Reusable(svmAllocs[k], p, env.busy(clock, c.ptr)) {
          assert ServesAt(kind, size, p, i);
          return;
        }
        assert !ServesAt(kind, size, p, i);
        i := i + 1;
      }
      TooLargeFromHere(Cache(kind), i, size);
      assert forall j :: !ServesAt(kind, size, p, j);
      return -1, -1;
    }

    /** The tracker entry that a cache entry points to. */
    method SavedIndex(kind: MemoryType, i: nat) returns (k: nat)
      requires Inv() && kind != SharedMemory && i < |Cache(kind)|
      ensures k < |svmAllocs| && IsSaved(svmAllocs[k], Cache(kind)[i], kind)
    {
      TrackerIsOrdered(svmAllocs);
      assert SavedIn(svmAllocs, Cache(kind)[i], kind);
      k := GetImpl(svmAllocs, Cache(kind)[i].ptr, false);
    }

    method Reuse(kind: MemoryType, i: nat, k: nat, size: nat)
      requires Inv() && kind != SharedMemory && i < |Cache(kind)| && k < |svmAllocs|
      requires IsSaved(svmAllocs[k], Cache(kind)[i], kind) && 0 < size <= Cache(kind)[i].allocationSize
      modifies this`svmAllocs, this`deviceCache, this`hostCache
      ensures Inv()
      ensures Added(old(Live()), Live(), Range(old(Cache(kind)[i].ptr), size, size, kind))
      ensures Blocks(svmAllocs) == old(Blocks(svmAllocs))
    {
      var cache := Cache(kind);
      var e := svmAllocs[k];
      ReuseAdds(svmAllocs, k, size);
      svmAllocs := svmAllocs[k := e.(size := size, value := e.value.(isSavedForReuse := false))];
      SetCache(kind, cache[..i] + cache[i+1..]);
      UpdateMembers(old(svmAllocs), k, svmAllocs[k]);
      DropKeepsBoth(old(svmAllocs), svmAllocs, k, cache, i, cache[..i] + cache[i+1..], kind,
          if kind == DeviceMemory then hostCache else deviceCache);
    }

    /** Frees every saved allocation of one kind. */
    method Trim(kind: MemoryType)
      requires Inv() && kind != SharedMemory
      modifies this`svmAllocs, this`deviceCache, this`hostCache
      ensures Inv() && Cache(kind) == []
      ensures Live() == old(Live()) && Blocks(svmAllocs) <= old(Blocks(svmAllocs))
      ensures forall e :: e in svmAllocs <==> e in old(svmAllocs) && !Points(old(Cache(kind)), e.ptr)
    {
      while Cache(kind) != []
        invariant Inv()
        invariant Live() == old(Live()) && Blocks(svmAllocs) <= old(Blocks(svmAllocs))
        invariant forall x :: Points(Cache(kind), x) ==> Points(old(Cache(kind)), x)
        invariant forall e :: e in svmAllocs <==>
                    e in old(svmAllocs) && (Points(old(Cache(kind)), e.ptr) ==> Points(Cache(kind), e.ptr))
        decreases |Cache(kind)|
      {
        var k := SavedIndex(kind, 0);
        FirstOut(svmAllocs, k, Cache(kind), kind);
        TrimFirst(kind, k);
      }
    }

    method TrimFirst(kind: MemoryType, k: nat)
      requires Inv() && kind != SharedMemory && Cache(kind) != []
      requires k < |svmAllocs| && IsSaved(svmAllocs[k], Cache(kind)[0], kind)
      modifies this`svmAllocs, this`deviceCache, this`hostCache
      ensures Inv() && Cache(kind) == old(Cache(kind))[1..] && svmAllocs == old(Without(svmAllocs, k))
      ensures Live() == old(Live()) && Blocks(svmAllocs) <= old(Blocks(svmAllocs))
    {
      var cache := Cache(kind);
      WithoutKeepsOrder(svmAllocs, k, allocationsCounter);
      WithoutChangesViews(svmAllocs, k);
      SavedNotLive(svmAllocs, k);
      TrimStep(svmAllocs, k, cache, kind, if kind == DeviceMemory then hostCache else deviceCache);
      RemoveEntry(k);
      if kind == DeviceMemory {
        deviceCache := cache[1..];
      } else {
        hostCache := cache[1..];
      }
    }

    /** freeSVMData: the entry leaves the tracker. */
    method RemoveEntry(k: nat)
      requires TrackerOrdered(svmAllocs) && k < |svmAllocs|
      modifies this`svmAllocs
      ensures svmAllocs == old(Without(svmAllocs, k))
    {
      TrackerIsOrdered(svmAllocs);
      ghost var m;
      svmAllocs, m := Remove(svmAllocs, svmAllocs[k].ptr);
      assert m == k;
    }

    /** The last thing the OS was asked for is this block, and it refused. */
    predicate LastRefused(ask: Ask)
      reads this
    {
      clock > 0 && env.Refuses(clock - 1, HeldOf(svmAllocs), ask)
    }

    /** After a refusal the cache of this kind was trimmed and the OS was asked once more. */
    predicate AskedTwice(before: nat, kind: MemoryType)
      reads this
    {
      clock == before + 2 && Cache(kind) == []
    }

    /** A block of the OS that may enter the tracker. */
    ghost predicate Placed(ptr: nat, ask: Ask)
      reads this
    {
      && (forall i :: 0 <= i < |svmAllocs| ==> Apart(svmAllocs[i].ptr, svmAllocs[i].value.bytes, ptr, ask.Bytes()))
      && (ask.alignment > 0 ==> IsAligned(ptr, ask.alignment))
    }

    method OsAllocate(ask: Ask) returns (ptr: nat)
      requires Inv()
      modifies this`clock
      ensures Inv() && clock == old(clock) + 1
      ensures ptr != 0 ==> Placed(ptr, ask)
      ensures ptr == 0 <==> LastRefused(ask)
    {
      var r := env.os(clock, HeldOf(svmAllocs), ask);
      ptr := if r.Some? then r.value else 0;
      assert r.Some? ==> forall i :: 0 <= i < |HeldOf(svmAllocs)| ==>
                 Apart(HeldOf(svmAllocs)[i].ptr, HeldOf(svmAllocs)[i].bytes, ptr, ask.Bytes());
      clock := clock + 1;
    }

    /** Asks the OS, and once more after trimming the cache of this kind. */
    method OsAllocateOrTrim(ask: Ask, cacheKind: Option<MemoryType>) returns (ptr: nat)
      requires Inv() && (cacheKind.Some? ==> cacheKind.value != SharedMemory)
      modifies this`svmAllocs, this`deviceCache, this`hostCache, this`clock
      ensures Inv() && old(clock) < clock <= old(clock) + 2
      ensures Live() == old(Live()) && Blocks(svmAllocs) <= old(Blocks(svmAllocs))
      ensures ptr != 0 ==> Placed(ptr, ask)
      ensures ptr == 0 ==> env.Refuses(old(clock), HeldOf(old(svmAllocs)), ask) && LastRefused(ask)
      ensures ptr == 0 && cacheKind.Some? ==> AskedTwice(old(clock), cacheKind.value)
    {
      ptr := OsAllocate(ask);
      if ptr == 0 && cacheKind.Some? {
        Trim(cacheKind.value);
        ptr := OsAllocate(ask);
      }
    }

    /** A new OS block enters the tracker under the next number. */
    method InsertSVMAlloc(ptr: nat, size: nat, bytes: nat, p: Properties, roots: set<nat>)
      requires Inv() && ptr > 0 && 0 < size <= bytes
      requires forall i :: 0 <= i < |svmAllocs| ==> Apart(svmAllocs[i].ptr, svmAllocs[i].value.bytes, ptr, bytes)
      modifies this`svmAllocs, this`allocationsCounter
      ensures Inv()
      ensures Added(old(Live()), Live(), Range(ptr, size, size, p.memoryType))
      ensures allocationsCounter == old(allocationsCounter) + 1
      ensures Blocks(svmAllocs) == old(Blocks(svmAllocs)) + {Block(ptr, bytes, allocationsCounter, roots)}
      ensures Entry(ptr, size,
                SvmData(bytes, p.memoryType, allocationsCounter, roots, p.device, p.flags, false)) in svmAllocs
    {
      allocationsCounter := allocationsCounter + 1;
      var e := Entry(ptr, size, SvmData(bytes, p.memoryType, allocationsCounter, roots, p.device, p.flags, false));
      TrackerIsOrdered(svmAllocs);
      ghost var k;
      svmAllocs, k := Insert(svmAllocs, e);
      InsertedStaysOrdered(old(svmAllocs), svmAllocs, k, e);
      InsertChangesViews(old(svmAllocs), svmAllocs, k, e);
      InsertedRangeIsNew(old(svmAllocs), svmAllocs, k, e);
      InsertedIdsUnique(old(svmAllocs), svmAllocs, k, e, old(allocationsCounter));
      InsertStep(old(svmAllocs), svmAllocs, k, e, deviceCache, hostCache);
      assert svmAllocs[k] == e;
    }

    /** The tracker entry of the allocation made last. */
    function NewEntry(ptr: nat, size: nat, bytes: nat, p: Properties, roots: set<nat>): Entry<SvmData>
      reads this
    {
      Entry(ptr, size, SvmData(bytes, p.memoryType, allocationsCounter, roots, p.device, p.flags, false))
    }

    /** What the OS is asked for to serve a request of the three kinds. */
    function HostAsk(size: nat, p: Properties): Ask {
      Rounded(size, p.alignment, if size >= PAGE_SIZE_2M && discrete then PAGE_SIZE_2M else PAGE_SIZE)
    }

    function DeviceAsk(size: nat, p: Properties): Ask {
      Rounded(size, p.alignment, PAGE_SIZE_64K)
    }

    function SharedAsk(size: nat, p: Properties): Ask {
      if |p.rootDeviceIndices| > 1 && p.device.None? then HostAsk(size, p)
      else if !localMemory then DeviceAsk(size, p)
      else if kmdMigration then Rounded(size, p.alignment, PAGE_SIZE_2M)
      else
        var alignment := AlignUpNonZero(p.alignment, PAGE_SIZE_64K);
        Ask(size, alignment, alignment)
    }

    /** Whole pages that hold the request and no page more, aligned to pages and as asked for: 4 KB
        pages for host memory, but 2 MB from 2 MB on for discrete devices; 64 KB for device memory;
        2 MB for migrated shared memory. */
    lemma AsksExact(size: nat, p: Properties)
      ensures var page := if size >= 0x20_0000 && discrete then 0x20_0000 else 0x1000;
              InPages(HostAsk(size, p), size, p.alignment, page)
      ensures InPages(DeviceAsk(size, p), size, p.alignment, 0x1_0000)
      ensures |p.rootDeviceIndices| > 1 && p.device.None? ==> SharedAsk(size, p) == HostAsk(size, p)
      ensures (|p.rootDeviceIndices| <= 1 || p.device.Some?) && !localMemory ==>
                SharedAsk(size, p) == DeviceAsk(size, p)
      ensures (|p.rootDeviceIndices| <= 1 || p.device.Some?) && localMemory && kmdMigration ==>
                InPages(SharedAsk(size, p), size, p.alignment, 0x20_0000)
      ensures (|p.rootDeviceIndices| <= 1 || p.device.Some?) && localMemory && !kmdMigration ==>
                && InPages(SharedAsk(size, p), size, p.alignment, SharedAsk(size, p).alignment)
                && SharedAsk(size, p).alignment == DeviceAsk(size, p).alignment
    {
      RoundedInPages(size, p.alignment, PAGE_SIZE);
      RoundedInPages(size, p.alignment, PAGE_SIZE_64K);
      RoundedInPages(size, p.alignment, PAGE_SIZE_2M);
      var a := AlignUpNonZero(p.alignment, PAGE_SIZE_64K);
      AlignUpIsAligned(size, a);
      UniqueRemainder(a, 1, 0, a);
    }

    /** What every creator promises of its result: null, and the OS refused the block at first and
        at last; or one new live range, aligned as asked. */
    twostate predicate Creates(ptr: nat, size: nat, kind: MemoryType, p: Properties, ask: Ask)
      reads this
    {
      && old(clock) <= clock <= old(clock) + 2
      && (ptr == 0 ==>
            && Live() == old(Live()) && clock > old(clock)
            && env.Refuses(old(clock), HeldOf(old(svmAllocs)), ask) && LastRefused(ask))
      && (ptr != 0 ==> Added(old(Live()), Live(), Range(ptr, size, size, kind)) && AlignedAs(ptr, p.alignment))
      && Evolves(old(Blocks(svmAllocs)), old(allocationsCounter), Blocks(svmAllocs), allocationsCounter)
    }

    /** The common path of the three creators: the cache of this kind if there is one, then
        the OS, then once more after trimming the cache. */
    method Create(size: nat, ask: Ask, p: Properties, roots: set<nat>, cacheKind: Option<MemoryType>)
        returns (ptr: nat, fromCache: bool)
      requires Inv() && 0 < size == ask.size && Honours(ask, p.alignment)
      requires cacheKind.Some? ==> cacheKind.value != SharedMemory
      modifies this
      ensures Inv()
      ensures fromCache <==> cacheKind.Some? && old(Servable(cacheKind.value, size, p))
      ensures fromCache ==> ptr != 0
      ensures !fromCache && ptr != 0 ==> NewEntry(ptr, size, ask.Bytes(), p, roots) in svmAllocs
      ensures Creates(ptr, size, if fromCache then cacheKind.value else p.memoryType, p, ask)
      ensures ptr == 0 && cacheKind.Some? ==> AskedTwice(old(clock), cacheKind.value)
      ensures allocationsCounter == old(allocationsCounter) + (if ptr != 0 && !fromCache then 1 else 0)
    {
      fromCache := false;
      if cacheKind.Some? {
        ptr := CacheGet(cacheKind.value, size, p);
        if ptr != 0 {
          fromCache := true;
          return;
        }
      }
      ptr := OsAllocateOrTrim(ask, cacheKind);
      if ptr != 0 {
        HonouredIsAligned(ask, ptr, p.alignment);
        InsertSVMAlloc(ptr, size, ask.Bytes(), p, roots);
      }
    }

    method CreateUnifiedMemoryAllocation(size: nat, p: Properties) returns (ptr: nat, fromCache: bool)
      requires Valid() && size > 0 && (p.device.Some? || p.rootDeviceIndices != [])
      modifies this
      ensures Valid() && Creates(ptr, size, p.memoryType, p, DeviceAsk(size, p))
      ensures fromCache <==>
                p.memoryType == DeviceMemory && deviceCacheEnabled && old(Servable(DeviceMemory, size, p))
      ensures fromCache ==> ptr != 0
      ensures ptr == 0 && p.memoryType == DeviceMemory && deviceCacheEnabled ==> AskedTwice(old(clock), DeviceMemory)
      ensures !fromCache && ptr != 0 ==>
                var root := if p.device.Some? then p.device.value.root else p.rootDeviceIndices[0];
                Entry(ptr, size, SvmData(DeviceAsk(size, p).Bytes(), p.memoryType, allocationsCounter, {root},
                                         p.device, p.flags, false)) in svmAllocs
    {
      Open();
      RoundedHonours(size, p.alignment, PAGE_SIZE_64K);
      var cacheKind := if p.memoryType == DeviceMemory && deviceCacheEnabled then Some(DeviceMemory) else None;
      ptr, fromCache := Create(size, DeviceAsk(size, p), p, {p.RootDeviceIndex()}, cacheKind);
    }

    method CreateHostUnifiedMemoryAllocation(size: nat, p: Properties) returns (ptr: nat, fromCache: bool)
      requires Valid() && size > 0
      modifies this
      ensures Valid()
      ensures Creates(ptr, size, if fromCache then HostMemory else p.memoryType, p, HostAsk(size, p))
      ensures fromCache <==> hostCacheEnabled && old(Servable(HostMemory, size, p))
      ensures fromCache ==> ptr != 0
      ensures ptr == 0 && hostCacheEnabled ==> AskedTwice(old(clock), HostMemory)
      ensures !fromCache && ptr != 0 ==>
                Entry(ptr, size, SvmData(HostAsk(size, p).Bytes(), p.memoryType, allocationsCounter,
                                         (set r | r in p.rootDeviceIndices), p.device, p.flags, false)) in svmAllocs
    {
      Open();
      var page := if size >= PAGE_SIZE_2M && discrete then PAGE_SIZE_2M else PAGE_SIZE;
      RoundedHonours(size, p.alignment, page);
      var cacheKind := if hostCacheEnabled then Some(HostMemory) else None;
      ptr, fromCache := Create(size, Rounded(size, p.alignment, page), p, p.AllRoots(), cacheKind);
    }

    /** Without a device in a context of several root devices a shared request is served as a
        host one, and a reused host allocation keeps its host type. */
    method CreateSharedUnifiedMemoryAllocation(size: nat, p: Properties) returns (ptr: nat, fromHostCache: bool)
      requires Valid() && size > 0 && p.memoryType == SharedMemory
      requires p.device.Some? || p.rootDeviceIndices != []
      modifies this
      ensures Valid()
      ensures Creates(ptr, size, if fromHostCache then HostMemory else SharedMemory, p, SharedAsk(size, p))
      ensures fromHostCache <==>
                |p.rootDeviceIndices| > 1 && p.device.None? && hostCacheEnabled && old(Servable(HostMemory, size, p))
      ensures fromHostCache ==> ptr != 0
    {
      fromHostCache := false;
      if |p.rootDeviceIndices| > 1 && p.device.None? {
        ptr, fromHostCache := CreateHostUnifiedMemoryAllocation(size, p);
        return;
      }
      var reused;
      if localMemory {
        ptr := CreateInBothMemories(size, p);
      } else {
        ptr, reused := CreateUnifiedMemoryAllocation(size, p);
      }
    }

    /** createUnifiedKmdMigratedAllocation and createUnifiedAllocationWithDeviceStorage. */
    method CreateInBothMemories(size: nat, p: Properties) returns (ptr: nat)
      requires Valid() && size > 0 && p.memoryType == SharedMemory && localMemory
      requires p.device.Some? || |p.rootDeviceIndices| == 1
      modifies this
      ensures Valid() && Creates(ptr, size, SharedMemory, p, SharedAsk(size, p))
    {
      Open();
      RoundedHonours(size, p.alignment, PAGE_SIZE_2M);
      RoundedHonours(size, p.alignment, PAGE_SIZE_64K);
      var reused;
      ptr, reused := Create(size, SharedAsk(size, p), p, {p.RootDeviceIndex()}, None);
    }

    /** Moves a freed allocation to its cache instead of giving it back.  The cache remembers
        the pointer it was freed through. */
    method CacheInsert(kind: MemoryType, k: nat, ptr: nat) returns (ok: bool)
      requires Inv() && kind != SharedMemory && k < |svmAllocs| && svmAllocs[k].value.memoryType == kind
      modifies this`svmAllocs, this`deviceCache, this`hostCache, this`clock
      ensures clock == old(clock) + 1
      ensures TrackerOrdered(svmAllocs) && Blocks(svmAllocs) == old(Blocks(svmAllocs))
      ensures !ok ==> Inv() && svmAllocs == old(svmAllocs)
      ensures ok ==> Live() == old(Live()) - {RangeOf(old(svmAllocs[k]))}
      ensures ok ==> svmAllocs == old(Saved(svmAllocs, k))
      ensures var e := old(svmAllocs[k]).value;
              ok <==> e.bytes <= 0x1000_0000 && !env.reuseLimited(clock) &&
                      (e.isSavedForReuse || !env.cacheFull(clock, e.bytes))
      ensures ok && !old(svmAllocs[k]).value.isSavedForReuse ==>
                CacheEntry(old(svmAllocs[k].value.bytes), ptr) in Cache(kind)
      ensures ptr == old(svmAllocs[k].ptr) ==> Inv()
    {
      var e := svmAllocs[k];
      clock := clock + 1;
      if !SizeAllowed(e.value.bytes) || env.reuseLimited(clock) {
        return false;
      }
      if e.value.isSavedForReuse {
        SavedNotLive(svmAllocs, k);
        assert svmAllocs[k := e] == svmAllocs;
        return true;
      }
      if env.cacheFull(clock, e.value.bytes) {
        return false;
      }
      Save(kind, k, ptr);
      return true;
    }

    method Save(kind: MemoryType, k: nat, ptr: nat)
      requires Inv() && kind != SharedMemory && k < |svmAllocs|
      requires svmAllocs[k].value.memoryType == kind && !svmAllocs[k].value.isSavedForReuse
      modifies this`svmAllocs, this`deviceCache, this`hostCache
      ensures TrackerOrdered(svmAllocs) && Blocks(svmAllocs) == old(Blocks(svmAllocs))
      ensures Live() == old(Live()) - {RangeOf(old(svmAllocs[k]))}
      ensures svmAllocs == old(Saved(svmAllocs, k))
      ensures ptr == old(svmAllocs[k].ptr) ==> Inv()
      ensures CacheEntry(old(svmAllocs[k].value.bytes), ptr) in Cache(kind)
    {
      SaveStep(svmAllocs, k, allocationsCounter);
      if kind == DeviceMemory {
        SaveDevice(k, ptr);
      } else {
        SaveHost(k, ptr);
      }
    }

    method SaveDevice(k: nat, ptr: nat)
      requires Inv() && k < |svmAllocs| && svmAllocs[k].value.memoryType == DeviceMemory &&
                !svmAllocs[k].value.isSavedForReuse
      modifies this`svmAllocs, this`deviceCache
      ensures svmAllocs == old(Saved(svmAllocs, k)) && CacheEntry(old(svmAllocs[k].value.bytes), ptr) in deviceCache
      ensures ptr == old(svmAllocs[k].ptr) ==> Inv()
    {
      var e := svmAllocs[k];
      var i := LowerBound(deviceCache, e.value.bytes);
      SaveStep(svmAllocs, k, allocationsCounter);
      if ptr == e.ptr {
        CacheGrow(svmAllocs, Saved(svmAllocs, k), k, deviceCache, i, DeviceMemory, hostCache);
      }
      svmAllocs := Saved(svmAllocs, k);
      deviceCache := Grown(deviceCache, i, CacheEntry(e.value.bytes, ptr));
    }

    method SaveHost(k: nat, ptr: nat)
      requires Inv() && k < |svmAllocs| && svmAllocs[k].value.memoryType == HostMemory &&
                !svmAllocs[k].value.isSavedForReuse
      modifies this`svmAllocs, this`hostCache
      ensures svmAllocs == old(Saved(svmAllocs, k)) && CacheEntry(old(svmAllocs[k].value.bytes), ptr) in hostCache
      ensures ptr == old(svmAllocs[k].ptr) ==> Inv()
    {
      var e := svmAllocs[k];
      var i := LowerBound(hostCache, e.value.bytes);
      SaveStep(svmAllocs, k, allocationsCounter);
      if ptr == e.ptr {
        CacheGrow(svmAllocs, Saved(svmAllocs, k), k, hostCache, i, HostMemory, deviceCache);
      }
      svmAllocs := Saved(svmAllocs, k);
      hostCache := Grown(hostCache, i, CacheEntry(e.value.bytes, ptr));
    }

    predicate Cached(kind: MemoryType) {
      (kind == DeviceMemory && deviceCacheEnabled) || (kind == HostMemory && hostCacheEnabled)
    }

    /** Frees the allocation that holds `ptr`, whether or not `ptr` is its base. */
    method FreeSVMAlloc(ptr: nat) returns (ok: bool, ghost k: int)
      requires Valid()
      modifies this
      ensures TrackerOrdered(svmAllocs) && Blocks(svmAllocs) <= old(Blocks(svmAllocs))
      ensures allocationsCounter == old(allocationsCounter) && clock >= old(clock)
      ensures ok <==> Covered(old(svmAllocs), ptr)
      ensures !ok ==> Valid() && svmAllocs == old(svmAllocs)
      ensures ok ==>
                0 <= k < |old(svmAllocs)| && Holds(old(svmAllocs)[k], ptr) &&
                Live() == old(Live()) - {RangeOf(old(svmAllocs)[k])}
      ensures LiveBase(old(svmAllocs), ptr) ==> Valid()
      ensures ok ==>
                var e, now := old(svmAllocs)[k].value, old(clock) + 1;
                var kept := ((e.memoryType == DeviceMemory && deviceCacheEnabled)
                             || (e.memoryType == HostMemory && hostCacheEnabled))
                            && e.bytes <= 0x1000_0000 && !env.reuseLimited(now)
                            && (e.isSavedForReuse || !env.cacheFull(now, e.bytes));
                && svmAllocs == (if kept then Saved(old(svmAllocs), k) else Without(old(svmAllocs), k))
                && (kept && !e.isSavedForReuse ==> CacheEntry(e.bytes, ptr) in Cache(e.memoryType))
    {
      Open();
      var i := GetSVMAlloc(ptr);
      k := i;
      if i < 0 {
        return false, k;
      }
      HolderIsUnique(svmAllocs, i, ptr);
      var kind := svmAllocs[i].value.memoryType;
      if Cached(kind) {
        ok := CacheInsert(kind, i, ptr);
        if ok {
          return;
        }
      }
      GiveBack(i);
      ok := true;
    }

    /** freeSVMAllocImpl: the allocation leaves the tracker and its memory the process. */
    method GiveBack(k: nat)
      requires Inv() && k < |svmAllocs|
      modifies this`svmAllocs
      ensures TrackerOrdered(svmAllocs) && Blocks(svmAllocs) <= old(Blocks(svmAllocs))
      ensures Live() == old(Live()) - {RangeOf(old(svmAllocs[k]))} && svmAllocs == old(Without(svmAllocs, k))
      ensures !old(svmAllocs[k].value.isSavedForReuse) ==> Inv()
    {
      WithoutKeepsOrder(svmAllocs, k, allocationsCounter);
      WithoutChangesViews(svmAllocs, k);
      if !svmAllocs[k].value.isSavedForReuse {
        RemoveStep(svmAllocs, k, deviceCache, hostCache);
      }
      RemoveEntry(k);
    }
  }

  /** A saved allocation makes its cache serve requests that it fits. */
  lemma ServableBy(svm: SvmAllocsManager, kind: MemoryType, size: nat, p: Properties, k: nat, c: CacheEntry)
    requires k < |svm.svmAllocs| && c in svm.Cache(kind) && IsSaved(svm.svmAllocs[k], c, kind)
    requires Reusable(svm.svmAllocs[k], p, svm.env.busy(svm.clock, c.ptr))
    requires SizeAllowed(size) && size <= c.allocationSize && AllocUtilizationAllows(size, c.allocationSize)
    ensures svm.Servable(kind, size, p)
  {
    var i :| 0 <= i < |svm.Cache(kind)| && svm.Cache(kind)[i] == c;
    assert svm.ServesAt(kind, size, p, i);
  }

  /** Freeing a host allocation of one page saves it, when nothing forbids. */
  method FreeKept(svm: SvmAllocsManager, ptr: nat, e: Entry<SvmData>)
    requires svm.Valid() && svm.hostCacheEnabled && e in svm.svmAllocs && e.ptr == ptr
    requires e.value.bytes == PAGE_SIZE && e.value.memoryType == HostMemory && !e.value.isSavedForReuse
    requires !svm.env.reuseLimited(svm.clock + 1) && !svm.env.cacheFull(svm.clock + 1, PAGE_SIZE)
    modifies svm
    ensures svm.Valid() && CacheEntry(PAGE_SIZE, ptr) in svm.Cache(HostMemory)
    ensures exists k :: 0 <= k < |svm.svmAllocs| && svm.svmAllocs[k] == e.(value := e.value.(isSavedForReuse := true))
  {
    svm.Open();
    ghost var m :| 0 <= m < |svm.svmAllocs| && svm.svmAllocs[m] == e;
    HolderIsUnique(svm.svmAllocs, m, ptr);
    var ok;
    ghost var k;
    ok, k := svm.FreeSVMAlloc(ptr);
    assert svm.svmAllocs[k] == e.(value := e.value.(isSavedForReuse := true));
  }

  /** It can then serve any request of a page with its device and flags. */
  method FreeForReuse(svm: SvmAllocsManager, ptr: nat, e: Entry<SvmData>, p: Properties)
    requires svm.Valid() && svm.hostCacheEnabled && e in svm.svmAllocs && e.ptr == ptr
    requires e.value.bytes == PAGE_SIZE && e.value.memoryType == HostMemory && !e.value.isSavedForReuse
    requires e.value.device == p.device && e.value.flags == p.flags && p.alignment == 0
    requires !svm.env.reuseLimited(svm.clock + 1) && !svm.env.cacheFull(svm.clock + 1, PAGE_SIZE)
    requires forall t :: !svm.env.busy(t, ptr)
    modifies svm
    ensures svm.Valid() && svm.Servable(HostMemory, PAGE_SIZE, p)
  {
    FreeKept(svm, ptr, e);
    ghost var k :| 0 <= k < |svm.svmAllocs| &&
                   svm.svmAllocs[k] == e.(value := e.value.(isSavedForReuse := true));
    ServableBy(svm, HostMemory, PAGE_SIZE, p, k, CacheEntry(PAGE_SIZE, ptr));
  }

  /** A run in which a shared request comes back as host memory: a host allocation is made and
      freed, then shared memory is asked for without a device among two root devices. */
  method HostReuseRun() returns (reused: bool, ghost got: Range, ghost svm: SvmAllocsManager)
    ensures reused && got.kind == HostMemory && got in svm.Live()
  {
    var env := Env(
      (t, held, ask) => if |held| == 0 && ask == Ask(PAGE_SIZE, PAGE_SIZE, PAGE_SIZE) then Some(PAGE_SIZE) else None,
      (t, p) => false, t => false, (t, n) => false);
    var manager := new SvmAllocsManager(env, false, true, false, false, false);
    var host := Properties(HostMemory, 0, Flags(false, false, 0, 0), None, [0, 1]);
    assert Asked(0) && !manager.Servable(HostMemory, PAGE_SIZE, host);
    var ptr, fromCache := manager.CreateHostUnifiedMemoryAllocation(PAGE_SIZE, host);
    assert manager.HostAsk(PAGE_SIZE, host) == Ask(PAGE_SIZE, PAGE_SIZE, PAGE_SIZE);
    var shared := host.(memoryType := SharedMemory);
    FreeForReuse(manager, ptr, manager.NewEntry(ptr, PAGE_SIZE, PAGE_SIZE, host, host.AllRoots()), shared);
    var ptr2;
    ptr2, reused := manager.CreateSharedUnifiedMemoryAllocation(PAGE_SIZE, shared);
    got, svm := Range(ptr2, PAGE_SIZE, PAGE_SIZE, HostMemory), manager;
  }
}
