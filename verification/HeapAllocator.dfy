/** The chunk allocator behind every USM pool: two lists of freed chunks around a shrinking
    gap, big requests served from the left, small ones from the right, best fit among freed
    chunks, and one defragmentation before giving up. */
module HeapAllocators {
  import opened Alignment
  import opened Chunks

  const MEGABYTE: nat := 0x10_0000
  const PAGE_SIZE_64K: nat := 0x1_0000

  /** The free space of a heap: the untouched gap and the two lists of freed chunks. */
  datatype Space = Space(left: int, right: int, small: seq<Chunk>, big: seq<Chunk>) {

    /** How many parts of the free space hold address `x`. */
    ghost function At(x: int): nat {
      Hit(left, right - left, x) + Count(small, x) + Count(big, x)
    }

    ghost function Bytes(): int {
      right - left + Total(small) + Total(big)
    }

    /** Free space lies inside the heap and no address of it is listed twice. */
    ghost predicate Valid(base: int, end: int) {
      && 0 < base <= left <= right <= end
      && NonEmpty(small) && NonEmpty(big)
      && (forall x :: At(x) <= 1)
      && (forall x :: !(base <= x < end) ==> At(x) == 0)
    }

    /** `next` is this space without the range [ptr, ptr + size). */
    ghost predicate Takes(next: Space, ptr: int, size: int) {
      && (forall x :: At(x) == next.At(x) + Hit(ptr, size, x))
      && Bytes() == next.Bytes() + size
    }

    ghost predicate Same(next: Space) {
      && (forall x :: At(x) == next.At(x))
      && Bytes() == next.Bytes()
    }

    /** The gap can serve the request: big requests sit at its aligned left end, small ones
        at its aligned right end. */
    predicate GapFits(isBig: bool, size: int, alignment: int)
      requires alignment > 0
    {
      if isBig then
        AlignUp(left, alignment) + size <= right
      else
        left <= AlignDown(right - size, alignment)
    }

    function FreedChunks(isBig: bool): seq<Chunk> {
      if isBig then big else small
    }

    predicate ChunkFits(isBig: bool, size: int, alignment: int)
      requires alignment > 0
    {
      exists i :: 0 <= i < |FreedChunks(isBig)| && Fits(FreedChunks(isBig)[i], size, alignment)
    }

    /** No freed chunk of either list can be joined with another one of its list, nor the
        last ones with the gap. */
    ghost predicate Defragmented() {
      SmallSettled() && BigSettled()
    }

    ghost predicate SmallSettled() {
      NoneTouch(small) && (small != [] ==> small[|small|-1].ptr != right)
    }

    ghost predicate BigSettled() {
      NoneTouch(big) && (big != [] ==> big[|big|-1].ptr + big[|big|-1].size != left)
    }

    /** The gap or a freed chunk of the list that serves this size holds an aligned fit. */
    predicate Serves(isBig: bool, size: int, alignment: int)
      requires alignment > 0
    {
      GapFits(isBig, size, alignment) || ChunkFits(isBig, size, alignment)
    }

    /** mergeLastFreedSmall: the gap takes in the last small chunk if it starts at its right end. */
    function MergedSmall(): Space {
      if small != [] && small[|small|-1].ptr == right then
        this.(right := small[|small|-1].ptr + small[|small|-1].size, small := small[..|small|-1])
      else this
    }

    function MergedBig(): Space {
      if big != [] && big[|big|-1].ptr == left - big[|big|-1].size then
        this.(left := big[|big|-1].ptr, big := big[..|big|-1])
      else this
    }

    function JoinedSmall(): Space {
      this.(small := if |small| > 1 then JoinedDown(Reverse(Sort(small)), |Reverse(Sort(small))| - 1) else small)
    }

    function JoinedBig(): Space {
      this.(big := if |big| > 1 then JoinedUp(Sort(big), |Sort(big)| - 1) else big)
    }

    /** The space after defragmentation. */
    function Tidied(): Space {
      JoinedSmall().MergedSmall().JoinedBig().MergedBig()
    }

    /** The alignment of the retry, once the tidied gap holds the request. */
    function Retry(size: nat): nat
      requires right - left >= size
    {
      RetryAlignment(right - left, size)
    }

    /** Even the retry with a smaller alignment cannot serve the request from the tidied space. */
    predicate Exhausted(isBig: bool, size: nat, alignment: nat)
      requires alignment > 0
    {
      var t := Tidied();
      && !Serves(isBig, size, alignment) && !t.Serves(isBig, size, alignment)
      && (alignment > 2 * MEGABYTE && t.right - t.left >= size ==> !t.Serves(isBig, size, t.Retry(size)))
    }

    /** The allocation loop goes on for ever: the retry fails, and picks the same alignment again
        because that is above 2 MB too. */
    predicate Loops(isBig: bool, size: nat, alignment: nat)
      requires alignment > 0
    {
      var t := Tidied();
      && Exhausted(isBig, size, alignment)
      && alignment > 2 * MEGABYTE && t.right - t.left >= size && t.Retry(size) > 2 * MEGABYTE
    }
  }

  /** The gap or a freed chunk serves a request exactly when the gap has room for it at an aligned
      address, or a chunk of its class starts at one and is large enough. */
  lemma ServesExact(s: Space, isBig: bool, size: int, alignment: int)
    requires alignment > 0
    ensures var cs := if isBig then s.big else s.small;
            s.Serves(isBig, size, alignment) <==>
              || (exists p :: IsAligned(p, alignment) && s.left <= p && p + size <= s.right)
              || (exists i :: 0 <= i < |cs| && cs[i].ptr % alignment == 0 && cs[i].size >= size)
  {
    GapExact(s, isBig, size, alignment);
    ChunkExact(s, isBig, size, alignment);
  }

  lemma ChunkExact(s: Space, isBig: bool, size: int, alignment: int)
    requires alignment > 0
    ensures var cs := if isBig then s.big else s.small;
            s.ChunkFits(isBig, size, alignment) <==>
              exists i :: 0 <= i < |cs| && cs[i].ptr % alignment == 0 && cs[i].size >= size
  {
    var cs := if isBig then s.big else s.small;
    if i :| 0 <= i < |cs| && cs[i].ptr % alignment == 0 && cs[i].size >= size {
      assert Fits(s.FreedChunks(isBig)[i], size, alignment);
    }
    if s.ChunkFits(isBig, size, alignment) {
      var i :| 0 <= i < |s.FreedChunks(isBig)| && Fits(s.FreedChunks(isBig)[i], size, alignment);
      assert cs[i].ptr % alignment == 0;
    }
  }

  lemma GapExact(s: Space, isBig: bool, size: int, alignment: int)
    requires alignment > 0
    ensures s.GapFits(isBig, size, alignment) <==>
            exists p :: IsAligned(p, alignment) && s.left <= p && p + size <= s.right
  {
    AlignUpIsAligned(s.left, alignment);
    AlignDownIsAligned(s.right - size, alignment);
    if p :| IsAligned(p, alignment) && s.left <= p && p + size <= s.right {
      AlignDownKeepsFloor(p, s.right - size, alignment);
      AlignUpKeepsCeiling(s.left, p, alignment);
    }
  }

  ghost predicate NoneTouch(cs: seq<Chunk>) {
    forall i, j :: 0 <= i < |cs| && 0 <= j < |cs| ==> cs[i].ptr + cs[i].size != cs[j].ptr
  }

  /** Neighbours of a list sorted by descending address joined from index `i` down. */
  function JoinedDown(cs: seq<Chunk>, i: int): seq<Chunk>
    decreases i
  {
    if !(0 < i < |cs|) then cs
    else if cs[i-1].ptr == cs[i].ptr + cs[i].size then
      JoinedDown(cs[..i-1] + [Chunk(cs[i].ptr, cs[i-1].size + cs[i].size)] + cs[i+1..], i - 1)
    else JoinedDown(cs, i - 1)
  }

  /** The same for a list sorted by ascending address. */
  function JoinedUp(cs: seq<Chunk>, i: int): seq<Chunk>
    decreases i
  {
    if !(0 < i < |cs|) then cs
    else if cs[i-1].ptr + cs[i-1].size == cs[i].ptr then
      JoinedUp(cs[..i-1] + [Chunk(cs[i-1].ptr, cs[i-1].size + cs[i].size)] + cs[i+1..], i - 1)
    else JoinedUp(cs, i - 1)
  }

  /** Where the gap serves a request: big ones at its left end, small ones at its right end. */
  function InGap(s: Space, isBig: bool, size: int, alignment: int): int
    requires alignment > 0
  {
    if isBig then AlignUp(s.left, alignment) else AlignDown(s.right - size, alignment)
  }

  /** A chunk of the list ends or begins where the range begins or ends. */
  predicate Touches(cs: seq<Chunk>, ptr: int, size: int) {
    exists i :: 0 <= i < |cs| && (cs[i].ptr == ptr + size || cs[i].ptr + cs[i].size == ptr)
  }

  predicate Fits(c: Chunk, size: int, alignment: int)
    requires alignment > 0
  {
    IsAligned(c.ptr, alignment) && c.size >= size
  }

  /** Chunk `k` is a smallest chunk that fits. */
  predicate BestFit(cs: seq<Chunk>, k: int, size: int, alignment: int)
    requires alignment > 0
  {
    && 0 <= k < |cs| && Fits(cs[k], size, alignment)
    && forall j :: 0 <= j < |cs| && Fits(cs[j], size, alignment) ==> cs[k].size <= cs[j].size
  }

  /** A chunk under twice the request is handed out whole, a larger one is cut at its end. */
  predicate CutFrom(c: Chunk, request: int, ptr: int, size: int) {
    if c.size < 2 * request then ptr == c.ptr && size == c.size
    else c.ptr <= ptr && ptr + size == c.ptr + c.size
  }

  /** Rounding down to the largest alignment that the retry for huge alignments picks. */
  function RetryAlignment(gap: nat, size: nat): (r: nat)
    requires gap >= size
    ensures r > 0
  {
    PrevPowerOfTwo(gap - 1 - size + 2 * PAGE_SIZE_64K)
  }

  /** The alignment of an allocated range: the one asked for, unless only the retry serves. */
  function Granted(s: Space, isBig: bool, size: nat, alignment: nat): (r: nat)
    requires alignment > 0
    ensures r > 0 && (alignment <= 2 * MEGABYTE ==> r == alignment || s.Exhausted(isBig, size, alignment))
  {
    var t := s.Tidied();
    if s.Serves(isBig, size, alignment) || t.Serves(isBig, size, alignment) || t.right - t.left < size then alignment
    else t.Retry(size)
  }

  /** Diverges: the allocation loop recomputes the same alignment for ever. */
  datatype Outcome = Allocated(ptr: nat, size: nat) | OutOfMemory | Diverges

  /** Every freed chunk lies inside the heap. */
  lemma ChunksInHeap(s: Space, base: int, end: int, isBig: bool)
    requires s.Valid(base, end)
    ensures forall i :: 0 <= i < |s.FreedChunks(isBig)| ==> base <= s.FreedChunks(isBig)[i].ptr
  {
    var cs := s.FreedChunks(isBig);
    forall i | 0 <= i < |cs|
      ensures base <= cs[i].ptr
    {
      MemberCovers(cs, i, cs[i].ptr);
      assert s.At(cs[i].ptr) >= 1;
    }
  }

  /** Moving free space between the gap and the lists keeps the space valid. */
  lemma SameKeepsValid(s: Space, t: Space, base: int, end: int)
    requires s.Valid(base, end) && s.Same(t)
    requires base <= t.left <= t.right <= end && NonEmpty(t.small) && NonEmpty(t.big)
    ensures t.Valid(base, end)
  {
  }

  /** In an ascending list of disjoint chunks only direct neighbours can touch. */
  lemma NoneAdjacentAscending(cs: seq<Chunk>)
    requires Ascending(cs) && NonEmpty(cs) && forall x :: Count(cs, x) <= 1
    requires ApartAscending(cs, 0)
    ensures NoneTouch(cs)
  {
    forall i, j | 0 <= i < |cs| && 0 <= j < |cs|
      ensures cs[i].ptr + cs[i].size != cs[j].ptr
    {
      if i + 1 < j {
        OverlapCountsTwice(cs, i, i + 1, cs[i+1].ptr);
        OverlapCountsTwice(cs, i + 1, j, cs[j].ptr);
      }
    }
  }

  lemma NoneAdjacentDescending(cs: seq<Chunk>)
    requires Descending(cs) && NonEmpty(cs) && forall x :: Count(cs, x) <= 1
    requires ApartDescending(cs, 0)
    ensures NoneTouch(cs)
  {
    forall i, j | 0 <= i < |cs| && 0 <= j < |cs|
      ensures cs[i].ptr + cs[i].size != cs[j].ptr
    {
      if j + 1 < i {
        OverlapCountsTwice(cs, i - 1, i, cs[i-1].ptr);
        OverlapCountsTwice(cs, j, i - 1, cs[j].ptr);
      }
    }
  }

  /** Joining two touching neighbours, the kept one at `i - 1` and the erased one at `i`. */
  ghost function Joined(cs: seq<Chunk>, i: nat, c: Chunk): seq<Chunk>
    requires 0 < i < |cs|
  {
    cs[..i-1] + [c] + cs[i+1..]
  }

  lemma JoinKeepsCover(cs: seq<Chunk>, i: nat, c: Chunk)
    requires 0 < i < |cs|
    requires c.size == cs[i-1].size + cs[i].size
    requires || (c.ptr == cs[i].ptr && cs[i].ptr + cs[i].size == cs[i-1].ptr)
             || (c.ptr == cs[i-1].ptr && cs[i-1].ptr + cs[i-1].size == cs[i].ptr)
    ensures SameCover(cs, Joined(cs, i, c))
    ensures cs[i-1 := c][..i] + cs[i-1 := c][i+1..] == Joined(cs, i, c)
  {
    UpdateCount(cs, i - 1, c);
    var u := cs[i-1 := c];
    RemoveLoses(u, i);
    assert u[..i] + u[i+1..] == Joined(cs, i, c);
    forall x
      ensures Count(Joined(cs, i, c), x) == Count(cs, x)
    {
      assert Count(u, x) + Hit(cs[i-1].ptr, cs[i-1].size, x) == Count(cs, x) + Hit(c.ptr, c.size, x);
      assert Count(u, x) == Count(Joined(cs, i, c), x) + Hit(cs[i].ptr, cs[i].size, x);
    }
  }

  /** From index `i` on, no chunk of a descending list touches its predecessor. */
  ghost predicate ApartDescending(cs: seq<Chunk>, i: int) {
    forall k, m :: 0 <= k && i <= k < m < |cs| && m == k + 1 ==> cs[m].ptr + cs[m].size != cs[k].ptr
  }

  ghost predicate ApartAscending(cs: seq<Chunk>, i: int) {
    forall k, m :: 0 <= k && i <= k < m < |cs| && m == k + 1 ==> cs[k].ptr + cs[k].size != cs[m].ptr
  }

  lemma JoinDescending(cs: seq<Chunk>, i: nat, c: Chunk)
    requires 0 < i < |cs| && Descending(cs) && ApartDescending(cs, i)
    requires c.ptr == cs[i].ptr && c.size == cs[i-1].size + cs[i].size && cs[i].ptr + cs[i].size == cs[i-1].ptr
    ensures Descending(Joined(cs, i, c)) && ApartDescending(Joined(cs, i, c), i - 1)
  {
  }

  lemma JoinAscending(cs: seq<Chunk>, i: nat, c: Chunk)
    requires 0 < i < |cs| && Ascending(cs) && ApartAscending(cs, i)
    requires c.ptr == cs[i-1].ptr && c.size == cs[i-1].size + cs[i].size && cs[i-1].ptr + cs[i-1].size == cs[i].ptr
    ensures Ascending(Joined(cs, i, c)) && ApartAscending(Joined(cs, i, c), i - 1)
  {
  }

  /** The gap swallows the freed chunk at its right bound. */
  lemma MergeRight(s: Space, base: int, end: int)
    requires s.Valid(base, end)
    requires |s.small| > 0 && s.small[|s.small|-1].ptr == s.right
    ensures var last := s.small[|s.small|-1];
            var t := s.(right := last.ptr + last.size, small := s.small[..|s.small|-1]);
            s.Same(t) && t.Valid(base, end)
  {
    var n := |s.small| - 1;
    var last := s.small[n];
    var t := s.(right := last.ptr + last.size, small := s.small[..n]);
    RemoveLoses(s.small, n);
    assert s.small[..n] + s.small[n+1..] == s.small[..n];
    MemberCovers(s.small, n, last.ptr + last.size - 1);
    assert s.At(last.ptr + last.size - 1) >= 1;
    assert s.Same(t);
    SameKeepsValid(s, t, base, end);
  }

  /** The gap swallows the freed chunk at its left bound. */
  lemma MergeLeft(s: Space, base: int, end: int)
    requires s.Valid(base, end)
    requires |s.big| > 0 && s.big[|s.big|-1].ptr == s.left - s.big[|s.big|-1].size
    ensures var t := s.(left := s.big[|s.big|-1].ptr, big := s.big[..|s.big|-1]);
            s.Same(t) && t.Valid(base, end)
  {
    var n := |s.big| - 1;
    var last := s.big[n];
    var t := s.(left := last.ptr, big := s.big[..n]);
    RemoveLoses(s.big, n);
    assert s.big[..n] + s.big[n+1..] == s.big[..n];
    MemberCovers(s.big, n, last.ptr);
    assert s.At(last.ptr) >= 1;
    assert s.Same(t);
    SameKeepsValid(s, t, base, end);
  }

  /** After its last chunk was merged, a list without touching chunks does not touch the gap
      with its new last one. */
  lemma MergeSettles(s: Space)
    ensures NoneTouch(s.small) ==> s.MergedSmall().SmallSettled()
    ensures NoneTouch(s.big) ==> s.MergedBig().BigSettled()
  {
  }

  /** Replacing a list of freed chunks by one of the same cover changes nothing. */
  lemma ReplaceKeepsValid(s: Space, t: Space, base: int, end: int)
    requires s.Valid(base, end)
    requires s.left == t.left && s.right == t.right
    requires SameCover(s.small, t.small) && SameCover(s.big, t.big)
    ensures s.Same(t) && t.Valid(base, end)
  {
  }

  lemma SameTransitive(a: Space, b: Space, c: Space)
    requires a.Same(b) && b.Same(c)
    ensures a.Same(c)
  {
  }

  lemma TakeAfterSame(a: Space, b: Space, c: Space, ptr: int, size: int)
    requires a.Same(b) && b.Takes(c, ptr, size)
    ensures a.Takes(c, ptr, size)
  {
  }

  lemma TakeBeforeSame(a: Space, b: Space, c: Space, ptr: int, size: int)
    requires a.Same(b) && a.Takes(c, ptr, size)
    ensures b.Takes(c, ptr, size)
  {
  }

  /** A range that was taken lies in the heap. */
  lemma TakenRangeInHeap(s: Space, t: Space, base: int, end: int, ptr: int, size: int)
    requires s.Valid(base, end) && s.Takes(t, ptr, size) && size > 0
    ensures base <= ptr && ptr + size <= end
  {
    assert s.At(ptr) == t.At(ptr) + Hit(ptr, size, ptr);
    assert s.At(ptr + size - 1) == t.At(ptr + size - 1) + Hit(ptr, size, ptr + size - 1);
  }

  /** Giving back a range that is not free keeps the space valid. */
  lemma GiveKeepsValid(s: Space, t: Space, base: int, end: int, ptr: int, size: int)
    requires s.Valid(base, end) && base <= ptr && ptr + size <= end
    requires forall x :: ptr <= x < ptr + size ==> s.At(x) == 0
    requires t.Takes(s, ptr, size)
    requires base <= t.left <= t.right <= end && NonEmpty(t.small) && NonEmpty(t.big)
    ensures t.Valid(base, end)
  {
  }

  lemma GiveToGap(s: Space, t: Space, ptr: int, size: int)
    requires size > 0 && s.left <= s.right
    requires || (ptr == s.right && t == s.(right := ptr + size))
             || (ptr + size == s.left && t == s.(left := ptr))
    ensures t.Takes(s, ptr, size)
  {
  }

  lemma GiveToChunks(s: Space, t: Space, ptr: int, size: int)
    requires || (Gains(s.big, t.big, ptr, size) && t == s.(big := t.big))
             || (Gains(s.small, t.small, ptr, size) && t == s.(small := t.small))
    ensures t.Takes(s, ptr, size)
  {
  }

  lemma AtBoundsLists(s: Space)
    requires forall x :: s.At(x) <= 1
    ensures forall x :: Count(s.small, x) <= 1
    ensures forall x :: Count(s.big, x) <= 1
  {
    forall x
      ensures Count(s.small, x) <= 1 && Count(s.big, x) <= 1
    {
      assert s.At(x) <= 1;
    }
  }

  /** A big request out of the gap: the misaligned start goes to the freed chunks. */
  lemma TakeFromLeft(s: Space, t: Space, base: int, end: int, misalignment: int, size: int)
    requires s.Valid(base, end) && size > 0 && misalignment >= 0
    requires s.left + misalignment + size <= s.right
    requires if misalignment > 0 then Gains(s.big, t.big, s.left, misalignment) else t.big == s.big
    requires t == Space(s.left + misalignment + size, s.right, s.small, t.big)
    ensures s.Takes(t, s.left + misalignment, size) && t.Valid(base, end)
  {
  }

  /** A small request out of the gap: the misaligned end goes to the freed chunks. */
  lemma TakeFromRight(s: Space, t: Space, base: int, end: int, misalignment: int, size: int)
    requires s.Valid(base, end) && size > 0 && misalignment >= 0
    requires s.left + misalignment + size <= s.right
    requires if misalignment > 0 then Gains(s.small, t.small, s.right - misalignment, misalignment)
              else t.small == s.small
    requires t == Space(s.left, s.right - misalignment - size, t.small, s.big)
    ensures s.Takes(t, s.right - misalignment - size, size) && t.Valid(base, end)
  {
  }

  /** A request out of a freed chunk of the list that serves it. */
  lemma TakeFromChunks(s: Space, t: Space, base: int, end: int, ptr: int, size: int)
    requires s.Valid(base, end)
    requires s.left == t.left && s.right == t.right
    requires || (Loses(s.small, t.small, ptr, size) && t.big == s.big)
             || (Loses(s.big, t.big, ptr, size) && t.small == s.small)
    ensures s.Takes(t, ptr, size) && t.Valid(base, end)
  {
  }

  class HeapAllocator {
    const baseAddress: nat
    const size: nat
    const allocationAlignment: nat
    const sizeThreshold: nat
    var availableSize: int
    var pLeftBound: int
    var pRightBound: int
    var freedChunksSmall: seq<Chunk>
    var freedChunksBig: seq<Chunk>

    ghost function End(): int {
      baseAddress + size
    }

    function Free(): Space
      reads this
    {
      Space(pLeftBound, pRightBound, freedChunksSmall, freedChunksBig)
    }

    ghost predicate Valid()
      reads this
    {
      && allocationAlignment > 0
      && Free().Valid(baseAddress, End())
      && availableSize == Free().Bytes()
    }

    constructor (address: nat, size: nat, allocationAlignment: nat, threshold: nat)
      requires address > 0 && allocationAlignment > 0
      ensures Valid()
      ensures baseAddress == address && this.size == size
      ensures this.allocationAlignment == allocationAlignment && sizeThreshold == threshold
      ensures Free() == Space(address, address + size, [], [])
      ensures forall x :: Free().At(x) == Hit(address, size, x)
    {
      baseAddress := address;
      this.size := size;
      this.allocationAlignment := allocationAlignment;
      sizeThreshold := threshold;
      availableSize := size;
      pLeftBound := address;
      pRightBound := address + size;
      freedChunksSmall := [];
      freedChunksBig := [];
    }

    static method StoreInFreedChunks(ptr: nat, size: nat, freedChunks: seq<Chunk>) returns (r: seq<Chunk>)
      requires size > 0
      ensures Gains(freedChunks, r, ptr, size)
      ensures |r| == |freedChunks| + if Touches(freedChunks, ptr, size) then 0 else 1
    {
      for i := 0 to |freedChunks|
        invariant !Touches(freedChunks[..i], ptr, size)
      {
        assert freedChunks[..i + 1] == freedChunks[..i] + [freedChunks[i]];
        var c := freedChunks[i];
        if c.ptr == ptr + size {
          UpdateCount(freedChunks, i, Chunk(ptr, c.size + size));
          return freedChunks[i := Chunk(ptr, c.size + size)];
        }
        if c.ptr + c.size == ptr {
          UpdateCount(freedChunks, i, Chunk(c.ptr, c.size + size));
          return freedChunks[i := Chunk(c.ptr, c.size + size)];
        }
      }
      assert freedChunks[..|freedChunks|] == freedChunks;
      AppendGains(freedChunks, Chunk(ptr, size));
      r := freedChunks + [Chunk(ptr, size)];
    }

    /** Best fit among the aligned freed chunks: an exact match, else the smallest larger
        chunk, whole when it is under twice the request and cut at its end otherwise. */
    static method GetFromFreedChunks(size: nat, freedChunks: seq<Chunk>, requiredAlignment: nat)
      returns (ptr: nat, sizeOfFreedChunk: nat, r: seq<Chunk>)
      requires size > 0 && requiredAlignment > 0
      requires forall i :: 0 <= i < |freedChunks| ==> freedChunks[i].ptr > 0
      ensures ptr == 0 <==> forall i :: 0 <= i < |freedChunks| ==> !Fits(freedChunks[i], size, requiredAlignment)
      ensures ptr == 0 ==> r == freedChunks && sizeOfFreedChunk == 0
      ensures ptr != 0 ==> IsAligned(ptr, requiredAlignment)
      ensures ptr != 0 ==> sizeOfFreedChunk == 0 || sizeOfFreedChunk >= size
      ensures ptr != 0 ==> Loses(freedChunks, r, ptr, if sizeOfFreedChunk > 0 then sizeOfFreedChunk else size)
      ensures ptr != 0 ==> exists k ::
        && BestFit(freedChunks, k, size, requiredAlignment)
        && CutFrom(freedChunks[k], size, ptr, if sizeOfFreedChunk > 0 then sizeOfFreedChunk else size)
    {
      var bestFitIndex, bestFitSize := 0, 0;
      sizeOfFreedChunk := 0;
      for i := 0 to |freedChunks|
        invariant bestFitSize == 0 ==> forall j :: 0 <= j < i ==> !Fits(freedChunks[j], size, requiredAlignment)
        invariant bestFitSize != 0 ==> bestFitIndex < i && freedChunks[bestFitIndex].size == bestFitSize > size
        invariant bestFitSize != 0 ==> IsAligned(freedChunks[bestFitIndex].ptr, requiredAlignment)
        invariant bestFitSize != 0 ==>
          forall j :: 0 <= j < i && Fits(freedChunks[j], size, requiredAlignment) ==> bestFitSize <= freedChunks[j].size
      {
        if IsAligned(freedChunks[i].ptr, requiredAlignment) {
          if freedChunks[i].size == size {
            RemoveLoses(freedChunks, i);
            assert BestFit(freedChunks, i, size, requiredAlignment);
            return freedChunks[i].ptr, 0, freedChunks[..i] + freedChunks[i+1..];
          }
          if freedChunks[i].size > size {
            if freedChunks[i].size < bestFitSize || bestFitSize == 0 {
              bestFitIndex := i;
              bestFitSize := freedChunks[i].size;
            }
          }
        }
      }
      if bestFitSize == 0 {
        return 0, 0, freedChunks;
      }
      var best := freedChunks[bestFitIndex];
      assert BestFit(freedChunks, bestFitIndex, size, requiredAlignment);
      if bestFitSize < 2 * size {
        RemoveLoses(freedChunks, bestFitIndex);
        return best.ptr, best.size, freedChunks[..bestFitIndex] + freedChunks[bestFitIndex+1..];
      }
      var sizeDelta := best.size - size;
      ptr := best.ptr + sizeDelta;
      AlignDownIsAligned(ptr, requiredAlignment);
      AlignDownKeepsFloor(best.ptr, ptr, requiredAlignment);
      if !IsAligned(ptr, requiredAlignment) {
        var alignedPtr := AlignDown(ptr, requiredAlignment);
        var alignedDelta := ptr - alignedPtr;
        var rest := Chunk(best.ptr, sizeDelta - alignedDelta);
        UpdateCount(freedChunks, bestFitIndex, rest);
        r := freedChunks[bestFitIndex := rest];
        if rest.size == 0 {
          RemoveLoses(r, bestFitIndex);
          r := r[..bestFitIndex] + r[bestFitIndex+1..];
        }
        return alignedPtr, size + alignedDelta, r;
      }
      UpdateCount(freedChunks, bestFitIndex, Chunk(best.ptr, sizeDelta));
      r := freedChunks[bestFitIndex := Chunk(best.ptr, sizeDelta)];
    }

    method MergeLastFreedSmall()
      requires Valid()
      modifies this`pRightBound, this`freedChunksSmall
      ensures Valid() && old(Free()).Same(Free()) && Free() == old(Free()).MergedSmall()
    {
      var n := |freedChunksSmall|;
      if n > 0 {
        var last := freedChunksSmall[n - 1];
        if last.ptr == pRightBound {
          MergeRight(Free(), baseAddress, End());
          pRightBound := last.ptr + last.size;
          freedChunksSmall := freedChunksSmall[..n-1];
        }
      }
    }

    method MergeLastFreedBig()
      requires Valid()
      modifies this`pLeftBound, this`freedChunksBig
      ensures Valid() && old(Free()).Same(Free()) && Free() == old(Free()).MergedBig()
    {
      var n := |freedChunksBig|;
      if n > 0 {
        var last := freedChunksBig[n - 1];
        if last.ptr == pLeftBound - last.size {
          MergeLeft(Free(), baseAddress, End());
          pLeftBound := last.ptr;
          freedChunksBig := freedChunksBig[..n-1];
        }
      }
    }

    /** Joins neighbours in a list sorted by descending address. */
    static method CoalesceDescending(cs: seq<Chunk>) returns (r: seq<Chunk>)
      requires Descending(cs) && NonEmpty(cs) && forall x :: Count(cs, x) <= 1
      ensures SameCover(cs, r) && NoneTouch(r) && r == JoinedDown(cs, |cs| - 1)
    {
      r := cs;
      var i := |r| - 1;
      while i > 0
        invariant r == [] || 0 <= i < |r|
        invariant JoinedDown(r, i) == JoinedDown(cs, |cs| - 1)
        invariant SameCover(cs, r) && Descending(r) && ApartDescending(r, i)
      {
        if r[i-1].ptr == r[i].ptr + r[i].size {
          var joined := Chunk(r[i].ptr, r[i-1].size + r[i].size);
          JoinDescending(r, i, joined);
          JoinKeepsCover(r, i, joined);
          r := r[i-1 := joined][..i] + r[i-1 := joined][i+1..];
        }
        i := i - 1;
      }
      NoneAdjacentDescending(r);
    }

    /** Joins neighbours in a list sorted by ascending address. */
    static method CoalesceAscending(cs: seq<Chunk>) returns (r: seq<Chunk>)
      requires Ascending(cs) && NonEmpty(cs) && forall x :: Count(cs, x) <= 1
      ensures SameCover(cs, r) && NoneTouch(r) && r == JoinedUp(cs, |cs| - 1)
    {
      r := cs;
      var i := |r| - 1;
      while i > 0
        invariant r == [] || 0 <= i < |r|
        invariant JoinedUp(r, i) == JoinedUp(cs, |cs| - 1)
        invariant SameCover(cs, r) && Ascending(r) && ApartAscending(r, i)
      {
        if r[i-1].ptr + r[i-1].size == r[i].ptr {
          var joined := Chunk(r[i-1].ptr, r[i-1].size + r[i].size);
          JoinAscending(r, i, joined);
          JoinKeepsCover(r, i, joined);
          r := r[i-1 := joined][..i] + r[i-1 := joined][i+1..];
        }
        i := i - 1;
      }
      NoneAdjacentAscending(r);
    }

    method Defragment()
      requires Valid()
      modifies this`pLeftBound, this`pRightBound, this`freedChunksSmall, this`freedChunksBig
      ensures Valid() && old(Free()).Same(Free())
      ensures Free().Defragmented() && Free() == old(Free()).Tidied()
    {
      DefragmentSmall();
      label Middle:
      DefragmentBig();
      assert Free().SmallSettled();
      SameTransitive(old(Free()), old@Middle(Free()), Free());
    }

    method DefragmentSmall()
      requires Valid()
      modifies this`pRightBound, this`freedChunksSmall
      ensures Valid() && old(Free()).Same(Free()) && Free() == old(Free()).JoinedSmall().MergedSmall()
      ensures Free().SmallSettled()
    {
      JoinFreedSmall();
      label Middle:
      MergeSettles(Free());
      MergeLastFreedSmall();
      SameTransitive(old(Free()), old@Middle(Free()), Free());
    }

    method JoinFreedSmall()
      requires Valid()
      modifies this`freedChunksSmall
      ensures Valid() && old(Free()).Same(Free()) && Free() == old(Free()).JoinedSmall() && NoneTouch(freedChunksSmall)
    {
      if |freedChunksSmall| > 1 {
        SortKeeps(freedChunksSmall);
        ReverseKeeps(Sort(freedChunksSmall));
        AtBoundsLists(Free());
        freedChunksSmall := CoalesceDescending(Reverse(Sort(freedChunksSmall)));
        ReplaceKeepsValid(old(Free()), Free(), baseAddress, End());
      }
    }

    method DefragmentBig()
      requires Valid()
      modifies this`pLeftBound, this`freedChunksBig
      ensures Valid() && old(Free()).Same(Free()) && Free() == old(Free()).JoinedBig().MergedBig()
      ensures Free().BigSettled()
    {
      JoinFreedBig();
      label Middle:
      MergeSettles(Free());
      MergeLastFreedBig();
      SameTransitive(old(Free()), old@Middle(Free()), Free());
    }

    method JoinFreedBig()
      requires Valid()
      modifies this`freedChunksBig
      ensures Valid() && old(Free()).Same(Free()) && Free() == old(Free()).JoinedBig() && NoneTouch(freedChunksBig)
    {
      if |freedChunksBig| > 1 {
        SortKeeps(freedChunksBig);
        AtBoundsLists(Free());
        freedChunksBig := CoalesceAscending(Sort(freedChunksBig));
        ReplaceKeepsValid(old(Free()), Free(), baseAddress, End());
      }
    }

    /** One pass of the allocation loop: the gap first, then the freed chunks of the list
        that serves this size. */
    method TryPlace(size: nat, alignment: nat) returns (ptr: nat, sizeOfFreedChunk: nat)
      requires Valid() && size > 0 && alignment > 0
      modifies this`pLeftBound, this`pRightBound, this`freedChunksSmall, this`freedChunksBig
      ensures Free().Valid(baseAddress, End())
      ensures ptr == 0 <==> !old(Free()).Serves(size > sizeThreshold, size, alignment)
      ensures ptr == 0 ==> Free() == old(Free())
      ensures ptr != 0 ==> IsAligned(ptr, alignment)
      ensures ptr != 0 ==> sizeOfFreedChunk == 0 || sizeOfFreedChunk >= size
      ensures ptr != 0 ==> old(Free()).Takes(Free(), ptr, if sizeOfFreedChunk > 0 then sizeOfFreedChunk else size)
      ensures old(Free()).GapFits(size > sizeThreshold, size, alignment) ==>
                sizeOfFreedChunk == 0 && ptr == InGap(old(Free()), size > sizeThreshold, size, alignment)
    {
      var isBig := size > sizeThreshold;
      sizeOfFreedChunk := 0;
      AlignUpIsAligned(pLeftBound, alignment);
      AlignDownIsAligned(pRightBound - size, alignment);
      if isBig {
        ptr := PlaceLeft(size, alignment);
      } else {
        ptr := PlaceRight(size, alignment);
      }
      if ptr == 0 {
        ptr, sizeOfFreedChunk := PlaceInFreed(size, alignment, isBig);
      }
    }

    method PlaceLeft(size: nat, alignment: nat) returns (ptr: nat)
      requires Valid() && size > 0 && alignment > 0
      modifies this`pLeftBound, this`freedChunksBig
      ensures Free().Valid(baseAddress, End())
      ensures ptr == 0 <==> !old(Free()).GapFits(true, size, alignment)
      ensures ptr == 0 ==> Free() == old(Free())
      ensures ptr != 0 ==> ptr == AlignUp(old(pLeftBound), alignment) && old(Free()).Takes(Free(), ptr, size)
    {
      ptr := 0;
      var misalignment := AlignUp(pLeftBound, alignment) - pLeftBound;
      if pLeftBound + misalignment + size <= pRightBound {
        if misalignment > 0 {
          freedChunksBig := StoreInFreedChunks(pLeftBound, misalignment, freedChunksBig);
          pLeftBound := pLeftBound + misalignment;
        }
        ptr := pLeftBound;
        pLeftBound := pLeftBound + size;
        TakeFromLeft(old(Free()), Free(), baseAddress, End(), misalignment, size);
      }
    }

    method PlaceRight(size: nat, alignment: nat) returns (ptr: nat)
      requires Valid() && size > 0 && alignment > 0
      modifies this`pRightBound, this`freedChunksSmall
      ensures Free().Valid(baseAddress, End())
      ensures ptr == 0 <==> !old(Free()).GapFits(false, size, alignment)
      ensures ptr == 0 ==> Free() == old(Free())
      ensures ptr != 0 ==> ptr == AlignDown(old(pRightBound) - size, alignment) && old(Free()).Takes(Free(), ptr, size)
    {
      ptr := 0;
      var pStart := pRightBound - size;
      var misalignment := pStart - AlignDown(pStart, alignment);
      if pLeftBound + size + misalignment <= pRightBound {
        if misalignment > 0 {
          pRightBound := pRightBound - misalignment;
          freedChunksSmall := StoreInFreedChunks(pRightBound, misalignment, freedChunksSmall);
        }
        pRightBound := pRightBound - size;
        ptr := pRightBound;
        TakeFromRight(old(Free()), Free(), baseAddress, End(), misalignment, size);
      }
    }

    method PlaceInFreed(size: nat, alignment: nat, isBig: bool) returns (ptr: nat, sizeOfFreedChunk: nat)
      requires Valid() && size > 0 && alignment > 0
      modifies this`freedChunksSmall, this`freedChunksBig
      ensures Free().Valid(baseAddress, End())
      ensures ptr == 0 <==> !old(Free()).ChunkFits(isBig, size, alignment)
      ensures ptr == 0 ==> Free() == old(Free())
      ensures ptr != 0 ==> IsAligned(ptr, alignment)
      ensures ptr != 0 ==> sizeOfFreedChunk == 0 || sizeOfFreedChunk >= size
      ensures ptr != 0 ==> old(Free()).Takes(Free(), ptr, if sizeOfFreedChunk > 0 then sizeOfFreedChunk else size)
    {
      ChunksInHeap(Free(), baseAddress, End(), isBig);
      var freed := Free().FreedChunks(isBig);
      var r;
      ptr, sizeOfFreedChunk, r := GetFromFreedChunks(size, freed, alignment);
      if isBig {
        freedChunksBig := r;
      } else {
        freedChunksSmall := r;
      }
      if ptr != 0 {
        TakeFromChunks(old(Free()), Free(), baseAddress, End(), ptr, if sizeOfFreedChunk > 0 then sizeOfFreedChunk
            else size);
      }
    }

    /** Serves `request` bytes: gap, freed chunks, then once more after defragmenting, then
        with a smaller alignment when more than 2 MB was asked for.  A failed pass changes
        nothing, so a third pass that fails with an alignment still above 2 MB repeats for
        ever.  Which of the three it will be can be told before the call. */
    method AllocateWithCustomAlignment(request: nat, customAlignment: nat) returns (r: Outcome)
      requires Valid() && request > 0
      requires customAlignment % allocationAlignment == 0 || customAlignment < allocationAlignment
      modifies this
      ensures Valid()
      ensures !r.Allocated? ==> old(Free()).Same(Free())
      ensures var size, alignment := AlignUp(request, allocationAlignment), Effective(customAlignment);
              var s, isBig := old(Free()), size > sizeThreshold;
              && (r.Diverges? <==> s.Bytes() >= size && s.Loops(isBig, size, alignment))
              && (r.OutOfMemory? <==>
                    s.Bytes() < size || (s.Exhausted(isBig, size, alignment) && !s.Loops(isBig, size, alignment)))
              && (r.Allocated? ==>
                    && r.size >= size && s.Takes(Free(), r.ptr, r.size)
                    && baseAddress <= r.ptr && r.ptr + r.size <= End()
                    && IsAligned(r.ptr, Granted(s, isBig, size, alignment)))
              && (r.Allocated? && s.GapFits(isBig, size, alignment) ==>
                    r.size == size && r.ptr == if isBig then AlignUp(s.left, alignment)
                                               else AlignDown(s.right - size, alignment))
    {
      var alignment := Effective(customAlignment);
      var sizeToAllocate := AlignUp(request, allocationAlignment);
      if availableSize < sizeToAllocate {
        return OutOfMemory;
      }
      var ptr, sizeOfFreedChunk, stuck := Search(sizeToAllocate, alignment);
      if ptr == 0 {
        return if stuck then Diverges else OutOfMemory;
      }
      if sizeOfFreedChunk > 0 {
        sizeToAllocate := sizeOfFreedChunk;
      }
      availableSize := availableSize - sizeToAllocate;
      TakenRangeInHeap(old(Free()), Free(), baseAddress, End(), ptr, sizeToAllocate);
      r := Allocated(ptr, sizeToAllocate);
    }

    /** The passes of the allocation loop. */
    method Search(size: nat, alignment: nat) returns (ptr: nat, sizeOfFreedChunk: nat, stuck: bool)
      requires Valid() && size > 0 && alignment > 0
      modifies this`pLeftBound, this`pRightBound, this`freedChunksSmall, this`freedChunksBig
      ensures Free().Valid(baseAddress, End())
      ensures ptr == 0 <==> old(Free()).Exhausted(size > sizeThreshold, size, alignment)
      ensures ptr == 0 ==> old(Free()).Same(Free())
      ensures ptr == 0 ==> (stuck <==> old(Free()).Loops(size > sizeThreshold, size, alignment))
      ensures ptr != 0 ==> sizeOfFreedChunk == 0 || sizeOfFreedChunk >= size
      ensures ptr != 0 ==> old(Free()).Takes(Free(), ptr, if sizeOfFreedChunk > 0 then sizeOfFreedChunk else size)
      ensures ptr != 0 ==> IsAligned(ptr, Granted(old(Free()), size > sizeThreshold, size, alignment))
      ensures old(Free()).GapFits(size > sizeThreshold, size, alignment) ==>
                sizeOfFreedChunk == 0 && ptr == InGap(old(Free()), size > sizeThreshold, size, alignment)
    {
      stuck := false;
      ptr, sizeOfFreedChunk := TryPlace(size, alignment);
      if ptr == 0 {
        Defragment();
        label Tidy:
        ptr, sizeOfFreedChunk, stuck := SearchTidied(size, alignment);
        if ptr != 0 {
          TakeAfterSame(old(Free()), old@Tidy(Free()), Free(), ptr, if sizeOfFreedChunk > 0 then sizeOfFreedChunk
              else size);
        }
      }
    }

    /** The passes after defragmentation. */
    method SearchTidied(size: nat, alignment: nat) returns (ptr: nat, sizeOfFreedChunk: nat, stuck: bool)
      requires Valid() && size > 0 && alignment > 0
      modifies this`pLeftBound, this`pRightBound, this`freedChunksSmall, this`freedChunksBig
      ensures Free().Valid(baseAddress, End())
      ensures var t, isBig := old(Free()), size > sizeThreshold;
              var retried := alignment > 2 * MEGABYTE && t.right - t.left >= size;
              && (ptr == 0 <==>
                  !t.Serves(isBig, size, alignment) && (retried ==> !t.Serves(isBig, size, t.Retry(size))))
              && (ptr == 0 ==> Free() == t && (stuck <==> retried && t.Retry(size) > 2 * MEGABYTE))
              && (ptr != 0 ==>
                    && (sizeOfFreedChunk == 0 || sizeOfFreedChunk >= size)
                    && t.Takes(Free(), ptr, if sizeOfFreedChunk > 0 then sizeOfFreedChunk else size)
                    && IsAligned(ptr, if t.Serves(isBig, size, alignment) || !retried then alignment
                        else t.Retry(size)))
    {
      stuck := false;
      ptr, sizeOfFreedChunk := TryPlace(size, alignment);
      if ptr == 0 && alignment > 2 * MEGABYTE && pRightBound - pLeftBound >= size {
        var smaller := RetryAlignment(pRightBound - pLeftBound, size);
        ptr, sizeOfFreedChunk := TryPlace(size, smaller);
        stuck := smaller > 2 * MEGABYTE;
      }
    }

    function Effective(customAlignment: nat): (r: nat)
      ensures allocationAlignment > 0 ==> r > 0
    {
      if customAlignment < allocationAlignment then allocationAlignment else customAlignment
    }

    /** Returns the range of an earlier allocation. */
    method Release(ptr: nat, size: nat)
      requires Valid() && size > 0
      requires baseAddress <= ptr && ptr + size <= End()
      requires forall x :: ptr <= x < ptr + size ==> Free().At(x) == 0
      modifies this
      ensures Valid()
      ensures Free().Takes(old(Free()), ptr, size)
      ensures ptr == old(pRightBound) ==> Free() == old(Free()).(right := ptr + size).MergedSmall()
      ensures ptr != old(pRightBound) && ptr + size == old(pLeftBound) ==>
                Free() == old(Free()).(left := ptr).MergedBig()
    {
      if ptr == pRightBound {
        pRightBound := ptr + size;
        GiveToGap(old(Free()), Free(), ptr, size);
        GiveKeepsValid(old(Free()), Free(), baseAddress, End(), ptr, size);
        availableSize := availableSize + size;
        label Middle:
        MergeLastFreedSmall();
        TakeBeforeSame(old@Middle(Free()), Free(), old(Free()), ptr, size);
      } else if ptr == pLeftBound - size {
        pLeftBound := ptr;
        GiveToGap(old(Free()), Free(), ptr, size);
        GiveKeepsValid(old(Free()), Free(), baseAddress, End(), ptr, size);
        availableSize := availableSize + size;
        label Middle2:
        MergeLastFreedBig();
        TakeBeforeSame(old@Middle2(Free()), Free(), old(Free()), ptr, size);
      } else if ptr < pLeftBound {
        freedChunksBig := StoreInFreedChunks(ptr, size, freedChunksBig);
        GiveToChunks(old(Free()), Free(), ptr, size);
        GiveKeepsValid(old(Free()), Free(), baseAddress, End(), ptr, size);
        availableSize := availableSize + size;
      } else {
        freedChunksSmall := StoreInFreedChunks(ptr, size, freedChunksSmall);
        GiveToChunks(old(Free()), Free(), ptr, size);
        GiveKeepsValid(old(Free()), Free(), baseAddress, End(), ptr, size);
        availableSize := availableSize + size;
      }
    }
  }

  /** A fresh heap with 4 KB alignment and a 4 MB threshold, asked for 8 MB aligned to 4 MB in a
      gap that is large enough: the call does not return. */
  method StallingHeap() returns (r: Outcome)
    ensures r.Diverges?
  {
    var h := new HeapAllocator(PAGE_SIZE_64K, 8 * MEGABYTE + 0x3E_1000, 0x1000, 4 * MEGABYTE);
    ghost var s := h.Free();
    StallingSpace(s);
    r := h.AllocateWithCustomAlignment(8 * MEGABYTE, 4 * MEGABYTE);
  }

  lemma StallingSpace(s: Space)
    requires s == Space(PAGE_SIZE_64K, PAGE_SIZE_64K + 8 * MEGABYTE + 0x3E_1000, [], [])
    ensures s.Bytes() >= 8 * MEGABYTE && s.Loops(true, 8 * MEGABYTE, 4 * MEGABYTE)
    ensures AlignUp(8 * MEGABYTE, 0x1000) == 8 * MEGABYTE
  {
    assert Pow2(8) == 0x100;
    assert Pow2(15) == 0x8000;
    assert Pow2(22) == 0x40_0000;
    PrevPowerOfTwoBrackets(0x40_0FFF, 22);
    assert PAGE_SIZE_64K % (4 * MEGABYTE) == PAGE_SIZE_64K;
  }
}
