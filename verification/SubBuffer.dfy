/** Sub-buffer creation: the rights a sub-buffer gets from its own flags and its parent's, and
    the region of the parent it covers. */
module SubBuffers {
  import opened Options
  import opened Collections
  import opened ClTypes

  /** One bit of a cl_mem_flags word. */
  datatype MemFlag =
    | READ_WRITE
    | WRITE_ONLY
    | READ_ONLY
    | USE_HOST_PTR
    | ALLOC_HOST_PTR
    | COPY_HOST_PTR
    | HOST_WRITE_ONLY
    | HOST_READ_ONLY
    | HOST_NO_ACCESS
    | OTHER_FLAG(bit: nat)

  /** A flag word is the set of its bits. */
  type MemFlags = set<MemFlag>

  const KERNEL_FLAGS: MemFlags := {READ_WRITE, WRITE_ONLY, READ_ONLY}
  const HOST_FLAGS: MemFlags := {HOST_WRITE_ONLY, HOST_READ_ONLY, HOST_NO_ACCESS}
  const HOST_PTR_FLAGS: MemFlags := {USE_HOST_PTR, ALLOC_HOST_PTR, COPY_HOST_PTR}

  /* ---- what flags mean ---- */

  /** What kernels may do: anything, if nothing is said. */
  predicate KernelReads(f: MemFlags) {
    f * KERNEL_FLAGS == {} || READ_WRITE in f || READ_ONLY in f
  }

  predicate KernelWrites(f: MemFlags) {
    f * KERNEL_FLAGS == {} || READ_WRITE in f || WRITE_ONLY in f
  }

  /** What the host may do: anything, if nothing is said. */
  predicate HostReads(f: MemFlags) {
    f * HOST_FLAGS == {} || HOST_READ_ONLY in f
  }

  predicate HostWrites(f: MemFlags) {
    f * HOST_FLAGS == {} || HOST_WRITE_ONLY in f
  }

  predicate KernelWithin(f: MemFlags, parent: MemFlags) {
    (KernelReads(f) ==> KernelReads(parent)) && (KernelWrites(f) ==> KernelWrites(parent))
  }

  predicate HostWithin(f: MemFlags, parent: MemFlags) {
    (HostReads(f) ==> HostReads(parent)) && (HostWrites(f) ==> HostWrites(parent))
  }

  /** Flags ask for no right that the parent lacks. */
  predicate Permitted(f: MemFlags, parent: MemFlags) {
    (f * KERNEL_FLAGS != {} ==> KernelWithin(f, parent)) && (f * HOST_FLAGS != {} ==> HostWithin(f, parent))
  }

  predicate OneHostFlag(f: MemFlags) {
    |f * HOST_FLAGS| <= 1
  }

  predicate WellFormed(f: MemFlags) {
    OneHostFlag(f) && |f * KERNEL_FLAGS| <= 1
  }

  lemma AtMostOne(f: MemFlags, a: MemFlag, b: MemFlag, c: MemFlag)
    requires a != b && b != c && a != c
    ensures |f * {a, b, c}| <= 1 <==> !(a in f && b in f) && !(a in f && c in f) && !(b in f && c in f)
  {
    var g := f * {a, b, c};
    assert a in f && b in f ==> {a, b} <= g && |{a, b}| == 2;
    assert a in f && c in f ==> {a, c} <= g && |{a, c}| == 2;
    assert b in f && c in f ==> {b, c} <= g && |{b, c}| == 2;
    if a in f && b in f {
      SubsetSize({a, b}, g);
    } else if a in f && c in f {
      SubsetSize({a, c}, g);
    } else if b in f && c in f {
      SubsetSize({b, c}, g);
    } else {
      assert g == {} || g == {a} || g == {b} || g == {c};
    }
  }

  /* ---- the checks of the code ---- */

  predicate Contradictory(f: MemFlags) {
    || (HOST_READ_ONLY in f && HOST_NO_ACCESS in f)
    || (HOST_READ_ONLY in f && HOST_WRITE_ONLY in f)
    || (HOST_WRITE_ONLY in f && HOST_NO_ACCESS in f)
  }

  predicate Conflicts(f: MemFlags, parent: MemFlags) {
    && f != {}
    && (|| (WRITE_ONLY in parent && (READ_WRITE in f || READ_ONLY in f))
        || (READ_ONLY in parent && (READ_WRITE in f || WRITE_ONLY in f))
        || (HOST_WRITE_ONLY in parent && HOST_READ_ONLY in f)
        || (HOST_READ_ONLY in parent && HOST_WRITE_ONLY in f)
        || (HOST_NO_ACCESS in parent && (HOST_WRITE_ONLY in f || HOST_READ_ONLY in f)))
  }

  /** The flags a sub-buffer ends up with. */
  function Inherited(f: MemFlags, parent: MemFlags): MemFlags {
    f
    + (if f * KERNEL_FLAGS == {} then parent * KERNEL_FLAGS else {})
    + (if f * HOST_FLAGS == {} then parent * HOST_FLAGS else {})
    + parent * HOST_PTR_FLAGS
  }

  lemma ContradictoryExact(f: MemFlags)
    ensures !Contradictory(f) <==> OneHostFlag(f)
  {
    AtMostOne(f, HOST_WRITE_ONLY, HOST_READ_ONLY, HOST_NO_ACCESS);
  }

  lemma Groups(f: MemFlags)
    ensures f * KERNEL_FLAGS == {} <==> READ_WRITE !in f && WRITE_ONLY !in f && READ_ONLY !in f
    ensures f * HOST_FLAGS == {} <==> HOST_WRITE_ONLY !in f && HOST_READ_ONLY !in f && HOST_NO_ACCESS !in f
  {
    assert READ_WRITE in f ==> READ_WRITE in f * KERNEL_FLAGS;
    assert WRITE_ONLY in f ==> WRITE_ONLY in f * KERNEL_FLAGS;
    assert READ_ONLY in f ==> READ_ONLY in f * KERNEL_FLAGS;
    assert HOST_WRITE_ONLY in f ==> HOST_WRITE_ONLY in f * HOST_FLAGS;
    assert HOST_READ_ONLY in f ==> HOST_READ_ONLY in f * HOST_FLAGS;
    assert HOST_NO_ACCESS in f ==> HOST_NO_ACCESS in f * HOST_FLAGS;
  }

  /** For a well-formed parent the flags that do not conflict are exactly those that ask for no
      right the parent lacks. */
  lemma ConflictExact(f: MemFlags, parent: MemFlags)
    requires WellFormed(parent) && OneHostFlag(f)
    ensures !Conflicts(f, parent) <==> Permitted(f, parent)
  {
    Groups(f);
    Groups(parent);
    ContradictoryExact(f);
    ContradictoryExact(parent);
    AtMostOne(parent, READ_WRITE, WRITE_ONLY, READ_ONLY);
  }

  /** Flags that are given are kept, and those that are not are the parent's. */
  lemma InheritedFlags(f: MemFlags, parent: MemFlags)
    requires f <= KERNEL_FLAGS + HOST_FLAGS
    ensures var g := Inherited(f, parent);
            && g * KERNEL_FLAGS == (if f * KERNEL_FLAGS != {} then f * KERNEL_FLAGS else parent * KERNEL_FLAGS)
            && g * HOST_FLAGS == (if f * HOST_FLAGS != {} then f * HOST_FLAGS else parent * HOST_FLAGS)
            && g * HOST_PTR_FLAGS == parent * HOST_PTR_FLAGS
            && g <= KERNEL_FLAGS + HOST_FLAGS + HOST_PTR_FLAGS
  {
  }

  /** Whatever the parent, accepted flags end up with no right it lacks. */
  lemma InheritedRights(f: MemFlags, parent: MemFlags)
    requires f <= KERNEL_FLAGS + HOST_FLAGS && !Contradictory(f) && !Conflicts(f, parent)
    ensures KernelWithin(Inherited(f, parent), parent) && HostWithin(Inherited(f, parent), parent)
  {
  }

  /* ---- regions ---- */

  const WORD := 0x1_0000_0000_0000_0000

  type size_t = n: int | 0 <= n < WORD

  datatype Region = Region(origin: size_t, size: size_t)

  /** The sum the code compares with the parent's size, in 64-bit arithmetic. */
  function WrappedEnd(r: Region): size_t {
    (r.origin + r.size) % WORD
  }

  predicate OutOfRange(r: Region, parentSize: size_t) {
    r.origin > parentSize || WrappedEnd(r) > parentSize
  }

  /** A region that passes the range check lies in the parent exactly when its end does not wrap
      around. */
  lemma RangeExact(r: Region, parentSize: size_t)
    requires !OutOfRange(r, parentSize)
    ensures r.origin + r.size <= parentSize <==> r.origin + r.size < WORD
  {
  }

  /** A region that passes the check and reaches beyond the end of its parent. */
  lemma WrappedRegion()
    ensures var r := Region(4, WORD - 4);
            !OutOfRange(r, 4) && r.size > 0 && r.origin + r.size > 4
  {
  }

  /** A region inside its parent passes, the whole parent included. */
  lemma InsidePasses(r: Region, parentSize: size_t)
    requires r.origin + r.size <= parentSize
    ensures !OutOfRange(r, parentSize)
  {
  }

  /* ---- the call ---- */

  datatype Origin = Whole | PartOfPool | PartOfBuffer

  /** `offset` is counted from the start of the storage. */
  datatype Buffer = Buffer(flags: MemFlags, size: size_t, offset: nat, kind: Origin, compressed: bool, baseAlign: nat) {
    predicate OffsetAligned(origin: nat) {
      (compressed && baseAlign > 0 ==> origin % baseAlign == 0) && origin % 4 == 0
    }

    /** The storage bytes of the buffer lie in those of `b`. */
    predicate Inside(b: Buffer) {
      b.offset <= offset && offset + size <= b.offset + b.size
    }
  }

  predicate RightsOk(flags: MemFlags, parent: MemFlags) {
    OneHostFlag(flags) && Permitted(flags, parent)
  }

  /** The result code for a well-formed parent, by what the flags and the region mean. */
  function Verdict(parent: Option<Buffer>, flags: MemFlags, isRegion: bool, info: Option<Region>): ClCode {
    if parent.None? then CL_INVALID_MEM_OBJECT
    else if !(flags <= KERNEL_FLAGS + HOST_FLAGS) then CL_INVALID_VALUE
    else if parent.value.kind.PartOfBuffer? then CL_INVALID_MEM_OBJECT
    else if !RightsOk(flags, parent.value.flags) || !isRegion || info.None? then CL_INVALID_VALUE
    else if info.value.size == 0 then CL_INVALID_BUFFER_SIZE
    else if OutOfRange(info.value, parent.value.size) then CL_INVALID_VALUE
    else if !parent.value.OffsetAligned(info.value.origin) then CL_MISALIGNED_SUB_BUFFER_OFFSET
    else CL_SUCCESS
  }

  /** What a sub-buffer of `parent` with flags `f` may carry: no right the parent lacks, the
      parent's where `f` says nothing, and one host flag unless the parent has more. */
  ghost predicate Derived(g: MemFlags, f: MemFlags, parent: MemFlags) {
    && KernelWithin(g, parent) && HostWithin(g, parent) && f <= g
    && (f * KERNEL_FLAGS == {} ==> g * KERNEL_FLAGS == parent * KERNEL_FLAGS)
    && (f * HOST_FLAGS == {} ==> g * HOST_FLAGS == parent * HOST_FLAGS)
    && g * HOST_PTR_FLAGS == parent * HOST_PTR_FLAGS
    && (OneHostFlag(g) <==> f * HOST_FLAGS != {} || OneHostFlag(parent))
  }

  lemma InheritedIsDerived(f: MemFlags, parent: MemFlags)
    requires f <= KERNEL_FLAGS + HOST_FLAGS && !Contradictory(f) && !Conflicts(f, parent)
    ensures Derived(Inherited(f, parent), f, parent)
  {
    InheritedFlags(f, parent);
    InheritedRights(f, parent);
    ContradictoryExact(f);
  }

  /** The flag checks, and the flags that result. */
  method DeriveFlags(f: MemFlags, parent: MemFlags) returns (ok: bool, flags: MemFlags)
    requires f <= KERNEL_FLAGS + HOST_FLAGS
    ensures WellFormed(parent) ==> (ok <==> RightsOk(f, parent))
    ensures ok ==> Derived(flags, f, parent)
  {
    flags := f;
    ContradictoryExact(f);
    if Contradictory(flags) {
      return false, flags;
    }
    if WellFormed(parent) {
      ConflictExact(f, parent);
    }
    if Conflicts(flags, parent) {
      return false, flags;
    }
    flags := InheritFlags(flags, parent);
    InheritedIsDerived(f, parent);
    ok := true;
  }

  /** The flags not given are filled in from the parent. */
  method InheritFlags(f: MemFlags, parent: MemFlags) returns (flags: MemFlags)
    ensures flags == Inherited(f, parent)
  {
    flags := f;
    if flags * KERNEL_FLAGS == {} {
      flags := flags + parent * KERNEL_FLAGS;
    }
    assert flags * HOST_FLAGS == f * HOST_FLAGS;
    if flags * HOST_FLAGS == {} {
      flags := flags + parent * HOST_FLAGS;
    }
    flags := flags + parent * HOST_PTR_FLAGS;
  }

  /** clCreateSubBuffer. */
  method CreateSubBuffer(parent: Option<Buffer>, flags: MemFlags, isRegion: bool, info: Option<Region>)
      returns (code: ClCode, sub: Option<Buffer>)
    ensures parent.None? || WellFormed(parent.value.flags) ==> code == Verdict(parent, flags, isRegion, info)
    ensures parent.Some? && |parent.value.flags * HOST_FLAGS| <= 1 && |parent.value.flags * KERNEL_FLAGS| <= 1 ==>
              (code == CL_SUCCESS <==>
                && flags <= KERNEL_FLAGS + HOST_FLAGS && |flags * HOST_FLAGS| <= 1
                && Permitted(flags, parent.value.flags) && !parent.value.kind.PartOfBuffer?
                && isRegion && info.Some? && info.value.size > 0
                && info.value.origin <= parent.value.size
                && (info.value.origin + info.value.size) % 0x1_0000_0000_0000_0000 <= parent.value.size
                && info.value.origin % 4 == 0
                && (parent.value.compressed && parent.value.baseAlign > 0 ==>
                      info.value.origin % parent.value.baseAlign == 0))
    ensures code == CL_INVALID_MEM_OBJECT <==>
              parent.None? || (flags <= KERNEL_FLAGS + HOST_FLAGS && parent.value.kind.PartOfBuffer?)
    ensures parent.Some? && |parent.value.flags * HOST_FLAGS| <= 1 && |parent.value.flags * KERNEL_FLAGS| <= 1 ==>
              var rightful := && flags <= KERNEL_FLAGS + HOST_FLAGS && !parent.value.kind.PartOfBuffer?
                              && |flags * HOST_FLAGS| <= 1 && Permitted(flags, parent.value.flags)
                              && isRegion && info.Some?;
              && (!rightful ==> code == CL_INVALID_VALUE || code == CL_INVALID_MEM_OBJECT)
              && (rightful && info.value.size == 0 ==> code == CL_INVALID_BUFFER_SIZE)
              && (rightful && info.value.size > 0 &&
                  (info.value.origin > parent.value.size
                   || (info.value.origin + info.value.size) % 0x1_0000_0000_0000_0000 > parent.value.size) ==>
                    code == CL_INVALID_VALUE)
              && (code == CL_MISALIGNED_SUB_BUFFER_OFFSET ==>
                    info.Some? && (info.value.origin % 4 != 0
                    || (parent.value.baseAlign > 0 && info.value.origin % parent.value.baseAlign != 0)))
              && (code in {CL_SUCCESS, CL_INVALID_VALUE, CL_INVALID_MEM_OBJECT, CL_INVALID_BUFFER_SIZE,
                           CL_MISALIGNED_SUB_BUFFER_OFFSET})
    ensures sub.Some? <==> code == CL_SUCCESS
    ensures sub.Some? ==>
              && parent.Some? && info.Some?
              && Derived(sub.value.flags, flags, parent.value.flags)
              && sub.value.size > 0 && sub.value.size == info.value.size
              && sub.value.offset == parent.value.offset + info.value.origin && info.value.origin % 4 == 0
              && (sub.value.Inside(parent.value) <==> info.value.origin + info.value.size < WORD)
  {
    sub := None;
    if parent.None? {
      return CL_INVALID_MEM_OBJECT, None;
    }
    var p := parent.value;
    if !(flags <= KERNEL_FLAGS + HOST_FLAGS) {
      return CL_INVALID_VALUE, None;
    }
    if p.kind.PartOfBuffer? {
      return CL_INVALID_MEM_OBJECT, None;
    }
    var ok, derived := DeriveFlags(flags, p.flags);
    if !ok || !isRegion || info.None? {
      return CL_INVALID_VALUE, None;
    }
    var region := info.value;
    if region.size == 0 {
      return CL_INVALID_BUFFER_SIZE, None;
    }
    if OutOfRange(region, p.size) {
      return CL_INVALID_VALUE, None;
    }
    if !p.OffsetAligned(region.origin) {
      return CL_MISALIGNED_SUB_BUFFER_OFFSET, None;
    }
    RangeExact(region, p.size);
    sub := Some(Buffer(derived, region.size, p.offset + region.origin, PartOfBuffer, p.compressed, p.baseAlign));
    code := CL_SUCCESS;
  }
}
