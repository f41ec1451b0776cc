/** clSetKernelArgSVMPointer: a fast path that returns early when the argument already holds
    the pointer, and the slow path it stands for.  One argument of one multi-device kernel
    is a slot with one record per root device. */
module KernelArgs {
  import opened Options
  import opened ClTypes
  import opened SortedVectors
  import opened SvmManagers

  datatype ArgKind = NoneObj | SvmAllocObj | OtherObj

  /** What an argument refers to: the graphics allocation of a block on a root device, or an
      object set by clSetKernelArg. */
  datatype ArgObject = Graphics(id: nat, root: nat) | Handle(h: nat)

  /** SimpleKernelArgInfo: type, object, value, allocation id, the manager's counter when the
      id was last confirmed, and the null mark. */
  datatype ArgInfo = ArgInfo(
    kind: ArgKind,
    obj: Option<ArgObject>,
    value: nat,
    allocId: nat,
    allocIdMemoryManagerCounter: nat,
    isSetToNullptr: bool)

  /** One record per root device; None where the program has no kernel for the device. */
  type Slot = seq<Option<ArgInfo>>

  const UNSET := ArgInfo(NoneObj, None, 0, 0, 0, false)

  /** The kernel whose records the fast path reads: the first that exists. */
  function DefaultRoot(s: Slot): (d: nat)
    requires exists r :: 0 <= r < |s| && s[r].Some?
    ensures d < |s| && s[d].Some? && forall r :: 0 <= r < d ==> s[r].None?
  {
    if s[0].Some? then 0
    else
      assert exists r :: 0 <= r < |s[1..]| && s[1..][r].Some? by {
        var r :| 0 <= r < |s| && s[r].Some?;
        assert s[1..][r-1].Some?;
      }
      1 + DefaultRoot(s[1..])
  }

  predicate HasKernel(s: Slot) {
    exists r :: 0 <= r < |s| && s[r].Some?
  }

  function Default(s: Slot): ArgInfo
    requires HasKernel(s)
  {
    s[DefaultRoot(s)].value
  }

  /* ---- the two paths as functions ---- */

  /** The record Kernel::setArgSvmAlloc leaves on root device `r`. */
  function Stored(ptr: nat, found: Option<Block>, r: nat, counter: nat): ArgInfo {
    ArgInfo(
      SvmAllocObj,
      if found.Some? then Some(Graphics(found.value.id, r)) else None,
      ptr,
      if found.Some? then found.value.id else 0,
      if found.Some? && found.value.id != 0 then counter else 0,
      ptr == 0)
  }

  /** A root device without a graphics allocation of the block keeps its record. */
  predicate Skipped(found: Option<Block>, r: nat) {
    found.Some? && r !in found.value.roots
  }

  function SlowRecord(i: Option<ArgInfo>, ptr: nat, found: Option<Block>, r: nat, counter: nat): Option<ArgInfo> {
    if i.None? || Skipped(found, r) then i else Some(Stored(ptr, found, r, counter))
  }

  /** The slot after the slow path. */
  function SlowSlot(s: Slot, ptr: nat, found: Option<Block>, counter: nat): (t: Slot)
    ensures |t| == |s|
    ensures forall r :: 0 <= r < |s| ==> t[r] == SlowRecord(s[r], ptr, found, r, counter)
  {
    seq(|s|, r requires 0 <= r < |s| => SlowRecord(s[r], ptr, found, r, counter))
  }

  /** The slow path refuses an argument that is not a global or constant pointer, and, when
      told to detect them, pointers the manager does not know. */
  function SlowCode(addressable: bool, ptr: nat, found: Option<Block>, detect: bool): ClCode {
    if !addressable || (ptr != 0 && found.None? && detect) then CL_INVALID_ARG_VALUE else CL_SUCCESS
  }

  /** The fast path returns: null was set before, or the pointer is the recorded one and its
      allocation is confirmed by the counter or by its id. */
  predicate Fast(s: Slot, ptr: nat, found: Option<Block>, counter: nat)
    requires HasKernel(s)
  {
    FastRecord(Default(s), ptr, found, counter)
  }

  predicate FastRecord(d: ArgInfo, ptr: nat, found: Option<Block>, counter: nat) {
    if ptr == 0 then d.isSetToNullptr
    else
      && d.allocId > 0 && d.value == ptr && counter > 0
      && (counter == d.allocIdMemoryManagerCounter || (found.Some? && d.allocId == found.value.id))
  }

  function WithCounter(s: Slot, counter: nat): (t: Slot)
    ensures |t| == |s|
    ensures forall r :: 0 <= r < |s| ==>
      t[r] == if s[r].None? then None else Some(s[r].value.(allocIdMemoryManagerCounter := counter))
  {
    seq(|s|, r requires 0 <= r < |s| => if s[r].None? then None
        else Some(s[r].value.(allocIdMemoryManagerCounter := counter)))
  }

  /** The slot after the whole call. */
  function NextSlot(s: Slot, addressable: bool, ptr: nat, found: Option<Block>, counter: nat, detect: bool): Slot
    requires HasKernel(s)
  {
    if Fast(s, ptr, found, counter) then
      if ptr == 0 || counter == Default(s).allocIdMemoryManagerCounter then s else WithCounter(s, counter)
    else if SlowCode(addressable, ptr, found, detect) != CL_SUCCESS then s
    else SlowSlot(s, ptr, found, counter)
  }

  /** clSetKernelArg stores over the record and leaves id, counter and null mark behind. */
  function OtherSlot(s: Slot, obj: Option<ArgObject>, value: nat): (t: Slot)
    ensures |t| == |s|
    ensures forall r :: 0 <= r < |s| ==>
      t[r] == if s[r].None? then None else Some(s[r].value.(kind := OtherObj, obj := obj, value := value))
  {
    seq(|s|, r requires 0 <= r < |s| => if s[r].None? then None
        else Some(s[r].value.(kind := OtherObj, obj := obj, value := value)))
  }

  /** The fast path confirms null by the null mark, and a pointer by the recorded one with a number,
      when nothing was allocated since or the allocation found has that number. */
  lemma FastExact(s: Slot, ptr: nat, found: Option<Block>, counter: nat)
    requires HasKernel(s)
    ensures ptr == 0 ==> (Fast(s, ptr, found, counter) <==> Default(s).isSetToNullptr)
    ensures ptr != 0 ==>
              (Fast(s, ptr, found, counter) <==>
                && counter > 0 && Default(s).allocId > 0 && Default(s).value == ptr
                && (Default(s).allocIdMemoryManagerCounter == counter
                    || (found.Some? && found.value.id == Default(s).allocId)))
  {
  }

  /** The records after a call, by field, on a device with a kernel: the fast path refreshes counters
      at most, a refused call changes nothing, and the slow path writes where the allocation has
      memory, or everywhere for null and unknown pointers. */
  lemma RecordsExact(s: Slot, addressable: bool, ptr: nat, found: Option<Block>, counter: nat, detect: bool, r: nat)
    requires HasKernel(s) && r < |s| && s[r].Some?
    ensures var t := NextSlot(s, addressable, ptr, found, counter, detect);
            && |t| == |s| && t[r].Some?
            && var i, j := s[r].value, t[r].value;
               var fast := Fast(s, ptr, found, counter);
               var refused := !addressable || (ptr != 0 && found.None? && detect);
               && (fast || refused || (found.Some? && r !in found.value.roots) ==>
                     && j.kind == i.kind && j.obj == i.obj && j.value == i.value && j.allocId == i.allocId
                     && j.isSetToNullptr == i.isSetToNullptr)
               && (!fast && !refused && (found.None? || r in found.value.roots) ==>
                     && j.kind == SvmAllocObj && j.value == ptr && (j.isSetToNullptr <==> ptr == 0)
                     && (found.None? ==> j.obj == None && j.allocId == 0)
                     && (found.Some? ==>
                           && j.obj == Some(Graphics(found.value.id, r)) && j.allocId == found.value.id
                           && (found.value.id != 0 ==> j.allocIdMemoryManagerCounter == counter)))
               && (fast && ptr != 0 && counter != Default(s).allocIdMemoryManagerCounter ==>
                     j.allocIdMemoryManagerCounter == counter)
  {
  }

  /* ---- the call itself ---- */

  ghost function Found(a: Tracker, ptr: nat): Option<Block>
    requires TrackerOrdered(a)
  {
    if Covered(a, ptr) then
      var k :| 0 <= k < |a| && Holds(a[k], ptr);
      Some(BlockOf(a[k]))
    else None
  }

  lemma FoundIs(a: Tracker, ptr: nat, k: int)
    requires TrackerOrdered(a) && -1 <= k < |a|
    requires (k >= 0 <==> Covered(a, ptr)) && (k >= 0 ==> Holds(a[k], ptr))
    ensures Found(a, ptr) == if k < 0 then None else Some(BlockOf(a[k]))
  {
  }

  class MultiDeviceKernel {
    var arguments: seq<Slot>
    const addressable: seq<bool>

    ghost predicate Valid()
      reads this
    {
      |addressable| == |arguments| && forall i :: 0 <= i < |arguments| ==> HasKernel(arguments[i])
    }

    /** MultiDeviceKernel::setArgSvmAlloc: every kernel but those without an allocation. */
    method SetArgSvmAlloc(argIndex: nat, ptr: nat, found: Option<Block>, counter: nat)
      requires argIndex < |arguments|
      modifies this
      ensures arguments == old(arguments)[argIndex := SlowSlot(old(arguments[argIndex]), ptr, found, counter)]
    {
      var slot := arguments[argIndex];
      ghost var before := slot;
      for r := 0 to |slot|
        invariant |slot| == |before|
        invariant forall q :: 0 <= q < r ==> slot[q] == SlowRecord(before[q], ptr, found, q, counter)
        invariant forall q :: r <= q < |slot| ==> slot[q] == before[q]
      {
        if slot[r].Some? && !Skipped(found, r) {
          slot := slot[r := Some(Stored(ptr, found, r, counter))];
        }
      }
      assert slot == SlowSlot(before, ptr, found, counter);
      arguments := arguments[argIndex := slot];
    }

    method StoreCounter(argIndex: nat, counter: nat)
      requires argIndex < |arguments|
      modifies this
      ensures arguments == old(arguments)[argIndex := WithCounter(old(arguments[argIndex]), counter)]
    {
      var slot := arguments[argIndex];
      ghost var before := slot;
      for r := 0 to |slot|
        invariant |slot| == |before|
        invariant forall q :: 0 <= q < r ==> slot[q] == WithCounter(before, counter)[q]
        invariant forall q :: r <= q < |slot| ==> slot[q] == before[q]
      {
        if slot[r].Some? {
          slot := slot[r := Some(slot[r].value.(allocIdMemoryManagerCounter := counter))];
        }
      }
      assert slot == WithCounter(before, counter);
      arguments := arguments[argIndex := slot];
    }

    /** clSetKernelArgSVMPointer. */
    method SetKernelArgSVMPointer(svm: SvmAllocsManager, argIndex: nat, ptr: nat, detect: bool) returns (code: ClCode)
      requires Valid() && svm.Inv()
      modifies this
      ensures argIndex >= |old(arguments)| ==> code == CL_INVALID_ARG_INDEX && arguments == old(arguments)
      ensures argIndex < |old(arguments)| ==>
        var found := if ptr == 0 then None else Found(svm.svmAllocs, ptr);
        var slot := old(arguments[argIndex]);
        && arguments == old(arguments)[argIndex := NextSlot(slot, addressable[argIndex], ptr, found,
            svm.allocationsCounter, detect)]
        && code == (if Fast(slot, ptr, found, svm.allocationsCounter) then CL_SUCCESS
            else SlowCode(addressable[argIndex], ptr, found, detect))
        && (code == CL_SUCCESS <==>
              Fast(slot, ptr, found, svm.allocationsCounter)
              || (addressable[argIndex] && (ptr == 0 || found.Some? || !detect)))
        && (code != CL_SUCCESS ==> code == CL_INVALID_ARG_VALUE && arguments == old(arguments))
    {
      if argIndex >= |arguments| {
        return CL_INVALID_ARG_INDEX;
      }
      var k := -1;
      if ptr != 0 {
        k := svm.GetSVMAlloc(ptr);
        FoundIs(svm.svmAllocs, ptr, k);
      }
      var found := if k < 0 then None else Some(BlockOf(svm.svmAllocs[k]));
      var d := Default(arguments[argIndex]);
      if ptr != 0 {
        if d.allocId > 0 && d.value == ptr {
          var counter := svm.allocationsCounter;
          if counter > 0 {
            if counter == d.allocIdMemoryManagerCounter {
              return CL_SUCCESS;
            } else if found.Some? && d.allocId == found.value.id {
              StoreCounter(argIndex, counter);
              return CL_SUCCESS;
            }
          }
        }
      } else if d.isSetToNullptr {
        return CL_SUCCESS;
      }
      code := SlowCode(addressable[argIndex], ptr, found, detect);
      if code == CL_SUCCESS {
        SetArgSvmAlloc(argIndex, ptr, found, svm.allocationsCounter);
      }
    }
  }
}
