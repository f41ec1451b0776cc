/** When the fast path of clSetKernelArgSVMPointer may stand for the slow one, over every run
    of allocations, frees, clSetKernelArgSVMPointer and clSetKernelArg calls. */
module KernelArgRuns {
  import opened Options
  import opened ClTypes
  import opened SortedVectors
  import opened SvmManagers
  import opened KernelArgs

  predicate InBlock(b: Block, x: int) {
    b.ptr <= x < b.ptr + b.bytes
  }

  /** Live blocks are disjoint and numbered once, up to the counter. */
  ghost predicate BlocksOk(bs: set<Block>, counter: nat) {
    && (forall b :: b in bs ==> b.ptr > 0 && b.bytes > 0 && 0 < b.id <= counter)
    && (forall b, c :: b in bs && c in bs && b != c ==> b.id != c.id && Apart(b.ptr, b.bytes, c.ptr, c.bytes))
  }

  /** A lookup names a live block that holds the pointer, if it names one. */
  ghost predicate FoundIn(bs: set<Block>, ptr: nat, found: Option<Block>) {
    && (ptr == 0 ==> found.None?)
    && (found.Some? ==> found.value in bs && InBlock(found.value, ptr))
  }

  lemma DistinctBlocks(a: Tracker, counter: nat, b: Block, c: Block)
    requires TrackerOrdered(a) && IdsUnique(a, counter) && b in BlockSet(a) && c in BlockSet(a) && b != c
    ensures b.id != c.id && Apart(b.ptr, b.bytes, c.ptr, c.bytes)
  {
    var e :| e in a && BlockOf(e) == b;
    var f :| f in a && BlockOf(f) == c;
    var i :| 0 <= i < |a| && a[i] == e;
    var j :| 0 <= j < |a| && a[j] == f;
  }

  lemma TrackerBlocksOk(a: Tracker, counter: nat)
    requires TrackerOrdered(a) && IdsUnique(a, counter)
    ensures BlocksOk(Blocks(a), counter)
  {
    BlocksMeaning(a);
    forall b, c | b in Blocks(a) && c in Blocks(a) && b != c
      ensures b.id != c.id && Apart(b.ptr, b.bytes, c.ptr, c.bytes)
    {
      DistinctBlocks(a, counter, b, c);
    }
  }

  /** The manager's tracker gives exactly such blocks and lookups. */
  lemma TrackerBlocks(a: Tracker, counter: nat, ptr: nat)
    requires TrackerOrdered(a) && IdsUnique(a, counter)
    ensures BlocksOk(Blocks(a), counter)
    ensures FoundIn(Blocks(a), ptr, Found(a, ptr))
  {
    TrackerBlocksOk(a, counter);
    if Covered(a, ptr) {
      BlocksMeaning(a);
      var k :| 0 <= k < |a| && Holds(a[k], ptr);
      FoundIs(a, ptr, k);
      assert a[k] in a;
    }
  }

  datatype State = State(blocks: set<Block>, counter: nat, slot: Slot, addressable: bool)

  datatype Step =
    | Memory(blocks: set<Block>, counter: nat)
    | SetSvm(ptr: nat, found: Option<Block>, detect: bool)
    | SetOther(obj: Option<ArgObject>, value: nat)

  ghost predicate Enabled(st: State, step: Step) {
    match step
    case Memory(bs, c) => BlocksOk(bs, c) && Evolves(st.blocks, st.counter, bs, c)
    case SetSvm(ptr, found, detect) => FoundIn(st.blocks, ptr, found)
    case SetOther(_, _) => true
  }

  function Next(st: State, step: Step): State
    requires HasKernel(st.slot)
  {
    match step
    case Memory(bs, c) => st.(blocks := bs, counter := c)
    case SetSvm(ptr, found, detect) => st.(slot := NextSlot(st.slot, st.addressable, ptr, found, st.counter, detect))
    case SetOther(obj, value) => st.(slot := OtherSlot(st.slot, obj, value))
  }

  /* ---- the invariant of every run ---- */

  /** A record made by an SVM call: a number names the allocation it was made for, and while
      that is live the record points into it. */
  ghost predicate RecordOk(bs: set<Block>, counter: nat, r: nat, i: ArgInfo) {
    && i.allocId <= counter
    && (i.kind == NoneObj ==> i.allocId == 0)
    && (i.kind == SvmAllocObj ==>
        && (i.isSetToNullptr <==> i.value == 0)
        && (i.value == 0 ==> i.allocId == 0)
        && (i.allocId == 0 ==> i.obj.None?)
        && forall b :: b in bs && b.id == i.allocId ==>
            InBlock(b, i.value) && r in b.roots && i.obj == Some(Graphics(b.id, r)))
  }

  /** While the counter stands still, whatever live block holds the recorded pointer is the
      recorded one. */
  ghost predicate DefaultOk(bs: set<Block>, counter: nat, d: ArgInfo) {
    && d.allocIdMemoryManagerCounter <= counter
    && (d.kind == SvmAllocObj && d.allocId > 0 && d.allocIdMemoryManagerCounter == counter ==>
        forall b :: b in bs && InBlock(b, d.value) ==> b.id == d.allocId)
  }

  /** Another device that shares the live block and the pointer shares the number. */
  ghost predicate PairOk(bs: set<Block>, d: ArgInfo, r: nat, i: ArgInfo) {
    d.kind == SvmAllocObj && i.kind == SvmAllocObj && i.value == d.value && d.allocId > 0 ==>
      forall b :: b in bs && b.id == d.allocId && r in b.roots ==> i.allocId == d.allocId
  }

  /** Where clSetKernelArg has written over the default record and left its number behind, no
      device that still holds an SVM pointer holds one that the fast path would confirm. */
  ghost predicate StaleOk(bs: set<Block>, counter: nat, d: ArgInfo, i: ArgInfo) {
    d.kind == OtherObj && d.allocId > 0 && i.kind == SvmAllocObj && i.value == d.value ==>
      && d.allocIdMemoryManagerCounter < counter
      && forall b :: b in bs && b.id == d.allocId ==> !InBlock(b, d.value)
  }

  /** A device's record is right beside the default one. */
  ghost predicate Fits(bs: set<Block>, counter: nat, d: ArgInfo, r: nat, i: ArgInfo) {
    RecordOk(bs, counter, r, i) && PairOk(bs, d, r, i) && StaleOk(bs, counter, d, i)
  }

  ghost predicate Inv(st: State) {
    && BlocksOk(st.blocks, st.counter)
    && HasKernel(st.slot)
    && (forall r :: 0 <= r < |st.slot| && st.slot[r].Some? ==>
          Fits(st.blocks, st.counter, Default(st.slot), r, st.slot[r].value))
    && DefaultOk(st.blocks, st.counter, Default(st.slot))
    && (!st.addressable ==> forall r :: 0 <= r < |st.slot| && st.slot[r].Some? ==>
          st.slot[r].value.allocId == 0 && !st.slot[r].value.isSetToNullptr)
  }

  /** A kernel whose argument was never set. */
  ghost predicate Init(st: State) {
    && BlocksOk(st.blocks, st.counter)
    && HasKernel(st.slot)
    && forall r :: 0 <= r < |st.slot| && st.slot[r].Some? ==> st.slot[r].value == UNSET
  }

  lemma InitInv(st: State)
    requires Init(st)
    ensures Inv(st)
  {
  }

  /** Two slots with kernels on the same devices have the same default. */
  lemma SameDefault(s: Slot, t: Slot)
    requires HasKernel(s) && |s| == |t| && forall r :: 0 <= r < |s| ==> (s[r].None? <==> t[r].None?)
    ensures HasKernel(t) && DefaultRoot(t) == DefaultRoot(s)
  {
  }

  lemma SlotKernels(s: Slot, ptr: nat, found: Option<Block>, counter: nat)
    requires HasKernel(s)
    ensures HasKernel(SlowSlot(s, ptr, found, counter)) &&
              DefaultRoot(SlowSlot(s, ptr, found, counter)) == DefaultRoot(s)
    ensures HasKernel(WithCounter(s, counter)) && DefaultRoot(WithCounter(s, counter)) == DefaultRoot(s)
  {
    SameDefault(s, SlowSlot(s, ptr, found, counter));
    SameDefault(s, WithCounter(s, counter));
  }

  lemma MemoryKeepsInv(st: State, bs: set<Block>, c: nat)
    requires Inv(st) && BlocksOk(bs, c) && Evolves(st.blocks, st.counter, bs, c)
    ensures Inv(st.(blocks := bs, counter := c))
  {
  }

  lemma OtherKeepsInv(st: State, obj: Option<ArgObject>, value: nat)
    requires Inv(st)
    ensures Inv(st.(slot := OtherSlot(st.slot, obj, value)))
  {
    SameDefault(st.slot, OtherSlot(st.slot, obj, value));
  }

  /** The fast path with a live pointer has found the recorded allocation. */
  lemma FastFindsRecorded(st: State, ptr: nat, b: Block)
    requires Inv(st) && FoundIn(st.blocks, ptr, Some(b)) && Fast(st.slot, ptr, Some(b), st.counter)
    requires Default(st.slot).kind == SvmAllocObj
    ensures b.id == Default(st.slot).allocId
  {
  }

  lemma ConfirmKeepsInv(st: State, ptr: nat, b: Block)
    requires Inv(st) && FoundIn(st.blocks, ptr, Some(b)) && Fast(st.slot, ptr, Some(b), st.counter)
    requires b.id == Default(st.slot).allocId
    ensures Inv(st.(slot := WithCounter(st.slot, st.counter)))
  {
    SameDefault(st.slot, WithCounter(st.slot, st.counter));
  }

  /** One record after the slow path. */
  function AfterSlow(i: ArgInfo, ptr: nat, found: Option<Block>, r: nat, counter: nat): ArgInfo {
    if Skipped(found, r) then i else Stored(ptr, found, r, counter)
  }

  lemma SlowRecordOk(bs: set<Block>, counter: nat, r: nat, i: ArgInfo, ptr: nat, found: Option<Block>)
    requires BlocksOk(bs, counter) && FoundIn(bs, ptr, found) && RecordOk(bs, counter, r, i)
    ensures RecordOk(bs, counter, r, AfterSlow(i, ptr, found, r, counter))
  {
  }

  lemma SlowPairOk(bs: set<Block>, counter: nat, d: nat, def: ArgInfo, r: nat, i: ArgInfo, ptr: nat,
                   found: Option<Block>)
    requires BlocksOk(bs, counter) && FoundIn(bs, ptr, found)
    requires RecordOk(bs, counter, d, def) && RecordOk(bs, counter, r, i) && PairOk(bs, def, r, i)
    ensures PairOk(bs, AfterSlow(def, ptr, found, d, counter), r, AfterSlow(i, ptr, found, r, counter))
  {
  }

  lemma SlowStaleOk(bs: set<Block>, counter: nat, d: nat, def: ArgInfo, r: nat, i: ArgInfo, ptr: nat,
                    found: Option<Block>)
    requires BlocksOk(bs, counter) && FoundIn(bs, ptr, found) && !FastRecord(def, ptr, found, counter)
    requires RecordOk(bs, counter, d, def) && DefaultOk(bs, counter, def) && StaleOk(bs, counter, def, i)
    ensures StaleOk(bs, counter, AfterSlow(def, ptr, found, d, counter), AfterSlow(i, ptr, found, r, counter))
  {
  }

  lemma SlowDefaultOk(bs: set<Block>, counter: nat, d: nat, def: ArgInfo, ptr: nat, found: Option<Block>)
    requires BlocksOk(bs, counter) && FoundIn(bs, ptr, found) && DefaultOk(bs, counter, def)
    ensures DefaultOk(bs, counter, AfterSlow(def, ptr, found, d, counter))
  {
  }

  lemma SlowKeepsRecord(st: State, ptr: nat, found: Option<Block>, r: nat)
    requires Inv(st) && FoundIn(st.blocks, ptr, found) && !Fast(st.slot, ptr, found, st.counter)
    requires r < |st.slot| && st.slot[r].Some?
    ensures var d, def, i := DefaultRoot(st.slot), Default(st.slot), st.slot[r].value;
            var def', i' := AfterSlow(def, ptr, found, d, st.counter), AfterSlow(i, ptr, found, r, st.counter);
            Fits(st.blocks, st.counter, def', r, i') && DefaultOk(st.blocks, st.counter, def')
  {
    var d, def, i := DefaultRoot(st.slot), Default(st.slot), st.slot[r].value;
    assert Fits(st.blocks, st.counter, def, d, def) && Fits(st.blocks, st.counter, def, r, i);
    SlowRecordOk(st.blocks, st.counter, r, i, ptr, found);
    SlowPairOk(st.blocks, st.counter, d, def, r, i, ptr, found);
    SlowStaleOk(st.blocks, st.counter, d, def, r, i, ptr, found);
    SlowDefaultOk(st.blocks, st.counter, d, def, ptr, found);
  }

  lemma SlowKeepsInv(st: State, ptr: nat, found: Option<Block>)
    requires Inv(st) && st.addressable && FoundIn(st.blocks, ptr, found) && !Fast(st.slot, ptr, found, st.counter)
    ensures Inv(st.(slot := SlowSlot(st.slot, ptr, found, st.counter)))
  {
    var t := SlowSlot(st.slot, ptr, found, st.counter);
    SlotKernels(st.slot, ptr, found, st.counter);
    var d := DefaultRoot(st.slot);
    SlowKeepsRecord(st, ptr, found, d);
    forall r | 0 <= r < |t| && t[r].Some?
      ensures Fits(st.blocks, st.counter, t[d].value, r, t[r].value)
    {
      SlowKeepsRecord(st, ptr, found, r);
      assert t[r].value == AfterSlow(st.slot[r].value, ptr, found, r, st.counter);
      assert t[d].value == AfterSlow(st.slot[d].value, ptr, found, d, st.counter);
    }
  }

  lemma SvmKeepsInv(st: State, ptr: nat, found: Option<Block>, detect: bool)
    requires Inv(st) && FoundIn(st.blocks, ptr, found)
    ensures Inv(Next(st, SetSvm(ptr, found, detect)))
  {
    if Fast(st.slot, ptr, found, st.counter) {
      if ptr != 0 && st.counter != Default(st.slot).allocIdMemoryManagerCounter {
        ConfirmKeepsInv(st, ptr, found.value);
      }
    } else if SlowCode(st.addressable, ptr, found, detect) == CL_SUCCESS {
      SlowKeepsInv(st, ptr, found);
    }
  }

  lemma StepKeepsInv(st: State, step: Step)
    requires Inv(st) && Enabled(st, step)
    ensures Inv(Next(st, step))
  {
    match step {
      case Memory(bs, c) => MemoryKeepsInv(st, bs, c);
      case SetSvm(ptr, found, detect) => SvmKeepsInv(st, ptr, found, detect);
      case SetOther(obj, value) => OtherKeepsInv(st, obj, value);
    }
  }

  /* ---- agreement ---- */

  /** Type, object, value, allocation and null mark; the counter is only a cache stamp. */
  predicate SameRecord(i: ArgInfo, j: ArgInfo) {
    i.kind == j.kind && i.obj == j.obj && i.value == j.value && i.allocId == j.allocId &&
        i.isSetToNullptr == j.isSetToNullptr
  }

  /** The slow path would change nothing on any device. */
  ghost predicate Agrees(s: Slot, ptr: nat, found: Option<Block>, counter: nat) {
    forall r :: 0 <= r < |s| && s[r].Some? ==> SameRecord(s[r].value, SlowSlot(s, ptr, found, counter)[r].value)
  }

  /** Every device the slow path would write to last got this very pointer from an SVM call. */
  ghost predicate LastSetTo(s: Slot, ptr: nat, found: Option<Block>) {
    forall r :: 0 <= r < |s| && s[r].Some? && !Skipped(found, r) ==>
        s[r].value.kind == SvmAllocObj && s[r].value.value == ptr
  }

  /** The runs from a kernel whose argument was never set. */
  ghost predicate Reaches(st: State, steps: seq<Step>, end: State)
    decreases |steps|
  {
    && HasKernel(st.slot)
    && if steps == [] then st == end else Enabled(st, steps[0]) && Reaches(Next(st, steps[0]), steps[1..], end)
  }

  lemma {:induction false} RunKeepsInv(st: State, steps: seq<Step>, end: State)
    requires Inv(st) && Reaches(st, steps, end)
    ensures Inv(end)
    decreases |steps|
  {
    if steps != [] {
      StepKeepsInv(st, steps[0]);
      RunKeepsInv(Next(st, steps[0]), steps[1..], end);
    }
  }

  lemma NullAgreement(st: State)
    requires Inv(st) && Fast(st.slot, 0, None, st.counter)
    ensures Agrees(st.slot, 0, None, st.counter) <==> LastSetTo(st.slot, 0, None)
  {
  }

  lemma PointerAgreement(st: State, ptr: nat, b: Block)
    requires Inv(st) && ptr != 0 && FoundIn(st.blocks, ptr, Some(b)) && Fast(st.slot, ptr, Some(b), st.counter)
    ensures Agrees(st.slot, ptr, Some(b), st.counter) <==> LastSetTo(st.slot, ptr, Some(b))
  {
  }

  /** Over every run, when the fast path returns for null or for a live pointer, it agrees
      with the slow path exactly when every device to be written last got this pointer from an
      SVM call.  The slow path would succeed as well. */
  lemma CacheAgreement(st0: State, steps: seq<Step>, st: State, ptr: nat, found: Option<Block>)
    requires Init(st0) && Reaches(st0, steps, st)
    requires HasKernel(st.slot) && FoundIn(st.blocks, ptr, found) && Fast(st.slot, ptr, found, st.counter)
    requires ptr == 0 || found.Some?
    ensures Agrees(st.slot, ptr, found, st.counter) <==> LastSetTo(st.slot, ptr, found)
    ensures forall detect :: SlowCode(st.addressable, ptr, found, detect) == CL_SUCCESS
  {
    InitInv(st0);
    RunKeepsInv(st0, steps, st);
    if ptr == 0 {
      NullAgreement(st);
    } else {
      PointerAgreement(st, ptr, found.value);
    }
  }

  /* ---- programs that never meet the exception ---- */

  /** Only SVM calls set the argument, and each live pointer has memory on the default device:
      always so when the kernel has one root device. */
  ghost predicate Disciplined(steps: seq<Step>, d: nat) {
    forall k :: 0 <= k < |steps| ==>
      !steps[k].SetOther? && (steps[k].SetSvm? && steps[k].found.Some? ==> d in steps[k].found.value.roots)
  }

  /** Every device follows the default one. */
  ghost predicate Uniform(st: State)
    requires HasKernel(st.slot)
  {
    var d := Default(st.slot);
    && (forall r :: 0 <= r < |st.slot| && st.slot[r].Some? ==> st.slot[r].value.kind != OtherObj)
    && (d.kind == NoneObj ==> d == UNSET)
    && (d.kind == SvmAllocObj && d.value == 0 ==> LastSetTo(st.slot, 0, None))
    && (d.kind == SvmAllocObj && d.allocId > 0 ==> forall b :: b in st.blocks && b.id == d.allocId ==>
        LastSetTo(st.slot, d.value, Some(b)))
  }

  lemma MemoryKeepsUniform(st: State, bs: set<Block>, c: nat)
    requires Inv(st) && Uniform(st) && Evolves(st.blocks, st.counter, bs, c)
    ensures Uniform(st.(blocks := bs, counter := c))
  {
  }

  lemma ConfirmKeepsUniform(st: State, counter: nat)
    requires HasKernel(st.slot) && Uniform(st) && Default(st.slot).kind == SvmAllocObj
    ensures HasKernel(WithCounter(st.slot, counter)) && Uniform(st.(slot := WithCounter(st.slot, counter)))
  {
    SlotKernels(st.slot, 0, None, counter);
    var t := WithCounter(st.slot, counter);
    assert forall r :: 0 <= r < |t| && t[r].Some? ==>
        t[r].value.kind == st.slot[r].value.kind && t[r].value.value == st.slot[r].value.value;
  }

  lemma SlowKeepsUniform(st: State, ptr: nat, found: Option<Block>)
    requires HasKernel(st.slot) && Uniform(st) && BlocksOk(st.blocks, st.counter) && FoundIn(st.blocks, ptr, found)
    requires found.Some? ==> DefaultRoot(st.slot) in found.value.roots
    ensures HasKernel(SlowSlot(st.slot, ptr, found, st.counter))
    ensures Uniform(st.(slot := SlowSlot(st.slot, ptr, found, st.counter)))
  {
    SlotKernels(st.slot, ptr, found, st.counter);
    var t := SlowSlot(st.slot, ptr, found, st.counter);
    var d := DefaultRoot(st.slot);
    assert t[d] == Some(Stored(ptr, found, d, st.counter));
    assert LastSetTo(t, ptr, found);
  }

  lemma StepKeepsUniform(st: State, step: Step)
    requires Inv(st) && Uniform(st) && Enabled(st, step)
    requires !step.SetOther? && (step.SetSvm? && step.found.Some? ==> DefaultRoot(st.slot) in step.found.value.roots)
    ensures HasKernel(Next(st, step).slot) && Uniform(Next(st, step)) &&
              DefaultRoot(Next(st, step).slot) == DefaultRoot(st.slot)
  {
    match step {
      case Memory(bs, c) =>
        MemoryKeepsUniform(st, bs, c);
      case SetSvm(ptr, found, detect) =>
        SlotKernels(st.slot, ptr, found, st.counter);
        if Fast(st.slot, ptr, found, st.counter) {
          if ptr != 0 && st.counter != Default(st.slot).allocIdMemoryManagerCounter {
            ConfirmKeepsUniform(st, st.counter);
          }
        } else if SlowCode(st.addressable, ptr, found, detect) == CL_SUCCESS {
          SlowKeepsUniform(st, ptr, found);
        }
    }
  }

  lemma {:induction false} DisciplinedRun(st: State, steps: seq<Step>, end: State)
    requires Inv(st) && Uniform(st) && Reaches(st, steps, end) && Disciplined(steps, DefaultRoot(st.slot))
    ensures Inv(end) && Uniform(end) && DefaultRoot(end.slot) == DefaultRoot(st.slot)
    decreases |steps|
  {
    if steps != [] {
      StepKeepsInv(st, steps[0]);
      StepKeepsUniform(st, steps[0]);
      DisciplinedRun(Next(st, steps[0]), steps[1..], end);
    }
  }

  /** In every disciplined run the fast path, whenever it returns for null or a live pointer,
      does what the slow path would do, even where an address was freed and handed out anew. */
  lemma DisciplinedAgreement(st0: State, steps: seq<Step>, st: State, ptr: nat, found: Option<Block>)
    requires Init(st0) && Reaches(st0, steps, st) && Disciplined(steps, DefaultRoot(st0.slot))
    requires HasKernel(st.slot) && FoundIn(st.blocks, ptr, found) && Fast(st.slot, ptr, found, st.counter)
    requires ptr == 0 || (found.Some? && DefaultRoot(st0.slot) in found.value.roots)
    ensures Agrees(st.slot, ptr, found, st.counter)
  {
    InitInv(st0);
    DisciplinedRun(st0, steps, st);
    CacheAgreement(st0, steps, st, ptr, found);
    var d := DefaultRoot(st.slot);
    assert RecordOk(st.blocks, st.counter, d, st.slot[d].value);
    if ptr != 0 {
      FastFindsRecorded(st, ptr, found.value);
    }
  }

  /* ---- the exception is real ---- */

  /** Null by an SVM call, then a buffer by clSetKernelArg, then null again: the call returns
      CL_SUCCESS and the buffer stays. */
  lemma NullMarkSurvivesSetKernelArg() returns (st0: State, steps: seq<Step>, st: State)
    ensures Init(st0) && Reaches(st0, steps, st) && HasKernel(st.slot)
    ensures Fast(st.slot, 0, None, st.counter) && !Agrees(st.slot, 0, None, st.counter)
  {
    var s0: Slot := [Some(UNSET)];
    assert s0[0].Some?;
    st0 := State({}, 0, s0, true);
    steps := [SetSvm(0, None, true), SetOther(Some(Handle(7)), 5)];
    var st1 := Next(st0, steps[0]);
    assert st1.slot[0] == Some(Stored(0, None, 0, 0));
    st := Next(st1, steps[1]);
    assert st.slot[0].Some?;
    TwoSteps(st0, steps[0], steps[1]);
    assert !SameRecord(st.slot[0].value, SlowSlot(st.slot, 0, None, st.counter)[0].value);
  }

  /** Two root devices: a pointer with memory on both, then one with memory on the second
      only, then the first again: the call returns CL_SUCCESS and the second device keeps the
      other pointer. */
  lemma DefaultDeviceHidesOthers() returns (st0: State, steps: seq<Step>, st: State, b: Block)
    ensures Init(st0) && Reaches(st0, steps, st) && HasKernel(st.slot)
    ensures FoundIn(st.blocks, b.ptr, Some(b)) && Fast(st.slot, b.ptr, Some(b), st.counter)
    ensures !Agrees(st.slot, b.ptr, Some(b), st.counter)
  {
    b := Block(4096, 4096, 1, {0, 1});
    var second := Block(8192, 4096, 2, {1});
    var s0: Slot := [Some(UNSET), Some(UNSET)];
    assert s0[0].Some?;
    steps := [SetSvm(4096, Some(b), true), SetSvm(8192, Some(second), true)];
    st0 := State({b, second}, 2, s0, true);
    TwoBlocksOk(b, second);
    HiddenSlot(s0, b, second);
    TwoSteps(st0, steps[0], steps[1]);
    st := Next(Next(st0, steps[0]), steps[1]);
  }

  lemma TwoBlocksOk(b: Block, c: Block)
    requires b == Block(4096, 4096, 1, {0, 1}) && c == Block(8192, 4096, 2, {1})
    ensures BlocksOk({b, c}, 2) && FoundIn({b, c}, 4096, Some(b)) && FoundIn({b, c}, 8192, Some(c))
  {
  }

  /** The two calls on the records alone. */
  lemma HiddenSlot(s0: Slot, both: Block, second: Block)
    requires s0 == [Some(UNSET), Some(UNSET)] && HasKernel(s0)
    requires both.id == 1 && both.roots == {0, 1} && both.ptr > 0
    requires second.id == 2 && second.roots == {1} && second.ptr > 0 && second.ptr != both.ptr
    ensures var s1 := NextSlot(s0, true, both.ptr, Some(both), 2, true);
            HasKernel(s1) &&
            var s2 := NextSlot(s1, true, second.ptr, Some(second), 2, true);
            && HasKernel(s2)
            && Fast(s2, both.ptr, Some(both), 2) && !Agrees(s2, both.ptr, Some(both), 2)
  {
    var s1 := NextSlot(s0, true, both.ptr, Some(both), 2, true);
    assert s1[0] == Some(Stored(both.ptr, Some(both), 0, 2));
    var s2 := NextSlot(s1, true, second.ptr, Some(second), 2, true);
    assert s2[0] == s1[0] && s2[1] == Some(Stored(second.ptr, Some(second), 1, 2));
    assert !SameRecord(s2[1].value, SlowSlot(s2, both.ptr, Some(both), 2)[1].value);
  }

  lemma TwoSteps(st: State, x: Step, y: Step)
    requires HasKernel(st.slot) && Enabled(st, x) && HasKernel(Next(st, x).slot) && Enabled(Next(st, x), y)
    requires HasKernel(Next(Next(st, x), y).slot)
    ensures Reaches(st, [x, y], Next(Next(st, x), y))
  {
  }
}
