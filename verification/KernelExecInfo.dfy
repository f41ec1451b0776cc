/** Address lists of clSetKernelExecInfo: allocations a kernel uses without an argument
    naming them, one list for SVM and one for USM on every root device. */
module KernelExecInfo {
  import opened Options
  import opened ClTypes
  import opened SortedVectors
  import opened SvmManagers
  import opened KernelArgs

  /** Entries are null where a block has no graphics allocation on the root device. */
  type AllocList = seq<Option<ArgObject>>

  datatype ExecLists = ExecLists(svm: AllocList, usm: AllocList)

  datatype ListKind = SvmPtrs | UsmPtrs

  function Chosen(e: ExecLists, kind: ListKind): AllocList {
    if kind == SvmPtrs then e.svm else e.usm
  }

  function WithChosen(e: ExecLists, kind: ListKind, l: AllocList): ExecLists {
    if kind == SvmPtrs then e.(svm := l) else e.(usm := l)
  }

  function OnRoot(b: Block, r: nat): Option<ArgObject> {
    if r in b.roots then Some(Graphics(b.id, r)) else None
  }

  /** The pointers before the first one the manager does not know. */
  ghost function Known(a: Tracker, ptrs: seq<nat>): (n: nat)
    requires TrackerOrdered(a)
    ensures n <= |ptrs|
    ensures forall j :: 0 <= j < n ==> Found(a, ptrs[j]).Some?
    ensures n < |ptrs| ==> Found(a, ptrs[n]).None?
  {
    if ptrs == [] || Found(a, ptrs[0]).None? then 0
    else
      var n := Known(a, ptrs[1..]);
      assert forall j :: 0 < j < 1 + n ==> ptrs[j] == ptrs[1..][j - 1];
      assert n < |ptrs[1..]| ==> ptrs[1 + n] == ptrs[1..][n];
      1 + n
  }

  /** The allocations of the first `n` pointers on root device `r`. */
  ghost function Allocations(a: Tracker, ptrs: seq<nat>, n: nat, r: nat): (l: AllocList)
    requires TrackerOrdered(a) && n <= Known(a, ptrs)
    ensures |l| == n
    ensures forall j :: 0 <= j < n ==> l[j] == OnRoot(Found(a, ptrs[j]).value, r)
  {
    if n == 0 then [] else Allocations(a, ptrs, n - 1, r) + [OnRoot(Found(a, ptrs[n - 1]).value, r)]
  }

  /** The list holds, for each pointer before the first unknown one, the graphics allocation of its
      block on root device `r`, or null if it has none there. */
  ghost predicate Names(l: AllocList, a: Tracker, ptrs: seq<nat>, r: nat)
    requires TrackerOrdered(a)
  {
    && |l| == Known(a, ptrs)
    && forall j :: 0 <= j < |l| ==>
         var b := Found(a, ptrs[j]).value;
         l[j] == if r in b.roots then Some(Graphics(b.id, r)) else None
  }

  type PerRoot = seq<Option<ExecLists>>

  /** On every root device the chosen list is that of the first `n` pointers, and the other
      list is the old one. */
  ghost predicate Listed(was: PerRoot, now: PerRoot, kind: ListKind, a: Tracker, ptrs: seq<nat>, n: nat)
    requires TrackerOrdered(a) && n <= Known(a, ptrs)
  {
    && |now| == |was|
    && forall r :: 0 <= r < |was| ==>
         now[r] == if was[r].None? then None else Some(WithChosen(was[r].value, kind, Allocations(a, ptrs, n, r)))
  }

  /** The same by field, for a whole list. */
  ghost predicate Replaced(was: PerRoot, now: PerRoot, kind: ListKind, a: Tracker, ptrs: seq<nat>)
    requires TrackerOrdered(a)
  {
    && |now| == |was|
    && forall r :: 0 <= r < |now| ==>
         && (was[r].None? <==> now[r].None?)
         && (now[r].Some? && kind == SvmPtrs ==>
               now[r].value.usm == was[r].value.usm && Names(now[r].value.svm, a, ptrs, r))
         && (now[r].Some? && kind == UsmPtrs ==>
               now[r].value.svm == was[r].value.svm && Names(now[r].value.usm, a, ptrs, r))
  }

  lemma ListedIsReplaced(was: PerRoot, now: PerRoot, kind: ListKind, a: Tracker, ptrs: seq<nat>)
    requires TrackerOrdered(a) && Listed(was, now, kind, a, ptrs, Known(a, ptrs))
    ensures Replaced(was, now, kind, a, ptrs)
  {
    forall r | 0 <= r < |now| && now[r].Some?
      ensures Names(Chosen(now[r].value, kind), a, ptrs, r)
    {
      assert Chosen(now[r].value, kind) == Allocations(a, ptrs, Known(a, ptrs), r);
    }
  }

  function Push(e: Option<ExecLists>, kind: ListKind, b: Block, r: nat): Option<ExecLists> {
    if e.None? then None
    else Some(WithChosen(e.value, kind, Chosen(e.value, kind) + [OnRoot(b, r)]))
  }

  lemma PushExtends(was: PerRoot, now: PerRoot, next: PerRoot, kind: ListKind, a: Tracker, ptrs: seq<nat>, n: nat)
    requires TrackerOrdered(a) && n < Known(a, ptrs)
    requires Listed(was, now, kind, a, ptrs, n)
    requires |next| == |now|
    requires forall r :: 0 <= r < |now| ==> next[r] == Push(now[r], kind, Found(a, ptrs[n]).value, r)
    ensures Listed(was, next, kind, a, ptrs, n + 1)
  {
  }

  const ADDRESS_SIZE := 8

  class IndirectKernel {
    var kernels: PerRoot

    method Clear(kind: ListKind)
      modifies this
      ensures |kernels| == |old(kernels)|
      ensures forall r :: 0 <= r < |kernels| ==>
                kernels[r] == if old(kernels)[r].None? then None else Some(WithChosen(old(kernels)[r].value, kind, []))
    {
      ghost var was := kernels;
      for r := 0 to |kernels|
        invariant |kernels| == |was|
        invariant forall q :: 0 <= q < r ==>
                    kernels[q] == if was[q].None? then None else Some(WithChosen(was[q].value, kind, []))
        invariant forall q :: r <= q < |was| ==> kernels[q] == was[q]
      {
        if kernels[r].Some? {
          kernels := kernels[r := Some(WithChosen(kernels[r].value, kind, []))];
        }
      }
    }

    method PushBack(kind: ListKind, b: Block)
      modifies this
      ensures |kernels| == |old(kernels)|
      ensures forall r :: 0 <= r < |kernels| ==> kernels[r] == Push(old(kernels)[r], kind, b, r)
    {
      ghost var was := kernels;
      for r := 0 to |kernels|
        invariant |kernels| == |was|
        invariant forall q :: 0 <= q < r ==> kernels[q] == Push(was[q], kind, b, q)
        invariant forall q :: r <= q < |was| ==> kernels[q] == was[q]
      {
        if kernels[r].Some? {
          kernels := kernels[r := Push(kernels[r], kind, b, r)];
        }
      }
    }

    /** clSetKernelExecInfo for CL_KERNEL_EXEC_INFO_SVM_PTRS and _USM_PTRS_INTEL. */
    method SetPointers(svm: SvmAllocsManager, kind: ListKind, valueSize: nat, value: Option<seq<nat>>)
        returns (code: ClCode)
      requires svm.Inv()
      requires value.Some? ==> |value.value| == valueSize / ADDRESS_SIZE
      modifies this
      ensures (valueSize == 0 <==> value.Some?) || valueSize % ADDRESS_SIZE != 0 ==>
                code == CL_INVALID_VALUE && kernels == old(kernels)
      ensures !((valueSize == 0 <==> value.Some?) || valueSize % ADDRESS_SIZE != 0) ==>
                var ptrs := if value.Some? then value.value else [];
                && TrackerOrdered(svm.svmAllocs)
                && (code == CL_SUCCESS <==> Known(svm.svmAllocs, ptrs) == |ptrs|)
                && (code != CL_SUCCESS ==> code == CL_INVALID_VALUE)
                && Listed(old(kernels), kernels, kind, svm.svmAllocs, ptrs, Known(svm.svmAllocs, ptrs))
                && Replaced(old(kernels), kernels, kind, svm.svmAllocs, ptrs)
    {
      if (valueSize == 0 && value.Some?) || valueSize % ADDRESS_SIZE != 0 || (valueSize != 0 && value.None?) {
        return CL_INVALID_VALUE;
      }
      TrackerIsOrdered(svm.svmAllocs);
      var ptrs := if value.Some? then value.value else [];
      ghost var a := svm.svmAllocs;
      ghost var was := kernels;
      Clear(kind);
      var i := 0;
      while i < |ptrs|
        invariant 0 <= i <= Known(a, ptrs)
        invariant Listed(was, kernels, kind, a, ptrs, i)
      {
        var k := svm.GetSVMAlloc(ptrs[i]);
        FoundIs(a, ptrs[i], k);
        if k < 0 {
          ListedIsReplaced(was, kernels, kind, a, ptrs);
          return CL_INVALID_VALUE;
        }
        ghost var now := kernels;
        PushBack(kind, BlockOf(svm.svmAllocs[k]));
        PushExtends(was, now, kernels, kind, a, ptrs, i);
        i := i + 1;
      }
      ListedIsReplaced(was, kernels, kind, a, ptrs);
      code := CL_SUCCESS;
    }
  }
}
