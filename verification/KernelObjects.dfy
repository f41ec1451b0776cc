/** Bulk kernel creation with rollback.  A kernel handle (MultiDeviceKernel) owns one kernel
    object per root device of the program; kernel objects keep the program alive. */
module KernelObjects {
  import opened Options
  import opened Collections
  import opened ClTypes

  datatype Kernel = Kernel(root: nat, id: nat)

  /** A live handle: its reference count and its kernel objects, at most one per root device,
      in the order they were made. */
  datatype Handle = Handle(refs: nat, kernels: seq<Kernel>)

  /** Kernel objects by identity, with their internal reference counts. */
  type Counts = map<nat, nat>

  function RootsOf(ks: seq<Kernel>): (roots: seq<nat>)
    ensures |roots| == |ks| && forall i :: 0 <= i < |ks| ==> roots[i] == ks[i].root
  {
    seq(|ks|, i requires 0 <= i < |ks| => ks[i].root)
  }

  ghost predicate Numbered(ks: seq<Kernel>, lo: nat) {
    forall i :: 0 <= i < |ks| ==> ks[i].id == lo + i
  }

  /* ---- one kernel on every root device ---- */

  /** Initialization of one kernel on each root device: the code it ends with. */
  type Init = seq<ClCode>

  predicate InRange(devices: seq<nat>, size: nat) {
    forall p :: 0 <= p < |devices| ==> devices[p] < size
  }

  datatype Service = Service(roots: seq<nat>, code: ClCode)

  /** The root devices that get a kernel object, after `roots` did, and the code it ends with:
      a device whose root has one is passed over, and the first failure stops. */
  function Serve(roots: seq<nat>, devices: seq<nat>, init: Init): Service
    requires InRange(devices, |init|)
    decreases devices
  {
    if devices == [] then Service(roots, CL_SUCCESS)
    else if devices[0] in roots then Serve(roots, devices[1..], init)
    else if init[devices[0]] != CL_SUCCESS then Service(roots, init[devices[0]])
    else Serve(roots + [devices[0]], devices[1..], init)
  }

  /** The first device whose kernel does not initialize. */
  function FirstFailure(devices: seq<nat>, init: Init): (f: nat)
    requires InRange(devices, |init|)
    ensures f <= |devices|
    ensures forall p :: 0 <= p < f ==> init[devices[p]] == CL_SUCCESS
    ensures f < |devices| ==> init[devices[f]] != CL_SUCCESS
  {
    if devices == [] || init[devices[0]] != CL_SUCCESS then 0
    else
      var f := FirstFailure(devices[1..], init);
      assert forall p :: 0 < p <= f ==> devices[p] == devices[1..][p - 1];
      1 + f
  }

  /** Exactly the root devices before the first failure are served, each once, and the code is
      that of the failure. */
  lemma {:induction false} ServeMeaning(roots: seq<nat>, devices: seq<nat>, init: Init)
    requires InRange(devices, |init|) && NoRepeats(roots)
    requires forall r :: r in roots && r < |init| ==> init[r] == CL_SUCCESS
    ensures var s := Serve(roots, devices, init);
            var f := FirstFailure(devices, init);
            && NoRepeats(s.roots)
            && (forall r :: r in s.roots <==> r in roots || r in devices[..f])
            && s.code == (if f == |devices| then CL_SUCCESS else init[devices[f]])
    decreases devices
  {
    if devices != [] {
      var f := FirstFailure(devices, init);
      if init[devices[0]] == CL_SUCCESS {
        assert devices[..f] == [devices[0]] + devices[1..][..f - 1];
        ServeMeaning(if devices[0] in roots then roots else roots + [devices[0]], devices[1..], init);
      }
    }
  }

  /* ---- the heap of kernel objects, on values ---- */

  /** `m` with the identities from `lo` to `hi` added: those below `mid` with one reference,
      the others with none. */
  function Made(m: Counts, lo: nat, mid: nat, hi: nat): Counts {
    if hi <= lo then m else Made(m, lo, mid, hi - 1)[hi - 1 := if hi - 1 < mid then 1 else 0]
  }

  lemma {:induction false} MadeMeaning(m: Counts, lo: nat, mid: nat, hi: nat, k: nat)
    ensures k in Made(m, lo, mid, hi) <==> k in m || lo <= k < hi
    ensures k in m && !(lo <= k < hi) ==> Made(m, lo, mid, hi)[k] == m[k]
    ensures lo <= k < hi ==> Made(m, lo, mid, hi)[k] == if k < mid then 1 else 0
  {
    if hi > lo {
      MadeMeaning(m, lo, mid, hi - 1, k);
    }
  }

  /** No identity is below `lo` any more. */
  ghost predicate Below(m: Counts, lo: nat) {
    forall k :: k in m ==> k < lo
  }

  /** One object is retained for the first time. */
  lemma {:induction false} MadeRetain(m: Counts, lo: nat, mid: nat, hi: nat)
    requires lo <= mid < hi
    ensures mid in Made(m, lo, mid, hi) && Made(m, lo, mid, hi)[mid] == 0
    ensures Made(m, lo, mid, hi)[mid := 1] == Made(m, lo, mid + 1, hi)
  {
    MadeMeaning(m, lo, mid, hi, mid);
    if hi - 1 > mid {
      MadeRetain(m, lo, mid, hi - 1);
    } else {
      MadeBeyond(m, lo, mid, mid + 1, hi - 1);
    }
  }

  /** The boundary does not matter above the last identity. */
  lemma {:induction false} MadeBeyond(m: Counts, lo: nat, mid: nat, mid': nat, hi: nat)
    requires hi <= mid && hi <= mid'
    ensures Made(m, lo, mid, hi) == Made(m, lo, mid', hi)
  {
    if hi > lo {
      MadeBeyond(m, lo, mid, mid', hi - 1);
    }
  }

  /** Two additions in a row are one. */
  lemma {:induction false} MadeJoin(m: Counts, lo: nat, next: nat, mid: nat, hi: nat)
    requires lo <= next <= mid && next <= hi
    ensures Made(Made(m, lo, next, next), next, mid, hi) == Made(m, lo, mid, hi)
  {
    if hi > next {
      MadeJoin(m, lo, next, mid, hi - 1);
    } else {
      MadeBeyond(m, lo, next, mid, hi);
    }
  }

  /** The oldest object loses its only reference. */
  lemma {:induction false} MadeDrop(m: Counts, lo: nat, mid: nat, hi: nat)
    requires lo < mid <= hi && Below(m, lo)
    ensures lo in Made(m, lo, mid, hi) && Made(m, lo, mid, hi)[lo] == 1
    ensures Made(m, lo, mid, hi) - {lo} == Made(m, lo + 1, mid, hi)
  {
    MadeMeaning(m, lo, mid, hi, lo);
    if hi == lo + 1 {
      assert Made(m, lo, mid, hi - 1) == m;
    } else if hi > mid {
      MadeDrop(m, lo, mid, hi - 1);
    } else {
      MadeBeyond(m, lo, mid - 1, mid, hi - 1);
      MadeBeyond(m, lo + 1, mid - 1, mid, hi - 1);
      MadeDrop(m, lo, mid - 1, hi - 1);
    }
  }

  function Drop(m: Counts, k: nat): Counts
    requires k in m && m[k] >= 1
  {
    if m[k] == 1 then m - {k} else m[k := m[k] - 1]
  }

  predicate CanDrop(m: Counts, ks: seq<Kernel>) {
    ks == [] || (ks[0].id in m && m[ks[0].id] >= 1 && CanDrop(Drop(m, ks[0].id), ks[1..]))
  }

  /** The counts when a handle that owns `ks` is destroyed. */
  function DropAll(m: Counts, ks: seq<Kernel>): Counts
    requires CanDrop(m, ks)
    decreases ks
  {
    if ks == [] then m else DropAll(Drop(m, ks[0].id), ks[1..])
  }

  lemma {:induction false} DropNumbered(m: Counts, lo: nat, mid: nat, hi: nat, ks: seq<Kernel>)
    requires Numbered(ks, lo) && lo + |ks| <= mid <= hi && Below(m, lo)
    ensures CanDrop(Made(m, lo, mid, hi), ks)
    ensures DropAll(Made(m, lo, mid, hi), ks) == Made(m, lo + |ks|, mid, hi)
    decreases ks
  {
    if ks != [] {
      MadeDrop(m, lo, mid, hi);
      assert Numbered(ks[1..], lo + 1);
      DropNumbered(m, lo + 1, mid, hi, ks[1..]);
    }
  }

  /* ---- the handles of one bulk creation, on values ---- */

  type Handles = map<nat, Handle>

  /** `m` with consecutive handles added from `first` on. */
  function Put(m: Handles, first: nat, hs: seq<Handle>): Handles
    decreases hs
  {
    if hs == [] then m else Put(m, first + 1, hs[1..])[first := hs[0]]
  }

  ghost predicate HandlesBelow(m: Handles, first: nat) {
    forall h :: h in m ==> h < first
  }

  lemma {:induction false} PutMeaning(m: Handles, first: nat, hs: seq<Handle>, h: nat)
    requires HandlesBelow(m, first)
    ensures h in Put(m, first, hs) <==> h in m || first <= h < first + |hs|
    ensures h in m ==> Put(m, first, hs)[h] == m[h]
    ensures first <= h < first + |hs| ==> Put(m, first, hs)[h] == hs[h - first]
    decreases hs
  {
    if hs != [] {
      PutMeaning(m, first + 1, hs[1..], h);
    }
  }

  lemma {:induction false} PutAppend(m: Handles, first: nat, hs: seq<Handle>, h: Handle)
    ensures Put(m, first, hs + [h]) == Put(m, first, hs)[first + |hs| := h]
    decreases hs
  {
    if hs != [] {
      assert (hs + [h])[1..] == hs[1..] + [h];
      PutAppend(m, first + 1, hs[1..], h);
    }
  }

  lemma PutRemove(m: Handles, first: nat, hs: seq<Handle>)
    requires HandlesBelow(m, first) && hs != []
    ensures first in Put(m, first, hs) && Put(m, first, hs)[first] == hs[0]
    ensures Put(m, first, hs) - {first} == Put(m, first + 1, hs[1..])
  {
    PutMeaning(m, first + 1, hs[1..], first);
  }

  function Total(hs: seq<Handle>): nat {
    if hs == [] then 0 else |hs[0].kernels| + Total(hs[1..])
  }

  /** New handles, each with one reference, whose kernel objects are numbered from `lo` on. */
  ghost predicate Placed(hs: seq<Handle>, lo: nat)
    decreases hs
  {
    hs == [] || (hs[0].refs == 1 && Numbered(hs[0].kernels, lo) && Placed(hs[1..], lo + |hs[0].kernels|))
  }

  lemma {:induction false} PlacedAppend(hs: seq<Handle>, lo: nat, h: Handle)
    requires Placed(hs, lo) && h.refs == 1 && Numbered(h.kernels, lo + Total(hs))
    ensures Placed(hs + [h], lo) && Total(hs + [h]) == Total(hs) + |h.kernels|
    decreases hs
  {
    if hs != [] {
      assert (hs + [h])[1..] == hs[1..] + [h];
      PlacedAppend(hs[1..], lo + |hs[0].kernels|, h);
    } else {
      assert hs + [h] == [h];
    }
  }

  /** The log after `n` more consecutive handles were released, each once. */
  function Logged(log: seq<nat>, first: nat, n: nat): seq<nat> {
    if n == 0 then log else Logged(log, first, n - 1) + [first + n - 1]
  }

  /** Slots below `n` hold consecutive handles, those up to `stop` are null, and the others are
      as they were. */
  ghost predicate Named(was: seq<Option<nat>>, now: seq<Option<nat>>, first: nat, n: nat, stop: nat) {
    |now| == |was| && forall q :: 0 <= q < |now| ==>
      now[q] == if q < n then Some(first + q) else if q < stop then None else was[q]
  }

  /** Of such slots the first `j` were cleared. */
  ghost predicate Cleared(was: seq<Option<nat>>, now: seq<Option<nat>>, first: nat, j: nat, stop: nat) {
    |now| == |was| && forall q :: 0 <= q < |now| ==>
      now[q] == if q < j then None else if q + 1 < stop then Some(first + q) else if q < stop then None else was[q]
  }

  /** The first `n` slots are null, the others as they were. */
  ghost predicate Nulled(was: seq<Option<nat>>, now: seq<Option<nat>>, n: nat) {
    |now| == |was| && forall q :: 0 <= q < |now| ==> now[q] == if q < n then None else was[q]
  }

  lemma NamedNext(was: seq<Option<nat>>, now: seq<Option<nat>>, first: nat, n: nat)
    requires Named(was, now, first, n, n) && n < |was|
    ensures Named(was, now[n := Some(first + n)], first, n + 1, n + 1)
    ensures Named(was, now[n := None], first, n, n + 1)
  {
  }

  lemma ClearedNext(was: seq<Option<nat>>, now: seq<Option<nat>>, first: nat, j: nat, stop: nat)
    requires Cleared(was, now, first, j, stop) && j + 1 < stop <= |was|
    ensures now[j] == Some(first + j) && Cleared(was, now[j := None], first, j + 1, stop)
  {
  }

  lemma NamedIsCleared(was: seq<Option<nat>>, now: seq<Option<nat>>, first: nat, n: nat)
    requires Named(was, now, first, n, n + 1)
    ensures Cleared(was, now, first, 0, n + 1)
  {
  }

  lemma ClearedAll(was: seq<Option<nat>>, now: seq<Option<nat>>, first: nat, n: nat)
    requires Cleared(was, now, first, n, n + 1)
    ensures Nulled(was, now, n + 1)
  {
  }

  /** The state of a creation: `hs` were added to what was there. */
  ghost predicate Added(baseHandles: Handles, baseKernels: Counts, first: nat, lo: nat, hs: seq<Handle>, mid: nat,
                        hi: nat, handles: Handles, kernels: Counts)
  {
    && HandlesBelow(baseHandles, first) && Below(baseKernels, lo)
    && handles == Put(baseHandles, first, hs)
    && Placed(hs, lo) && mid == lo + Total(hs) && mid <= hi
    && kernels == Made(baseKernels, lo, mid, hi)
  }

  /** Releasing the first handle leaves the others. */
  lemma AddedRelease(bh: Handles, bk: Counts, first: nat, lo: nat, hs: seq<Handle>, mid: nat, hi: nat,
      handles: Handles, kernels: Counts)
    requires Added(bh, bk, first, lo, hs, mid, hi, handles, kernels) && hs != []
    ensures first in handles && handles[first] == hs[0] && hs[0].refs == 1 && CanDrop(kernels, hs[0].kernels)
    ensures Added(bh, bk, first + 1, lo + |hs[0].kernels|, hs[1..], mid, hi, handles - {first},
              DropAll(kernels, hs[0].kernels))
  {
    PutRemove(bh, first, hs);
    DropNumbered(bk, lo, mid, hi, hs[0].kernels);
  }

  lemma RolledBack(bh: Handles, bk: Counts, first: nat, lo: nat, hs: seq<Handle>, mid: nat, hi: nat,
                   handles: Handles, kernels: Counts)
    requires Added(bh, bk, first, lo, hs, mid, hi, handles, kernels) && hs == []
    ensures handles == bh && kernels == Made(bk, mid, mid, hi)
  {
  }

  /** A new handle is one more. */
  lemma AddedCreate(bh: Handles, bk: Counts, first: nat, lo: nat, hs: seq<Handle>, mid: nat, handles: Handles,
      kernels: Counts, h: Handle)
    requires Added(bh, bk, first, lo, hs, mid, mid, handles, kernels)
    requires h.refs == 1 && Numbered(h.kernels, mid)
    ensures var hi := mid + |h.kernels|;
            Added(bh, bk, first, lo, hs + [h], hi, hi, handles[first + |hs| := h], Made(kernels, mid, hi, hi))
  {
    var hi := mid + |h.kernels|;
    PutAppend(bh, first, hs, h);
    PlacedAppend(hs, lo, h);
    MadeJoin(bk, lo, mid, hi, hi);
  }

  /** A failed kernel leaves objects that nobody owns. */
  lemma AddedLeak(bh: Handles, bk: Counts, first: nat, lo: nat, hs: seq<Handle>, mid: nat, hi: nat, handles: Handles,
      kernels: Counts)
    requires Added(bh, bk, first, lo, hs, mid, mid, handles, kernels) && mid <= hi
    ensures Added(bh, bk, first, lo, hs, mid, hi, handles, Made(kernels, mid, mid, hi))
  {
  }

  class KernelHeap {
    var kernels: Counts
    var handles: Handles
    /** References that kernel objects hold on the program. */
    var programRefs: nat
    var nextKernel: nat
    var nextHandle: nat
    /** The handles that were released, in order. */
    ghost var released: seq<nat>

    ghost predicate Valid()
      reads this
    {
      Below(kernels, nextKernel) && HandlesBelow(handles, nextHandle) && programRefs == |kernels|
    }

    method AddKernel()
      requires Valid()
      modifies this`kernels, this`programRefs, this`nextKernel
      ensures Valid() && nextKernel == old(nextKernel) + 1 && kernels == old(kernels)[old(nextKernel) := 0]
    {
      kernels := kernels[nextKernel := 0];
      programRefs := programRefs + 1;
      nextKernel := nextKernel + 1;
    }

    /** The kernel objects of one handle, created device by device.  When one does not
        initialize, those made before it stay, with nobody to release them. */
    method CreatePerDevice(devices: seq<nat>, init: Init) returns (ks: seq<Kernel>, code: ClCode)
      requires Valid() && InRange(devices, |init|)
      modifies this`kernels, this`programRefs, this`nextKernel
      ensures Valid() && nextKernel == old(nextKernel) + |ks| && Numbered(ks, old(nextKernel))
      ensures kernels == Made(old(kernels), old(nextKernel), old(nextKernel), nextKernel)
      ensures Service(RootsOf(ks), code) == Serve([], devices, init)
    {
      ks := [];
      ghost var was, lo := kernels, nextKernel;
      assert RootsOf(ks) == [];
      assert devices[0..] == devices;
      var p := 0;
      while p < |devices|
        invariant 0 <= p <= |devices|
        invariant Serve(RootsOf(ks), devices[p..], init) == Serve([], devices, init)
        invariant Valid() && nextKernel == lo + |ks| && Numbered(ks, lo)
        invariant kernels == Made(was, lo, lo, nextKernel)
      {
        var r := devices[p];
        assert devices[p..][1..] == devices[p + 1..];
        if r !in RootsOf(ks) {
          code := init[r];
          if code != CL_SUCCESS {
            return;
          }
          assert RootsOf(ks + [Kernel(r, nextKernel)]) == RootsOf(ks) + [r];
          ks := ks + [Kernel(r, nextKernel)];
          AddKernel();
        }
        p := p + 1;
      }
      code := CL_SUCCESS;
    }

    /** A new handle holds a reference on each of its kernel objects. */
    method RetainEach(ks: seq<Kernel>, ghost m: Counts, ghost lo: nat)
      requires Valid() && Numbered(ks, lo) && kernels == Made(m, lo, lo, lo + |ks|)
      modifies this`kernels
      ensures Valid() && kernels == Made(m, lo, lo + |ks|, lo + |ks|)
    {
      for i := 0 to |ks|
        invariant Valid() && kernels == Made(m, lo, lo + i, lo + |ks|)
      {
        RetainOne(ks[i].id, m, lo, lo + |ks|);
      }
    }

    method RetainOne(k: nat, ghost m: Counts, ghost lo: nat, ghost hi: nat)
      requires Valid() && lo <= k < hi && kernels == Made(m, lo, k, hi)
      modifies this`kernels
      ensures Valid() && kernels == Made(m, lo, k + 1, hi)
    {
      MadeRetain(m, lo, k, hi);
      kernels := kernels[k := kernels[k] + 1];
    }

    /** The destructor of a handle gives those references back. */
    method DropEach(ks: seq<Kernel>)
      requires Valid() && CanDrop(kernels, ks)
      modifies this`kernels, this`programRefs
      ensures Valid() && kernels == DropAll(old(kernels), ks)
    {
      var i := 0;
      assert ks[0..] == ks;
      while i < |ks|
        invariant 0 <= i <= |ks| && Valid() && CanDrop(kernels, ks[i..])
        invariant DropAll(kernels, ks[i..]) == DropAll(old(kernels), ks)
      {
        assert ks[i..][0] == ks[i] && ks[i..][1..] == ks[i + 1..];
        DropOne(ks[i].id);
        i := i + 1;
      }
    }

    /** Kernel::decRefInternal; the last one deletes the object, which lets go of the program. */
    method DropOne(k: nat)
      requires Valid() && k in kernels && kernels[k] >= 1
      modifies this`kernels, this`programRefs
      ensures Valid() && kernels == Drop(old(kernels), k)
    {
      if kernels[k] == 1 {
        var rest := kernels - {k};
        assert kernels == rest[k := 1];
        kernels := rest;
        programRefs := programRefs - 1;
      } else {
        kernels := kernels[k := kernels[k] - 1];
      }
    }

    /** clReleaseKernel on a live handle. */
    method Release(h: nat)
      requires Valid() && h in handles && handles[h].refs >= 1 && CanDrop(kernels, handles[h].kernels)
      modifies this`kernels, this`programRefs, this`handles, this`released
      ensures Valid() && released == old(released) + [h]
      ensures old(handles)[h].refs > 1 ==>
                && handles == old(handles)[h := old(handles)[h].(refs := old(handles)[h].refs - 1)]
                && kernels == old(kernels)
      ensures old(handles)[h].refs == 1 ==>
                && handles == old(handles) - {h}
                && kernels == DropAll(old(kernels), old(handles)[h].kernels)
    {
      released := released + [h];
      var handle := handles[h];
      if handle.refs > 1 {
        handles := handles[h := handle.(refs := handle.refs - 1)];
      } else {
        handles := handles - {h};
        DropEach(handle.kernels);
      }
    }

    /** MultiDeviceKernel::create. */
    method CreateHandle(devices: seq<nat>, init: Init) returns (h: Option<nat>, code: ClCode, ghost made: Handle)
      requires Valid() && InRange(devices, |init|)
      modifies this`kernels, this`programRefs, this`nextKernel, this`handles, this`nextHandle
      ensures Valid() && nextKernel == old(nextKernel) + |made.kernels| && made.refs == 1
      ensures Numbered(made.kernels, old(nextKernel))
      ensures Service(RootsOf(made.kernels), code) == Serve([], devices, init)
      ensures code != CL_SUCCESS ==>
                && h == None && handles == old(handles) && nextHandle == old(nextHandle)
                && kernels == Made(old(kernels), old(nextKernel), old(nextKernel), nextKernel)
      ensures code == CL_SUCCESS ==>
                && h == Some(old(nextHandle)) && nextHandle == old(nextHandle) + 1
                && handles == old(handles)[old(nextHandle) := made]
                && kernels == Made(old(kernels), old(nextKernel), nextKernel, nextKernel)
    {
      var ks;
      ks, code := CreatePerDevice(devices, init);
      made := Handle(1, ks);
      if code != CL_SUCCESS {
        return None, code, made;
      }
      RetainEach(ks, old(kernels), old(nextKernel));
      h := Some(nextHandle);
      handles := handles[nextHandle := Handle(1, ks)];
      nextHandle := nextHandle + 1;
    }

    /** One round of the rollback. */
    method ReleaseFirst(h: nat, ghost bh: Handles, ghost bk: Counts, ghost lo: nat, ghost hs: seq<Handle>,
        ghost mid: nat)
      requires Valid() && hs != [] && Added(bh, bk, h, lo, hs, mid, nextKernel, handles, kernels)
      modifies this`kernels, this`programRefs, this`handles, this`released
      ensures Valid() && released == old(released) + [h]
      ensures Added(bh, bk, h + 1, lo + |hs[0].kernels|, hs[1..], mid, nextKernel, handles, kernels)
    {
      AddedRelease(bh, bk, h, lo, hs, mid, nextKernel, handles, kernels);
      Release(h);
    }

    method ClearSlot(out: array<Option<nat>>, j: nat, ghost bh: Handles, ghost bk: Counts, ghost lo: nat,
                     ghost hs: seq<Handle>, ghost mid: nat, ghost was: seq<Option<nat>>, ghost first: nat,
                     ghost stop: nat, ghost log: seq<nat>)
      requires Valid() && j + 1 < stop <= out.Length && hs != []
      requires Added(bh, bk, first + j, lo, hs, mid, nextKernel, handles, kernels)
      requires Cleared(was, out[..], first, j, stop) && released == Logged(log, first, j)
      modifies this`kernels, this`programRefs, this`handles, this`released, out
      ensures Valid() && released == Logged(log, first, j + 1)
      ensures Added(bh, bk, first + (j + 1), lo + |hs[0].kernels|, hs[1..], mid, nextKernel, handles, kernels)
      ensures Cleared(was, out[..], first, j + 1, stop)
    {
      ClearedNext(was, out[..], first, j, stop);
      ghost var now := out[..];
      ReleaseFirst(out[j].value, bh, bk, lo, hs, mid);
      out[j] := None;
      assert out[..] == now[j := None];
    }

    /** The rollback: every handle made so far is released, once and in order. */
    method Rollback(out: array<Option<nat>>, n: nat, ghost bh: Handles, ghost bk: Counts, ghost lo: nat,
                    ghost hs: seq<Handle>, ghost mid: nat, ghost was: seq<Option<nat>>, ghost first: nat)
      requires Valid() && n < out.Length && |hs| == n
      requires Added(bh, bk, first, lo, hs, mid, nextKernel, handles, kernels)
      requires Named(was, out[..], first, n, n + 1)
      modifies this`kernels, this`programRefs, this`handles, this`released, out
      ensures Valid() && handles == bh && kernels == Made(bk, mid, mid, nextKernel)
      ensures released == Logged(old(released), first, n)
      ensures Nulled(was, out[..], n + 1)
    {
      var j := 0;
      ghost var rest: seq<Handle>, at: nat := hs, lo;
      NamedIsCleared(was, out[..], first, n);
      while j < n
        invariant 0 <= j <= n && Valid() && |rest| == n - j
        invariant Added(bh, bk, first + j, at, rest, mid, nextKernel, handles, kernels)
        invariant Cleared(was, out[..], first, j, n + 1)
        invariant released == Logged(old(released), first, j)
      {
        ClearSlot(out, j, bh, bk, at, rest, mid, was, first, n + 1, old(released));
        at, rest := at + |rest[0].kernels|, rest[1..];
        j := j + 1;
      }
      RolledBack(bh, bk, first + n, at, rest, mid, nextKernel, handles, kernels);
      ClearedAll(was, out[..], first, n);
    }

    /** One round of the creation loop. */
    method FillSlot(out: array<Option<nat>>, i: nat, devices: seq<nat>, init: Init, ghost bh: Handles,
                    ghost bk: Counts, ghost lo: nat, ghost hs: seq<Handle>, ghost was: seq<Option<nat>>,
                    ghost first: nat)
      returns (code: ClCode, ghost hs': seq<Handle>)
      requires Valid() && i < out.Length && InRange(devices, |init|) && |hs| == i && nextHandle == first + i
      requires Added(bh, bk, first, lo, hs, nextKernel, nextKernel, handles, kernels) &&
                Named(was, out[..], first, i, i)
      modifies this`kernels, this`programRefs, this`nextKernel, this`handles, this`nextHandle, out
      ensures Valid() && nextKernel >= old(nextKernel)
      ensures code == Serve([], devices, init).code
      ensures code != CL_SUCCESS ==>
                && nextKernel - old(nextKernel) == |Serve([], devices, init).roots|
                && Added(bh, bk, first, lo, hs, old(nextKernel), nextKernel, handles, kernels)
                && Named(was, out[..], first, i, i + 1)
      ensures code == CL_SUCCESS ==>
                && nextHandle == first + (i + 1)
                && |hs'| == i + 1 && hs' == hs + [hs'[i]] && RootsOf(hs'[i].kernels) == Serve([], devices, init).roots
                && Added(bh, bk, first, lo, hs', nextKernel, nextKernel, handles, kernels)
                && Named(was, out[..], first, i + 1, i + 1)
    {
      ghost var now := out[..];
      var h;
      ghost var made;
      h, code, made := CreateHandle(devices, init);
      out[i] := h;
      assert out[..] == now[i := h];
      NamedNext(was, now, first, i);
      hs' := hs + [made];
      if code != CL_SUCCESS {
        AddedLeak(bh, bk, first, lo, hs, old(nextKernel), nextKernel, old(handles), old(kernels));
      } else {
        AddedCreate(bh, bk, first, lo, hs, old(nextKernel), old(handles), old(kernels), made);
      }
    }

    /** The creation loop: all kernels are made, or those made are released again.  What the
        failed kernel made on earlier root devices, `leaked` objects, stays behind. */
    method CreateAll(out: array<Option<nat>>, devices: seq<nat>, inits: seq<Init>)
      returns (code: ClCode, ghost hs: seq<Handle>, ghost mark: nat)
      requires Valid() && |inits| <= out.Length && forall i :: 0 <= i < |inits| ==> InRange(devices, |inits[i]|)
      modifies this, out
      ensures Valid() && |hs| <= |inits|
      ensures forall i :: 0 <= i < |hs| ==> Service(RootsOf(hs[i].kernels), CL_SUCCESS) == Serve([], devices, inits[i])
      ensures |hs| == |inits| ==>
                && code == CL_SUCCESS && released == old(released)
                && Named(old(out[..]), out[..], old(nextHandle), |hs|, |hs|)
                && Added(old(handles), old(kernels), old(nextHandle), old(nextKernel), hs, nextKernel, nextKernel,
                    handles, kernels)
      ensures |hs| < |inits| ==>
                && code != CL_SUCCESS && code == Serve([], devices, inits[|hs|]).code
                && Nulled(old(out[..]), out[..], |hs| + 1)
                && handles == old(handles) && released == Logged(old(released), old(nextHandle), |hs|)
                && nextKernel - mark == |Serve([], devices, inits[|hs|]).roots|
                && kernels == Made(old(kernels), mark, mark, nextKernel)
    {
      ghost var was, bh, bk, first, lo := out[..], handles, kernels, nextHandle, nextKernel;
      hs, mark := [], nextKernel;
      assert Made(bk, lo, lo, lo) == bk;
      var i := 0;
      while i < |inits|
        invariant 0 <= i <= |inits| && |hs| == i && Valid() && released == old(released)
        invariant nextHandle == first + i
        invariant forall q :: 0 <= q < |hs| ==>
                  Service(RootsOf(hs[q].kernels), CL_SUCCESS) == Serve([], devices, inits[q])
        invariant Added(bh, bk, first, lo, hs, nextKernel, nextKernel, handles, kernels)
        invariant Named(was, out[..], first, i, i)
      {
        mark := nextKernel;
        ghost var more;
        code, more := FillSlot(out, i, devices, inits[i], bh, bk, lo, hs, was, first);
        if code != CL_SUCCESS {
          Rollback(out, i, bh, bk, lo, hs, mark, was, first);
          return;
        }
        hs := more;
        i := i + 1;
      }
      code := CL_SUCCESS;
    }

    /** clCreateKernelsInProgram: one kernel per entry of `inits`. */
    method CreateKernelsInProgram(isProgram: bool, numKernels: nat, out: array?<Option<nat>>, wantCount: bool,
        devices: seq<nat>, inits: seq<Init>)
      returns (code: ClCode, num: Option<nat>, ghost hs: seq<Handle>, ghost mark: nat)
      requires Valid() && forall i :: 0 <= i < |inits| ==> InRange(devices, |inits[i]|)
      requires out != null ==> numKernels <= out.Length
      modifies this, out
      ensures Valid()
      ensures !isProgram ==> code == CL_INVALID_PROGRAM
      ensures isProgram && out == null ==> code == CL_SUCCESS
      ensures isProgram && out != null && numKernels < |inits| ==> code == CL_INVALID_VALUE
      ensures !isProgram || out == null || numKernels < |inits| ==>
                && handles == old(handles) && kernels == old(kernels) && released == old(released)
                && (out != null ==> out[..] == old(out[..]))
      ensures num == if code == CL_SUCCESS && wantCount then Some(|inits|) else None
      ensures isProgram && out != null && numKernels >= |inits| ==>
                && |hs| <= |inits| && (code == CL_SUCCESS <==> |hs| == |inits|)
                && forall i :: 0 <= i < |hs| ==>
                    Service(RootsOf(hs[i].kernels), CL_SUCCESS) == Serve([], devices, inits[i])
      ensures isProgram && out != null && numKernels >= |inits| && code == CL_SUCCESS ==>
                && released == old(released)
                && Named(old(out[..]), out[..], old(nextHandle), |inits|, |inits|)
                && Added(old(handles), old(kernels), old(nextHandle), old(nextKernel), hs, nextKernel, nextKernel,
                    handles, kernels)
      ensures isProgram && out != null && numKernels >= |inits| && code != CL_SUCCESS ==>
                && code == Serve([], devices, inits[|hs|]).code
                && Nulled(old(out[..]), out[..], |hs| + 1)
                && handles == old(handles) && released == Logged(old(released), old(nextHandle), |hs|)
                && nextKernel - mark == |Serve([], devices, inits[|hs|]).roots|
                && kernels == Made(old(kernels), mark, mark, nextKernel)
    {
      num, hs, code, mark := None, [], CL_SUCCESS, nextKernel;
      if !isProgram {
        code := CL_INVALID_PROGRAM;
        return;
      }
      if out != null {
        if numKernels < |inits| {
          code := CL_INVALID_VALUE;
          return;
        }
        code, hs, mark := CreateAll(out, devices, inits);
        if code != CL_SUCCESS {
          return;
        }
      }
      if wantCount {
        num := Some(|inits|);
      }
    }
  }

  /** What a failed creation leaves: nothing exactly when it failed on the first device, and
      otherwise one kernel object for every root device before the failure. */
  lemma LeakExact(devices: seq<nat>, init: Init)
    requires InRange(devices, |init|) && Serve([], devices, init).code != CL_SUCCESS
    ensures var f, roots := FirstFailure(devices, init), Serve([], devices, init).roots;
            && f < |devices| && NoRepeats(roots) && (forall r :: r in roots <==> r in devices[..f])
            && (roots == [] <==> init[devices[0]] != CL_SUCCESS)
  {
    ServeMeaning([], devices, init);
    var f := FirstFailure(devices, init);
    if f > 0 {
      assert devices[..f][0] in devices[..f];
    }
  }
}
