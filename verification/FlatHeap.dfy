/** The heap an application sees: one set of disjoint live ranges, put together from the SVM
    manager and the two pools whose backing allocations the manager also lists. */
module FlatHeaps {
  import opened Options
  import opened SortedVectors
  import opened SvmManagers
  import opened UsmPools
  import opened Guards

  ghost predicate Disjoint(s: set<Range>) {
    && (forall q :: q in s ==> q.extent > 0)
    && (forall q, r :: q in s && r in s ==> q == r || Apart(q.base, q.extent, r.base, r.extent))
  }

  predicate Inside(q: Range, b: Range) {
    b.base <= q.base && q.base + q.extent <= b.base + b.extent
  }

  /** One pool: its backing range while it is initialized, and its chunks in use. */
  datatype PoolView = PoolView(backing: Option<Range>, live: set<Range>) {
    ghost predicate Coherent(svm: set<Range>) {
      && Disjoint(live)
      && (backing.None? ==> live == {})
      && (backing.Some? ==> backing.value in svm && forall q :: q in live ==> Inside(q, backing.value))
    }

    ghost function Backings(): set<Range> {
      if backing.Some? then {backing.value} else {}
    }
  }

  datatype View = View(svm: set<Range>, device: PoolView, host: PoolView) {
    ghost predicate Coherent() {
      && Disjoint(svm)
      && device.Coherent(svm) && host.Coherent(svm)
      && device.Backings() !! host.Backings()
    }

    /** What the application owns: everything live but the backing allocations. */
    ghost function Flat(): set<Range> {
      (svm - device.Backings() - host.Backings()) + device.live + host.live
    }
  }

  lemma PoolApart(v: View, p: PoolView, q: Range, r: Range)
    requires v.Coherent() && (p == v.device || p == v.host)
    requires q in p.live && r in v.svm && r !in p.Backings()
    ensures Apart(q.base, q.extent, r.base, r.extent) && q != r
  {
  }

  /** The flat heap is a set of pairwise disjoint ranges. */
  lemma FlatDisjoint(v: View)
    requires v.Coherent()
    ensures Disjoint(v.Flat())
  {
    forall q, r | q in v.Flat() && r in v.Flat()
      ensures q == r || Apart(q.base, q.extent, r.base, r.extent)
    {
      PairDisjoint(v, q, r);
    }
  }

  lemma PairDisjoint(v: View, q: Range, r: Range)
    requires v.Coherent() && q in v.Flat() && r in v.Flat()
    ensures q == r || Apart(q.base, q.extent, r.base, r.extent)
  {
    if q in v.device.live {
      PooledApart(v, v.device, v.host, q, r);
    } else if q in v.host.live {
      PooledApart(v, v.host, v.device, q, r);
    } else if r in v.device.live {
      PoolApart(v, v.device, r, q);
    } else if r in v.host.live {
      PoolApart(v, v.host, r, q);
    }
  }

  lemma PooledApart(v: View, p: PoolView, o: PoolView, q: Range, r: Range)
    requires v.Coherent() && ((p == v.device && o == v.host) || (p == v.host && o == v.device))
    requires q in p.live && r in v.Flat()
    ensures q == r || Apart(q.base, q.extent, r.base, r.extent)
  {
    if r !in p.live {
      if r in o.live {
        assert Apart(p.backing.value.base, p.backing.value.extent, o.backing.value.base, o.backing.value.extent);
      } else {
        PoolApart(v, p, q, r);
      }
    }
  }

  lemma AddedKeepsDisjoint(s: set<Range>, t: set<Range>, r: Range)
    requires Disjoint(s) && Added(s, t, r)
    ensures Disjoint(t)
  {
  }

  /** A new allocation of the manager is a new range of the flat heap. */
  lemma AddToManager(v: View, svm: set<Range>, r: Range)
    requires v.Coherent() && Added(v.svm, svm, r)
    ensures v.(svm := svm).Coherent()
    ensures Added(v.Flat(), v.(svm := svm).Flat(), r)
  {
  }

  /** A chunk handed out by a pool is a new range of the flat heap. */
  lemma AddToPool(v: View, live: set<Range>, r: Range, isDevice: bool)
    requires v.Coherent()
    requires var p := if isDevice then v.device else v.host;
             p.backing.Some? && Added(p.live, live, r) && Inside(r, p.backing.value)
    ensures var w := if isDevice then v.(device := v.device.(live := live)) else v.(host := v.host.(live := live));
            w.Coherent() && Added(v.Flat(), w.Flat(), r)
  {
    var p, o := if isDevice then v.device else v.host, if isDevice then v.host else v.device;
    var w := if isDevice then v.(device := v.device.(live := live)) else v.(host := v.host.(live := live));
    AddedKeepsDisjoint(p.live, live, r);
    assert w.Coherent();
    FlatDisjoint(w);
    assert r !in o.live;
    assert r !in v.svm - p.Backings() by {
      if r in v.svm - p.Backings() {
        PoolApart(w, if isDevice then w.device else w.host, r, r);
      }
    }
    assert r !in v.Flat() by {
      assert o.Backings() <= v.svm;
    }
    assert w.Flat() == v.Flat() + {r};
  }

  /** Freeing a range of the manager that backs no pool takes exactly it away. */
  lemma RemoveFromManager(v: View, r: Range)
    requires v.Coherent() && r in v.svm && r !in v.device.Backings() && r !in v.host.Backings()
    ensures v.(svm := v.svm - {r}).Coherent()
    ensures v.(svm := v.svm - {r}).Flat() == v.Flat() - {r} && r in v.Flat()
  {
  }

  lemma RemoveFromPool(v: View, r: Range, isDevice: bool)
    requires v.Coherent() && r in (if isDevice then v.device else v.host).live
    ensures var w := if isDevice then v.(device := v.device.(live := v.device.live - {r}))
              else v.(host := v.host.(live := v.host.live - {r}));
            w.Coherent() && w.Flat() == v.Flat() - {r} && r in v.Flat()
  {
  }

  /* ---- the same over the owners' own data ---- */

  /** The fields of one pool. */
  datatype PoolState = PoolState(pool: nat, poolEnd: nat, kind: MemoryType, allocations: PoolVector) {
    ghost predicate Valid() {
      if pool == 0 then allocations == [] && poolEnd == 0
      else pool < poolEnd && PoolVectorValid(allocations, pool, poolEnd)
    }

    function Backing(): Range {
      Range(pool, if pool <= poolEnd then poolEnd - pool else 0, if pool <= poolEnd then poolEnd - pool else 0, kind)
    }

    ghost function ToView(): PoolView {
      PoolView(if pool == 0 then None else Some(Backing()), PooledRanges(allocations, kind))
    }
  }

  /** The manager lists the backing allocation of each initialized pool, and they differ. */
  ghost predicate BackingsListed(a: Tracker, device: PoolState, host: PoolState) {
    && (device.pool != 0 ==> device.kind == DeviceMemory && device.Backing() in LiveRanges(a))
    && (host.pool != 0 ==> host.kind == HostMemory && host.Backing() in LiveRanges(a))
  }

  ghost function ViewOf(a: Tracker, device: PoolState, host: PoolState): View {
    View(LiveRanges(a), device.ToView(), host.ToView())
  }

  /** The live allocations of the application. */
  ghost function HeapOf(a: Tracker, device: PoolState, host: PoolState): set<Range> {
    ViewOf(a, device, host).Flat()
  }

  /** The owners fit together. */
  ghost predicate Owners(a: Tracker, device: PoolState, host: PoolState) {
    forall n {:trigger Asked(n)} :: Asked(n) ==>
      TrackerOrdered(a) && device.Valid() && host.Valid() && BackingsListed(a, device, host)
  }

  lemma TrackerDisjoint(a: Tracker)
    requires TrackerOrdered(a)
    ensures Disjoint(LiveRanges(a))
  {
    LiveMeaning(a);
    forall q, r | q in LiveRanges(a) && r in LiveRanges(a)
      ensures q == r || Apart(q.base, q.extent, r.base, r.extent)
    {
      LiveDisjoint(a, q, r);
    }
  }

  lemma PoolDisjoint(p: PoolState)
    requires p.Valid()
    ensures Disjoint(p.ToView().live)
    ensures p.pool != 0 ==> forall q :: q in p.ToView().live ==> Inside(q, p.Backing())
  {
    PooledMeaning(p.allocations, p.kind);
    forall q, r | q in p.ToView().live && r in p.ToView().live
      ensures q == r || Apart(q.base, q.extent, r.base, r.extent)
    {
      var e :| e in p.allocations && PooledRange(e, p.kind) == q;
      var f :| f in p.allocations && PooledRange(f, p.kind) == r;
      var i :| 0 <= i < |p.allocations| && p.allocations[i] == e;
      var j :| 0 <= j < |p.allocations| && p.allocations[j] == f;
    }
  }

  lemma OwnersCohere(a: Tracker, device: PoolState, host: PoolState)
    requires Owners(a, device, host)
    ensures ViewOf(a, device, host).Coherent()
  {
    assert Asked(0);
    TrackerDisjoint(a);
    PoolDisjoint(device);
    PoolDisjoint(host);
  }

  /** The three owners together form one heap of disjoint ranges. */
  lemma HeapDisjoint(a: Tracker, device: PoolState, host: PoolState)
    requires Owners(a, device, host)
    ensures Disjoint(HeapOf(a, device, host))
  {
    assert Asked(0);
    OwnersCohere(a, device, host);
    FlatDisjoint(ViewOf(a, device, host));
  }

  /** A new range of the manager is a new range of the heap, and starts in no pool. */
  lemma ManagerGrows(a: Tracker, b: Tracker, device: PoolState, host: PoolState, r: Range)
    requires Owners(a, device, host) && Added(LiveRanges(a), LiveRanges(b), r)
    ensures BackingsListed(b, device, host)
    ensures Added(HeapOf(a, device, host), HeapOf(b, device, host), r)
    ensures !(device.pool <= r.base < device.poolEnd) && !(host.pool <= r.base < host.poolEnd)
  {
    assert Asked(0);
    OwnersCohere(a, device, host);
    AddToManager(ViewOf(a, device, host), LiveRanges(b), r);
  }

  lemma DevicePoolStarts(a: Tracker, b: Tracker, device: PoolState, device': PoolState, host: PoolState)
    requires Owners(a, device, host) && device.pool == 0
    requires device'.pool != 0 && device'.kind == DeviceMemory && device'.allocations == []
    requires Added(LiveRanges(a), LiveRanges(b), device'.Backing())
    ensures BackingsListed(b, device', host)
    ensures HeapOf(b, device', host) == HeapOf(a, device, host)
  {
    assert Asked(0);
  }

  lemma HostPoolStarts(a: Tracker, b: Tracker, device: PoolState, host: PoolState, host': PoolState)
    requires Owners(a, device, host) && host.pool == 0
    requires host'.pool != 0 && host'.kind == HostMemory && host'.allocations == []
    requires Added(LiveRanges(a), LiveRanges(b), host'.Backing())
    ensures BackingsListed(b, device, host')
    ensures HeapOf(b, device, host') == HeapOf(a, device, host)
  {
    assert Asked(0);
  }

  lemma DevicePoolGrows(a: Tracker, device: PoolState, device': PoolState, host: PoolState, r: Range)
    requires Owners(a, device, host) && device.pool != 0
    requires device' == device.(allocations := device'.allocations)
    requires Added(device.ToView().live, device'.ToView().live, r) && Inside(r, device.Backing())
    ensures Added(HeapOf(a, device, host), HeapOf(a, device', host), r)
  {
    assert Asked(0);
    var v := ViewOf(a, device, host);
    assert ViewOf(a, device', host) == v.(device := v.device.(live := device'.ToView().live));
    OwnersCohere(a, device, host);
    AddToPool(v, device'.ToView().live, r, true);
  }

  lemma HostPoolGrows(a: Tracker, device: PoolState, host: PoolState, host': PoolState, r: Range)
    requires Owners(a, device, host) && host.pool != 0
    requires host' == host.(allocations := host'.allocations)
    requires Added(host.ToView().live, host'.ToView().live, r) && Inside(r, host.Backing())
    ensures Added(HeapOf(a, device, host), HeapOf(a, device, host'), r)
  {
    assert Asked(0);
    var v := ViewOf(a, device, host);
    assert ViewOf(a, device, host') == v.(host := v.host.(live := host'.ToView().live));
    OwnersCohere(a, device, host);
    AddToPool(v, host'.ToView().live, r, false);
  }

  lemma DevicePoolShrinks(a: Tracker, device: PoolState, device': PoolState, host: PoolState, r: Range)
    requires Owners(a, device, host) && device.pool != 0
    requires device' == device.(allocations := device'.allocations)
    requires r in device.ToView().live && device'.ToView().live == device.ToView().live - {r}
    ensures r in HeapOf(a, device, host) && HeapOf(a, device', host) == HeapOf(a, device, host) - {r}
  {
    assert Asked(0);
    OwnersCohere(a, device, host);
    RemoveFromPool(ViewOf(a, device, host), r, true);
  }

  lemma HostPoolShrinks(a: Tracker, device: PoolState, host: PoolState, host': PoolState, r: Range)
    requires Owners(a, device, host) && host.pool != 0
    requires host' == host.(allocations := host'.allocations)
    requires r in host.ToView().live && host'.ToView().live == host.ToView().live - {r}
    ensures r in HeapOf(a, device, host) && HeapOf(a, device, host') == HeapOf(a, device, host) - {r}
  {
    assert Asked(0);
    OwnersCohere(a, device, host);
    RemoveFromPool(ViewOf(a, device, host), r, false);
  }

  lemma ManagerShrinks(a: Tracker, b: Tracker, device: PoolState, host: PoolState, r: Range)
    requires Owners(a, device, host) && r in LiveRanges(a) && LiveRanges(b) == LiveRanges(a) - {r}
    requires device.pool != 0 ==> r != device.Backing()
    requires host.pool != 0 ==> r != host.Backing()
    ensures BackingsListed(b, device, host)
    ensures r in HeapOf(a, device, host) && HeapOf(b, device, host) == HeapOf(a, device, host) - {r}
  {
    assert Asked(0);
    OwnersCohere(a, device, host);
    RemoveFromManager(ViewOf(a, device, host), r);
  }

  /* ---- which owner an address of the heap belongs to ---- */

  predicate Contains(q: Range, x: int) {
    q.base <= x < q.base + q.extent
  }

  lemma EntriesLive(p: PoolState)
    ensures forall i :: 0 <= i < |p.allocations| ==> PooledRange(p.allocations[i], p.kind) in p.ToView().live
  {
    PooledMeaning(p.allocations, p.kind);
    forall i | 0 <= i < |p.allocations|
      ensures PooledRange(p.allocations[i], p.kind) in p.ToView().live
    {
      assert p.allocations[i] in p.allocations;
    }
  }

  lemma LiveEntry(p: PoolState, q: Range) returns (i: nat)
    requires q in p.ToView().live
    ensures i < |p.allocations| && PooledRange(p.allocations[i], p.kind) == q
  {
    PooledMeaning(p.allocations, p.kind);
    var e :| e in p.allocations && PooledRange(e, p.kind) == q;
    i :| 0 <= i < |p.allocations| && p.allocations[i] == e;
  }

  /** A pool holds an address exactly when one of its live ranges does, and the entry that
      holds it is that range. */
  lemma PoolHolds(p: PoolState, x: int)
    requires p.Valid()
    ensures Covered(p.allocations, x) <==> exists q :: q in p.ToView().live && Contains(q, x)
    ensures HasBase(p.allocations, x) <==> exists q :: q in p.ToView().live && q.base == x
    ensures forall i :: 0 <= i < |p.allocations| ==> PooledRange(p.allocations[i], p.kind) in p.ToView().live
  {
    EntriesLive(p);
    if Covered(p.allocations, x) {
      var i :| 0 <= i < |p.allocations| && Holds(p.allocations[i], x);
      assert Contains(PooledRange(p.allocations[i], p.kind), x);
    }
    if HasBase(p.allocations, x) {
      var i :| 0 <= i < |p.allocations| && p.allocations[i].ptr == x;
      assert PooledRange(p.allocations[i], p.kind).base == x;
    }
    forall q | q in p.ToView().live
      ensures (Contains(q, x) ==> Covered(p.allocations, x)) && (q.base == x ==> HasBase(p.allocations, x))
    {
      var i := LiveEntry(p, q);
    }
  }

  /** The live range that holds an address, seen from a pool of the heap. */
  lemma PoolOwns(a: Tracker, device: PoolState, host: PoolState, p: PoolState, q: Range, x: int)
    requires Owners(a, device, host) && (p == device || p == host)
    requires q in HeapOf(a, device, host) && Contains(q, x)
    ensures Covered(p.allocations, x) <==> q in p.ToView().live
    ensures q in p.ToView().live ==> forall i :: 0 <= i < |p.allocations| && Holds(p.allocations[i], x) ==>
              PooledRange(p.allocations[i], p.kind) == q
    ensures x == q.base ==> (HasBase(p.allocations, x) <==> q in p.ToView().live)
  {
    assert Asked(0);
    PoolHolds(p, x);
    HeapDisjoint(a, device, host);
    PoolDisjoint(p);
    forall r | r in p.ToView().live && Contains(r, x)
      ensures r == q
    {
      assert r in HeapOf(a, device, host);
    }
    forall r | r in p.ToView().live && r.base == x
      ensures Contains(r, x)
    {
    }
  }

  /** The tracker holds every address of the heap: a pooled one through the backing entry. */
  lemma ManagerHolds(a: Tracker, device: PoolState, host: PoolState, q: Range, x: int)
    requires Owners(a, device, host)
    requires q in HeapOf(a, device, host) && Contains(q, x)
    ensures Covered(a, x)
    ensures forall k :: 0 <= k < |a| && Holds(a[k], x) ==>
      && !a[k].value.isSavedForReuse
      && RangeOf(a[k]) == (if q in device.ToView().live then device.Backing()
          else if q in host.ToView().live then host.Backing() else q)
  {
    assert Asked(0);
    PoolDisjoint(device);
    PoolDisjoint(host);
    var b := if q in device.ToView().live then device.Backing() else if q in host.ToView().live then host.Backing()
        else q;
    assert b in LiveRanges(a) && Contains(b, x);
    LiveMeaning(a);
    var e :| e in a && !e.value.isSavedForReuse && RangeOf(e) == b;
    var m :| 0 <= m < |a| && a[m] == e;
    assert Holds(a[m], x);
    HolderIsUnique(a, m, x);
  }

  /* ---- whole runs ---- */

  /** What one call did to the heap. */
  datatype Event = Got(range: Range) | Lost(base: nat) | Nothing

  ghost function After(heap: set<Range>, e: Event): set<Range> {
    match e
    case Got(r) => heap + {r}
    case Lost(b) => set q | q in heap && q.base != b
    case Nothing => heap
  }

  /** A range is handed out apart from all live ones; only live bases are taken back. */
  ghost predicate Legal(heap: set<Range>, e: Event) {
    match e
    case Got(r) => Added(heap, heap + {r}, r)
    case Lost(b) => exists q :: q in heap && q.base == b
    case Nothing => true
  }

  /** The heap after a run of events. */
  ghost function Replay(heap: set<Range>, trace: seq<Event>): set<Range> {
    if trace == [] then heap else After(Replay(heap, trace[..|trace|-1]), trace[|trace|-1])
  }

  ghost predicate LegalRun(heap: set<Range>, trace: seq<Event>) {
    trace == [] || (LegalRun(heap, trace[..|trace|-1]) && Legal(Replay(heap, trace[..|trace|-1]), trace[|trace|-1]))
  }

  lemma Extend(heap: set<Range>, trace: seq<Event>, e: Event)
    requires LegalRun(heap, trace) && Legal(Replay(heap, trace), e)
    ensures LegalRun(heap, trace + [e]) && Replay(heap, trace + [e]) == After(Replay(heap, trace), e)
  {
  }

  /** Every legal run from a disjoint heap keeps it disjoint at every moment. */
  lemma {:induction false} RunStaysDisjoint(heap: set<Range>, trace: seq<Event>, n: nat)
    requires Disjoint(heap) && LegalRun(heap, trace) && n <= |trace|
    ensures LegalRun(heap, trace[..n]) && Disjoint(Replay(heap, trace[..n]))
    decreases |trace|
  {
    if trace != [] {
      var front := trace[..|trace|-1];
      if n < |trace| {
        RunStaysDisjoint(heap, front, n);
        assert front[..n] == trace[..n];
      } else {
        RunStaysDisjoint(heap, front, |front|);
        assert front[..|front|] == front && trace[..n] == trace;
        var before, e := Replay(heap, front), trace[|trace|-1];
        if e.Got? {
          AddedKeepsDisjoint(before, before + {e.range}, e.range);
        }
      }
    }
  }

  /** Taking a range back undoes handing it out. */
  lemma FreeUndoesAlloc(heap: set<Range>, r: Range)
    requires Disjoint(heap) && Legal(heap, Got(r))
    ensures After(After(heap, Got(r)), Lost(r.base)) == heap
  {
  }

  lemma LostIsAfter(before: set<Range>, after: set<Range>, q: Range)
    requires Disjoint(before) && q in before && after == before - {q}
    ensures after == After(before, Lost(q.base))
  {
  }
}
