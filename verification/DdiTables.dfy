/** Dispatch-table negotiation: slots are filled by version, a copy of the table is saved for the
    tracing wrappers to call through, then the wrappers are laid over the caller's table. */
module DdiTables {
  import opened Options

  type Version = nat

  const VERSION_1_0: Version := 0x10000
  const DRIVER_VERSION: Version := 0x1000D

  function Major(v: Version): nat {
    v / 0x10000
  }

  /** A version the driver negotiates. */
  predicate Supported(v: Version) {
    Major(v) == Major(DRIVER_VERSION)
  }

  /** What a slot points to: the driver's own function of a slot, its tracing wrapper, nothing,
      or something the caller had put there. */
  datatype Entry = Null | Plain(kind: nat, slot: nat) | Tracing(kind: nat, slot: nat) | Other(address: nat)

  /** The version a slot requires, and that of its wrapper if it has one. */
  datatype Slot = Slot(required: Version, wrapper: Option<Version>)

  /** A table: whether a copy is saved, and whether the tracing setting is read. */
  datatype Layout = Layout(slots: seq<Slot>, saved: bool, traced: bool)

  type Table = seq<Entry>

  /** fillDdiEntry. */
  function Fill(entry: Entry, f: Entry, loader: Version, required: Version): Entry {
    if loader >= required then f else entry
  }

  function Filled(t: Table, kind: nat, l: Layout, v: Version): (r: Table)
    requires |t| == |l.slots|
    ensures |r| == |t| && forall i :: 0 <= i < |t| ==> r[i] == Fill(t[i], Plain(kind, i), v, l.slots[i].required)
  {
    seq(|t|, i requires 0 <= i < |t| => Fill(t[i], Plain(kind, i), v, l.slots[i].required))
  }

  function Overlay(e: Entry, kind: nat, i: nat, s: Slot, v: Version): Entry {
    if s.wrapper.Some? then Fill(e, Tracing(kind, i), v, s.wrapper.value) else e
  }

  function Overlaid(t: Table, kind: nat, l: Layout, v: Version): (r: Table)
    requires |t| == |l.slots|
    ensures |r| == |t| && forall i :: 0 <= i < |t| ==> r[i] == Overlay(t[i], kind, i, l.slots[i], v)
  {
    seq(|t|, i requires 0 <= i < |t| => Overlay(t[i], kind, i, l.slots[i], v))
  }

  /** The caller's table after a call. */
  function Given(t: Table, kind: nat, l: Layout, v: Version, tracing: bool): (r: Table)
    requires |t| == |l.slots|
    ensures |r| == |t|
  {
    if l.traced && tracing then Overlaid(Filled(t, kind, l, v), kind, l, v) else Filled(t, kind, l, v)
  }

  /* ---- versions ---- */

  function Nulls(n: nat): (t: Table)
    ensures |t| == n && forall i :: 0 <= i < n ==> t[i] == Null
  {
    seq(n, _ => Null)
  }

  predicate WrappersMatch(l: Layout) {
    forall i :: 0 <= i < |l.slots| && l.slots[i].wrapper.Some? ==> l.slots[i].required == l.slots[i].wrapper.value
  }

  /** On fresh tables an older loader gets the newer loader's table, restricted to the slots
      that it knows, with or without tracing. */
  lemma VersionMonotone(kind: nat, l: Layout, v1: Version, v2: Version, tracing: bool)
    requires v1 <= v2 && (tracing ==> WrappersMatch(l))
    ensures var n := Nulls(|l.slots|);
            forall i :: 0 <= i < |l.slots| ==>
              Given(n, kind, l, v1, tracing)[i] == if l.slots[i].required <= v1 then Given(n, kind, l, v2, tracing)[i]
                  else Null
  {
  }

  /** Where no wrapper is offered to loaders that do not know the function, tracing fills the same slots. */
  lemma TracingFillsTheSame(kind: nat, l: Layout, v: Version, i: nat)
    requires i < |l.slots| && (l.slots[i].wrapper.Some? ==> l.slots[i].required <= l.slots[i].wrapper.value)
    ensures var n := Nulls(|l.slots|);
            Given(n, kind, l, v, true)[i] == Null <==> Given(n, kind, l, v, false)[i] == Null
  {
  }

  /* ---- runs of loader calls ---- */

  datatype Call = Call(table: Option<nat>, version: Version, tracing: bool)

  /** The caller's tables, each of one kind, and what the driver keeps. */
  datatype World = World(kinds: seq<nat>, tables: seq<Table>, saved: seq<Table>, enableTracing: bool)

  datatype Code = SUCCESS | INVALID_ARGUMENT | UNSUPPORTED_VERSION

  ghost predicate Shaped(w: World, layouts: seq<Layout>) {
    && |w.kinds| == |w.tables| && |w.saved| == |layouts|
    && (forall t :: 0 <= t < |w.tables| ==> w.kinds[t] < |layouts| && |w.tables[t]| == |layouts[w.kinds[t]].slots|)
    && (forall k :: 0 <= k < |layouts| ==> |w.saved[k]| == |layouts[k].slots|)
  }

  function CodeOf(c: Call): Code {
    if c.table.None? then INVALID_ARGUMENT
    else if !Supported(c.version) then UNSUPPORTED_VERSION
    else SUCCESS
  }

  ghost predicate Callable(w: World, c: Call) {
    c.table.Some? ==> c.table.value < |w.tables|
  }

  ghost function Step(w: World, layouts: seq<Layout>, c: Call): (w': World)
    requires Shaped(w, layouts) && Callable(w, c)
    ensures Shaped(w', layouts) && w'.kinds == w.kinds
  {
    if CodeOf(c) != SUCCESS then w
    else
      var t := c.table.value;
      var k := w.kinds[t];
      var l := layouts[k];
      World(
        w.kinds,
        w.tables[t := Given(w.tables[t], k, l, c.version, c.tracing)],
        if l.saved then w.saved[k := Filled(w.tables[t], k, l, c.version)] else w.saved,
        if l.traced then c.tracing else w.enableTracing)
  }

  ghost predicate AllCallable(n: nat, calls: seq<Call>) {
    forall i :: 0 <= i < |calls| && calls[i].table.Some? ==> calls[i].table.value < n
  }

  ghost function Run(w: World, layouts: seq<Layout>, calls: seq<Call>): (w': World)
    requires Shaped(w, layouts) && AllCallable(|w.tables|, calls)
    ensures Shaped(w', layouts)
    decreases calls
  {
    if calls == [] then w
    else
      assert Callable(w, calls[0]);
      Run(Step(w, layouts, calls[0]), layouts, calls[1..])
  }

  /* ---- no self-capture ---- */

  /** Every slot that has a wrapper is filled for every supported version, and copies are saved
      of all traced tables. */
  predicate Safe(l: Layout) {
    forall i :: 0 <= i < |l.slots| && l.slots[i].wrapper.Some? ==>
      l.saved && l.slots[i].required <= Major(DRIVER_VERSION) * 0x10000
  }

  predicate AllSafe(layouts: seq<Layout>) {
    forall k :: 0 <= k < |layouts| ==> Safe(layouts[k])
  }

  /** A caller's entry: a wrapper only in its own slot of a table with wrappers, and then the
      saved copy has the function to call. */
  ghost predicate EntryOk(e: Entry, k: nat, i: nat, l: Layout, saved: Table) {
    e.Tracing? ==>
        e == Tracing(k, i) && i < |l.slots| && l.slots[i].wrapper.Some? && i < |saved| && saved[i] == Plain(k, i)
  }

  ghost predicate TableOk(t: Table, k: nat, l: Layout, saved: Table) {
    forall i :: 0 <= i < |t| ==> EntryOk(t[i], k, i, l, saved)
  }

  ghost predicate SavedOk(saved: Table) {
    forall i :: 0 <= i < |saved| ==> !saved[i].Tracing?
  }

  ghost predicate Inv(w: World, layouts: seq<Layout>) {
    && Shaped(w, layouts)
    && (forall k :: 0 <= k < |layouts| ==> SavedOk(w.saved[k]))
    && (forall t :: 0 <= t < |w.tables| ==> TableOk(w.tables[t], w.kinds[t], layouts[w.kinds[t]], w.saved[w.kinds[t]]))
  }

  lemma StepKeeps(w: World, layouts: seq<Layout>, c: Call, w': World)
    requires Inv(w, layouts) && AllSafe(layouts) && Callable(w, c) && w' == Step(w, layouts, c)
    ensures Inv(w', layouts)
  {
  }

  lemma {:induction false} RunKeeps(w: World, layouts: seq<Layout>, calls: seq<Call>)
    requires Inv(w, layouts) && AllSafe(layouts) && AllCallable(|w.tables|, calls)
    ensures Inv(Run(w, layouts, calls), layouts)
    decreases calls
  {
    if calls != [] {
      assert Callable(w, calls[0]);
      StepKeeps(w, layouts, calls[0], Step(w, layouts, calls[0]));
      RunKeeps(Step(w, layouts, calls[0]), layouts, calls[1..]);
    }
  }

  /** The driver and its callers before the first call: no wrapper anywhere. */
  ghost predicate Initial(w: World, layouts: seq<Layout>) {
    && Shaped(w, layouts)
    && (forall k :: 0 <= k < |w.saved| ==> SavedOk(w.saved[k]))
    && (forall t :: 0 <= t < |w.tables| ==> SavedOk(w.tables[t]))
  }

  lemma InitialInv(w: World, layouts: seq<Layout>)
    requires Initial(w, layouts)
    ensures Inv(w, layouts)
  {
  }

  /** In every run of loader calls, with any versions, any tracing settings and tables used again
      and again, no slot of the saved copies ever holds a wrapper. */
  lemma NoSelfCapture(w: World, layouts: seq<Layout>, calls: seq<Call>, k: nat, i: nat)
    requires Initial(w, layouts) && AllSafe(layouts) && AllCallable(|w.tables|, calls)
    requires k < |layouts| && i < |layouts[k].slots|
    ensures !Run(w, layouts, calls).saved[k][i].Tracing?
  {
    InitialInv(w, layouts);
    RunKeeps(w, layouts, calls);
    assert SavedOk(Run(w, layouts, calls).saved[k]);
  }

  /** What a call of an entry ends up in: a wrapper calls what the saved copy holds. */
  ghost function Resolved(w: World, e: Entry): Entry {
    if e.Tracing? && e.kind < |w.saved| && e.slot < |w.saved[e.kind]| then w.saved[e.kind][e.slot] else e
  }

  /** Any wrapper in any caller's table, new or old, calls the driver's function of its slot. */
  lemma WrappersResolve(w: World, layouts: seq<Layout>, calls: seq<Call>, t: nat, i: nat)
    requires Initial(w, layouts) && AllSafe(layouts) && AllCallable(|w.tables|, calls)
    requires var w' := Run(w, layouts, calls); t < |w'.tables| && i < |w'.tables[t]| && w'.tables[t][i].Tracing?
    ensures var w' := Run(w, layouts, calls); Resolved(w', w'.tables[t][i]) == Plain(w'.kinds[t], i)
  {
    InitialInv(w, layouts);
    RunKeeps(w, layouts, calls);
    var w' := Run(w, layouts, calls);
    assert TableOk(w'.tables[t], w'.kinds[t], layouts[w'.kinds[t]], w'.saved[w'.kinds[t]]);
    assert EntryOk(w'.tables[t][i], w'.kinds[t], i, layouts[w'.kinds[t]], w'.saved[w'.kinds[t]]);
  }

  /** The condition is needed: a wrapper over a slot that requires a later version is captured
      when a table filled by a new loader is filled again by an old one. */
  lemma UnsafeCaptures(l: Layout, i: nat, w: World, v: Version)
    requires l.saved && l.traced && i < |l.slots| && l.slots[i].wrapper.Some? && l.slots[i].required > VERSION_1_0
    requires Supported(v) && v >= l.slots[i].required && v >= l.slots[i].wrapper.value
    requires Initial(w, [l]) && |w.tables| == 1
    ensures var calls := [Call(Some(0), v, true), Call(Some(0), VERSION_1_0, true)];
            AllCallable(|w.tables|, calls) && Run(w, [l], calls).saved[0][i] == Tracing(0, i)
  {
    var c1, c2 := Call(Some(0), v, true), Call(Some(0), VERSION_1_0, true);
    var calls := [c1, c2];
    assert Supported(VERSION_1_0);
    var w1 := Step(w, [l], c1);
    assert w1.tables[0][i] == Tracing(0, i);
    RunTwo(w, [l], c1, c2);
  }

  lemma RunTwo(w: World, layouts: seq<Layout>, c1: Call, c2: Call)
    requires Shaped(w, layouts) && Callable(w, c1) && Callable(w, c2)
    ensures AllCallable(|w.tables|, [c1, c2]) && Callable(Step(w, layouts, c1), c2)
    ensures Run(w, layouts, [c1, c2]) == Step(Step(w, layouts, c1), layouts, c2)
  {
    var w1 := Step(w, layouts, c1);
    assert [c1, c2][1..] == [c2];
    assert Run(w1, layouts, [c2]) == Step(w1, layouts, c2) by {
      assert [c2][1..] == [];
    }
  }

  /* ---- the tables of the core loader ---- */

  /** A table by its traced slots, all of which require version 1.0, the minor versions of the
      other slots, and whether it is saved. */
  datatype Shape = Shape(traced: nat, minors: seq<nat>, saved: bool)

  function LayoutOf(s: Shape): (l: Layout)
    ensures |l.slots| == s.traced + |s.minors| && l.saved == s.saved && l.traced == (s.traced > 0)
    ensures forall i :: 0 <= i < s.traced ==> l.slots[i] == Slot(VERSION_1_0, Some(VERSION_1_0))
    ensures forall i :: s.traced <= i < |l.slots| ==> l.slots[i] == Slot(VERSION_1_0 + s.minors[i - s.traced], None)
  {
    Layout(
      seq(s.traced, _ => Slot(VERSION_1_0, Some(VERSION_1_0)))
      + seq(|s.minors|, i requires 0 <= i < |s.minors| => Slot(VERSION_1_0 + s.minors[i], None)),
      s.saved,
      s.traced > 0)
  }

  const CORE: seq<Shape> := [
    Shape(5, [1, 6], true),                                  // Driver
    Shape(9, [3, 6, 9], true),                               // Mem
    Shape(8, [1], true),                                     // Context
    Shape(2, [], true),                                      // PhysicalMem
    Shape(7, [], true),                                      // VirtualMem
    Shape(1, [10], true),                                    // Global
    Shape(14, [1, 2, 2, 3, 7, 12, 12, 13], true),            // Device
    Shape(0, [4], true),                                     // DeviceExp
    Shape(4, [9, 9], true),                                  // CommandQueue
    Shape(26, [0, 3, 3, 9, 9, 9, 9, 9, 12, 12], true),       // CommandList
    Shape(0, [9, 9, 9, 9, 9, 9, 10, 10], false),             // CommandListExp
    Shape(5, [], true),                                      // Fence
    Shape(5, [6, 9, 9], true),                               // EventPool
    Shape(7, [6, 9, 9, 9], true),                            // Event
    Shape(0, [2], false),                                    // EventExp
    Shape(3, [3, 5], true),                                  // Image
    Shape(8, [3], true),                                     // Module
    Shape(2, [], true),                                      // ModuleBuildLog
    Shape(12, [], true),                                     // Kernel
    Shape(2, [], true),                                      // Sampler
    Shape(0, [1, 2, 11], true),                              // KernelExp
    Shape(0, [6, 6, 7, 7], true),                            // MemExp
    Shape(0, [2, 2, 9], true),                               // ImageExp
    Shape(0, [4, 4, 4, 4], true),                            // FabricVertexExp
    Shape(0, [4, 4, 4], true),                               // FabricEdgeExp
    Shape(0, [7], true),                                     // DriverExp
    Shape(0, [7, 7, 7, 7], true),                            // RTASParallelOperationExp
    Shape(0, [7, 7, 7, 7], true)]                            // RTASBuilderExp

  function CoreLayouts(): (ls: seq<Layout>)
    ensures |ls| == |CORE| && forall k :: 0 <= k < |CORE| ==> ls[k] == LayoutOf(CORE[k])
  {
    seq(|CORE|, k requires 0 <= k < |CORE| => LayoutOf(CORE[k]))
  }

  /** The tables of the core loader meet the condition. */
  lemma CoreSafe()
    ensures AllSafe(CoreLayouts()) && forall k :: 0 <= k < |CORE| ==> WrappersMatch(CoreLayouts()[k])
  {
  }

  /** Every traced slot of every core table holds its wrapper after a traced call, whatever supported
      version asked, and its own function after one that is not traced; the copy holds the function. */
  lemma CoreTraced(w: World, t: nat, v: Version, i: nat)
    requires Shaped(w, CoreLayouts()) && t < |w.tables| && i < CORE[w.kinds[t]].traced && Supported(v)
    ensures var k, w' := w.kinds[t], Step(w, CoreLayouts(), Call(Some(t), v, true));
            && w'.tables[t][i] == Tracing(k, i) && w'.enableTracing
            && (CORE[k].saved ==> w'.saved[k][i] == Plain(k, i))
    ensures Step(w, CoreLayouts(), Call(Some(t), v, false)).tables[t][i] == Plain(w.kinds[t], i)
  {
  }

  /** All core tables with wrappers are saved, so every wrapper has a function to call. */
  lemma CoreSaved(k: nat)
    requires k < |CORE| && CORE[k].traced > 0
    ensures CORE[k].saved && CoreLayouts()[k].saved && CoreLayouts()[k].traced
  {
  }

  /* ---- the loader itself ---- */

  class Loader {
    const layouts: seq<Layout>
    var saved: seq<Table>
    var enableTracing: bool

    ghost predicate Valid()
      reads this
    {
      |saved| == |layouts| && forall k :: 0 <= k < |layouts| ==> |saved[k]| == |layouts[k].slots|
    }

    /** The loader and the callers' tables form the world `w`, `table` being table `t`. */
    ghost predicate Within(w: World, t: nat, k: nat, table: array?<Entry>)
      reads this, table
    {
      && Shaped(w, layouts) && w.saved == saved && w.enableTracing == enableTracing
      && t < |w.tables| && w.kinds[t] == k && (table != null ==> w.tables[t] == table[..])
    }

    /** zeGet*ProcAddrTable, for the table of kind `k`.  In any world it is the step that the
        runs are made of. */
    method GetProcAddrTable(k: nat, version: Version, table: array?<Entry>, env: bool, ghost w: World, ghost t: nat)
        returns (code: Code)
      requires Valid() && k < |layouts| && (table != null ==> table.Length == |layouts[k].slots|) &&
                Within(w, t, k, table)
      modifies this, table
      ensures var c := Call(if table == null then None else Some(t), version, env);
              code == CodeOf(c) && Within(Step(w, layouts, c), t, k, table)
      ensures Valid()
      ensures table == null <==> code == INVALID_ARGUMENT
      ensures table != null && !(0x1_0000 <= version < 0x2_0000) <==> code == UNSUPPORTED_VERSION
      ensures code == SUCCESS ==>
                forall i :: 0 <= i < table.Length ==>
                  var s := layouts[k].slots[i];
                  table[i] == if layouts[k].traced && env && s.wrapper.Some? && version >= s.wrapper.value then
                                Tracing(k, i)
                              else if version >= s.required then Plain(k, i)
                              else old(table[i])
      ensures code == SUCCESS && layouts[k].saved ==>
                forall i :: 0 <= i < table.Length ==>
                  saved[k][i] == if version >= layouts[k].slots[i].required then Plain(k, i) else old(table[i])
      ensures code != SUCCESS ==>
                && saved == old(saved) && enableTracing == old(enableTracing)
                && (table != null ==> table[..] == old(table[..]))
      ensures code == SUCCESS ==>
                var l := layouts[k];
                && table != null && table[..] == Given(old(table[..]), k, l, version, env)
                && saved == (if l.saved then old(saved)[k := Filled(old(table[..]), k, l, version)] else old(saved))
                && enableTracing == (if l.traced then env else old(enableTracing))
    {
      if table == null {
        return INVALID_ARGUMENT;
      }
      if Major(DRIVER_VERSION) != Major(version) {
        return UNSUPPORTED_VERSION;
      }
      var l := layouts[k];
      if l.traced {
        enableTracing := env;
      }
      FillTable(k, l, version, table);
      if l.saved {
        saved := saved[k := table[..]];
      }
      if l.traced && enableTracing {
        OverlayTable(k, l, version, table);
      }
      code := SUCCESS;
    }

    method FillTable(k: nat, l: Layout, version: Version, table: array<Entry>)
      requires table.Length == |l.slots|
      modifies table
      ensures table[..] == Filled(old(table[..]), k, l, version)
    {
      ghost var was := table[..];
      for i := 0 to table.Length
        invariant forall q :: 0 <= q < i ==> table[q] == Filled(was, k, l, version)[q]
        invariant forall q :: i <= q < table.Length ==> table[q] == was[q]
      {
        if version >= l.slots[i].required {
          table[i] := Plain(k, i);
        }
      }
    }

    method OverlayTable(k: nat, l: Layout, version: Version, table: array<Entry>)
      requires table.Length == |l.slots|
      modifies table
      ensures table[..] == Overlaid(old(table[..]), k, l, version)
    {
      ghost var was := table[..];
      for i := 0 to table.Length
        invariant forall q :: 0 <= q < i ==> table[q] == Overlaid(was, k, l, version)[q]
        invariant forall q :: i <= q < table.Length ==> table[q] == was[q]
      {
        if l.slots[i].wrapper.Some? && version >= l.slots[i].wrapper.value {
          table[i] := Tracing(k, i);
        }
      }
    }
  }
}
