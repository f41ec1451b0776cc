/** Setup and teardown of the Level Zero driver: who owns the driver objects, and when they are
    deleted. */
module Teardown {
  import opened Options

  /** A driver object, owned by the process that made it. */
  datatype Driver = Driver(id: nat, pid: nat)

  /** The globals: validity flags, the handle list, which may hold null, and the sysman driver.
      `next` is the identity of the next object, `deleted` the objects deleted so far. */
  datatype World = World(
    coreValid: bool, toolsValid: bool, sysmanValid: bool,
    handles: Option<seq<Option<Driver>>>, sysmanDriver: Option<nat>,
    next: nat, deleted: seq<nat>)

  const START := World(false, false, false, None, None, 0, [])

  /** `Initialize` creates a driver for each device group whose flag is true, and deletes them
      all again when the metric interface is wanted and fails. */
  datatype Op =
    | Setup
    | Initialize(groups: seq<bool>, metricsFail: bool, pid: nat)
    | InitializeSysman
    | TearDown(pid: nat)

  function Ids(hs: seq<Option<Driver>>): seq<nat> {
    if hs == [] then []
    else (if hs[0].Some? then [hs[0].value.id] else []) + Ids(hs[1..])
  }

  /** The drivers of one process, in order. */
  function Own(hs: seq<Option<Driver>>, pid: nat): seq<nat> {
    if hs == [] then []
    else (if hs[0].Some? && hs[0].value.pid == pid then [hs[0].value.id] else []) + Own(hs[1..], pid)
  }

  function Created(groups: seq<bool>, pid: nat, next: nat): seq<Option<Driver>>
    decreases groups
  {
    if groups == [] then []
    else if groups[0] then [Some(Driver(next, pid))] + Created(groups[1..], pid, next + 1)
    else Created(groups[1..], pid, next)
  }

  predicate Enabled(w: World, op: Op) {
    op.Initialize? ==> w.handles.Some?
  }

  function Next(w: World, op: Op): World
    requires Enabled(w, op)
  {
    match op
    case Setup =>
      w.(coreValid := true, toolsValid := true, sysmanValid := true,
         handles := if w.handles.Some? then w.handles else Some([]))
    case Initialize(groups, metricsFail, pid) => WithDrivers(w, Created(groups, pid, w.next), groups != [] &&
        metricsFail)
    case InitializeSysman =>
      if w.sysmanDriver.None? then w.(sysmanDriver := Some(w.next), next := w.next + 1) else w
    case TearDown(pid) => TornDown(w, pid)
  }

  function WithDrivers(w: World, made: seq<Option<Driver>>, failed: bool): World
    requires w.handles.Some?
  {
    var hs := w.handles.value + made;
    if failed && hs != [] then
      w.(handles := Some([]), next := w.next + |made|, deleted := w.deleted + Ids(hs))
    else w.(handles := Some(hs), next := w.next + |made|)
  }

  function TornDown(w: World, pid: nat): World {
    World(
      false, false, false, None, None, w.next,
      w.deleted
      + (if w.handles.Some? then Own(w.handles.value, pid) else [])
      + (if w.sysmanDriver.Some? then [w.sysmanDriver.value] else []))
  }

  /* ---- the objects ---- */

  lemma {:induction false} IdsSplit(a: seq<Option<Driver>>, b: seq<Option<Driver>>)
    ensures multiset(Ids(a + b)) == multiset(Ids(a)) + multiset(Ids(b))
  {
    if a == [] {
      assert a + b == b;
    } else {
      assert (a + b)[1..] == a[1..] + b;
      IdsSplit(a[1..], b);
    }
  }

  /** New drivers have new identities. */
  lemma {:induction false} CreatedIds(groups: seq<bool>, pid: nat, next: nat, x: nat)
    ensures var made := Created(groups, pid, next);
            multiset(Ids(made))[x] == if next <= x < next + |made| then 1 else 0
    decreases groups
  {
    if groups != [] {
      CreatedIds(groups[1..], pid, if groups[0] then next + 1 else next, x);
    }
  }

  /** The drivers of a process are among all drivers, and are exactly those it made. */
  lemma {:induction false} OwnMeaning(hs: seq<Option<Driver>>, pid: nat, x: nat)
    ensures multiset(Own(hs, pid))[x] <= multiset(Ids(hs))[x]
    ensures x in Own(hs, pid) <==> Some(Driver(x, pid)) in hs
  {
    if hs != [] {
      assert hs == [hs[0]] + hs[1..];
      OwnMeaning(hs[1..], pid, x);
    }
  }

  /** The objects that the globals refer to. */
  function Listed(w: World): multiset<nat> {
    (if w.handles.Some? then multiset(Ids(w.handles.value)) else multiset{})
    + (if w.sysmanDriver.Some? then multiset{w.sysmanDriver.value} else multiset{})
  }

  function Seen(w: World): multiset<nat> {
    multiset(w.deleted) + Listed(w)
  }

  ghost predicate Once(m: multiset<nat>, next: nat) {
    forall x: nat :: m[x] <= if x < next then 1 else 0
  }

  /** The three flags agree with each other and with the handle list; every object made so far
      was deleted at most once, and not while the globals refer to it. */
  ghost predicate Inv(w: World) {
    && w.coreValid == w.toolsValid == w.sysmanValid && (w.coreValid <==> w.handles.Some?)
    && Once(Seen(w), w.next)
  }

  /** New drivers are listed, or deleted again. */
  lemma WithDriversSeen(w: World, made: seq<Option<Driver>>, failed: bool)
    requires w.handles.Some?
    ensures Seen(WithDrivers(w, made, failed)) == Seen(w) + multiset(Ids(made))
  {
    var hs := w.handles.value + made;
    IdsSplit(w.handles.value, made);
    SumSplits(Ids(w.handles.value), Ids(made));
    SumSplits(w.deleted, Ids(hs));
    var sysman := if w.sysmanDriver.Some? then multiset{w.sysmanDriver.value} else multiset{};
    Rearranged(multiset(w.deleted), multiset(Ids(w.handles.value)), multiset(Ids(made)), sysman);
    if failed && hs != [] {
      assert Listed(WithDrivers(w, made, failed)) == sysman;
    }
  }

  lemma Rearranged(deleted: multiset<nat>, listed: multiset<nat>, made: multiset<nat>, sysman: multiset<nat>)
    ensures deleted + (listed + made) + sysman == deleted + (listed + sysman) + made
    ensures deleted + (listed + made + sysman) == deleted + (listed + sysman) + made
  {
  }

  lemma SumSplits(a: seq<nat>, b: seq<nat>)
    ensures multiset(a + b) == multiset(a) + multiset(b)
  {
  }

  lemma InitializeKeeps(w: World, groups: seq<bool>, metricsFail: bool, pid: nat)
    requires Inv(w) && w.handles.Some?
    ensures Inv(WithDrivers(w, Created(groups, pid, w.next), metricsFail))
  {
    WithDriversSeen(w, Created(groups, pid, w.next), metricsFail);
    OnceMore(Seen(w), groups, pid, w.next);
  }

  lemma OnceMore(m: multiset<nat>, groups: seq<bool>, pid: nat, next: nat)
    requires Once(m, next)
    ensures Once(m + multiset(Ids(Created(groups, pid, next))), next + |Created(groups, pid, next)|)
  {
    var made := Created(groups, pid, next);
    forall x: nat
      ensures (m + multiset(Ids(made)))[x] <= if x < next + |made| then 1 else 0
    {
      CreatedIds(groups, pid, next, x);
      assert m[x] <= if x < next then 1 else 0;
    }
  }

  /** A teardown deletes only what was listed. */
  lemma TornDownSeen(w: World, pid: nat, x: nat)
    ensures Seen(TornDown(w, pid))[x] <= Seen(w)[x]
  {
    if w.handles.Some? {
      OwnMeaning(w.handles.value, pid, x);
    }
    var d := TornDown(w, pid).deleted;
    assert multiset(d) == multiset(w.deleted)
                          + (if w.handles.Some? then multiset(Own(w.handles.value, pid)) else multiset{})
                          + (if w.sysmanDriver.Some? then multiset{w.sysmanDriver.value} else multiset{});
  }

  lemma TearDownKeeps(w: World, pid: nat)
    requires Inv(w)
    ensures Inv(TornDown(w, pid))
  {
    forall x: nat
      ensures Seen(TornDown(w, pid))[x] <= if x < w.next then 1 else 0
    {
      assert Seen(w)[x] <= if x < w.next then 1 else 0;
      TornDownSeen(w, pid, x);
    }
  }

  lemma NextKeeps(w: World, op: Op)
    requires Inv(w) && Enabled(w, op)
    ensures Inv(Next(w, op))
  {
    match op {
      case Setup =>
        assert Seen(Next(w, op)) == Seen(w);
      case Initialize(groups, metricsFail, pid) =>
        InitializeKeeps(w, groups, groups != [] && metricsFail, pid);
      case InitializeSysman =>
        forall x: nat
          ensures Seen(Next(w, op))[x] <= if x < Next(w, op).next then 1 else 0
        {
          assert Seen(w)[x] <= if x < w.next then 1 else 0;
        }
      case TearDown(pid) =>
        TearDownKeeps(w, pid);
    }
  }

  /* ---- whole runs ---- */

  predicate Legal(w: World, ops: seq<Op>)
    decreases ops
  {
    ops == [] || (Enabled(w, ops[0]) && Legal(Next(w, ops[0]), ops[1..]))
  }

  function Run(w: World, ops: seq<Op>): World
    requires Legal(w, ops)
    decreases ops
  {
    if ops == [] then w else Run(Next(w, ops[0]), ops[1..])
  }

  lemma {:induction false} RunKeeps(w: World, ops: seq<Op>)
    requires Inv(w) && Legal(w, ops)
    ensures Inv(Run(w, ops))
    decreases ops
  {
    if ops != [] {
      NextKeeps(w, ops[0]);
      RunKeeps(Next(w, ops[0]), ops[1..]);
    }
  }

  lemma {:induction false} RunGrows(w: World, ops: seq<Op>, id: nat)
    requires Legal(w, ops)
    ensures multiset(w.deleted)[id] <= multiset(Run(w, ops).deleted)[id]
    decreases ops
  {
    if ops != [] {
      RunGrows(Next(w, ops[0]), ops[1..], id);
    }
  }

  /** In every run the flags are equal and say whether the handle list exists, and no object is
      deleted twice. */
  lemma Ownership(ops: seq<Op>, id: nat)
    requires Legal(START, ops)
    ensures var w := Run(START, ops);
            && w.coreValid == w.toolsValid == w.sysmanValid && (w.coreValid <==> w.handles.Some?)
            && multiset(w.deleted)[id] <= 1
            && (id in w.deleted ==> id !in Listed(w))
  {
    RunKeeps(START, ops);
    var w := Run(START, ops);
    assert Seen(w)[id] <= if id < w.next then 1 else 0;
    assert id in w.deleted ==> multiset(w.deleted)[id] >= 1;
  }

  /** At any point of any run, a teardown deletes each listed driver of the calling process, once,
      and no driver of another process, then or later. */
  lemma TearDownExact(w: World, pid: nat, id: nat, owner: nat, later: seq<Op>)
    requires Inv(w) && w.handles.Some? && Some(Driver(id, owner)) in w.handles.value
    requires Legal(Next(w, TearDown(pid)), later)
    ensures multiset(Run(Next(w, TearDown(pid)), later).deleted)[id] == if owner == pid then 1 else 0
  {
    var w' := Next(w, TearDown(pid));
    TearDownKeeps(w, pid);
    ListedOwner(w, id, owner, pid);
    if owner == pid {
      DeletedOnce(w', id, later);
    } else {
      GoneForGood(w', id, later);
    }
  }

  /** The sysman driver is deleted once by whatever process tears down, and never again. */
  lemma SysmanTornDown(w: World, pid: nat, id: nat, later: seq<Op>)
    requires Inv(w) && w.sysmanDriver == Some(id) && Legal(Next(w, TearDown(pid)), later)
    ensures multiset(Run(Next(w, TearDown(pid)), later).deleted)[id] == 1
  {
    var w' := Next(w, TearDown(pid));
    TearDownKeeps(w, pid);
    assert w'.deleted[|w'.deleted| - 1] == id;
    assert multiset(w'.deleted)[id] >= 1;
    assert Seen(w')[id] <= if id < w'.next then 1 else 0;
    DeletedOnce(w', id, later);
  }

  /** A driver for each group that has one, in order, of the calling process, numbered on. */
  lemma {:induction false} CreatedExact(groups: seq<bool>, pid: nat, next: nat)
    ensures |Created(groups, pid, next)| == multiset(groups)[true]
    ensures forall j :: 0 <= j < |Created(groups, pid, next)| ==>
              Created(groups, pid, next)[j] == Some(Driver(next + j, pid))
    decreases groups
  {
    if groups != [] {
      assert groups == [groups[0]] + groups[1..];
      CreatedExact(groups[1..], pid, if groups[0] then next + 1 else next);
    }
  }

  /** A listed driver has one owner, and was not deleted before. */
  lemma ListedOwner(w: World, id: nat, owner: nat, pid: nat)
    requires Inv(w) && w.handles.Some? && Some(Driver(id, owner)) in w.handles.value
    ensures id < w.next && multiset(TornDown(w, pid).deleted)[id] == if owner == pid then 1 else 0
  {
    var hs := w.handles.value;
    assert Seen(w)[id] <= if id < w.next then 1 else 0;
    OneOwner(hs, id, owner, pid);
    OwnMeaning(hs, pid, id);
    assert multiset(Own(hs, pid))[id] > 0 <==> id in Own(hs, pid);
  }

  lemma {:induction false} OneOwner(hs: seq<Option<Driver>>, id: nat, owner: nat, pid: nat)
    requires Some(Driver(id, owner)) in hs && multiset(Ids(hs))[id] <= 1
    ensures Some(Driver(id, pid)) in hs ==> pid == owner
    ensures multiset(Ids(hs))[id] == 1
  {
    var rest := hs[1..];
    assert hs == [hs[0]] + rest;
    OwnMeaning(rest, owner, id);
    OwnMeaning(rest, pid, id);
    if Some(Driver(id, owner)) in rest {
      OneOwner(rest, id, owner, pid);
    }
  }

  lemma DeletedOnce(w: World, id: nat, ops: seq<Op>)
    requires Inv(w) && Legal(w, ops) && multiset(w.deleted)[id] == 1
    ensures multiset(Run(w, ops).deleted)[id] == 1
  {
    RunKeeps(w, ops);
    RunGrows(w, ops, id);
    var w' := Run(w, ops);
    assert Seen(w')[id] <= if id < w'.next then 1 else 0;
  }

  /** An object that nothing refers to is never deleted. */
  lemma {:induction false} GoneForGood(w: World, id: nat, ops: seq<Op>)
    requires Inv(w) && Legal(w, ops) && Seen(w)[id] == 0 && id < w.next
    ensures multiset(Run(w, ops).deleted)[id] == 0
    decreases ops
  {
    if ops != [] {
      NextKeeps(w, ops[0]);
      StaysGone(w, id, ops[0]);
      GoneForGood(Next(w, ops[0]), id, ops[1..]);
    }
  }

  /** The object was seen no more often after the step, and its identity is not given out again. */
  ghost predicate Fades(w: World, w': World, id: nat) {
    Seen(w')[id] <= Seen(w)[id] && w.next <= w'.next
  }

  lemma SetUpFades(w: World, id: nat)
    ensures Fades(w, Next(w, Setup), id)
  {
    assert Seen(Next(w, Setup)) == Seen(w);
  }

  lemma SysmanFades(w: World, id: nat)
    requires id < w.next
    ensures Fades(w, Next(w, InitializeSysman), id)
  {
    assert Seen(Next(w, InitializeSysman)) == Seen(w) + if w.sysmanDriver.None? then multiset{w.next} else multiset{};
  }

  lemma InitializeFades(w: World, groups: seq<bool>, metricsFail: bool, pid: nat, id: nat)
    requires w.handles.Some? && id < w.next
    ensures Fades(w, Next(w, Initialize(groups, metricsFail, pid)), id)
  {
    var made := Created(groups, pid, w.next);
    WithDriversSeen(w, made, groups != [] && metricsFail);
    CreatedIds(groups, pid, w.next, id);
  }

  lemma TearDownFades(w: World, pid: nat, id: nat)
    ensures Fades(w, Next(w, TearDown(pid)), id)
  {
    TornDownSeen(w, pid, id);
  }

  lemma StaysGone(w: World, id: nat, op: Op)
    requires Enabled(w, op) && id < w.next
    ensures Fades(w, Next(w, op), id)
  {
    match op {
      case Setup => SetUpFades(w, id);
      case Initialize(groups, metricsFail, pid) => InitializeFades(w, groups, metricsFail, pid, id);
      case InitializeSysman => SysmanFades(w, id);
      case TearDown(pid) => TearDownFades(w, pid, id);
    }
  }

  /** A teardown right after a teardown deletes nothing and changes nothing. */
  lemma TearDownTwice(w: World, pid: nat, pid': nat)
    ensures var w' := Next(w, TearDown(pid)); Next(w', TearDown(pid')) == w'
  {
  }

  /* ---- the calls in place ---- */

  class GlobalDriver {
    var coreValid: bool
    var toolsValid: bool
    var sysmanValid: bool
    var handles: Option<seq<Option<Driver>>>
    var sysmanDriver: Option<nat>
    var next: nat
    var deleted: seq<nat>

    ghost function State(): World
      reads this
    {
      World(coreValid, toolsValid, sysmanValid, handles, sysmanDriver, next, deleted)
    }

    /** globalDriverSetup. */
    method SetUp()
      modifies this
      ensures State() == Next(old(State()), Setup)
      ensures coreValid && toolsValid && sysmanValid && deleted == old(deleted)
      ensures handles == if old(handles).None? then Some([]) else old(handles)
    {
      coreValid := true;
      toolsValid := true;
      sysmanValid := true;
      if handles.None? {
        handles := Some([]);
      }
    }

    /** DriverImp::initialize: a driver per device group that has one. */
    method InitializeDrivers(groups: seq<bool>, metricsFail: bool, pid: nat)
      requires handles.Some?
      modifies this
      ensures State() == Next(old(State()), Initialize(groups, metricsFail, pid))
      ensures handles.Some? && next == old(next) + multiset(groups)[true]
      ensures !metricsFail || groups == [] ==>
                && deleted == old(deleted)
                && |handles.value| == |old(handles).value| + multiset(groups)[true]
                && old(handles).value <= handles.value
                && forall j :: |old(handles).value| <= j < |handles.value| ==>
                     handles.value[j] == Some(Driver(old(next) + j - |old(handles).value|, pid))
      ensures metricsFail && groups != [] ==> handles.value == []
    {
      CreatedExact(groups, pid, next);
      var list := AddDrivers(groups, pid);
      if groups != [] && metricsFail && list != [] {
        deleted := deleted + Ids(list);
        list := [];
      }
      handles := Some(list);
    }

    method AddDrivers(groups: seq<bool>, pid: nat) returns (list: seq<Option<Driver>>)
      requires handles.Some?
      modifies this`next
      ensures var made := Created(groups, pid, old(next)); list == handles.value + made && next == old(next) + |made|
    {
      list := handles.value;
      ghost var first := next;
      var i := 0;
      assert groups[0..] == groups;
      while i < |groups|
        invariant 0 <= i <= |groups|
        invariant list + Created(groups[i..], pid, next) == handles.value + Created(groups, pid, first)
        invariant next + |Created(groups[i..], pid, next)| == first + |Created(groups, pid, first)|
      {
        assert groups[i..][0] == groups[i] && groups[i..][1..] == groups[i + 1..];
        if groups[i] {
          list := list + [Some(Driver(next, pid))];
          next := next + 1;
        }
        i := i + 1;
      }
    }

    /** globalDriverTeardown, called in process `pid`. */
    method Shut(pid: nat)
      modifies this
      ensures State() == Next(old(State()), TearDown(pid))
      ensures !coreValid && !toolsValid && !sysmanValid && handles.None? && sysmanDriver.None? && next == old(next)
      ensures old(sysmanDriver).Some? ==> deleted != [] && deleted[|deleted| - 1] == old(sysmanDriver).value
      ensures old(handles).None? && old(sysmanDriver).None? ==> deleted == old(deleted)
    {
      if handles.Some? {
        DeleteOwn(handles.value, pid);
        handles := None;
      }
      if sysmanDriver.Some? {
        deleted := deleted + [sysmanDriver.value];
        sysmanDriver := None;
      }
      coreValid := false;
      toolsValid := false;
      sysmanValid := false;
    }

    method DeleteOwn(list: seq<Option<Driver>>, pid: nat)
      modifies this`deleted
      ensures deleted == old(deleted) + Own(list, pid)
    {
      var i := 0;
      assert list[0..] == list;
      while i < |list|
        invariant 0 <= i <= |list|
        invariant deleted + Own(list[i..], pid) == old(deleted) + Own(list, pid)
      {
        assert list[i..][0] == list[i] && list[i..][1..] == list[i + 1..];
        if list[i].Some? && list[i].value.pid == pid {
          deleted := deleted + [list[i].value.id];
        }
        i := i + 1;
      }
    }
  }
}
