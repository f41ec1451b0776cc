/** User events and the commands that wait for events, over whole runs of calls. */
module UserEvents {
  import opened Collections
  import opened ClTypes
  import opened EventGraph

  type Waits = set<(nat, nat)>

  /** All events of a program: `users` are its user events, `waits` the pairs (event, command)
      of all links ever made, events from `next` on do not exist yet, and those in `gone` do not
      any more. */
  datatype World = World(g: Graph, users: set<nat>, waits: Waits, next: nat, gone: set<nat>)

  const NOTHING := World(Graph(map[], map[], map[]), {}, {}, 0, {})

  datatype Op =
    | NewUserEvent
    | SetUserEventStatus(e: nat, s: int)
    | Enqueue(parents: seq<nat>, late: set<nat>)
    | Finish(e: nat)
    | Destroy(e: nat)

  /* ---- one call, on values ---- */

  function Fresh(g: Graph, e: nat): Graph {
    g.(status := g.status[e := CL_QUEUED])
  }

  /** clSetUserEventStatus. */
  function SetCode(w: World, e: nat, s: int): ClCode {
    if e !in w.users then CL_INVALID_EVENT
    else if s > CL_COMPLETE then CL_INVALID_VALUE
    else if w.g.St(e) != CL_QUEUED then CL_INVALID_OPERATION
    else CL_SUCCESS
  }

  /** What clGetEventInfo reports of a user event: the initial status counts as submitted. */
  function Reported(w: World, e: nat): int {
    if w.g.St(e) == CL_QUEUED then CL_SUBMITTED else w.g.St(e)
  }

  datatype Build = Build(g: Graph, waits: Waits)

  /** Parents that are submitted or complete need no link; `late` are those that get one all the
      same, because their status changed under the builder. */
  predicate NeedsLink(g: Graph, p: nat, late: set<nat>) {
    g.St(p) == CL_QUEUED || g.St(p) < 0 || p in late
  }

  function AddParents(b: Build, ps: seq<nat>, c: nat, late: set<nat>): Build
    decreases ps
  {
    if ps == [] then b
    else if NeedsLink(b.g, ps[0], late) then AddParents(Build(AddChild(b.g, ps[0], c), b.waits + {(ps[0], c)}),
        ps[1..], c, late)
    else AddParents(b, ps[1..], c, late)
  }

  function Dedup(ps: seq<nat>): (r: seq<nat>)
    ensures NoRepeats(r) && forall p :: p in r <==> p in ps
  {
    if ps == [] then []
    else
      var n := |ps| - 1;
      assert ps == ps[..n] + [ps[n]];
      var r := Dedup(ps[..n]);
      if ps[n] in r then r else r + [ps[n]]
  }

  /** EventBuilder::finalize for command event `next + 1`, with `next` as its sentinel. */
  function Start(w: World): Build {
    var q, c := w.next, w.next + 1;
    Build(AddChild(Fresh(Fresh(w.g, q), c), q, c), w.waits + {(q, c)})
  }

  predicate Known(list: seq<nat>, next: nat) {
    forall i :: 0 <= i < |list| ==> list[i] < next
  }

  /** The events of the list exist. */
  predicate Usable(list: seq<nat>, next: nat, gone: set<nat>) {
    Known(list, next) && forall i :: 0 <= i < |list| ==> list[i] !in gone
  }

  function Enqueued(w: World, b: Build): World {
    World(SetStatus(b.g, w.next, CL_COMPLETE), w.users, b.waits, w.next + 2, w.gone)
  }

  /** The last reference to the event may be dropped: no link to it is left. */
  predicate MayGo(w: World, e: nat) {
    e < w.next && e !in w.gone && w.g.Count(e) == 0
  }

  function Next(w: World, op: Op): World {
    match op
    case NewUserEvent => World(Fresh(w.g, w.next), w.users + {w.next}, w.waits, w.next + 1, w.gone)
    case SetUserEventStatus(e, s) =>
      if SetCode(w, e, s) == CL_SUCCESS then w.(g := SetStatus(w.g, e, s)) else w
    case Enqueue(parents, late) =>
      if Usable(parents, w.next, w.gone) then Enqueued(w, AddParents(Start(w), Dedup(parents), w.next + 1, late)) else w
    case Finish(e) =>
      if e !in w.users && w.g.St(e) == CL_SUBMITTED then w.(g := SetStatus(w.g, e, CL_COMPLETE)) else w
    case Destroy(e) =>
      if MayGo(w, e) then World(Destroyed(w.g, e), w.users - {e}, w.waits, w.next, w.gone + {e}) else w
  }

  function Run(w: World, ops: seq<Op>): World
    decreases ops
  {
    if ops == [] then w else Run(Next(w, ops[0]), ops[1..])
  }

  /* ---- the invariant ---- */

  /** Links lead to existing events that are not user events. */
  ghost predicate Tidy(g: Graph, users: set<nat>, next: nat) {
    && (forall p: nat :: Commands(g.Ch(p), users, next))
    && (forall x: nat :: x >= next ==> x !in g.status && g.Ch(x) == [])
    && (forall u :: u in users ==> u in g.status)
  }

  ghost predicate Commands(list: seq<nat>, users: set<nat>, next: nat) {
    forall i :: 0 <= i < |list| ==> list[i] < next && list[i] !in users
  }

  ghost predicate WorldInv(w: World) {
    && Inv(w.g, w.waits) && Tidy(w.g, w.users, w.next) && w.users !! w.gone
    && (forall p: nat, c: nat :: (p, c) in w.waits ==> c < w.next && p < w.next)
    && (forall x :: x in w.gone ==> x < w.next)
  }

  /** All events but the user events other than `e`. */
  ghost function Region(users: set<nat>, e: nat): iset<nat> {
    iset x: nat | x !in users || x == e
  }

  /** A change of `e` leaves user events other than `e` alone. */
  lemma SetStatusTidy(g: Graph, e: nat, s: Status, users: set<nat>, next: nat)
    requires Tidy(g, users, next) && e < next
    ensures Tidy(SetStatus(g, e, s), users, next)
    ensures forall u :: u in users && u != e ==> SetStatus(g, e, s).St(u) == g.St(u)
  {
    var region := Region(users, e);
    RegionClosed(g, e, users, next);
    SetStatusWithin(g, e, s, region);
  }

  lemma RegionClosed(g: Graph, e: nat, users: set<nat>, next: nat)
    requires Tidy(g, users, next)
    ensures Closed(g, Region(users, e))
  {
  }

  lemma FreshKeeps(g: Graph, users: set<nat>, next: nat, waits: Waits)
    requires Inv(g, waits) && Tidy(g, users, next) && forall c: nat :: (next, c) !in waits
    ensures Inv(Fresh(g, next), waits) && Tidy(Fresh(g, next), users, next + 1)
  {
    var f := Fresh(g, next);
    LowerCounted(g, next, CL_QUEUED, multiset{});
    assert forall x: nat :: f.St(x) == if x == next then CL_QUEUED else g.St(x);
    assert forall x: nat :: f.Ch(x) == g.Ch(x) && f.Count(x) == g.Count(x);
    forall p: nat
      ensures Commands(f.Ch(p), users, next + 1)
    {
      assert Commands(g.Ch(p), users, next);
    }
  }

  lemma UnblockTidy(g: Graph, e: nat, s: Status, users: set<nat>, next: nat)
    requires Tidy(g, users, next)
    ensures Tidy(Unblock(g, e, s), users, next)
    ensures forall u :: u in users ==> Unblock(g, e, s).St(u) == g.St(u)
    ensures forall x: nat :: Unblock(g, e, s).Ch(x) == g.Ch(x) || Unblock(g, e, s).Ch(x) == []
  {
    var d := Detached(g, e);
    assert forall x: nat :: d.Ch(x) == if x == e then [] else g.Ch(x);
    assert forall x: nat :: d.St(x) == g.St(x);
    var region := Region(users, next);
    assert Tidy(d, users, next);
    RegionClosed(d, next, users, next);
    assert Commands(g.Ch(e), users, next);
    TellAllWithin(d, g.Ch(e), s, region);
  }

  lemma AddChildTidy(g: Graph, p: nat, c: nat, users: set<nat>, next: nat)
    requires Tidy(g, users, next) && p < next && c < next && c !in users
    ensures Tidy(AddChild(g, p, c), users, next)
    ensures forall u :: u in users ==> AddChild(g, p, c).St(u) == g.St(u)
    ensures forall x: nat :: x != p ==> AddChild(g, p, c).Ch(x) == g.Ch(x) || AddChild(g, p, c).Ch(x) == []
  {
    var l := Linked(g, p, c);
    assert forall x: nat :: l.St(x) == g.St(x);
    forall x: nat
      ensures Commands(l.Ch(x), users, next) && (x != p ==> l.Ch(x) == g.Ch(x))
    {
      assert Commands(g.Ch(x), users, next);
    }
    if g.St(p) == CL_COMPLETE {
      UnblockTidy(l, p, CL_COMPLETE, users, next);
    }
  }

  /** A command under construction: its sentinel `q` is queued and linked to it. */
  ghost predicate Building(b: Build, users: set<nat>, next: nat, q: nat, c: nat, left: seq<nat>) {
    && Inv(b.g, b.waits) && Tidy(b.g, users + {q}, next) && (q, c) in b.waits && b.g.St(q) == CL_QUEUED
    && q < next && c < next && c !in users && c != q
    && NoRepeats(left) && (forall i :: 0 <= i < |left| ==> left[i] < next && c !in b.g.Ch(left[i]))
    && (forall p: nat, k: nat :: (p, k) in b.waits ==> k < next && p < next)
  }

  lemma {:induction false} AddParentsKeeps(b: Build, users: set<nat>, next: nat, q: nat, c: nat, ps: seq<nat>,
      late: set<nat>)
    requires Building(b, users, next, q, c, ps)
    ensures Building(AddParents(b, ps, c, late), users, next, q, c, [])
    ensures forall u :: u in users ==> AddParents(b, ps, c, late).g.St(u) == b.g.St(u)
    ensures b.waits <= AddParents(b, ps, c, late).waits
    decreases ps
  {
    if ps != [] {
      var p, rest := ps[0], ps[1..];
      if NeedsLink(b.g, p, late) {
        var b' := Build(AddChild(b.g, p, c), b.waits + {(p, c)});
        SubmissionOrder(b.g, b.waits, q, c);
        AddChildInv(b.g, p, c, b.waits);
        AddChildTidy(b.g, p, c, users + {q}, next);
        assert forall i :: 0 <= i < |rest| ==> rest[i] == ps[i + 1] && rest[i] != p;
        AddParentsKeeps(b', users, next, q, c, rest, late);
      } else {
        AddParentsKeeps(b, users, next, q, c, rest, late);
      }
    }
  }

  /** Every parent that is still queued when the command has been built is waited for. */
  lemma {:induction false} QueuedParentsLinked(b: Build, ps: seq<nat>, c: nat, late: set<nat>, p: nat)
    requires p in ps
    ensures var r := AddParents(b, ps, c, late);
            Lowered(b.g, r.g) && b.waits <= r.waits && (r.g.St(p) == CL_QUEUED ==> (p, c) in r.waits)
    decreases ps
  {
    var b' := if NeedsLink(b.g, ps[0], late) then Build(AddChild(b.g, ps[0], c), b.waits + {(ps[0], c)}) else b;
    AddParentsLowers(b', ps[1..], c, late);
    if p != ps[0] {
      QueuedParentsLinked(b', ps[1..], c, late, p);
    } else {
      assert b.g.St(p) <= CL_QUEUED;
    }
  }

  lemma {:induction false} AddParentsLowers(b: Build, ps: seq<nat>, c: nat, late: set<nat>)
    ensures Lowered(b.g, AddParents(b, ps, c, late).g) && b.waits <= AddParents(b, ps, c, late).waits
    decreases ps
  {
    if ps != [] {
      var b' := if NeedsLink(b.g, ps[0], late) then Build(AddChild(b.g, ps[0], c), b.waits + {(ps[0], c)}) else b;
      AddParentsLowers(b', ps[1..], c, late);
      assert forall x: nat :: AddParents(b', ps[1..], c, late).g.St(x) <= b'.g.St(x) <= b.g.St(x);
    }
  }

  /** Two more events, the first of them a user event. */
  lemma TwoFresh(w: World)
    requires WorldInv(w)
    ensures var g := Fresh(Fresh(w.g, w.next), w.next + 1);
            Inv(g, w.waits) && Tidy(g, w.users + {w.next}, w.next + 2) && g.Ch(w.next) == []
  {
    FreshKeeps(w.g, w.users, w.next, w.waits);
    var g1 := Fresh(w.g, w.next);
    FreshKeeps(g1, w.users, w.next + 1, w.waits);
    assert Fresh(g1, w.next + 1).Ch(w.next) == w.g.Ch(w.next) == [];
    FreshNotLinked(w);
    OneMoreUser(Fresh(g1, w.next + 1), w.users, w.next, w.next + 2);
  }

  ghost predicate NotAChild(g: Graph, u: nat) {
    forall p: nat :: u !in g.Ch(p)
  }

  lemma OneMoreUser(g: Graph, users: set<nat>, u: nat, next: nat)
    requires Tidy(g, users, next) && NotAChild(g, u) && u in g.status
    ensures Tidy(g, users + {u}, next)
  {
  }

  lemma FreshNotLinked(w: World)
    requires WorldInv(w)
    ensures NotAChild(Fresh(Fresh(w.g, w.next), w.next + 1), w.next)
  {
    var g := Fresh(Fresh(w.g, w.next), w.next + 1);
    forall p: nat
      ensures w.next !in g.Ch(p)
    {
      assert g.Ch(p) == w.g.Ch(p);
      assert Commands(w.g.Ch(p), w.users, w.next);
    }
  }

  /** The sentinel is linked to the command. */
  lemma SentinelLinked(g: Graph, users: set<nat>, next: nat, waits: Waits)
    requires Inv(g, waits) && Tidy(g, users + {next}, next + 2) && g.Ch(next) == []
    requires g.St(next) == CL_QUEUED && g.St(next + 1) == CL_QUEUED && next + 1 !in users
    ensures var b := Build(AddChild(g, next, next + 1), waits + {(next, next + 1)});
            && Inv(b.g, b.waits) && Tidy(b.g, users + {next}, next + 2) && b.g.St(next) == CL_QUEUED
            && forall u :: u in users ==> b.g.St(u) == g.St(u)
  {
    AddChildInv(g, next, next + 1, waits);
    AddChildTidy(g, next, next + 1, users + {next}, next + 2);
  }

  lemma StartKeeps(w: World, g: Graph, b: Build)
    requires WorldInv(w) && g == Fresh(Fresh(w.g, w.next), w.next + 1)
    requires b == Build(AddChild(g, w.next, w.next + 1), w.waits + {(w.next, w.next + 1)})
    ensures Inv(b.g, b.waits) && Tidy(b.g, w.users + {w.next}, w.next + 2) && b.g.St(w.next) == CL_QUEUED
  {
    TwoFresh(w);
    assert w.next + 1 !in w.users && w.next !in w.users;
    SentinelLinked(g, w.users, w.next, w.waits);
  }

  lemma StartStatuses(w: World)
    requires WorldInv(w)
    ensures forall u :: u in w.users ==> Start(w).g.St(u) == w.g.St(u)
  {
  }

  lemma StartBuilds(w: World, parents: seq<nat>)
    requires WorldInv(w) && Known(parents, w.next)
    ensures Building(Start(w), w.users, w.next + 2, w.next, w.next + 1, Dedup(parents))
  {
    StartKeeps(w, Fresh(Fresh(w.g, w.next), w.next + 1), Start(w));
    DedupKnown(parents, w.next);
    NotYetChild(w, Dedup(parents));
  }

  lemma DedupKnown(ps: seq<nat>, next: nat)
    requires Known(ps, next)
    ensures Known(Dedup(ps), next)
  {
  }

  lemma NotYetChild(w: World, ps: seq<nat>)
    requires WorldInv(w) && Known(ps, w.next)
    ensures forall i :: 0 <= i < |ps| ==> ps[i] < w.next && w.next + 1 !in Start(w).g.Ch(ps[i])
  {
    forall i | 0 <= i < |ps|
      ensures ps[i] < w.next && w.next + 1 !in Start(w).g.Ch(ps[i])
    {
      assert Start(w).g.Ch(ps[i]) == w.g.Ch(ps[i]);
      assert Commands(w.g.Ch(ps[i]), w.users, w.next);
    }
  }

  /** The sentinel completes, and is forgotten. */
  lemma FinishBuilding(w: World, b: Build)
    requires Building(b, w.users, w.next + 2, w.next, w.next + 1, []) && w.next !in w.users
    requires w.users !! w.gone && forall x :: x in w.gone ==> x < w.next
    ensures WorldInv(Enqueued(w, b)) && forall u :: u in w.users ==> Enqueued(w, b).g.St(u) == b.g.St(u)
  {
    SetStatusInv(b.g, w.next, CL_COMPLETE, b.waits);
    SetStatusTidy(b.g, w.next, CL_COMPLETE, w.users + {w.next}, w.next + 2);
    FewerUsers(SetStatus(b.g, w.next, CL_COMPLETE), w.users + {w.next}, w.users, w.next + 2);
  }

  lemma FewerUsers(g: Graph, all: set<nat>, users: set<nat>, next: nat)
    requires Tidy(g, all, next) && users <= all
    ensures Tidy(g, users, next)
  {
  }

  lemma EnqueueKeeps(w: World, parents: seq<nat>, late: set<nat>, b: Build)
    requires WorldInv(w) && Known(parents, w.next) && b == AddParents(Start(w), Dedup(parents), w.next + 1, late)
    ensures WorldInv(Enqueued(w, b)) && w.waits <= b.waits
    ensures forall u :: u in w.users ==> Enqueued(w, b).g.St(u) == w.g.St(u)
  {
    StartStatuses(w);
    StartBuilds(w, parents);
    AddParentsKeeps(Start(w), w.users, w.next + 2, w.next, w.next + 1, Dedup(parents), late);
    FinishBuilding(w, b);
  }

  /* ---- whole runs ---- */

  /** A call accepts a new status for user event `u`. */
  predicate Accepts(w: World, op: Op, u: nat) {
    op.SetUserEventStatus? && op.e == u && SetCode(w, u, op.s) == CL_SUCCESS
  }

  /** What every call keeps: the invariant, the links made, and every user event that it neither
      sets nor destroys. */
  ghost predicate Kept(w: World, w': World, op: Op) {
    && WorldInv(w') && w.waits <= w'.waits && w.next <= w'.next && w.gone <= w'.gone
    && (forall u :: u in w.users && op != Destroy(u) ==>
          u in w'.users && w'.g.St(u) == if Accepts(w, op, u) then op.s else w.g.St(u))
  }

  lemma NewUserEventKeeps(w: World)
    requires WorldInv(w)
    ensures Kept(w, Next(w, NewUserEvent), NewUserEvent)
  {
    FreshKeeps(w.g, w.users, w.next, w.waits);
    var f := Fresh(w.g, w.next);
    forall p: nat
      ensures Commands(f.Ch(p), w.users + {w.next}, w.next + 1)
    {
      assert f.Ch(p) == w.g.Ch(p);
      assert Commands(w.g.Ch(p), w.users, w.next);
    }
  }

  lemma SetUserEventStatusKeeps(w: World, e: nat, s: int)
    requires WorldInv(w) && SetCode(w, e, s) == CL_SUCCESS
    ensures Kept(w, w.(g := SetStatus(w.g, e, s)), SetUserEventStatus(e, s))
  {
    SetStatusInv(w.g, e, s, w.waits);
    SetStatusTidy(w.g, e, s, w.users, w.next);
    UserUnblocked(w, e);
    SetStatusSets(w.g, e, s);
  }

  lemma FinishKeeps(w: World, e: nat)
    requires WorldInv(w) && e !in w.users && w.g.St(e) == CL_SUBMITTED
    ensures Kept(w, w.(g := SetStatus(w.g, e, CL_COMPLETE)), Finish(e))
  {
    SetStatusInv(w.g, e, CL_COMPLETE, w.waits);
    SetStatusTidy(w.g, e, CL_COMPLETE, w.users, w.next);
  }

  lemma EnqueueKept(w: World, parents: seq<nat>, late: set<nat>)
    requires WorldInv(w) && Known(parents, w.next)
    ensures Kept(w, Enqueued(w, AddParents(Start(w), Dedup(parents), w.next + 1, late)), Enqueue(parents, late))
  {
    EnqueueKeeps(w, parents, late, AddParents(Start(w), Dedup(parents), w.next + 1, late));
  }

  lemma DestroyTidy(g: Graph, e: nat, users: set<nat>, next: nat)
    requires Tidy(g, users, next) && e < next
    ensures Tidy(Destroyed(g, e), users, next)
    ensures forall u :: u in users && u != e ==> Destroyed(g, e).St(u) == g.St(u)
  {
    if g.St(e) > CL_COMPLETE {
      SetStatusTidy(g, e, -1, users, next);
    } else {
      UnblockTidy(g, e, g.St(e), users, next);
    }
  }

  lemma DestroyKeeps(w: World, e: nat)
    requires WorldInv(w) && MayGo(w, e)
    ensures Kept(w, World(Destroyed(w.g, e), w.users - {e}, w.waits, w.next, w.gone + {e}), Destroy(e))
  {
    DestroyedInv(w.g, e, w.waits);
    DestroyTidy(w.g, e, w.users, w.next);
    FewerUsers(Destroyed(w.g, e), w.users, w.users - {e}, w.next);
  }

  lemma RefusedKept(w: World, op: Op)
    requires WorldInv(w) && (op.SetUserEventStatus? ==> SetCode(w, op.e, op.s) != CL_SUCCESS)
    ensures Kept(w, w, op)
  {
  }

  lemma NextKeeps(w: World, op: Op, w': World)
    requires WorldInv(w) && w' == Next(w, op)
    ensures Kept(w, w', op)
  {
    match op {
      case NewUserEvent =>
        NewUserEventKeeps(w);
      case SetUserEventStatus(e, s) =>
        if SetCode(w, e, s) == CL_SUCCESS {
          SetUserEventStatusKeeps(w, e, s);
        } else {
          RefusedKept(w, op);
        }
      case Enqueue(parents, late) =>
        if Usable(parents, w.next, w.gone) {
          EnqueueKept(w, parents, late);
        } else {
          RefusedKept(w, op);
        }
      case Finish(e) =>
        if e !in w.users && w.g.St(e) == CL_SUBMITTED {
          FinishKeeps(w, e);
        } else {
          RefusedKept(w, op);
        }
      case Destroy(e) =>
        if MayGo(w, e) {
          DestroyKeeps(w, e);
        } else {
          RefusedKept(w, op);
        }
    }
  }

  /** A user event waits for nothing. */
  lemma UserUnblocked(w: World, u: nat)
    requires WorldInv(w) && u in w.users
    ensures w.g.Count(u) == 0
  {
    forall p: nat
      ensures p !in Waiting(w.g, u)
    {
      assert Commands(w.g.Ch(p), w.users, w.next);
    }
    assert Waiting(w.g, u) == {};
    assert w.g.Count(u) == |Waiting(w.g, u)| + multiset{}[u];
  }

  lemma {:induction false} RunKeeps(w: World, ops: seq<Op>)
    requires WorldInv(w)
    ensures WorldInv(Run(w, ops)) && w.waits <= Run(w, ops).waits
    ensures w.next <= Run(w, ops).next && w.gone <= Run(w, ops).gone
    decreases ops
  {
    if ops != [] {
      NextKeeps(w, ops[0], Next(w, ops[0]));
      RunKeeps(Next(w, ops[0]), ops[1..]);
    }
  }

  lemma NothingInv()
    ensures WorldInv(NOTHING)
  {
  }

  /** In every program, at every point: a command that waits for an event is not submitted, and
      not complete, while that event is queued. */
  lemma CommandsWait(ops: seq<Op>, p: nat, c: nat)
    requires var w := Run(NOTHING, ops); (p, c) in w.waits && w.g.St(p) == CL_QUEUED
    ensures var w := Run(NOTHING, ops); w.g.St(c) == CL_QUEUED || w.g.St(c) < 0
  {
    NothingInv();
    RunKeeps(NOTHING, ops);
    var w := Run(NOTHING, ops);
    SubmissionOrder(w.g, w.waits, p, c);
  }

  /** A new command waits for every event of its list that is still queued. */
  lemma EnqueueWaits(w: World, parents: seq<nat>, late: set<nat>, p: nat)
    requires p in parents
    ensures var w' := Enqueued(w, AddParents(Start(w), Dedup(parents), w.next + 1, late));
            w'.g.St(p) == CL_QUEUED ==> (p, w.next + 1) in w'.waits
  {
    var b := AddParents(Start(w), Dedup(parents), w.next + 1, late);
    QueuedParentsLinked(Start(w), Dedup(parents), w.next + 1, late, p);
    StillQueued(b.g, w.next, p);
  }

  lemma StillQueued(g: Graph, e: nat, p: nat)
    ensures SetStatus(g, e, CL_COMPLETE).St(p) == CL_QUEUED ==> g.St(p) == CL_QUEUED
  {
  }

  /** The calls of a run that accept a status for user event `u`. */
  function Accepted(w: World, ops: seq<Op>, u: nat): seq<int>
    decreases ops
  {
    if ops == [] then []
    else (if Accepts(w, ops[0], u) then [ops[0].s] else []) + Accepted(Next(w, ops[0]), ops[1..], u)
  }

  /* ---- finished events stay as they are ---- */

  /** Parents are linked without an error: finished events stay, none is terminated, and the links
      of a terminated event stay and include those to the new command. */
  ghost predicate Undisturbed(b: Build, r: Build, ps: seq<nat>, c: nat, x: nat) {
    && (b.g.St(x) <= CL_COMPLETE ==> r.g.St(x) == b.g.St(x)) && (r.g.St(x) < 0 ==> b.g.St(x) < 0)
    && (b.g.St(x) < 0 ==> forall k :: k in b.g.Ch(x) || (k == c && x in ps) ==> k in r.g.Ch(x))
    && b.waits <= r.waits && (b.g.St(x) < 0 && x in ps ==> (x, c) in r.waits)
  }

  lemma {:induction false} AddParentsFinal(b: Build, ps: seq<nat>, c: nat, late: set<nat>, x: nat)
    ensures Undisturbed(b, AddParents(b, ps, c, late), ps, c, x)
    decreases ps
  {
    if ps != [] {
      var b' := if NeedsLink(b.g, ps[0], late) then Build(AddChild(b.g, ps[0], c), b.waits + {(ps[0], c)}) else b;
      AddChildFinal(b.g, ps[0], c, x);
      AddParentsFinal(b', ps[1..], c, late, x);
      assert x in ps ==> x == ps[0] || x in ps[1..];
    }
  }

  lemma StartFinal(w: World, x: nat)
    requires x < w.next
    ensures var g := Start(w).g;
            && (w.g.St(x) <= CL_COMPLETE ==> g.St(x) == w.g.St(x))
            && (w.g.St(x) < 0 ==> g.Ch(x) == w.g.Ch(x))
  {
    AddChildFinal(Fresh(Fresh(w.g, w.next), w.next + 1), w.next, w.next + 1, x);
  }

  /** A finished event keeps its status, and a terminated one its links while it exists. */
  ghost predicate Stays(w: World, w': World, x: nat) {
    && w'.g.St(x) == w.g.St(x)
    && (w.g.St(x) < 0 && x !in w'.gone ==> forall k :: k in w.g.Ch(x) ==> k in w'.g.Ch(x))
  }

  lemma EnqueueStays(w: World, parents: seq<nat>, late: set<nat>, x: nat)
    requires x < w.next && w.g.St(x) <= CL_COMPLETE
    ensures Stays(w, Enqueued(w, AddParents(Start(w), Dedup(parents), w.next + 1, late)), x)
  {
    var b := AddParents(Start(w), Dedup(parents), w.next + 1, late);
    StartFinal(w, x);
    AddParentsFinal(Start(w), Dedup(parents), w.next + 1, late, x);
    SetStatusFinal(b.g, w.next, CL_COMPLETE, x);
  }

  lemma NextStays(w: World, op: Op, w': World, x: nat)
    requires w' == Next(w, op) && x < w.next && w.g.St(x) <= CL_COMPLETE
    ensures Stays(w, w', x)
  {
    match op {
      case NewUserEvent =>
      case SetUserEventStatus(e, s) =>
        if SetCode(w, e, s) == CL_SUCCESS {
          ChangeStays(w, e, s, x);
        }
      case Enqueue(parents, late) =>
        EnqueueStays(w, parents, late, x);
      case Finish(e) =>
        ChangeStays(w, e, CL_COMPLETE, x);
      case Destroy(e) =>
        DestroyStays(w, e, x);
    }
  }

  lemma ChangeStays(w: World, e: nat, s: Status, x: nat)
    requires w.g.St(x) <= CL_COMPLETE
    ensures Stays(w, w.(g := SetStatus(w.g, e, s)), x)
  {
    SetStatusFinal(w.g, e, s, x);
  }

  lemma DestroyStays(w: World, e: nat, x: nat)
    requires w.g.St(x) <= CL_COMPLETE
    ensures Stays(w, World(Destroyed(w.g, e), w.users - {e}, w.waits, w.next, w.gone + {e}), x)
  {
    DestroyedFinal(w.g, e, x);
  }

  /** Nothing a program does changes a finished event, and no new status is accepted for it. */
  lemma {:induction false} FinishedForever(w: World, ops: seq<Op>, x: nat)
    requires WorldInv(w) && x < w.next && w.g.St(x) <= CL_COMPLETE
    ensures Run(w, ops).g.St(x) == w.g.St(x) && Accepted(w, ops, x) == []
    decreases ops
  {
    if ops != [] {
      NextKeeps(w, ops[0], Next(w, ops[0]));
      NextStays(w, ops[0], Next(w, ops[0]), x);
      FinishedForever(Next(w, ops[0]), ops[1..], x);
    }
  }

  /** The life of a user event: at most one change of status is ever accepted, to complete or an
      error.  Until then the event is reported as submitted, and from then on as that one status;
      if it is destroyed first, it ends with -1. */
  lemma {:induction false} LifeCycle(w: World, ops: seq<Op>, u: nat)
    requires WorldInv(w) && u in w.users && w.g.St(u) == CL_QUEUED
    ensures var a, r := Accepted(w, ops, u), Run(w, ops);
            && |a| <= 1 && (a != [] ==> a[0] <= CL_COMPLETE)
            && Reported(r, u) == if a != [] then a[0] else if u in r.gone then -1 else CL_SUBMITTED
    decreases ops
  {
    if ops != [] {
      var w' := Next(w, ops[0]);
      NextKeeps(w, ops[0], w');
      if ops[0] == Destroy(u) {
        UserUnblocked(w, u);
        DestroyedSets(w.g, u);
        FinishedForever(w', ops[1..], u);
        RunKeeps(w', ops[1..]);
      } else if Accepts(w, ops[0], u) {
        FinishedForever(w', ops[1..], u);
      } else {
        LifeCycle(w', ops[1..], u);
      }
    }
  }

  lemma DestroyedSets(g: Graph, e: nat)
    requires g.St(e) == CL_QUEUED
    ensures Destroyed(g, e).St(e) == -1
  {
    DestroyedOpen(g, e);
    SetStatusSets(g, e, -1);
  }

  /** clEnqueueExternalMemObjectsKHR refuses a list with a terminated event. */
  predicate HasError(w: World, events: seq<nat>) {
    exists i :: 0 <= i < |events| && w.g.St(events[i]) < CL_COMPLETE
  }

  /** Once an error was accepted, every later list that holds the event is refused. */
  lemma ErrorRefusesForever(w: World, u: nat, s: int, ops: seq<Op>, events: seq<nat>)
    requires WorldInv(w) && SetCode(w, u, s) == CL_SUCCESS && s < 0 && u in events
    ensures HasError(Run(Next(w, SetUserEventStatus(u, s)), ops), events)
  {
    var op := SetUserEventStatus(u, s);
    NextKeeps(w, op, Next(w, op));
    FinishedForever(Next(w, op), ops, u);
    var i :| 0 <= i < |events| && events[i] == u;
  }

  /* ---- when a command leaves the queue ---- */

  ghost function Users(w: World): iset<nat> {
    iset u: nat | u in w.users
  }

  /** Every queued command still has a link to it, and every link leads from an event that still
      holds back. */
  ghost predicate Flow(w: World, punctual: bool) {
    Held(w.g, Users(w)) && Attached(w.g, w.waits, w.gone, punctual)
  }

  /** No command of the run links a parent that is past the queue. */
  predicate OnTime(op: Op, punctual: bool) {
    punctual && op.Enqueue? ==> op.late == {}
  }

  lemma UsersUntold(w: World)
    requires WorldInv(w)
    ensures forall u :: u in Users(w) ==> Waiting(w.g, u) == {} && w.g.Count(u) <= 0
  {
    forall u | u in Users(w)
      ensures Waiting(w.g, u) == {} && w.g.Count(u) <= 0
    {
      UserUnblocked(w, u);
      assert w.g.Count(u) == |Waiting(w.g, u)| + multiset{}[u];
    }
  }

  lemma NewUserEventFlows(w: World, punctual: bool)
    requires WorldInv(w) && Flow(w, punctual)
    ensures Flow(Next(w, NewUserEvent), punctual)
  {
    var f := Fresh(w.g, w.next);
    assert w.g.Ch(w.next) == [];
    assert forall x: nat :: f.Ch(x) == w.g.Ch(x) && f.Count(x) == w.g.Count(x);
    assert forall x: nat :: f.St(x) == if x == w.next then CL_QUEUED else w.g.St(x);
  }

  lemma ChangeFlows(w: World, e: nat, s: Status, punctual: bool)
    requires WorldInv(w) && Flow(w, punctual) && s <= CL_COMPLETE
    ensures Flow(w.(g := SetStatus(w.g, e, s)), punctual)
  {
    SetStatusHolds(w.g, e, s, Users(w));
    SetStatusLinks(w.g, e, s);
    FollowAttached(w.g, SetStatus(w.g, e, s), w.waits, w.gone, punctual);
    assert Users(w.(g := SetStatus(w.g, e, s))) == Users(w);
  }

  lemma DestroyFlows(w: World, e: nat, punctual: bool)
    requires WorldInv(w) && Flow(w, punctual) && MayGo(w, e)
    ensures Flow(Next(w, Destroy(e)), punctual)
  {
    var w' := Next(w, Destroy(e));
    DestroyedAttached(w.g, e, w.waits, w.gone, punctual);
    assert forall x :: x in Users(w') <==> x in Users(w) && x != e;
    assert Held(w.g, Users(w') + iset{e});
    DestroyedHolds(w.g, e, Users(w'));
  }

  /** Parents that the command waits for once it is built. */
  predicate Blocking(g: Graph, p: nat, late: set<nat>) {
    g.St(p) == CL_QUEUED || g.St(p) < 0 || (g.St(p) == CL_SUBMITTED && p in late)
  }

  /** A command under construction beside a flow. */
  ghost predicate FlowBuilding(b: Build, users: set<nat>, gone: set<nat>, q: nat, c: nat, punctual: bool) {
    && Held(b.g, iset u: nat | u in users || u == q) && Attached(b.g, b.waits, gone, punctual)
    && b.g.Count(c) > 0 && b.g.Ch(c) == [] && c !in gone && q < c
  }

  /** Linking the parents changes no status: it adds the command to exactly the blocking ones. */
  lemma {:induction false} AddParentsFlows(b: Build, users: set<nat>, gone: set<nat>, q: nat, c: nat, ps: seq<nat>,
                                           late: set<nat>, punctual: bool)
    requires FlowBuilding(b, users, gone, q, c, punctual) && NoRepeats(ps) && (punctual ==> late == {})
    requires forall i :: 0 <= i < |ps| ==> ps[i] < c && ps[i] !in gone && c !in b.g.Ch(ps[i])
    ensures var r := AddParents(b, ps, c, late);
            && FlowBuilding(r, users, gone, q, c, punctual) && (forall x :: r.g.St(x) == b.g.St(x))
            && forall x: nat, k: nat :: k in r.g.Ch(x) <==>
                 k in b.g.Ch(x) || (k == c && x in ps && Blocking(b.g, x, late))
    decreases ps
  {
    if ps != [] {
      var p, rest := ps[0], ps[1..];
      assert ps == [p] + rest;
      var b' := if NeedsLink(b.g, p, late) then Build(AddChild(b.g, p, c), b.waits + {(p, c)}) else b;
      if NeedsLink(b.g, p, late) {
        ParentFlows(b, users, gone, q, c, p, late, punctual);
      }
      assert forall i :: 0 <= i < |rest| ==> rest[i] == ps[i + 1] && rest[i] != p;
      AddParentsFlows(b', users, gone, q, c, rest, late, punctual);
    }
  }

  lemma ParentFlows(b: Build, users: set<nat>, gone: set<nat>, q: nat, c: nat, p: nat, late: set<nat>, punctual: bool)
    requires FlowBuilding(b, users, gone, q, c, punctual) && (punctual ==> late == {})
    requires p < c && p !in gone && NeedsLink(b.g, p, late)
    ensures var r := Build(AddChild(b.g, p, c), b.waits + {(p, c)});
            && FlowBuilding(r, users, gone, q, c, punctual) && (forall x :: r.g.St(x) == b.g.St(x))
            && forall x :: r.g.Ch(x) == if x == p && Blocking(b.g, p, late) then [c] + b.g.Ch(p) else b.g.Ch(x)
  {
    var but := iset u: nat | u in users || u == q;
    if b.g.Ch(p) != [] {
      assert b.g.Ch(p)[0] in b.g.Ch(p);
    }
    AddChildQuiet(b.g, p, c);
    AddChildHolds(b.g, p, c, but);
    AddChildAttached(b.g, p, c, b.waits, gone, punctual);
  }

  /** Two new events beside a flow. */
  ghost predicate Opened(w: World, g: Graph) {
    && (forall x: nat :: g.St(x) == if x == w.next || x == w.next + 1 then CL_QUEUED else w.g.St(x))
    && (forall x: nat :: g.Ch(x) == w.g.Ch(x) && g.Count(x) == w.g.Count(x))
    && g.Ch(w.next) == [] && g.Ch(w.next + 1) == [] && g.Count(w.next + 1) == 0
  }

  lemma FreshOpened(w: World)
    requires WorldInv(w)
    ensures Opened(w, Fresh(Fresh(w.g, w.next), w.next + 1))
  {
    assert w.g.Ch(w.next) == [] && w.g.Ch(w.next + 1) == [];
    FreshCount(w, w.next + 1);
  }

  lemma OpenedFlows(w: World, g: Graph, punctual: bool)
    requires WorldInv(w) && Flow(w, punctual) && Opened(w, g)
    ensures Held(g, iset u: nat | u in w.users || u == w.next || u == w.next + 1)
    ensures Attached(g, w.waits, w.gone, punctual)
  {
  }

  lemma SentinelFlows(w: World, g: Graph, b: Build, punctual: bool)
    requires Opened(w, g) && Attached(g, w.waits, w.gone, punctual)
    requires Held(g, iset u: nat | u in w.users || u == w.next || u == w.next + 1)
    requires w.next !in w.gone && w.next + 1 !in w.gone
    requires b == Build(AddChild(g, w.next, w.next + 1), w.waits + {(w.next, w.next + 1)})
    ensures FlowBuilding(b, w.users, w.gone, w.next, w.next + 1, punctual) && Started(w, b)
  {
    var q, c := w.next, w.next + 1;
    var but := iset u: nat | u in w.users || u == q;
    assert Held(g, but + iset{c});
    AddChildHolds(g, q, c, but);
    AddChildAttached(g, q, c, w.waits, w.gone, punctual);
  }

  lemma StartFlows(w: World, punctual: bool)
    requires WorldInv(w) && Flow(w, punctual)
    ensures FlowBuilding(Start(w), w.users, w.gone, w.next, w.next + 1, punctual) && Started(w, Start(w))
  {
    var g := Fresh(Fresh(w.g, w.next), w.next + 1);
    FreshOpened(w);
    OpenedFlows(w, g, punctual);
    SentinelFlows(w, g, Start(w), punctual);
  }

  lemma FreshCount(w: World, c: nat)
    requires WorldInv(w) && c >= w.next
    ensures w.g.Count(c) == 0
  {
    forall p: nat
      ensures p !in Waiting(w.g, c)
    {
      assert Commands(w.g.Ch(p), w.users, w.next);
    }
    assert Waiting(w.g, c) == {};
    assert w.g.Count(c) == |Waiting(w.g, c)| + multiset{}[c];
  }

  /** The build of a command, before its sentinel completes. */
  ghost predicate Built(w: World, b: Build, parents: seq<nat>, late: set<nat>, punctual: bool) {
    var q, c := w.next, w.next + 1;
    && Building(b, w.users, w.next + 2, q, c, []) && FlowBuilding(b, w.users, w.gone, q, c, punctual)
    && BuiltLinks(w, b, parents, late)
  }

  ghost predicate BuiltLinks(w: World, b: Build, parents: seq<nat>, late: set<nat>) {
    var q, c := w.next, w.next + 1;
    && (forall x: nat :: b.g.St(x) == if x == q || x == c then CL_QUEUED else w.g.St(x))
    && (forall x: nat, k: nat :: k in b.g.Ch(x) <==>
          (x == q && k == c) || (x != q && k in w.g.Ch(x)) || (k == c && x in parents && Blocking(w.g, x, late)))
  }

  lemma LinksBuilt(w: World, s: Build, ps: seq<nat>, late: set<nat>, b: Build)
    requires Started(w, s) && Usable(ps, w.next, w.gone) && forall x :: b.g.St(x) == s.g.St(x)
    requires forall x: nat, k: nat :: k in b.g.Ch(x) <==>
               k in s.g.Ch(x) || (k == w.next + 1 && x in ps && Blocking(s.g, x, late))
    ensures BuiltLinks(w, b, ps, late)
  {
    forall x | x in ps
      ensures x < w.next && (Blocking(s.g, x, late) <==> Blocking(w.g, x, late))
    {
    }
    forall x: nat, k: nat
      ensures k in b.g.Ch(x) <==> (x == w.next && k == w.next + 1) || (x != w.next && k in w.g.Ch(x))
                                  || (k == w.next + 1 && x in ps && Blocking(w.g, x, late))
    {
      assert s.g.Ch(x) == if x == w.next then [w.next + 1] else w.g.Ch(x);
    }
  }

  lemma CommandBuilt(w: World, parents: seq<nat>, late: set<nat>, b: Build, punctual: bool)
    requires WorldInv(w) && Flow(w, punctual) && Usable(parents, w.next, w.gone) && (punctual ==> late == {})
    requires b == AddParents(Start(w), Dedup(parents), w.next + 1, late)
    ensures Built(w, b, parents, late, punctual)
  {
    StartBuilds(w, parents);
    StartFlows(w, punctual);
    DedupUsable(parents, w.next, w.gone);
    ParentsAdded(w, Start(w), Dedup(parents), late, b, punctual);
  }

  /** The statuses and links of a started command. */
  ghost predicate Started(w: World, b: Build) {
    && (forall x: nat :: b.g.St(x) == if x == w.next || x == w.next + 1 then CL_QUEUED else w.g.St(x))
    && (forall x: nat :: b.g.Ch(x) == if x == w.next then [w.next + 1] else w.g.Ch(x))
  }

  lemma ParentsAdded(w: World, s: Build, ps: seq<nat>, late: set<nat>, b: Build, punctual: bool)
    requires Building(s, w.users, w.next + 2, w.next, w.next + 1, ps) && Started(w, s)
    requires FlowBuilding(s, w.users, w.gone, w.next, w.next + 1, punctual) && (punctual ==> late == {})
    requires Usable(ps, w.next, w.gone) && b == AddParents(s, ps, w.next + 1, late)
    ensures Built(w, b, ps, late, punctual)
  {
    AddParentsKeeps(s, w.users, w.next + 2, w.next, w.next + 1, ps, late);
    AddParentsFlows(s, w.users, w.gone, w.next, w.next + 1, ps, late, punctual);
    LinksBuilt(w, s, ps, late, b);
  }

  lemma DedupUsable(ps: seq<nat>, next: nat, gone: set<nat>)
    requires Usable(ps, next, gone)
    ensures Usable(Dedup(ps), next, gone)
  {
    forall i | 0 <= i < |Dedup(ps)|
      ensures Dedup(ps)[i] < next && Dedup(ps)[i] !in gone
    {
      assert Dedup(ps)[i] in ps;
    }
  }

  /** Only the command is released by its sentinel. */
  lemma {:induction false} SentinelReleases(w: World, b: Build, parents: seq<nat>, late: set<nat>, punctual: bool,
                                            x: nat)
    requires WorldInv(w) && Built(w, b, parents, late, punctual) && Usable(parents, w.next, w.gone)
    ensures x != w.next + 1 ==> !Released(b.g, w.next, x)
    decreases x
  {
    var q, c := w.next, w.next + 1;
    if x != c && Released(b.g, q, x) {
      var p :| p in Waiting(b.g, x);
      assert x in b.g.Ch(p) && x !in b.g.Ch(c);
      if p != q {
        assert p < x && Released(b.g, q, p);
        SentinelReleases(w, b, parents, late, punctual, p);
      }
    }
  }

  lemma CommandReleased(w: World, b: Build, parents: seq<nat>, late: set<nat>, punctual: bool)
    requires WorldInv(w) && Built(w, b, parents, late, punctual) && Usable(parents, w.next, w.gone)
    ensures Released(b.g, w.next, w.next + 1) <==> !(exists p :: p in parents && Blocking(w.g, p, late))
  {
    var q, c := w.next, w.next + 1;
    assert c in b.g.Ch(q) && q in Waiting(b.g, c);
    if p :| p in parents && Blocking(w.g, p, late) {
      assert c in b.g.Ch(p) && p in Waiting(b.g, c);
      SentinelReleases(w, b, parents, late, punctual, p);
    } else {
      forall p | p in Waiting(b.g, c)
        ensures p == q
      {
        assert c in b.g.Ch(p);
        assert Commands(w.g.Ch(p), w.users, w.next);
      }
    }
  }

  lemma SentinelIsFree(b: Build, users: set<nat>, next: nat, q: nat, c: nat)
    requires Building(b, users, next, q, c, [])
    ensures forall u :: u in users || u == q ==> Waiting(b.g, u) == {} && b.g.Count(u) <= 0
  {
    forall u | u in users || u == q
      ensures Waiting(b.g, u) == {} && b.g.Count(u) <= 0
    {
      forall p: nat
        ensures p !in Waiting(b.g, u)
      {
        assert Commands(b.g.Ch(p), users + {q}, next);
      }
      assert Waiting(b.g, u) == {};
      assert b.g.Count(u) == |Waiting(b.g, u)| + multiset{}[u];
    }
  }

  /** A new command is queued exactly while an event of its list is: one that is queued, terminated,
      or linked late.  Otherwise it is submitted at once.  No other event changes. */
  lemma EnqueueExact(w: World, parents: seq<nat>, late: set<nat>, x: nat)
    requires WorldInv(w) && Flow(w, false) && Usable(parents, w.next, w.gone)
    ensures var w', c := Next(w, Enqueue(parents, late)), w.next + 1;
            && w'.g.St(c) == (if exists p :: p in parents && Blocking(w.g, p, late) then CL_QUEUED else CL_SUBMITTED)
            && (x < w.next ==> w'.g.St(x) == w.g.St(x)) && w'.g.St(w.next) == CL_COMPLETE
  {
    var q, c := w.next, w.next + 1;
    var b := AddParents(Start(w), Dedup(parents), c, late);
    CommandBuilt(w, parents, late, b, false);
    NextEnqueue(w, parents, late, b);
    BuiltExact(w, b, parents, late, x);
  }

  lemma BuiltExact(w: World, b: Build, parents: seq<nat>, late: set<nat>, x: nat)
    requires WorldInv(w) && Built(w, b, parents, late, false) && Usable(parents, w.next, w.gone)
    ensures var w', c := Enqueued(w, b), w.next + 1;
            && w'.g.St(c) == (if exists p :: p in parents && Blocking(w.g, p, late) then CL_QUEUED else CL_SUBMITTED)
            && (x < w.next ==> w'.g.St(x) == w.g.St(x)) && w'.g.St(w.next) == CL_COMPLETE
  {
    var c := w.next + 1;
    SentinelChanges(w, b, c, false);
    SetStatusSets(b.g, w.next, CL_COMPLETE);
    CommandReleased(w, b, parents, late, false);
    if x < w.next {
      SentinelChanges(w, b, x, false);
      SentinelReleases(w, b, parents, late, false, x);
    }
  }

  lemma SentinelChanges(w: World, b: Build, x: nat, punctual: bool)
    requires Building(b, w.users, w.next + 2, w.next, w.next + 1, [])
    requires FlowBuilding(b, w.users, w.gone, w.next, w.next + 1, punctual) && x != w.next
    ensures !Unaffected(b.g, w.next, CL_COMPLETE)
    ensures SetStatus(b.g, w.next, CL_COMPLETE).St(x) == if Released(b.g, w.next, x) then CL_SUBMITTED else b.g.St(x)
  {
    var q := w.next;
    var but := iset u: nat | u in w.users || u == q;
    SentinelIsFree(b, w.users, w.next + 2, q, w.next + 1);
    assert Held(b.g, but + iset{q});
    ReleaseExact(b.g, q, CL_COMPLETE, x, but);
  }

  lemma EnqueueFlows(w: World, parents: seq<nat>, late: set<nat>, punctual: bool)
    requires WorldInv(w) && Flow(w, punctual) && Usable(parents, w.next, w.gone) && (punctual ==> late == {})
    ensures Flow(Next(w, Enqueue(parents, late)), punctual)
  {
    var b := AddParents(Start(w), Dedup(parents), w.next + 1, late);
    CommandBuilt(w, parents, late, b, punctual);
    NextEnqueue(w, parents, late, b);
    EnqueuedFlows(w, b, punctual);
  }

  lemma EnqueuedFlows(w: World, b: Build, punctual: bool)
    requires Building(b, w.users, w.next + 2, w.next, w.next + 1, [])
    requires FlowBuilding(b, w.users, w.gone, w.next, w.next + 1, punctual)
    ensures Flow(Enqueued(w, b), punctual)
  {
    var q := w.next;
    SentinelChanges(w, b, w.next + 1, punctual);
    var w' := Enqueued(w, b);
    assert Held(b.g, Users(w') + iset{q});
    SetStatusHolds(b.g, q, CL_COMPLETE, Users(w'));
    SetStatusLinks(b.g, q, CL_COMPLETE);
    FollowAttached(b.g, w'.g, b.waits, w.gone, punctual);
  }

  lemma NextFlows(w: World, op: Op, punctual: bool)
    requires WorldInv(w) && Flow(w, punctual) && OnTime(op, punctual)
    ensures Flow(Next(w, op), punctual)
  {
    match op {
      case NewUserEvent =>
        NewUserEventFlows(w, punctual);
      case SetUserEventStatus(e, s) =>
        if SetCode(w, e, s) == CL_SUCCESS {
          ChangeFlows(w, e, s, punctual);
        }
      case Enqueue(parents, late) =>
        if Usable(parents, w.next, w.gone) {
          EnqueueFlows(w, parents, late, punctual);
        }
      case Finish(e) =>
        if e !in w.users && w.g.St(e) == CL_SUBMITTED {
          ChangeFlows(w, e, CL_COMPLETE, punctual);
        }
      case Destroy(e) =>
        if MayGo(w, e) {
          DestroyFlows(w, e, punctual);
        }
    }
  }

  lemma {:induction false} RunFlows(w: World, ops: seq<Op>, punctual: bool)
    requires WorldInv(w) && Flow(w, punctual) && forall i :: 0 <= i < |ops| ==> OnTime(ops[i], punctual)
    ensures Flow(Run(w, ops), punctual)
    decreases ops
  {
    if ops != [] {
      NextKeeps(w, ops[0], Next(w, ops[0]));
      NextFlows(w, ops[0], punctual);
      assert forall i :: 0 <= i < |ops[1..]| ==> ops[1..][i] == ops[i + 1];
      RunFlows(Next(w, ops[0]), ops[1..], punctual);
    }
  }

  /** Over every run: a command that is queued has a reason.  Some event it waits for still exists
      and is queued or terminated, or, if commands are linked to parents past the queue, submitted. */
  lemma QueuedHasReason(ops: seq<Op>, x: nat, punctual: bool) returns (p: nat)
    requires forall i :: 0 <= i < |ops| ==> OnTime(ops[i], punctual)
    requires var w := Run(NOTHING, ops); x < w.next && x !in w.users && w.g.St(x) == CL_QUEUED
    ensures var w := Run(NOTHING, ops);
            && w.g.Count(x) > 0 && (p, x) in w.waits && x in w.g.Ch(p) && p < x && p !in w.gone
            && (w.g.St(p) == CL_QUEUED || w.g.St(p) < 0 || (!punctual && w.g.St(p) == CL_SUBMITTED))
  {
    NothingInv();
    RunKeeps(NOTHING, ops);
    RunFlows(NOTHING, ops, punctual);
    var w := Run(NOTHING, ops);
    HasWaiting(w.g, x);
    p :| p in Waiting(w.g, x);
    assert x in w.g.Ch(p);
  }

  /** A user event that completes, or a command that finishes, submits exactly the queued commands
      whose last link that was, and those that they release in turn. */
  lemma CompletionReleases(w: World, op: Op, e: nat, x: nat)
    requires WorldInv(w) && Flow(w, false) && x != e
    requires (op == SetUserEventStatus(e, CL_COMPLETE) && SetCode(w, e, CL_COMPLETE) == CL_SUCCESS)
             || (op == Finish(e) && e !in w.users && w.g.St(e) == CL_SUBMITTED)
    ensures Next(w, op).g.St(e) == CL_COMPLETE
    ensures Next(w, op).g.St(x) == if Released(w.g, e, x) then CL_SUBMITTED else w.g.St(x)
  {
    UsersUntold(w);
    if op.SetUserEventStatus? {
      UserUnblocked(w, e);
    } else {
      SubmittedIsFree(w, e);
    }
    SetStatusSets(w.g, e, CL_COMPLETE);
    ReleaseExact(w.g, e, CL_COMPLETE, x, Users(w));
  }

  /** A submitted command has no link to it. */
  lemma SubmittedIsFree(w: World, e: nat)
    requires WorldInv(w) && w.g.St(e) == CL_SUBMITTED
    ensures w.g.Count(e) <= 0
  {
  }

  const QUICK := [NewUserEvent, Enqueue([0], {}), SetUserEventStatus(0, CL_COMPLETE)]

  /** A run in which a command waits for a user event, and is submitted when that completes; a
      command without a wait list is submitted at once. */
  lemma QuickRun()
    ensures Run(NOTHING, QUICK[..2]).g.St(2) == CL_QUEUED && Run(NOTHING, QUICK).g.St(2) == CL_SUBMITTED
    ensures Next(NOTHING, Enqueue([], {})).g.St(1) == CL_SUBMITTED
  {
    NothingInv();
    EnqueueExact(NOTHING, [], {}, 0);
    var w1 := Next(NOTHING, QUICK[0]);
    NextKeeps(NOTHING, QUICK[0], w1);
    NextFlows(NOTHING, QUICK[0], false);
    QuickStep(w1);
    QuickEnd(w1);
  }

  lemma QuickEnd(w: World)
    requires w == Next(NOTHING, QUICK[0])
    ensures Run(NOTHING, QUICK[..2]) == Next(w, QUICK[1])
    ensures Run(NOTHING, QUICK) == Next(Next(w, QUICK[1]), QUICK[2])
  {
    RunTwo(NOTHING, QUICK[0], QUICK[1]);
    assert QUICK[..2] == [QUICK[0], QUICK[1]];
    RunTwo(w, QUICK[1], QUICK[2]);
    assert QUICK[1..] == [QUICK[1], QUICK[2]];
  }

  lemma RunTwo(w: World, a: Op, b: Op)
    ensures Run(w, [a, b]) == Next(Next(w, a), b)
  {
    assert [a, b][1..] == [b] && [b][1..] == [];
    assert Run(Next(w, a), [b]) == Run(Next(Next(w, a), b), []);
  }

  lemma QuickStep(w: World)
    requires WorldInv(w) && Flow(w, false)
    requires w.next == 1 && w.users == {0} && w.gone == {} && w.g.St(0) == CL_QUEUED
    ensures var w2 := Next(w, Enqueue([0], {}));
            w2.g.St(2) == CL_QUEUED && Next(w2, SetUserEventStatus(0, CL_COMPLETE)).g.St(2) == CL_SUBMITTED
  {
    var w2 := Next(w, Enqueue([0], {}));
    assert 0 in [0] && Blocking(w.g, 0, {});
    EnqueueExact(w, [0], {}, 0);
    NextKeeps(w, Enqueue([0], {}), w2);
    NextFlows(w, Enqueue([0], {}), false);
    QuickReleased(w2);
    CompletionReleases(w2, SetUserEventStatus(0, CL_COMPLETE), 0, 2);
  }

  lemma QuickReleased(w: World)
    requires WorldInv(w) && Flow(w, false) && w.users == {0}
    requires w.g.St(0) == CL_QUEUED && w.g.St(1) == CL_COMPLETE && w.g.St(2) == CL_QUEUED
    ensures Released(w.g, 0, 2)
  {
    assert w.g.Count(2) > 0;
    HasWaiting(w.g, 2);
    forall p | p in Waiting(w.g, 2)
      ensures p == 0
    {
      assert 2 in w.g.Ch(p) && p < 2;
    }
  }

  /* ---- whom an error reaches, and when ---- */

  /** The call that sets an error terminates exactly the open events that wait for the user event,
      directly or not, by then; it leaves the other open events alone. */
  lemma ErrorTerminatesWaiters(w: World, u: nat, s: int, x: nat)
    requires WorldInv(w) && SetCode(w, u, s) == CL_SUCCESS && s < 0 && w.g.St(x) > CL_COMPLETE
    ensures Next(w, SetUserEventStatus(u, s)).g.St(x) == if Reaches(w.g, u, x) then s else w.g.St(x)
  {
    ErrorExact(w.g, u, s, x);
  }

  /** A command enqueued on an event that is already terminated is linked to it, and queued. */
  lemma LateCommandIsQueued(w: World, parents: seq<nat>, late: set<nat>, p: nat)
    requires WorldInv(w) && Usable(parents, w.next, w.gone) && p in parents && w.g.St(p) < 0
    ensures var w', c := Next(w, Enqueue(parents, late)), w.next + 1;
            w'.g.St(c) == CL_QUEUED && c in w'.g.Ch(p) && (p, c) in w'.waits && w'.g.St(p) == w.g.St(p)
  {
    var c := w.next + 1;
    var b := AddParents(Start(w), Dedup(parents), c, late);
    var w' := Enqueued(w, b);
    NextEnqueue(w, parents, late, b);
    NextKeeps(w, Enqueue(parents, late), w');
    StartFinal(w, p);
    AddChildFinal(Fresh(Fresh(w.g, w.next), c), w.next, c, c);
    AddParentsFinal(Start(w), Dedup(parents), c, late, p);
    AddParentsFinal(Start(w), Dedup(parents), c, late, c);
    SetStatusFinal(b.g, w.next, CL_COMPLETE, p);
    SetStatusFinal(b.g, w.next, CL_COMPLETE, c);
    LinkedIsBlocked(w', p, c);
  }

  /** A linked event is queued or terminated. */
  lemma LinkedIsBlocked(w: World, p: nat, c: nat)
    requires WorldInv(w) && c in w.g.Ch(p)
    ensures w.g.St(c) == CL_QUEUED || w.g.St(c) < 0
  {
    assert p in Waiting(w.g, c);
    assert w.g.Count(c) == |Waiting(w.g, c)| + multiset{}[c];
    assert w.g.Count(c) > 0;
  }

  /** As long as a terminated event exists, a command linked to it is not submitted, whatever the
      program does. */
  lemma {:induction false} LateCommandWaits(w: World, ops: seq<Op>, p: nat, c: nat)
    requires WorldInv(w) && p < w.next && w.g.St(p) < 0 && c in w.g.Ch(p)
    requires p !in Run(w, ops).gone
    ensures var r := Run(w, ops);
            r.g.St(p) == w.g.St(p) && c in r.g.Ch(p) && (r.g.St(c) == CL_QUEUED || r.g.St(c) < 0)
    decreases ops
  {
    if ops == [] {
      LinkedIsBlocked(w, p, c);
    } else {
      var w' := Next(w, ops[0]);
      NextKeeps(w, ops[0], w');
      NextStays(w, ops[0], w', p);
      RunKeeps(w', ops[1..]);
      LateCommandWaits(w', ops[1..], p, c);
    }
  }

  /** The end of a terminated event passes its error on to exactly the open events that wait for
      it; an event that ends open passes on -1. */
  lemma DestroyPassesOn(w: World, e: nat, x: nat)
    requires MayGo(w, e) && LastStatus(w.g, e) < 0 && w.g.St(x) > CL_COMPLETE
    ensures Next(w, Destroy(e)).g.St(x) == if Reaches(w.g, e, x) then LastStatus(w.g, e) else w.g.St(x)
  {
    DestroyedExact(w.g, e, x);
  }

  lemma ChildReached(g: Graph, p: nat, c: nat)
    requires c in g.Ch(p) && g.St(c) > CL_COMPLETE
    ensures Reaches(g, p, c)
  {
    ReachesItself(g, p);
    ChainExtends(g, p, p, c);
  }

  /** The whole story of a late command: it is enqueued on a terminated user event, waits through
      any run that leaves the event alone, and gets the error, if no other came first, when the
      event ends. */
  lemma LateCommandGetsError(w: World, parents: seq<nat>, late: set<nat>, p: nat, ops: seq<Op>)
    requires WorldInv(w) && Usable(parents, w.next, w.gone) && p in parents && p in w.users && w.g.St(p) < 0
    requires p !in Run(Next(w, Enqueue(parents, late)), ops).gone
    ensures var r, c := Run(Next(w, Enqueue(parents, late)), ops), w.next + 1;
            && (r.g.St(c) == CL_QUEUED || r.g.St(c) < 0)
            && Next(r, Destroy(p)).g.St(c) == if r.g.St(c) == CL_QUEUED then w.g.St(p) else r.g.St(c)
  {
    var w', c := Next(w, Enqueue(parents, late)), w.next + 1;
    NextKeeps(w, Enqueue(parents, late), w');
    LateCommandIsQueued(w, parents, late, p);
    LateCommandWaits(w', ops, p, c);
    RunKeeps(w', ops);
    UserStays(w', ops, p);
    DestroyTellsChild(Run(w', ops), p, c);
  }

  lemma DestroyTellsChild(w: World, u: nat, c: nat)
    requires WorldInv(w) && u in w.users && w.g.St(u) < 0 && c in w.g.Ch(u)
    ensures Next(w, Destroy(u)).g.St(c) == if w.g.St(c) == CL_QUEUED then w.g.St(u) else w.g.St(c)
  {
    UserUnblocked(w, u);
    LinkedIsBlocked(w, u, c);
    if w.g.St(c) == CL_QUEUED {
      ChildReached(w.g, u, c);
      DestroyPassesOn(w, u, c);
    } else {
      DestroyedFinal(w.g, u, c);
    }
  }

  /** A user event that is not destroyed remains one. */
  lemma {:induction false} UserStays(w: World, ops: seq<Op>, u: nat)
    requires WorldInv(w) && u in w.users && u !in Run(w, ops).gone
    ensures u in Run(w, ops).users
    decreases ops
  {
    if ops != [] {
      var w' := Next(w, ops[0]);
      NextKeeps(w, ops[0], w');
      RunKeeps(w', ops[1..]);
      if ops[0] == Destroy(u) {
        UserUnblocked(w, u);
        assert false;
      }
      UserStays(w', ops[1..], u);
    }
  }

  lemma LateStep(w: World)
    requires WorldInv(w) && w.next == 1 && w.users == {0} && w.gone == {} && w.g.St(0) == -5
    ensures var r := Next(w, Enqueue([0], {}));
            && (0, 2) in r.waits && r.g.St(0) == -5 && r.g.St(2) == CL_QUEUED
            && Next(r, Destroy(0)).g.St(2) == -5
  {
    LateCommandIsQueued(w, [0], {}, 0);
    LateCommandGetsError(w, [0], {}, 0, []);
  }

  const LATE := [NewUserEvent, SetUserEventStatus(0, -5), Enqueue([0], {})]

  lemma LateEnd(w: World)
    requires w == Next(Next(NOTHING, LATE[0]), LATE[1])
    ensures Run(NOTHING, LATE) == Next(w, LATE[2])
  {
    assert LATE[1..][1..] == [LATE[2]];
  }

  /** A run with an error that does not reach a command which waits for the event: the command came
      after the error, and gets it when the event ends. */
  lemma LateRun()
    ensures var w := Run(NOTHING, LATE);
            && (0, 2) in w.waits && w.g.St(0) == -5 && w.g.St(2) == CL_QUEUED
            && Next(w, Destroy(0)).g.St(2) == -5
  {
    var w1 := Next(NOTHING, LATE[0]);
    var w2 := Next(w1, LATE[1]);
    NothingInv();
    NextKeeps(NOTHING, LATE[0], w1);
    NextKeeps(w1, LATE[1], w2);
    LateStep(w2);
    LateEnd(w2);
  }

  lemma NextEnqueue(w: World, list: seq<nat>, late: set<nat>, b: Build)
    requires Usable(list, w.next, w.gone)
    requires b == AddParents(Start(w), Dedup(list), w.next + 1, late)
    ensures Next(w, Enqueue(list, late)) == Enqueued(w, b)
  {
  }

  /* ---- the calls in place ---- */

  class ClEvents {
    const events: Events
    var users: set<nat>
    var next: nat
    ghost var waits: Waits
    ghost var gone: set<nat>

    constructor ()
      ensures State() == NOTHING && fresh(events)
    {
      events := new Events();
      users, next, waits, gone := {}, 0, {}, {};
    }

    ghost function State(): World
      reads this, events
    {
      World(events.State(), users, waits, next, gone)
    }

    method CreateUserEvent() returns (u: nat)
      modifies this, events
      ensures State() == Next(old(State()), NewUserEvent) && u == old(next) && u in users
    {
      u := next;
      events.status := events.status[u := CL_QUEUED];
      users := users + {u};
      next := next + 1;
    }

    /** clSetUserEventStatus. */
    method SetUserEventStatus(e: nat, s: int) returns (code: ClCode)
      modifies events
      ensures code == SetCode(old(State()), e, s)
      ensures e !in users <==> code == CL_INVALID_EVENT
      ensures e in users && s > CL_COMPLETE ==> code == CL_INVALID_VALUE
      ensures e in users && s <= CL_COMPLETE ==>
                code == if old(events.StatusOf(e)) == CL_QUEUED then CL_SUCCESS else CL_INVALID_OPERATION
      ensures code != CL_SUCCESS ==> State() == old(State())
      ensures State() == Next(old(State()), Op.SetUserEventStatus(e, s))
    {
      if e !in users {
        return CL_INVALID_EVENT;
      }
      if s > CL_COMPLETE {
        return CL_INVALID_VALUE;
      }
      if events.StatusOf(e) != CL_QUEUED {
        return CL_INVALID_OPERATION;
      }
      events.Change(e, s);
      code := CL_SUCCESS;
    }

    /** clGetEventInfo, for the execution status of a user event. */
    method GetExecutionStatus(e: nat) returns (s: int)
      ensures s == Reported(State(), e)
      ensures s == if events.StatusOf(e) == CL_QUEUED then CL_SUBMITTED else events.StatusOf(e)
    {
      s := events.StatusOf(e);
      if s == CL_QUEUED {
        s := CL_SUBMITTED;
      }
    }

    /** The wait-list loop of clEnqueueExternalMemObjectsKHR. */
    method CheckWaitList(list: seq<nat>) returns (code: ClCode)
      ensures code == if HasError(State(), list) then CL_EXEC_STATUS_ERROR_FOR_EVENTS_IN_WAIT_LIST else CL_SUCCESS
      ensures code == CL_SUCCESS <==> forall i :: 0 <= i < |list| ==> events.StatusOf(list[i]) >= 0
    {
      for num := 0 to |list|
        invariant forall i :: 0 <= i < num ==> State().g.St(list[i]) >= CL_COMPLETE
      {
        if events.StatusOf(list[num]) < CL_COMPLETE {
          return CL_EXEC_STATUS_ERROR_FOR_EVENTS_IN_WAIT_LIST;
        }
      }
      code := CL_SUCCESS;
    }

    /** EventBuilder::addParentEvents: each event once. */
    method CollectParents(list: seq<nat>) returns (parents: seq<nat>)
      ensures parents == Dedup(list)
    {
      parents := [];
      for i := 0 to |list|
        invariant parents == Dedup(list[..i])
      {
        assert list[..i + 1][..i] == list[..i];
        if list[i] !in parents {
          parents := parents + [list[i]];
        }
      }
      assert list[..|list|] == list;
    }

    ghost function Building(): Build
      reads this, events
    {
      Build(events.State(), waits)
    }

    method StartCommand(sentinel: nat, c: nat)
      requires sentinel == next && c == next + 1
      modifies this`waits, events
      ensures Building() == Start(old(State()))
    {
      events.status := events.status[sentinel := CL_QUEUED][c := CL_QUEUED];
      events.Link(sentinel, c);
      waits := waits + {(sentinel, c)};
    }

    method LinkParents(parents: seq<nat>, c: nat, late: set<nat>)
      modifies this`waits, events
      ensures Building() == AddParents(old(Building()), parents, c, late)
    {
      var i := 0;
      assert parents[0..] == parents;
      while i < |parents|
        invariant 0 <= i <= |parents|
        invariant AddParents(Building(), parents[i..], c, late) == AddParents(old(Building()), parents, c, late)
      {
        assert parents[i..][0] == parents[i] && parents[i..][1..] == parents[i + 1..];
        LinkParent(parents[i], c, late);
        i := i + 1;
      }
    }

    method LinkParent(p: nat, c: nat, late: set<nat>)
      modifies this`waits, events
      ensures var b := old(Building());
              Building() == if NeedsLink(b.g, p, late) then Build(AddChild(b.g, p, c), b.waits + {(p, c)}) else b
    {
      var s := events.StatusOf(p);
      if s == CL_QUEUED || s < 0 || p in late {
        events.Link(p, c);
        waits := waits + {(p, c)};
      }
    }

    /** EventBuilder: the command's event is linked under the protection of a sentinel. */
    method BuildCommand(list: seq<nat>, late: set<nat>)
      modifies this`waits, events
      ensures Building() == AddParents(Start(old(State())), Dedup(list), next + 1, late)
    {
      var parents := CollectParents(list);
      StartCommand(next, next + 1);
      LinkParents(parents, next + 1, late);
    }

    method CompleteSentinel(ghost w: World, ghost b: Build)
      requires b == Building() && w.next == next && w.users == users && w.gone == gone
      modifies this`next, events
      ensures State() == Enqueued(w, b)
    {
      events.Change(next, CL_COMPLETE);
      next := next + 2;
    }

    /** A command with a wait list. */
    method EnqueueCommand(list: seq<nat>, late: set<nat>) returns (c: nat)
      requires Usable(list, next, gone)
      modifies this, events
      ensures State() == Next(old(State()), Enqueue(list, late)) && c == old(next) + 1
    {
      c := next + 1;
      ghost var w := State();
      BuildCommand(list, late);
      ghost var b := Building();
      NextEnqueue(w, list, late, b);
      CompleteSentinel(w, b);
    }

    /** The last reference to an event is dropped. */
    method DestroyEvent(e: nat)
      requires MayGo(State(), e)
      modifies this, events
      ensures State() == Next(old(State()), Destroy(e))
    {
      events.End(e);
      users := users - {e};
      gone := gone + {e};
    }

    /** The device finishes a submitted command. */
    method FinishCommand(e: nat)
      modifies events
      ensures State() == Next(old(State()), Finish(e))
    {
      if e !in users && events.StatusOf(e) == CL_SUBMITTED {
        events.Change(e, CL_COMPLETE);
      }
    }
  }
}
