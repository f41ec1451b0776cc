/** Events that wait for events.  A command's event is queued while an event it waits for is,
    and a status change of an event is passed on along its child links. */
module EventGraph {
  import opened Options
  import opened Collections

  const CL_COMPLETE := 0
  const CL_SUBMITTED := 2
  const CL_QUEUED := 3

  /** Negative values are errors. */
  type Status = s: int | s <= CL_COMPLETE || s == CL_SUBMITTED || s == CL_QUEUED

  datatype Graph = Graph(status: map<nat, Status>, children: map<nat, seq<nat>>, parentCount: map<nat, int>) {
    function St(e: nat): Status {
      if e in status then status[e] else CL_COMPLETE
    }

    function Ch(e: nat): seq<nat> {
      if e in children then children[e] else []
    }

    function Count(e: nat): int {
      if e in parentCount then parentCount[e] else 0
    }
  }

  /* ---- a status change, on values ---- */

  /** The events that a change to status `s` may still reach. */
  ghost function Active(g: Graph, s: int): set<nat> {
    set x | x in g.status && g.status[x] > if s <= CL_COMPLETE then CL_COMPLETE else CL_SUBMITTED
  }

  ghost predicate Lowered(a: Graph, b: Graph) {
    a.status.Keys == b.status.Keys && forall x :: b.St(x) <= a.St(x)
  }

  lemma ActiveShrinks(a: Graph, b: Graph, s: int)
    requires Lowered(a, b)
    ensures |Active(b, s)| <= |Active(a, s)|
  {
    forall x | x in Active(b, s)
      ensures x in Active(a, s)
    {
      assert b.St(x) <= a.St(x);
    }
    SubsetSize(Active(b, s), Active(a, s));
  }

  function Lower(g: Graph, e: nat, s: Status): Graph {
    g.(status := g.status[e := s])
  }

  lemma ActiveDrops(g: Graph, e: nat, s: Status)
    requires e in g.status && g.status[e] > CL_COMPLETE && g.status[e] > s
    ensures |Active(Lower(g, e, s), s)| < |Active(g, s)|
  {
    assert Active(Lower(g, e, s), s) == Active(g, s) - {e};
  }

  function Detached(g: Graph, e: nat): Graph {
    g.(children := g.children[e := []])
  }

  function Told(g: Graph, c: nat): Graph {
    g.(parentCount := g.parentCount[c := g.Count(c) - 1])
  }

  /** Event::setStatus leaves the event alone: it is complete, has the status, or is blocked. */
  predicate Unaffected(g: Graph, e: nat, s: Status) {
    e !in g.status || g.St(e) <= s || g.St(e) <= CL_COMPLETE || (g.Count(e) > 0 && s >= 0)
  }

  function SetStatus(g: Graph, e: nat, s: Status): (r: Graph)
    ensures Lowered(g, r)
    decreases if s == CL_COMPLETE then 1 else 0, |Active(g, s)|, 1, 0
  {
    if Unaffected(g, e, s) then g
    else
      ActiveDrops(g, e, s);
      Unblock(Lower(g, e, s), e, s)
  }

  /** Event::unblockEventsBlockedByThis: the links are detached, then every child is told. */
  function Unblock(g: Graph, e: nat, s: Status): (r: Graph)
    ensures Lowered(g, r)
    decreases if s == CL_COMPLETE then 1 else 0, |Active(g, s)|, 4, 0
  {
    ActiveShrinks(g, Detached(g, e), s);
    TellAll(Detached(g, e), g.Ch(e), s)
  }

  function TellAll(g: Graph, list: seq<nat>, s: Status): (r: Graph)
    ensures Lowered(g, r)
    decreases if s == CL_COMPLETE then 1 else 0, |Active(g, s)|, 3, |list|
  {
    if list == [] then g
    else
      var g' := Tell(g, list[0], s);
      ActiveShrinks(g, g', s);
      TellAll(g', list[1..], s)
  }

  /** Event::unblockEventBy: a child with other links left is only told of an error. */
  function Tell(g: Graph, c: nat, s: Status): (r: Graph)
    ensures Lowered(g, r)
    decreases if s == CL_COMPLETE then 1 else 0, |Active(g, s)|, 2, 0
  {
    var g' := Told(g, c);
    ActiveShrinks(g, g', s);
    if g'.Count(c) > 0 && s >= 0 then g'
    else if s < 0 then SetStatus(g', c, s)
    else
      SubmitRank(g', s);
      SetStatus(g', c, CL_SUBMITTED)
  }

  lemma SubmitRank(g: Graph, s: Status)
    ensures s > CL_COMPLETE ==> |Active(g, CL_SUBMITTED)| <= |Active(g, s)|
  {
  }

  /* ---- the invariant ---- */

  /** The events that have a child link to `c`. */
  ghost function Waiting(g: Graph, c: nat): set<nat> {
    set p | p in g.children && c in g.children[p]
  }

  /** The counter of an event is the number of its links, attached or in `flight`: detached, with
      the child still to be told. */
  ghost predicate Counted(g: Graph, flight: multiset<nat>) {
    forall c :: g.Count(c) == |Waiting(g, c)| + flight[c]
  }

  /** An event that is counted as blocked is queued or terminated. */
  ghost predicate BlockedQueued(g: Graph) {
    forall c :: g.Count(c) > 0 ==> g.St(c) == CL_QUEUED || g.St(c) < 0
  }

  /** A queued event still has all the links ever made from it. */
  ghost predicate QueuedLinked(g: Graph, waits: set<(nat, nat)>) {
    forall p, c :: (p, c) in waits && g.St(p) == CL_QUEUED ==> c in g.Ch(p)
  }

  /** No command gets past the queue before the events it waits for do. */
  lemma SubmissionOrder(g: Graph, waits: set<(nat, nat)>, p: nat, c: nat)
    requires Counted(g, multiset{}) && BlockedQueued(g) && QueuedLinked(g, waits)
    requires (p, c) in waits && g.St(p) == CL_QUEUED
    ensures g.St(c) == CL_QUEUED || g.St(c) < 0
  {
    assert p in Waiting(g, c);
    assert g.Count(c) > 0;
  }

  /* ---- the counters ---- */

  lemma DetachedCounted(g: Graph, e: nat, flight: multiset<nat>)
    requires Counted(g, flight) && NoRepeats(g.Ch(e))
    ensures Counted(Detached(g, e), flight + multiset(g.Ch(e)))
  {
    var g' := Detached(g, e);
    forall c
      ensures g'.Count(c) == |Waiting(g', c)| + (flight + multiset(g.Ch(e)))[c]
    {
      assert g'.Count(c) == g.Count(c) == |Waiting(g, c)| + flight[c];
      assert Waiting(g', c) == Waiting(g, c) - {e};
      assert e in Waiting(g, c) <==> c in g.Ch(e);
      OnceInList(g.Ch(e), c);
    }
  }

  lemma {:induction false} OnceInList(s: seq<nat>, c: nat)
    requires NoRepeats(s)
    ensures multiset(s)[c] == if c in s then 1 else 0
  {
    if s != [] {
      assert s == [s[0]] + s[1..];
      OnceInList(s[1..], c);
    }
  }

  lemma ToldCounted(g: Graph, c: nat, flight: multiset<nat>)
    requires Counted(g, flight + multiset{c})
    ensures Counted(Told(g, c), flight)
  {
    forall x
      ensures Told(g, c).Count(x) == |Waiting(Told(g, c), x)| + flight[x]
    {
      assert g.Count(x) == |Waiting(g, x)| + (flight + multiset{c})[x];
      assert Waiting(Told(g, c), x) == Waiting(g, x);
    }
  }

  lemma LowerCounted(g: Graph, e: nat, s: Status, flight: multiset<nat>)
    requires Counted(g, flight)
    ensures Counted(Lower(g, e, s), flight)
  {
  }

  /** Lists keep being free of repetitions. */
  ghost predicate Lists(g: Graph) {
    forall p :: NoRepeats(g.Ch(p))
  }

  lemma {:induction false} SetStatusCounted(g: Graph, e: nat, s: Status, flight: multiset<nat>)
    requires Counted(g, flight) && Lists(g)
    ensures Counted(SetStatus(g, e, s), flight) && Lists(SetStatus(g, e, s))
    decreases if s == CL_COMPLETE then 1 else 0, |Active(g, s)|, 1, 0
  {
    if !Unaffected(g, e, s) {
      var g' := Lower(g, e, s);
      ActiveDrops(g, e, s);
      LowerCounted(g, e, s, flight);
      assert Lists(g') by { assert forall p :: g'.Ch(p) == g.Ch(p); }
      DetachedCounted(g', e, flight);
      var d := Detached(g', e);
      assert Lists(d) by { assert forall p :: d.Ch(p) == if p == e then [] else g'.Ch(p); }
      ActiveShrinks(g', d, s);
      TellAllCounted(d, g'.Ch(e), s, flight);
    }
  }

  lemma {:induction false} TellAllCounted(g: Graph, list: seq<nat>, s: Status, flight: multiset<nat>)
    requires Counted(g, flight + multiset(list)) && Lists(g)
    ensures Counted(TellAll(g, list, s), flight) && Lists(TellAll(g, list, s))
    decreases if s == CL_COMPLETE then 1 else 0, |Active(g, s)|, 3, |list|
  {
    if list == [] {
      assert flight + multiset(list) == flight;
    } else {
      assert list == [list[0]] + list[1..];
      assert flight + multiset(list) == flight + multiset(list[1..]) + multiset{list[0]};
      TellCounted(g, list[0], s, flight + multiset(list[1..]));
      var g' := Tell(g, list[0], s);
      ActiveShrinks(g, g', s);
      TellAllCounted(g', list[1..], s, flight);
    }
  }

  lemma {:induction false} TellCounted(g: Graph, c: nat, s: Status, flight: multiset<nat>)
    requires Counted(g, flight + multiset{c}) && Lists(g)
    ensures Counted(Tell(g, c, s), flight) && Lists(Tell(g, c, s))
    decreases if s == CL_COMPLETE then 1 else 0, |Active(g, s)|, 2, 0
  {
    var g' := Told(g, c);
    ToldCounted(g, c, flight);
    assert Lists(g') by { assert forall p :: g'.Ch(p) == g.Ch(p); }
    ActiveShrinks(g, g', s);
    if s < 0 {
      SetStatusCounted(g', c, s, flight);
    } else if g'.Count(c) <= 0 {
      SubmitRank(g', s);
      SetStatusCounted(g', c, CL_SUBMITTED, flight);
    }
  }

  /* ---- blocked events stay queued, queued events keep their links ---- */

  ghost predicate Orderly(g: Graph, waits: set<(nat, nat)>) {
    BlockedQueued(g) && QueuedLinked(g, waits)
  }

  lemma LowerOrderly(g: Graph, e: nat, s: Status, waits: set<(nat, nat)>)
    requires Orderly(g, waits) && !Unaffected(g, e, s)
    ensures Orderly(Detached(Lower(g, e, s), e), waits)
  {
    var d := Detached(Lower(g, e, s), e);
    assert forall x :: d.St(x) == if x == e then s else g.St(x);
    assert forall x :: d.Ch(x) == if x == e then [] else g.Ch(x);
    assert forall x :: d.Count(x) == g.Count(x);
  }

  lemma ToldOrderly(g: Graph, c: nat, waits: set<(nat, nat)>)
    requires Orderly(g, waits)
    ensures Orderly(Told(g, c), waits)
  {
    var t := Told(g, c);
    assert forall x :: t.St(x) == g.St(x) && t.Ch(x) == g.Ch(x) && t.Count(x) <= g.Count(x);
  }

  lemma {:induction false} SetStatusOrderly(g: Graph, e: nat, s: Status, waits: set<(nat, nat)>)
    requires Orderly(g, waits)
    ensures Orderly(SetStatus(g, e, s), waits)
    decreases if s == CL_COMPLETE then 1 else 0, |Active(g, s)|, 1, 0
  {
    if !Unaffected(g, e, s) {
      ActiveDrops(g, e, s);
      LowerOrderly(g, e, s, waits);
      var g' := Lower(g, e, s);
      ActiveShrinks(g', Detached(g', e), s);
      TellAllOrderly(Detached(g', e), g'.Ch(e), s, waits);
    }
  }

  lemma {:induction false} TellAllOrderly(g: Graph, list: seq<nat>, s: Status, waits: set<(nat, nat)>)
    requires Orderly(g, waits)
    ensures Orderly(TellAll(g, list, s), waits)
    decreases if s == CL_COMPLETE then 1 else 0, |Active(g, s)|, 3, |list|
  {
    if list != [] {
      var g', c := Told(g, list[0]), list[0];
      ToldOrderly(g, c, waits);
      ActiveShrinks(g, g', s);
      if s < 0 {
        SetStatusOrderly(g', c, s, waits);
      } else if g'.Count(c) <= 0 {
        SubmitRank(g', s);
        SetStatusOrderly(g', c, CL_SUBMITTED, waits);
      }
      ActiveShrinks(g, Tell(g, c, s), s);
      TellAllOrderly(Tell(g, c, s), list[1..], s, waits);
    }
  }

  /* ---- an error reaches everything that waits ---- */

  /** From `a` to `b` open events have been terminated with status `s`; those that were have lost
      their links, and apart from those in `but` none of them left an open child behind. */
  ghost predicate Terminated(a: Graph, b: Graph, s: int, but: set<nat>) {
    && (forall x :: b.St(x) == a.St(x) || (a.St(x) > CL_COMPLETE && b.St(x) == s))
    && (forall x :: b.Ch(x) == if b.St(x) == a.St(x) then a.Ch(x) else [])
    && (forall p: nat, c: nat :: p !in but && c in a.Ch(p) ==> Passed(a, b, p, c))
  }

  /** If `p` was terminated, `c` is not open any more. */
  ghost predicate Passed(a: Graph, b: Graph, p: nat, c: nat) {
    a.St(p) != b.St(p) ==> b.St(c) <= CL_COMPLETE
  }

  lemma TerminatedTwice(a: Graph, b: Graph, c: Graph, s: int, but: set<nat>)
    requires s < 0 && Terminated(a, b, s, but) && Terminated(b, c, s, {})
    ensures Terminated(a, c, s, but)
  {
    forall p: nat, k: nat | p !in but && k in a.Ch(p)
      ensures Passed(a, c, p, k)
    {
      assert Passed(a, b, p, k);
      if b.St(p) == a.St(p) {
        assert Passed(b, c, p, k);
      }
    }
  }

  lemma ToldTerminates(g: Graph, c: nat, r: Graph, s: int)
    requires Terminated(Told(g, c), r, s, {})
    ensures Terminated(g, r, s, {})
  {
    var t := Told(g, c);
    assert forall x :: t.St(x) == g.St(x) && t.Ch(x) == g.Ch(x);
    forall p: nat, k: nat | k in g.Ch(p)
      ensures Passed(g, r, p, k)
    {
      assert Passed(t, r, p, k);
    }
  }

  lemma LowerTerminates(g: Graph, e: nat, s: Status)
    requires s < 0 && !Unaffected(g, e, s)
    ensures Terminated(g, Detached(Lower(g, e, s), e), s, {e})
  {
  }

  lemma {:induction false} SetStatusTerminates(g: Graph, e: nat, s: Status)
    requires s < 0
    ensures Terminated(g, SetStatus(g, e, s), s, {}) && SetStatus(g, e, s).St(e) <= CL_COMPLETE
    decreases |Active(g, s)|, 1, 0
  {
    var r := SetStatus(g, e, s);
    if !Unaffected(g, e, s) {
      ActiveDrops(g, e, s);
      LowerTerminates(g, e, s);
      var g' := Lower(g, e, s);
      var d := Detached(g', e);
      ActiveShrinks(g', d, s);
      TellAllTerminates(d, g.Ch(e), s);
      TerminatedTwice(g, d, r, s, {e});
      forall p: nat, c: nat | c in g.Ch(p)
        ensures Passed(g, r, p, c)
      {
        assert p == e ==> r.St(c) <= CL_COMPLETE;
      }
    }
  }

  lemma {:induction false} TellAllTerminates(g: Graph, list: seq<nat>, s: Status)
    requires s < 0
    ensures Terminated(g, TellAll(g, list, s), s, {}) && forall c :: c in list ==>
              TellAll(g, list, s).St(c) <= CL_COMPLETE
    decreases |Active(g, s)|, 3, |list|
  {
    if list != [] {
      var c, rest := list[0], list[1..];
      var g' := Tell(g, c, s);
      ActiveShrinks(g, Told(g, c), s);
      SetStatusTerminates(Told(g, c), c, s);
      ToldTerminates(g, c, g', s);
      ActiveShrinks(g, g', s);
      TellAllTerminates(g', rest, s);
      TerminatedTwice(g, g', TellAll(g, list, s), s, {});
      assert forall k :: k in list ==> k == c || k in rest;
    }
  }

  /** A chain of events, each of them but the first open and linked to the one before. */
  ghost predicate Chain(g: Graph, path: seq<nat>) {
    && path != []
    && (forall i :: 0 < i < |path| ==> g.St(path[i]) > CL_COMPLETE)
    && (forall i :: 0 < i < |path| ==> path[i] in g.Ch(path[i - 1]))
  }

  /** `x` waits, directly or not, for `e`: links lead from `e` to it through open events. */
  ghost predicate Reaches(g: Graph, e: nat, x: nat) {
    exists path :: Chain(g, path) && path[0] == e && path[|path| - 1] == x
  }

  lemma ChainExtends(g: Graph, e: nat, p: nat, c: nat)
    requires Reaches(g, e, p) && c in g.Ch(p) && g.St(c) > CL_COMPLETE
    ensures Reaches(g, e, c)
  {
    var path :| Chain(g, path) && path[0] == e && path[|path| - 1] == p;
    assert Chain(g, path + [c]);
  }

  /** An error is passed on to every open event that waits, directly or not, for the event. */
  lemma {:induction false} ErrorReachesAll(g: Graph, e: nat, s: Status, path: seq<nat>)
    requires s < 0 && g.St(e) > CL_COMPLETE && Chain(g, path) && path[0] == e
    ensures SetStatus(g, e, s).St(path[|path| - 1]) == s
  {
    SetStatusTerminates(g, e, s);
    var r, n := SetStatus(g, e, s), |path| - 1;
    if n > 0 {
      assert Chain(g, path[..n]);
      ErrorReachesAll(g, e, s, path[..n]);
      assert Passed(g, r, path[n - 1], path[n]);
    }
  }

  /** So does an event that was terminated before, once it tells its children. */
  lemma {:induction false} LateErrorReachesAll(g: Graph, e: nat, s: Status, path: seq<nat>)
    requires s < 0 && g.St(e) <= CL_COMPLETE && Chain(g, path) && path[0] == e && |path| > 1
    ensures Unblock(g, e, s).St(path[|path| - 1]) == s
  {
    var d := Detached(g, e);
    assert forall x :: d.St(x) == g.St(x) && d.Ch(x) == if x == e then [] else g.Ch(x);
    TellAllTerminates(d, g.Ch(e), s);
    var r, n := Unblock(g, e, s), |path| - 1;
    if n > 1 {
      assert Chain(g, path[..n]);
      LateErrorReachesAll(g, e, s, path[..n]);
      assert Passed(d, r, path[n - 1], path[n]);
    }
  }

  /* ---- and nothing else ---- */

  /** No link leads from an open event of the region out of it. */
  ghost predicate Closed(g: Graph, region: iset<nat>) {
    forall p: nat, c: nat :: p in region && g.St(p) > CL_COMPLETE && c in g.Ch(p) ==> c in region
  }

  ghost predicate SameOutside(a: Graph, b: Graph, region: iset<nat>) {
    && (forall x :: x !in region ==> b.St(x) == a.St(x))
    && (forall x :: b.Ch(x) == a.Ch(x) || b.Ch(x) == [])
  }

  lemma {:induction false} SetStatusWithin(g: Graph, e: nat, s: Status, region: iset<nat>)
    requires Closed(g, region) && e in region
    ensures SameOutside(g, SetStatus(g, e, s), region)
    decreases if s == CL_COMPLETE then 1 else 0, |Active(g, s)|, 1, 0
  {
    if !Unaffected(g, e, s) {
      ActiveDrops(g, e, s);
      var g' := Lower(g, e, s);
      var d := Detached(g', e);
      assert forall x :: d.St(x) == if x == e then s else g.St(x);
      assert forall x :: d.Ch(x) == if x == e then [] else g.Ch(x);
      ActiveShrinks(g', d, s);
      TellAllWithin(d, g'.Ch(e), s, region);
    }
  }

  lemma {:induction false} TellAllWithin(g: Graph, list: seq<nat>, s: Status, region: iset<nat>)
    requires Closed(g, region) && forall c :: c in list ==> c in region
    ensures SameOutside(g, TellAll(g, list, s), region)
    decreases if s == CL_COMPLETE then 1 else 0, |Active(g, s)|, 3, |list|
  {
    if list != [] {
      var g' := Tell(g, list[0], s);
      TellWithin(g, list[0], s, region);
      ActiveShrinks(g, g', s);
      StaysClosed(g, g', region);
      TellAllWithin(g', list[1..], s, region);
    }
  }

  lemma {:induction false} TellWithin(g: Graph, c: nat, s: Status, region: iset<nat>)
    requires Closed(g, region) && c in region
    ensures SameOutside(g, Tell(g, c, s), region)
    decreases if s == CL_COMPLETE then 1 else 0, |Active(g, s)|, 2, 0
  {
    var g' := Told(g, c);
    assert forall x :: g'.St(x) == g.St(x) && g'.Ch(x) == g.Ch(x);
    ActiveShrinks(g, g', s);
    if s < 0 {
      SetStatusWithin(g', c, s, region);
    } else if g'.Count(c) <= 0 {
      SubmitRank(g', s);
      SetStatusWithin(g', c, CL_SUBMITTED, region);
    }
  }

  lemma StaysClosed(a: Graph, b: Graph, region: iset<nat>)
    requires Closed(a, region) && SameOutside(a, b, region) && Lowered(a, b)
    ensures Closed(b, region)
  {
  }

  /** The events that wait for `e`, and all finished ones. */
  ghost function Affected(g: Graph, e: nat): iset<nat> {
    iset x: nat | g.St(x) <= CL_COMPLETE || Reaches(g, e, x)
  }

  lemma AffectedClosed(g: Graph, e: nat, d: Graph)
    requires forall x :: d.St(x) == g.St(x) && (d.Ch(x) == g.Ch(x) || d.Ch(x) == [])
    ensures Closed(d, Affected(g, e))
  {
    forall p: nat, c: nat | p in Affected(g, e) && d.St(p) > CL_COMPLETE && c in d.Ch(p)
      ensures c in Affected(g, e)
    {
      if g.St(c) > CL_COMPLETE {
        ChainExtends(g, e, p, c);
      }
    }
  }

  lemma ReachesItself(g: Graph, e: nat)
    ensures Reaches(g, e, e)
  {
    assert Chain(g, [e]);
  }

  /** An error gets to exactly the open events that wait for the event by then. */
  lemma ErrorExact(g: Graph, e: nat, s: Status, x: nat)
    requires s < 0 && g.St(e) > CL_COMPLETE && g.St(x) > CL_COMPLETE
    ensures SetStatus(g, e, s).St(x) == if Reaches(g, e, x) then s else g.St(x)
  {
    if Reaches(g, e, x) {
      var path :| Chain(g, path) && path[0] == e && path[|path| - 1] == x;
      ErrorReachesAll(g, e, s, path);
    } else {
      AffectedClosed(g, e, g);
      ReachesItself(g, e);
      SetStatusWithin(g, e, s, Affected(g, e));
    }
  }

  /** The same when a terminated event tells its children once more. */
  lemma LateErrorExact(g: Graph, e: nat, s: Status, x: nat)
    requires s < 0 && g.St(e) <= CL_COMPLETE && g.St(x) > CL_COMPLETE
    ensures Unblock(g, e, s).St(x) == if Reaches(g, e, x) then s else g.St(x)
  {
    if Reaches(g, e, x) {
      var path :| Chain(g, path) && path[0] == e && path[|path| - 1] == x;
      LateErrorReachesAll(g, e, s, path);
    } else {
      var d := Detached(g, e);
      assert forall y :: d.St(y) == g.St(y) && d.Ch(y) == if y == e then [] else g.Ch(y);
      AffectedClosed(g, e, d);
      ReachesItself(g, e);
      forall c | c in g.Ch(e)
        ensures c in Affected(g, e)
      {
        if g.St(c) > CL_COMPLETE {
          ChainExtends(g, e, e, c);
        }
      }
      TellAllWithin(d, g.Ch(e), s, Affected(g, e));
    }
  }

  /* ---- complete events never change, and without an error none is terminated ---- */

  /** A finished event keeps its status and its links; a status that is no error terminates none. */
  ghost predicate Settled(a: Graph, b: Graph, s: int, x: nat) {
    && (a.St(x) <= CL_COMPLETE ==> b.St(x) == a.St(x) && b.Ch(x) == a.Ch(x))
    && (s >= 0 && b.St(x) < 0 ==> a.St(x) < 0)
  }

  lemma {:induction false} SetStatusFinal(g: Graph, e: nat, s: Status, x: nat)
    ensures Settled(g, SetStatus(g, e, s), s, x)
    decreases if s == CL_COMPLETE then 1 else 0, |Active(g, s)|, 1, 0
  {
    if !Unaffected(g, e, s) {
      ActiveDrops(g, e, s);
      var g' := Lower(g, e, s);
      ActiveShrinks(g', Detached(g', e), s);
      TellAllFinal(Detached(g', e), g'.Ch(e), s, x);
    }
  }

  lemma {:induction false} TellAllFinal(g: Graph, list: seq<nat>, s: Status, x: nat)
    ensures Settled(g, TellAll(g, list, s), s, x)
    decreases if s == CL_COMPLETE then 1 else 0, |Active(g, s)|, 3, |list|
  {
    if list != [] {
      var g', c := Told(g, list[0]), list[0];
      ActiveShrinks(g, g', s);
      if s < 0 {
        SetStatusFinal(g', c, s, x);
      } else if g'.Count(c) <= 0 {
        SubmitRank(g', s);
        SetStatusFinal(g', c, CL_SUBMITTED, x);
      }
      ActiveShrinks(g, Tell(g, c, s), s);
      TellAllFinal(Tell(g, c, s), list[1..], s, x);
    }
  }

  /** A status that ends an event is the one it ends with. */
  lemma SetStatusSets(g: Graph, e: nat, s: Status)
    requires s <= CL_COMPLETE && !Unaffected(g, e, s)
    ensures SetStatus(g, e, s).St(e) == s
  {
    var g' := Lower(g, e, s);
    TellAllFinal(Detached(g', e), g'.Ch(e), s, e);
  }

  /* ---- without an error: who is submitted ---- */

  /** Events have moved: those whose status changed have no link to them any more and none from
      them, and were submitted, apart from `e` itself. */
  ghost predicate Moved(a: Graph, b: Graph, e: Option<nat>) {
    forall x :: MovedAt(a, b, e, x)
  }

  ghost predicate MovedAt(a: Graph, b: Graph, e: Option<nat>, x: nat) {
    && b.Count(x) <= a.Count(x)
    && b.Ch(x) == (if b.St(x) == a.St(x) then a.Ch(x) else [])
    && (b.St(x) != a.St(x) ==>
          b.Count(x) <= 0 && (Some(x) != e ==> a.St(x) == CL_QUEUED && b.St(x) == CL_SUBMITTED))
  }

  lemma MovedTwice(a: Graph, b: Graph, c: Graph, e: Option<nat>)
    requires Moved(a, b, e) && Moved(b, c, None) && (e.Some? ==> c.St(e.value) == b.St(e.value))
    ensures Moved(a, c, e)
  {
    forall x
      ensures MovedAt(a, c, e, x)
    {
      assert MovedAt(a, b, e, x) && MovedAt(b, c, None, x);
    }
  }

  /** `SetStatus` on a queued event, or with a finishing status. */
  lemma {:induction false} SetStatusMoves(g: Graph, e: nat, s: Status)
    requires s == CL_COMPLETE || s == CL_SUBMITTED
    ensures Moved(g, SetStatus(g, e, s), Some(e))
    ensures !Unaffected(g, e, s) ==> SetStatus(g, e, s).St(e) == s
    decreases if s == CL_COMPLETE then 1 else 0, |Active(g, s)|, 1, 0
  {
    if !Unaffected(g, e, s) {
      ActiveDrops(g, e, s);
      var g' := Lower(g, e, s);
      var d := Detached(g', e);
      ActiveShrinks(g', d, s);
      TellAllMoves(d, g'.Ch(e), s, e);
      forall x
        ensures MovedAt(g, d, Some(e), x)
      {
      }
      MovedTwice(g, d, TellAll(d, g'.Ch(e), s), Some(e));
    }
  }

  /** Telling children moves only queued events, and not an event that has the status already. */
  lemma {:induction false} TellAllMoves(g: Graph, list: seq<nat>, s: Status, e: nat)
    requires (s == CL_COMPLETE || s == CL_SUBMITTED) && g.St(e) <= CL_SUBMITTED
    ensures Moved(g, TellAll(g, list, s), None) && TellAll(g, list, s).St(e) == g.St(e)
    decreases if s == CL_COMPLETE then 1 else 0, |Active(g, s)|, 3, |list|
  {
    if list != [] {
      var g' := Tell(g, list[0], s);
      TellMoves(g, list[0], s);
      assert MovedAt(g, g', None, e);
      ActiveShrinks(g, g', s);
      TellAllMoves(g', list[1..], s, e);
      MovedTwice(g, g', TellAll(g', list[1..], s), None);
    }
  }

  lemma {:induction false} TellMoves(g: Graph, c: nat, s: Status)
    requires s == CL_COMPLETE || s == CL_SUBMITTED
    ensures Moved(g, Tell(g, c, s), None)
    decreases if s == CL_COMPLETE then 1 else 0, |Active(g, s)|, 2, 0
  {
    var t := Told(g, c);
    ActiveShrinks(g, t, s);
    forall x
      ensures MovedAt(g, t, None, x)
    {
    }
    if t.Count(c) <= 0 {
      SubmitRank(t, s);
      SetStatusMoves(t, c, CL_SUBMITTED);
      var r := SetStatus(t, c, CL_SUBMITTED);
      forall x
        ensures MovedAt(t, r, None, x)
      {
        assert MovedAt(t, r, Some(c), x);
      }
      MovedTwice(g, t, r, None);
    }
  }

  /* ---- who stays queued ---- */

  /** Every queued event outside `but` still has a link to it. */
  ghost predicate Held(g: Graph, but: iset<nat>) {
    forall x :: x !in but && g.St(x) == CL_QUEUED ==> g.Count(x) > 0
  }

  lemma {:induction false} SetStatusHolds(g: Graph, e: nat, s: Status, but: iset<nat>)
    requires Held(g, but + iset{e}) && (Unaffected(g, e, s) ==> Held(g, but))
    ensures Held(SetStatus(g, e, s), but)
    decreases if s == CL_COMPLETE then 1 else 0, |Active(g, s)|, 1, 0
  {
    if !Unaffected(g, e, s) {
      ActiveDrops(g, e, s);
      var g' := Lower(g, e, s);
      var d := Detached(g', e);
      ActiveShrinks(g', d, s);
      assert forall x :: d.St(x) == (if x == e then s else g.St(x)) && d.Count(x) == g.Count(x);
      TellAllHolds(d, g'.Ch(e), s, but);
    }
  }

  lemma {:induction false} TellAllHolds(g: Graph, list: seq<nat>, s: Status, but: iset<nat>)
    requires Held(g, but)
    ensures Held(TellAll(g, list, s), but)
    decreases if s == CL_COMPLETE then 1 else 0, |Active(g, s)|, 3, |list|
  {
    if list != [] {
      TellHolds(g, list[0], s, but);
      ActiveShrinks(g, Tell(g, list[0], s), s);
      TellAllHolds(Tell(g, list[0], s), list[1..], s, but);
    }
  }

  lemma {:induction false} TellHolds(g: Graph, c: nat, s: Status, but: iset<nat>)
    requires Held(g, but)
    ensures Held(Tell(g, c, s), but)
    decreases if s == CL_COMPLETE then 1 else 0, |Active(g, s)|, 2, 0
  {
    var t := Told(g, c);
    ActiveShrinks(g, t, s);
    assert forall x :: t.St(x) == g.St(x) && t.Count(x) == if x == c then g.Count(c) - 1 else g.Count(x);
    if s < 0 {
      SetStatusHolds(t, c, s, but);
    } else if t.Count(c) <= 0 {
      SubmitRank(t, s);
      SetStatusHolds(t, c, CL_SUBMITTED, but);
    }
  }

  /** The events that are released when `e` lets go of its children: all links to them come from
      `e` and from events released in turn.  Links lead from older to newer events. */
  ghost predicate Released(g: Graph, e: nat, x: nat)
    decreases x
  {
    && g.St(x) == CL_QUEUED && x != e && Waiting(g, x) != {}
    && forall p :: p in Waiting(g, x) ==> p == e || (p < x && Released(g, e, p))
  }

  ghost predicate Ascending(g: Graph) {
    forall p: nat, c: nat :: c in g.Ch(p) ==> p < c
  }

  /** One event after the change, seen from those that it waits for. */
  lemma ReleaseStep(g: Graph, e: nat, s: Status, x: nat, but: iset<nat>)
    requires (s == CL_COMPLETE || s == CL_SUBMITTED) && !Unaffected(g, e, s)
    requires Counted(g, multiset{}) && Lists(g) && Held(g, but + iset{e})
    requires x != e && x !in but && g.St(x) == CL_QUEUED
    ensures var r := SetStatus(g, e, s);
            && (r.St(x) == CL_SUBMITTED <==> forall p :: p in Waiting(g, x) ==> r.St(p) != g.St(p))
            && (r.St(x) == CL_SUBMITTED || r.St(x) == CL_QUEUED)
  {
    var r := SetStatus(g, e, s);
    SetStatusMoves(g, e, s);
    SetStatusHolds(g, e, s, but);
    SetStatusCounted(g, e, s, multiset{});
    assert MovedAt(g, r, Some(e), x);
    assert r.Count(x) == |Waiting(r, x)| + multiset{}[x];
    forall p
      ensures p in Waiting(r, x) <==> p in Waiting(g, x) && r.St(p) == g.St(p)
    {
      assert MovedAt(g, r, Some(e), p);
    }
    if r.St(x) == CL_QUEUED {
      assert Waiting(r, x) != {};
    } else {
      assert Waiting(r, x) == {};
    }
  }

  /** A change to complete or submitted submits exactly the queued events whose last link it takes,
      and those that they release in turn; no other event changes. */
  lemma {:induction false} ReleaseExact(g: Graph, e: nat, s: Status, x: nat, but: iset<nat>)
    requires (s == CL_COMPLETE || s == CL_SUBMITTED) && !Unaffected(g, e, s)
    requires Counted(g, multiset{}) && Lists(g) && Ascending(g) && Held(g, but + iset{e})
    requires forall u :: u in but ==> Waiting(g, u) == {} && g.Count(u) <= 0
    requires x != e
    ensures SetStatus(g, e, s).St(x) == if Released(g, e, x) then CL_SUBMITTED else g.St(x)
    decreases x
  {
    var r := SetStatus(g, e, s);
    SetStatusMoves(g, e, s);
    assert MovedAt(g, r, Some(e), x);
    if g.St(x) == CL_QUEUED && x !in but {
      ReleaseStep(g, e, s, x, but);
      assert g.Count(x) > 0;
      HasWaiting(g, x);
      assert r.St(e) == s && s < g.St(e);
      forall p | p in Waiting(g, x) && p != e
        ensures p < x && (r.St(p) != g.St(p) <==> Released(g, e, p))
      {
        assert x in g.Ch(p) && p < x;
        ReleaseExact(g, e, s, p, but);
      }
    } else if g.St(x) == CL_QUEUED {
      UntoldStays(g, e, s, x);
    }
  }

  lemma HasWaiting(g: Graph, x: nat)
    requires Counted(g, multiset{}) && g.Count(x) > 0
    ensures Waiting(g, x) != {}
  {
    assert g.Count(x) == |Waiting(g, x)| + multiset{}[x];
  }

  predicate Differ(x: nat, y: nat) {
    x != y
  }

  /** An event without links is not told of anything. */
  lemma UntoldStays(g: Graph, e: nat, s: Status, x: nat)
    requires x != e && Waiting(g, x) == {}
    ensures SetStatus(g, e, s).St(x) == g.St(x)
  {
    var region := iset y: nat | Differ(y, x);
    forall p: nat, c: nat | p in region && g.St(p) > CL_COMPLETE && c in g.Ch(p)
      ensures c in region
    {
      assert p in Waiting(g, c);
    }
    SetStatusWithin(g, e, s, region);
  }

  /* ---- links ---- */

  function Linked(g: Graph, p: nat, c: nat): Graph {
    g.(children := g.children[p := [c] + g.Ch(p)], parentCount := g.parentCount[c := g.Count(c) + 1])
  }

  /** Event::addChild: the children of a complete event are told at once. */
  function AddChild(g: Graph, p: nat, c: nat): (r: Graph)
    ensures Lowered(g, r)
  {
    var l := Linked(g, p, c);
    if g.St(p) == CL_COMPLETE then Unblock(l, p, CL_COMPLETE) else l
  }

  /** A new link leaves finished events finished, terminates none, and stays on a terminated one. */
  lemma AddChildFinal(g: Graph, p: nat, c: nat, x: nat)
    ensures var r := AddChild(g, p, c);
            && (g.St(x) <= CL_COMPLETE ==> r.St(x) == g.St(x)) && (r.St(x) < 0 ==> g.St(x) < 0)
            && (g.St(x) < 0 ==> r.Ch(x) == if x == p then [c] + g.Ch(x) else g.Ch(x))
  {
    var l := Linked(g, p, c);
    if g.St(p) == CL_COMPLETE {
      TellAllFinal(Detached(l, p), l.Ch(p), CL_COMPLETE, x);
    }
  }

  /* ---- links lead from events that can still hold back ---- */

  /** A queued or terminated event holds its children back, and a submitted one those linked late. */
  predicate HoldsBack(s: Status, punctual: bool) {
    s == CL_QUEUED || s < 0 || (!punctual && s == CL_SUBMITTED)
  }

  /** Every link was made as such, from an event that still exists and holds back, to a newer one. */
  ghost predicate Attached(g: Graph, waits: set<(nat, nat)>, gone: set<nat>, punctual: bool) {
    forall p: nat, c: nat :: c in g.Ch(p) ==>
      p < c && (p, c) in waits && p !in gone && HoldsBack(g.St(p), punctual)
  }

  /** A status change either leaves an event alone or takes its links. */
  ghost predicate LinksFollow(a: Graph, b: Graph) {
    forall x :: b.Ch(x) == if b.St(x) == a.St(x) then a.Ch(x) else []
  }

  lemma SetStatusLinks(g: Graph, e: nat, s: Status)
    requires s <= CL_COMPLETE
    ensures LinksFollow(g, SetStatus(g, e, s))
  {
    if s < 0 {
      SetStatusTerminates(g, e, s);
    } else {
      SetStatusMoves(g, e, s);
      forall x
        ensures SetStatus(g, e, s).Ch(x) == if SetStatus(g, e, s).St(x) == g.St(x) then g.Ch(x) else []
      {
        assert MovedAt(g, SetStatus(g, e, s), Some(e), x);
      }
    }
  }

  lemma TellAllLinks(g: Graph, list: seq<nat>, s: Status, e: nat)
    requires s <= CL_COMPLETE && g.St(e) <= CL_COMPLETE
    ensures LinksFollow(g, TellAll(g, list, s))
  {
    if s < 0 {
      TellAllTerminates(g, list, s);
    } else {
      TellAllMoves(g, list, s, e);
      forall x
        ensures TellAll(g, list, s).Ch(x) == if TellAll(g, list, s).St(x) == g.St(x) then g.Ch(x) else []
      {
        assert MovedAt(g, TellAll(g, list, s), None, x);
      }
    }
  }

  lemma FollowAttached(a: Graph, b: Graph, waits: set<(nat, nat)>, gone: set<nat>, punctual: bool)
    requires Attached(a, waits, gone, punctual) && LinksFollow(a, b)
    ensures Attached(b, waits, gone, punctual)
  {
  }

  lemma AddChildAttached(g: Graph, p: nat, c: nat, waits: set<(nat, nat)>, gone: set<nat>, punctual: bool)
    requires Attached(g, waits, gone, punctual) && p < c && p !in gone
    requires HoldsBack(g.St(p), punctual) || g.St(p) == CL_COMPLETE
    ensures Attached(AddChild(g, p, c), waits + {(p, c)}, gone, punctual)
  {
    var l := Linked(g, p, c);
    assert forall x :: l.St(x) == g.St(x) && l.Ch(x) == if x == p then [c] + g.Ch(p) else g.Ch(x);
    if g.St(p) == CL_COMPLETE {
      var d := Detached(l, p);
      assert forall x :: d.St(x) == g.St(x) && d.Ch(x) == if x == p then [] else g.Ch(x);
      TellAllLinks(d, l.Ch(p), CL_COMPLETE, p);
      FollowAttached(d, AddChild(g, p, c), waits + {(p, c)}, gone, punctual);
    }
  }

  lemma AddChildHolds(g: Graph, p: nat, c: nat, but: iset<nat>)
    requires Held(g, but + iset{c}) && g.Count(c) >= 0
    ensures Held(AddChild(g, p, c), but)
  {
    var l := Linked(g, p, c);
    assert forall x :: l.St(x) == g.St(x) && l.Count(x) == if x == c then g.Count(c) + 1 else g.Count(x);
    if g.St(p) == CL_COMPLETE {
      var d := Detached(l, p);
      assert forall x :: d.St(x) == l.St(x) && d.Count(x) == l.Count(x);
      TellAllHolds(d, l.Ch(p), CL_COMPLETE, but);
    }
  }

  /** The links of a complete event are gone, and one more is taken at once. */
  lemma AddChildQuiet(g: Graph, p: nat, c: nat)
    requires g.Count(c) > 0 && (g.St(p) == CL_COMPLETE ==> g.Ch(p) == [])
    ensures var r := AddChild(g, p, c);
            && (forall x :: r.St(x) == g.St(x))
            && (forall x :: r.Ch(x) == if x == p && g.St(p) != CL_COMPLETE then [c] + g.Ch(p) else g.Ch(x))
            && r.Count(c) > 0
  {
    var l := Linked(g, p, c);
    if g.St(p) == CL_COMPLETE {
      var d := Detached(l, p);
      assert l.Ch(p) == [c] && d.Count(c) == g.Count(c) + 1;
      assert TellAll(d, [c], CL_COMPLETE) == Tell(d, c, CL_COMPLETE) by {
        assert [c][1..] == [];
      }
    }
  }

  /* ---- the end of an event ---- */

  /** Event::~Event: an open event is terminated, and in any case the children are told. */
  function LastStatus(g: Graph, e: nat): Status {
    if g.St(e) > CL_COMPLETE then -1 else g.St(e)
  }

  function Destroyed(g: Graph, e: nat): (r: Graph)
    ensures Lowered(g, r)
  {
    Unblock(if g.St(e) > CL_COMPLETE then Lower(g, e, -1) else g, e, LastStatus(g, e))
  }

  /** For an open event that is the same as an error -1. */
  lemma DestroyedOpen(g: Graph, e: nat)
    requires g.St(e) > CL_COMPLETE
    ensures Destroyed(g, e) == SetStatus(g, e, -1)
  {
  }

  /** The error of an event that ends gets to exactly the open events that wait for it. */
  lemma DestroyedExact(g: Graph, e: nat, x: nat)
    requires LastStatus(g, e) < 0 && g.St(x) > CL_COMPLETE
    ensures Destroyed(g, e).St(x) == if Reaches(g, e, x) then LastStatus(g, e) else g.St(x)
  {
    if g.St(e) > CL_COMPLETE {
      ErrorExact(g, e, -1, x);
    } else {
      LateErrorExact(g, e, g.St(e), x);
    }
  }

  lemma DestroyedFinal(g: Graph, e: nat, x: nat)
    ensures g.St(x) <= CL_COMPLETE ==> Destroyed(g, e).St(x) == g.St(x) && (x != e ==> Destroyed(g, e).Ch(x) == g.Ch(x))
  {
    var g' := if g.St(e) > CL_COMPLETE then Lower(g, e, -1) else g;
    TellAllFinal(Detached(g', e), g'.Ch(e), LastStatus(g, e), x);
  }

  /** The whole invariant. */
  ghost predicate Inv(g: Graph, waits: set<(nat, nat)>) {
    Counted(g, multiset{}) && Lists(g) && Orderly(g, waits)
  }

  lemma SetStatusInv(g: Graph, e: nat, s: Status, waits: set<(nat, nat)>)
    requires Inv(g, waits)
    ensures Inv(SetStatus(g, e, s), waits)
  {
    SetStatusCounted(g, e, s, multiset{});
    SetStatusOrderly(g, e, s, waits);
  }

  lemma UnblockInv(g: Graph, e: nat, s: Status, waits: set<(nat, nat)>)
    requires Inv(g, waits) && g.St(e) != CL_QUEUED
    ensures Inv(Unblock(g, e, s), waits)
  {
    var d := Detached(g, e);
    assert forall x :: d.Ch(x) == if x == e then [] else g.Ch(x);
    assert forall x :: d.St(x) == g.St(x) && d.Count(x) == g.Count(x);
    DetachedCounted(g, e, multiset{});
    assert multiset{} + multiset(g.Ch(e)) == multiset(g.Ch(e));
    TellAllCounted(d, g.Ch(e), s, multiset{});
    TellAllOrderly(d, g.Ch(e), s, waits);
  }

  lemma DestroyedInv(g: Graph, e: nat, waits: set<(nat, nat)>)
    requires Inv(g, waits)
    ensures Inv(Destroyed(g, e), waits)
  {
    if g.St(e) > CL_COMPLETE {
      SetStatusInv(g, e, -1, waits);
    } else {
      UnblockInv(g, e, g.St(e), waits);
    }
  }

  lemma DestroyedHolds(g: Graph, e: nat, but: iset<nat>)
    requires Held(g, but + iset{e})
    ensures g.St(e) == CL_QUEUED || Held(g, but) ==> Held(Destroyed(g, e), but)
  {
    if g.St(e) > CL_COMPLETE {
      if g.St(e) == CL_QUEUED || Held(g, but) {
        SetStatusHolds(g, e, -1, but);
      }
    } else if Held(g, but) {
      TellAllHolds(Detached(g, e), g.Ch(e), g.St(e), but);
    }
  }

  lemma DestroyedAttached(g: Graph, e: nat, waits: set<(nat, nat)>, gone: set<nat>, punctual: bool)
    requires Attached(g, waits, gone, punctual)
    ensures Attached(Destroyed(g, e), waits, gone + {e}, punctual)
  {
    if g.St(e) > CL_COMPLETE {
      SetStatusLinks(g, e, -1);
      SetStatusSets(g, e, -1);
      FollowAttached(g, Destroyed(g, e), waits, gone, punctual);
    } else {
      var d := Detached(g, e);
      assert forall x :: d.St(x) == g.St(x) && d.Ch(x) == if x == e then [] else g.Ch(x);
      TellAllLinks(d, g.Ch(e), g.St(e), e);
      FollowAttached(d, Destroyed(g, e), waits, gone + {e}, punctual);
    }
  }

  lemma LinkedInv(g: Graph, p: nat, c: nat, waits: set<(nat, nat)>)
    requires Inv(g, waits) && c !in g.Ch(p) && (g.St(c) == CL_QUEUED || g.St(c) < 0)
    ensures Inv(Linked(g, p, c), waits + {(p, c)})
  {
    var l := Linked(g, p, c);
    LinkedCounted(g, p, c);
    assert forall x :: l.Ch(x) == if x == p then [c] + g.Ch(p) else g.Ch(x);
    assert forall x :: l.St(x) == g.St(x);
    forall q
      ensures NoRepeats(l.Ch(q))
    {
      assert NoRepeats(g.Ch(q));
    }
  }

  lemma LinkedCounted(g: Graph, p: nat, c: nat)
    requires Counted(g, multiset{}) && c !in g.Ch(p)
    ensures Counted(Linked(g, p, c), multiset{})
  {
    var l := Linked(g, p, c);
    forall x
      ensures l.Count(x) == |Waiting(l, x)| + multiset{}[x]
    {
      assert g.Count(x) == |Waiting(g, x)|;
      if x == c {
        assert p !in Waiting(g, c);
        assert Waiting(l, c) == Waiting(g, c) + {p};
      } else {
        assert Waiting(l, x) == Waiting(g, x);
      }
    }
  }

  lemma AddChildInv(g: Graph, p: nat, c: nat, waits: set<(nat, nat)>)
    requires Inv(g, waits) && c !in g.Ch(p) && (g.St(c) == CL_QUEUED || g.St(c) < 0)
    ensures Inv(AddChild(g, p, c), waits + {(p, c)})
  {
    LinkedInv(g, p, c, waits);
    if g.St(p) == CL_COMPLETE {
      UnblockInv(Linked(g, p, c), p, CL_COMPLETE, waits + {(p, c)});
    }
  }

  /* ---- the same in place ---- */

  class Events {
    var status: map<nat, Status>
    var children: map<nat, seq<nat>>
    var parentCount: map<nat, int>

    constructor ()
      ensures State() == Graph(map[], map[], map[])
    {
      status, children, parentCount := map[], map[], map[];
    }

    ghost function State(): Graph
      reads this
    {
      Graph(status, children, parentCount)
    }

    function StatusOf(e: nat): (s: Status)
      reads this
      ensures s == State().St(e)
    {
      if e in status then status[e] else CL_COMPLETE
    }

    method Change(e: nat, s: Status)
      modifies this
      ensures State() == SetStatus(old(State()), e, s)
      decreases if s == CL_COMPLETE then 1 else 0, |Active(State(), s)|, 1
    {
      var count := if e in parentCount then parentCount[e] else 0;
      if e !in status || status[e] <= s || status[e] <= CL_COMPLETE || (count > 0 && s >= 0) {
        return;
      }
      ActiveDrops(State(), e, s);
      status := status[e := s];
      UnblockChildren(e, s);
    }

    method UnblockChildren(e: nat, s: Status)
      modifies this
      ensures State() == Unblock(old(State()), e, s)
      decreases if s == CL_COMPLETE then 1 else 0, |Active(State(), s)|, 3
    {
      ghost var g := State();
      var list := if e in children then children[e] else [];
      children := children[e := []];
      ghost var d := State();
      ActiveShrinks(g, d, s);
      var i := 0;
      assert list[0..] == list;
      while i < |list|
        invariant 0 <= i <= |list|
        invariant Lowered(g, State())
        invariant TellAll(State(), list[i..], s) == TellAll(d, list, s)
      {
        assert list[i..][0] == list[i] && list[i..][1..] == list[i + 1..];
        ActiveShrinks(g, State(), s);
        TellChild(list[i], s);
        i := i + 1;
      }
    }

    method TellChild(c: nat, s: Status)
      modifies this
      ensures State() == Tell(old(State()), c, s)
      decreases if s == CL_COMPLETE then 1 else 0, |Active(State(), s)|, 2
    {
      ghost var g := State();
      var left := (if c in parentCount then parentCount[c] else 0) - 1;
      parentCount := parentCount[c := left];
      ActiveShrinks(g, State(), s);
      if left > 0 && s >= 0 {
        return;
      }
      if s < 0 {
        Change(c, s);
      } else {
        SubmitRank(State(), s);
        Change(c, CL_SUBMITTED);
      }
    }

    /** The destructor. */
    method End(e: nat)
      modifies this
      ensures State() == Destroyed(old(State()), e)
    {
      if StatusOf(e) > CL_COMPLETE {
        status := status[e := -1];
      }
      UnblockChildren(e, StatusOf(e));
    }

    method Link(p: nat, c: nat)
      modifies this
      ensures State() == AddChild(old(State()), p, c)
    {
      parentCount := parentCount[c := (if c in parentCount then parentCount[c] else 0) + 1];
      children := children[p := [c] + if p in children then children[p] else []];
      if StatusOf(p) == CL_COMPLETE {
        UnblockChildren(p, CL_COMPLETE);
      }
    }
  }
}
