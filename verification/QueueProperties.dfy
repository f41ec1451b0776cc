/** Command-queue creation: scanning zero-terminated property lists and the checks on them. */
module QueueProperties {
  import opened Options
  import opened ClTypes

  const QUEUE_PROPERTIES := 0x1093
  const QUEUE_SIZE := 0x1094
  const QUEUE_PRIORITY := 0x1096
  const QUEUE_THROTTLE := 0x1097
  const QUEUE_SLICE_COUNT := 0x10021
  const QUEUE_FAMILY := 0x418C
  const QUEUE_INDEX := 0x418D
  const QUEUE_MDAPI_PROPERTIES := 0x425E
  const QUEUE_MDAPI_CONFIGURATION := 0x425F

  const KNOWN_KEYS: set<nat> :=
    {QUEUE_PROPERTIES, QUEUE_SIZE, QUEUE_PRIORITY, QUEUE_THROTTLE, QUEUE_SLICE_COUNT,
     QUEUE_FAMILY, QUEUE_INDEX, QUEUE_MDAPI_PROPERTIES, QUEUE_MDAPI_CONFIGURATION}

  /* ---- lists in memory ---- */

  datatype Pair = Pair(key: nat, value: nat)

  /** Words from the list's address on hold a key that is zero. */
  predicate Terminated(words: seq<nat>) {
    |words| > 0 && (words[0] == 0 || (|words| > 1 && Terminated(words[2..])))
  }

  /** The pairs before the terminator. */
  function Pairs(words: seq<nat>): seq<Pair>
    requires Terminated(words)
  {
    if words[0] == 0 then [] else [Pair(words[0], words[1])] + Pairs(words[2..])
  }

  function Encode(ps: seq<Pair>): seq<nat> {
    if ps == [] then [0] else [ps[0].key, ps[0].value] + Encode(ps[1..])
  }

  predicate NonzeroKeys(ps: seq<Pair>) {
    forall i :: 0 <= i < |ps| ==> ps[i].key != 0
  }

  /** The scan ends at the terminator whatever the values are and whatever follows. */
  lemma {:induction false} PairsOfEncode(ps: seq<Pair>, after: seq<nat>)
    requires NonzeroKeys(ps)
    ensures Terminated(Encode(ps) + after) && Pairs(Encode(ps) + after) == ps
  {
    var words := Encode(ps) + after;
    if ps != [] {
      PairsOfEncode(ps[1..], after);
      assert words[2..] == Encode(ps[1..]) + after;
    }
  }

  /** The value of the first pair with the key. */
  function Lookup(ps: seq<Pair>, key: nat): Option<nat> {
    if ps == [] then None else if ps[0].key == key then Some(ps[0].value) else Lookup(ps[1..], key)
  }

  /** A null pointer stands for the empty list. */
  function ListOf(properties: Option<seq<nat>>): seq<Pair>
    requires properties.Some? ==> Terminated(properties.value)
  {
    if properties.Some? then Pairs(properties.value) else []
  }

  lemma TerminatedStep(words: seq<nat>, i: nat)
    requires i < |words| && Terminated(words[i..]) && words[i] != 0
    ensures i + 2 < |words| && Terminated(words[i + 2..])
    ensures Pairs(words[i..]) == [Pair(words[i], words[i + 1])] + Pairs(words[i + 2..])
  {
  }

  /** getCmdQueueProperties, before the result is cut to the width asked for. */
  method GetCmdQueueProperty(properties: Option<seq<nat>>, key: nat) returns (found: bool, value: nat)
    requires properties.Some? ==> Terminated(properties.value)
    ensures var l := Lookup(ListOf(properties), key);
            found == l.Some? && value == if l.Some? then l.value else 0
  {
    if properties.None? {
      return false, 0;
    }
    var words := properties.value;
    var at := 0;
    assert words[0..] == words;
    while words[at] != 0
      invariant at < |words| && Terminated(words[at..])
      invariant Lookup(Pairs(words[at..]), key) == Lookup(Pairs(words), key)
      decreases |words| - at
    {
      TerminatedStep(words, at);
      if words[at] == key {
        return true, words[at + 1];
      }
      at := at + 2;
    }
    return false, 0;
  }

  predicate AllKnown(ps: seq<Pair>) {
    forall i :: 0 <= i < |ps| ==> ps[i].key in KNOWN_KEYS
  }

  /** The first loop of the scanner: every key is a known one. */
  method CheckKeys(properties: Option<seq<nat>>) returns (ok: bool)
    requires properties.Some? ==> Terminated(properties.value)
    ensures ok == AllKnown(ListOf(properties))
  {
    if properties.None? {
      return true;
    }
    var words := properties.value;
    var at := 0;
    var token := words[0];
    ghost var seen: seq<Pair> := [];
    assert words[0..] == words;
    while token != 0
      invariant at < |words| && Terminated(words[at..]) && token == words[at]
      invariant AllKnown(seen) && seen + Pairs(words[at..]) == Pairs(words)
      decreases |words| - at
    {
      TerminatedStep(words, at);
      var pair := Pair(token, words[at + 1]);
      assert Pairs(words)[|seen|] == pair;
      if token !in KNOWN_KEYS {
        return false;
      }
      seen := seen + [pair];
      at := at + 2;
      token := words[at];
    }
    ok := true;
  }

  /* ---- the checks ---- */

  datatype DeviceLimits = DeviceLimits(queueOnDeviceMaxSize: nat, maxSliceCount: nat, families: seq<nat>)

  predicate OutOfOrder(p: nat) { p % 2 == 1 }
  predicate Profiling(p: nat) { p / 2 % 2 == 1 }
  predicate OnDevice(p: nat) { p / 4 % 2 == 1 }
  predicate OnDeviceDefault(p: nat) { p / 8 % 2 == 1 }

  /** static_cast to cl_uint. */
  function Low32(v: nat): nat { v % 0x1_0000_0000 }

  function ValueOf(l: Option<nat>): nat { if l.Some? then l.value else 0 }

  /** What a list means: the value of every known key. */
  datatype Request = Request(
    properties: Option<nat>, size: Option<nat>, priority: Option<nat>, throttle: Option<nat>, sliceCount: Option<nat>,
    family: Option<nat>, index: Option<nat>, mdapiProperties: Option<nat>, mdapiConfiguration: Option<nat>)

  function RequestOf(ps: seq<Pair>): Request {
    Request(
      Lookup(ps, QUEUE_PROPERTIES), Lookup(ps, QUEUE_SIZE), Lookup(ps, QUEUE_PRIORITY), Lookup(ps, QUEUE_THROTTLE),
      Lookup(ps, QUEUE_SLICE_COUNT), Lookup(ps, QUEUE_FAMILY), Lookup(ps, QUEUE_INDEX),
      Lookup(ps, QUEUE_MDAPI_PROPERTIES), Lookup(ps, QUEUE_MDAPI_CONFIGURATION))
  }

  predicate FamilyOk(r: Request, d: DeviceLimits) {
    && r.family.Some? == r.index.Some?
    && (r.family.Some? ==>
          Low32(r.family.value) < |d.families| && Low32(r.index.value) < d.families[Low32(r.family.value)])
  }

  /** The code of a list of known keys, by what it asks for: queues on the device are refused in
      one way or another. */
  function RequestCode(r: Request, d: DeviceLimits): ClCode {
    var p := ValueOf(r.properties);
    if OnDevice(p) then if OutOfOrder(p) then CL_INVALID_QUEUE_PROPERTIES else CL_INVALID_VALUE
    else if OnDeviceDefault(p) then CL_INVALID_VALUE
    else if ValueOf(r.size) > d.queueOnDeviceMaxSize || ValueOf(r.sliceCount) > d.maxSliceCount || !FamilyOk(r, d) then
      CL_INVALID_QUEUE_PROPERTIES
    else if r.mdapiConfiguration.Some? && Low32(r.mdapiConfiguration.value) != 0 then CL_INVALID_OPERATION
    else CL_SUCCESS
  }

  function ListCode(ps: seq<Pair>, d: DeviceLimits): ClCode {
    if AllKnown(ps) then RequestCode(RequestOf(ps), d) else CL_INVALID_VALUE
  }

  datatype Outcome =
    | Queue(request: Request)
    | Refused(code: ClCode)
    | Aborted

  /** The environment of a creation: whether its objects are valid and belong together, the code
      of making the queue itself, and whether performance counters can be switched on. */
  datatype Setting = Setting(objects: ClCode, associated: bool, limits: DeviceLimits, createCode: ClCode,
      counters: bool)

  predicate MdapiEnabled(r: Request) {
    r.mdapiProperties.Some? && r.mdapiProperties.value % 2 == 1
  }

  /** The outcome of a list. */
  function ListOutcome(s: Setting, ps: seq<Pair>): Outcome {
    if s.objects != CL_SUCCESS then Refused(s.objects)
    else if !s.associated then Refused(CL_INVALID_DEVICE)
    else if ListCode(ps, s.limits) != CL_SUCCESS then Refused(ListCode(ps, s.limits))
    else if MdapiEnabled(RequestOf(ps)) && s.createCode != CL_SUCCESS then Aborted
    else if MdapiEnabled(RequestOf(ps)) && !s.counters then Refused(CL_OUT_OF_RESOURCES)
    else if s.createCode != CL_SUCCESS then Refused(CL_OUT_OF_HOST_MEMORY)
    else Queue(RequestOf(ps))
  }

  /** Which lists give a queue: known keys only, no queue on the device, size and slice count within
      the limits, an existing family and index after the cut or neither, no configuration, and
      counters where they are asked for. */
  lemma QueueExact(s: Setting, ps: seq<Pair>)
    ensures ListOutcome(s, ps).Queue? <==>
              && s.objects == CL_SUCCESS && s.associated && s.createCode == CL_SUCCESS
              && KeysListed(ps) && Accepted(s.limits, ps) && (ValueAt(ps, 0x425E) % 2 == 1 ==> s.counters)
  {
    CodesExact(s.limits, ps);
    LookupsAreValues(ps);
  }

  predicate KeysListed(ps: seq<Pair>) {
    forall i :: 0 <= i < |ps| ==>
      ps[i].key in {0x1093, 0x1094, 0x1096, 0x1097, 0x10021, 0x418C, 0x418D, 0x425E, 0x425F}
  }

  predicate Accepted(d: DeviceLimits, ps: seq<Pair>) {
    && ValueAt(ps, 0x1093) % 16 < 4
    && ValueAt(ps, 0x1094) <= d.queueOnDeviceMaxSize && ValueAt(ps, 0x10021) <= d.maxSliceCount
    && FamilyGiven(d, Lookup(ps, 0x418C), Lookup(ps, 0x418D)) && ValueAt(ps, 0x425F) % 0x1_0000_0000 == 0
  }

  /** Neither family nor index, or both, and the device has them after the cut to 32 bits. */
  predicate FamilyGiven(d: DeviceLimits, family: Option<nat>, index: Option<nat>) {
    if family.None? then index.None?
    else
      && index.Some? && family.value % 0x1_0000_0000 < |d.families|
      && index.value % 0x1_0000_0000 < d.families[family.value % 0x1_0000_0000]
  }

  /** Which code a list gets: an unknown key, then a queue on the device, then sizes and families, then
      a configuration. */
  lemma CodesExact(d: DeviceLimits, ps: seq<Pair>)
    ensures !KeysListed(ps) ==> ListCode(ps, d) == CL_INVALID_VALUE
    ensures KeysListed(ps) ==>
              var p, code := ValueAt(ps, 0x1093), ListCode(ps, d);
              var tooLarge := ValueAt(ps, 0x1094) > d.queueOnDeviceMaxSize || ValueAt(ps, 0x10021) > d.maxSliceCount;
              && (code == CL_SUCCESS <==> Accepted(d, ps))
              && (p % 8 >= 4 ==> code == if p % 2 == 1 then CL_INVALID_QUEUE_PROPERTIES else CL_INVALID_VALUE)
              && (p % 8 < 4 && p % 16 >= 8 ==> code == CL_INVALID_VALUE)
              && (p % 16 < 4 && (tooLarge || !FamilyGiven(d, Lookup(ps, 0x418C), Lookup(ps, 0x418D))) ==>
                    code == CL_INVALID_QUEUE_PROPERTIES)
              && (code == CL_INVALID_OPERATION ==> ValueAt(ps, 0x425F) % 0x1_0000_0000 != 0)
  {
    LookupsAreValues(ps);
    Bits(ValueAt(ps, 0x1093));
    RequestCodes(RequestOf(ps), d);
  }

  lemma Bits(p: nat)
    ensures OnDevice(p) <==> p % 8 >= 4
    ensures OnDeviceDefault(p) <==> p % 16 >= 8
    ensures OutOfOrder(p) <==> p % 2 == 1
    ensures p % 16 < 4 <==> p % 8 < 4 && p % 16 < 8
  {
  }

  lemma RequestCodes(r: Request, d: DeviceLimits)
    ensures var p, code := ValueOf(r.properties), RequestCode(r, d);
            var tooLarge := ValueOf(r.size) > d.queueOnDeviceMaxSize || ValueOf(r.sliceCount) > d.maxSliceCount;
            var bad := tooLarge || !FamilyGiven(d, r.family, r.index);
            && (OnDevice(p) ==> code == if OutOfOrder(p) then CL_INVALID_QUEUE_PROPERTIES else CL_INVALID_VALUE)
            && (!OnDevice(p) && OnDeviceDefault(p) ==> code == CL_INVALID_VALUE)
            && (!OnDevice(p) && !OnDeviceDefault(p) ==>
                  code == if bad then CL_INVALID_QUEUE_PROPERTIES
                          else if ValueOf(r.mdapiConfiguration) % 0x1_0000_0000 != 0 then CL_INVALID_OPERATION
                          else CL_SUCCESS)
  {
  }

  /** The value a list gives to a key, 0 if it gives none. */
  function ValueAt(ps: seq<Pair>, key: nat): nat {
    if ps == [] then 0 else if ps[0].key == key then ps[0].value else ValueAt(ps[1..], key)
  }

  lemma {:induction false} ValueAtIsLookup(ps: seq<Pair>, key: nat)
    ensures ValueAt(ps, key) == ValueOf(Lookup(ps, key))
  {
    if ps != [] {
      ValueAtIsLookup(ps[1..], key);
    }
  }

  lemma LookupsAreValues(ps: seq<Pair>)
    ensures forall key: nat :: ValueAt(ps, key) == ValueOf(Lookup(ps, key))
  {
    forall key: nat
      ensures ValueAt(ps, key) == ValueOf(Lookup(ps, key))
    {
      ValueAtIsLookup(ps, key);
    }
  }

  /* ---- order ---- */

  /** Pairs with the same known key have the same value, in particular when keys are distinct. */
  predicate Consistent(ps: seq<Pair>) {
    forall i, j :: 0 <= i < |ps| && 0 <= j < |ps| && ps[i].key == ps[j].key && ps[i].key in KNOWN_KEYS ==>
        ps[i] == ps[j]
  }

  lemma {:induction false} LookupFinds(ps: seq<Pair>, key: nat)
    ensures Lookup(ps, key).Some? ==> Pair(key, Lookup(ps, key).value) in ps
    ensures Lookup(ps, key).None? <==> forall v: nat :: Pair(key, v) !in ps
  {
    if ps != [] {
      assert ps == [ps[0]] + ps[1..];
      LookupFinds(ps[1..], key);
      if ps[0].key == key {
        assert Pair(key, ps[0].value) in ps;
      }
    }
  }

  lemma LookupPermuted(ps: seq<Pair>, qs: seq<Pair>, key: nat)
    requires Consistent(ps) && multiset(ps) == multiset(qs) && key in KNOWN_KEYS
    ensures Lookup(ps, key) == Lookup(qs, key)
  {
    LookupFinds(ps, key);
    LookupFinds(qs, key);
    forall v: nat
      ensures Pair(key, v) in ps <==> Pair(key, v) in qs
    {
      assert Pair(key, v) in multiset(ps) <==> Pair(key, v) in multiset(qs);
    }
  }

  /** The outcome of a list, not only its error code, does not depend on the order of the pairs
      when no known key is repeated with another value. */
  lemma OrderIrrelevant(s: Setting, ps: seq<Pair>, qs: seq<Pair>)
    requires Consistent(ps) && multiset(ps) == multiset(qs)
    ensures RequestOf(ps) == RequestOf(qs) && ListOutcome(s, ps) == ListOutcome(s, qs)
  {
    forall key: nat | key in KNOWN_KEYS
      ensures Lookup(ps, key) == Lookup(qs, key)
    {
      LookupPermuted(ps, qs, key);
    }
    KnownPermuted(ps, qs);
  }

  lemma KnownPermuted(ps: seq<Pair>, qs: seq<Pair>)
    requires multiset(ps) == multiset(qs)
    ensures AllKnown(ps) <==> AllKnown(qs)
  {
    forall i | 0 <= i < |qs|
      ensures exists j :: 0 <= j < |ps| && ps[j] == qs[i]
    {
      assert qs[i] in multiset(ps);
    }
    forall i | 0 <= i < |ps|
      ensures exists j :: 0 <= j < |qs| && qs[j] == ps[i]
    {
      assert ps[i] in multiset(qs);
    }
  }

  /** Pair `m` moved to the front. */
  function Fronted(ps: seq<Pair>, m: nat): seq<Pair>
    requires m < |ps|
  {
    [ps[m]] + ps[..m] + ps[m + 1..]
  }

  lemma FrontedWins(ps: seq<Pair>, m: nat)
    requires m < |ps|
    ensures multiset(Fronted(ps, m)) == multiset(ps) && Lookup(Fronted(ps, m), ps[m].key) == Some(ps[m].value)
  {
    assert ps == ps[..m] + [ps[m]] + ps[m + 1..];
  }

  /** What a list asks for is the same in every order exactly when it is consistent: otherwise
      some reordering gives a known key another value. */
  lemma OrderExact(ps: seq<Pair>)
    ensures Consistent(ps) <==> forall qs: seq<Pair> :: multiset(qs) == multiset(ps) ==> RequestOf(qs) == RequestOf(ps)
  {
    if Consistent(ps) {
      forall qs: seq<Pair> | multiset(qs) == multiset(ps)
        ensures RequestOf(qs) == RequestOf(ps)
      {
        OrderIrrelevant(Setting(CL_SUCCESS, true, DeviceLimits(0, 0, []), CL_SUCCESS, true), ps, qs);
      }
    } else {
      var i, j :| 0 <= i < |ps| && 0 <= j < |ps| && ps[i].key == ps[j].key && ps[i].key in KNOWN_KEYS && ps[i] != ps[j];
      var m := if Lookup(ps, ps[i].key) == Some(ps[i].value) then j else i;
      FrontedWins(ps, m);
      RequestDiffers(ps, Fronted(ps, m), ps[m].key);
    }
  }

  lemma RequestDiffers(ps: seq<Pair>, qs: seq<Pair>, key: nat)
    requires key in KNOWN_KEYS && Lookup(ps, key) != Lookup(qs, key)
    ensures RequestOf(ps) != RequestOf(qs)
  {
  }

  lemma LookupTwo(a: Pair, b: Pair, key: nat)
    ensures Lookup([b], key) == if b.key == key then Some(b.value) else None
    ensures Lookup([a, b], key) == if a.key == key then Some(a.value) else Lookup([b], key)
  {
  }

  /** With a repeated key the order decides: the first pair counts. */
  lemma RepeatedKeyOrderMatters(s: Setting)
    requires s.objects == CL_SUCCESS && s.associated && s.createCode == CL_SUCCESS
    ensures var on, off := Pair(QUEUE_PROPERTIES, 4), Pair(QUEUE_PROPERTIES, 0);
            && multiset([on, off]) == multiset([off, on])
            && ListOutcome(s, [on, off]).Refused? && ListOutcome(s, [off, on]).Queue?
  {
    var on, off := Pair(QUEUE_PROPERTIES, 4), Pair(QUEUE_PROPERTIES, 0);
    forall key: nat
      ensures Lookup([on, off], key) == if key == QUEUE_PROPERTIES then Some(4) else None
      ensures Lookup([off, on], key) == if key == QUEUE_PROPERTIES then Some(0) else None
    {
      LookupTwo(on, off, key);
      LookupTwo(off, on, key);
    }
    assert OnDevice(4);
  }

  /** The requested family and index, as they are given, exist on the device. */
  predicate FamilyExists(r: Request, d: DeviceLimits) {
    r.family.Some? && r.index.Some? && r.family.value < |d.families| && r.index.value < d.families[r.family.value]
  }

  /** The check on the cut values is right exactly for values below 2^32: a request for an
      existing queue passes, and one that passes names an existing queue unless it was cut. */
  lemma FamilyCheckExact(r: Request, d: DeviceLimits)
    requires r.family.Some? && r.index.Some? && |d.families| <= 0x1_0000_0000
    requires forall f :: 0 <= f < |d.families| ==> d.families[f] <= 0x1_0000_0000
    ensures FamilyExists(r, d) <==> FamilyOk(r, d) && r.family.value < 0x1_0000_0000 && r.index.value < 0x1_0000_0000
  {
  }

  /** A family index is cut to 32 bits before it is checked: 2^32 asks for family 0. */
  lemma FamilyIsCut(d: DeviceLimits, i: nat)
    requires |d.families| > 0 && i < d.families[0] && d.families[0] <= 0x1_0000_0000
    ensures var r := RequestOf([Pair(QUEUE_FAMILY, 0x1_0000_0000), Pair(QUEUE_INDEX, i)]);
            FamilyOk(r, d)
  {
    LookupTwo(Pair(QUEUE_FAMILY, 0x1_0000_0000), Pair(QUEUE_INDEX, i), QUEUE_FAMILY);
    LookupTwo(Pair(QUEUE_FAMILY, 0x1_0000_0000), Pair(QUEUE_INDEX, i), QUEUE_INDEX);
  }

  /* ---- the four entry points ---- */

  /** The queue's own property bits. */
  function BitsOf(o: Outcome): nat {
    if o.Queue? then ValueOf(o.request.properties) else 0
  }

  /** The checks of the list after its keys were found known. */
  method CheckList(d: DeviceLimits, properties: Option<seq<nat>>) returns (code: ClCode)
    requires properties.Some? ==> Terminated(properties.value)
    ensures code == RequestCode(RequestOf(ListOf(properties)), d)
  {
    var _, p := GetCmdQueueProperty(properties, QUEUE_PROPERTIES);
    if OnDevice(p) {
      if !OutOfOrder(p) {
        return CL_INVALID_VALUE;
      }
      return CL_INVALID_QUEUE_PROPERTIES;
    }
    if OnDeviceDefault(p) {
      if !OnDevice(p) {
        return CL_INVALID_VALUE;
      }
    }
    var _, size := GetCmdQueueProperty(properties, QUEUE_SIZE);
    if size > d.queueOnDeviceMaxSize {
      return CL_INVALID_QUEUE_PROPERTIES;
    }
    var _, slices := GetCmdQueueProperty(properties, QUEUE_SLICE_COUNT);
    if slices > d.maxSliceCount {
      return CL_INVALID_QUEUE_PROPERTIES;
    }
    var familySelected, family := GetCmdQueueProperty(properties, QUEUE_FAMILY);
    var queueSelected, index := GetCmdQueueProperty(properties, QUEUE_INDEX);
    if familySelected != queueSelected {
      return CL_INVALID_QUEUE_PROPERTIES;
    }
    if familySelected && (Low32(family) >= |d.families| || Low32(index) >= d.families[Low32(family)]) {
      return CL_INVALID_QUEUE_PROPERTIES;
    }
    var configured, configuration := GetCmdQueueProperty(properties, QUEUE_MDAPI_CONFIGURATION);
    if configured && Low32(configuration) != 0 {
      return CL_INVALID_OPERATION;
    }
    code := CL_SUCCESS;
  }

  /** clCreateCommandQueueWithProperties; clCreateCommandQueueWithPropertiesKHR forwards to it. */
  method CreateCommandQueueWithProperties(s: Setting, properties: Option<seq<nat>>) returns (o: Outcome)
    requires properties.Some? ==> Terminated(properties.value)
    ensures o == ListOutcome(s, ListOf(properties))
    ensures !OnDevice(BitsOf(o)) && !OnDeviceDefault(BitsOf(o))
    ensures o.Queue? ==> o.request.properties == Lookup(ListOf(properties), 0x1093)
    ensures s.objects != CL_SUCCESS ==> o == Refused(s.objects)
    ensures s.objects == CL_SUCCESS && !s.associated ==> o == Refused(CL_INVALID_DEVICE)
    ensures s.objects == CL_SUCCESS && s.associated && ListCode(ListOf(properties), s.limits) != CL_SUCCESS ==>
              o == Refused(ListCode(ListOf(properties), s.limits))
    ensures s.objects == CL_SUCCESS && s.associated && ListCode(ListOf(properties), s.limits) == CL_SUCCESS ==>
              var l := Lookup(ListOf(properties), 0x425E);
              var counting := l.Some? && l.value % 2 == 1;
              && (counting && s.createCode != CL_SUCCESS ==> o == Aborted)
              && (counting && s.createCode == CL_SUCCESS && !s.counters ==> o == Refused(CL_OUT_OF_RESOURCES))
              && (!counting && s.createCode != CL_SUCCESS ==> o == Refused(CL_OUT_OF_HOST_MEMORY))
              && (s.createCode == CL_SUCCESS && (counting ==> s.counters) ==> o.Queue?)
  {
    if s.objects != CL_SUCCESS {
      return Refused(s.objects);
    }
    if !s.associated {
      return Refused(CL_INVALID_DEVICE);
    }
    var known := CheckKeys(properties);
    if !known {
      return Refused(CL_INVALID_VALUE);
    }
    var code := CheckList(s.limits, properties);
    if code != CL_SUCCESS {
      return Refused(code);
    }
    var mdapiSet, mdapi := GetCmdQueueProperty(properties, QUEUE_MDAPI_PROPERTIES);
    if mdapiSet && mdapi % 2 == 1 {
      if s.createCode != CL_SUCCESS {
        return Aborted;
      }
      if !s.counters {
        return Refused(CL_OUT_OF_RESOURCES);
      }
    }
    if s.createCode != CL_SUCCESS {
      return Refused(CL_OUT_OF_HOST_MEMORY);
    }
    o := Queue(RequestOf(ListOf(properties)));
  }

  /** A list of two bits alone is accepted. */
  lemma OnePair(properties: nat, d: DeviceLimits)
    requires properties < 4
    ensures var ps := [Pair(QUEUE_PROPERTIES, properties)];
            Lookup(ps, QUEUE_PROPERTIES) == Some(properties) && ListCode(ps, d) == CL_SUCCESS &&
                !MdapiEnabled(RequestOf(ps))
  {
    forall key: nat
      ensures Lookup([Pair(QUEUE_PROPERTIES, properties)], key) == if key == QUEUE_PROPERTIES then Some(properties)
                else None
    {
      LookupTwo(Pair(QUEUE_PROPERTIES, properties), Pair(QUEUE_PROPERTIES, properties), key);
    }
  }

  /** clCreateCommandQueue: bits other than out-of-order and profiling are refused, and the rest
      is a list of one pair. */
  method CreateCommandQueue(s: Setting, properties: nat) returns (o: Outcome)
    ensures properties >= 4 ==> o == Refused(CL_INVALID_VALUE)
    ensures properties < 4 && s.createCode == CL_SUCCESS ==> o == ListOutcome(s, [Pair(QUEUE_PROPERTIES, properties)])
    ensures properties < 4 && s.objects == CL_SUCCESS && s.associated && s.createCode != CL_SUCCESS ==>
              o == Refused(s.createCode)
    ensures o.Queue? <==> properties < 4 && s.objects == CL_SUCCESS && s.associated && s.createCode == CL_SUCCESS
    ensures o.Queue? ==> BitsOf(o) == properties
    ensures !OnDevice(BitsOf(o)) && !OnDeviceDefault(BitsOf(o))
  {
    if properties >= 4 {
      return Refused(CL_INVALID_VALUE);
    }
    if s.objects != CL_SUCCESS {
      return Refused(s.objects);
    }
    if !s.associated {
      return Refused(CL_INVALID_DEVICE);
    }
    if s.createCode != CL_SUCCESS {
      return Refused(s.createCode);
    }
    var ps := [Pair(QUEUE_PROPERTIES, properties)];
    var props := [QUEUE_PROPERTIES, properties, 0];
    assert props == Encode(ps) + [] by {
      assert Encode(ps[1..]) == [0];
    }
    PairsOfEncode(ps, []);
    OnePair(properties, s.limits);
    o := Queue(RequestOf(Pairs(props)));
  }

  /** clCreatePerfCountersCommandQueueINTEL. */
  method CreatePerfCountersCommandQueue(s: Setting, isDevice: bool, instrumented: bool, properties: nat,
      configuration: nat) returns (o: Outcome)
    ensures o.Queue? <==>
              && isDevice && instrumented && Profiling(properties) && properties < 4 && configuration == 0
              && s.objects == CL_SUCCESS && s.associated && s.createCode == CL_SUCCESS && s.counters
    ensures o.Queue? ==> BitsOf(o) == properties && (properties == 2 || properties == 3)
    ensures isDevice && instrumented &&
              (!Profiling(properties) || OnDevice(properties) || OnDeviceDefault(properties)) ==>
              o == Refused(CL_INVALID_QUEUE_PROPERTIES)
    ensures !OnDevice(BitsOf(o)) && !OnDeviceDefault(BitsOf(o))
  {
    if !isDevice || !instrumented {
      return Refused(CL_INVALID_DEVICE);
    }
    if !Profiling(properties) || OnDevice(properties) || OnDeviceDefault(properties) {
      return Refused(CL_INVALID_QUEUE_PROPERTIES);
    }
    if configuration != 0 {
      return Refused(CL_INVALID_OPERATION);
    }
    o := CreateCommandQueue(s, properties);
    if o.Queue? && !s.counters {
      o := Refused(CL_OUT_OF_RESOURCES);
    }
  }
}
