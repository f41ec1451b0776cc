/** Device enumeration: the nested loop that fills a caller's array with the devices of a
    platform that match a type mask. */
module Devices {
  import opened Options

  const DEVICE_TYPE_DEFAULT: bv64 := 1
  const DEVICE_TYPE_CPU: bv64 := 2
  const DEVICE_TYPE_GPU: bv64 := 4
  const DEVICE_TYPE_ACCELERATOR: bv64 := 8
  const DEVICE_TYPE_CUSTOM: bv64 := 16
  const DEVICE_TYPE_ALL: bv64 := 0xFFFF_FFFF

  datatype ClDevice = ClDevice(id: nat, deviceType: bv64)

  datatype RootDevice = RootDevice(own: ClDevice, subDevices: seq<ClDevice>)

  datatype HierarchyMode = Composite | Flat | Combined

  datatype Platform = Platform(id: nat, devices: seq<RootDevice>, mode: HierarchyMode)

  predicate HasType(d: ClDevice, mask: bv64) {
    mask & d.deviceType != 0
  }

  /** The mask a device type stands for: everything but custom devices, or GPUs by default. */
  function EffectiveMask(deviceType: bv64): bv64 {
    if deviceType == DEVICE_TYPE_ALL then
      DEVICE_TYPE_GPU | DEVICE_TYPE_CPU | DEVICE_TYPE_ACCELERATOR | DEVICE_TYPE_DEFAULT
    else if deviceType == DEVICE_TYPE_DEFAULT then DEVICE_TYPE_GPU
    else deviceType
  }

  /** What a platform device shows to the application. */
  function Shown(d: RootDevice, mode: HierarchyMode): seq<ClDevice> {
    if mode != Composite && |d.subDevices| > 0 then d.subDevices else [d.own]
  }

  function Flatten(ds: seq<RootDevice>, mode: HierarchyMode): seq<ClDevice> {
    if ds == [] then [] else Shown(ds[0], mode) + Flatten(ds[1..], mode)
  }

  function Filter(s: seq<ClDevice>, mask: bv64): (r: seq<ClDevice>)
    ensures |r| <= |s|
  {
    if s == [] then []
    else if HasType(s[0], mask) then [s[0]] + Filter(s[1..], mask)
    else Filter(s[1..], mask)
  }

  function Min(a: nat, b: nat): nat {
    if a <= b then a else b
  }

  /** The number of platform devices considered; a limit of 0 is none. */
  function Considered(p: Platform, limit: nat): nat {
    if limit == 0 then |p.devices| else Min(limit, |p.devices|)
  }

  /** The reference: the flattened device list, filtered. */
  function Matches(p: Platform, deviceType: bv64, limit: nat): seq<ClDevice> {
    Filter(Flatten(p.devices[..Considered(p, limit)], p.mode), EffectiveMask(deviceType))
  }

  /** A query for the default asks for GPUs; one for all asks for everything but devices that are
      nothing but custom; any other asks for the devices that share a bit with it. */
  predicate Wanted(d: ClDevice, deviceType: bv64) {
    && (deviceType == 1 ==> d.deviceType & 4 != 0)
    && (deviceType == 0xFFFF_FFFF ==>
          d.deviceType & 2 != 0 || d.deviceType & 4 != 0 || d.deviceType & 8 != 0 || d.deviceType & 1 != 0)
    && (deviceType != 1 && deviceType != 0xFFFF_FFFF ==> deviceType & d.deviceType != 0)
  }

  /** A query selects exactly the shown devices of the type. */
  lemma SelectionExact(p: Platform, deviceType: bv64, limit: nat, d: ClDevice)
    ensures d in Matches(p, deviceType, limit) <==> d in Considering(p, limit) && Wanted(d, deviceType)
  {
    AllBits(d.deviceType);
    FilterCounts(Considering(p, limit), EffectiveMask(deviceType), d);
    assert d in Matches(p, deviceType, limit) <==> multiset(Matches(p, deviceType, limit))[d] > 0;
    assert d in Considering(p, limit) <==> multiset(Considering(p, limit))[d] > 0;
  }

  lemma AllBits(t: bv64)
    ensures (4 | 2 | 8 | 1) & t != 0 <==> t & 2 != 0 || t & 4 != 0 || t & 8 != 0 || t & 1 != 0
  {
  }

  /** The devices that a platform shows under a limit. */
  function Considering(p: Platform, limit: nat): seq<ClDevice> {
    Flatten(p.devices[..Considered(p, limit)], p.mode)
  }

  /** A limit stands for the first root devices, and none or a large one for all of them. */
  lemma LimitExact(p: Platform, deviceType: bv64, limit: nat)
    ensures 0 < limit <= |p.devices| ==>
              Matches(p, deviceType, limit) == Matches(p.(devices := p.devices[..limit]), deviceType, 0)
    ensures limit > |p.devices| ==> Matches(p, deviceType, limit) == Matches(p, deviceType, 0)
    ensures Considering(p, 0) == Flatten(p.devices, p.mode)
  {
    assert p.devices[..|p.devices|] == p.devices;
    if 0 < limit <= |p.devices| {
      assert p.devices[..limit][..limit] == p.devices[..limit];
    }
  }

  /** In composite mode exactly the root devices are shown, in order. */
  lemma {:induction false} RootsShown(ds: seq<RootDevice>)
    ensures |Flatten(ds, Composite)| == |ds|
    ensures forall i :: 0 <= i < |ds| ==> Flatten(ds, Composite)[i] == ds[i].own
  {
    if ds != [] {
      RootsShown(ds[1..]);
    }
  }

  /** In the other modes the sub-devices of a root device are shown in order, between what is shown
      of the root devices before and after it; a root device is shown itself only without any. */
  lemma SubDevicesShown(ds: seq<RootDevice>, i: nat, mode: HierarchyMode)
    requires i < |ds| && (mode == Flat || mode == Combined)
    ensures var mine := if |ds[i].subDevices| > 0 then ds[i].subDevices else [ds[i].own];
            Flatten(ds, mode) == Flatten(ds[..i], mode) + mine + Flatten(ds[i + 1..], mode)
  {
    FlattenNext(ds, i, mode);
  }

  lemma {:induction false} FilterSplits(a: seq<ClDevice>, b: seq<ClDevice>, mask: bv64)
    ensures Filter(a + b, mask) == Filter(a, mask) + Filter(b, mask)
  {
    if a == [] {
      assert a + b == b;
    } else {
      assert (a + b)[1..] == a[1..] + b;
      FilterSplits(a[1..], b, mask);
    }
  }

  lemma {:induction false} FlattenSplits(a: seq<RootDevice>, b: seq<RootDevice>, mode: HierarchyMode)
    ensures Flatten(a + b, mode) == Flatten(a, mode) + Flatten(b, mode)
  {
    if a == [] {
      assert a + b == b;
    } else {
      assert (a + b)[1..] == a[1..] + b;
      FlattenSplits(a[1..], b, mode);
    }
  }

  /** A device is selected as often as it is shown, if its type is asked for, and else never. */
  lemma {:induction false} FilterCounts(s: seq<ClDevice>, mask: bv64, d: ClDevice)
    ensures multiset(Filter(s, mask))[d] == if HasType(d, mask) then multiset(s)[d] else 0
  {
    if s != [] {
      assert s == [s[0]] + s[1..];
      FilterCounts(s[1..], mask, d);
      var rest := Filter(s[1..], mask);
      assert multiset([s[0]] + rest) == multiset{s[0]} + multiset(rest);
    }
  }

  /** `now` is `was` with its first slots filled with `found`. */
  ghost predicate Wrote(was: seq<Option<ClDevice>>, now: seq<Option<ClDevice>>, found: seq<ClDevice>) {
    && |now| == |was| && |found| <= |now|
    && (forall k :: 0 <= k < |found| ==> now[k] == Some(found[k]))
    && (forall k :: |found| <= k < |now| ==> now[k] == was[k])
  }

  type Slots = array?<Option<ClDevice>>

  /** The array while the loop goes on: it holds all matches seen, which fit. */
  ghost predicate Filled(was: seq<Option<ClDevice>>, now: seq<Option<ClDevice>>, found: seq<ClDevice>,
      numEntries: nat) {
    |found| <= numEntries <= |now| && Wrote(was, now, found)
  }

  ghost function Contents(out: Slots): seq<Option<ClDevice>>
    reads out
  {
    if out == null then [] else out[..]
  }

  method CheckDeviceTypeAndFillDeviceID(d: ClDevice, mask: bv64, out: Slots, numEntries: nat, retNum: nat)
      returns (go: bool, n: nat)
    requires out != null ==> retNum <= numEntries <= out.Length
    modifies out
    ensures go <==> !(HasType(d, mask) && out != null && retNum == numEntries)
    ensures n == if go && HasType(d, mask) then retNum + 1 else retNum
    ensures Contents(out) ==
            if out != null && n > retNum then old(Contents(out))[retNum := Some(d)] else old(Contents(out))
  {
    n := retNum;
    if HasType(d, mask) {
      if out != null {
        if retNum >= numEntries {
          return false, n;
        }
        out[retNum] := Some(d);
      }
      n := n + 1;
    }
    go := true;
  }

  /** One more device seen, on values. */
  lemma OneMore(seen: seq<ClDevice>, d: ClDevice, mask: bv64)
    ensures Filter(seen + [d], mask) == Filter(seen, mask) + if HasType(d, mask) then [d] else []
  {
    FilterSplits(seen, [d], mask);
  }

  /** The array has been filled to capacity and a further match was met. */
  ghost predicate Stopped(was: seq<Option<ClDevice>>, now: seq<Option<ClDevice>>, seen: seq<ClDevice>, mask: bv64,
      numEntries: nat) {
    var found := Filter(seen, mask);
    numEntries < |found| && numEntries <= |now| && Wrote(was, now, found[..numEntries])
  }

  /** What a loop over `seen` leaves, whether it ran to its end or stopped at capacity. */
  ghost predicate Progress(go: bool, out: bool, was: seq<Option<ClDevice>>, now: seq<Option<ClDevice>>,
                           seen: seq<ClDevice>, mask: bv64, numEntries: nat, retNum: nat) {
    if !out then go && retNum == |Filter(seen, mask)|
    else if go then retNum == |Filter(seen, mask)| && Filled(was, now, Filter(seen, mask), numEntries)
    else retNum == numEntries && Stopped(was, now, seen, mask, numEntries)
  }

  lemma StepProgress(out: bool, was: seq<Option<ClDevice>>, now: seq<Option<ClDevice>>, seen: seq<ClDevice>,
                     mask: bv64, numEntries: nat, retNum: nat, d: ClDevice)
    requires Progress(true, out, was, now, seen, mask, numEntries, retNum)
    ensures !HasType(d, mask) ==> Progress(true, out, was, now, seen + [d], mask, numEntries, retNum)
    ensures HasType(d, mask) && !out ==> Progress(true, out, was, now, seen + [d], mask, numEntries, retNum + 1)
    ensures HasType(d, mask) && out && retNum < numEntries ==>
              Progress(true, out, was, now[retNum := Some(d)], seen + [d], mask, numEntries, retNum + 1)
    ensures HasType(d, mask) && out && retNum == numEntries ==>
              Progress(false, out, was, now, seen + [d], mask, numEntries, retNum)
  {
    OneMore(seen, d, mask);
    var found := Filter(seen, mask);
    if HasType(d, mask) && out && retNum == numEntries {
      assert (found + [d])[..numEntries] == found;
    }
  }

  /** More devices after the stop change nothing. */
  lemma StopIsFinal(was: seq<Option<ClDevice>>, now: seq<Option<ClDevice>>, seen: seq<ClDevice>, more: seq<ClDevice>,
      mask: bv64, numEntries: nat)
    requires Stopped(was, now, seen, mask, numEntries)
    ensures Stopped(was, now, seen + more, mask, numEntries)
  {
    FilterSplits(seen, more, mask);
    assert Filter(seen + more, mask)[..numEntries] == Filter(seen, mask)[..numEntries];
  }

  lemma AllSeen(out: bool, was: seq<Option<ClDevice>>, now: seq<Option<ClDevice>>, seen: seq<ClDevice>, mask: bv64,
                numEntries: nat, retNum: nat)
    requires Progress(true, out, was, now, seen, mask, numEntries, retNum)
    ensures var all := Filter(seen, mask);
            && retNum == (if out then Min(numEntries, |all|) else |all|)
            && (out ==> Wrote(was, now, all[..retNum]))
  {
    var all := Filter(seen, mask);
    assert all[..|all|] == all;
  }

  method FillSubDevices(ds: seq<ClDevice>, mask: bv64, out: Slots, numEntries: nat, retNum: nat,
                        ghost was: seq<Option<ClDevice>>, ghost seen: seq<ClDevice>) returns (go: bool, n: nat)
    requires Progress(true, out != null, was, Contents(out), seen, mask, numEntries, retNum)
    modifies out
    ensures Progress(go, out != null, was, Contents(out), seen + ds, mask, numEntries, n)
  {
    go, n := true, retNum;
    var i := 0;
    assert seen + ds[..0] == seen;
    while i < |ds|
      invariant 0 <= i <= |ds|
      invariant go
      invariant Progress(true, out != null, was, Contents(out), seen + ds[..i], mask, numEntries, n)
    {
      StepProgress(out != null, was, Contents(out), seen + ds[..i], mask, numEntries, n, ds[i]);
      assert seen + ds[..i] + [ds[i]] == seen + ds[..i + 1];
      go, n := CheckDeviceTypeAndFillDeviceID(ds[i], mask, out, numEntries, n);
      if !go {
        StopIsFinal(was, Contents(out), seen + ds[..i + 1], ds[i + 1..], mask, numEntries);
        assert seen + ds[..i + 1] + ds[i + 1..] == seen + ds;
        return;
      }
      i := i + 1;
    }
    assert ds[..i] == ds;
  }

  lemma FlattenNext(ds: seq<RootDevice>, i: nat, mode: HierarchyMode)
    requires i < |ds|
    ensures Flatten(ds[..i + 1], mode) == Flatten(ds[..i], mode) + Shown(ds[i], mode)
    ensures Flatten(ds, mode) == Flatten(ds[..i + 1], mode) + Flatten(ds[i + 1..], mode)
  {
    assert ds[..i + 1] == ds[..i] + [ds[i]];
    FlattenSplits(ds[..i], [ds[i]], mode);
    assert ds == ds[..i + 1] + ds[i + 1..];
    FlattenSplits(ds[..i + 1], ds[i + 1..], mode);
  }

  /** The enumeration loop writes the first matches of the flattened, filtered device list, as
      many as fit, touches no later slot, and counts all matches when there is no array. */
  method Enumerate(ds: seq<RootDevice>, mode: HierarchyMode, mask: bv64, numEntries: nat, out: Slots)
      returns (retNum: nat)
    requires out != null ==> numEntries <= out.Length
    modifies out
    ensures var all := Filter(Flatten(ds, mode), mask);
            && retNum == (if out == null then |all| else Min(numEntries, |all|))
            && (out != null ==> Wrote(old(Contents(out)), Contents(out), all[..retNum]))
  {
    retNum := 0;
    ghost var was := Contents(out);
    var i := 0;
    while i < |ds|
      invariant 0 <= i <= |ds|
      invariant Progress(true, out != null, was, Contents(out), Flatten(ds[..i], mode), mask, numEntries, retNum)
    {
      var exposeSubDevices := mode != Composite && |ds[i].subDevices| > 0;
      ghost var seen := Flatten(ds[..i], mode);
      FlattenNext(ds, i, mode);
      var go;
      if exposeSubDevices {
        go, retNum := FillSubDevices(ds[i].subDevices, mask, out, numEntries, retNum, was, seen);
      } else {
        StepProgress(out != null, was, Contents(out), seen, mask, numEntries, retNum, ds[i].own);
        go, retNum := CheckDeviceTypeAndFillDeviceID(ds[i].own, mask, out, numEntries, retNum);
      }
      if !go {
        StopIsFinal(was, Contents(out), Flatten(ds[..i + 1], mode), Flatten(ds[i + 1..], mode), mask, numEntries);
        return;
      }
      i := i + 1;
    }
    assert ds[..i] == ds;
    AllSeen(out != null, was, Contents(out), Flatten(ds, mode), mask, numEntries, retNum);
  }
}
