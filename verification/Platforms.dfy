/** The lazily created platform list, and the device queries that go through it. */
module Platforms {
  import opened Options
  import opened ClTypes
  import opened Devices

  /** One attempt to create the platforms: per device group, the platform or a failure.  It is
      empty when no device was found. */
  type Boot = seq<Option<Platform>>

  datatype Call = Call(numEntries: nat, hasArray: bool, wantCount: bool, boot: Boot)

  /** The platforms created before the first failure. */
  function Booted(boot: Boot): seq<Platform> {
    if boot == [] || boot[0].None? then [] else [boot[0].value] + Booted(boot[1..])
  }

  predicate BootFails(boot: Boot) {
    |boot| == 0 || None in boot
  }

  predicate BadQuery(numEntries: nat, hasArray: bool, wantCount: bool) {
    (!hasArray && !wantCount) || (numEntries == 0 && hasArray)
  }

  function NextList(list: seq<Platform>, c: Call): seq<Platform> {
    if BadQuery(c.numEntries, c.hasArray, c.wantCount) || list != [] then list else Booted(c.boot)
  }

  function CodeOf(list: seq<Platform>, c: Call): ClCode {
    if BadQuery(c.numEntries, c.hasArray, c.wantCount) then CL_INVALID_VALUE
    else if list == [] && BootFails(c.boot) then CL_OUT_OF_HOST_MEMORY
    else CL_SUCCESS
  }

  /** The platforms a successful call exposes, out of the list it leaves. */
  function Exposed(list: seq<Platform>, numEntries: nat): seq<Platform> {
    if numEntries == 0 then list else list[..Min(numEntries, |list|)]
  }

  lemma {:induction false} BootedMeaning(boot: Boot)
    ensures |Booted(boot)| <= |boot|
    ensures forall k :: 0 <= k < |Booted(boot)| ==> boot[k] == Some(Booted(boot)[k])
    ensures |Booted(boot)| < |boot| ==> boot[|Booted(boot)|] == None
    ensures BootFails(boot) <==> |boot| == 0 || |Booted(boot)| < |boot|
  {
    if boot != [] && boot[0].Some? {
      BootedMeaning(boot[1..]);
      var rest := Booted(boot[1..]);
      forall k | 0 <= k < |Booted(boot)|
        ensures boot[k] == Some(Booted(boot)[k])
      {
        if k > 0 {
          assert boot[1..][k - 1] == Some(rest[k - 1]);
        }
      }
      if |rest| < |boot[1..]| {
        assert boot[1..][|rest|] == None;
      }
      if None in boot {
        var k :| 0 <= k < |boot| && boot[k] == None;
        assert boot[1..][k - 1] == None;
      }
    }
  }

  lemma {:induction false} BootedPrefix(boot: Boot, i: nat)
    requires i < |boot| && forall k :: 0 <= k < i ==> boot[k].Some?
    ensures Booted(boot[..i + 1]) == Booted(boot[..i]) + if boot[i].Some? then [boot[i].value] else []
    ensures boot[i].None? ==> Booted(boot) == Booted(boot[..i])
  {
    if i > 0 {
      BootedPrefix(boot[1..], i - 1);
      assert boot[1..][..i] == boot[..i + 1][1..];
      assert boot[1..][..i - 1] == boot[..i][1..];
    }
  }

  /** The list after a run of calls. */
  function ListAfter(list: seq<Platform>, calls: seq<Call>): seq<Platform>
    decreases calls
  {
    if calls == [] then list else ListAfter(NextList(list, calls[0]), calls[1..])
  }

  lemma {:induction false} ListFixed(list: seq<Platform>, calls: seq<Call>)
    requires list != []
    ensures ListAfter(list, calls) == list
  {
    if calls != [] {
      ListFixed(list, calls[1..]);
    }
  }

  lemma {:induction false} ListAfterSplits(list: seq<Platform>, a: seq<Call>, b: seq<Call>)
    ensures ListAfter(list, a + b) == ListAfter(ListAfter(list, a), b)
    decreases a
  {
    if a == [] {
      assert a + b == b;
    } else {
      assert (a + b)[1..] == a[1..] + b;
      ListAfterSplits(NextList(list, a[0]), a[1..], b);
    }
  }

  /** A successful call leaves a list that is not empty, and answers with its front. */
  lemma SuccessAnswers(list: seq<Platform>, c: Call)
    requires CodeOf(list, c) == CL_SUCCESS
    ensures NextList(list, c) != [] && Exposed(NextList(list, c), c.numEntries) <= NextList(list, c)
  {
  }

  /** In every run of calls, whatever each finds in the system, every successful one answers
      with the front of one fixed list, the one the run ends with. */
  lemma PlatformListStability(list: seq<Platform>, calls: seq<Call>, i: nat)
    requires i < |calls|
    ensures var before := ListAfter(list, calls[..i]);
            var after := NextList(before, calls[i]);
            && (before != [] ==> after == before)
            && (after != [] ==> ListAfter(list, calls) == after)
            && (CodeOf(before, calls[i]) == CL_SUCCESS ==>
                  after != [] && Exposed(after, calls[i].numEntries) <= ListAfter(list, calls))
  {
    var before := ListAfter(list, calls[..i]);
    var after := NextList(before, calls[i]);
    assert calls == calls[..i] + calls[i..];
    ListAfterSplits(list, calls[..i], calls[i..]);
    if after != [] {
      ListFixed(after, calls[i..][1..]);
    }
    if CodeOf(before, calls[i]) == CL_SUCCESS {
      SuccessAnswers(before, calls[i]);
    }
  }

  /** A first call that fails after some platforms were created leaves exactly those: every
      later well-formed call succeeds, and the missing platforms never appear. */
  lemma PartialBootSticks(c: Call, later: seq<Call>, i: nat)
    requires CodeOf([], c) == CL_OUT_OF_HOST_MEMORY && Booted(c.boot) != []
    requires i < |later| && !BadQuery(later[i].numEntries, later[i].hasArray, later[i].wantCount)
    ensures var list := ListAfter([], [c] + later[..i]);
            && list == Booted(c.boot) && |list| < |c.boot|
            && CodeOf(list, later[i]) == CL_SUCCESS && NextList(list, later[i]) == list
  {
    BootedMeaning(c.boot);
    assert ([c] + later[..i])[1..] == later[..i];
    ListFixed(Booted(c.boot), later[..i]);
  }

  datatype PlatformArg = NoPlatform | NotAPlatform | Given(platform: Platform)

  const VALID_TYPES: bv64 :=
    DEVICE_TYPE_GPU | DEVICE_TYPE_CPU | DEVICE_TYPE_ACCELERATOR | DEVICE_TYPE_DEFAULT | DEVICE_TYPE_CUSTOM

  function ArgumentCode(arg: PlatformArg, deviceType: bv64, numEntries: nat, hasArray: bool, wantCount: bool): ClCode {
    if BadQuery(numEntries, hasArray, wantCount) then CL_INVALID_VALUE
    else if deviceType & VALID_TYPES == 0 then CL_INVALID_DEVICE_TYPE
    else if arg.NotAPlatform? then CL_INVALID_PLATFORM
    else CL_SUCCESS
  }

  /** The platform a query is about, if it has devices. */
  function Target(list: seq<Platform>, arg: PlatformArg, boot: Boot): Option<Platform> {
    match arg
    case NotAPlatform => None
    case Given(p) => if p.devices == [] then None else Some(p)
    case NoPlatform =>
      if list == [] && BootFails(boot) then None
      else
        var after := if list == [] then Booted(boot) else list;
        if after == [] || after[0].devices == [] then None else Some(after[0])
  }

  /** What a device query answers: the code, the count if it is wanted, and what is written. */
  datatype Answer = Answer(code: ClCode, num: Option<nat>, found: seq<ClDevice>)

  function DeviceAnswer(list: seq<Platform>, arg: PlatformArg, deviceType: bv64, numEntries: nat, hasArray: bool,
                        wantCount: bool, limit: nat, boot: Boot): Answer
  {
    var checked := ArgumentCode(arg, deviceType, numEntries, hasArray, wantCount);
    var target := Target(list, arg, boot);
    if checked != CL_SUCCESS then Answer(checked, None, [])
    else if target.None? then Answer(CL_DEVICE_NOT_FOUND, None, [])
    else
      var all := Matches(target.value, deviceType, limit);
      var n := if hasArray then Min(numEntries, |all|) else |all|;
      Answer(
        if n == 0 then CL_DEVICE_NOT_FOUND else CL_SUCCESS,
        if wantCount then Some(n) else None,
        if hasArray then all[..n] else [])
  }

  /** A query for the default type is one for GPUs. */
  lemma DefaultIsGpu(list: seq<Platform>, arg: PlatformArg, numEntries: nat, hasArray: bool, wantCount: bool,
                     limit: nat, boot: Boot)
    ensures DeviceAnswer(list, arg, 1, numEntries, hasArray, wantCount, limit, boot) ==
            DeviceAnswer(list, arg, 4, numEntries, hasArray, wantCount, limit, boot)
  {
  }

  /** The platform of a query: the one named, or the first of the list, which is created if it is
      empty; none if that fails or the platform has no devices. */
  lemma TargetExact(list: seq<Platform>, arg: PlatformArg, boot: Boot)
    ensures arg.Given? ==> Target(list, arg, boot) == if arg.platform.devices == [] then None else Some(arg.platform)
    ensures arg.NoPlatform? && list != [] ==>
              Target(list, arg, boot) == if list[0].devices == [] then None else Some(list[0])
    ensures arg.NoPlatform? && list == [] && (boot == [] || None in boot) ==> Target(list, arg, boot) == None
    ensures arg.NoPlatform? && list == [] && boot != [] && None !in boot ==>
              boot[0].Some? && Target(list, arg, boot) == if boot[0].value.devices == [] then None else boot[0]
  {
  }

  /** Which code a query gets: the arguments are judged in this order, and then a query succeeds
      exactly when its platform shows a device of the type. */
  lemma AnswerExact(list: seq<Platform>, arg: PlatformArg, deviceType: bv64, numEntries: nat, hasArray: bool,
                    wantCount: bool, limit: nat, boot: Boot)
    ensures var a, target := DeviceAnswer(list, arg, deviceType, numEntries, hasArray, wantCount, limit, boot),
                             Target(list, arg, boot);
            if (!hasArray && !wantCount) || (hasArray && numEntries == 0) then a == Answer(CL_INVALID_VALUE, None, [])
            else if deviceType & 31 == 0 then a == Answer(CL_INVALID_DEVICE_TYPE, None, [])
            else if arg.NotAPlatform? then a == Answer(CL_INVALID_PLATFORM, None, [])
            else
              && (a.code == CL_SUCCESS || a.code == CL_DEVICE_NOT_FOUND)
              && (a.code == CL_SUCCESS <==>
                    target.Some? && exists d :: d in Considering(target.value, limit) && Wanted(d, deviceType))
              && (target.Some? && hasArray ==> forall d :: d in a.found ==>
                    d in Considering(target.value, limit) && Wanted(d, deviceType))
  {
    var target := Target(list, arg, boot);
    if target.Some? {
      var all := Matches(target.value, deviceType, limit);
      forall d
        ensures d in all <==> d in Considering(target.value, limit) && Wanted(d, deviceType)
      {
        SelectionExact(target.value, deviceType, limit, d);
      }
      assert all != [] ==> all[0] in all;
    }
  }

  class PlatformRegistry {
    var platforms: seq<Platform>

    constructor ()
      ensures platforms == []
    {
      platforms := [];
    }

    method Boot(boot: Boot) returns (code: ClCode)
      requires platforms == []
      modifies this
      ensures platforms == Booted(boot)
      ensures code == if BootFails(boot) then CL_OUT_OF_HOST_MEMORY else CL_SUCCESS
    {
      BootedMeaning(boot);
      if |boot| == 0 {
        return CL_OUT_OF_HOST_MEMORY;
      }
      var i := 0;
      while i < |boot|
        invariant 0 <= i <= |boot|
        invariant forall k :: 0 <= k < i ==> boot[k].Some?
        invariant platforms == Booted(boot[..i])
      {
        BootedPrefix(boot, i);
        if boot[i].None? {
          return CL_OUT_OF_HOST_MEMORY;
        }
        platforms := platforms + [boot[i].value];
        i := i + 1;
      }
      assert boot[..i] == boot;
      code := CL_SUCCESS;
    }

    method GetPlatformIDs(numEntries: nat, out: array?<Option<Platform>>, wantCount: bool, boot: Boot)
      returns (code: ClCode, num: Option<nat>)
      requires out != null ==> numEntries <= out.Length
      modifies this, out
      ensures var c := Call(numEntries, out != null, wantCount, boot);
              && platforms == NextList(old(platforms), c) && code == CodeOf(old(platforms), c)
              && (code == CL_SUCCESS ==>
                    var shown := Exposed(platforms, numEntries);
                    && num == (if wantCount then Some(|shown|) else None)
                    && (out != null ==> forall k :: 0 <= k < out.Length ==>
                          out[k] == if k < |shown| then Some(shown[k]) else old(out[k])))
              && (code != CL_SUCCESS ==> num == None && (out != null ==> out[..] == old(out[..])))
      ensures code == CL_INVALID_VALUE <==> (out == null && !wantCount) || (numEntries == 0 && out != null)
      ensures code == CL_OUT_OF_HOST_MEMORY <==>
                code != CL_INVALID_VALUE && old(platforms) == [] && (boot == [] || None in boot)
      ensures code == CL_SUCCESS && wantCount ==>
                num == Some(if 0 < numEntries <= |platforms| then numEntries else |platforms|)
      ensures code == CL_SUCCESS && out != null ==>
                forall k :: 0 <= k < numEntries && k < |platforms| ==> out[k] == Some(platforms[k])
    {
      num := None;
      if (out == null && !wantCount) || (numEntries == 0 && out != null) {
        return CL_INVALID_VALUE, None;
      }
      if platforms == [] {
        code := Boot(boot);
        if code != CL_SUCCESS {
          return;
        }
      }
      code := CL_SUCCESS;
      var expose := Min(numEntries, |platforms|);
      if numEntries == 0 {
        expose := |platforms|;
      }
      if out != null {
        ghost var list := platforms;
        var i := 0;
        while i < expose
          invariant 0 <= i <= expose <= |platforms| && platforms == list
          invariant forall k :: 0 <= k < out.Length ==>
                      out[k] == if k < i then Some(platforms[k]) else old(out[k])
        {
          out[i] := Some(platforms[i]);
          i := i + 1;
        }
      }
      if wantCount {
        num := Some(expose);
      }
    }

    /** The platform that a device query is about, creating the platforms when it names none. */
    method FindTarget(arg: PlatformArg, boot: Boot) returns (p: Option<Platform>)
      requires !arg.NotAPlatform?
      modifies this
      ensures p == Target(old(platforms), arg, boot)
      ensures platforms == if arg.NoPlatform? && old(platforms) == [] then Booted(boot) else old(platforms)
    {
      if arg.Given? {
        p := Some(arg.platform);
      } else {
        var _, num := GetPlatformIDs(0, null, true, boot);
        if num == None || num == Some(0) {
          return None;
        }
        p := Some(platforms[0]);
      }
      if p.value.devices == [] {
        p := None;
      }
    }

    /** clGetDeviceIDs. */
    method GetDeviceIDs(arg: PlatformArg, deviceType: bv64, numEntries: nat, out: Slots, wantCount: bool, limit: nat,
        boot: Boot)
      returns (code: ClCode, num: Option<nat>)
      requires out != null ==> numEntries <= out.Length
      modifies this, out
      ensures var checked := ArgumentCode(arg, deviceType, numEntries, out != null, wantCount);
              var target := Target(old(platforms), arg, boot);
              && (checked != CL_SUCCESS ==>
                    code == checked && num == None && platforms == old(platforms) &&
                        Contents(out) == old(Contents(out)))
              && (checked == CL_SUCCESS ==>
                    platforms == if arg.NoPlatform? && old(platforms) == [] then Booted(boot) else old(platforms))
              && (checked == CL_SUCCESS && target == None ==>
                    code == CL_DEVICE_NOT_FOUND && num == None && Contents(out) == old(Contents(out)))
              && (checked == CL_SUCCESS && target != None ==>
                    var all := Matches(target.value, deviceType, limit);
                    var retNum := if out == null then |all| else Min(numEntries, |all|);
                    && code == (if retNum == 0 then CL_DEVICE_NOT_FOUND else CL_SUCCESS)
                    && num == (if wantCount then Some(retNum) else None)
                    && (out != null ==> Wrote(old(Contents(out)), Contents(out), all[..retNum])))
      ensures var a := DeviceAnswer(old(platforms), arg, deviceType, numEntries, out != null, wantCount, limit, boot);
              && code == a.code && num == a.num
              && (out != null ==> Wrote(old(Contents(out)), Contents(out), a.found))
    {
      num := None;
      if out == null && !wantCount {
        return CL_INVALID_VALUE, None;
      }
      if out != null && numEntries == 0 {
        return CL_INVALID_VALUE, None;
      }
      if deviceType & VALID_TYPES == 0 {
        return CL_INVALID_DEVICE_TYPE, None;
      }
      if arg.NotAPlatform? {
        return CL_INVALID_PLATFORM, None;
      }
      var p := FindTarget(arg, boot);
      if p == None {
        return CL_DEVICE_NOT_FOUND, None;
      }
      var numDev := Considered(p.value, limit);
      var retNum := Enumerate(p.value.devices[..numDev], p.value.mode, EffectiveMask(deviceType), numEntries, out);
      if wantCount {
        num := Some(retNum);
      }
      code := if retNum == 0 then CL_DEVICE_NOT_FOUND else CL_SUCCESS;
    }

    /** The two device queries of clCreateContextFromType, with whatever the second would find
        in the system: they succeed together, every slot is filled, and the context's devices
        are the whole flattened, filtered list. */
    method CreateContextFromType(arg: PlatformArg, badCallback: bool, deviceType: bv64, limit: nat, boot: Boot,
        boot': Boot)
      returns (code: ClCode, devices: seq<Option<ClDevice>>)
      modifies this
      ensures var target := Target(old(platforms), arg, boot);
              && (code == CL_SUCCESS <==>
                    && !badCallback && deviceType & VALID_TYPES != 0
                    && target != None && Matches(target.value, deviceType, limit) != [])
              && (code == CL_SUCCESS ==>
                    var all := Matches(target.value, deviceType, limit);
                    |devices| == |all| && forall k :: 0 <= k < |all| ==> devices[k] == Some(all[k]))
              && (code != CL_SUCCESS ==> devices == [])
      ensures badCallback ==> code == CL_INVALID_VALUE
      ensures !badCallback && arg.NotAPlatform? ==> code == CL_INVALID_PLATFORM
      ensures !badCallback && !arg.NotAPlatform? ==>
                && (deviceType & 31 == 0 <==> code == CL_INVALID_DEVICE_TYPE)
                && (code == CL_SUCCESS || code == CL_INVALID_DEVICE_TYPE || code == CL_DEVICE_NOT_FOUND)
    {
      devices := [];
      if badCallback {
        return CL_INVALID_VALUE, [];
      }
      if arg.NotAPlatform? {
        return CL_INVALID_PLATFORM, [];
      }
      var num;
      code, num := GetDeviceIDs(arg, deviceType, 0, null, true, limit, boot);
      if code != CL_SUCCESS {
        return;
      }
      TargetStays(old(platforms), arg, boot, boot');
      var slots := new Option<ClDevice>[num.value](_ => None);
      var code', _ := GetDeviceIDs(arg, deviceType, num.value, slots, false, limit, boot');
      assert code' == CL_SUCCESS;
      devices := slots[..];
    }
  }

  /** Once a query found its platform, the next one finds the same, whatever the system offers. */
  lemma TargetStays(list: seq<Platform>, arg: PlatformArg, boot: Boot, boot': Boot)
    requires Target(list, arg, boot) != None
    ensures var after := if arg.NoPlatform? && list == [] then Booted(boot) else list;
            Target(after, arg, boot') == Target(list, arg, boot)
  {
  }
}
