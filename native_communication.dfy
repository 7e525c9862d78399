/**
 * The native communication service (services/native-communication.service.ts): platform
 * classification from the user agent, the dispatch of messages to the host shell, and the
 * execution of the location-transition engine against the older GoD service.
 */
module NativeCommunication {
  import opened Wrappers
  import opened Domain
  import opened Socket
  import LocationTransition
  import LegacyGod

  // ---------------------------------------------------------------- substring search

  predicate OccursAt(s: string, sub: string, i: int)
  {
    0 <= i && i + |sub| <= |s| && s[i..i + |sub|] == sub
  }

  ghost predicate Contains(s: string, sub: string)
  {
    exists i :: OccursAt(s, sub, i)
  }

  /** The first occurrence of `sub` in `s` at or after `from`, or -1. */
  function IndexFrom(s: string, sub: string, from: nat): (r: int)
    decreases |s| - from
    ensures r == -1 || (from <= r && OccursAt(s, sub, r))
    ensures r == -1 ==> forall i :: from <= i ==> !OccursAt(s, sub, i)
    ensures r != -1 ==> forall i :: from <= i < r ==> !OccursAt(s, sub, i)
  {
    if from + |sub| > |s| then -1
    else if s[from..from + |sub|] == sub then from
    else IndexFrom(s, sub, from + 1)
  }

  /** `s.indexOf(sub)`: the first occurrence, or -1 exactly when there is none. */
  function IndexOf(s: string, sub: string): (r: int)
    ensures r == -1 <==> !Contains(s, sub)
    ensures r != -1 ==> OccursAt(s, sub, r) && forall i :: 0 <= i < r ==> !OccursAt(s, sub, i)
  {
    IndexFrom(s, sub, 0)
  }

  // ---------------------------------------------------------------- platform classification

  /** The three platform flags of the service. */
  datatype Flags = Flags(isIOS: bool, isAndroid: bool, isWeb: bool)

  /** The flags a freshly created service starts with. */
  const InitialFlags := Flags(true, false, false)

  /**
   * `checkPlatform`'s answer: Android whenever the agent names Android, otherwise Web when it
   * names Safari or Chrome, otherwise IOS (the fallback, since the IOS web view names neither).
   */
  function Classify(userAgent: string): (tag: Platform)
    ensures tag == Android <==> Contains(userAgent, "Android")
    ensures tag == Web <==> !Contains(userAgent, "Android") && (Contains(userAgent, "Safari") || Contains(userAgent, "Chrome"))
    ensures tag == IOS <==> !Contains(userAgent, "Android") && !Contains(userAgent, "Safari") && !Contains(userAgent, "Chrome")
  {
    if IndexOf(userAgent, "Android") != -1 then Android
    else if IndexOf(userAgent, "Safari") != -1 || IndexOf(userAgent, "Chrome") != -1 then Web
    else IOS
  }

  /** The flags after `checkPlatform`: the tag's flag is raised and isIOS lowered; IOS changes nothing. */
  function CheckedFlags(f: Flags, userAgent: string): Flags
  {
    match Classify(userAgent)
    case Android => f.(isAndroid := true, isIOS := false)
    case Web => f.(isWeb := true, isIOS := false)
    case IOS => f
  }

  predicate ExactlyOne(f: Flags)
  {
    (if f.isIOS then 1 else 0) + (if f.isAndroid then 1 else 0) + (if f.isWeb then 1 else 0) == 1
  }

  predicate FlagOf(f: Flags, p: Platform)
  {
    match p
    case IOS => f.isIOS
    case Android => f.isAndroid
    case Web => f.isWeb
  }

  /** From the initial flags, one check leaves exactly one flag up, the one of the returned tag. */
  lemma CheckFromInitialLeavesOneFlag(userAgent: string)
    ensures ExactlyOne(CheckedFlags(InitialFlags, userAgent))
    ensures FlagOf(CheckedFlags(InitialFlags, userAgent), Classify(userAgent))
  {
  }

  /** Flags are never lowered again except isIOS: a second check on another agent can leave two up. */
  lemma FlagsAccumulateAcrossChecks()
    ensures CheckedFlags(CheckedFlags(InitialFlags, "Chrome"), "Android") == Flags(false, true, true)
  {
    assert OccursAt("Chrome", "Chrome", 0);
    assert Classify("Chrome") == Web;
    assert OccursAt("Android", "Android", 0);
    assert Classify("Android") == Android;
  }

  // ---------------------------------------------------------------- messages to the host shell

  /** One message handed to the host shell. */
  datatype Delivery =
    | ConsoleLog(body: NativeBody)                              // console.log on the web
    | WebkitPost(handler: string, body: NativeBody)             // webkit.messageHandlers[handler].postMessage(body)
    | AndroidCall(entry: string, argument: Option<NativeBody>)  // MEETeUXAndroidAppRoot[entry](argument)

  /** The action names the host shells understand; every other name is dropped there. */
  predicate IsBridgeAction(name: string)
  {
    name == "print" || name == "getDeviceInfos" || name == "registerOD" || name == "triggerSignal"
  }

  /** What `sendToNative(body, name)` hands over, for given flags: each raised flag is served in turn. */
  function Deliveries(f: Flags, body: NativeBody, name: string): seq<Delivery>
  {
    (if f.isWeb then [ConsoleLog(body)] else [])
    + (if f.isIOS && IsBridgeAction(name) then [WebkitPost(name, body)] else [])
    + (if f.isAndroid && IsBridgeAction(name) then [AndroidCall(name, if name == "print" then Some(body) else None)] else [])
  }

  /**
   * The web logs every message; the shells receive exactly the four known actions, through
   * their own channel, with Android passing an argument only to `print`.
   */
  lemma DeliveriesByPlatform(f: Flags, body: NativeBody, name: string)
    ensures ConsoleLog(body) in Deliveries(f, body, name) <==> f.isWeb
    ensures WebkitPost(name, body) in Deliveries(f, body, name) <==> f.isIOS && IsBridgeAction(name)
    ensures (exists d :: d in Deliveries(f, body, name) && d.AndroidCall?) <==> f.isAndroid && IsBridgeAction(name)
    ensures forall d :: d in Deliveries(f, body, name) && d.AndroidCall? ==> d == AndroidCall(name, if name == "print" then Some(body) else None)
    ensures !IsBridgeAction(name) ==> Deliveries(f, body, name) == (if f.isWeb then [ConsoleLog(body)] else [])
  {
    var r := Deliveries(f, body, name);
    if f.isAndroid && IsBridgeAction(name) {
      assert r[|r| - 1].AndroidCall?;
    }
  }

  /** With exactly one flag up, a message goes out through at most one channel. */
  lemma OneFlagOneChannel(f: Flags, body: NativeBody, name: string)
    requires ExactlyOne(f)
    ensures |Deliveries(f, body, name)| <= 1
  {
  }

  // ---------------------------------------------------------------- the service

  class NativeCommunicationService {
    /** The name typed at registration; undefined until a component sets it. */
    var registerName: Option<string>
    var isIOS: bool
    var isAndroid: bool
    var isWeb: bool
    /** Every message handed to the host shell, in order. */
    var bridge: seq<Delivery>
    /** The older GoD service; its location service and store are this service's too. */
    const god: LegacyGod.GodService

    function CurrentFlags(): Flags
      reads this
    {
      Flags(isIOS, isAndroid, isWeb)
    }

    constructor (god: LegacyGod.GodService)
      ensures CurrentFlags() == InitialFlags
      ensures registerName == None && bridge == [] && this.god == god
    {
      this.god := god;
      registerName := None;
      isIOS, isAndroid, isWeb := true, false, false;
      bridge := [];
    }

    /** `checkPlatform`, with `window.navigator.userAgent` passed in. */
    method CheckPlatform(userAgent: string) returns (tag: Platform)
      modifies this`isIOS, this`isAndroid, this`isWeb
      ensures tag == Classify(userAgent)
      ensures CurrentFlags() == CheckedFlags(old(CurrentFlags()), userAgent)
    {
      var safariCheck := false;
      var chromeCheck := false;
      var androidCheck := false;
      if IndexOf(userAgent, "Safari") != -1 {
        safariCheck := true;
      }
      if IndexOf(userAgent, "Chrome") != -1 {
        chromeCheck := true;
      }
      if IndexOf(userAgent, "Android") != -1 {
        androidCheck := true;
      }
      if androidCheck {
        isAndroid := true;
        isIOS := false;
        return Android;
      } else if safariCheck || chromeCheck {
        isWeb := true;
        isIOS := false;
        return Web;
      }
      return IOS;
    }

    method SendToNative(body: NativeBody, name: string)
      modifies this`bridge
      ensures bridge == old(bridge) + Deliveries(CurrentFlags(), body, name)
    {
      bridge := bridge + Deliveries(CurrentFlags(), body, name);
    }

    /** `transmitODRegister`: the device data, under the registered name, goes to `registerOD`. */
    method TransmitODRegister(device: DeviceInfo)
      requires god.Valid()
      modifies god`log, god`listeners
      ensures god.Valid()
      ensures god.log == old(god.log) + [Emitted("registerOD", DeviceRegistration(registerName, device)), Installed("registerODResult")]
    {
      god.RegisterOD(DeviceRegistration(registerName, device));
    }

    /**
     * `transmitLocationRegister` for one beacon minor: the calls the engine decides on are made,
     * prints to the host shell and requests to the older GoD service, in that order.
     */
    method TransmitLocationRegister(minor: int)
      requires god.Valid()
      modifies this`bridge, god`log, god`listeners
      ensures god.Valid()
      ensures var calls := LocationTransition.TransmitLocationRegister(minor, god.serviceTable, god.currentLocation, god.store.atExhibitParentId, god.store.onExhibit);
        && bridge == old(bridge) + Prints(CurrentFlags(), calls)
        && god.log == old(god.log) + Requests(calls, god.store.user)
    {
      var calls := LocationTransition.TransmitLocationRegister(minor, god.serviceTable, god.currentLocation, god.store.atExhibitParentId, god.store.onExhibit);
      var location := FindLocation(god.serviceTable, minor);
      if location.None? {
        SendToNative(Text(LocationTransition.NotValid), "print");
        return;
      }
      if !LocationTransition.SameAsCurrent(god.currentLocation, location.value.id) {
        if LocationTransition.SeatedAtTable(god.currentLocation) {
          SendToNative(Text(LocationTransition.NotValidSeat), "print");
          return;
        }
        SendToNative(Text(LocationTransition.NewValid), "print");
        if LocationTransition.Admitted(location.value, god.store.atExhibitParentId, god.store.onExhibit) {
          if location.value.locationTypeId == SeatType {
            god.CheckLocationStatus(location.value.id);
            assert calls == [LocationTransition.Print(LocationTransition.NewValid), LocationTransition.CheckLocationStatus(location.value.id)];
            assert calls[1..][1..] == [];
            assert Prints(CurrentFlags(), calls[1..]) == [];
            assert Requests(calls[1..][1..], god.store.user) == [];
          } else {
            var thrown := god.RegisterLocation(location.value.id);
            assert calls == [LocationTransition.Print(LocationTransition.NewValid), LocationTransition.RegisterLocation(location.value.id)];
            assert calls[1..][1..] == [];
            assert Prints(CurrentFlags(), calls[1..]) == [];
            assert Requests(calls[1..][1..], god.store.user) == [];
          }
        }
      }
    }
  }

  /** The messages the prints among `calls` hand to the host shell. */
  function Prints(f: Flags, calls: seq<LocationTransition.Call>): seq<Delivery>
  {
    if calls == [] then []
    else (if calls[0].Print? then Deliveries(f, Text(calls[0].text), "print") else []) + Prints(f, calls[1..])
  }

  /** The socket calls the GoD requests among `calls` make; registering without a user throws before it emits. */
  function Requests(calls: seq<LocationTransition.Call>, user: Option<User>): seq<SocketOp>
  {
    if calls == [] then []
    else
      var here :=
        match calls[0]
        case CheckLocationStatus(l) => [Emitted("checkLocationStatus", StatusRequest(l)), Installed("checkLocationStatusResult")]
        case RegisterLocation(l) => if user.Some? then [Emitted("registerLocation", LegacyLocationRequest(l, user.value.id)), Installed("registerLocationResult")] else []
        case _ => [];
      here + Requests(calls[1..], user)
  }

  /**
   * Requests are sent only for GoD calls the engine decided on: a ping the engine turns into
   * prints alone leaves the socket untouched.
   */
  lemma {:induction false} NoGodCallNoRequests(calls: seq<LocationTransition.Call>, user: Option<User>)
    requires !LocationTransition.IssuesGodCall(calls)
    ensures Requests(calls, user) == []
  {
    if calls != [] {
      assert !LocationTransition.IsGodCall(calls[0]);
      assert forall i :: 0 <= i < |calls| - 1 ==> calls[1..][i] == calls[i + 1];
      NoGodCallNoRequests(calls[1..], user);
    }
  }
}
