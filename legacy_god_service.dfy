/**
 * The older GoD service (services/god.service.ts), the one the native communication service
 * still drives. Responses carry no envelope: a result is either the sentinel string `'FAILED'`
 * or the operation's data. Reading the id of a missing user, or the type of a location the
 * table does not hold, throws; the model ends the call or handler at that point.
 */
module LegacyGod {
  import opened Wrappers
  import opened Domain
  import opened Socket
  import LocationTransition

  /** A result as the older server sends it: the sentinel `'FAILED'` or the data. */
  datatype Result<D> = Failed | Ok(value: D)

  datatype AccountData = AccountData(user: User, locations: LookupTable)

  /** The callback a status check hands its result to. */
  datatype Continuation = SeatCheck(location: int)

  /** The native window call made after navigation, only on the two native platforms. */
  function PlatformSignal(platform: Option<Platform>, action: string): (signals: seq<Effect>)
    ensures |signals| <= 1
    ensures signals != [] <==> platform == Some(IOS) || platform == Some(Android)
    ensures signals != [] ==> signals == [NativeWindow(platform.value, action)]
  {
    if platform == Some(IOS) || platform == Some(Android) then [NativeWindow(platform.value, action)] else []
  }

  class GodService {
    var store: Store
    var log: seq<SocketOp>
    var listeners: ListenerTable
    /** `locationService.lookuptable`, mirrored from the registration result. */
    var serviceTable: LookupTable
    /** `locationService.currentLocation`. */
    var currentLocation: Option<Location>
    var effects: seq<Effect>

    ghost predicate Valid()
      reads this
    {
      listeners == Replay(log) && Count(listeners, "news") > 0
    }

    /** The constructor installs the `news` handler. */
    constructor (initial: Store, table: LookupTable)
      ensures Valid()
      ensures store == initial && serviceTable == table && currentLocation == None && effects == []
      ensures log == [Installed("news")]
      ensures listeners == map["news" := 1]
    {
      store := initial;
      serviceTable := table;
      currentLocation := None;
      effects := [];
      ReplayStep([], Installed("news"));
      assert [] + [Installed("news")] == [Installed("news")];
      log := [Installed("news")];
      listeners := Replay([Installed("news")]);
    }

    // ---------------------------------------------------------------- socket and store primitives

    method Emit(event: string, payload: Payload)
      requires listeners == Replay(log)
      modifies this`log
      ensures listeners == Replay(log)
      ensures log == old(log) + [Emitted(event, payload)]
    {
      ReplayStep(log, Emitted(event, payload));
      log := log + [Emitted(event, payload)];
    }

    method On(event: string)
      requires listeners == Replay(log)
      modifies this`log, this`listeners
      ensures listeners == Replay(log) && listeners == Apply(old(listeners), Installed(event))
      ensures log == old(log) + [Installed(event)]
    {
      ReplayStep(log, Installed(event));
      log := log + [Installed(event)];
      listeners := Apply(listeners, Installed(event));
    }

    method RemoveAllListeners(event: string)
      requires listeners == Replay(log)
      modifies this`log, this`listeners
      ensures listeners == Replay(log) && listeners == Apply(old(listeners), RemovedAll(event))
      ensures log == old(log) + [RemovedAll(event)]
    {
      ReplayStep(log, RemovedAll(event));
      log := log + [RemovedAll(event)];
      listeners := Apply(listeners, RemovedAll(event));
    }

    method Dispatch(a: Action)
      modifies this`store
      ensures store == Reduce(old(store), a)
    {
      store := Reduce(store, a);
    }

    method Record(e: Effect)
      modifies this`effects
      ensures effects == old(effects) + [e]
    {
      effects := effects + [e];
    }

    // ---------------------------------------------------------------- operations

    method OnNews()
      requires Valid() && Count(listeners, "news") > 0
      modifies this`effects
      ensures effects == old(effects) + [Native(Data, "print")]
    {
      Record(Native(Data, "print"));
    }

    /** Every request emits first and installs its result handler after. */
    method RegisterOD(data: Payload)
      requires Valid()
      modifies this`log, this`listeners
      ensures Valid()
      ensures log == old(log) + [Emitted("registerOD", data), Installed("registerODResult")]
    {
      Emit("registerOD", data);
      On("registerODResult");
    }

    /**
     * The registration result has no failure branch: user and table are stored, the table is
     * mirrored into the location service, and the handler always removes itself. After the
     * navigation the native side is told, and the platform recorded before it is signalled.
     */
    method OnRegisterODResult(result: AccountData)
      requires Valid() && Count(listeners, "registerODResult") > 0
      modifies this`store, this`serviceTable, this`effects, this`log, this`listeners
      ensures Valid()
      ensures store == old(store).(user := Some(result.user), lookupTable := result.locations)
      ensures serviceTable == result.locations
      ensures effects == old(effects) + [Native(Data, "print"),
                                         Navigate(MainView, [Native(Text("success"), "registerOD")] + PlatformSignal(old(store).platform, "registerOD"))]
      ensures log == old(log) + [RemovedAll("registerODResult")]
    {
      Record(Native(Data, "print"));
      Dispatch(ChangeUser(result.user));
      Dispatch(ChangeLookupTable(result.locations));
      serviceTable := result.locations;
      var platform := store.platform;
      Record(Navigate(MainView, [Native(Text("success"), "registerOD")] + PlatformSignal(platform, "registerOD")));
      RemoveAllListeners("registerODResult");
    }

    /**
     * `registerLocation(id)` reads the user's id before it emits; with no user it throws and
     * nothing is sent (`thrown`).
     */
    method RegisterLocation(id: int) returns (thrown: bool)
      requires Valid()
      modifies this`log, this`listeners
      ensures Valid()
      ensures thrown <==> store.user.None?
      ensures thrown ==> log == old(log)
      ensures !thrown ==> log == old(log) + [Emitted("registerLocation", LegacyLocationRequest(id, store.user.value.id)), Installed("registerLocationResult")]
    {
      if store.user.None? {
        return true;
      }
      Emit("registerLocation", LegacyLocationRequest(id, store.user.value.id));
      On("registerLocationResult");
      return false;
    }

    /**
     * `'FAILED'` is printed and the handler returns, keeping itself installed. Otherwise the
     * result becomes the current location, the view navigates to its content, the seat signal
     * goes to the native side on IOS and Android only, and the handler removes itself.
     */
    method OnRegisterLocationResult(result: Result<Location>)
      requires Valid() && Count(listeners, "registerLocationResult") > 0
      modifies this`currentLocation, this`effects, this`log, this`listeners
      ensures Valid()
      ensures result.Failed? ==>
        && currentLocation == old(currentLocation)
        && effects == old(effects) + [Native(Text("RegisterLocation: FAILED"), "print")]
        && log == old(log)
      ensures result.Ok? ==>
        && currentLocation == Some(result.value)
        && effects == old(effects) + [Native(Data, "print"),
                                      Navigate(ContentURL(result.value.contentURL), PlatformSignal(store.platform, "triggerSignal"))]
        && log == old(log) + [RemovedAll("registerLocationResult")]
    {
      if result.Failed? {
        Record(Native(Text("RegisterLocation: FAILED"), "print"));
        return;
      }
      currentLocation := Some(result.value);
      Record(Native(Data, "print"));
      var platform := store.platform;
      Record(Navigate(ContentURL(currentLocation.value.contentURL), PlatformSignal(platform, "triggerSignal")));
      RemoveAllListeners("registerLocationResult");
    }

    method CheckLocationStatus(location: int)
      requires Valid()
      modifies this`log, this`listeners
      ensures Valid()
      ensures log == old(log) + [Emitted("checkLocationStatus", StatusRequest(location)), Installed("checkLocationStatusResult")]
    {
      Emit("checkLocationStatus", StatusRequest(location));
      On("checkLocationStatusResult");
    }

    /**
     * The status handler resolves the location from the REQUEST's `data` (captured here as
     * `location`), not from the response. `'FAILED'` does nothing at all; a status for a
     * location that is not a seat is written to the store; the callback, when there is one,
     * receives the status; then the handler removes itself. The only callback in use is the
     * seat continuation of the transition engine, which is run here.
     */
    method OnCheckLocationStatusResult(location: int, callback: Option<Continuation>, result: Result<string>)
      requires Valid() && Count(listeners, "checkLocationStatusResult") > 0
      modifies this`store, this`log, this`listeners, this`effects
      ensures Valid()
      ensures effects == old(effects)
      ensures result.Failed? ==> store == old(store) && log == old(log)
      ensures result.Ok? && FindLocation(serviceTable, location).None? ==> store == old(store) && log == old(log)
      ensures result.Ok? && FindLocation(serviceTable, location).Some? ==>
        var written := if FindLocation(serviceTable, location).value.locationTypeId != SeatType
                       then old(store).(locationStatus := Some(result.value)) else old(store);
        match callback
        case None =>
          store == written && log == old(log) + [RemovedAll("checkLocationStatusResult")]
        case Some(SeatCheck(seat)) =>
          if result.value == LocationTransition.Free && written.user.None? then
            store == written && log == old(log)
          else
            && store == written.(locationSocketStatus := Some(result.value))
            && log == old(log)
                      + (if result.value == LocationTransition.Free
                         then [Emitted("registerLocation", LegacyLocationRequest(seat, written.user.value.id)), Installed("registerLocationResult")]
                         else [])
                      + [RemovedAll("checkLocationStatusResult")]
    {
      if result.Failed? {
        return;
      }
      var found := FindLocation(serviceTable, location);
      if found.None? {
        return;
      }
      if found.value.locationTypeId != SeatType {
        Dispatch(ChangeLocationStatus(result.value));
      }
      if callback.Some? {
        var thrown := RunContinuation(callback.value, result.value);
        if thrown {
          return;
        }
      }
      RemoveAllListeners("checkLocationStatusResult");
    }

    /** The seat continuation: a free seat is registered, and the status is published either way. */
    method RunContinuation(k: Continuation, status: string) returns (thrown: bool)
      requires Valid()
      modifies this`store, this`log, this`listeners
      ensures Valid()
      ensures thrown <==> status == LocationTransition.Free && old(store).user.None?
      ensures thrown ==> store == old(store) && log == old(log)
      ensures !thrown ==> store == old(store).(locationSocketStatus := Some(status))
      ensures !thrown ==> log == old(log) + (if status == LocationTransition.Free
                                              then [Emitted("registerLocation", LegacyLocationRequest(k.location, old(store).user.value.id)), Installed("registerLocationResult")]
                                              else [])
    {
      thrown := false;
      if status == LocationTransition.Free {
        thrown := RegisterLocation(k.location);
        if thrown {
          return;
        }
      }
      Dispatch(ChangeLocationSocketStatus(status));
    }

    method DisconnectedFromExhibit(parentLocation: int, location: int)
      requires Valid()
      modifies this`log, this`listeners
      ensures Valid()
      ensures log == old(log) + [Emitted("disconnectedFromExhibit", DisconnectRequest(parentLocation, location)), Installed("disconnectedFromExhibitResult")]
    {
      Emit("disconnectedFromExhibit", DisconnectRequest(parentLocation, location));
      On("disconnectedFromExhibitResult");
    }

    /**
     * Whatever the result, the older handler registers the parent it was called with again,
     * without any login check, and then removes itself.
     */
    method OnDisconnectedFromExhibitResult(parentLocation: int)
      requires Valid() && Count(listeners, "disconnectedFromExhibitResult") > 0
      modifies this`log, this`listeners, this`effects
      ensures Valid()
      ensures effects == old(effects) + [Native(Data, "print")]
      ensures store.user.None? ==> log == old(log)
      ensures store.user.Some? ==>
        log == old(log) + [Emitted("registerLocation", LegacyLocationRequest(parentLocation, store.user.value.id)),
                           Installed("registerLocationResult"),
                           RemovedAll("disconnectedFromExhibitResult")]
    {
      Record(Native(Data, "print"));
      var thrown := RegisterLocation(parentLocation);
      if thrown {
        return;
      }
      RemoveAllListeners("disconnectedFromExhibitResult");
    }
  }
}
