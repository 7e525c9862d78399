/**
 * The current GoD request/response layer (`GodService` in services/god/god.service.ts).
 *
 * Every operation emits a request and installs a handler for `<name>Result`. When the result
 * arrives the handler classifies its envelope with `message.code > 299`; a failure dispatches
 * the message as the store's error message and returns at once, a success applies the
 * operation's store changes and effects and then removes every handler of the result event.
 * Handlers are methods that take the response (and whatever the installing call captured)
 * and may only run while a handler for their event is installed.
 */
module God {
  import opened Wrappers
  import opened Domain
  import opened Socket
  import ErrorMessageTypes

  datatype AccountData = AccountData(user: User, locations: LookupTable, token: string)
  datatype RegisteredLocation = RegisteredLocation(location: int, dismissed: bool)
  datatype LocationsData = LocationsData(locations: LookupTable)
  datatype StatusData = StatusData(location: int, status: string)
  datatype DisconnectData = DisconnectData(parent: int)
  datatype LanguageData = LanguageData(locations: LookupTable, language: int)
  datatype CredentialsData = CredentialsData(user: User, token: string)

  predicate Failed<D>(result: Envelope<D>)
  {
    IsFailure(result.message.code)
  }

  /** The store after a successful registration or login: user, table and token replaced, logged in. */
  function SignedIn(s: Store, data: AccountData): Store
  {
    s.(user := Some(data.user), lookupTable := data.locations, token := Some(data.token), isLoggedIn := true)
  }

  class GodService {
    var store: Store
    var log: seq<SocketOp>
    var listeners: ListenerTable
    /** The location service's current location. */
    var currentLocation: Option<Location>
    var effects: seq<Effect>
    /** The id the location service's start point resolves to. */
    const startPoint: int
    /** The success code sent on reconnection. */
    const reconnectedCode: int

    ghost predicate Valid()
      reads this
    {
      && listeners == Replay(log)
      && (store.isLoggedIn ==> store.user.Some?)
      && Count(listeners, "news") > 0
      && Count(listeners, "disconnect") > 0
      && Count(listeners, "reconnect") > 0
    }

    /** The constructor installs the `news`, `disconnect` and `reconnect` handlers. */
    constructor (initial: Store, startPoint: int, reconnectedCode: int)
      requires initial.isLoggedIn ==> initial.user.Some?
      ensures Valid()
      ensures store == initial && currentLocation == None && effects == []
      ensures log == [Installed("news"), Installed("disconnect"), Installed("reconnect")]
      ensures listeners == map["news" := 1, "disconnect" := 1, "reconnect" := 1]
      ensures this.startPoint == startPoint && this.reconnectedCode == reconnectedCode
    {
      this.startPoint := startPoint;
      this.reconnectedCode := reconnectedCode;
      store := initial;
      currentLocation := None;
      effects := [];
      var a, b, c := Installed("news"), Installed("disconnect"), Installed("reconnect");
      ReplayStep([], a);
      ReplayStep([a], b);
      ReplayStep([a, b], c);
      assert [] + [a] == [a] && [a] + [b] == [a, b] && [a, b] + [c] == [a, b, c];
      log := [a, b, c];
      listeners := Replay([a, b, c]);
    }

    // ---------------------------------------------------------------- socket and store primitives

    method Emit(event: string, payload: Payload)
      requires listeners == Replay(log)
      modifies this`log
      ensures listeners == Replay(log)
      ensures log == old(log) + [Emitted(event, payload)]
    {
      ReplayStep(log, Emitted(event, payload));
      log := log + [Emitted(event, payload)];
    }

    method On(event: string)
      requires listeners == Replay(log)
      modifies this`log, this`listeners
      ensures listeners == Replay(log) && listeners == Apply(old(listeners), Installed(event))
      ensures log == old(log) + [Installed(event)]
    {
      ReplayStep(log, Installed(event));
      log := log + [Installed(event)];
      listeners := Apply(listeners, Installed(event));
    }

    method RemoveAllListeners(event: string)
      requires listeners == Replay(log)
      modifies this`log, this`listeners
      ensures listeners == Replay(log) && listeners == Apply(old(listeners), RemovedAll(event))
      ensures log == old(log) + [RemovedAll(event)]
    {
      ReplayStep(log, RemovedAll(event));
      log := log + [RemovedAll(event)];
      listeners := Apply(listeners, RemovedAll(event));
    }

    /** Emit a request and install a handler for its result event. */
    method Call(request: string, result: string, payload: Payload)
      requires Valid()
      modifies this`log, this`listeners
      ensures Valid()
      ensures log == old(log) + [Emitted(request, payload), Installed(result)]
      ensures Count(listeners, result) == Count(old(listeners), result) + 1
    {
      Emit(request, payload);
      On(result);
    }

    method Dispatch(a: Action)
      modifies this`store
      ensures store == Reduce(old(store), a)
    {
      store := Reduce(store, a);
    }

    method Record(e: Effect)
      modifies this`effects
      ensures effects == old(effects) + [e]
    {
      effects := effects + [e];
    }

    /** `locationService.updateCurrentLocation(id)`: the current location becomes the table's entry for id. */
    method UpdateCurrentLocation(id: int)
      modifies this`currentLocation
      ensures currentLocation == FindLocation(store.lookupTable, id)
    {
      currentLocation := FindLocation(store.lookupTable, id);
    }

    // ---------------------------------------------------------------- connection handlers

    method OnNews()
      requires Valid() && Count(listeners, "news") > 0
      modifies this`effects
      ensures effects == old(effects) + [Native(Data, "print")]
    {
      Record(Native(Data, "print"));
    }

    /** A lost connection becomes the store's error message, with the catalogue's connection code. */
    method OnDisconnect()
      requires Valid() && Count(listeners, "disconnect") > 0
      modifies this`store
      ensures Valid()
      ensures store == old(store).(errorMessage := Some(Message(ErrorMessageTypes.Code(ErrorMessageTypes.LostConnectionToGod), "Lost connection to Server")))
    {
      Dispatch(ChangeErrorMessage(Message(ErrorMessageTypes.Code(ErrorMessageTypes.LostConnectionToGod), "Lost connection to Server")));
    }

    method OnReconnect()
      requires Valid() && Count(listeners, "reconnect") > 0
      modifies this`store
      ensures Valid()
      ensures store == old(store).(successMessage := Some(Message(reconnectedCode, "Reconnected to Server")))
    {
      Dispatch(ChangeSuccessMessage(Message(reconnectedCode, "Reconnected to Server")));
    }

    // ---------------------------------------------------------------- registration and login

    method RegisterOD(data: Payload)
      requires Valid()
      modifies this`log, this`listeners
      ensures Valid()
      ensures log == old(log) + [Emitted("registerOD", data), Installed("registerODResult")]
    {
      Call("registerOD", "registerODResult", data);
    }

    /** The sign-in success path shared by registerOD, registerODGuest, autoLogin and loginOD. */
    method SignIn(data: AccountData)
      modifies this`store, this`currentLocation
      ensures store == SignedIn(old(store), data)
      ensures currentLocation == FindLocation(data.locations, startPoint)
    {
      Dispatch(ChangeUser(data.user));
      Dispatch(ChangeLookupTable(data.locations));
      Dispatch(ChangeToken(data.token));
      Dispatch(ChangeLoggedIn(true));
      UpdateCurrentLocation(startPoint);
    }

    method OnRegisterODResult(result: Envelope<AccountData>)
      requires Valid() && Count(listeners, "registerODResult") > 0
      modifies this
      ensures Valid()
      ensures Failed(result) ==>
        && store == old(store).(errorMessage := Some(result.message))
        && currentLocation == old(currentLocation)
        && effects == old(effects) + [Native(Data, "print")]
        && log == old(log)
      ensures !Failed(result) ==>
        && store == SignedIn(old(store), result.data)
        && currentLocation == FindLocation(result.data.locations, startPoint)
        && effects == old(effects) + [Native(Data, "print"), Navigate(MainView, [Native(Text("success"), "registerOD")])]
        && log == old(log) + [RemovedAll("registerODResult")]
    {
      Record(Native(Data, "print"));
      if IsFailure(result.message.code) {
        Dispatch(ChangeErrorMessage(result.message));
        return;
      }
      SignIn(result.data);
      Record(Navigate(MainView, [Native(Text("success"), "registerOD")]));
      RemoveAllListeners("registerODResult");
    }

    method RegisterODGuest(data: Payload)
      requires Valid()
      modifies this`log, this`listeners
      ensures Valid()
      ensures log == old(log) + [Emitted("registerODGuest", data), Installed("registerODGuestResult")]
    {
      Call("registerODGuest", "registerODGuestResult", data);
    }

    method OnRegisterODGuestResult(result: Envelope<AccountData>)
      requires Valid() && Count(listeners, "registerODGuestResult") > 0
      modifies this
      ensures Valid()
      ensures Failed(result) ==>
        && store == old(store).(errorMessage := Some(result.message))
        && currentLocation == old(currentLocation) && effects == old(effects) && log == old(log)
      ensures !Failed(result) ==>
        && store == SignedIn(old(store), result.data)
        && currentLocation == FindLocation(result.data.locations, startPoint)
        && effects == old(effects) + [Navigate(MainView, [Native(Text("success"), "registerOD")])]
        && log == old(log) + [RemovedAll("registerODGuestResult")]
    {
      if IsFailure(result.message.code) {
        Dispatch(ChangeErrorMessage(result.message));
        return;
      }
      SignIn(result.data);
      Record(Navigate(MainView, [Native(Text("success"), "registerOD")]));
      RemoveAllListeners("registerODGuestResult");
    }

    /** `registerODGuestToReal` emits `makeToRealUser`. */
    method RegisterODGuestToReal(data: Payload)
      requires Valid()
      modifies this`log, this`listeners
      ensures Valid()
      ensures log == old(log) + [Emitted("makeToRealUser", data), Installed("makeToRealUserResult")]
    {
      Call("makeToRealUser", "makeToRealUserResult", data);
    }

    /** Turning a guest into a real user replaces only user and token; table and login state stay. */
    method OnMakeToRealUserResult(result: Envelope<AccountData>)
      requires Valid() && Count(listeners, "makeToRealUserResult") > 0
      modifies this
      ensures Valid()
      ensures Failed(result) ==>
        && store == old(store).(errorMessage := Some(result.message))
        && currentLocation == old(currentLocation)
        && effects == old(effects) + [Native(Data, "print")]
        && log == old(log)
      ensures !Failed(result) ==>
        && store == old(store).(user := Some(result.data.user), token := Some(result.data.token))
        && currentLocation == FindLocation(old(store).lookupTable, startPoint)
        && effects == old(effects) + [Native(Data, "print"), Navigate(MainView, [])]
        && log == old(log) + [RemovedAll("makeToRealUserResult")]
    {
      Record(Native(Data, "print"));
      if IsFailure(result.message.code) {
        Dispatch(ChangeErrorMessage(result.message));
        return;
      }
      Dispatch(ChangeUser(result.data.user));
      Dispatch(ChangeToken(result.data.token));
      UpdateCurrentLocation(startPoint);
      Record(Navigate(MainView, []));
      RemoveAllListeners("makeToRealUserResult");
    }

    /** `autoLogin` emits `autoLoginOD` with the stored token. */
    method AutoLogin(token: string)
      requires Valid()
      modifies this`log, this`listeners
      ensures Valid()
      ensures log == old(log) + [Emitted("autoLoginOD", Plain(token)), Installed("autoLoginODResult")]
    {
      Call("autoLoginOD", "autoLoginODResult", Plain(token));
    }

    method OnAutoLoginODResult(result: Envelope<AccountData>)
      requires Valid() && Count(listeners, "autoLoginODResult") > 0
      modifies this
      ensures Valid()
      ensures Failed(result) ==>
        && store == old(store).(errorMessage := Some(result.message))
        && currentLocation == old(currentLocation) && effects == old(effects) && log == old(log)
      ensures !Failed(result) ==>
        && store == SignedIn(old(store), result.data).(language := Some(result.data.user.contentLanguageId))
        && currentLocation == FindLocation(result.data.locations, startPoint)
        && effects == old(effects) + [Navigate(MainView, [Native(Text("success"), "registerOD")])]
        && log == old(log) + [RemovedAll("autoLoginODResult")]
    {
      if IsFailure(result.message.code) {
        Dispatch(ChangeErrorMessage(result.message));
        return;
      }
      SignIn(result.data);
      Dispatch(ChangeLanguage(result.data.user.contentLanguageId));
      Record(Navigate(MainView, [Native(Text("success"), "registerOD")]));
      RemoveAllListeners("autoLoginODResult");
    }

    method LoginOD(data: Payload)
      requires Valid()
      modifies this`log, this`listeners
      ensures Valid()
      ensures log == old(log) + [Emitted("loginOD", data), Installed("loginODResult")]
    {
      Call("loginOD", "loginODResult", data);
    }

    /** A login failure also raises the wrong-login flag; a success lowers it first. */
    method OnLoginODResult(result: Envelope<AccountData>)
      requires Valid() && Count(listeners, "loginODResult") > 0
      modifies this
      ensures Valid()
      ensures Failed(result) ==>
        && store == old(store).(errorMessage := Some(result.message))
        && currentLocation == old(currentLocation)
        && effects == old(effects) + [WrongLoginCheck(true)]
        && log == old(log)
      ensures !Failed(result) ==>
        && store == SignedIn(old(store), result.data).(language := Some(result.data.user.contentLanguageId))
        && currentLocation == FindLocation(result.data.locations, startPoint)
        && effects == old(effects) + [WrongLoginCheck(false), Navigate(MainView, [Native(Text("success"), "loginOD")])]
        && log == old(log) + [RemovedAll("loginODResult")]
    {
      if IsFailure(result.message.code) {
        Dispatch(ChangeErrorMessage(result.message));
        Record(WrongLoginCheck(true));
        return;
      }
      Record(WrongLoginCheck(false));
      SignIn(result.data);
      Dispatch(ChangeLanguage(result.data.user.contentLanguageId));
      Record(Navigate(MainView, [Native(Text("success"), "loginOD")]));
      RemoveAllListeners("loginODResult");
    }

    // ---------------------------------------------------------------- locations

    /** `registerLocation` sends the location, the logged-in user's id and the dismissed flag. */
    method RegisterLocation(id: int, dismissed: bool)
      requires Valid() && store.user.Some?
      modifies this`log, this`listeners
      ensures Valid()
      ensures log == old(log) + [Emitted("registerLocation", LocationRequest(id, store.user.value.id, dismissed)), Installed("registerLocationResult")]
    {
      Call("registerLocation", "registerLocationResult", LocationRequest(id, store.user.value.id, dismissed));
    }

    /**
     * A successful, not dismissed registration moves the current location to the registered one
     * and navigates to its content; a dismissed one only removes the handler. When the id is not
     * in the table, reading the new current location's content URL throws and the handler stops.
     */
    method OnRegisterLocationResult(result: Envelope<RegisteredLocation>)
      requires Valid() && Count(listeners, "registerLocationResult") > 0
      modifies this
      ensures Valid()
      ensures Failed(result) ==>
        && store == old(store).(errorMessage := Some(result.message))
        && currentLocation == old(currentLocation)
        && effects == old(effects) + [Native(Text("RegisterLocation: FAILED"), "print")]
        && log == old(log)
      ensures !Failed(result) ==> store == old(store)
      ensures !Failed(result) && result.data.dismissed ==>
        && currentLocation == old(currentLocation) && effects == old(effects)
        && log == old(log) + [RemovedAll("registerLocationResult")]
      ensures !Failed(result) && !result.data.dismissed ==>
        && currentLocation == FindLocation(old(store).lookupTable, result.data.location)
        && (currentLocation.None? ==> effects == old(effects) + [Native(Data, "print")] && log == old(log))
        && (currentLocation.Some? ==>
              && effects == old(effects) + [Native(Data, "print"), Navigate(ContentURL(currentLocation.value.contentURL), [])]
              && log == old(log) + [RemovedAll("registerLocationResult")])
    {
      if IsFailure(result.message.code) {
        Dispatch(ChangeErrorMessage(result.message));
        Record(Native(Text("RegisterLocation: FAILED"), "print"));
        return;
      }
      if !result.data.dismissed {
        UpdateCurrentLocation(result.data.location);
        Record(Native(Data, "print"));
        if currentLocation.None? {
          return;
        }
        Record(Navigate(ContentURL(currentLocation.value.contentURL), []));
      }
      RemoveAllListeners("registerLocationResult");
    }

    method RegisterTimelineUpdate(id: int)
      requires Valid() && store.user.Some?
      modifies this`log, this`listeners
      ensures Valid()
      ensures log == old(log) + [Emitted("registerTimelineUpdate", TimelineRequest(id, store.user.value.id)), Installed("registerTimelineUpdateResult")]
    {
      Call("registerTimelineUpdate", "registerTimelineUpdateResult", TimelineRequest(id, store.user.value.id));
    }

    /** `id` is the location the installing call captured. */
    method OnRegisterTimelineUpdateResult(id: int, result: Envelope<LocationsData>)
      requires Valid() && Count(listeners, "registerTimelineUpdateResult") > 0
      modifies this
      ensures Valid()
      ensures currentLocation == old(currentLocation)
      ensures Failed(result) ==>
        && store == old(store).(errorMessage := Some(result.message))
        && effects == old(effects) + [Native(Text("RegisterTimelineUpdate: FAILED"), "print")]
        && log == old(log)
      ensures !Failed(result) ==>
        && store == old(store).(lookupTable := result.data.locations)
        && effects == old(effects) + [LocationIdMessage(id), ScrollClick, Native(Text("success"), "triggerSignal")]
        && log == old(log) + [RemovedAll("registerTimelineUpdateResult")]
    {
      if IsFailure(result.message.code) {
        Dispatch(ChangeErrorMessage(result.message));
        Record(Native(Text("RegisterTimelineUpdate: FAILED"), "print"));
        return;
      }
      Record(LocationIdMessage(id));
      Record(ScrollClick);
      Record(Native(Text("success"), "triggerSignal"));
      Dispatch(ChangeLookupTable(result.data.locations));
      RemoveAllListeners("registerTimelineUpdateResult");
    }

    method RegisterLocationLike(location: Location, like: bool)
      requires Valid() && store.user.Some?
      modifies this`log, this`listeners
      ensures Valid()
      ensures log == old(log) + [Emitted("registerLocationLike", LikeRequest(location.id, like, store.user.value.id)), Installed("registerLocationLikeResult")]
    {
      Call("registerLocationLike", "registerLocationLikeResult", LikeRequest(location.id, like, store.user.value.id));
    }

    /**
     * The like handler replaces the table and refreshes the current location BEFORE it looks at
     * the code, so a failed like still changes both; only success removes the handler. With no
     * current location, reading its id throws right after the table is replaced.
     */
    method OnRegisterLocationLikeResult(result: Envelope<LocationsData>)
      requires Valid() && Count(listeners, "registerLocationLikeResult") > 0
      modifies this
      ensures Valid()
      ensures effects == old(effects)
      ensures old(currentLocation).None? ==>
        store == old(store).(lookupTable := result.data.locations) && currentLocation == None && log == old(log)
      ensures old(currentLocation).Some? ==>
        currentLocation == FindLocation(result.data.locations, old(currentLocation).value.id)
      ensures old(currentLocation).Some? && Failed(result) ==>
        store == old(store).(lookupTable := result.data.locations, errorMessage := Some(result.message)) && log == old(log)
      ensures old(currentLocation).Some? && !Failed(result) ==>
        store == old(store).(lookupTable := result.data.locations) && log == old(log) + [RemovedAll("registerLocationLikeResult")]
    {
      Dispatch(ChangeLookupTable(result.data.locations));
      if currentLocation.None? {
        return;
      }
      UpdateCurrentLocation(currentLocation.value.id);
      if IsFailure(result.message.code) {
        Dispatch(ChangeErrorMessage(result.message));
        return;
      }
      RemoveAllListeners("registerLocationLikeResult");
    }

    method CheckLocationStatus(location: int)
      requires Valid()
      modifies this`log, this`listeners
      ensures Valid()
      ensures log == old(log) + [Emitted("checkLocationStatus", StatusRequest(location)), Installed("checkLocationStatusResult")]
    {
      Call("checkLocationStatus", "checkLocationStatusResult", StatusRequest(location));
    }

    /**
     * A successful status is written to the store's location status only for a location that is
     * not a seat; a non-null callback receives it either way. A location missing from the table
     * makes reading its type throw, and the handler stops.
     */
    method OnCheckLocationStatusResult(hasCallback: bool, result: Envelope<StatusData>)
      requires Valid() && Count(listeners, "checkLocationStatusResult") > 0
      modifies this
      ensures Valid()
      ensures currentLocation == old(currentLocation)
      ensures Failed(result) ==>
        store == old(store).(errorMessage := Some(result.message)) && effects == old(effects) && log == old(log)
      ensures !Failed(result) && FindLocation(old(store).lookupTable, result.data.location).None? ==>
        store == old(store) && effects == old(effects) && log == old(log)
      ensures !Failed(result) && FindLocation(old(store).lookupTable, result.data.location).Some? ==>
        var location := FindLocation(old(store).lookupTable, result.data.location).value;
        && store == (if location.locationTypeId != SeatType then old(store).(locationStatus := Some(result.data.status)) else old(store))
        && effects == old(effects) + (if hasCallback then [Callback(result.data.status)] else [])
        && log == old(log) + [RemovedAll("checkLocationStatusResult")]
    {
      if IsFailure(result.message.code) {
        Dispatch(ChangeErrorMessage(result.message));
        return;
      }
      var location := FindLocation(store.lookupTable, result.data.location);
      if location.None? {
        return;
      }
      if location.value.locationTypeId != SeatType {
        Dispatch(ChangeLocationStatus(result.data.status));
      }
      if hasCallback {
        Record(Callback(result.data.status));
      }
      RemoveAllListeners("checkLocationStatusResult");
    }

    method DisconnectedFromExhibit(parentLocation: int, location: int)
      requires Valid()
      modifies this`log, this`listeners
      ensures Valid()
      ensures log == old(log) + [Emitted("disconnectedFromExhibit", DisconnectRequest(parentLocation, location)), Installed("disconnectedFromExhibitResult")]
    {
      Call("disconnectedFromExhibit", "disconnectedFromExhibitResult", DisconnectRequest(parentLocation, location));
    }

    /** After a successful disconnect the parent is registered again, not dismissed, only while logged in. */
    method OnDisconnectedFromExhibitResult(result: Envelope<DisconnectData>)
      requires Valid() && Count(listeners, "disconnectedFromExhibitResult") > 0
      modifies this
      ensures Valid()
      ensures currentLocation == old(currentLocation)
      ensures effects == old(effects) + [Native(Data, "print")]
      ensures Failed(result) ==> store == old(store).(errorMessage := Some(result.message)) && log == old(log)
      ensures !Failed(result) ==>
        && store == old(store)
        && log == old(log)
                  + (if old(store).isLoggedIn
                     then [Emitted("registerLocation", LocationRequest(result.data.parent, old(store).user.value.id, false)), Installed("registerLocationResult")]
                     else [])
                  + [RemovedAll("disconnectedFromExhibitResult")]
    {
      Record(Native(Data, "print"));
      if IsFailure(result.message.code) {
        Dispatch(ChangeErrorMessage(result.message));
        return;
      }
      if store.isLoggedIn {
        RegisterLocation(result.data.parent, false);
      }
      RemoveAllListeners("disconnectedFromExhibitResult");
    }

    // ---------------------------------------------------------------- account checks and settings

    method CheckUsernameExists(username: string)
      requires Valid()
      modifies this`log, this`listeners
      ensures Valid()
      ensures log == old(log) + [Emitted("checkUsernameExists", Plain(username)), Installed("checkUsernameExistsResult")]
    {
      Call("checkUsernameExists", "checkUsernameExistsResult", Plain(username));
    }

    method OnCheckUsernameExistsResult()
      requires Valid() && Count(listeners, "checkUsernameExistsResult") > 0
      modifies this`log, this`listeners
      ensures Valid()
      ensures log == old(log) + [RemovedAll("checkUsernameExistsResult")]
    {
      RemoveAllListeners("checkUsernameExistsResult");
    }

    method CheckEmailExists(email: string)
      requires Valid()
      modifies this`log, this`listeners
      ensures Valid()
      ensures log == old(log) + [Emitted("checkEmailExists", Plain(email)), Installed("checkEmailExistsResult")]
    {
      Call("checkEmailExists", "checkEmailExistsResult", Plain(email));
    }

    method OnCheckEmailExistsResult()
      requires Valid() && Count(listeners, "checkEmailExistsResult") > 0
      modifies this`log, this`listeners
      ensures Valid()
      ensures log == old(log) + [RemovedAll("checkEmailExistsResult")]
    {
      RemoveAllListeners("checkEmailExistsResult");
    }

    /** `checkUserOrEmailExists` emits `checkNameOrEmailExists`. */
    method CheckUserOrEmailExists(data: Payload)
      requires Valid()
      modifies this`log, this`listeners
      ensures Valid()
      ensures log == old(log) + [Emitted("checkNameOrEmailExists", data), Installed("checkNameOrEmailExistsResult")]
    {
      Call("checkNameOrEmailExists", "checkNameOrEmailExistsResult", data);
    }

    method OnCheckNameOrEmailExistsResult()
      requires Valid() && Count(listeners, "checkNameOrEmailExistsResult") > 0
      modifies this`log, this`listeners, this`effects
      ensures Valid()
      ensures effects == old(effects) + [UserOrEmailCheckResult]
      ensures log == old(log) + [RemovedAll("checkNameOrEmailExistsResult")]
    {
      Record(UserOrEmailCheckResult);
      RemoveAllListeners("checkNameOrEmailExistsResult");
    }

    /** `checkWifi` emits `checkWifiSSID`. */
    method CheckWifi(ssid: Payload)
      requires Valid()
      modifies this`log, this`listeners
      ensures Valid()
      ensures log == old(log) + [Emitted("checkWifiSSID", ssid), Installed("checkWifiSSIDResult")]
    {
      Call("checkWifiSSID", "checkWifiSSIDResult", ssid);
    }

    /** The wifi result carries only `data.check`; a correct network starts the Bluetooth check. */
    method OnCheckWifiSSIDResult(check: bool)
      requires Valid() && Count(listeners, "checkWifiSSIDResult") > 0
      modifies this`log, this`listeners, this`effects
      ensures Valid()
      ensures effects == old(effects) + (if check
                                          then [Native(Text("correctWifi"), "getWifiStatusResult"), Native(Text("bluetoothCheck"), "activateBluetoothCheck")]
                                          else [Native(Text("openWifiDialogNative"), "openWifiDialogNative")])
      ensures log == old(log) + [RemovedAll("checkWifiSSIDResult")]
    {
      if check {
        Record(Native(Text("correctWifi"), "getWifiStatusResult"));
        Record(Native(Text("bluetoothCheck"), "activateBluetoothCheck"));
      } else {
        Record(Native(Text("openWifiDialogNative"), "openWifiDialogNative"));
      }
      RemoveAllListeners("checkWifiSSIDResult");
    }

    /** `updateUserCredentials` emits `changeODCredentials`. */
    method UpdateUserCredentials(data: Payload)
      requires Valid()
      modifies this`log, this`listeners
      ensures Valid()
      ensures log == old(log) + [Emitted("changeODCredentials", data), Installed("changeODCredentialsResult")]
    {
      Call("changeODCredentials", "changeODCredentialsResult", data);
    }

    /** The credentials handler never removes itself, on success or on failure. */
    method OnChangeODCredentialsResult(result: Envelope<CredentialsData>)
      requires Valid() && Count(listeners, "changeODCredentialsResult") > 0
      modifies this`store, this`effects
      ensures Valid()
      ensures Failed(result) ==>
        store == old(store).(errorMessage := Some(result.message)) && effects == old(effects) + [ChangedCred(false)]
      ensures !Failed(result) ==>
        && store == old(store).(user := Some(result.data.user), token := Some(result.data.token))
        && effects == old(effects) + [ChangedCred(true), ExistingCredentialsOnChange(false)]
    {
      if IsFailure(result.message.code) {
        Dispatch(ChangeErrorMessage(result.message));
        Record(ChangedCred(false));
        return;
      }
      Record(ChangedCred(true));
      Record(ExistingCredentialsOnChange(false));
      Dispatch(ChangeUser(result.data.user));
      Dispatch(ChangeToken(result.data.token));
    }

    /** `deleteUserAccount` emits `deleteOD` and installs no handler. */
    method DeleteUserAccount(data: Payload)
      requires Valid()
      modifies this`log
      ensures Valid()
      ensures log == old(log) + [Emitted("deleteOD", data)]
    {
      Emit("deleteOD", data);
    }

    method UpdateUserLanguage(language: int)
      requires Valid() && store.user.Some?
      modifies this`log, this`listeners
      ensures Valid()
      ensures log == old(log) + [Emitted("updateUserLanguage", LanguageRequest(language, store.user.value.id)), Installed("updateUserLanguageResult")]
    {
      Call("updateUserLanguage", "updateUserLanguageResult", LanguageRequest(language, store.user.value.id));
    }

    /**
     * A successful language update sets language and table, then removes the handlers of
     * `registerLocationResult`, not its own: its own handler stays installed.
     */
    method OnUpdateUserLanguageResult(result: Envelope<LanguageData>)
      requires Valid() && Count(listeners, "updateUserLanguageResult") > 0
      modifies this`store, this`effects, this`log, this`listeners
      ensures Valid()
      ensures Failed(result) ==>
        && store == old(store).(errorMessage := Some(result.message))
        && effects == old(effects) + [Native(Text("RegisterTimelineUpdate: FAILED"), "print")]
        && log == old(log)
      ensures !Failed(result) ==>
        && store == old(store).(language := Some(result.data.language), lookupTable := result.data.locations)
        && effects == old(effects)
        && log == old(log) + [RemovedAll("registerLocationResult")]
    {
      if IsFailure(result.message.code) {
        Dispatch(ChangeErrorMessage(result.message));
        Record(Native(Text("RegisterTimelineUpdate: FAILED"), "print"));
        return;
      }
      Dispatch(ChangeLanguage(result.data.language));
      Dispatch(ChangeLookupTable(result.data.locations));
      RemoveAllListeners("registerLocationResult");
    }
  }

  // ---------------------------------------------------------------- scenarios on a fresh service

  /**
   * A failed login leaves user, table, token and login state as they were and keeps its handler;
   * a retry therefore has two handlers installed, and the one success removes both.
   */
  method LoginRetryScenario(initial: Store, data: Payload, failure: Envelope<AccountData>, success: Envelope<AccountData>)
      returns (afterFailure: Store, wrongFlags: seq<Effect>, pendingAfterFailure: nat, pendingAfterRetry: nat, pendingAfterSuccess: nat, loggedIn: bool)
    requires initial.isLoggedIn ==> initial.user.Some?
    requires Failed(failure) && !Failed(success)
    ensures afterFailure == initial.(errorMessage := Some(failure.message))
    ensures wrongFlags == [WrongLoginCheck(true)]
    ensures pendingAfterFailure == 1 && pendingAfterRetry == 2 && pendingAfterSuccess == 0
    ensures loggedIn
  {
    var god := new GodService(initial, 0, 0);
    var before := god.log;
    god.LoginOD(data);
    ReplayCall(before, Emitted("loginOD", data), Installed("loginODResult"));
    god.OnLoginODResult(failure);
    afterFailure, wrongFlags := god.store, god.effects;
    pendingAfterFailure := Count(god.listeners, "loginODResult");
    before := god.log;
    god.LoginOD(data);
    ReplayCall(before, Emitted("loginOD", data), Installed("loginODResult"));
    pendingAfterRetry := Count(god.listeners, "loginODResult");
    before := god.log;
    god.OnLoginODResult(success);
    ReplayStep(before, RemovedAll("loginODResult"));
    pendingAfterSuccess := Count(god.listeners, "loginODResult");
    loggedIn := god.store.isLoggedIn;
  }

  /** The location-registration handlers a disconnect result leaves, after re-registering or not. */
  lemma ReregistrationCount(before: seq<SocketOp>, request: SocketOp, loggedIn: bool)
    requires request.Emitted?
    ensures Count(Replay(before + (if loggedIn then [request, Installed("registerLocationResult")] else [])
                         + [RemovedAll("disconnectedFromExhibitResult")]), "registerLocationResult")
            == Count(Replay(before), "registerLocationResult") + (if loggedIn then 1 else 0)
  {
    var removal := RemovedAll("disconnectedFromExhibitResult");
    assert removal.event != "registerLocationResult" by { assert |removal.event| != 22; }
    if loggedIn {
      var install := Installed("registerLocationResult");
      ReplayCall(before, request, install);
      ReplayStep(before + [request, install], removal);
    } else {
      assert before + [] == before;
      ReplayStep(before, removal);
    }
  }

  /** After a successful disconnect the parent is registered again exactly when the user is logged in. */
  method DisconnectScenario(initial: Store, parent: int, location: int, result: Envelope<DisconnectData>)
      returns (reregistered: bool, pendingRegistrations: nat)
    requires initial.isLoggedIn ==> initial.user.Some?
    requires !Failed(result) && result.data.parent == parent
    ensures reregistered <==> initial.isLoggedIn
    ensures pendingRegistrations == (if initial.isLoggedIn then 1 else 0)
  {
    var god := new GodService(initial, 0, 0);
    var before := god.log;
    god.DisconnectedFromExhibit(parent, location);
    ReplayCall(before, Emitted("disconnectedFromExhibit", DisconnectRequest(parent, location)), Installed("disconnectedFromExhibitResult"));
    assert Count(Replay(god.log), "registerLocationResult") == 0;
    before := god.log;
    god.OnDisconnectedFromExhibitResult(result);
    var request := Emitted("registerLocation", LocationRequest(parent, if initial.isLoggedIn then initial.user.value.id else 0, false));
    var added := if initial.isLoggedIn then [request, Installed("registerLocationResult")] else [];
    assert god.log == before + added + [RemovedAll("disconnectedFromExhibitResult")];
    assert god.log[|before|] == if initial.isLoggedIn then request else RemovedAll("disconnectedFromExhibitResult");
    reregistered := god.log[|before|] == request;
    ReregistrationCount(before, request, initial.isLoggedIn);
    pendingRegistrations := Count(god.listeners, "registerLocationResult");
  }

  /**
   * A successful language update clears the handlers of a pending location registration and
   * leaves its own handler installed.
   */
  method LanguageUpdateScenario(initial: Store, location: int, language: int, result: Envelope<LanguageData>)
      returns (pendingLanguage: nat, pendingRegistrations: nat, updated: Option<int>)
    requires initial.isLoggedIn ==> initial.user.Some?
    requires initial.user.Some? && !Failed(result)
    ensures pendingLanguage == 1 && pendingRegistrations == 0
    ensures updated == Some(result.data.language)
  {
    var god := new GodService(initial, 0, 0);
    var userId := initial.user.value.id;
    var before := god.log;
    god.RegisterLocation(location, false);
    ReplayCall(before, Emitted("registerLocation", LocationRequest(location, userId, false)), Installed("registerLocationResult"));
    before := god.log;
    god.UpdateUserLanguage(language);
    ReplayCall(before, Emitted("updateUserLanguage", LanguageRequest(language, userId)), Installed("updateUserLanguageResult"));
    before := god.log;
    assert Count(god.listeners, "updateUserLanguageResult") == 1;
    god.OnUpdateUserLanguageResult(result);
    ReplayStep(before, RemovedAll("registerLocationResult"));
    assert "updateUserLanguageResult" != "registerLocationResult" by { assert |"registerLocationResult"| == 22; }
    pendingLanguage := Count(god.listeners, "updateUserLanguageResult");
    pendingRegistrations := Count(god.listeners, "registerLocationResult");
    updated := god.store.language;
  }

  /** The credentials handler stays installed after a success, so every later change adds one more. */
  method CredentialsScenario(initial: Store, data: Payload, result: Envelope<CredentialsData>)
      returns (pending: nat, user: Option<User>)
    requires initial.isLoggedIn ==> initial.user.Some?
    requires !Failed(result)
    ensures pending == 2
    ensures user == Some(result.data.user)
  {
    var god := new GodService(initial, 0, 0);
    var before := god.log;
    god.UpdateUserCredentials(data);
    ReplayCall(before, Emitted("changeODCredentials", data), Installed("changeODCredentialsResult"));
    god.OnChangeODCredentialsResult(result);
    before := god.log;
    god.UpdateUserCredentials(data);
    ReplayCall(before, Emitted("changeODCredentials", data), Installed("changeODCredentialsResult"));
    pending := Count(god.listeners, "changeODCredentialsResult");
    user := god.store.user;
  }
}
