# meeteux-odwww client core, modelled in Dafny

This project models the core of the meeteux-odwww museum client. It is an Angular web app that
runs inside a native shell on the visitor's device. The shell reports beacon pings (a beacon
"minor" identifies a location). The app turns them into requests to the GoD server ("Guide on
Demand") and reacts to the answers by updating a Redux-style store.

The model covers:

- **The GoD request/response layer, in both versions.** The current one is
  `services/god/god.service.ts` (module `God`); the older one is `services/god.service.ts`
  (module `LegacyGod`), which the native communication service still drives. Each operation emits a
  request, installs a `<name>Result` handler and, when the answer arrives, classifies it, applies
  its store changes and removes the handlers of its result event. The socket is modelled as a log
  of `emit` / `on` / `removeAllListeners` calls (module `Socket`). The listener table, the number of
  handlers installed per event, is by invariant the replay of that log. The store is a record
  changed only through the actions the services dispatch (module `Domain`).
- **The location-transition engine** of the native communication service
  (`transmitLocationRegister`, module `LocationTransition`). It is a pure decision tree from a
  beacon minor, the lookup table, the current location and the exhibit context to the calls it
  makes. The class `NativeCommunication.NativeCommunicationService` runs those calls on the older
  GoD service. It also models the platform classifier `checkPlatform`, with its three flags, and
  the native bridge dispatch `sendToNative`.
- **The seat status view** (`components/content-table-at`, module `ContentTableAt`). It has three
  status flags driven by the store, the join button, and the periodic seat status check.
- **The application root** (`app.component.ts`, module `AppComponent`). Its store subscriber
  de-duplicates the token, error and success notifications. `ngOnInit` resets the exhibit
  context. The module also covers auto-login, the language switch and the native setting dialog
  label.
- **The two registration forms** (`components/register`, `components/register-realuser`, modules
  `Register`, `RegisterRealuser`, sharing module `Credentials`). They cover the credential
  message, the `matchingpassword` validator, the anchored password pattern, the error-message
  getters and the hand-over to the transmission service.
- **The error-code catalogue** (`config/ErrorMessageTypes.ts`, module `ErrorMessageTypes`).

Things the code does that a reader might not expect. The model keeps each one as written:

- A failed response returns before `removeAllListeners`, so its handler stays installed. A retry
  therefore runs with two handlers (`God.LoginRetryScenario`).
- `registerLocationLike` replaces the table and refreshes the current location before it looks
  at the code.
- The language update removes the handlers of `registerLocationResult` instead of its own.
- The credentials update never removes its handler.
- The older `disconnectedFromExhibit` registers the parent again without a login check. The
  current one does so only when logged in.
- The older status handler resolves the location from the request, not from the response.
- `checkPlatform` never lowers a flag once raised, so a second check can leave two flags up
  (`NativeCommunication.FlagsAccumulateAcrossChecks`).
- The password hint lists `=` as a special character, but the pattern rejects it
  (`Credentials.EqualsSignIsNotSpecial`).
- The confirm-password message checks for an error key (`matchingpassword`) that no validator
  sets. The validator sets `matching`. After `ngOnInit` the message is therefore "The password is
  not the same" even when both passwords agree (`Register.SignupScenario`).
- The current service's two connection-loss codes (100, 101) are below the failure boundary
  `code > 299`.

A null dereference in the source (a missing user, or a location missing from the table) throws
inside a handler. The model ends the handler at that point; in the older service it reports
`thrown`. UI effects are recorded as values, not performed. These include router navigation,
native-bridge calls, snack bars and alert-service messages: each handler lists them in
`effects` or `outgoing`, in order.

Three services the core calls are not part of this model: the location service, the store
reducers and the success-message catalogue. They are taken as follows:

- `findLocation(id)` is a lookup in the id-keyed table.
- The current service's `updateCurrentLocation(id)` resolves the id in the store's table.
- `setToStartPoint()` resolves a fixed start id (`startPoint`, a constructor parameter).
- The older `updateCurrentLocation(obj)` takes the object as given.
- Every store action replaces exactly its own slot (`Domain.Reduce`).
- `changeLoggedIn` is taken to write the `isLoggedIn` slot that the `disconnectedFromExhibit` handler reads. The store is written only through `changeLoggedIn` and read only as `isLoggedIn`, so the model treats the two as one slot; `God.LoginRetryScenario` and `God.DisconnectScenario` rely on this.
- The reconnect success code is a constructor parameter.

## Model

| member | source | states |
|---|---|---|
| Domain.IsFailure | src/app/services/god/god.service.ts:56 | the envelope test `code > 299` fails exactly the codes of 300 and above |
| ErrorMessageTypes.FromCode | src/app/config/ErrorMessageTypes.ts:2-14 | a received code maps to the catalogue entry carrying that code, and to none exactly when no entry carries it |
| ErrorMessageTypes.CodesAreDistinct | src/app/config/ErrorMessageTypes.ts:2-14 | the ten codes are pairwise distinct and each maps back to its own entry |
| ErrorMessageTypes.FailureBoundarySplitsCatalogue | src/app/config/ErrorMessageTypes.ts:2-3 | only the two connection codes (100, 101) pass the `code > 299` test as success; every other entry is a failure |
| ErrorMessageTypes.CatalogueRanges | src/app/config/ErrorMessageTypes.ts:5-14 | the location codes are exactly the 300s, the OD codes the 400s, token and login the 500s |
| Socket.Apply | src/app/services/god/god.service.ts:50-75 | `on` adds one handler for its event, `removeAllListeners` leaves none, `emit` and every other event are untouched |
| Socket.ReplayStep | src/app/services/god/god.service.ts:48-50 | the listener table after one more socket call is that call applied to the table before |
| Socket.ReplayCall | src/app/services/god/god.service.ts:48-50 | a request and its handler installation, appended to the log, apply in that order |
| Socket.InstalledSinceRemovalSnoc | src/app/services/god/god.service.ts:50-75 | one more call adds one pending install (`on`), clears them (`removeAllListeners`) or leaves the count |
| Socket.ListenerCountIsPendingInstalls | src/app/services/god/god.service.ts:50-75 | the handler count of an event is the number of its `on` calls not undone by a later `removeAllListeners` |
| God.GodService.constructor | src/app/services/god/god.service.ts:30-43 | the service starts with exactly one handler each for `news`, `disconnect` and `reconnect` and the store as given |
| God.GodService.Call | src/app/services/god/god.service.ts:48-50 | a request is emitted first and its result handler installed after, one more handler for the result event |
| God.GodService.UpdateCurrentLocation | src/app/services/god/god.service.ts:221 | the current location becomes the table's entry for the id, or none |
| God.GodService.OnNews | src/app/services/god/god.service.ts:30-33 | a news message is printed to the native side |
| God.GodService.OnDisconnect | src/app/services/god/god.service.ts:35-38 | a lost connection sets the error message to code 100, "Lost connection to Server", and nothing else |
| God.GodService.OnReconnect | src/app/services/god/god.service.ts:40-43 | a reconnection sets the success message to the reconnect code, "Reconnected to Server", and nothing else |
| God.GodService.RegisterOD | src/app/services/god/god.service.ts:46-50 | emits `registerOD` with the data, then installs `registerODResult` |
| God.GodService.SignIn | src/app/services/god/god.service.ts:61-66 | user, table and token replaced, logged in, current location reset to the start point of the new table |
| God.GodService.OnRegisterODResult | src/app/services/god/god.service.ts:50-76 | prints the result; failure sets only the error message and keeps the handler; success signs in, navigates to the main view, tells the native side and removes the handler |
| God.GodService.RegisterODGuest | src/app/services/god/god.service.ts:79-83 | emits `registerODGuest`, then installs its result handler |
| God.GodService.OnRegisterODGuestResult | src/app/services/god/god.service.ts:83-108 | failure sets only the error message and keeps the handler; success signs in, navigates and removes the handler |
| God.GodService.RegisterODGuestToReal | src/app/services/god/god.service.ts:111-116 | emits `makeToRealUser`, then installs `makeToRealUserResult` |
| God.GodService.OnMakeToRealUserResult | src/app/services/god/god.service.ts:116-140 | failure sets only the error message; success replaces only user and token, leaving table and login state, and removes the handler |
| God.GodService.AutoLogin | src/app/services/god/god.service.ts:288-292 | emits `autoLoginOD` with the token, then installs its result handler |
| God.GodService.OnAutoLoginODResult | src/app/services/god/god.service.ts:292-319 | failure sets only the error message; success signs in, also sets the language to the user's content language, navigates and removes the handler |
| God.GodService.LoginOD | src/app/services/god/god.service.ts:322-326 | emits `loginOD`, then installs `loginODResult` |
| God.GodService.OnLoginODResult | src/app/services/god/god.service.ts:326-353 | failure sets the error message and raises the wrong-login flag; success lowers it, signs in, sets the language and removes the handler |
| God.GodService.RegisterLocation | src/app/services/god/god.service.ts:143-149 | emits the location, the user's id and the dismissed flag, then installs `registerLocationResult` |
| God.GodService.OnRegisterLocationResult | src/app/services/god/god.service.ts:149-172 | failure sets the error message, prints FAILED and keeps the handler; a dismissed success only removes the handler; otherwise the current location moves to the registered one and the view navigates to its content |
| God.GodService.RegisterTimelineUpdate | src/app/services/god/god.service.ts:175-182 | emits the location and user id, then installs its result handler |
| God.GodService.OnRegisterTimelineUpdateResult | src/app/services/god/god.service.ts:182-204 | failure sets the error message and prints FAILED; success announces the location, scrolls, triggers the signal, replaces the table and removes the handler |
| God.GodService.RegisterLocationLike | src/app/services/god/god.service.ts:207-213 | emits the location id, the like flag and the user id, then installs its result handler |
| God.GodService.OnRegisterLocationLikeResult | src/app/services/god/god.service.ts:213-230 | the table is replaced and the current location refreshed even on failure; only success removes the handler |
| God.GodService.CheckLocationStatus | src/app/services/god/god.service.ts:233-237 | emits the status request, then installs its result handler |
| God.GodService.OnCheckLocationStatusResult | src/app/services/god/god.service.ts:237-260 | on success the status is written to the store only for a location that is not a seat, and the callback receives it exactly when there is one |
| God.GodService.DisconnectedFromExhibit | src/app/services/god/god.service.ts:263-267 | emits parent and location, then installs its result handler |
| God.GodService.OnDisconnectedFromExhibitResult | src/app/services/god/god.service.ts:267-285 | on success the parent is registered again, not dismissed, exactly when logged in; then the handler is removed |
| God.GodService.CheckUsernameExists | src/app/services/god/god.service.ts:356-361 | emits `checkUsernameExists`, then installs its result handler |
| God.GodService.OnCheckUsernameExistsResult | src/app/services/god/god.service.ts:361-367 | the answer only removes the handler |
| God.GodService.CheckEmailExists | src/app/services/god/god.service.ts:370-375 | emits `checkEmailExists`, then installs its result handler |
| God.GodService.OnCheckEmailExistsResult | src/app/services/god/god.service.ts:375-380 | the answer only removes the handler |
| God.GodService.CheckUserOrEmailExists | src/app/services/god/god.service.ts:383-387 | emits `checkNameOrEmailExists`, then installs its result handler |
| God.GodService.OnCheckNameOrEmailExistsResult | src/app/services/god/god.service.ts:387-392 | the answer goes to the alert service and the handler is removed |
| God.GodService.CheckWifi | src/app/services/god/god.service.ts:395-399 | emits `checkWifiSSID`, then installs its result handler |
| God.GodService.OnCheckWifiSSIDResult | src/app/services/god/god.service.ts:399-413 | a correct network reports the wifi status and starts the Bluetooth check, a wrong one opens the wifi dialog; the handler is removed either way |
| God.GodService.UpdateUserCredentials | src/app/services/god/god.service.ts:416-419 | emits `changeODCredentials`, then installs its result handler |
| God.GodService.OnChangeODCredentialsResult | src/app/services/god/god.service.ts:419-437 | failure sets the error message and reports no change; success reports the change, clears the existing-credentials flag and replaces user and token; the handler is never removed |
| God.GodService.DeleteUserAccount | src/app/services/god/god.service.ts:440-442 | emits `deleteOD` and installs nothing |
| God.GodService.UpdateUserLanguage | src/app/services/god/god.service.ts:444-451 | emits language and user id, then installs its result handler |
| God.GodService.OnUpdateUserLanguageResult | src/app/services/god/god.service.ts:451-468 | success sets language and table and removes the handlers of `registerLocationResult`, leaving its own installed |
| God.LoginRetryScenario | src/app/services/god/god.service.ts:326-353 | after a failed login the store differs only in its error message and one handler stays; a retry makes two; the success removes both and logs in |
| God.DisconnectScenario | src/app/services/god/god.service.ts:279-284 | a successful disconnect re-registers the parent, and leaves a registration handler pending, exactly when the user is logged in |
| God.ReregistrationCount | src/app/services/god/god.service.ts:279-284 | the result handler adds one pending location-registration handler when it re-registers and none otherwise; its own removal leaves that count alone |
| God.LanguageUpdateScenario | src/app/services/god/god.service.ts:464-467 | a language update clears a pending location registration's handler and keeps its own |
| God.CredentialsScenario | src/app/services/god/god.service.ts:416-437 | after a successful change and a second request, two credential handlers are installed |
| LocationTransition.TransmitLocationRegister | src/app/services/native-communication.service.ts:33-81 | an unresolved minor only prints; the current location produces nothing; a status check is only for a seat and a registration only for a non-seat, both of the resolved location; at most two calls |
| LocationTransition.SeatContinuation | src/app/services/native-communication.service.ts:63-73 | a seat is registered exactly when its status is FREE, and the status is published last in both cases |
| LocationTransition.GodCallIffAdmitted | src/app/services/native-communication.service.ts:36-79 | a ping reaches GoD exactly when the minor resolves, is not current, no seat is current, and the admission guard holds |
| LocationTransition.RepeatedPingIsSilent | src/app/services/native-communication.service.ts:45 | a ping for the current location makes no call at all |
| LocationTransition.SeatLocksTransitions | src/app/services/native-communication.service.ts:47-51 | while a seat is current, no ping reaches GoD |
| LocationTransition.OnExhibitBlocksOtherExhibits | src/app/services/native-communication.service.ts:59 | while at an exhibit, a location that is not a seat never reaches GoD |
| LocationTransition.SeatCheckedOnlyAtItsExhibit | src/app/services/native-communication.service.ts:59-63 | a seat reaches GoD only when it belongs to the exhibit the visitor is at, and then only as a status check |
| LocationTransition.SeatRegisteredOnlyWhenFree | src/app/services/native-communication.service.ts:64-72 | a seat that is not FREE is never registered |
| LocationTransition.ScenarioDirectRegistration | src/app/services/native-communication.service.ts:75-78 | an admitted exhibit is registered directly, with no status check |
| LocationTransition.ScenarioSeatCheck | src/app/services/native-communication.service.ts:61-73 | an admitted seat is checked first; FREE registers it, OCCUPIED only publishes |
| LegacyGod.PlatformSignal | src/app/services/god.service.ts:50-61 | the native window is signalled exactly on IOS and Android, once |
| LegacyGod.GodService.constructor | src/app/services/god.service.ts:25-28 | the service starts with one `news` handler |
| LegacyGod.GodService.OnNews | src/app/services/god.service.ts:25-28 | a news message is printed to the native side |
| LegacyGod.GodService.RegisterOD | src/app/services/god.service.ts:31-35 | emits `registerOD`, then installs its result handler |
| LegacyGod.GodService.OnRegisterODResult | src/app/services/god.service.ts:35-66 | no failure branch: user and table are stored and mirrored into the location service, the view navigates, the platform signal follows, and the handler is always removed |
| LegacyGod.GodService.RegisterLocation | src/app/services/god.service.ts:69-75 | with a user, emits location and user id and installs the handler; without one it throws before sending anything |
| LegacyGod.GodService.OnRegisterLocationResult | src/app/services/god.service.ts:75-108 | FAILED prints and keeps the current location and the handler; otherwise the result becomes current, the view navigates, the signal goes to IOS and Android only, and the handler is removed |
| LegacyGod.GodService.CheckLocationStatus | src/app/services/god.service.ts:111-115 | emits the status request, then installs its result handler |
| LegacyGod.GodService.OnCheckLocationStatusResult | src/app/services/god.service.ts:115-133 | FAILED changes nothing; the location comes from the request; the status is stored only for a non-seat; the seat continuation runs when given; then the handler is removed |
| LegacyGod.GodService.RunContinuation | src/app/services/native-communication.service.ts:63-73 | a FREE seat is registered, and the socket status is published in both cases |
| LegacyGod.GodService.DisconnectedFromExhibit | src/app/services/god.service.ts:136-140 | emits parent and location, then installs its result handler |
| LegacyGod.GodService.OnDisconnectedFromExhibitResult | src/app/services/god.service.ts:140-148 | whatever the result, the parent it was called with is registered again without a login check, then the handler is removed |
| NativeCommunication.IndexFrom | src/app/services/native-communication.service.ts:145 | the search returns the first occurrence at or after the start, or -1 when there is none |
| NativeCommunication.IndexOf | src/app/services/native-communication.service.ts:145-156 | `indexOf` is -1 exactly when the substring does not occur, and otherwise its first occurrence |
| NativeCommunication.Classify | src/app/services/native-communication.service.ts:158-172 | Android whenever the user agent contains "Android", else Web for "Safari" or "Chrome", else IOS |
| NativeCommunication.CheckFromInitialLeavesOneFlag | src/app/services/native-communication.service.ts:158-172 | from the initial flags one check leaves exactly one flag up, the one of the returned tag |
| NativeCommunication.FlagsAccumulateAcrossChecks | src/app/services/native-communication.service.ts:158-170 | a Chrome check then an Android check leaves both the Android and the Web flag up |
| NativeCommunication.DeliveriesByPlatform | src/app/services/native-communication.service.ts:84-137 | the web flag logs every message; IOS and Android deliver only `print`, `getDeviceInfos`, `registerOD` and `triggerSignal`, and Android passes the body only for `print` |
| NativeCommunication.OneFlagOneChannel | src/app/services/native-communication.service.ts:84-137 | with one flag up a message goes out at most once |
| NativeCommunication.NativeCommunicationService.constructor | src/app/services/native-communication.service.ts:9-12 | the flags start as IOS up, Android and Web down |
| NativeCommunication.NativeCommunicationService.CheckPlatform | src/app/services/native-communication.service.ts:139-173 | returns the classification and raises its flag, lowering IOS for Android and Web |
| NativeCommunication.NativeCommunicationService.SendToNative | src/app/services/native-communication.service.ts:84-137 | appends exactly the deliveries the current flags call for |
| NativeCommunication.NativeCommunicationService.TransmitODRegister | src/app/services/native-communication.service.ts:22-31 | registers the device at GoD with the stored register name as identifier |
| NativeCommunication.NativeCommunicationService.TransmitLocationRegister | src/app/services/native-communication.service.ts:33-81 | the prints and the GoD requests made are exactly those of the decision tree for the store's context |
| NativeCommunication.NoGodCallNoRequests | src/app/services/native-communication.service.ts:36-51 | a ping whose decision makes no GoD call sends nothing over the socket |
| ContentTableAt.UpdateLocationStatus | src/app/components/content-table-at/content-table-at.component.ts:110-126 | FREE, OCCUPIED and OFFLINE each raise exactly their own flag; any other status, undefined included, changes nothing |
| ContentTableAt.LastRecognised | src/app/components/content-table-at/content-table-at.component.ts:110-126 | the latest recognised status of a series, or none when no status is recognised |
| ContentTableAt.FlagsAfterSnoc | src/app/components/content-table-at/content-table-at.component.ts:50-52 | one more store change applies the status update to the flags so far |
| ContentTableAt.FlagsReflectLastRecognised | src/app/components/content-table-at/content-table-at.component.ts:110-126 | after any series of store changes the flags are those of the last recognised status |
| ContentTableAt.FlagsStayExclusive | src/app/components/content-table-at/content-table-at.component.ts:110-126 | at most one flag is ever up |
| ContentTableAt.ContentTableAtComponent.constructor | src/app/components/content-table-at/content-table-at.component.ts:40-58 | the view starts with no flag up and the join game closed |
| ContentTableAt.ContentTableAtComponent.UpdateLocationStatusFlags | src/app/components/content-table-at/content-table-at.component.ts:110-126 | the fields follow the status update |
| ContentTableAt.ContentTableAtComponent.OnStoreChange | src/app/components/content-table-at/content-table-at.component.ts:50-58 | flags follow the store's status; the join button is recomputed only for a truthy closest exhibit; the socket status mirrors the store |
| ContentTableAt.ContentTableAtComponent.InitialiseInvites | src/app/components/content-table-at/content-table-at.component.ts:76-89 | the current location is taken over, the flags cleared and the join game opened; with no current location (where the source throws) only the print happens and every other field keeps its value |
| ContentTableAt.ContentTableAtComponent.TimerTick | src/app/components/content-table-at/content-table-at.component.ts:92-94 | each tick requests the status of the view's location |
| ContentTableAt.ContentTableAtComponent.StartOnTableSearch | src/app/components/content-table-at/content-table-at.component.ts:129-134 | closes the join game, stops scanning and makes the location the visitor's exhibit |
| ContentTableAt.ContentTableAtComponent.RegisterLocationLike | src/app/components/content-table-at/content-table-at.component.ts:136-138 | transmits a like |
| ContentTableAt.ContentTableAtComponent.RegisterLocationUnlike | src/app/components/content-table-at/content-table-at.component.ts:140-142 | transmits an unlike |
| ContentTableAt.ContentTableAtComponent.RedirectToOnTable | src/app/components/content-table-at/content-table-at.component.ts:150-153 | fakes a timeline ping of minor 1000, major 100 |
| ContentTableAt.ContentTableAtComponent.RedirectToOnTableBehavior | src/app/components/content-table-at/content-table-at.component.ts:155-160 | prints, makes the location the visitor's exhibit, then asks for the seat |
| ContentTableAt.StatusSeriesScenario | src/app/components/content-table-at/content-table-at.component.ts:50-58 | a fresh view shown a status series ends with the flags of its last recognised status, never two up |
| AppComponent.Dedup | src/app/app.component.ts:83-103 | the values a last-value subscriber handles never repeat back to back, the first differs from the remembered one, a defined first value that differs from it is handled first, and there are no more than arrived |
| AppComponent.DedupHandlesOnlyIncoming | src/app/app.component.ts:83-103 | every value the subscriber handles is one that arrived from the store |
| AppComponent.RepeatHandledOnce | src/app/app.component.ts:83-87 | the same value twice in a row is handled once, or not at all if it was the last one |
| AppComponent.CodeOf | src/app/app.component.ts:89-103 | a notification is compared by its code |
| AppComponent.LanguageFor | src/app/app.component.ts:268-274 | 'de' selects DE and anything else ENG |
| AppComponent.OpenNativeSetting | src/app/app.component.ts:147-189 | wifi confirms with 'To the Settings' everywhere; Bluetooth with 'Activate Bluetooth' on Android, 'To the Settings' on IOS and no label on the web; other types open nothing |
| AppComponent.AppComponent.constructor | src/app/app.component.ts:68-69 | the language starts as 'en' and nothing has been handled |
| AppComponent.AppComponent.OnStoreChange | src/app/app.component.ts:71-104 | guest follows a defined user; a new defined token is saved natively; an error or success whose code is new is shown; each is remembered |
| AppComponent.AppComponent.HandleToken | src/app/app.component.ts:82-86 | a defined token that differs from the remembered one is saved natively and remembered; otherwise nothing changes |
| AppComponent.AppComponent.HandleNotification | src/app/app.component.ts:88-94 | a defined message whose code differs from the remembered one is shown with its text and panel and its code remembered; otherwise nothing is shown |
| AppComponent.AppComponent.GetTokenForAutoLogin | src/app/app.component.ts:200-215 | the native side is always asked for the token; off IOS and Android a stored token logs in |
| AppComponent.AppComponent.NgOnInit | src/app/app.component.ts:120-126 | the exhibit context is reset to 0 and not on exhibit, the platform recorded, and the token requested |
| AppComponent.AppComponent.UseLanguage | src/app/app.component.ts:265-276 | the language becomes the argument and the matching language type is transmitted |
| AppComponent.TokenSeriesScenario | src/app/app.component.ts:83-87 | a series of store tokens saves exactly the de-duplicated series, never the same token twice in a row |
| AppComponent.SentTokensDistinct | src/app/app.component.ts:82-86 | the messages a fresh subscriber sends for any token series never repeat back to back |
| AppComponent.SeriesStep | src/app/app.component.ts:83-87 | one store change moves one token from the pending series to the handled prefix |
| AppComponent.DedupStep | src/app/app.component.ts:83-87 | one store change handles its token or not and moves the remembered one on |
| AppComponent.SaveTokens | src/app/app.component.ts:85 | each handled token becomes one `saveToken` message, in order |
| AppComponent.SaveTokensAppend | src/app/app.component.ts:85 | saving two runs of tokens is saving each in turn |
| AppComponent.SaveTokensKeepDistinct | src/app/app.component.ts:85 | `saveToken` messages repeat back to back only if their tokens do |
| Credentials.CredentialMessage | src/app/components/register/register.component.ts:56-68 | both exist, then the username, then the email, then "don't match" |
| Credentials.CredentialMessageDeterminesAnswer | src/app/components/register/register.component.ts:56-68 | the four messages are distinct, so the message shown names exactly which credentials clash |
| Credentials.MessageNamesAnswer | src/app/components/register/register.component.ts:56-68 | only the answer itself yields its credential message |
| Credentials.MatchingPassword | src/app/components/register/register.component.ts:118-131 | no error exactly when both values are equal and non-empty; otherwise a `matching` error carrying the confirm value |
| Credentials.MatchingIsSymmetric | src/app/components/register/register.component.ts:124 | whether two values match does not depend on which is the confirmation |
| Credentials.ContainsClass | src/app/components/register/register.component.ts:33 | some character of the value is of the class |
| Credentials.SatisfiesPattern | src/app/components/register/register.component.ts:32-33 | the executable policy accepts exactly what the anchored pattern, lookaheads included, matches |
| Credentials.LookaheadIsContainment | src/app/components/register/register.component.ts:33 | once the anchored body holds, each lookahead holds exactly when its class occurs anywhere |
| Credentials.EqualsSignIsNotSpecial | src/app/components/register/register.component.ts:101-106 | the hint lists '=' but the pattern's special set does not hold it, every other listed character is, and "Abcde1=" is rejected |
| Credentials.AcceptedByWitnesses | src/app/components/register/register.component.ts:32-33 | a value of at least six characters with an allowed first character, no line terminator, and a digit, an upper case letter, a lower case letter and a special character is accepted |
| Credentials.ExampleAccepted | src/app/components/register/register.component.ts:33 | "Abcde1!" is accepted |
| Credentials.WithValue | src/app/components/register/register.component.ts:36-41 | typing into one control changes that control and no other |
| Credentials.FieldErrors | src/app/components/register/register.component.ts:30-34 | name and email are required; the password is required then patterned; the confirm control is required until `ngOnInit`, then only `matching` |
| Credentials.PasswordMessageMeaning | src/app/components/register/register.component.ts:101-106 | the password message is empty exactly for an accepted password, asks for a value exactly for an empty one, and gives the hint otherwise |
| Credentials.ConfirmMessageIgnoresMatch | src/app/components/register/register.component.ts:107-111 | the confirm message asks for a value only for an empty confirmation before `ngOnInit`, and is "not the same" otherwise, matching or not |
| Credentials.RequiredMessageMeaning | src/app/components/register/register.component.ts:112-114 | a field asks for a value exactly when empty and still required |
| Credentials.TransmissionService.constructor | src/app/components/register/register.component.ts:74-77 | nothing has been handed over or sent |
| Credentials.TransmissionService.Transmit | src/app/components/register/register.component.ts:88 | records one transmission |
| Register.RegisterComponent.constructor | src/app/components/register/register.component.ts:30-41 | every control starts empty and the confirm control required |
| Register.RegisterComponent.SetValue | src/app/components/register/register.component.ts:36-41 | the visitor's input replaces one control's value |
| Register.RegisterComponent.OnExistingCredentials | src/app/components/register/register.component.ts:53-69 | the flags are copied, the credentials always marked wrong, and the message chosen by priority |
| Register.RegisterComponent.RequestDeviceInfos | src/app/components/register/register.component.ts:72-90 | name, email, password and guest flag are handed over, the native side is always asked for the device data, and placeholder data is registered exactly off IOS and Android |
| Register.RegisterComponent.NgOnInit | src/app/components/register/register.component.ts:92-99 | the fields are cleared and the confirm control validated by `matchingpassword` |
| Register.RegisterComponent.GetPasswordErrorMessage | src/app/components/register/register.component.ts:101-106 | empty exactly for an accepted password; 'You must enter a value' exactly for an empty one |
| Register.RegisterComponent.GetConfirmPasswordErrorMessage | src/app/components/register/register.component.ts:107-111 | 'You must enter a value' only for an empty confirmation before `ngOnInit`, else "not the same" |
| Register.RegisterComponent.GetRequiredErrorMessage | src/app/components/register/register.component.ts:112-114 | 'You must enter a value' exactly for an empty field still required, else empty |
| Register.RegisterComponent.GetExistsErrorMessage | src/app/components/register/register.component.ts:133-135 | no message before any "already exists" answer; afterwards the message of the last answer, which no other answer shares |
| Register.SignupScenario | src/app/components/register/register.component.ts:56-135 | placeholder data is registered exactly off the native platforms; the password message is empty exactly for an accepted password; the confirm message is "not the same" even for agreeing passwords; an "already exists" answer is shown by its own message, and nothing is shown without one |
| RegisterRealuser.RegisterRealuserComponent.constructor | src/app/components/register-realuser/register-realuser.component.ts:31-42 | every control starts empty and the confirm control required |
| RegisterRealuser.RegisterRealuserComponent.SetValue | src/app/components/register-realuser/register-realuser.component.ts:37-42 | the visitor's input replaces one control's value |
| RegisterRealuser.RegisterRealuserComponent.OnExistingCredentials | src/app/components/register-realuser/register-realuser.component.ts:54-70 | the flags are copied, the credentials always marked wrong, and the message chosen by priority |
| RegisterRealuser.RegisterRealuserComponent.RegisterAsRealuser | src/app/components/register-realuser/register-realuser.component.ts:73-83 | name, email and password are handed over and the conversion requested on every platform; the guest flag is untouched |
| RegisterRealuser.RegisterRealuserComponent.NgOnInit | src/app/components/register-realuser/register-realuser.component.ts:85-92 | the fields are cleared and the confirm control validated by `matchingpassword` |
| RegisterRealuser.RegisterRealuserComponent.GetPasswordErrorMessage | src/app/components/register-realuser/register-realuser.component.ts:94-99 | empty exactly for an accepted password; 'You must enter a value' exactly for an empty one |
| RegisterRealuser.RegisterRealuserComponent.GetConfirmPasswordErrorMessage | src/app/components/register-realuser/register-realuser.component.ts:100-104 | 'You must enter a value' only for an empty confirmation before `ngOnInit`, else "not the same" |
| RegisterRealuser.RegisterRealuserComponent.GetRequiredErrorMessage | src/app/components/register-realuser/register-realuser.component.ts:105-107 | 'You must enter a value' exactly for an empty field still required, else empty |
| RegisterRealuser.RegisterRealuserComponent.GetExistsErrorMessage | src/app/components/register-realuser/register-realuser.component.ts:126-128 | no message before any "already exists" answer; afterwards the message of the last answer, which no other answer shares |
| RegisterRealuser.GuestToRealScenario | src/app/components/register-realuser/register-realuser.component.ts:54-128 | the conversion is requested once whatever the platform; the password message is empty exactly for an accepted password; the confirm message is "not the same"; an "already exists" answer is shown by its own message, and nothing is shown without one |

## Left out

- The socket transport (`GodSocketService`) is not part of this model. The socket is an ordered log of `emit`, `on` and `removeAllListeners` calls with a handler count per event; how the library delivers one answer to several installed handlers is not modelled.
- Reconnection behaviour of the socket is not modelled beyond the `reconnect` handler itself.
- Router navigation and its `.then` callbacks, snack bars, dialogs, translation and the DOM click of the timeline update are recorded as effect values, not performed.
- Native-bridge calls through the host window are recorded as deliveries (platform channel, action, body).
- `window.navigator.userAgent`, `localStorage` and `JSON.parse` are inputs: the user agent string and the parsed stored token are parameters.
- The status timer is reduced to `TimerTick`; its scheduling is not modelled.
- The alert service is not part of this model. Its messages are recorded as effects, or arrive as method arguments (the "already exists" answer).
- The location service, the transmission service, the native response service, the language service, the second native communication service (`services/native/...`) and the store reducers are not part of this model. Their calls are recorded as outgoing values, and their state as described above.
- God.GodService.RegisterLocation: requires a user in the store; the source reads `user.id` and throws without one. The same holds for `RegisterTimelineUpdate`, `RegisterLocationLike` and `UpdateUserLanguage`. The older service models that throw (`thrown`) instead.
- God.GodService.OnRegisterLocationResult: `updateCurrentLocation(loc)` is taken to resolve the id in the table. A missing entry stops the handler where reading the content URL would throw.
- AppComponent.AppComponent.NgOnInit: the platform tag of `checkPlatform` is a parameter. That `checkPlatform` belongs to `services/native/native-communication.service`, which is not part of this model.
- AppComponent.OpenNativeSetting: the platform is a parameter for the same reason. The dialog's answer, forwarded to the alert service, is not modelled.
- `redirectToTimeline`, `redirectToStart`, `registerRealuserRouting`, `logoutRouting`, `logoutUser`, `userCredentials`, `openDialog` and `ngOnDestroy` of the root component are left out. Each is a navigation followed by a print, a delegation to a service outside this model, or a subscription teardown.
- Credentials.FieldErrors: validation is taken to re-run on every read, with exactly the component's own validators. Angular's `setValidators` does not re-validate, the template (not part of this model) may add validators, and a change to the password does not re-validate the confirmation; so the model does not capture a stale `required` on the confirmation after `ngOnInit`, nor a `matching` error computed against an earlier password.
- The table view's subscription to the location service's current location, which keeps its `location` field up to date, is not modelled: `location` is written only by `InitialiseInvites`, and no modelled output reads it.
- `updateJoinButtonStatus` asks the location service whether the exhibit is in range. Its answer is the `inRange` parameter of `OnStoreChange`.
- Credentials.SatisfiesPattern: lengths are counted in Unicode characters. JavaScript counts UTF-16 code units, and the two differ only for characters outside the Basic Multilingual Plane.
- `getRequiredErrorMessage` with a field name that is not one of the four controls throws in the source; the model's field is one of the four.
- Fields the source leaves undefined are `None`, or false when the view only reads them as booleans.
- The older view `content-table-at/content-table-at.component.ts`, `content-passive`, `content-table-on` and the older `register` component are left out: they hold view glue or stubs.
