/**
 * The values the museum client passes around: locations and the lookup table, the user,
 * the message carried by every server response, the shared application store with the
 * actions that change it, and the outward effects (native bridge, navigation, alerts)
 * that the services and components produce.
 */
module Domain {
  import opened Wrappers

  /** A location; `locationTypeId == SeatType` marks a seat at an exhibit (a table-on sub-location). */
  datatype Location = Location(id: int, description: string, locationTypeId: int, parentId: int, contentURL: string)

  const SeatType: int := 2

  /** The location lookup table, keyed by location id; the server replaces it wholesale. */
  type LookupTable = map<int, Location>

  /** `findLocation`: the location stored under an id, or undefined. */
  function FindLocation(table: LookupTable, id: int): Option<Location>
  {
    if id in table then Some(table[id]) else None
  }

  datatype User = User(id: int, isGuest: bool, contentLanguageId: int)

  /** The `message` part of a response envelope, and the payload of the error and success notifications. */
  datatype Message = Message(code: int, message: string)

  /** Every GoD response: operation-specific `data` and a status `message`. */
  datatype Envelope<D> = Envelope(data: D, message: Message)

  /**
   * The classification every current GoD handler applies, `message.code > 299`: on integer
   * codes it is exactly the documented boundary "300 and above is a domain failure".
   */
  function IsFailure(code: int): (failed: bool)
    ensures failed <==> code >= 300
  {
    code > 299
  }

  /** The platform tag that `checkPlatform` returns and the store keeps. */
  datatype Platform = IOS | Android | Web

  /** The shared application store, as far as the modelled code reads or writes it. */
  datatype Store = Store(
    user: Option<User>,
    lookupTable: LookupTable,
    token: Option<string>,
    isLoggedIn: bool,
    language: Option<int>,
    errorMessage: Option<Message>,
    successMessage: Option<Message>,
    locationStatus: Option<string>,
    locationSocketStatus: Option<string>,
    atExhibitParentId: int,
    onExhibit: bool,
    platform: Option<Platform>,
    closestExhibit: Option<int>)

  /** The store actions the modelled code dispatches. */
  datatype Action =
    | ChangeUser(user: User)
    | ChangeLookupTable(table: LookupTable)
    | ChangeToken(token: string)
    | ChangeLoggedIn(loggedIn: bool)
    | ChangeLanguage(language: int)
    | ChangeErrorMessage(error: Message)
    | ChangeSuccessMessage(success: Message)
    | ChangeLocationStatus(status: string)
    | ChangeLocationSocketStatus(socketStatus: string)
    | ChangeAtExhibitParentId(parentId: int)
    | ChangeOnExhibit(onExhibit: bool)
    | ChangePlatform(platform: Platform)

  /**
   * The reducer: each action writes one slot, the one it is named after, except that
   * `changeLoggedIn` writes `isLoggedIn`, the slot the disconnect handler reads.
   */
  function Reduce(s: Store, a: Action): Store
  {
    match a
    case ChangeUser(u) => s.(user := Some(u))
    case ChangeLookupTable(t) => s.(lookupTable := t)
    case ChangeToken(t) => s.(token := Some(t))
    case ChangeLoggedIn(b) => s.(isLoggedIn := b)
    case ChangeLanguage(l) => s.(language := Some(l))
    case ChangeErrorMessage(m) => s.(errorMessage := Some(m))
    case ChangeSuccessMessage(m) => s.(successMessage := Some(m))
    case ChangeLocationStatus(st) => s.(locationStatus := Some(st))
    case ChangeLocationSocketStatus(st) => s.(locationSocketStatus := Some(st))
    case ChangeAtExhibitParentId(p) => s.(atExhibitParentId := p)
    case ChangeOnExhibit(b) => s.(onExhibit := b)
    case ChangePlatform(p) => s.(platform := Some(p))
  }

  /** What is handed to the native bridge: a literal string, or a value the model does not spell out. */
  datatype NativeBody = Text(text: string) | Data

  datatype Route = MainView | ContentURL(url: string)

  /** Outward effects of the GoD services, in the order they happen. */
  datatype Effect =
    | Native(body: NativeBody, action: string)                 // sendToNative(body, action)
    | Navigate(route: Route, afterwards: seq<Effect>)          // router.navigate, with what its `then` callback does
    | NativeWindow(platform: Platform, action: string)         // a direct call into the host shell's window object
    | Callback(status: string)                                 // the caller's status callback
    | WrongLoginCheck(wrong: bool)
    | LocationIdMessage(location: int)
    | ScrollClick                                              // the click on the hidden scroll button
    | ChangedCred(changed: bool)
    | ExistingCredentialsOnChange(existing: bool)
    | UserOrEmailCheckResult
}
