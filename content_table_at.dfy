/**
 * The "at the table" view of a seat (components/content-table-at): three status flags
 * (free, occupied, offline) driven by the store's location status, the join button, and the
 * periodic seat status check that goes to the current GoD service.
 */
module ContentTableAt {
  import opened Wrappers
  import opened Domain
  import opened Socket
  import God

  datatype StatusFlags = StatusFlags(free: bool, occupied: bool, offline: bool)

  /** The three statuses the view recognises. */
  predicate Recognised(status: Option<string>)
  {
    status == Some("FREE") || status == Some("OCCUPIED") || status == Some("OFFLINE")
  }

  /** The flags a recognised status stands for: exactly its own flag. */
  function FlagsFor(status: string): StatusFlags
  {
    StatusFlags(status == "FREE", status == "OCCUPIED", status == "OFFLINE")
  }

  predicate AtMostOne(f: StatusFlags)
  {
    (if f.free then 1 else 0) + (if f.occupied then 1 else 0) + (if f.offline then 1 else 0) <= 1
  }

  /** `updateLocationStatus`: a recognised status sets exactly its flag; anything else, undefined included, changes nothing. */
  function UpdateLocationStatus(f: StatusFlags, status: Option<string>): (g: StatusFlags)
    ensures Recognised(status) ==> g == FlagsFor(status.value) && AtMostOne(g)
    ensures Recognised(status) ==> (g.free <==> status == Some("FREE")) && (g.occupied <==> status == Some("OCCUPIED")) && (g.offline <==> status == Some("OFFLINE"))
    ensures !Recognised(status) ==> g == f
  {
    match status
    case Some("FREE") => StatusFlags(true, false, false)
    case Some("OCCUPIED") => StatusFlags(false, true, false)
    case Some("OFFLINE") => StatusFlags(false, false, true)
    case _ => f
  }

  /** The flags after the view has seen a series of store statuses, oldest first. */
  function FlagsAfter(f: StatusFlags, statuses: seq<Option<string>>): StatusFlags
    decreases |statuses|
  {
    if statuses == [] then f else FlagsAfter(UpdateLocationStatus(f, statuses[0]), statuses[1..])
  }

  /** The most recent recognised status in a series, if any. */
  function LastRecognised(statuses: seq<Option<string>>): (last: Option<string>)
    ensures last.Some? ==> Recognised(last) && last in statuses
    ensures last.None? ==> forall i :: 0 <= i < |statuses| ==> !Recognised(statuses[i])
  {
    if statuses == [] then None
    else if Recognised(statuses[|statuses| - 1]) then statuses[|statuses| - 1]
    else LastRecognised(statuses[..|statuses| - 1])
  }

  lemma {:induction false} FlagsAfterSnoc(f: StatusFlags, statuses: seq<Option<string>>, status: Option<string>)
    ensures FlagsAfter(f, statuses + [status]) == UpdateLocationStatus(FlagsAfter(f, statuses), status)
    decreases |statuses|
  {
    if statuses != [] {
      assert (statuses + [status])[1..] == statuses[1..] + [status];
      FlagsAfterSnoc(UpdateLocationStatus(f, statuses[0]), statuses[1..], status);
    }
  }

  /**
   * However many store changes the view sees, its flags are those of the last recognised
   * status; with none, they are where they started. Unrecognised statuses never clear a flag.
   */
  lemma {:induction false} FlagsReflectLastRecognised(f: StatusFlags, statuses: seq<Option<string>>)
    ensures FlagsAfter(f, statuses) == (if LastRecognised(statuses).Some? then FlagsFor(LastRecognised(statuses).value) else f)
  {
    if statuses != [] {
      var init, last := statuses[..|statuses| - 1], statuses[|statuses| - 1];
      assert statuses == init + [last];
      FlagsReflectLastRecognised(f, init);
      FlagsAfterSnoc(f, init, last);
    }
  }

  /** Once any recognised status has been seen, at most one flag is up; from all-false, always. */
  lemma FlagsStayExclusive(f: StatusFlags, statuses: seq<Option<string>>)
    requires AtMostOne(f)
    ensures AtMostOne(FlagsAfter(f, statuses))
  {
    FlagsReflectLastRecognised(f, statuses);
    var last := LastRecognised(statuses);
    if last.Some? {
      assert UpdateLocationStatus(f, last) == FlagsFor(last.value);
    }
  }

  /** JavaScript truthiness of the store's closest exhibit id: defined and not 0. */
  predicate Truthy(id: Option<int>)
  {
    id.Some? && id.value != 0
  }

  /** What the view sends outside the GoD socket. */
  datatype Outgoing =
    | Print(text: string)                         // sendToNative(text, 'print')
    | StopLocationScanning
    | TransmitLocationLike(like: bool)
    | TimelineUpdate(minor: int, major: int)
    | TransmitLocationRegisterTableBehavior

  class ContentTableAtComponent {
    var location: Option<Location>
    var locationName: string
    var locationId: int
    var locationType: int
    var free: bool
    var occupied: bool
    var offline: bool
    var isJoinButtonUnlocked: bool
    var isWeb: bool
    var joinGame: bool
    var locationSocketStatus: Option<string>
    var outgoing: seq<Outgoing>
    /** The current GoD service; its store is the application store and its current location the location service's. */
    const god: God.GodService

    function Flags(): StatusFlags
      reads this
    {
      StatusFlags(free, occupied, offline)
    }

    constructor (god: God.GodService)
      ensures this.god == god && outgoing == [] && location == None && locationSocketStatus == None
      ensures Flags() == StatusFlags(false, false, false) && !joinGame && !isJoinButtonUnlocked
    {
      this.god := god;
      location := None;
      locationName := "";
      locationId := 0;
      locationType := 0;
      free, occupied, offline := false, false, false;
      isJoinButtonUnlocked := false;
      isWeb := false;
      joinGame := false;
      locationSocketStatus := None;
      outgoing := [];
    }

    method UpdateLocationStatusFlags(status: Option<string>)
      modifies this`free, this`occupied, this`offline
      ensures Flags() == UpdateLocationStatus(old(Flags()), status)
    {
      if status == Some("FREE") {
        free, occupied, offline := true, false, false;
      } else if status == Some("OCCUPIED") {
        free, occupied, offline := false, true, false;
      } else if status == Some("OFFLINE") {
        offline, free, occupied := true, false, false;
      }
    }

    /**
     * The store subscription: the flags follow the store's location status, the join button
     * is recomputed only for a truthy closest exhibit (`inRange` is the location service's
     * answer for it), and the socket status mirrors the store.
     */
    method OnStoreChange(inRange: bool)
      modifies this`free, this`occupied, this`offline, this`isJoinButtonUnlocked, this`locationSocketStatus
      ensures Flags() == UpdateLocationStatus(old(Flags()), god.store.locationStatus)
      ensures isJoinButtonUnlocked == if Truthy(god.store.closestExhibit) then inRange else old(isJoinButtonUnlocked)
      ensures locationSocketStatus == god.store.locationSocketStatus
    {
      UpdateLocationStatusFlags(god.store.locationStatus);
      if Truthy(god.store.closestExhibit) {
        isJoinButtonUnlocked := inRange;
      }
      locationSocketStatus := god.store.locationSocketStatus;
    }

    /**
     * `initialiseInvites`: the view takes over the current location, clears the three flags
     * and opens the join game. With no current location, reading its description throws right
     * after the print.
     */
    method InitialiseInvites(nativeIsWeb: bool)
      modifies this`location, this`locationName, this`locationId, this`locationType, this`free, this`occupied, this`offline,
               this`joinGame, this`isWeb, this`outgoing
      ensures outgoing == old(outgoing) + [Print("TABLE-AT")]
      ensures location == god.currentLocation
      ensures god.currentLocation.None? ==>
        && Flags() == old(Flags()) && joinGame == old(joinGame) && isWeb == old(isWeb)
        && locationName == old(locationName) && locationId == old(locationId) && locationType == old(locationType)
      ensures god.currentLocation.Some? ==>
        && Flags() == StatusFlags(false, false, false)
        && joinGame && isWeb == nativeIsWeb
        && locationId == god.currentLocation.value.id
        && locationName == god.currentLocation.value.description
        && locationType == god.currentLocation.value.locationTypeId
    {
      outgoing := outgoing + [Print("TABLE-AT")];
      location := god.currentLocation;
      if location.None? {
        return;
      }
      locationName := location.value.description;
      locationId := location.value.id;
      free, occupied, offline := false, false, false;
      locationType := location.value.locationTypeId;
      joinGame := true;
      isWeb := nativeIsWeb;
    }

    /** One tick of the status timer: the seat's status is requested again. */
    method TimerTick()
      requires god.Valid()
      modifies god`log, god`listeners
      ensures god.Valid()
      ensures god.log == old(god.log) + [Emitted("checkLocationStatus", StatusRequest(locationId)), Installed("checkLocationStatusResult")]
    {
      god.CheckLocationStatus(locationId);
    }

    /** `startOnTableSearch`: the join game closes, scanning stops, and the exhibit becomes the visitor's. */
    method StartOnTableSearch()
      modifies this`joinGame, this`outgoing, god`store
      ensures !joinGame
      ensures outgoing == old(outgoing) + [StopLocationScanning]
      ensures god.store == old(god.store).(atExhibitParentId := locationId)
    {
      joinGame := false;
      outgoing := outgoing + [StopLocationScanning];
      god.Dispatch(ChangeAtExhibitParentId(locationId));
    }

    method RegisterLocationLike()
      modifies this`outgoing
      ensures outgoing == old(outgoing) + [TransmitLocationLike(true)]
    {
      outgoing := outgoing + [TransmitLocationLike(true)];
    }

    method RegisterLocationUnlike()
      modifies this`outgoing
      ensures outgoing == old(outgoing) + [TransmitLocationLike(false)]
    {
      outgoing := outgoing + [TransmitLocationLike(false)];
    }

    /** `redirectToOnTable` fakes a timeline ping of minor 1000, major 100. */
    method RedirectToOnTable()
      modifies this`outgoing
      ensures outgoing == old(outgoing) + [TimelineUpdate(1000, 100)]
    {
      outgoing := outgoing + [TimelineUpdate(1000, 100)];
    }

    /** `redirectToOnTableBehavior`: like `startOnTableSearch` it makes the exhibit the visitor's, then asks for the seat. */
    method RedirectToOnTableBehavior()
      modifies this`outgoing, god`store
      ensures outgoing == old(outgoing) + [Print("REDIRECT-TO-TABLE-ON-Behavior"), TransmitLocationRegisterTableBehavior]
      ensures god.store == old(god.store).(atExhibitParentId := locationId)
    {
      outgoing := outgoing + [Print("REDIRECT-TO-TABLE-ON-Behavior")];
      god.Dispatch(ChangeAtExhibitParentId(locationId));
      outgoing := outgoing + [TransmitLocationRegisterTableBehavior];
    }
  }

  /**
   * A fresh view, shown a status series through the store, ends with the flags of the last
   * recognised status, and never with two flags up.
   */
  method StatusSeriesScenario(initial: Store, statuses: seq<Option<string>>) returns (flags: StatusFlags)
    requires initial.isLoggedIn ==> initial.user.Some?
    ensures flags == (if LastRecognised(statuses).Some? then FlagsFor(LastRecognised(statuses).value) else StatusFlags(false, false, false))
    ensures AtMostOne(flags)
  {
    var god := new God.GodService(initial, 0, 0);
    var view := new ContentTableAtComponent(god);
    var i := 0;
    while i < |statuses|
      invariant 0 <= i <= |statuses|
      invariant view.Flags() == FlagsAfter(StatusFlags(false, false, false), statuses[..i])
      invariant view.god == god && fresh(god) && fresh(view)
    {
      god.store := god.store.(locationStatus := statuses[i]);
      view.OnStoreChange(false);
      FlagsAfterSnoc(StatusFlags(false, false, false), statuses[..i], statuses[i]);
      assert statuses[..i + 1] == statuses[..i] + [statuses[i]];
      i := i + 1;
    }
    assert statuses[..i] == statuses;
    flags := view.Flags();
    FlagsReflectLastRecognised(StatusFlags(false, false, false), statuses);
    FlagsStayExclusive(StatusFlags(false, false, false), statuses);
  }
}
