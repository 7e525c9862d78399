/**
 * The location-transition engine of the native communication service
 * (`transmitLocationRegister`): a beacon minor is resolved against the lookup table and,
 * depending on the current location and the exhibit context in the store, turns into a
 * `print` notification, a seat status check, or a location registration at GoD.
 *
 * The decision tree is a pure function returning the calls it makes, in order; the seat
 * status check carries a continuation (the callback passed to `checkLocationStatus`) whose
 * calls are given by `SeatContinuation`.
 */
module LocationTransition {
  import opened Wrappers
  import opened Domain

  /** One call of the engine or of its seat continuation. */
  datatype Call =
    | Print(text: string)                      // sendToNative(text, 'print')
    | CheckLocationStatus(location: int)       // godService.checkLocationStatus(location, seat continuation)
    | RegisterLocation(location: int)          // godService.registerLocation(location)
    | PublishSocketStatus(status: string)      // dispatch changeLocationSocketStatus(status)

  const NotValid := "this is not a valid location"
  const NotValidSeat := "this is not a valid location - type 2"
  const NewValid := "new valid location found - check and registerLocation at GoD"
  const Free := "FREE"

  predicate IsGodCall(c: Call)
  {
    c.CheckLocationStatus? || c.RegisterLocation?
  }

  /** Whether a list of calls reaches the GoD server at all. */
  predicate IssuesGodCall(calls: seq<Call>)
  {
    exists i :: 0 <= i < |calls| && IsGodCall(calls[i])
  }

  /** `locationService.sameAsCurrentLocation(id)`: there is a current location and it has this id. */
  predicate SameAsCurrent(current: Option<Location>, id: int)
  {
    current.Some? && current.value.id == id
  }

  /** A seat (type 2) is current: the visitor is seated at an exhibit's table. */
  predicate SeatedAtTable(current: Option<Location>)
  {
    current.Some? && current.value.locationTypeId == SeatType
  }

  /**
   * The admission guard: a location that is not a seat is admitted only while the visitor is
   * not at an exhibit; a seat only when it belongs to the exhibit the visitor is at.
   */
  predicate Admitted(candidate: Location, atExhibitParentId: int, onExhibit: bool)
  {
    || (candidate.locationTypeId != SeatType && !onExhibit)
    || (candidate.locationTypeId == SeatType && atExhibitParentId == candidate.parentId)
  }

  /** The calls `transmitLocationRegister` makes for one beacon ping. */
  function TransmitLocationRegister(minor: int, table: LookupTable, current: Option<Location>, atExhibitParentId: int, onExhibit: bool): (calls: seq<Call>)
    ensures FindLocation(table, minor).None? ==> calls == [Print(NotValid)]
    ensures FindLocation(table, minor).Some? && SameAsCurrent(current, FindLocation(table, minor).value.id) ==> calls == []
    ensures forall i :: 0 <= i < |calls| && calls[i].CheckLocationStatus? ==>
              FindLocation(table, minor).Some? && calls[i].location == FindLocation(table, minor).value.id
              && FindLocation(table, minor).value.locationTypeId == SeatType
    ensures forall i :: 0 <= i < |calls| && calls[i].RegisterLocation? ==>
              FindLocation(table, minor).Some? && calls[i].location == FindLocation(table, minor).value.id
              && FindLocation(table, minor).value.locationTypeId != SeatType
    ensures |calls| <= 2
  {
    match FindLocation(table, minor)
    case None => [Print(NotValid)]
    case Some(location) =>
      if SameAsCurrent(current, location.id) then []
      else if SeatedAtTable(current) then [Print(NotValidSeat)]
      else
        [Print(NewValid)]
        + if !Admitted(location, atExhibitParentId, onExhibit) then []
          else if location.locationTypeId == SeatType then [CheckLocationStatus(location.id)]
          else [RegisterLocation(location.id)]
  }

  /**
   * The callback handed to the seat status check: a free seat is registered, and the status
   * is published as the location socket status whatever it is.
   */
  function SeatContinuation(location: int, status: string): (calls: seq<Call>)
    ensures RegisterLocation(location) in calls <==> status == Free
    ensures |calls| > 0 && calls[|calls| - 1] == PublishSocketStatus(status)
    ensures forall i :: 0 <= i < |calls| ==> calls[i] == RegisterLocation(location) || calls[i] == PublishSocketStatus(status)
  {
    if status == Free then [RegisterLocation(location), PublishSocketStatus(status)]
    else [PublishSocketStatus(status)]
  }

  /**
   * A ping reaches GoD exactly when the minor resolves, the location is not already current,
   * no seat is current, and the admission guard lets it through.
   */
  lemma GodCallIffAdmitted(minor: int, table: LookupTable, current: Option<Location>, atExhibitParentId: int, onExhibit: bool)
    ensures IssuesGodCall(TransmitLocationRegister(minor, table, current, atExhibitParentId, onExhibit))
        <==> && FindLocation(table, minor).Some?
             && !SameAsCurrent(current, FindLocation(table, minor).value.id)
             && !SeatedAtTable(current)
             && Admitted(FindLocation(table, minor).value, atExhibitParentId, onExhibit)
  {
    var calls := TransmitLocationRegister(minor, table, current, atExhibitParentId, onExhibit);
    if FindLocation(table, minor).Some? {
      var location := FindLocation(table, minor).value;
      if !SameAsCurrent(current, location.id) && !SeatedAtTable(current) && Admitted(location, atExhibitParentId, onExhibit) {
        assert IsGodCall(calls[1]);
      }
    }
  }

  /** A ping for the location that is already current changes nothing: repeated pings are idempotent. */
  lemma RepeatedPingIsSilent(minor: int, table: LookupTable, atExhibitParentId: int, onExhibit: bool)
    requires minor in table && table[minor].id == minor
    ensures TransmitLocationRegister(minor, table, Some(table[minor]), atExhibitParentId, onExhibit) == []
  {
  }

  /** While a seat is current, every ping for another location is reduced to a print. */
  lemma SeatLocksTransitions(minor: int, table: LookupTable, current: Option<Location>, atExhibitParentId: int, onExhibit: bool)
    requires SeatedAtTable(current)
    ensures !IssuesGodCall(TransmitLocationRegister(minor, table, current, atExhibitParentId, onExhibit))
  {
    GodCallIffAdmitted(minor, table, current, atExhibitParentId, onExhibit);
  }

  /** While at an exhibit, a location that is not a seat is never registered. */
  lemma OnExhibitBlocksOtherExhibits(minor: int, table: LookupTable, current: Option<Location>, atExhibitParentId: int)
    requires minor in table && table[minor].locationTypeId != SeatType
    ensures !IssuesGodCall(TransmitLocationRegister(minor, table, current, atExhibitParentId, true))
  {
    GodCallIffAdmitted(minor, table, current, atExhibitParentId, true);
  }

  /** A seat is only ever checked when it belongs to the exhibit the visitor is at. */
  lemma SeatCheckedOnlyAtItsExhibit(minor: int, table: LookupTable, current: Option<Location>, atExhibitParentId: int, onExhibit: bool)
    requires minor in table && table[minor].locationTypeId == SeatType
    requires IssuesGodCall(TransmitLocationRegister(minor, table, current, atExhibitParentId, onExhibit))
    ensures table[minor].parentId == atExhibitParentId
    ensures TransmitLocationRegister(minor, table, current, atExhibitParentId, onExhibit) == [Print(NewValid), CheckLocationStatus(table[minor].id)]
  {
    GodCallIffAdmitted(minor, table, current, atExhibitParentId, onExhibit);
  }

  /** A free seat is registered after its status check, an occupied one is not; both publish the status. */
  lemma SeatRegisteredOnlyWhenFree(location: int, status: string)
    ensures SeatContinuation(location, status) ==
              (if status == Free then [RegisterLocation(location), PublishSocketStatus(status)] else [PublishSocketStatus(status)])
    ensures status != Free ==> !IssuesGodCall(SeatContinuation(location, status))
  {
    if status != Free {
      var calls := SeatContinuation(location, status);
      assert calls == [PublishSocketStatus(status)];
    }
  }

  /** An exhibit reached from another exhibit, away from any exhibit context, is registered directly. */
  lemma ScenarioDirectRegistration()
    ensures TransmitLocationRegister(7, map[7 := Location(7, "", 1, 0, "")], Some(Location(3, "", 1, 0, "")), 0, false)
            == [Print(NewValid), RegisterLocation(7)]
  {
  }

  /** A seat of the exhibit the visitor is at is checked first; only a free one is then registered. */
  lemma ScenarioSeatCheck()
    ensures TransmitLocationRegister(12, map[12 := Location(12, "", 2, 7, "")], Some(Location(7, "", 1, 0, "")), 7, true)
            == [Print(NewValid), CheckLocationStatus(12)]
    ensures SeatContinuation(12, "FREE") == [RegisterLocation(12), PublishSocketStatus("FREE")]
    ensures SeatContinuation(12, "OCCUPIED") == [PublishSocketStatus("OCCUPIED")]
  {
  }
}
