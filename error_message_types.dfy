/** The numeric error codes the GoD server puts into a response's `message.code`. */
module ErrorMessageTypes {
  import opened Wrappers
  import opened Domain

  datatype ErrorType =
    | LostConnectionToGod
    | LostConnectionToExhibit
    | LocationNotFound
    | LocationNotCreated
    | LocationNotUpdated
    | OdNotFound
    | OdNotCreated
    | OdNotUpdated
    | InvalidToken
    | LoginFailed

  function Code(t: ErrorType): int
  {
    match t
    case LostConnectionToGod => 100
    case LostConnectionToExhibit => 101
    case LocationNotFound => 300
    case LocationNotCreated => 301
    case LocationNotUpdated => 302
    case OdNotFound => 400
    case OdNotCreated => 401
    case OdNotUpdated => 402
    case InvalidToken => 500
    case LoginFailed => 501
  }

  /** The catalogue entry a received code stands for, if any. */
  function FromCode(code: int): (r: Option<ErrorType>)
    ensures r.Some? ==> Code(r.value) == code
    ensures r.None? ==> forall t :: Code(t) != code
  {
    if code == 100 then Some(LostConnectionToGod)
    else if code == 101 then Some(LostConnectionToExhibit)
    else if code == 300 then Some(LocationNotFound)
    else if code == 301 then Some(LocationNotCreated)
    else if code == 302 then Some(LocationNotUpdated)
    else if code == 400 then Some(OdNotFound)
    else if code == 401 then Some(OdNotCreated)
    else if code == 402 then Some(OdNotUpdated)
    else if code == 500 then Some(InvalidToken)
    else if code == 501 then Some(LoginFailed)
    else None
  }

  predicate IsConnectionError(t: ErrorType)
  {
    t == LostConnectionToGod || t == LostConnectionToExhibit
  }

  /** The ten codes are distinct, so a code names one catalogue entry. */
  lemma CodesAreDistinct(s: ErrorType, t: ErrorType)
    ensures Code(s) == Code(t) ==> s == t
    ensures FromCode(Code(t)) == Some(t)
  {
  }

  /**
   * Only the two connection codes fall below the failure boundary: a response carrying one of
   * them would be taken as a success by the `code > 299` test, every other entry as a failure.
   */
  lemma FailureBoundarySplitsCatalogue(t: ErrorType)
    ensures IsFailure(Code(t)) <==> !IsConnectionError(t)
    ensures IsConnectionError(t) ==> 100 <= Code(t) <= 101
  {
  }

  /** The location codes are the 300s, the user-account (OD) codes the 400s, the session codes the 500s. */
  lemma CatalogueRanges(t: ErrorType)
    ensures 300 <= Code(t) < 400 <==> t in {LocationNotFound, LocationNotCreated, LocationNotUpdated}
    ensures 400 <= Code(t) < 500 <==> t in {OdNotFound, OdNotCreated, OdNotUpdated}
    ensures 500 <= Code(t) < 600 <==> t in {InvalidToken, LoginFailed}
  {
  }
}
