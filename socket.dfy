/**
 * The socket as the GoD services use it: `emit` a named event with a payload, `on` installs
 * one more handler for a named event, `removeAllListeners` drops every handler of a name.
 * The transport itself is not modelled; what is kept is the sequence of these calls and the
 * listener table (event name to number of installed handlers) that the sequence leaves.
 */
module Socket {
  import opened Wrappers

  datatype DeviceInfo = DeviceInfo(deviceAddress: string, deviceOS: string, deviceVersion: string, deviceModel: string)

  /** The request payloads the modelled code builds itself; `Forwarded` is caller data passed through unchanged. */
  datatype Payload =
    | Forwarded
    | Plain(text: string)
    | LocationRequest(location: int, user: int, dismissed: bool)
    | LegacyLocationRequest(location: int, user: int)
    | TimelineRequest(location: int, user: int)
    | LikeRequest(location: int, like: bool, user: int)
    | StatusRequest(location: int)
    | DisconnectRequest(parentLocation: int, location: int)
    | LanguageRequest(language: int, user: int)
    | DeviceRegistration(identifier: Option<string>, device: DeviceInfo)

  datatype SocketOp =
    | Emitted(event: string, payload: Payload)
    | Installed(event: string)
    | RemovedAll(event: string)

  /** Number of installed handlers per event name. */
  type ListenerTable = map<string, nat>

  function Count(t: ListenerTable, event: string): nat
  {
    if event in t then t[event] else 0
  }

  /** The effect of one socket call on the listener table. */
  function Apply(t: ListenerTable, op: SocketOp): (r: ListenerTable)
    ensures op.Installed? ==> Count(r, op.event) == Count(t, op.event) + 1
    ensures op.RemovedAll? ==> Count(r, op.event) == 0
    ensures forall e {:trigger Count(r, e)} :: (op.Emitted? || e != op.event) ==> Count(r, e) == Count(t, e)
  {
    match op
    case Emitted(_, _) => t
    case Installed(e) => t[e := Count(t, e) + 1]
    case RemovedAll(e) => t - {e}
  }

  /** The listener table a sequence of socket calls leaves behind, starting from no handlers. */
  function Replay(log: seq<SocketOp>): ListenerTable
  {
    if log == [] then map[] else Apply(Replay(log[..|log| - 1]), log[|log| - 1])
  }

  lemma ReplayStep(log: seq<SocketOp>, op: SocketOp)
    ensures Replay(log + [op]) == Apply(Replay(log), op)
  {
    assert (log + [op])[..|log|] == log;
  }

  /** A request followed by the installation of its result handler. */
  lemma ReplayCall(log: seq<SocketOp>, request: SocketOp, install: SocketOp)
    ensures Replay(log + [request, install]) == Apply(Apply(Replay(log), request), install)
  {
    var called := log + [request, install];
    assert called[..|called| - 1] == log + [request] && called[|called| - 1] == install;
    ReplayStep(log, request);
  }

  /** How many `on` calls for `event` are not followed by a `removeAllListeners` of it. */
  function InstalledSinceRemoval(log: seq<SocketOp>, event: string): nat
  {
    if log == [] then 0
    else if log[0] == Installed(event) && RemovedAll(event) !in log[1..] then 1 + InstalledSinceRemoval(log[1..], event)
    else InstalledSinceRemoval(log[1..], event)
  }

  lemma {:induction false} InstalledSinceRemovalSnoc(log: seq<SocketOp>, op: SocketOp, event: string)
    ensures InstalledSinceRemoval(log + [op], event) ==
              if op == RemovedAll(event) then 0
              else if op == Installed(event) then InstalledSinceRemoval(log, event) + 1
              else InstalledSinceRemoval(log, event)
  {
    if log != [] {
      assert (log + [op])[0] == log[0];
      assert (log + [op])[1..] == log[1..] + [op];
      InstalledSinceRemovalSnoc(log[1..], op, event);
    }
  }

  /**
   * The listener table means what the services rely on: the number of handlers installed for
   * an event is the number of its `on` calls that no later `removeAllListeners` undid.
   */
  lemma {:induction false} ListenerCountIsPendingInstalls(log: seq<SocketOp>, event: string)
    ensures Count(Replay(log), event) == InstalledSinceRemoval(log, event)
  {
    if log != [] {
      var init, op := log[..|log| - 1], log[|log| - 1];
      assert log == init + [op];
      ListenerCountIsPendingInstalls(init, event);
      InstalledSinceRemovalSnoc(init, op, event);
    }
  }
}
