/**
 * The reconnect decision of the `connection.update` handler in index.js.
 * The event payload is modelled down to the one value the decision reads,
 * `lastDisconnect?.error?.output?.statusCode`; every link of that optional
 * chain may be missing.
 */
module ConnectionManager {
  import opened Wrappers

  /** The status code with which the server logs the device out (HTTP 401). */
  const LoggedOut: int := 401

  /** The connection states the library reports. */
  datatype Connection = Connecting | Open | Close

  /** `error.output`: the HTTP-style description of the failure. */
  datatype ErrorOutput = ErrorOutput(statusCode: Option<int>)

  /** `lastDisconnect.error`. */
  datatype DisconnectError = DisconnectError(output: Option<ErrorOutput>)

  /** `update.lastDisconnect`. */
  datatype LastDisconnect = LastDisconnect(error: Option<DisconnectError>)

  /** The fields of a `connection.update` event that the decision reads. */
  datatype Update = Update(connection: Option<Connection>, lastDisconnect: Option<LastDisconnect>)

  /** What the handler does with an event. */
  datatype Reaction =
    | Reconnect   // closed, and `startBot()` is called again
    | StayClosed  // closed by a log-out: a new QR pairing is needed
    | Connected   // opened: only a log line
    | NoAction

  /** `lastDisconnect?.error?.output?.statusCode`: absent as soon as one link is. */
  function DisconnectCode(last: Option<LastDisconnect>): (code: Option<int>)
    ensures code.Some? ==>
      && last.Some?
      && last.value.error.Some?
      && last.value.error.value.output.Some?
      && last.value.error.value.output.value.statusCode == code
    ensures
      && last.Some?
      && last.value.error.Some?
      && last.value.error.value.output.Some?
      ==> code == last.value.error.value.output.value.statusCode
  {
    match last
    case None => None
    case Some(disconnect) =>
      match disconnect.error
      case None => None
      case Some(error) =>
        match error.output
        case None => None
        case Some(output) => output.statusCode
  }

  /** `shouldReconnect` of the handler:
      `lastDisconnect?.error?.output?.statusCode !== 401`. */
  predicate ShouldReconnect(last: Option<LastDisconnect>)
    // a missing link makes the chain `undefined`, which is not 401
    ensures || last.None?
            || last.value.error.None?
            || last.value.error.value.output.None?
            ==> ShouldReconnect(last)
    // a complete chain reconnects exactly when its status code is not 401
    ensures && last.Some?
            && last.value.error.Some?
            && last.value.error.value.output.Some?
            ==> (ShouldReconnect(last) <==> last.value.error.value.output.value.statusCode != Some(401))
  {
    DisconnectCode(last) != Some(LoggedOut)
  }

  /** The body of the `connection.update` handler (`update || {}` for a null event). */
  function OnConnectionUpdate(update: Option<Update>): (r: Reaction)
    ensures r == Reconnect <==>
      update.Some? && update.value.connection == Some(Close) && DisconnectCode(update.value.lastDisconnect) != Some(LoggedOut)
    ensures r == StayClosed <==>
      update.Some? && update.value.connection == Some(Close) && DisconnectCode(update.value.lastDisconnect) == Some(LoggedOut)
    ensures r == Connected <==> update.Some? && update.value.connection == Some(Open)
  {
    match update
    case None => NoAction
    case Some(u) =>
      if u.connection == Some(Close) then
        if ShouldReconnect(u.lastDisconnect) then Reconnect else StayClosed
      else if u.connection == Some(Open) then
        Connected
      else
        NoAction
  }

  /** A close without a status code anywhere along the chain reconnects. */
  lemma MissingCodeReconnects(last: Option<LastDisconnect>)
    requires || last.None?
             || last.value.error.None?
             || last.value.error.value.output.None?
             || last.value.error.value.output.value.statusCode.None?
    ensures OnConnectionUpdate(Some(Update(Some(Close), last))) == Reconnect
  {
  }

  /** A close whose chain carries the log-out code does not restart the bot. */
  lemma LoggedOutStaysClosed(output: ErrorOutput)
    requires output.statusCode == Some(LoggedOut)
    ensures
      var last := LastDisconnect(Some(DisconnectError(Some(output))));
      OnConnectionUpdate(Some(Update(Some(Close), Some(last)))) == StayClosed
  {
  }
}
