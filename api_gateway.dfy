/**
 * The HTTP gateway of index.js: the `checkApiKey` middleware in front of the
 * `POST /send-message` handler. The handler's awaited library calls are
 * replaced by their outcomes, given as inputs (`Env`); the model returns the
 * HTTP response together with the ordered trace of the library calls the
 * handler makes, so that "no dispatch unless ..." can be stated outright.
 */
module ApiGateway {
  import opened Wrappers
  import opened PhoneNumber

  /** The placeholder secret used when `API_SECRET_KEY` is unset or empty. */
  const DefaultSecret: string := "your-secret-key"

  /** `process.env.API_SECRET_KEY || "your-secret-key"`. */
  function ConfiguredSecret(env: Option<string>): (secret: string)
    ensures secret != ""
    ensures env.Some? && env.value != "" ==> secret == env.value
    ensures env == None || env == Some("") ==> secret == DefaultSecret
  {
    if env.Some? && env.value != "" then env.value else DefaultSecret
  }

  /** JavaScript truthiness of an optional string: present and non-empty. */
  predicate Truthy(s: Option<string>)
  {
    s.Some? && s.value != ""
  }

  /** The `if` of `checkApiKey`: `apiKey && apiKey === API_SECRET_KEY`. */
  predicate ApiKeyAccepted(header: Option<string>, secret: string)
    ensures ApiKeyAccepted(header, secret) ==> header == Some(secret)
    ensures secret != "" ==> (ApiKeyAccepted(header, secret) <==> header == Some(secret))
    ensures header == None || header == Some("") ==> !ApiKeyAccepted(header, secret)
  {
    Truthy(header) && header.value == secret
  }

  /** With the configured secret, a key is accepted exactly when it is the secret. */
  lemma ApiKeyAcceptedIffSecret(header: Option<string>, env: Option<string>)
    ensures ApiKeyAccepted(header, ConfiguredSecret(env)) <==> header == Some(ConfiguredSecret(env))
  {
  }

  /** The fields of the request that the handler reads. */
  datatype SendRequest = SendRequest(
    apiKey: Option<string>,   // the `x-api-key` header
    number: Option<string>,   // `req.body.number`
    message: Option<string>)  // `req.body.message`

  /** What `onWhatsApp(jid)` does: it throws, or it resolves to an array whose
      first element is absent or carries an `exists` flag (`hasAccount` here). */
  datatype Lookup = LookupThrows | NoEntry | Entry(hasAccount: bool)

  /** The state of the world the handler observes. */
  datatype Env = Env(
    secret: string,      // API_SECRET_KEY
    connected: bool,     // `sock && sock.ws.readyState === 1`
    lookup: Lookup,      // the outcome of `sock.onWhatsApp(formattedNumber)`
    sendThrows: bool)    // whether `sock.sendMessage` rejects

  /** A call into the WhatsApp library. */
  datatype Call = OnWhatsApp(jid: string) | SendMessage(jid: string, text: string)

  /** An HTTP response: status code and the JSON body's `status` and `message`. */
  datatype Response = Response(code: int, status: string, message: string)

  /** The response together with the library calls made, in the order made. */
  datatype Handled = Handled(response: Response, calls: seq<Call>)

  const Unauthorized := Response(401, "error", "Unauthorized: Invalid API Key")
  const MissingFields := Response(400, "error", "Number and message are required.")
  const NotConnected := Response(503, "error", "Bot is not connected. Please wait or check logs.")
  const SendFailed := Response(500, "error", "Failed to send message.")

  function Sent(number: string): (r: Response) {
    Response(200, "success", "Message sent to " + number)
  }

  function Skipped(number: string): (r: Response) {
    Response(202, "skipped", "Number " + number + " does not have an active WhatsApp account.")
  }

  /** The calls a send makes when it runs to the end: the lookup, then the dispatch. */
  function FullTrace(number: string, message: string): (trace: seq<Call>) {
    var jid := FormatPhoneNumber(number);
    [OnWhatsApp(jid), SendMessage(jid, message)]
  }

  /** The request passes every check before the library is consulted. */
  predicate Admitted(req: SendRequest, env: Env) {
    ApiKeyAccepted(req.apiKey, env.secret) && Truthy(req.number) && Truthy(req.message) && env.connected
  }

  /** The lookup reports an account (`result && result.exists`). */
  predicate AccountExists(lookup: Lookup)
  {
    lookup.Entry? && lookup.hasAccount
  }

  /** A call of the trace is a dispatch. */
  predicate DispatchAt(h: Handled, i: nat) {
    i < |h.calls| && h.calls[i].SendMessage?
  }

  /** `checkApiKey` followed by the `POST /send-message` handler. */
  function HandleSendMessage(req: SendRequest, env: Env): (h: Handled)
    // Exactly one of the six responses, each for exactly its condition, in order.
    ensures h.response.code == 401 <==> !ApiKeyAccepted(req.apiKey, env.secret)
    ensures h.response.code == 400 <==>
      ApiKeyAccepted(req.apiKey, env.secret) && !(Truthy(req.number) && Truthy(req.message))
    ensures h.response.code == 503 <==>
      ApiKeyAccepted(req.apiKey, env.secret) && Truthy(req.number) && Truthy(req.message) && !env.connected
    ensures h.response.code == 202 <==> Admitted(req, env) && !env.lookup.LookupThrows? && !AccountExists(env.lookup)
    ensures h.response.code == 200 <==> Admitted(req, env) && AccountExists(env.lookup) && !env.sendThrows
    ensures h.response.code == 500 <==>
      Admitted(req, env) && (env.lookup.LookupThrows? || (AccountExists(env.lookup) && env.sendThrows))
    // Each code carries its own JSON body.
    ensures h.response.code == 401 ==> h.response == Unauthorized
    ensures h.response.code == 400 ==> h.response == MissingFields
    ensures h.response.code == 503 ==> h.response == NotConnected
    ensures h.response.code == 500 ==> h.response == SendFailed
    ensures h.response.code == 202 ==> req.number.Some? && h.response == Skipped(req.number.value)
    ensures h.response.code == 200 ==> req.number.Some? && h.response == Sent(req.number.value)
    // The library is not touched unless every check passed.
    ensures h.calls == [] <==> !Admitted(req, env)
    // Whatever is called is a prefix of: lookup of the normalised number, then dispatch of the exact text.
    ensures Admitted(req, env) ==> |h.calls| >= 1 && h.calls <= FullTrace(req.number.value, req.message.value)
    // Dispatch happens at most once, only after the lookup found an account.
    ensures forall i: nat :: DispatchAt(h, i) ==> i == 1 && Admitted(req, env) && AccountExists(env.lookup)
    ensures Admitted(req, env) && AccountExists(env.lookup) ==> DispatchAt(h, 1)
  {
    if !ApiKeyAccepted(req.apiKey, env.secret) then
      Handled(Unauthorized, [])
    else if !Truthy(req.number) || !Truthy(req.message) then
      Handled(MissingFields, [])
    else if !env.connected then
      Handled(NotConnected, [])
    else
      var number, message := req.number.value, req.message.value;
      var jid := FormatPhoneNumber(number);
      match env.lookup
      case LookupThrows =>
        Handled(SendFailed, [OnWhatsApp(jid)])
      case NoEntry =>
        Handled(Skipped(number), [OnWhatsApp(jid)])
      case Entry(found) =>
        if !found then
          Handled(Skipped(number), [OnWhatsApp(jid)])
        else if env.sendThrows then
          Handled(SendFailed, [OnWhatsApp(jid), SendMessage(jid, message)])
        else
          Handled(Sent(number), [OnWhatsApp(jid), SendMessage(jid, message)])
  }

  /** A rejected key decides the response before anything else is looked at:
      the body, the connection and the library make no difference. */
  lemma RejectedKeyIgnoresTheRest(req1: SendRequest, env1: Env, req2: SendRequest, env2: Env)
    requires req1.apiKey == req2.apiKey && env1.secret == env2.secret
    requires !ApiKeyAccepted(req1.apiKey, env1.secret)
    ensures HandleSendMessage(req1, env1) == HandleSendMessage(req2, env2)
    ensures HandleSendMessage(req1, env1).response.code == 401
  {
  }

  /** A successful send went out once, to the normalised number, with the exact text. */
  lemma SentMeansDispatched(req: SendRequest, env: Env)
    requires HandleSendMessage(req, env).response.code == 200
    ensures req.number.Some? && req.message.Some?
    ensures HandleSendMessage(req, env).calls == FullTrace(req.number.value, req.message.value)
    ensures HandleSendMessage(req, env).response.message == "Message sent to " + req.number.value
  {
  }

  /** The identifier sent to is always a well-formed one, and the one looked up. */
  lemma DispatchTarget(req: SendRequest, env: Env, i: nat)
    requires DispatchAt(HandleSendMessage(req, env), i)
    ensures var calls := HandleSendMessage(req, env).calls;
      && calls[0] == OnWhatsApp(calls[i].jid)
      && IsUserJid(calls[i].jid)
      && calls[i].text == req.message.value
  {
  }
}
