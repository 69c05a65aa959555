# WhatsApp send gateway: verified model of its decision logic

`index.js` runs a small HTTP service in front of a WhatsApp connection that is
held by the Baileys library. A client posts `{number, message}` to
`/send-message` with an `x-api-key` header. The service checks the key and the
body. It then checks that the socket is open and normalises the number into a
WhatsApp identifier (JID). It asks the library whether that identifier has an
account, and it sends the text only if it does. A separate event handler
restarts the connection when it closes, unless the close was a log-out.

This project models the three pieces of deterministic logic in that file as
pure Dafny functions, and proves what they promise:

- `PhoneNumber` (phone_number.dfy) is `formatPhoneNumber`. It removes every
  character that is not an ASCII digit. The two rules are fixed in the code:
  an 11-digit local Bangladesh number starting with its trunk digit `0` gets
  `88` in front, which completes the calling code `880`; a 13-digit number
  starting `880`, and anything else, passes through. `@s.whatsapp.net` is
  appended in every case. `PhoneNumberExamples` (phone_number_examples.dfy)
  holds two worked inputs.
- `ApiGateway` (api_gateway.dfy) is `checkApiKey` followed by the
  `/send-message` handler, which answers 401 to a bad key. Each awaited library call is replaced by its
  outcome, given as an input: the lookup throws, returns no entry, or returns
  an entry with its `exists` flag, and the dispatch throws or does not. The
  result is the HTTP response (code, `status`, `message`) together with the
  ordered trace of library calls (`OnWhatsApp`, `SendMessage`). The trace is
  what states "no dispatch unless" and the order of the checks. The predicate
  `Truthy` is JavaScript truthiness of a string field, the negation of each
  test in `!number || !message` (index.js:139), and `AccountExists` is `result && result.exists`
  (index.js:159); both are definitions used in the contract of
  `HandleSendMessage`.
- `ConnectionManager` (connection_manager.dfy) is the `close`/`open` branch
  of the `connection.update` handler. The optional chain
  `lastDisconnect?.error?.output?.statusCode` is written out link by link, so
  a missing link gives a missing code, which counts as "reconnect".
- `Wrappers` (wrappers.dfy) holds the `Option` type used for absent headers,
  body fields and chain links.

## Model

| member | source | states |
|---|---|---|
| PhoneNumber.StripNonDigits | index.js:37 | the regex replace leaves only ASCII digits and never lengthens the string |
| PhoneNumber.StripAppend | index.js:37 | removing non-digits distributes over concatenation |
| PhoneNumber.StripAllDigits | index.js:37 | a string of digits is left unchanged |
| PhoneNumber.StripNoDigits | index.js:37 | a string without digits is removed entirely |
| PhoneNumber.StripCounts | index.js:37 | each digit occurs in the result exactly as often as in the input, and no other character occurs at all |
| PhoneNumber.StripKeepsOrder | index.js:37 | the digit at input position i appears at result position "number of digits before i", so no digit is reordered |
| PhoneNumber.IsInternational | index.js:38 | the first rule (13 digits starting `880`) never applies together with the second, which needs 11 digits |
| PhoneNumber.IsLocal | index.js:41 | a number the second rule accepts (11 digits starting `0`) becomes, with `88` in front, 13 digits starting `880` |
| PhoneNumber.FormatPhoneNumber | index.js:36-45 | the output is digits followed by `@s.whatsapp.net`; the digit part is `88` plus the input's digits exactly for an 11-digit number starting `0`, otherwise the input's digits |
| PhoneNumber.FormatDigits | index.js:37-44 | the digit part is the input's digits or `88` followed by them, and it is the latter if and only if the rule for local numbers applies |
| PhoneNumber.LocalBecomesInternational | index.js:38-42 | a local number comes out as 13 digits starting `880`, the form the first rule passes through |
| PhoneNumber.StripSuffix | index.js:39 | the appended domain contains no digit |
| PhoneNumber.StripUserJid | index.js:37-44 | removing non-digits from an identifier yields its digit part |
| PhoneNumber.FormatUserPartIdempotent | index.js:36-45 | normalising the digit part of an output again gives the same output |
| PhoneNumber.FormatIdempotent | index.js:36-45 | normalising an output again gives the same output |
| PhoneNumberExamples.ExampleLocal | index.js:41-42 | `01712345678` becomes `8801712345678@s.whatsapp.net` |
| PhoneNumberExamples.ExampleInternationalDigits | index.js:37 | the digits of `+880 1712-345678` are `8801712345678` |
| PhoneNumberExamples.ExampleInternational | index.js:37-40 | `+880 1712-345678` becomes `8801712345678@s.whatsapp.net` |
| ApiGateway.ConfiguredSecret | index.js:16 | the secret is never empty: the environment value when it is non-empty, otherwise the placeholder `your-secret-key` |
| ApiGateway.ApiKeyAccepted | index.js:113-114 | an accepted header equals the secret; a missing or empty header is never accepted; for a non-empty secret, acceptance is exactly equality with it |
| ApiGateway.ApiKeyAcceptedIffSecret | index.js:112-121 | with the configured secret, the middleware admits a request exactly when its `x-api-key` header equals the secret |
| ApiGateway.HandleSendMessage | index.js:112-183 | 401 iff the key is rejected; 400 iff the key is accepted and `number` or `message` is missing or empty; 503 iff those pass and the socket is not open; 202 iff the lookup finds no account; 200 iff it finds one and the dispatch succeeds; 500 iff the lookup throws or the dispatch throws; each code carries the body the handler writes: `status` `error` with the fixed texts for 401, 400, 503 and 500, `skipped` with "Number <number> does not have an active WhatsApp account." for 202, `success` with "Message sent to <number>" for 200; no library call unless every check passed; the calls are a prefix of "look up the normalised number, then send the exact text to it"; at most one dispatch, and only after the lookup found an account |
| ApiGateway.RejectedKeyIgnoresTheRest | index.js:112-121 | a rejected key gives 401 whatever the parsed body, the connection and the library would do |
| ApiGateway.SentMeansDispatched | index.js:157-167 | a 200 response means exactly one lookup and one dispatch of the exact text to the normalised number, and the reply names the number as given |
| ApiGateway.DispatchTarget | index.js:153-162 | a dispatch goes to a well-formed identifier, the same one that was looked up, carrying the request's message |
| ConnectionManager.DisconnectCode | index.js:92 | a code is present only when every link of the optional chain is present; when every link is present, the code is the innermost `statusCode` |
| ConnectionManager.ShouldReconnect | index.js:92 | the `shouldReconnect` value: true whenever a link of `lastDisconnect?.error?.output` is missing; for a complete chain, true exactly when its `statusCode` is not 401 (an absent `statusCode` included) |
| ConnectionManager.OnConnectionUpdate | index.js:79-99 | on `close` the handler restarts if and only if the code is not 401, and stays closed if and only if it is 401; `open` only reports the connection; a null event does nothing |
| ConnectionManager.MissingCodeReconnects | index.js:91-96 | a close whose status code is missing at any link of the chain reconnects |
| ConnectionManager.LoggedOutStaysClosed | index.js:91-96 | a close whose chain carries status code 401 stays closed and does not restart the bot |

## Left out

- Baileys itself: `makeWASocket`, `useMultiFileAuthState`, `fetchLatestBaileysVersion`, `makeCacheableSignalKeyStore`, `onWhatsApp`, `sendMessage` and `saveCreds`. Their outcomes are inputs to the model; what they do is not part of this model.
- `startBot` as a process: assigning the module-level `sock`, registering the two event handlers, re-entering itself on a recoverable close, and persisting credentials on `creds.update`. Only the decision to re-enter is modelled (`Reconnect`).
- The global `sock` and the interleaving of reconnects with in-flight sends across `await` points. The socket's liveness is the boolean `Env.connected`, read once at the check, as the handler does.
- Express, `express.json()`, `GET /`, `server.listen` and the port setting are HTTP plumbing.
- `express.json()` runs before `checkApiKey` for every route, so a malformed JSON body (400) or an oversized one (413) is rejected by the parser and never reaches the key check. The model starts from a parsed body.
- Logging through pino, including the "QR code generated" and "connected" log lines. The `qr` field of the event is not modelled because it only produces a log line.
- Non-string `number` or `message` values in the JSON body. `formatPhoneNumber` is called outside the `try`, so a non-string `number` would throw into Express. The model takes strings and treats JavaScript truthiness as "present and non-empty".
- A `statusCode` that is not a number (e.g. the string `"401"`) is not modelled; the code is an `int`.
- JavaScript string lengths count UTF-16 code units and Dafny counts characters. After stripping, only ASCII digits remain, so both counts agree wherever the length is compared.
