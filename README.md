# Payment collection server: a verified model of its decision logic

`server.js` is a small Node server for collecting a payment through the Tink
open-banking API:

- `POST /start` takes a payment-request form (the payer's verification email, the
  payer's payment email, an amount and a currency). It stores a session under a fresh
  id and emails the payer an account-check link.
- `/callback` receives the redirects of the Tink flow:
  - With a report id, it verifies the payer's account. This goes through the
    authorization-code grant (section 4.1 of RFC 6749) when the redirect carries a code,
    and the client-credentials grant (section 4.4 of RFC 6749) otherwise.
  - Verifying reads the first account of the verification report and creates a payment
    request into that account for the session's amount. It then emails the payment link.
  - With a payment id, it shows whether the payment completed.

This project models the decision logic under the HTTP, email and HTML plumbing:

- **`start.dfy`**: how the form is validated.
- **`sessions.dfy`**: the session store, a class with a map field. `/start` writes it
  once; the callbacks only read it, except that a callback with invalid parameters ends
  the process (see below), which loses the whole store.
- **`callback.dfy`**: how a callback is dispatched.
- **`verification.dfy`**: the two account-verification pipelines.
- **`payment_status.dfy`**: how a payment status is classified.
- **`tink_api.dfy`**: the rule each API client function uses to accept a reply.

Supporting modules:

- **`js.dfy`**: the JavaScript semantics the decisions rely on: truthiness, `trim`,
  `toUpperCase`, `String(n)`.
- **`outcomes.dfy`**: the structured result pages, emails and links.
- **`steps.dfy`**: the external calls and the rule that a chain of calls stops at its
  first failure.
- **`results.dfy`**: `Option` and `Result`.

Every external exchange (a token request, the report, the payment creation, the
payment detail) is a raw `Reply` value handed in from outside, held in an `Upstream`
record. A callback is a pure function from the session map, the query and the
`Upstream` record to `Handled(response, calls)`. Here `calls` is the sequence of
external calls the handler makes, with their arguments and in order. The lemmas say
which calls run, with what arguments, and what the response is for every combination
of replies.

Where the code and its own description differ, the model follows the code:

- **Infinite amounts.** The amount check rejects only NaN and values at most zero, so
  an infinite amount is accepted (server.js:224).
- **Refused amounts end the process.** When the amount check fails, the log call at
  server.js:225 names `amountRaw`, a variable declared nowhere (only `amtRaw` is, at
  line 198). It throws `ReferenceError: amountRaw is not defined` before the 400 at
  line 226 is written. Nothing catches it, so the 400 "Cantidad debe ser un número
  mayor a 0" is never sent. The model answers such a form with `Crashed`, leaving the
  store unchanged and sending nothing.
- **Redirect URI.** The account-check link carries the redirect URI `undefined`.
  `CALLBACK_REDIRECT_URI` is read at startup from a configuration field that only the
  handler of `/` writes later (server.js:56, 161).
- **Invalid parameters end the process.** The invalid-parameters branch has no
  `return`: the 400 page is sent, and then `res.writeHead(404)` runs on the finished
  response (server.js:366-371). It throws `ERR_HTTP_HEADERS_SENT` inside the request
  listener, where nothing catches it, so the process ends and every stored session is
  lost. The model keeps the 400 page as the response.
- **Bare "Error".** On the authorization-code path, a refused client token yields the
  bare text `Error` with status 500, not a result page (server.js:482-488).
- **Missing IBAN.** A first account without an `iban` makes `substring` throw
  (server.js:451, 650). Each API client function calls its caller's handler inside its
  own `try` (server.js:977-985), so the error is caught there. It then reaches the same
  handler again as a report error. The response is the 500 report-error page carrying
  the message `Cannot read properties of undefined (reading 'substring')`.
- **Refused request paths.** The report id and the payment id come decoded from the
  query and are put into the request path (server.js:968, 1016). Node's HTTP client
  throws when a path holds a character outside U+0021..U+00FF, such as the space that
  `a+b` decodes to. The request starts inside the `try` of the token reply
  (server.js:873-876, 928-931), so the error `Request path contains unescaped
  characters` reaches the token step's handler. The response is that step's 500 error
  page, after the token call alone.

## Model

| member | source | states |
|---|---|---|
| TinkApi.Accept | server.js:872-892 | A reply is accepted exactly when it was received with an accepted status and a parseable body, and then yields that body. A refused status yields `"HTTP " + status`. An unparseable body yields the parser's message, and a transport error yields its own message. |
| TinkApi.HttpErrorNamesStatus | server.js:882-884 | The error text of a refused status reads back as exactly that status. |
| TinkApi.PrefixedPathAllowed | server.js:968 | A report or payment-detail path (server.js:968, 1016) is refused exactly when the id in it holds a character outside U+0021..U+00FF. |
| TinkApi.OnlyCreationAccepts201 | server.js:1089-1101 | A 201 reply is accepted by payment creation and by no other request. The others turn it into the error `HTTP 201`. |
| Js.TrimEmpty | server.js:196-199 | `trim` leaves the empty string exactly when the input is white space only. |
| Js.TrimIsIdempotent | server.js:196-199 | Trimming twice is the same as trimming once. |
| Js.UpperCaseComparison | server.js:806-808 | Comparing `a.toUpperCase()` with a string that has no lower-case letter is the same as case-insensitive equality, in both directions. |
| Js.ParseDecimalOfDecimal | server.js:882-884 | The decimal text of a status code reads back as that code. |
| Start.Validate | server.js:196-236 | Each rejection happens exactly when its check is the first to fail: a blank verification email, then a blank payment email, then an amount that is NaN or at most zero, then a currency that is white space only. An accepted form gives a session with the trimmed fields, non-empty emails, the amount `parseFloat` reads from the trimmed amount field (positive or infinite), and the trimmed currency, or `EUR` when the currency is absent or empty. |
| Start.HandleStart | server.js:209-287 | A rejected form leaves the store unchanged and sends nothing. A blank email or currency is answered with a 400 carrying that check's text. A refused amount ends in the `amountRaw` ReferenceError, with no status written. A valid form is stored under the fresh id, with only that entry changed, before the verification email is sent. The reply is the confirmation, or the 500 mail-error fragment when sending fails, and the session stays stored either way. |
| Start.SampleSubmission | server.js:196-246 | A typical form is accepted with exactly the submitted values. |
| Sessions.SessionStore.Create | server.js:245-246 | The entry under `id` becomes the new session and every other entry is unchanged. |
| Outcomes.AccountCheckUrlNamesSession | server.js:250 | The account-check link names the session id and the default market `ES`. |
| Outcomes.UrlNamesIds | server.js:250 | The URL of an email's link names its ids: the session of an account-check link, or the market and payment id of a payment link. |
| Outcomes.PaymentUrlNamesPayment | server.js:508 | The payment link names the account's market and ends with the payment-request id. |
| Verification.HolderOf | server.js:437-457 | The holder is `holderName` if it is given and non-empty, else `name` under the same condition, else `Usuario`. It is never empty. |
| Verification.MarketOf | server.js:451 | The market is the first two characters of the IBAN, or the whole IBAN when it is shorter. |
| Verification.Extract | server.js:437-457 | Only the first provider's first account is read. There is no account exactly when that path is missing, and a missing IBAN is told apart. Otherwise the IBAN, holder and market come from that account. |
| Verification.VerifyWithCode | server.js:374-419 | The authorization-code path makes no call exactly when the session is unknown, and then reports the expired session. Otherwise its first call exchanges the code. |
| Verification.VerifyWithClientCredentials | server.js:578-618 | The client-credentials path makes no call exactly when the session is unknown, and then reports the expired session. Otherwise its first call asks for a client token. |
| Verification.PayRuns | server.js:490-571 | Payment creation is the first call, for the given account, holder, market, amount and currency. The email is a second call, made exactly when creation is accepted. Success happens exactly when creation is accepted, and then the page is the success page and the email carries the payment link for the new payment id. A refused creation shows the payment error. |
| Verification.SettleCalls | server.js:437-504 | After an accepted report, no call is made unless the first account has a non-empty IBAN. The calls then come in this order: a fresh client token (only when no token is reused), the payment request for that account with the payment token, then the email with the payment link. Each call runs only after the one before it succeeded. |
| Verification.SettleOutcome | server.js:437-571 | A missing account or an empty IBAN shows "IBAN no encontrado". A missing IBAN shows the report-error page with the message `substring` throws. Success happens exactly when there is an IBAN, a payment token and an accepted creation, and then the success page and email describe the first account. Any other failure is the payment error or the bare `Error`. The errors that re-enter a handler pass through the `try` blocks at server.js:977-985. |
| Verification.FetchAndSettleCalls | server.js:419-433 | The report request comes first, with the given token and report id. A refused report stops the chain with the report error. |
| Verification.CodePathCalls | server.js:374-576 | On the authorization-code path, no call follows a failed one. The calls are a prefix of, in this order: the code exchange, the report read with the user token (only for an allowed path), a fresh client token, the payment request for the report's first account with that token, and the payment email. |
| Verification.CodePathOutcome | server.js:374-576 | Success happens exactly when every step succeeds, and then the success page and payment email describe the first account. A missing IBAN gives the report-error page with the message `substring` throws, after two calls. The bare `Error` happens exactly when the client token is refused after an IBAN was found. Every other failure page has status 500. The errors that re-enter a handler pass through the `try` blocks at server.js:928-931, 977-985. |
| Verification.CodePathFailures | server.js:401-504 | Each failing step has its own page. The user token fails after 1 call, and so does a refused report path, which shows the user-token page with the path error. The report fails after 2 calls, the missing account after 2 and the payment creation after 4. The errors that re-enter a handler pass through the `try` blocks at server.js:928-931. |
| Verification.ClientPathCalls | server.js:578-766 | On the client-credentials path, no call follows a failed one. The calls are a prefix of, in this order: the client token, the report read with it (only for an allowed path), the payment request for the report's first account with the same token, and the payment email. |
| Verification.ClientPathOutcome | server.js:578-766 | Success happens exactly when every step succeeds, and then the success page and payment email describe the first account. A missing IBAN gives the report-error page with the message `substring` throws, after two calls. There is never a bare text reply, and every other failure page has status 500. The errors that re-enter a handler pass through the `try` blocks at server.js:873-876, 977-985. |
| Verification.ClientPathFailures | server.js:600-695 | Each failing step has its own page. The token fails after 1 call, and so does a refused report path, which shows the token page with the path error. The report fails after 2 calls, the missing account after 2 and the payment creation after 3. The errors that re-enter a handler pass through the `try` blocks at server.js:873-876. |
| PaymentStatus.DetailOf | server.js:789-798 | The detail is present exactly when the detail reply was accepted, and it is that reply's body. |
| PaymentStatus.ReportedStatus | server.js:804 | The status is the detail's non-empty status, or else `UNKNOWN`. It is never empty. |
| PaymentStatus.Classify | server.js:806-808 | A status counts as completed exactly when it equals `COMPLETED` ignoring case. No status counts as failed. |
| PaymentStatus.ClassifyIgnoresCase | server.js:806-808 | Statuses that differ only in case are classified alike. |
| PaymentStatus.HandlePayment | server.js:768-841 | A refused client token gives the 500 error page after that one call. So does a payment id that makes the detail path refused, with the path error as the detail. Otherwise the detail is requested with that token and payment id. The page is then a 200 that is never a failure, and it is a success exactly when the accepted detail's status equals `COMPLETED` ignoring case. The page's title and icon follow the classification: "Pago completado" with ✓ on success, "Pago en proceso" with ⏳ otherwise. It shows the status in the subtitle and the message, the detail's amount and currency (`N/A` for a missing currency or detail), and the payment id. The errors that re-enter a handler pass through the `try` blocks at server.js:873-876. |
| PaymentStatus.FailedDetailIsPending | server.js:789-838 | When the detail request is made and fails, the page is still a 200: pending, "Pago en proceso", with status `UNKNOWN`. |
| PaymentStatus.ClassificationDependsOnStatus | server.js:800-838 | Two runs with the same reported status give the same kind, icon, title and subtitle, whatever else their details hold. |
| Callback.Dispatch | server.js:300-367 | `error` wins. Then a report id goes to the authorization-code path when `code` is given and to the client-credentials path otherwise. Then a payment id goes to the status page. With none of them the parameters are invalid. Each route happens exactly under its condition, and empty parameters count as absent. |
| Callback.HandleCallback | server.js:300-367 | No call follows a failed one. An `error` gives its 200 page with no call, and invalid parameters give the 400 page with no call. Each other route runs its handler: the code route the authorization-code path, the client route the client-credentials path, each on the session the `session` parameter names, and the payment route the payment-status handler. A verification makes no call exactly when its session is unknown, and then reports the expired session. Only the code route exchanges a code, and that exchange comes first. |
| Callback.Serve | server.js:300-367 | Serving a callback against the store gives `HandleCallback` of the store's sessions, and the store is not modified (the process exit after invalid parameters is under "Left out"). |
| Callback.StoredSessionIsFound | server.js:245-246 | Once a session is stored, a verification callback that names it never reports the session as expired and goes on to call the API. |

## Left out

- HTTP server, body streaming and the form parser: a request is already-parsed fields, and the stray `express` listener is not modelled.
- HTTPS requests to the API: each reply is a `Reply` value given as input. Headers and request bodies are not modelled, except the payment-request payload. Of the paths, only Node's refusal of characters outside U+0021..U+00FF is modelled.
- A token that Node refuses as an `Authorization` header value is not modelled. Such a token would make the next request throw the same way a refused path does.
- `nodemailer`: a send is a `SendMail` call in the trace. Its result matters only for `/start`, where it is the `Delivery` input. The callbacks never wait for it.
- HTML templates, `buildCallback` and logging: a page is an `Outcome` value with its icon, title, subtitle, kind, rows, message and detail. The template markup and CSS classes are not modelled.
- PaymentStatus.Classify: its `Pending` kind is the model's own name for "not completed". The page itself gives such a payment the same `status-error` box as a failure (server.js:806-807, 819).
- `formatNumber` (`Intl.NumberFormat`): amounts on pages are kept as numbers, not as formatted text.
- `parseFloat`: an input function from text to a JavaScript number. Only the check on its result is modelled.
- `Date.now()` session ids: the id is a parameter of `Start.HandleStart`.
- Start.HandleStart: after the `amountRaw` ReferenceError, the process exits and every stored session is lost with it. The model keeps the store as it was and ends the request with `Crashed`; the process and the other requests in flight are not modelled.
- The Host header captured by `/` and the configuration it changes: not modelled. The account-check link uses the redirect URI `undefined` that the constant holds.
- Configuration loading and environment overrides: `DEFAULT_CURRENCY`, `DEFAULT_MARKET` and `PAYMENT_SCHEME` are the constants `EUR`, `ES` and `SEPA_CREDIT_TRANSFER`.
- Concurrency between requests: each request is handled as one sequential run.
- Js.ToUpperCase: maps only the ASCII letters. Non-ASCII case mappings are not modelled.
- Sessions.SessionKey: a `session` parameter that names an inherited object property (such as `constructor`) is not modelled.
- Parameters given more than once are not modelled. This covers callback query parameters, which `url.parse` turns into arrays. It also covers `/start` form fields, which `querystring.parse` turns into arrays, and on which `.trim()` then throws (server.js:196-199).
- JSON values of the wrong type are not modelled: a `null` report, provider or account, or a non-string `iban`. Fields are either present with the expected type or absent.
- The `ib`/`nm` fields of the payment detail are read by nothing the page shows, and are not modelled.
- Callback.Serve: after the invalid-parameters 400 page, the `writeHead(404)` at server.js:370 throws `ERR_HTTP_HEADERS_SENT`, the process exits and every stored session is lost with it. The model ends the request with the 400 page and keeps the store as it was; the process and the other requests in flight are not modelled.

