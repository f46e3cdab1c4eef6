# wppconnect-server WA-JS core, modelled in Dafny

This project models the part of wppconnect-server that runs WhatsApp Web sessions through the WA-JS library injected into a headless browser page:

- **The session registry** (`clientsArray`): a map from session name to a record holding a status, a configuration, a page and a browser. It is read with `getClient`.
- **Session creation** (`createSessionUtil`): the guard that makes a second creation a no-op, and the browser steps, any of which may throw. The record ends CONNECTED or CLOSED.
- **The bridge call protocol** (`executeWAJsFunction`). The function path is resolved inside the page. Its result or error is printed to the console behind a tag (`[WA-JS-RESULT] fn:` / `[WA-JS-ERROR] fn:`). A console listener correlates the line back to the call by string prefix, and a timer rejects the call after a timeout. The model covers the batch form and the fixed wrappers (`listAllChats`, `sendMessage`, `isAuthenticated`, ...).
- **Tokens**: generation (`encryptSession` and its four siblings in `encryptController.ts`), the transport-safe alphabet (`/`→`_`, `+`→`-`) and the `session:token` full form. The `verifyToken` middleware accepts a Bearer header first and the legacy `session:token` parameter second.
- **The `statusConnection` middleware**: the WA-JS gate (400 for no session; 404 for an absent or CLOSED record) and the older per-number check.
- **Session management**: `closeAllSessions` and the zip guard of `restoreSessions`.

Modules and files:

| file | module | what it holds |
|---|---|---|
| `text.dfy` | `Wrappers`, `Text` | `Option`; the JavaScript string operations the source uses (`startsWith`, `includes`, `split`, `trim`, `replace`) as functions with their laws |
| `json.dfy` | `Json` | JSON values, and `JSON.stringify`/`JSON.parse` as an abstract codec |
| `session_registry.dfy` | `SessionRegistry` | the record, the statuses and the `Registry` class holding `clients` |
| `wajs_session.dfy` | `WAJsSession` | the `WAJsUtil` class (`browser`, `page`, the registry) and `createSessionUtil` |
| `wajs_bridge.dfy` | `WAJsBridge` | path resolution, line framing, the `PendingCall` state machine, `executeWAJsFunction`, the wrappers |
| `wajs_batch.dfy` | `WAJsBatch` | `executeMultipleWAJsFunctions` |
| `encrypt_controller.dfy` | `EncryptController` | the five token generators |
| `auth.dfy` | `Auth` | `verifyToken` |
| `status_connection.dfy` | `StatusConnection` | the `statusConnection` middleware |
| `manage_session.dfy` | `ManageSession` | `closeAllSessions`, `restoreSessions` up to the extraction |

The browser, the clock, bcrypt and JSON are parameters, not implementations. They are listed under "## Left out".

- Browser steps: a `BrowserOracle` names the step that throws, if any, and the handles the launch returns.
- In-page function calls: an `Environment` gives the in-page namespace (`window.WPP`), the behaviour of each callable, the order in which the timer and the console lines arrive, and any unrelated console lines.
- bcrypt: `compare` and the hash outcome are parameters.
- JSON: a `Codec`. Where a proof needs `parse(stringify v) == v`, it assumes this as a requirement on that codec.

### Where the code does something other than the documented design

The model follows the code in each of these cases:

- On a timeout, `executeWAJsFunction` rejects but does not remove its console listener (`src/util/waJsUtil.ts:603-611`). A later tagged line is consumed by that listener and changes nothing (`WAJsBridge.TimeoutLeavesListener`, `WAJsBridge.LateLineAfterTimeout`).
- A failed creation only sets the record to CLOSED (`src/util/waJsUtil.ts:353-363`). It releases neither the browser nor the page, and records no error text. A failure after the record was published leaves a CLOSED record that still holds its handles (`WAJsSession.LateFailureKeepsHandles`).
- The status never passes through a QR-code state: it goes straight from INITIALIZING to CONNECTED (`src/util/waJsUtil.ts:351`). A readiness timeout is just another thrown step.
- A path that does not resolve, or ends in something that is not a function, is reported through the error tag. The caller then sees a generic execution failure carrying the Portuguese message, not a distinct not-found error (`WAJsBridge.InvokePathNotFound`).
- Replies are correlated by string prefix only. A path that contains `:` can be captured by the listener of a shorter path (`WAJsBridge.PrefixCollision`). Two concurrent calls on the same path are both settled by the first line (`WAJsBridge.SharedPathHazard`). A late result line of an earlier call that timed out can settle the next call on the same path (`WAJsBridge.StaleLineSettles`); in the model such a line is part of the later call's environment. The fixed wrappers do not capture each other's lines, since their paths differ and none holds `:` (`WAJsBridge.WrapperLinesIsolated`).
- `closeAllSessions` deletes the record before it asks the browser to close. A failing close is only logged (`src/util/manageSession.ts:122-130`).
- The WA-JS gate of `statusConnection` lets through a record that is INITIALIZING or has no status (`StatusConnection.InitializingPasses`).
- The creation guard treats an empty status as busy: it is not null and not CLOSED, although it is not truthy either.
- The `browser` and `page` fields of `WAJsUtil` belong to the object, not to a session. Creating a second session through the same object would overwrite them (`WAJsSession.HandlesShared`). This is a latent property of the class: the controllers and `statusConnection` build a new `WAJsUtil` for each request, so no caller creates two sessions through one object.

## Model

| member | source | states |
|---|---|---|
| WAJsSession.WithRecord | src/util/waJsUtil.ts:56-66 | after the insert step the name is present: an unknown name gets the fresh CLOSED record and nothing else is added or dropped; a known name leaves the registry unchanged |
| WAJsSession.WAJsUtil.MarkClosed | src/util/waJsUtil.ts:359-362 | the catch sets the session's status to CLOSED if a record exists, changing no other field and no other record |
| WAJsSession.WAJsUtil.CreateSessionUtil | src/util/waJsUtil.ts:54-364 | the new registry and handles are exactly `AfterCreate` of the old ones: insert, guard, INITIALIZING and the body as configuration, the browser steps, then CONNECTED or CLOSED |
| WAJsSession.WAJsUtil.BrowserSteps | src/util/waJsUtil.ts:97-352 | the browser steps change the handles and the record exactly as `AfterSteps` says: each step up to the failing one has its effect, and the record is published with the page and browser after readiness |
| WAJsSession.BusyIsNoOp | src/util/waJsUtil.ts:68-71 | creating a session whose record is busy (status set and not CLOSED) changes nothing at all |
| WAJsSession.UnknownSessionPassesGuard | src/util/waJsUtil.ts:59-71 | an unknown name gets a CLOSED record with an empty configuration, which passes the guard |
| WAJsSession.GuardedOutcome | src/util/waJsUtil.ts:73-363 | past the guard the record ends CONNECTED iff no step threw and CLOSED iff one did, never INITIALIZING, with the request body as configuration |
| WAJsSession.ConnectedRecordHoldsHandles | src/util/waJsUtil.ts:195-200 | a successful creation leaves the record CONNECTED with the body, the page and the browser it opened |
| WAJsSession.CreateIdempotent | src/util/waJsUtil.ts:68-71 | creating again after a success leaves everything as it was |
| WAJsSession.RetryAfterFailure | src/util/waJsUtil.ts:353-363 | after a failure the record passes the guard again, so the session can be retried |
| WAJsSession.LookupAfterCreate | src/util/waJsUtil.ts:56-352 | read after write for `getClient`: after a creation the session is found, every other name reads as before, and a creation past the guard that did not fail leaves a CONNECTED record with a page |
| WAJsSession.OthersUntouched | src/util/waJsUtil.ts:54-364 | creation adds the name and leaves every other session's record and presence as they were |
| WAJsSession.LateFailureKeepsHandles | src/util/waJsUtil.ts:318-363 | a throw while wiring the QR handler leaves a CLOSED record still holding the page and browser, and the browser field set |
| WAJsSession.EarlyFailureKeepsFields | src/util/waJsUtil.ts:93-97 | a throw before the launch returns leaves the utility's browser and page fields unchanged |
| WAJsSession.HandlesShared | src/util/waJsUtil.ts:28-101 | after creating two sessions the utility's page field is the second one's, while the first record keeps its own page |
| WAJsBridge.ResolvePath | src/util/waJsUtil.ts:657-674 | the in-page walk over the dot-separated segments computes `Resolve`: not found as soon as a segment is missing or the current value is not an object, otherwise callable or not |
| WAJsBridge.ResolveTwoSegments | src/util/waJsUtil.ts:657-674 | `ns.name` resolves to the function exactly when `ns` is a namespace holding `name` as a function, and to not found when either is missing |
| WAJsBridge.NormalizeArgsCases | src/util/waJsUtil.ts:593-695 | no params gives `[{}]`, an array is passed as the argument list and any other value becomes a one-element list |
| WAJsBridge.NormalizeArgsIdempotent | src/util/waJsUtil.ts:695 | normalising an already normalised list leaves it unchanged |
| WAJsBridge.ConsoleEvents | src/util/waJsUtil.ts:614-649 | each console line becomes one console event, in order |
| WAJsBridge.Events | src/util/waJsUtil.ts:603-697 | whatever the interleaving, the timer event is among the events a call sees |
| WAJsBridge.ResultLineClassified | src/util/waJsUtil.ts:616-620 | the listener recognises its own result line and takes the trimmed text after the tag |
| WAJsBridge.ErrorLineClassified | src/util/waJsUtil.ts:637-640 | the listener recognises its own error line and takes the trimmed message |
| WAJsBridge.FramingRoundTrip | src/util/waJsUtil.ts:616-630 | the line printed for a serialisable value is decoded by the listener of the same path back to that value |
| WAJsBridge.StartsWithCommon | src/util/waJsUtil.ts:616 | a shared prefix does not change whether one line starts with another tag |
| WAJsBridge.DiffersAt | src/util/waJsUtil.ts:616 | a line differing from a tag inside the tag's length does not start with it |
| WAJsBridge.PathsDisjoint | src/util/waJsUtil.ts:616-637 | for two different paths without `:`, the line of one never starts with the other's `path:` prefix |
| WAJsBridge.FramingIsolated | src/util/waJsUtil.ts:614-647 | result and error lines of one path are ignored by the listener of another path, when neither holds `:` |
| WAJsBridge.PrefixCollision | src/util/waJsUtil.ts:616 | the listener for `conn` captures the result line of `conn:state` |
| WAJsBridge.SharedPathHazard | src/util/waJsUtil.ts:614-647 | one result line settles every pending call on the same path with the same value |
| WAJsBridge.OperationPathsHaveNoColon | src/util/waJsUtil.ts:752-875 | none of the fixed wrapper paths contains `:` |
| WAJsBridge.WrapperLinesIsolated | src/util/waJsUtil.ts:614-875 | the result and error lines of one wrapper are ignored by the listener of any wrapper with a different path |
| WAJsBridge.StaleLineSettles | src/util/waJsUtil.ts:603-647 | a result line left by an earlier timed-out call on the same path, arriving first, settles the call with the earlier value whatever follows |
| WAJsBridge.PendingCall.constructor | src/util/waJsUtil.ts:601-649 | a new pending call is unsettled, has captured nothing, is listening and has its timer armed |
| WAJsBridge.PendingCall.SettleWith | src/util/waJsUtil.ts:624-644 | settling with an outcome marks the capture, clears the timer and removes the listener |
| WAJsBridge.PendingCall.OnConsoleLine | src/util/waJsUtil.ts:614-647 | a console line changes the call's state exactly as `Step` says: its own result line resolves with the parsed value or rejects on a parse error, its own error line rejects, and any other line is ignored |
| WAJsBridge.PendingCall.OnTimerFired | src/util/waJsUtil.ts:603-611 | the timer rejects with the timeout unless a result was captured, and leaves the listener registered |
| WAJsBridge.PendingCall.OnEvaluateRejected | src/util/waJsUtil.ts:697 | a rejected evaluation rejects the call with its message, if it is still pending |
| WAJsBridge.RunSettles | src/util/waJsUtil.ts:601-697 | the state stays consistent along any event sequence, and once the timer has fired the call is settled |
| WAJsBridge.RunNeverNoSession | src/util/waJsUtil.ts:596-647 | no event produces the session-not-found error; only the entry check does |
| WAJsBridge.SettledStaysSettled | src/util/waJsUtil.ts:601-647 | once the promise is settled no later event changes its outcome |
| WAJsBridge.TaggedLineCaptures | src/util/waJsUtil.ts:616-646 | the first tagged line settles the call, clears the timer and removes the listener; an error line rejects with its message, and a result line resolves or reports a parse failure |
| WAJsBridge.UntaggedLineIgnored | src/util/waJsUtil.ts:614-647 | a line without the call's tags leaves the state unchanged |
| WAJsBridge.TimeoutLeavesListener | src/util/waJsUtil.ts:603-611 | the timeout rejects with the function name and the delay, and the listener stays registered |
| WAJsBridge.LateLineAfterTimeout | src/util/waJsUtil.ts:603-647 | a tagged line after the timeout is consumed by the leftover listener but the outcome stays the timeout |
| WAJsBridge.QuietRun | src/util/waJsUtil.ts:614-647 | unrelated console lines before the call's own events change nothing |
| WAJsBridge.Invoke | src/util/waJsUtil.ts:590-699 | the call rejects with the session-not-found error exactly when there is no record or the record has no page |
| WAJsBridge.ExecuteWAJsFunction | src/util/waJsUtil.ts:590-699 | dispatching each event to the pending call's handlers yields exactly `Invoke` |
| WAJsBridge.InvokeOwnLine | src/util/waJsUtil.ts:614-693 | an undisturbed call whose page prints one line, and which that line settles, ends with that line's outcome |
| WAJsBridge.InvokeResolves | src/util/waJsUtil.ts:655-693 | a callable path whose function returns a serialisable value resolves the call with exactly that value |
| WAJsBridge.NotFoundMessageTrimmed | src/util/waJsUtil.ts:637-640 | the not-found message has no outer spaces, so the listener passes it on unchanged |
| WAJsBridge.InvokePathNotFound | src/util/waJsUtil.ts:657-669 | a path that does not resolve rejects with the execution failure carrying `Função fn não encontrada no WA-JS` |
| WAJsBridge.InvokeTimesOut | src/util/waJsUtil.ts:603-611 | a function whose promise never settles ends in the timeout with the call's own timeout, 10000 ms by default |
| WAJsBridge.NotAuthenticatedWithoutSession | src/util/waJsUtil.ts:861-871 | `isAuthenticated` is false when the session has no record or no page |
| WAJsBridge.AuthenticatedAsPageSays | src/util/waJsUtil.ts:861-871 | on an undisturbed call with a round-tripping codec, `isAuthenticated` is exactly the boolean the page's `conn.isAuthenticated()` returns |
| WAJsBridge.NotAuthenticatedWhenMissing | src/util/waJsUtil.ts:861-871 | a page without `WPP.conn.isAuthenticated` reads as not authenticated |
| WAJsBatch.ExecuteMultipleWAJsFunctions | src/util/waJsUtil.ts:707-748 | the loop returns exactly `Batch`: one entry per input call, in order |
| WAJsBatch.BatchEntries | src/util/waJsUtil.ts:725-745 | entry k names call k, succeeds exactly when that call resolved and then carries its value, and otherwise carries the error message |
| WAJsBatch.BatchAppend | src/util/waJsUtil.ts:725-745 | the batch of a concatenation is the concatenation of the batches, each call seen through its own environment: a failure does not stop the later calls (a stale line from a timed-out call can still reach a later one; see `WAJsBridge.StaleLineSettles`) |
| WAJsBatch.BatchWithoutSession | src/util/waJsUtil.ts:596-599 | without a record with a page every entry fails with `Sessão não encontrada ou página não inicializada` |
| EncryptController.ComparedSecret | src/controller/encryptController.ts:87-93 | the secret compared is the path parameter when given, else the first space-separated piece of the Authorization header: a space-free prefix that is the whole header or is followed by a space |
| EncryptController.StartGenerator | src/controller/encryptController.ts:87-102 | hashing starts exactly when the presented secret equals the server secret, on input `session + secret`; otherwise the answer is the 400 reply, or a crash when `encryptSession` has neither secret nor header |
| EncryptController.TransportSafe | src/controller/encryptController.ts:105 | the token has the hash's length, contains no `/` or `+`, maps `/` to `_` and `+` to `-`, and keeps every other character |
| EncryptController.FinishGenerator | src/controller/encryptController.ts:102-122 | a failed hash is a 500; a hash issues the session and its transport-safe token, with the full `session:token` form exactly for the two generators that return it |
| EncryptController.SplitFirstIsPrefix | src/controller/encryptController.ts:90 | the first piece of a split is a prefix of the string |
| EncryptController.BadSecretNeverHashes | src/controller/encryptController.ts:95-100 | a wrong secret parameter never reaches the hash: the answer is the 400 reply |
| EncryptController.SiblingsIgnoreHeader | src/controller/encryptController.ts:189-762 | the four sibling generators (`generateAndApplyToken`, `applyTokenAndRedirect`, `applyTokenAuto`, `testWebhookWithToken`, whose secret checks sit at lines 192-202, 261-271, 417-427 and 752-762) ignore the Authorization header and refuse a missing secret parameter |
| EncryptController.SiblingsAgree | src/controller/encryptController.ts:189-203 | with a secret parameter, every generator checks it like `encryptSession` and issues the same token |
| EncryptController.HeaderSecretAccepted | src/controller/encryptController.ts:89-102 | for any header, `encryptSession` without a parameter goes on to hash exactly when the header is the secret or starts with the secret and a space |
| EncryptController.IssuedTokenIsSafe | src/controller/encryptController.ts:105-106 | every issued token is transport-safe and its full form is `session:token` |
| EncryptController.FullTokenSplits | src/controller/encryptController.ts:106 | when neither part holds `:`, splitting the full token on `:` gives back the session and the token |
| Auth.RestoreHash | src/middleware/auth.ts:41 | the restored hash has the token's length, maps `_` to `/` and `-` to `+`, and keeps every other character |
| Auth.RestoreInvertsTransportSafe | src/middleware/auth.ts:41 | restoring a transport-safe token gives back the original hash |
| Auth.SelectCredentials | src/middleware/auth.ts:26-59 | no session parameter is refused first; a Bearer header is used next, with the session's `:`-prefix as the name; otherwise a parameter holding `:` is split into name and token; anything else is refused |
| Auth.Verify | src/middleware/auth.ts:21-88 | the request is authorised exactly when credentials were selected and `compare(name + secret, hash)` holds, and then carries that name, the hash and the registry record |
| Auth.VerifyToken | src/middleware/auth.ts:21-88 | the request's session, token and client are set exactly as `Verify` authorises |
| Auth.MissingSessionRefused | src/middleware/auth.ts:26-27 | no session parameter means `Session not informed`, whatever the header |
| Auth.BearerPriority | src/middleware/auth.ts:38-47 | with a Bearer header, only the `:`-prefix of the session parameter matters |
| Auth.BearerSegment | src/middleware/auth.ts:39 | the token after `Bearer ` is the second space-separated piece when it holds no space |
| Auth.BearerRoundTrip | src/middleware/auth.ts:38-69 | a token issued for a session and presented as `Bearer token` authorises that session |
| Auth.LegacyRoundTrip | src/middleware/auth.ts:48-69 | the full `session:token` form passed as the session parameter authorises that session |
| Auth.ForeignTokenRefused | src/middleware/auth.ts:38-78 | for every presentation (Bearer header or legacy `name:token` parameter) whose hash `compare` accepts only for the session it was issued to, an authorised request is for that session, and any other name is refused with `TokenMismatch` |
| Auth.ForeignBearerRefused | src/middleware/auth.ts:38-78 | a Bearer token issued for one session is refused with `TokenMismatch` when the session parameter names another session before its `:` |
| Auth.ForeignLegacyRefused | src/middleware/auth.ts:48-78 | without a Bearer header, `other:token` with a token issued for a different session is refused with `TokenMismatch` |
| StatusConnection.Field | src/middleware/statusConnection.ts:58 | a body member is defined exactly when the body is an object holding it |
| StatusConnection.SetField | src/middleware/statusConnection.ts:68 | setting `phone` on an object body defines it and leaves every other member unchanged |
| Json.Strings | src/middleware/statusConnection.ts:106 | a list of strings (the checked numbers, a group's participants) becomes a JSON array of the same strings, element by element |
| StatusConnection.WAJsGate | src/middleware/statusConnection.ts:35-72 | 400 exactly for a missing or empty session, 404 exactly for an absent or CLOSED record, `next` exactly when no reply is sent, and `phone` replaced only when `to` is truthy |
| StatusConnection.RouteNamesClassified | src/middleware/statusConnection.ts:29-33 | any path containing one of the four route names takes the WA-JS gate |
| StatusConnection.InitializingPasses | src/middleware/statusConnection.ts:49-71 | an INITIALIZING record passes the gate |
| StatusConnection.MissingNumbers | src/middleware/statusConnection.ts:84-105 | groups and newsletters have no missing numbers, and there are never more missing numbers than contacts |
| StatusConnection.CheckedContacts | src/middleware/statusConnection.ts:84-105 | the checked list keeps the length, and entry i is contact i, checked |
| StatusConnection.CheckNumbers | src/middleware/statusConnection.ts:84-105 | the in-place loop puts each contact's checked form at its index and returns the missing numbers in order |
| StatusConnection.MissingExactly | src/middleware/statusConnection.ts:90-99 | the number of 400 replies equals the number of contacts whose check failed |
| StatusConnection.GroupSkipsCheck | src/middleware/statusConnection.ts:86-87 | for groups and newsletters nothing is checked and the list is kept as it is |
| StatusConnection.FallbackCallsNext | src/middleware/statusConnection.ts:107-114 | without a client exposing `isConnected` the reply is 404, yet `next` is still called |
| StatusConnection.LegacyCheckOutcome | src/middleware/statusConnection.ts:75-126 | for a connected client: no reply iff no number is missing; the first missing number's 400 otherwise; `next` iff at most one is missing; an escaped error iff two or more are; `phone` set to the checked list whenever `next` runs |
| StatusConnection.RunStatusConnection | src/middleware/statusConnection.ts:22-127 | the middleware, with its in-place check of `localArr`, gives exactly `StatusConnection` |
| ManageSession.CloseAllSessions | src/util/manageSession.ts:117-133 | every listed session is removed from the registry and no other; the closes asked for are `CloseRequests`, and the logged errors are those of the failing closes |
| ManageSession.LookupAfterClose | src/util/manageSession.ts:119-123 | read after write for `getClient`: after the close every listed name reads as absent and every other name as before |
| ManageSession.CloseRequestsSound | src/util/manageSession.ts:119-127 | each close is for a listed, present record with a truthy status and a page exposing its browser, and no session is closed twice |
| ManageSession.CloseRequestsComplete | src/util/manageSession.ts:119-127 | every listed, present record that qualifies gets its close |
| ManageSession.NoCloseWithoutBrowser | src/util/manageSession.ts:124-127 | a record that does not qualify is removed without a close |
| ManageSession.RestoreSessions | src/util/manageSession.ts:75-84 | a non-zip upload is refused with `Please, send zipped file`, leaves the registry alone and requests no close; a zip upload removes every listed session, returns exactly the close requests `CloseAllSessions` issues for the old registry, and starts the extraction |

## Left out

- The browser itself (Puppeteer launch, pages, navigation, script injection, `waitForFunction`, `exposeFunction`) is not modelled. Its effects are the `BrowserOracle`, which says which step throws and which handles the launch returns.
- The launch arguments and `getChromiumPath` are not modelled: executable discovery and flags are I/O configuration.
- The injection failures that `createSessionUtil` catches and only logs (`src/util/waJsUtil.ts:116-127`, `136-153`) do not affect the record, so they are not separate steps.
- `exportQR`, `setupEventListeners` and `start` only log or emit events. They are not modelled.
- `getQRCode`, `genLinkDeviceCodeForPhoneNumber` and `getAuthCode` are not modelled. They read page state through the same bridge and do not change the registry.
- The record's closures (`getChat`, etc.) are not modelled.
- Real time and concurrency are not modelled. A call's events are one sequence, so the interleaving chosen by the environment stands for the race between the timer, the console lines and the evaluation.
- `JSON.stringify`/`JSON.parse` are an abstract `Codec`. Parse errors are its `SyntaxError`.
- bcrypt is not modelled: `compare` and the hash outcome are parameters, with no claim about collision resistance beyond a lemma's requirement.
- `contactToArray` is a parameter: `src/util/functions.ts` is not part of this model.
- `getAllTokens` is a parameter, namely the list of names.
- The 500 of the webhook test in `testWebhookWithToken` and the HTTP POST it makes are not modelled. Its token is modelled up to the reply.
- The HTML pages of the token generators are not modelled.
- Backup, `cleanSession` and the streaming, extraction and file copies of `restoreSessions` are not modelled. `startAllSessions` after the restore is not modelled either.
- The thin controllers in `src/controller/waJsController.ts` are not modelled. They only forward to the utility and shape replies.
- StatusConnection.SetField: setting a member on a body that is not an object (a string or a number) is modelled as no change. JavaScript would set it on a wrapper object, or throw.
- Auth.Verify: the `catch` at `src/middleware/auth.ts:81-87` is not modelled. Nothing the model runs inside the `try` can throw: the string operations are total, and `compare` is a total parameter.
- `closeAllSessions` runs its loop as `names.forEach(async …)` (`src/util/manageSession.ts:119`). It returns before any browser has finished closing, and `restoreSessions` goes on with the extraction while the closes run. The model's loop does the deletions in order and treats the closes as requests; their timing relative to the restore is not modelled.
- The server secret is assumed configured. With `serverOptions.secretKey` undefined, a missing `secretkey` parameter would compare `undefined !== undefined` as false and hash, whereas the model's secret is always a string. This affects `EncryptController.SiblingsIgnoreHeader` and `EncryptController.BadSecretNeverHashes`.
- A WA-JS function that returns `undefined` is printed as a tag followed by nothing, so the listener parses an empty payload. The model frames it so; the parse outcome is the codec's.
- Logging is not modelled anywhere.
