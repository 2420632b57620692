# Mobli Android SDK: session and request-dispatch model

A Dafny model of the session core of the Mobli Android SDK client. It covers the
in-memory session of a `Mobli` client object: the access token, its expiry and the
user id. It models how the session is checked, set, cleared and attached to outgoing
requests, and how the interactive login dialog fills it in. It also models how
`AsyncMobliRunner` routes the end of each request to exactly one listener callback,
and how the client-credentials "public token" exchange stores a token.

Modules:

- `MobliApi` (mobli.dfy) models `Mobli.java`. The `Session` value holds the three
  fields and `Session.IsValid(now)` is `isSessionValid`. The pure functions
  `ExpiresAfter`, `LoggedOut`, `WithSessionToken`, `AuthorizeParams`, `ScopeParams` and
  `CompleteLogin` specify the state changes. The class `Mobli` holds the fields, and its
  methods mutate them and the caller's `Bundle`, as the Java does.
- `AsyncRunner` (async_runner.dfy) models `AsyncMobliRunner.java`. `Route` maps a
  transport outcome to a callback by Java's first-matching-`catch` rule (`FirstCatch`
  over `CATCH_ORDER`). The class `AsyncMobliRunner` holds the request methods, the
  listener wrapper of `obtainPublicToken` (`Notify`) and `ObtainPublicToken`.
- `Transport` (transport.dfy) is the boundary of `Util.openUrl`: the call made, the
  three exception classes with their subclass relation, and the two ways a call ends.
- `Bundles` (bundle.dfy) holds `Bundle`, a class over `map<string, string>` that is
  updated in place by `PutString`, so a caller that keeps the bundle sees the token
  that was added.
- `TextUtil` (text_util.dfy) holds `TextUtils.join`, a `Split` that reads a joined
  scope back, and the numerals `Long.parseLong` accepts.
- `Scenarios` (scenarios.dfy) walks through a public-token exchange, a login without a
  token, two overlapping logins and a login without the Internet permission, from the
  contracts alone.

Conventions:

- The clock is an explicit `now` (milliseconds).
- A Java `null` string is `None`.
- The transport is a function parameter `transport: HttpCall -> TransportOutcome`. The
  contracts name the exact call made and the answer that was routed.
- Listener calls are appended to ghost logs (`Mobli.dialogLog`,
  `AsyncMobliRunner.requestLog`), so "exactly one callback" is an equation on the log.
- The ghost counter `Mobli.pendingAuthDialogs` counts login dialogs shown and not yet
  finished. `dialog` raises it only when it shows a dialog for the login flow, and each
  of the four login handlers requires one and uses it up.
- Reading the token out of the JSON body is a function parameter
  `tokenOf: string -> Option<string>`. It gives `None` when parsing or lookup throws.

Behaviour of the code that the lemmas make explicit:

- Only the literal `"0"` is the never-expires sentinel. `"00"` parses to zero seconds,
  so the expiry becomes `now` and, at any time other than 0, the session is already
  invalid (`ZeroPaddedExpiresInExpiresAtOnce`).
- A negative `expires_in` is accepted. When `now + d*1000` is exactly 0 the computed
  expiry coincides with the sentinel and the token never expires, e.g. `"-5"` at time
  5000 (`ComputedZeroExpiryNeverExpires`, `NegativeDurationCanNeverExpire`).
- A login result without `expires_in` keeps the previous expiry. A token that was
  received is then reported as "Failed to receive access token." if an earlier session
  had expired (`StaleExpiryRejectsReceivedToken`).
- `obtainPublicToken` stores the token and leaves the expiry alone. A public token
  received after a login session has expired is therefore invalid at once and is never
  attached to a request (`AsyncRunner.PublicTokenAfterExpiredSession`).
- The completion handler reports to the listener stored at completion time. A second
  `authorize` before the first dialog ends therefore receives the first dialog's
  result (`Scenarios.SecondAuthorizeTakesOverScenario`).
- The caller's bundle passed to `dialog` is updated even when the Internet permission
  is missing. In that case this call makes no login dialog pending; with no earlier
  dialog pending, none of the login flow's handlers can run
  (`Scenarios.NoPermissionScenario`).

Further behaviour of the code that the model follows:

- The user id is written on every completed dialog, even a failed one, and it becomes
  `null` when the values carry none.
- There is no explicit Idle/DialogPresented state; the only state is the stored
  listener and the three session fields.

## Model

| member | source | states |
|---|---|---|
| `MobliApi.Mobli.Create` | src/com/mobli/android/Mobli.java:83-94 | a null client id, checked first, then a null client secret, gives an IllegalArgumentException with its message; otherwise a fresh client stores both unchanged with no token, expiry 0 and no user id |
| `MobliApi.Mobli.constructor` | src/com/mobli/android/Mobli.java:65-71 | the credentials are stored as given; token absent, expiry 0, user id absent, no listener |
| `MobliApi.Session.IsValid` | src/com/mobli/android/Mobli.java:371-373 | a valid session has a token; a token whose expiry is the sentinel 0 is valid; once a nonzero expiry is reached the session is invalid |
| `MobliApi.Mobli.IsSessionValid` | src/com/mobli/android/Mobli.java:371-373 | the same three facts about the client's stored token and expiry |
| `MobliApi.ValidityCases` | src/com/mobli/android/Mobli.java:371-373 | no token is never valid; a token with expiry 0 is valid at every time; otherwise it is valid exactly before the expiry |
| `MobliApi.ExpiresAfter` | src/com/mobli/android/Mobli.java:423-428 | a null argument keeps the old expiry and "0" gives 0; otherwise the expiry is a whole number of seconds from now, no earlier than now for an unsigned numeral (unless it is 0) and no later than now for a negative one |
| `MobliApi.NullExpiresInKeepsExpiry` | src/com/mobli/android/Mobli.java:423-428 | `setAccessExpiresIn(null)` leaves the expiry unchanged |
| `MobliApi.ZeroExpiresInNeverExpires` | src/com/mobli/android/Mobli.java:425 | `"0"` sets the expiry to 0, so a stored token is valid at every later time |
| `MobliApi.DurationExpiresIn` | src/com/mobli/android/Mobli.java:425 | any other numeral d, with or without a leading '-', sets the expiry to now + d*1000; unless that sum is 0, the token is valid exactly before that instant |
| `MobliApi.ComputedZeroExpiryNeverExpires` | src/com/mobli/android/Mobli.java:425 | a numeral other than `"0"` for which now + d*1000 is 0 stores expiry 0, which the validity check reads as never expiring |
| `MobliApi.NegativeDurationCanNeverExpire` | src/com/mobli/android/Mobli.java:372 | `"-5"` received at time 5000 gives a token that is valid at every time |
| `MobliApi.ZeroPaddedExpiresInExpiresAtOnce` | src/com/mobli/android/Mobli.java:425 | an all-zero numeral other than `"0"` makes the expiry `now`, so at any time other than 0 the session is invalid from then on |
| `TextUtil.DigitsValue` | src/com/mobli/android/Mobli.java:425 | the value `Long.parseLong` reads from a digit run is never negative |
| `TextUtil.LongValue` | src/com/mobli/android/Mobli.java:425 | an unsigned numeral has its digits' value, which is not negative; a leading '-' gives the negated value of the digits after it |
| `TextUtil.DigitsValueZeroIff` | src/com/mobli/android/Mobli.java:425 | a digit run is worth zero exactly when every digit is '0' |
| `MobliApi.Mobli.SetAccessExpiresIn` | src/com/mobli/android/Mobli.java:423-428 | the new expiry is `ExpiresAfter` of the old expiry, the argument and now; nothing else changes |
| `MobliApi.Mobli.SetAccessToken` | src/com/mobli/android/Mobli.java:401-403 | the token is overwritten unconditionally and nothing else changes |
| `MobliApi.Mobli.SetAccessExpires` | src/com/mobli/android/Mobli.java:412-414 | the expiry is overwritten unconditionally and nothing else changes |
| `MobliApi.Mobli.SetUserId` | src/com/mobli/android/Mobli.java:450-452 | the user id is overwritten and nothing else changes |
| `MobliApi.Mobli.GetAccessToken` | src/com/mobli/android/Mobli.java:381-383 | returns the stored token, absent when there is no session |
| `MobliApi.Mobli.GetAccessExpires` | src/com/mobli/android/Mobli.java:391-393 | returns the stored expiry |
| `MobliApi.Mobli.GetUserId` | src/com/mobli/android/Mobli.java:446-448 | returns the stored user id |
| `MobliApi.Mobli.GetClientId` | src/com/mobli/android/Mobli.java:430-432 | returns the client id given at construction |
| `MobliApi.Mobli.GetClientSecret` | src/com/mobli/android/Mobli.java:438-440 | returns the client secret given at construction |
| `MobliApi.LoggedOut` | src/com/mobli/android/Mobli.java:208-212 | after logout the token is absent, the expiry is 0, the user id is kept, and the session is invalid at every time |
| `MobliApi.Mobli.Logout` | src/com/mobli/android/Mobli.java:208-212 | the session becomes `LoggedOut` of the old one, and `IsSessionValid` is false at every time |
| `MobliApi.WithSessionToken` | src/com/mobli/android/Mobli.java:294-296 | `access_token` is set to the token exactly when the session is valid; every other key keeps its value; a caller's own `access_token` stays when the session is invalid |
| `MobliApi.Mobli.Request` | src/com/mobli/android/Mobli.java:291-299 | the caller's bundle gains the token by `WithSessionToken`, and the transport is called once with url `baseUrl + relativePath` as it stands, the verb and the updated parameters; its answer is returned |
| `MobliApi.Mobli.RequestApi` | src/com/mobli/android/Mobli.java:330-333 | the same request against the API base URL |
| `MobliApi.Mobli.RequestGet` | src/com/mobli/android/Mobli.java:258-260 | the same request against the API base URL with verb GET |
| `MobliApi.Mobli.RequestPath` | src/com/mobli/android/Mobli.java:230-232 | a GET to the API base URL whose only parameter is the token, when the session is valid |
| `MobliApi.RedirectUri` | src/com/mobli/android/Mobli.java:352 | the redirect URI starts with "mobli", ends with "://authorize", and is exactly as long as those two and the client id together |
| `MobliApi.RedirectUriInjective` | src/com/mobli/android/Mobli.java:352 | the redirect URI "mobli" + client id + "://authorize" determines the client id |
| `MobliApi.AuthorizeParams` | src/com/mobli/android/Mobli.java:352-355 | `redirect_uri`, `client_id` and `response_type` = "token" are set, overwriting the caller's values; every other key is kept |
| `MobliApi.Mobli.Dialog` | src/com/mobli/android/Mobli.java:350-366 | the caller's bundle becomes `AuthorizeParams` then `WithSessionToken`, even without permission; a dialog with those parameters, the redirect URI and the listener is shown exactly when the Internet permission is granted, and otherwise nothing is shown; one more login dialog is pending exactly when a dialog for the login flow is shown |
| `MobliApi.ScopeParams` | src/com/mobli/android/Mobli.java:161-164 | `scope` is present exactly when the permission list is non-empty, it is the list joined by single spaces, nothing else is set, and splitting it at spaces gives the list back when no permission contains a space |
| `TextUtil.Join` | src/com/mobli/android/Mobli.java:163 | joining no parts gives the empty string; otherwise the result starts with the first part |
| `TextUtil.SplitJoin` | src/com/mobli/android/Mobli.java:163 | a list joined by one separator character is recovered by splitting, when no element contains the separator |
| `MobliApi.Mobli.StartDialogAuth` | src/com/mobli/android/Mobli.java:160-166 | shows, when permitted, a dialog with the scope, authorize and token parameters and the login flow's own listener, which is then one more pending login dialog |
| `MobliApi.Mobli.Authorize` | src/com/mobli/android/Mobli.java:143-148 | the listener is stored, replacing any earlier one, and the login dialog is started as in `StartDialogAuth`; a login dialog becomes pending exactly when the Internet permission is granted |
| `MobliApi.Mobli.AuthorizeBasic` | src/com/mobli/android/Mobli.java:101-103 | `Authorize` with the basic permissions, so `scope` is "basic" |
| `MobliApi.CompleteLogin` | src/com/mobli/android/Mobli.java:168-180 | the values' token, expiry and user id are stored; the listener gets `onComplete(values)` exactly when that session is valid, and otherwise the vendor error "Failed to receive access token." |
| `MobliApi.LoginWithoutTokenFails` | src/com/mobli/android/Mobli.java:171-178 | values without a token always give the vendor error and an invalid session |
| `MobliApi.LoginWithNeverExpiringToken` | src/com/mobli/android/Mobli.java:171-176 | a token with `expires_in` "0" always completes, and the session is then valid at every time |
| `MobliApi.StaleExpiryRejectsReceivedToken` | src/com/mobli/android/Mobli.java:171-178 | a token without `expires_in` is stored, yet reported as the vendor error when the kept expiry has passed |
| `MobliApi.Mobli.OnAuthDialogComplete` | src/com/mobli/android/Mobli.java:168-180 | only a shown login dialog can complete, and it is then no longer pending; the session becomes `CompleteLogin`'s, and exactly one call, `CompleteLogin`'s event, goes to the listener stored by the latest `authorize` |
| `MobliApi.Mobli.OnAuthDialogError` | src/com/mobli/android/Mobli.java:182-185 | only a shown login dialog can end this way, and it is then no longer pending; the dialog error is passed unchanged to the stored listener; the session is unchanged |
| `MobliApi.Mobli.OnAuthDialogMobliError` | src/com/mobli/android/Mobli.java:187-190 | only a shown login dialog can end this way, and it is then no longer pending; the vendor error is passed unchanged to the stored listener; the session is unchanged |
| `MobliApi.Mobli.OnAuthDialogCancel` | src/com/mobli/android/Mobli.java:192-195 | only a shown login dialog can end this way, and it is then no longer pending; the cancel is passed to the stored listener; the session is unchanged |
| `AsyncRunner.FirstCatch` | src/com/mobli/android/AsyncMobliRunner.java:168-177 | the chosen clause is the first one whose class the thrown exception is an instance of; there is none only when no clause matches |
| `AsyncRunner.Handler` | src/com/mobli/android/AsyncMobliRunner.java:171-176 | each catch clause calls the callback of its own exception class, with the caught exception and the caller's state; never `onComplete` or `onMobliError` |
| `AsyncRunner.Route` | src/com/mobli/android/AsyncMobliRunner.java:168-177 | a body goes to `onComplete`; `FileNotFoundException` goes to `onFileNotFoundException`, `MalformedURLException` to `onMalformedURLException`, any other `IOException` to `onIOException`; `onMobliError` is never chosen; the state is passed through unchanged |
| `AsyncRunner.CatchOrderMatters` | src/com/mobli/android/AsyncMobliRunner.java:171-176 | a `FileNotFoundException` is also caught by an `IOException` clause, so only the written order keeps it away from `onIOException` |
| `AsyncRunner.AsyncMobliRunner.constructor` | src/com/mobli/android/AsyncMobliRunner.java:58-60 | the runner uses the given client object and has made no calls yet |
| `AsyncRunner.AsyncMobliRunner.Notify` | src/com/mobli/android/AsyncMobliRunner.java:240-276 | exactly one call reaches the application listener, with the same callback and arguments; through the public-token wrapper, `onComplete` first stores a token read from the body and ignores an unreadable body |
| `AsyncRunner.AsyncMobliRunner.RequestAt` | src/com/mobli/android/AsyncMobliRunner.java:163-180 | the bundle gains the token as in `Mobli.Request`; exactly one listener call follows, namely `Route` of the transport's answer to `baseUrl + relativePath`, with the caller's state |
| `AsyncRunner.AsyncMobliRunner.Request` | src/com/mobli/android/AsyncMobliRunner.java:216-219 | `RequestAt` against the API base URL; the stored token is unchanged |
| `AsyncRunner.AsyncMobliRunner.RequestGet` | src/com/mobli/android/AsyncMobliRunner.java:120-122 | the same with verb GET |
| `AsyncRunner.AsyncMobliRunner.RequestGetStateless` | src/com/mobli/android/AsyncMobliRunner.java:124-126 | the same with verb GET and a null state |
| `AsyncRunner.AsyncMobliRunner.RequestPath` | src/com/mobli/android/AsyncMobliRunner.java:83-85 | a GET with an empty parameter bundle, plus the token when the session is valid |
| `AsyncRunner.AsyncMobliRunner.RequestPathStateless` | src/com/mobli/android/AsyncMobliRunner.java:87-89 | the same with a null state |
| `AsyncRunner.PublicTokenParams` | src/com/mobli/android/AsyncMobliRunner.java:234-238 | exactly `client_id`, `client_secret`, `grant_type` and `scope`, with the client's id and secret; no `access_token` |
| `AsyncRunner.PublicTokenCall` | src/com/mobli/android/AsyncMobliRunner.java:279 | the call carries the client-credentials parameters, plus `access_token` exactly when the session is valid, and then with the session's token |
| `AsyncRunner.PublicTokenCallShape` | src/com/mobli/android/AsyncMobliRunner.java:234-238 | the public-token call is a POST to "https://oauth.mobli.com/shared" carrying exactly `client_id`, `client_secret`, `grant_type` = "client_credentials" and `scope` = "shared", plus `access_token` only when a session is already valid |
| `AsyncRunner.PublicTokenAfter` | src/com/mobli/android/AsyncMobliRunner.java:266-273 | the stored token changes only to a token read from a success body, always does when one can be read, and is never cleared |
| `AsyncRunner.PublicTokenAfterExpiredSession` | src/com/mobli/android/AsyncMobliRunner.java:270 | a public token stored after a login session expired keeps that expiry, so it is invalid at once and no request carries it |
| `AsyncRunner.AsyncMobliRunner.ObtainPublicToken` | src/com/mobli/android/AsyncMobliRunner.java:232-280 | exactly one call reaches the original listener, the one plain routing gives, including `onComplete` for a body without a readable token; the stored token is replaced only by a token read from a success body; expiry and user id never change |

## Left out

- Threads: each `AsyncMobliRunner` request runs at once as one sequential step. The model therefore says nothing about completion order across concurrent requests, or about the session changing between dispatch and execution.
- `Util.openUrl` and `Util.encodeUrl` are not part of this model. The transport is a function parameter. The dialog URL is represented by its endpoint and its parameters, not by the encoded string.
- `CookieSyncManager`, `Util.clearCookies` (in `logout`), `Util.showAlert`, the `MobliDialog` UI and `Util.logd` have no state in the model. The Internet permission check is the boolean `internetGranted`.
- org.json parsing is the function parameter `tokenOf`.
- `Long.parseLong` is modelled only on numerals, an optional '-' followed by digits, with unbounded integers. Its `NumberFormatException`, a leading '+', non-ASCII decimal digits (which `Character.digit` accepts, while `IsDigit` admits only '0' to '9') and `long` overflow of the parsed value or of `now + d*1000` are not modelled. `Mobli.SetAccessExpiresIn` and `Mobli.OnAuthDialogComplete` require a numeral.
- The clock is read once per operation. The Java reads it separately in `setAccessExpiresIn` and in `isSessionValid`.
- The endpoint constants are `protected static` fields that a subclass may change. Here they are constants.
- The `onComplete`/`onError`/`onMobliError`/`onCancel` handlers of the login flow require that `authorize` has stored a listener and that a login dialog is pending, as is always so when the dialog calls them. A `null` listener, bundle or permission array (a `NullPointerException` in the Java) is not modelled.
- `ServiceListener` is unused. `DialogError` and the exception objects are represented only by a message (and, for exceptions, their class). `FORCE_DIALOG_AUTH` is unused and not modelled.
