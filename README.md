# Client session layer of the children's mathematics platform, in Dafny

This project models the client side of a learning platform: the edge middleware that redirects
page requests by the `token` cookie, the configuration with its environment fallbacks, the
request helper `fetchWithAuth` with its per-endpoint fallbacks and local queue of pending
progress sessions, and the authentication provider that holds the signed-in user.

Modules, one per source file, plus two shared ones:

- `Js` (Js.dfy): JavaScript values (`undefined`, `null`, booleans, integers, strings, arrays,
  objects), truthiness, `a || b`, property reads that throw on `null`/`undefined`, `String(v)`,
  `startsWith` and `includes`, with `includes` proved equal to a reference definition.
- `Browser` (Browser.dfy): `localStorage` as a class with the `token` and `pendingSessions` keys.
- `RouteGuard` (RouteGuard.dfy): `middleware.ts`, pure.
- `Config` (Config.dfy): `config.ts`, pure.
- `Api` (Api.dfy): `api.ts`. The request helper and the wrappers are functions; `saveSession`,
  which appends to the stored queue, is a method that modifies the storage object.
- `Session` (Session.dfy): `AuthContext.tsx`. Each transition is a function on a `State` record
  whose contract states the property; the class `AuthProvider` holds `user`, `loading`, `error`
  and the storage, performs each transition step by step, and is proved to end in the state the
  function gives.

Inputs that the code takes from the outside world are parameters: the network is a function
`server: Request -> FetchOutcome` from the request sent to what `fetch` produces, `online` is what
`navigator.onLine` reads when a failure is handled, `now` is `Date.now()`, a cookie or a stored
item is an `Option<string>`, and the value an awaited API call resolves to is a `Value`.

Several behaviours of the code are not what one would expect of a client like this; the model follows the code:

- Offline, `fetchWithAuth` answers any failure with the sentinel `{error: 'Network error', offline: true}`
  instead of throwing, so the wrappers return that sentinel rather than their fallback envelope,
  and `saveSession` queues nothing: the local queue is only written when a request fails while
  the browser reports itself online (`Api.ProgressSaveSession`).
- A failed profile request at mount removes the stored token also when the failure is only that
  the browser is offline (`Session.FailedProfileRemovesToken`).
- One would expect a token to be stored exactly when a user is shown, but that is not an invariant of the code: a sign-in
  response with `success` and `token` but no `user` stores the token and shows nobody
  (`Session.SignInWithoutUserSplitsTokenAndUser`). The check at mount establishes the agreement,
  and logout and sign-ins with a string token and a truthy user keep it (`Session.MountSettles`,
  `Session.SignInKeepsAgreement`).
- The middleware reads a `token` cookie; the code shown stores the token in local storage only,
  so what sets the cookie is not part of this model, and the cookie is an input.
- The dashboard redirect is written for signed-in visitors on the auth pages, yet the matcher keeps the
  middleware off `/auth/login` and `/auth/register`, so a token holder opening either page is let through;
  only the other `/auth` pages send them to the dashboard (`RouteGuard.SignedInVisitorReachesAuthPages`).

## Model

| member | source | states |
|---|---|---|
| `RouteGuard.Middleware` | frontend/src/middleware.ts:4-19 | Without a token, a path outside `/auth` is sent to `/auth/login`; with a token, a path inside `/auth` is sent to `/dashboard`; exactly the other cases pass, so the two redirects never both apply. An empty cookie counts as no token. |
| `RouteGuard.Guard` | frontend/src/middleware.ts:4-25 | A request passes unless its path is guarded by the matcher (`Matched`: a leading `/` not followed by any excluded alternative); redirects go only to the login page or the dashboard, and each happens exactly on a guarded path under its condition. |
| `RouteGuard.AuthPagesUnguarded` | frontend/src/middleware.ts:21-25 | Every path beginning `/auth/login` or `/auth/register` is excluded by the matcher. |
| `RouteGuard.MatcherGuards` | frontend/src/middleware.ts:21-25 | The matcher guards the site root, every path starting with `/dashboard`, and every path `/auth<rest>` whose `rest` starts with neither `/login` nor `/register`. |
| `RouteGuard.MatcherSkips` | frontend/src/middleware.ts:21-25 | The matcher skips every path starting with `/api`, `/_next/static`, `/_next/image` or `/favicon.ico`; since the alternatives are prefixes and `.` is a wildcard, `/apiary` and `/faviconXico` are skipped too. |
| `RouteGuard.SignedInVisitorReachesAuthPages` | frontend/src/middleware.ts:13-25 | The middleware would send a token holder on the login page to the dashboard, but the matcher lets a token holder through on every login and registration page; every other `/auth<rest>` path (with `rest` starting with neither `/login` nor `/register`) sends them to the dashboard. |
| `RouteGuard.RedirectSettles` | frontend/src/middleware.ts:9-25 | Following a redirect never meets another: the login page is not guarded, and with a token the dashboard passes. |
| `RouteGuard.NoRedirectWhereAllowed` | frontend/src/middleware.ts:9-18 | A token holder outside `/auth` and a visitor without a token inside `/auth` always pass. |
| `Config.Load` | frontend/src/lib/config.ts:13-31 | Each string field takes its environment value when that is set and non-empty and its documented fallback otherwise; `geminiApiKey` falls back to none; `isProduction` holds exactly when `NODE_ENV` is `production`. |
| `Config.IsServiceConfigured` | frontend/src/lib/config.ts:34-49 | Outside production the API URL, database URI and JWT secret always count as configured; in production each counts exactly when it differs from its fallback; the Gmail code and Gemini key count exactly when set and non-empty; `isProduction` is never a configured service. |
| `Config.ConfigWarnings` | frontend/src/lib/config.ts:52-61 | The warnings the function prints are always none, for every configuration. |
| `Config.IntendedConfigWarnings` | frontend/src/lib/config.ts:52-61 | Outside production, the database warning appears exactly when the database URI is its fallback and the JWT warning exactly when the secret is its fallback; production prints nothing; no other text is printed, none twice, and the database warning comes first. |
| `Config.WarningsSilencedInDevelopment` | frontend/src/lib/config.ts:13-61 | With no environment set, both intended warnings apply, yet the written function prints none. |
| `Js.IncludesMeansOccurs` | frontend/src/lib/api.ts:47 | The scanning `includes` holds exactly when the needle occurs at some position of the string. |
| `Js.ToJsStringReadsBack` | frontend/src/context/AuthContext.tsx:89-92 | `String(token)`, which `setItem` stores, keeps a string token as it is, writes a number as decimal text that reads back as that number, and writes booleans and objects as their fixed names. |
| `Api.DecoratedJsonIsJson` | frontend/src/lib/api.ts:46-51 | Any content type that contains `application/json`, such as one with a charset parameter, is read as JSON. |
| `Api.BuildHeaders` | frontend/src/lib/api.ts:18-36 | `Content-Type` is always present, the caller's value if given and `application/json` otherwise; with authentication required and a non-empty token stored, `Authorization` is `Bearer <token>` over any caller value; otherwise the caller's headers pass unchanged and no other header is added. |
| `Api.Send` | frontend/src/lib/api.ts:14-42 | The URL is the configured base followed by the endpoint; method and body are the caller's; the headers are the assembled ones. |
| `Api.AuthenticatedCallsCarryToken` | frontend/src/lib/api.ts:23-36 | For a call requiring authentication with no caller headers, as every wrapper's call is, the request carries `Authorization` exactly when a non-empty token is stored, and then it is `Bearer <token>`; without a token the request is still sent. |
| `Api.ErrorMessage` | frontend/src/lib/api.ts:54-58 | The error message is a string body itself, else the body's truthy `message`, else `API request failed`; a `null` body makes the message read throw. |
| `Api.Receive` | frontend/src/lib/api.ts:38-62 | A completion returns exactly when a response arrived with status 200-299 and a readable body, and then returns its payload (`Payload`: the JSON value when `IsJsonType` finds `application/json` in the content type, the text otherwise); a rejected fetch, an unparsable JSON body and a non-ok status each throw their own failure, the last carrying message, status and body. |
| `Api.Recover` | frontend/src/lib/api.ts:63-73 | Offline, any failure becomes the offline sentinel; online, failures are rethrown unchanged and results pass. |
| `Api.FetchWithAuth` | frontend/src/lib/api.ts:8-74 | A successful request returns its payload; a failed one returns the sentinel offline, including an HTTP error, and throws online. |
| `Api.OfflineHttpErrorIsSentinel` | frontend/src/lib/api.ts:54-73 | An error status received while offline yields the sentinel, not an error. |
| `Api.Shield` | frontend/src/lib/api.ts:83-91 | A wrapper returns the payload of a successful request, its fallback when the request failed online, and the sentinel when it failed offline; it never throws. |
| `Api.AuthLogin` | frontend/src/lib/api.ts:82-92 | The login wrapper settles to the payload, the `Login failed. Please try again.` envelope, or the sentinel. |
| `Api.AuthRegister` | frontend/src/lib/api.ts:94-104 | The registration wrapper settles to the payload, its `success: false` envelope, or the sentinel. |
| `Api.SignInSendsNoCredential` | frontend/src/lib/api.ts:84-99 | Login and registration requests never carry `Authorization`, whatever token is stored. |
| `Api.AuthGetProfile` | frontend/src/lib/api.ts:106-113 | The profile wrapper settles to the payload, the `Failed to load profile` envelope, or the sentinel. |
| `Api.SubjectsGetAll` | frontend/src/lib/api.ts:118-126 | The subjects wrapper settles to the payload, the envelope with an empty `data` list, or the sentinel. |
| `Api.ChaptersGetBySubject` | frontend/src/lib/api.ts:131-139 | The chapters wrapper settles to the payload, the envelope with an empty `data` list, or the sentinel. |
| `Api.ChaptersGetContent` | frontend/src/lib/api.ts:141-152 | The content wrapper settles to the payload, the envelope with empty `theory` and `examples`, or the sentinel. |
| `Api.ChaptersGetQuestions` | frontend/src/lib/api.ts:154-161 | The questions wrapper settles to the payload, the envelope with an empty `data` list, or the sentinel. |
| `Api.ProgressGetDashboard` | frontend/src/lib/api.ts:188-206 | The dashboard wrapper settles to the payload, the zeroed dashboard envelope, or the sentinel. |
| `Api.FallbacksReportFailure` | frontend/src/lib/api.ts:88-205 | Every fallback envelope has `success: false`; the session fallback also has `localSaved: true`. |
| `Api.DashboardFallbackIsEmpty` | frontend/src/lib/api.ts:193-204 | The dashboard fallback has an empty `recentActivity` and zero `questionsAttempted`, `correctAnswers` and `streak`. |
| `Api.Stamped` | frontend/src/lib/api.ts:177 | A queued entry has every field of the payload except an old `timestamp`, plus `timestamp` set to the capture time, and no other field. |
| `Api.ProgressSaveSession` | frontend/src/lib/api.ts:166-186 | A request that fails online appends exactly one stamped entry to the end of the stored queue, leaves the earlier entries and their order as they were, and returns the `localSaved` envelope; a success or an offline failure leaves the queue unchanged; the stored token is never touched. |
| `Session.Initial` | frontend/src/context/AuthContext.tsx:39-41 | The provider starts with no user, loading on and no error, over the token already stored. |
| `Session.CheckAuthStep` | frontend/src/context/AuthContext.tsx:45-76 | The mount check always ends with loading off and the error unchanged; without a token nothing else changes; with one, an accepted profile (`ProfileAccepted`: `success` and `data` both truthy) becomes the user and the token stays, and any other profile (also one that throws on reading) removes the token and leaves the user. |
| `Session.SignInStep` | frontend/src/context/AuthContext.tsx:82-127 | A sign-in succeeds exactly when the response's `success` and `token` are truthy; then the state is the old one with that token stored as `String(token)` (`ToJsString`), its `user`, no error and loading off; otherwise user and token are unchanged and the error is the response's `message` or the default, or the TypeError's message when the response has no fields. |
| `Session.LoginStep` | frontend/src/context/AuthContext.tsx:82-103 | A login succeeds exactly when the response's `success` and `token` are truthy; a successful one stores `String(token)` of the response's token and shows its user; a failed one writes no token, keeps the user and, without a message, reports `Login failed`; loading is off at the end. |
| `Session.RegisterStep` | frontend/src/context/AuthContext.tsx:106-127 | The same contract as login, success condition included, with the default `Registration failed`. |
| `Session.LogoutStep` | frontend/src/context/AuthContext.tsx:130-133 | Logout removes the stored token, sets `user` to `null`, and keeps `loading` and `error`. |
| `Session.AuthProvider.constructor` | frontend/src/context/AuthContext.tsx:38-41 | A new provider is in the initial state over its storage. |
| `Session.AuthProvider.IsAuthenticated` | frontend/src/context/AuthContext.tsx:142 | `isAuthenticated` is the truthiness of `user`. |
| `Session.AuthProvider.CheckAuth` | frontend/src/context/AuthContext.tsx:45-76 | Updating the fields step by step ends in the state the mount check specifies; the pending queue is untouched. |
| `Session.AuthProvider.SignIn` | frontend/src/context/AuthContext.tsx:82-127 | The shared body of login and registration ends in the state and result the sign-in step specifies. |
| `Session.AuthProvider.Login` | frontend/src/context/AuthContext.tsx:82-103 | Ends in the state and result of the login step; the pending queue is untouched. |
| `Session.AuthProvider.Register` | frontend/src/context/AuthContext.tsx:106-127 | Ends in the state and result of the registration step; the pending queue is untouched. |
| `Session.AuthProvider.Logout` | frontend/src/context/AuthContext.tsx:130-133 | Ends in the logout state; the pending queue is untouched. |
| `Session.MountSettles` | frontend/src/context/AuthContext.tsx:39-76 | After the mount check from the initial state, loading is off, there is no error, and a usable token is kept exactly when a user is shown. |
| `Session.SignInKeepsAgreement` | frontend/src/context/AuthContext.tsx:89-133 | Logout, every failed sign-in (whatever its response carries), and successful ones whose response has a string token and a truthy user keep the token and the user in agreement. |
| `Session.SignInWithoutUserSplitsTokenAndUser` | frontend/src/context/AuthContext.tsx:89-92 | A response with `success` and `token` but no `user` makes login succeed and store the token while nobody is shown. |
| `Session.FailedAttemptIsForgotten` | frontend/src/context/AuthContext.tsx:82-103 | After a failed login, a second attempt ends exactly as if it were the first. |
| `Session.FailedRegistrationIsForgotten` | frontend/src/context/AuthContext.tsx:106-127 | After a failed registration, a second attempt ends exactly as if it were the first. |
| `Session.FailedProfileRemovesToken` | frontend/src/context/AuthContext.tsx:61-72 | When the profile request fails, online or offline, the mount check removes the stored token. |
| `Session.FailedLoginRequestStoresNothing` | frontend/src/context/AuthContext.tsx:87-95 | When the login request fails, login stores nothing, keeps the user, and reports `Login failed. Please try again.` online or `Login failed` offline. |

## Left out

- The server-side branches guarded by `typeof window === 'undefined'` (frontend/src/lib/api.ts:25,175 and frontend/src/context/AuthContext.tsx:48-51): the model runs in a browser, where `window` and `navigator` exist.
- Real `fetch`, `response.json()`/`text()`, `JSON.stringify`/`JSON.parse`, `navigator.onLine`, `localStorage` and `Date.now()`: they are parameters or fields. Request bodies are kept as the value before `JSON.stringify`, and `pendingSessions` as the list its JSON text encodes; a stored text that does not parse, a stored text that parses to something other than an array (whose `push` throws out of `saveSession`'s `catch`), and a `setItem` that throws, are not modelled.
- `Api.ProgressSaveSession` and `Api.Stamped`: the session payload is an object (`map<string, Value>`), while the code accepts any value; what `{...sessionData, timestamp}` makes of `null`, a string or an array (only `timestamp`, or index keys) is not modelled. The queued entry also keeps fields whose value is `undefined`, which `JSON.stringify` would drop from the stored text.
- A `text()` that rejects is not modelled; only `json()` can fail to read the body.
- Numbers are unbounded integers, while JavaScript numbers are doubles: fractions, `NaN` and infinities are not modelled, integers beyond 2^53 do not lose precision here, and `String(n)` stays plain decimal where JavaScript switches to exponent form from 1e21. No behaviour of the client depends on either.
- Default arguments (`options = {}` and `requiresAuth = true` of `fetchWithAuth`, `difficulty = 1` of `getQuestions`) are explicit parameters of the model's calls; a caller that omits them corresponds to passing the default.
- `Api.Receive`: the thrown error keeps the chosen message as a value; the string conversion `new Error(...)` applies to it is not modelled, because nothing in the code reads that message back.
- Caller headers are a plain object with exact-case names; `Headers` instances, header arrays and case-insensitive merging are not modelled.
- Property reads see an object's own fields only; built-in properties such as `length` are not modelled, since the code reads none of them. The TypeError text follows the V8 engine's wording.
- The full regular-expression semantics of the middleware matcher are reduced to a test of the path's leading `/` and the excluded prefixes after it (with `.` matching any character); the `.*` tail accepts any rest.
- The redirect URL is built against the request's origin; the model keeps only its path.
- React rendering, `useEffect` scheduling, batching of state setters and the context plumbing; the `loading: true` state while a sign-in is awaited, and overlapping sign-ins, are interleavings and not modelled: each transition runs to its end.
- `console.*` logging.
- backend/src/index.js (middleware registration, database connection, listen, error handler) and the page and layout components: plumbing and markup.

## Findings

| source | as written | input that shows it | evidently intended | confidence | as-written member | corrected member |
|---|---|---|---|---|---|---|
| frontend/src/lib/config.ts:52-60 | `logConfigWarnings` only checks outside production, where `isServiceConfigured` returns true for the database URI and the JWT secret, so neither warning is ever printed | no `MONGODB_URI`, `JWT_SECRET` or `NODE_ENV` set: both fallbacks are in use and nothing is printed | outside production, warn when the database URI or the JWT secret is still its development fallback | medium, not executed | `Config.ConfigWarnings` (with `Config.WarningsSilencedInDevelopment`) | `Config.IntendedConfigWarnings` |
