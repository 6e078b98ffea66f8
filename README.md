# Authentication core of an Express/React application, modelled in Dafny

The application pairs an Express API server with a React client that uses a
query cache. Its decision logic is small and sequential, and this project
models all of it:

- **Server identity resolution and guards** (`middleware.dfy`, module
  `Middleware`). `getUserFromRequest` takes an identity from a verified
  `Bearer` token, or else from a session with a truthy `userId`, or else finds
  none. The bearer test follows the scheme of section 2.1 of RFC 6750, but it
  is case-sensitive and wants exactly one space. Four guards turn that identity
  into "call `next` with `req.user` attached" or a 401/403 JSON response
  (sections 15.5.2 and 15.5.4 of RFC 9110). The inactivity guard refreshes or
  destroys a `Session` object. `verifyToken` and the server's `hasPermission`
  are passed in as function values.
- **Client request wrapper** (`query_client.dfy`, module `QueryClient`).
  `throwIfResNotOk` picks an error message through a chain of `||` and nested
  `try`/`catch`. `apiRequest` decides the headers and body it sends. The query
  function handles the 401 short-circuit and builds its URL by joining the
  query key with `"/"`. `fetch` and `JSON.parse` are parameters.
- **Client auth context** (`auth.dfy`, module `Auth`). `hasPermission` is a
  lookup in the user's own permission map. The `AuthProvider` class holds the
  user, the token slot and the cache operations issued so far. Each of the
  sync effect and the login, register and logout success handlers is a method
  on it.
- **Server entry** (`server_entry.dfy`, module `ServerEntry`). It covers log-line
  building and truncation to 80 characters, the error handler's fallbacks, and
  the `routesRegistered` flag, which makes route setup happen once.
- `js.dfy` (module `Js`) holds the JavaScript notions the others share:
  `undefined` as `Option`, thrown errors, truthiness, `||` and `startsWith`.

Some behaviour an authentication layer often has is absent from the code, and
the model does not add it:

- `apiRequest` adds no `Authorization` header.
- There is no client-side handling of `INACTIVITY_TIMEOUT` or of a 401
  (no token clear, no redirect).
- The `/api/auth/me` query keeps the default `on401: "throw"`. So for that query
  a 401 is a query error, not a `null` result (`QueryClient.DefaultQueryFailsOn401`).
- The client `user` is separate React state that login and register set
  directly. It is not a projection of the cache.

JavaScript edge cases the model keeps:

- A JSON body of `null` makes `json.error` throw a TypeError, and the inner
  `catch` rethrows it.
- A parse error worded other than `"Unexpected token …"` (for example
  `"Unexpected end of JSON input"` for an empty body) is rethrown as it is.
- A server message that itself starts with `"Unexpected token"` is replaced by
  the raw body text.
- The inactivity guard treats a `lastActivity` of `0` as absent.

## Model

| member | source | states |
|---|---|---|
| `Middleware.BearerToken` | server/middleware.ts:5-7 | a token exists iff the header starts with exactly `"Bearer "`, and the header is that prefix followed by the token |
| `Middleware.BearerHeaderRoundTrip` | server/middleware.ts:6-7 | `"Bearer " + t` always yields the token `t` |
| `Middleware.BearerSchemeIsExact` | server/middleware.ts:6-7 | `"bearer …"` and a bare `"Bearer"` have no token; with two spaces, the second space belongs to the token |
| `Middleware.GetUserFromRequest` | server/middleware.ts:4-31 | no identity iff there is no verified token and no session user; `tokenIat` is present iff the token path was taken |
| `Middleware.VerifiedTokenWins` | server/middleware.ts:5-17 | a `Bearer` header whose token verifies yields the decoded claims' identity, `tokenIat` included, whatever session is present |
| `Middleware.FallsThroughToSession` | server/middleware.ts:5-28 | with no header, a wrong prefix or a failed verification, a session with a truthy `userId` yields its identity without `tokenIat` |
| `Middleware.NoCredentialsNoIdentity` | server/middleware.ts:20-30 | with neither a verified token nor a session user the result is null |
| `Middleware.Decide` | server/middleware.ts:33-72 | a guard passes iff it admits the identity (attach: always; auth: any identity; role: the role, or `''` when missing, is allowed; permission: `hasPermission` holds); it rejects with 401 `"Authentication required"` when there is no identity, before any 403; it rejects with 403 only for the role and permission guards, each with its own message |
| `Middleware.MissingRoleMatchesEmpty` | server/middleware.ts:49 | a caller with no role passes a role guard iff `""` is an allowed role |
| `Middleware.RoleGuardExamples` | server/middleware.ts:44-54 | `requireRole('Admin')` gives a Viewer 403, lets an Admin through, and gives 401 to a request with no identity |
| `Middleware.RequireAuth` | server/middleware.ts:33-40 | its outcome is the guard decision; `req.user` is set to the identity only when it calls `next`, and is otherwise unchanged |
| `Middleware.RequireRole` | server/middleware.ts:42-56 | the same, for the role guard |
| `Middleware.RequirePermission` | server/middleware.ts:58-72 | the same, for the permission guard |
| `Middleware.AttachUser` | server/middleware.ts:74-80 | it always calls `next`; `req.user` becomes the identity when one resolves and is otherwise unchanged |
| `Middleware.InactivityDecision` | server/middleware.ts:84-107 | only an Admin is skipped; expiry needs a truthy `lastActivity` more than 1,800,000 ms in the past; otherwise the session is refreshed |
| `Middleware.TimeoutBoundary` | server/middleware.ts:87-93 | exactly 30 minutes of inactivity refreshes the session; 30 minutes plus 1 ms expires it |
| `Middleware.NeverExpires` | server/middleware.ts:89-90 | an Admin session, or one whose `lastActivity` is missing or 0, never expires |
| `Middleware.ExpiryIsMonotone` | server/middleware.ts:91-93 | a session that has expired at some time stays expired at every later time |
| `Middleware.RefreshKeepsSessionAlive` | server/middleware.ts:90-106 | take a session refreshed at `now`: a later request expires it iff `now` is non-zero and more than 30 minutes have passed |
| `Middleware.InactivityExamples` | server/middleware.ts:87-106 | an Editor idle 31 minutes expires; an Editor idle 10 minutes is refreshed; an Admin is skipped |
| `Middleware.CheckInactivityTimeout` | server/middleware.ts:82-111 | on expiry it sends 401 `{error: 'Session expired due to inactivity', code: 'INACTIVITY_TIMEOUT'}`, destroys the session, skips `next` and leaves `lastActivity` alone; on refresh it sets `lastActivity := now` and calls `next`; with no session, no user or an Admin it changes nothing and calls `next` |
| `QueryClient.FirstTruthy` | client/src/lib/queryClient.ts:10 | the result is empty iff every candidate is; otherwise it is the first non-empty candidate |
| `QueryClient.FirstTruthyChain` | client/src/lib/queryClient.ts:10 | the chain over `json.error`, `json.message`, text and status text is the first truthy of the four |
| `QueryClient.InnerTry` | client/src/lib/queryClient.ts:8-10 | the inner `try` always throws: a parse failure as that SyntaxError, a `null` body as a TypeError whose message the inner `catch` keeps, and parsed JSON as an Error carrying the first truthy of `error`, `message`, text and status text |
| `QueryClient.InnerCatch` | client/src/lib/queryClient.ts:11-18 | an error whose message is non-empty and does not start with "Unexpected token" is rethrown as it is; any other becomes an Error with the text, or the status text when the text is empty; the result's message is empty only when all three are |
| `QueryClient.ThrowIfResNotOk` | client/src/lib/queryClient.ts:3-23 | it throws iff the response is not ok; a body-read error is rethrown unchanged; parsed JSON gives the first truthy of `error`, `message`, text and status text, unless that message starts with "Unexpected token", which gives text or status text; a parse error starting "Unexpected token" (or empty) gives text or status text; any other parse error, and the TypeError from a `null` body, are rethrown unchanged |
| `QueryClient.ErrorFieldWins` | client/src/lib/queryClient.ts:9-14 | a usable `error` field is exactly the thrown message |
| `QueryClient.UnexpectedTokenMessageIsReplaced` | client/src/lib/queryClient.ts:10-17 | a server message starting "Unexpected token" is replaced by the raw body text |
| `QueryClient.NonJsonBodyYieldsText` | client/src/lib/queryClient.ts:13-17 | a body failing to parse with "Unexpected token …" yields the text, or the status text when the text is empty |
| `QueryClient.EmptyBodyParseErrorEscapes` | client/src/lib/queryClient.ts:11-14 | an empty body whose parse error reads "Unexpected end of JSON input" is rethrown as that SyntaxError |
| `QueryClient.RequestInit` | client/src/lib/queryClient.ts:30-35 | the content type `application/json` and the JSON body are sent iff `data` is truthy; no other header is sent; credentials are always `"include"` |
| `QueryClient.ApiRequest` | client/src/lib/queryClient.ts:25-39 | it returns the very response iff that response is ok; otherwise it fails with what `throwIfResNotOk` throws; a rejected `fetch` propagates |
| `QueryClient.Join` | client/src/lib/queryClient.ts:47 | the join of no parts is empty; otherwise it is as long as the parts plus one separator between each neighbour, starts with the first part, and has the separator right after it when there is a second |
| `QueryClient.JoinAppend` | client/src/lib/queryClient.ts:47 | joining with one more key segment appends the separator and that segment |
| `QueryClient.QueryKeyUrl` | client/src/lib/queryClient.ts:47 | a one-element key such as `['/api/auth/me']` is the URL itself; two segments are joined by `"/"` |
| `QueryClient.ReadJson` | client/src/lib/queryClient.ts:56 | `res.json()` fails iff the body cannot be read or does not parse (the read error, or a SyntaxError with the parse message); a `null` body resolves to null and any other JSON to that JSON |
| `QueryClient.QueryFn` | client/src/lib/queryClient.ts:42-57 | a rejected `fetch` of the joined key propagates; with `returnNull`, a 401 resolves to null without raising; every other non-ok response fails with what `throwIfResNotOk` throws; an ok response resolves to its JSON body, to null for a `null` body, and fails with the SyntaxError of a body that does not parse or the error of one that cannot be read |
| `QueryClient.DefaultQueryFn` | client/src/lib/queryClient.ts:59-62 | the default query function treats a 401 like any other non-ok response: it fails with what `throwIfResNotOk` throws; a rejected `fetch` propagates; an ok response is read as `res.json()` |
| `QueryClient.DefaultQueryFailsOn401` | client/src/lib/queryClient.ts:59-62 | the default query function (`on401: "throw"`) fails on 401, where `returnNull` would give null |
| `Auth.HasPermission` | client/src/lib/auth.tsx:105-110 | true iff the user's permission map lists `action` under `resource` |
| `Auth.NoGrantWithoutEntry` | client/src/lib/auth.tsx:106-108 | false with no user, no permission map, or no entry for the resource |
| `Auth.GrantingAnAction` | client/src/lib/auth.tsx:107-109 | adding an action under a resource grants it and revokes nothing |
| `Auth.UseAuth` | client/src/lib/auth.tsx:97-103 | returns the context iff a provider is present; otherwise throws "useAuth must be used within an AuthProvider" |
| `Auth.AppendKeepsOrder` | client/src/lib/auth.tsx:46-75 | the cache operations the handlers append keep every refetch right after an invalidation of the same key |
| `Auth.AuthProvider.constructor` | client/src/lib/auth.tsx:24 | the user starts as null and nothing has been issued on the cache |
| `Auth.AuthProvider.SyncUser` | client/src/lib/auth.tsx:33-39 | data sets the user; no data once loading is over clears it; no data while loading leaves it unchanged |
| `Auth.AuthProvider.OnLoginSuccess` | client/src/lib/auth.tsx:46-53 | stores the token iff it is truthy; sets the user to the reply; invalidates then refetches `/api/auth/me`, in that order |
| `Auth.AuthProvider.OnRegisterSuccess` | client/src/lib/auth.tsx:61-64 | sets the user to the reply and invalidates `/api/auth/me`; the token is untouched and no `refetchQueries` call is issued |
| `Auth.AuthProvider.OnLogoutSuccess` | client/src/lib/auth.tsx:71-75 | clears the token and the user, and clears the whole cache |
| `ServerEntry.Truncate` | api/index.ts:28-30 | at most 80 characters; a line of 80 or fewer is unchanged; a longer one keeps its first 79 characters and ends in an ellipsis |
| `ServerEntry.TruncateIdempotent` | api/index.ts:28-30 | truncating an already-truncated line changes nothing |
| `ServerEntry.DecimalDigits` | api/index.ts:23 | the status and duration print as decimal digits with no leading zero, and those digits read back as the number |
| `ServerEntry.LogEntry` | api/index.ts:23-26 | the line starts with the method and the path, each followed by a space, and ends with `" :: "` and the JSON when a truthy body was captured, and with `ms` otherwise |
| `ServerEntry.CapturedBodySuffix` | api/index.ts:23-26 | the line gains `" :: " + JSON` only when a truthy JSON body was captured |
| `ServerEntry.RequestLogger.constructor` | api/index.ts:10-12 | a request's logger remembers its start time, its method and its path, and has captured no body yet |
| `ServerEntry.RequestLogger.Json` | api/index.ts:15-18 | the last body passed to `res.json` is the captured one |
| `ServerEntry.RequestLogger.OnFinish` | api/index.ts:20-34 | a line is produced iff the path starts with `/api`, and it is the truncated log entry |
| `ServerEntry.HandleError` | api/index.ts:47-49 | status is `err.status`, else `err.statusCode`, else 500, and never 0; message is `err.message`, else "Internal Server Error" |
| `ServerEntry.App.constructor` | api/index.ts:5-40 | the app starts with the JSON and URL-encoded body parsers and the logger installed, `routesRegistered` false and `server` null, which is a valid state (no routes, no error handler) |
| `ServerEntry.App.SetupRoutes` | api/index.ts:42-61 | once setup has completed, later calls change nothing; a completed first call adds the route layers once and sets the flag; a rejected `registerRoutes` leaves the flag unset, so the next call tries again |
| `ServerEntry.App.Handler` | api/index.ts:63-66 | the app serves the request iff setup has completed; once completed, nothing changes; on a first call it serves iff `registerRoutes` resolves, and then the server and the added route layers are those of that call, while a rejection changes nothing |
| `ServerEntry.AtMostOneErrorHandler` | api/index.ts:39-61 | in every valid app state there is exactly one error handler once routes are registered and none before |

## Left out

- Network, streams and parsing: `fetch`, `res.text()`, `res.json()` and `JSON.parse` are function parameters or datatypes. `JSON.stringify` is a text carried with each value (`JsValue.json`).
- `verifyToken` and the server-side `hasPermission` come from `server/auth`, which is not part of this model. They are parameters.
- `setAuthToken`/`clearAuthToken` are imported from `./queryClient` (client/src/lib/auth.tsx:3), but the `queryClient.ts` modelled here does not define them; what they store is not part of this model. The token store is one slot, `AuthProvider.token`.
- The query cache itself: the provider records `invalidateQueries`, `refetchQueries` and `clear` as operations in issue order, and what the cache then fetches or holds is not modelled. In particular an invalidation also refetches the matching queries that are active (the current-user query is, while the provider is mounted); the operation log does not record that refetch.
- React and React Query internals: rendering, context, hook scheduling, the mutation and query machinery, and `await` between the two cache calls of login. The login reply's `token` property, which the JavaScript user object keeps, is not carried into `User`.
- Express plumbing: body parsers, `express.static`, `sendFile`, the `res.json` monkey-patch as such and the `finish` event. The route table is one `ApiRoutes` layer. A `registerRoutes` that rejects is assumed to have added nothing.
- `session.destroy`'s callback and all `console` output are side effects only. The destroyed session is a flag on `Session`. `Date.now()` is the parameter `now`.
- Concurrency: interleaved `setupRoutes` calls across its `await`, and races between requests over `lastActivity`.
- Values are typed more narrowly than in JavaScript. Identity and session fields are strings, and a missing `userId` is `""`. `error`/`message` in a JSON body are strings, so a truthy non-string value such as a number is not modelled. Status numbers are integers without NaN.
- `Auth.HasPermission`: resource names that hit `Object.prototype` properties (such as `"toString"`) are not modelled. In JavaScript they make `includes` throw.
- String lengths count `char`s, not UTF-16 code units. Number-to-string formatting is modelled for integers only.
