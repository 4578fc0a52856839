# Movie-matching web client: router guard and API access layer

This project models the two pieces of the single-page client that decide who is
signed in and what reaches the backend:

- the **router** (`src/router/index.ts`): the static route table and the global
  `beforeEach` guard that sends signed-out users to `/login` and signed-in users
  away from the entry views;
- the **API access layer** (`src/services/api.ts`): the request interceptor
  that attaches `Authorization: Bearer <token>`, the response interceptor that
  ends the session on a 401 whose URL contains "/auth/token" or "/users/me"
  (among the wrappers, only login and the identity lookup, as long as the ids
  in their paths render as plain text), `authAPI.login`, and the `groupsAPI`/`moviesAPI` wrappers as the
  sequences of requests they issue.

Layout:

| file | module | contents |
|---|---|---|
| `options.dfy` | `Options` | `Option` |
| `text.dfy` | `Text` | `String.prototype.includes` (`Contains`), paths as joined slash-free segments, decimal rendering of integer ids |
| `storage.dfy` | `Storage` | the `authToken` entry of local storage and JavaScript truthiness of it |
| `router.dfy` | `Router` | route table, exact-path lookup, the guard, navigation with redirects |
| `requests.dfy` | `Requests` | request configurations, both interceptors, every wrapper's request, the wrappers as functions of the client state and a server |
| `policy.dfy` | `Policy` | which URLs the 401 handler treats as session URLs |
| `flows.dfy` | `Flows` | what each wrapper sends, in which order, and what a rejection does |
| `client.dfy` | `Client` | the client as an object (`ApiClient`) whose methods are proved to be the functions of `Requests`; the request draft whose headers the interceptor rewrites in place; the `data` argument of `updateGroup` that it writes into |
| `app.dfy` | `App` | the response interceptor and the guard together |

The backend is a parameter: a `Server` is a function from the request number
and the request as it left the client to the reply (a status and a JSON object,
or no response). The client state is the token slot, a flag recording that the
page was sent to `/login`, and the log of requests put on the wire. A Vue
record redirect (`/` to `/login`) is followed before the guard runs, as Vue
Router 4 does.

## Model

| member | source | states |
|---|---|---|
| Router.Guard | src/router/index.ts:46-56 | the guard's decision from the session state and `to.path`: '/login' for a signed-out user on any path but /login and /register, '/home' for a signed-in user on either of those two, no redirect otherwise |
| Router.BeforeEach | src/router/index.ts:46-47 | the guard as registered: it reads the token slot and nothing else, and decides by the token's truthiness |
| Router.Next | src/router/index.ts:8-56 | one step of resolving a navigation: a redirect record's target first, else the guard's redirect, else none (the navigation lands) |
| Router.Navigate | src/router/index.ts:8-56 | repeats those steps for at most a given number of redirects, giving the path where the navigation lands |
| Storage.IsAuthenticated | src/router/index.ts:47 | `!!localStorage.getItem('authToken')`: a token is stored and is not empty |
| Router.Lookup | src/router/index.ts:8-38 | lookup by exact path finds a record iff some record of the table has that path, and the record it finds has it |
| Router.RoutePathsDistinct | src/router/index.ts:8-38 | no two records of the route table share a path |
| Router.LookupTable | src/router/index.ts:8-38 | looking up the path of each declared record yields exactly that record |
| Router.GuardAgreesWithTable | src/router/index.ts:13-56 | for each view, a signed-out user is redirected to /login iff its `meta.requiresAuth` is true, and `requiresAuth` is false exactly on /login and /register |
| Router.SignedOutGuard | src/router/index.ts:49-51 | signed out: the guard returns '/login' iff the target is neither /login nor /register, and lets those two through |
| Router.SignedInGuard | src/router/index.ts:53-55 | signed in: the guard returns '/home' iff the target is /login or /register, and lets everything else through |
| Router.GuardTargets | src/router/index.ts:46-56 | the guard only ever redirects to /home (signed in) or /login (signed out) |
| Router.EmptyTokenSignedOut | src/router/index.ts:47 | an empty stored token counts as no token (`!!` truthiness) |
| Router.GuardNoLoop | src/router/index.ts:46-56 | the guard lets its own redirect target through, so it never redirects twice in a row |
| Router.NextByPath | src/router/index.ts:8-56 | one navigation step: only "/" is a redirect record (to /login), every other path is decided by the guard |
| Router.NavigateLands | src/router/index.ts:8-56 | every navigation settles within two redirects at the independently defined landing path: signed out, an entry view or /login; signed in, /home for "/" and the entry views, the target otherwise |
| Router.LandingIsFixed | src/router/index.ts:8-56 | at the landing path neither a redirect record nor the guard moves the navigation on |
| Router.RootLands | src/router/index.ts:9-12 | "/" ends at /login when signed out and at /home when signed in |
| Router.LandingView | src/router/index.ts:13-56 | a listed landing view shows the header iff signed in, and a signed-out user never lands on a view with `requiresAuth` |
| Storage.Removed | src/services/api.ts:82 | removing the token leaves the slot signed out |
| Requests.Template | src/services/api.ts:127 | the text `${v}` gives an id: the decimal numeral of an integer, a string as it is, "null", "undefined" |
| Requests.Truthy | src/services/api.ts:137 | JavaScript truthiness of an id (`!data.admin_id` is its negation): 0, "", null and undefined are falsy |
| Requests.MethodOf | src/services/api.ts:94-203 | the HTTP method of each wrapper's request (`api.post`, `api.get`, `api.patch`, `api.delete`) |
| Requests.PathSegments | src/services/api.ts:94-203 | the path of each wrapper's request, as the slash-separated segments of its literal or template |
| Requests.BodyOf | src/services/api.ts:94-203 | the payload of each wrapper's request: the login form fields, the JSON objects of register, createGroup, the group PATCH and addMemberToGroup, none otherwise |
| Requests.Request | src/services/api.ts:94-203 | the configuration a wrapper hands to axios: method, path, payload, and the content type (form-encoded for login, the instance's JSON default otherwise) |
| Requests.IsSessionUrl | src/services/api.ts:80-81 | a URL containing "/auth/token" or "/users/me" |
| Requests.EndsSession | src/services/api.ts:78-81 | a rejection with a response of status 401 whose request URL is a session URL |
| Requests.Send | src/services/api.ts:48-90 | one request: the interceptor authorizes it, the server answers, a 2xx resolves, anything else passes through the error handler and rejects with the same error |
| Requests.IdentityFirst | src/services/api.ts:117-123 | `getGroups`, `leaveGroup` (150-156), `getFavorites` and `removeFromFavorites` (190-199): GET /users/me, then the request scoped to its `user_id` only when that resolved |
| Requests.UpdateGroup | src/services/api.ts:135-146 | `updateGroup`: fetch the group when `data.admin_id` is falsy and write its admin id into `data`, then PATCH name and admin id |
| Requests.Authorize | src/services/api.ts:48-53 | the interceptor keeps method, URL, body and content type, sets `Authorization` to "Bearer " + token when the token is truthy and headers exist, and otherwise leaves the config unchanged |
| Requests.OnError | src/services/api.ts:75-89 | a 401 whose URL contains "/auth/token" or "/users/me" removes the token and sends the page to /login; any other error changes nothing; the request log is untouched |
| Text.ContainsIffOccurs | src/services/api.ts:80-81 | the substring test holds iff the pattern occurs at some index of the URL |
| Text.MarkerIffAdjacent | src/services/api.ts:80-81 | for a path of slash-free segments, "/w/t" occurs in it iff some segment w is followed by a segment starting with t |
| Text.NatText | src/services/api.ts:127 | the decimal text of a number id is non-empty, all digits, without a leading zero |
| Text.NatTextRoundTrip | src/services/api.ts:127 | reading the decimal text of n back gives n |
| Text.IntTextInjective | src/services/api.ts:127 | distinct integer ids render to distinct path text |
| Policy.TemplatePlain | src/services/api.ts:127 | a number, null or undefined interpolated into a path renders only digits, '-' and letters of "null"/"undefined" |
| Policy.PlainFacts | src/services/api.ts:80-81 | such a rendered id is a slash-free segment that is neither "users" nor "auth" and starts with neither "me" nor "token" |
| Policy.MarkerInUrl | src/services/api.ts:80-81 | a session marker occurs in a wrapper's URL iff the URL's segments hold the marker's two segments in a row |
| Policy.SessionUrls | src/services/api.ts:78-84 | with every id rendering as plain text, a wrapper's URL is a session URL iff the request is `login` (POST /auth/token/) or the identity lookup (GET /users/me) |
| Policy.StringGroupIdEndsSession | src/services/api.ts:150-155 | `leaveGroup` accepts a string id, and group id "users" yields "/groups/users/members/7", which the 401 handler treats as a session URL |
| Policy.StringNumeralGroupIdKeepsSession | src/services/api.ts:150-155 | a string group id that reads as a number ("42") does not make `leaveGroup`'s DELETE a session URL |
| Flows.BearerRoundTrip | src/services/api.ts:48-53 | every wrapper's request carries an `Authorization` header iff the token is truthy, and the credential read back from it is exactly the stored token |
| Flows.OnErrorIdempotent | src/services/api.ts:78-84 | handling the same rejection twice has the effect of handling it once |
| Flows.SendContract | src/services/api.ts:48-90 | each request is logged once, as the interceptor left it; a 2xx resolves with the reply and leaves the session alone; anything else rejects with that very error, after clearing the session only when the error ends it |
| Flows.SingleSessionEffect | src/services/api.ts:78-88 | a single-request wrapper ends the session iff it is `login` or `getProfile` and the server answers 401; otherwise token and flag are unchanged |
| Flows.LoginRequest | src/services/api.ts:94-105 | `login` posts form fields email then password, form-encoded, to "/auth/token/" |
| Flows.AddToFavoritesIsLike | src/services/api.ts:185-189 | `addToFavorites(m)` issues the identical request to `likeMovie(m)` |
| Flows.IdentityFirstRequests | src/services/api.ts:117-123 | the two-step wrappers issue GET /users/me and, only if it resolves, the request scoped to its `user_id`, both with the same credential; a failed lookup rejects the wrapper with the lookup's error |
| Flows.LeaveIsRemoveSelf | src/services/api.ts:150-171 | the DELETE that `leaveGroup` builds from its own template is the identical request to the one `removeMemberFromGroup(groupId, own user id)` builds from its template |
| Flows.IdentityFirstSessionEffect | src/services/api.ts:150-156 | with ids that render as plain text (numbers, or strings such as "42"), a two-step wrapper ends the session iff the identity lookup gets 401; a 401 on the scoped request leaves it alone |
| Flows.ProfileUrl | src/services/api.ts:112 | the identity request goes to "/users/me" |
| Flows.LeaveUrl | src/services/api.ts:155 | leaving group 42 as user 7 targets "/groups/42/members/7" |
| Flows.LeaveGroupScenario | src/services/api.ts:150-156 | leaving group 42 when the server says the user is 7 issues exactly GET /users/me then DELETE /groups/42/members/7 |
| Flows.UpdateGroupFetchesAdmin | src/services/api.ts:135-146 | with a falsy `admin_id`, `updateGroup` GETs the group and, only if that resolves, PATCHes the name with the fetched admin id and writes it into `data`; a failed fetch rejects with its error and leaves `data` as it was |
| Flows.UpdateGroupDirect | src/services/api.ts:135-146 | with a truthy `admin_id`, `updateGroup` issues one PATCH with it and leaves `data` as it was |
| Flows.PatchBody | src/services/api.ts:142-145 | the PATCH goes to the group's own URL with a JSON body of exactly name then admin_id |
| Client.ApiClient.Intercept | src/services/api.ts:48-53 | rewrites the draft's headers in place into the authorized configuration |
| Client.ApiClient.OnRejected | src/services/api.ts:75-89 | updates token and flag as the error handler prescribes and rejects with the same error |
| Client.ApiClient.Send | src/services/api.ts:48-90 | the object's state and the outcome after one request are those of the request function on values |
| Client.ApiClient.Call | src/services/api.ts:107-112 | a single-request wrapper on the object behaves as the value model of that wrapper |
| Client.ApiClient.ForCurrentUser | src/services/api.ts:117-123 | `getGroups`, `leaveGroup`, `getFavorites`, `removeFromFavorites` on the object behave as the identity-first value model |
| Client.ApiClient.UpdateGroup | src/services/api.ts:135-146 | `updateGroup` on the object behaves as its value model, including the write into `data.admin_id`, and leaves `data.name` alone |
| App.SessionEndSignsOut | src/services/api.ts:80-83 | after a 401 on login or the identity lookup, every navigation lands on /login, or on /register when that was asked for |
| App.OtherFailuresKeepGuard | src/services/api.ts:85-88 | any failure of any other request leaves the guard deciding every navigation as before |

## Left out

- Transport: axios itself, the base address (`src/services/api.ts:1-41`), timeouts and network failures beyond "no response" are not modelled; the backend is a function parameter.
- Of the instance's default headers (`src/services/api.ts:42-44`) only the content type is modelled: every request but login carries `application/json`.
- Local storage and `window.location` are fields of the client object; the full page reload that the assignment to `window.location.href` starts is recorded only as the flag `forcedToLogin`.
- The debug `console.log` calls in the request interceptor and in `leaveGroup`/`addMemberToGroup` have no effect on requests and are left out.
- Requests.Template: renders integer numbers only; fractional numbers, `NaN`, `Infinity` and exponent notation of JavaScript number-to-text conversion are not modelled.
- Policy.SessionUrls: holds when every id renders as plain text (digits, '-', the letters of null/undefined); string ids that do not are outside it, and `Policy.StringGroupIdEndsSession` shows why.
- `encodeURIComponent` is not modelled: `searchMovies` takes the already encoded query, and the session result assumes it has no slash, which the encoding guarantees.
- JSON serialisation is not modelled: a body field whose value is `undefined` (the PATCH of `updateGroup` after a fetch without `admin_id`) is kept in the model's body, where `JSON.stringify` would drop it.
- Concurrency: wrappers are modelled one at a time; interleaving of concurrent promises is not modelled.
- Vue Router internals (`createRouter`, `createWebHistory`, component binding in `src/router/index.ts:1-7, 40-43`) are not modelled; views are identified by name, and only exact-path matching of the listed records is modelled.
- Router.LandingView: holds under exact-path matching only. Vue Router 4's default matcher also matches "/login/" and "/Login" to the Login view, while the guard compares `to.path` literally (`src/router/index.ts:49, 53`), so a signed-in user opening "/login/" is let through to the Login view, which shows no header; the model's `Lookup` does not capture that.
- Client.ApiClient.Call: the single-request wrappers are one method taking the request, rather than one method per wrapper.
