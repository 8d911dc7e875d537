# Client-side session of the PharmaAI front end, in Dafny

This project models the session logic of a Vue single-page application. It has three parts, and together they form one client-side session state machine:

- **Session store** (`src/stores/auth.js`). It holds `user`, `token` and `sessionWarningShown`, and mirrors the token in the `localStorage` record `auth_token`. It provides the getters `isAuthenticated`, `isAdmin`, `isDoctor`, `isResearcher` and `isAuditor`. Its operations are `login`, `signup`, `logout`, `fetchCurrentUser`, `showSessionWarning` and `hideSessionWarning`.
- **Route guard** (`src/router/index.js`). The route table is given as data, and its child routes inherit the layout route's `meta`. The `beforeEach` guard first hydrates the user when a token is present but no profile is loaded. It then applies a first-match-wins rule chain that returns `next()`, `next('/login')` or `next('/')`.
- **HTTP client adapter** (`src/services/api.js`). This covers the base-URL fallback, the request interceptor that adds `Authorization: Bearer <token>`, and the response interceptor. On a 401, the response interceptor removes `auth_token` and sends the browser to `/login`. Every rejection is propagated.

Modules:

- `Wrappers` holds `Option` and `Result`.
- `Api` holds the `Browser` object with `localStorage` and `href` fields, plus the interceptors.
- `AuthModel` holds the store as values: a `Session` datatype and one transition function per operation. The lemmas about them are here too.
- `AuthStore` holds class `Store`. Its fields are the store's refs, and each method is proved to perform the matching `AuthModel` transition on `State()`.
- `Router` holds the table, `Resolve`, the rule chain `Decide`, the whole navigation `Navigate`, and the method `BeforeEach`, which calls the store.

Every network call is a parameter holding its settled outcome:

- login and signup POST: `Result<string, ApiError>`;
- `GET /api/users/me`: `Result<Option<Profile>, ApiError>`;
- logout DELETE: `Result<(), ApiError>`.

This makes every operation deterministic. An `ApiError` keeps only what the code reads: `response?.status` and `response?.data?.status?.message`.

`fetchCurrentUser` calls `logout()` without awaiting it. Its teardown therefore runs only after the DELETE request settles, which is after `fetchCurrentUser`, `login` or the guard has returned. The model records this as a pending teardown: `Session.pendingTeardowns`, or `Store.pendingTeardowns` in the class. The separate step `CompletePendingLogout` performs it. As a result, the guard decides on the old token after a failed hydration (`Router.FailedHydrationKeepsToken`). Likewise, a login whose profile fetch fails returns success with the token in place, and the session is cleared later (`AuthModel.LoginWithFailedFetch`).

## Model

| member | source | states |
|---|---|---|
| `Api.BaseUrl` | src/services/api.js:4 | The base URL is never empty. It is the configured value when that value is a non-empty string, and `http://localhost:3000` otherwise. |
| `Api.GetItem` | src/services/api.js:12 | Reading storage yields a value exactly when the key is present, and that value is the stored string. |
| `Api.Authorize` | src/services/api.js:12-16 | When the stored token is truthy, `Authorization` becomes `"Bearer " + token` and that key is the only one added. Otherwise the headers are returned unchanged. Every other header keeps its presence and its value. |
| `Api.InterceptRequest` | src/services/api.js:10-17 | The config is mutated in place: only its `headers` field changes, and it becomes `Authorize` of the old headers and the stored `auth_token`. The same config object is returned. |
| `Api.InterceptResponse` | src/services/api.js:23-32 | The outcome is returned unchanged, whether it was a response or a rejection. A rejection with status 401 removes `auth_token` and leaves the other keys alone, and it sets the location to `/login`. Any other outcome, including a rejection with no response, leaves storage and location unchanged. |
| `AuthModel.Initial` | src/stores/auth.js:6-8 | The initial state has no user, the warning hidden and no pending teardown. Its token is the stored `auth_token` when that is a non-empty string. Otherwise the token is absent, including when storage holds an empty string. So the state is authenticated exactly when storage holds a truthy token. The state satisfies write-through. |
| `AuthModel.ErrorMessage` | src/stores/auth.js:28-31 | The message is the server's `status.message` when that is present and non-empty, and the fallback otherwise. It is never empty when the fallback is not. |
| `AuthModel.FetchCurrentUser` | src/stores/auth.js:66-76 | The result is true exactly on a resolved GET, and then the user is replaced wholesale by the returned profile. On a rejection the result is false, the user is kept and one teardown becomes pending. The token, storage and warning flag never change. |
| `AuthModel.Teardown` | src/stores/auth.js:59-63 | User, token and stored record are all cleared, so the state is unauthenticated and write-through. |
| `AuthModel.Authenticate` | src/stores/auth.js:16-33 | The operation succeeds exactly when the POST resolves. On success the result is `{success:true}`, both the token and `auth_token` equal the returned token, and the warning flag is kept. If the profile fetch then resolves, the user is the returned profile and no teardown is added. If it rejects, the user is kept and one teardown becomes pending. On a rejected POST the state is unchanged and the result is `{success:false}` carrying `ErrorMessage` with the given fallback. |
| `AuthModel.Login` | src/stores/auth.js:16-33 | A resolved POST returns exactly `{success:true}`, with no error, and sets both the token and `auth_token` to the returned token. It keeps the warning flag. After a resolved profile fetch the user is the returned profile. After a rejected one the user is kept and one teardown is pending. A rejected POST leaves the state unchanged, with failure and a non-empty error. That error is the server's message if present, and `'Login failed'` otherwise. |
| `AuthModel.Signup` | src/stores/auth.js:35-52 | Behaves like `Login`, with the same token, user, teardown and warning-flag outcomes, and with fallback `'Signup failed'`. |
| `AuthModel.Logout` | src/stores/auth.js:54-64 | Whatever the DELETE outcome, user, token and `auth_token` are cleared and the session is unauthenticated. The warning flag and the pending teardowns are kept. |
| `AuthModel.CompletePendingLogout` | src/stores/auth.js:59-75 | When a teardown started by a failed fetch is pending, completing it clears user, token and `auth_token` and removes one pending teardown. With none pending the state is unchanged. |
| `AuthModel.ShowSessionWarning` | src/stores/auth.js:78-80 | The flag is true afterwards, and the state is otherwise identical. |
| `AuthModel.HideSessionWarning` | src/stores/auth.js:82-84 | The flag is false afterwards, and the state is otherwise identical. |
| `AuthModel.RolesExclusive` | src/stores/auth.js:11-14 | At most one role getter is true, and all are false when there is no user. |
| `AuthModel.TogglesAndLogoutIdempotent` | src/stores/auth.js:54-84 | Logging out twice equals logging out once. Showing twice equals showing once, and hiding twice equals hiding once. |
| `AuthModel.StepKeepsWriteThrough` | src/stores/auth.js:16-84 | Every store operation preserves write-through. |
| `AuthModel.RunKeepsWriteThrough` | src/stores/auth.js:16-84 | Any sequence of store operations preserves write-through: the store is authenticated exactly when the stored token is truthy, and then the two tokens are equal. The proof is by induction. |
| `AuthModel.ReachableWriteThrough` | src/stores/auth.js:6-84 | Every state reachable from the initial state satisfies write-through. |
| `AuthModel.LoginWithFailedFetch` | src/stores/auth.js:16-76 | A resolved login whose profile fetch fails still returns success with an authenticated token and one pending teardown. Once that teardown completes, the session is unauthenticated and both user and storage are empty. |
| `AuthModel.AllTeardownsSettle` | src/stores/auth.js:59-75 | Once all pending teardowns have been completed, none remains and user, token and `auth_token` are cleared. |
| `AuthModel.RequestCarriesStoreToken` | src/services/api.js:12-15 | In a write-through state, the request interceptor sends `Bearer <store token>` exactly when the store is authenticated, and leaves the headers untouched otherwise. |
| `AuthStore.Store.constructor` | src/stores/auth.js:6-8 | A new store is in the state `AuthModel.Initial` of the stored `auth_token`. |
| `AuthStore.Store.IsAuthenticated` | src/stores/auth.js:10 | The session is authenticated exactly when the token is present and non-empty. |
| `AuthStore.Store.IsAdmin` | src/stores/auth.js:11 | True exactly when a user is loaded and its role is `'admin'`. |
| `AuthStore.Store.IsDoctor` | src/stores/auth.js:12 | True exactly when a user is loaded and its role is `'doctor'`. |
| `AuthStore.Store.IsResearcher` | src/stores/auth.js:13 | True exactly when a user is loaded and its role is `'researcher'`. |
| `AuthStore.Store.IsAuditor` | src/stores/auth.js:14 | True exactly when a user is loaded and its role is `'auditor'`. |
| `AuthStore.Store.FetchCurrentUser` | src/stores/auth.js:66-76 | The store's state and the returned flag are those of `AuthModel.FetchCurrentUser`. |
| `AuthStore.Store.ClearSession` | src/stores/auth.js:59-63 | The new state is `AuthModel.Teardown`, and no other storage key changes. |
| `AuthStore.Store.Authenticate` | src/stores/auth.js:16-33 | The new state and the result are those of `AuthModel.Authenticate`, and no other storage key changes. |
| `AuthStore.Store.Login` | src/stores/auth.js:16-33 | The new state and the result are those of `AuthModel.Login`, and no other storage key changes. |
| `AuthStore.Store.Signup` | src/stores/auth.js:35-52 | The new state and the result are those of `AuthModel.Signup`, and no other storage key changes. |
| `AuthStore.Store.Logout` | src/stores/auth.js:54-64 | The new state is `AuthModel.Logout` whatever the DELETE outcome, and no other storage key changes. |
| `AuthStore.Store.CompletePendingLogout` | src/stores/auth.js:59-75 | The new state is `AuthModel.CompletePendingLogout`, and no other storage key changes. |
| `AuthStore.Store.ShowSessionWarning` | src/stores/auth.js:78-80 | Only the flag changes, as in `AuthModel.ShowSessionWarning`. |
| `AuthStore.Store.HideSessionWarning` | src/stores/auth.js:82-84 | Only the flag changes, as in `AuthModel.HideSessionWarning`. |
| `Router.ChildTargets` | src/router/index.js:17-79 | Each child route resolves to its joined path and name. Its meta is the parent's meta overlaid with its own. |
| `Router.FirstMatch` | src/router/index.js:82-85 | The returned index is the first route with the given path, or the table's length when no route has it. |
| `Router.JoinRootInjective` | src/router/index.js:18-23 | Two child paths joined onto `/` give the same absolute path only when they are equal. |
| `Router.RouteTableLeaves` | src/router/index.js:4-80 | The matchable routes are `/login`, then `/signup`, then the ten children of `/` in order, each with its joined path and merged meta. |
| `Router.ChildPathsDistinct` | src/router/index.js:21-78 | The children of `/` have pairwise distinct paths, and none is `login` or `signup`. |
| `Router.TablePathsDistinct` | src/router/index.js:4-80 | No two routes in the table have the same absolute path. |
| `Router.EveryRouteResolvesToItself` | src/router/index.js:4-85 | Navigating to any route's own path resolves to that route, with its name and merged meta. |
| `Router.DoctorAdminUsersGoesHome` | src/router/index.js:43-98 | The `/admin/users` route (lines 43-46) asks for admin, so the guard's admin rule (lines 97-98) applies: a user with role `doctor` who is authenticated and navigates to `/admin/users` is redirected to `/`. |
| `Router.Resolve` | src/router/index.js:4-85 | The resolved target carries the path navigated to. It is one of the table's routes, or else no route has that path and the target has no name and an empty meta. |
| `Router.Decide` | src/router/index.js:95-105 | The decision is exactly one of allow, redirect to `/login` or redirect to `/`. A redirect to `/login` happens exactly when the route requires auth and the session is unauthenticated. The navigation is allowed exactly when every rule passes: the auth rule; the admin rule, which needs role admin; the auditor rule, which admits admin or auditor; and the rule against an authenticated visit to `/login`. An authenticated admin is allowed everywhere except `/login`. |
| `Router.Navigate` | src/router/index.js:87-106 | Hydration through `fetchCurrentUser` happens exactly when the session is authenticated with no user, and otherwise the state is unchanged. The token and storage never change during a navigation. The decision is `Decide` on the token found and the user after hydration. |
| `Router.BeforeEach` | src/router/index.js:87-106 | The store's new state and the decision are those of `Navigate` on the store's old state. |
| `Router.ResolveLandingPages` | src/router/index.js:4-26 | `/login` resolves to the table's `Login` route with `requiresAuth: false`. `/` resolves to the `Dashboard` child, whose meta is the inherited `{requiresAuth: true}` alone. |
| `Router.LeavesGuarded` | src/router/index.js:17-79 | If every record is guarded, every resolvable route is guarded: a role requirement implies `requiresAuth`. |
| `Router.ResolvedGuarded` | src/router/index.js:4-80 | For every path, the resolved meta asks for auth whenever it asks for admin or auditor. |
| `Router.RedirectTargetsAllowed` | src/router/index.js:95-105 | For every path and session, the target of a redirect is itself allowed under the same session. |
| `Router.UnauthenticatedRoleRouteGoesToLogin` | src/router/index.js:95-100 | An unauthenticated navigation to an admin or auditor route goes to `/login`, never to `/`. |
| `Router.AuthenticatedLoginGoesHome` | src/router/index.js:101-102 | An authenticated navigation to `/login` redirects to `/`, whatever the user. |
| `Router.LayoutRoutesProtected` | src/router/index.js:17-79 | Every route after the two public pages is a layout child, and each one carries `requiresAuth: true`. |
| `Router.MatchedRoutesProtected` | src/router/index.js:17-79 | Every matched route except `/login` and `/signup` requires auth, so an unauthenticated navigation to one redirects to `/login`. |
| `Router.FailedHydrationKeepsToken` | src/router/index.js:90-105 | When hydration fails, the guard still sees an authenticated token. It allows a route without a role or login rule, and the fetch's teardown stays pending. |

## Left out

- Networking, axios, Pinia and Vue reactivity are left out. Each request's settled outcome is supplied as a parameter, so request bodies (credentials, signup data) do not appear.
- Async interleaving is left out. Operations run one at a time. The only deferred effect modelled is the un-awaited logout inside `fetchCurrentUser`. Races between overlapping logins and hydrations are not modelled.
- Composition of the store with the response interceptor is left out. Composed, a login rejected with 401 would also remove `auth_token` and set the location. The store model treats each outcome as already received.
- The DELETE requests of the pending logouts are left out. They pass through the response interceptor too, which the model does not compose.
- The interceptor's effect on the store is left out. `InterceptResponse` clears storage only and leaves the store's in-memory `token` set, because the store reads storage only when it is created. The write-through invariant is stated for store operations, and a 401 breaks it.
- The request interceptor's error handler (src/services/api.js:18-20) only re-rejects its argument. No other interceptor precedes it, so it is not modelled.
- `console.error` logging (src/stores/auth.js:58, 72) is not modelled. `window.location.href` is only recorded as a string, not performed as a navigation.
- Malformed success payloads are folded into the rejection outcome. In the source, a missing `data.data` throws inside `try` and falls back to the generic message. Non-string server messages and values are not modelled.
- vue-router internals are reduced to a simplification:
  - only leaf records are matched;
  - the parent's `meta` is merged with the child's by map union, with the child winning;
  - paths are matched exactly. vue-router's case-insensitive and trailing-slash matching, params and query strings are not modelled.
- Lazy component imports and the CRUD service objects (src/services/api.js:36-130) are left out.
- Route components are not modelled: the records carry no component field. Route names are carried in the table as data.
