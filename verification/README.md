# Session and role resolution in Dafny

A model of how the campus portal decides who is signed in and with which
roles. Three pieces of code are modelled, each as pure functions over
immutable data:

- **The client session provider** (`AuthProvider`). This is a reducer over the state
  `{user, session, roles, loading}`. It reacts to these events:
  - the `getSession` result;
  - auth-state events;
  - completion of the roles fetch;
  - the 5-second safety timer;
  - `logout` and `login`.

  Roles are resolved token-first. A non-empty `app_metadata.roles` array is
  taken as is. Otherwise the handler starts a fetch of the user's `users` row.
- **The server middleware** (`authMiddleware`). It maps the `Authorization`
  header, the outcome of JWT verification and the outcome of the `users`
  lookup to one of three results:
  - 401 "Authentication token missing";
  - 401 "Invalid or expired token";
  - `next()` with `req.user`, which is built as an object spread.
- **The seeder** (`seed_users.js`). It derives the project URL from
  `DATABASE_URL` and holds the constant user/role table. Its per-user loop
  writes each user's roles both to the token metadata and to the `users` row,
  and a failure for one user does not stop the loop.

Everything outside the code is an explicit input:
- Provider results, the roles fetch, `jwt.verify`, `db.query`, `createUser`
  and the roles update are event payloads or parameters.
- The middleware also returns the list of oracle calls it made. That list
  shows what was verified or queried, and with which argument.

Modules:
- `Wrappers`: `Option`.
- `JsValues`: JavaScript values, truthiness, `||`, property access, and object
  spread together with its "last writer wins" reading.
- `JsStrings`: `startsWith`, `slice`, `split`, `join`.
- `AuthContext`, `AuthMiddleware`, `SeedUsers`: the three components.
- `Consistency`: how the three components fit together.

Facts about the code that the model keeps:
- Loading has two values and no "degraded" phase.
- No resolution-cycle counter exists, so a fetch that finishes late still
  overwrites `roles`. `AuthContext.LateFetchAfterLogout` shows this after a
  logout.
- An auth event for a new user whose token has no roles leaves the previous
  user's roles in place while the fetch runs. If the fetch fails they stay.
  `AuthContext.PreviousRolesOutliveFailedFetch` states this.
- The server spreads the token claims and the row into `req.user`. No
  separate `{id, email, tokenClaims, roles}` principal is built.
- A successful fetch installs `data?.roles || []`. So any falsy value becomes
  `[]`, including `""`, `0` and `false`, not only null or a missing value.

## Model

| member | source | states |
|---|---|---|
| `AuthContext.ResolveRoles` | frontend/src/context/AuthContext.jsx:42-50 | roles come from the token exactly when `app_metadata.roles` is a non-empty array, and are then that array; otherwise the store is asked for exactly this user's id |
| `AuthContext.Step` | frontend/src/context/AuthContext.jsx:15-118 | every handler keeps `user` equal to the session's user (null without a session) and never switches `loading` back on |
| `AuthContext.Run` | frontend/src/context/AuthContext.jsx:15-118 | the handlers applied in delivery order: a single event is exactly one step, and `loading` is never switched back on |
| `AuthContext.RunAppend` | frontend/src/context/AuthContext.jsx:15-118 | running two batches of events in turn is running their concatenation: the second starts from the state the first left, and the effects are concatenated |
| `AuthContext.StepLoading` | frontend/src/context/AuthContext.jsx:15-111 | after one event `loading` is on exactly when it was on and the event is not one that ends loading; only a store fallback, a rejected `getSession`, the end of the remote sign-out and `login` keep it on |
| `AuthContext.RunLoading` | frontend/src/context/AuthContext.jsx:9-111 | over any sequence of events `loading` is on exactly when it started on and no event of the sequence ends it |
| `AuthContext.TimerBoundsLoading` | frontend/src/context/AuthContext.jsx:61-64 | `loading` starts true; once the timer has fired it stays false, whatever other events arrive |
| `AuthContext.RunCoupled` | frontend/src/context/AuthContext.jsx:17-54 | user/session coupling holds after any sequence of events |
| `AuthContext.InitialCoupled` | frontend/src/context/AuthContext.jsx:7-10 | the mount state is coupled, and so is every state reachable from it |
| `AuthContext.TokenRolesTaken` | frontend/src/context/AuthContext.jsx:19-23 | a session whose token carries a non-empty roles array installs exactly that array, sets the session and user, ends loading and starts no fetch; this holds for both `getSession` and the event handler |
| `AuthContext.StoreFallback` | frontend/src/context/AuthContext.jsx:24-25 | otherwise the session and user are recorded, roles and loading are left alone, and exactly one fetch for this user's id starts; this holds for both handlers |
| `AuthContext.FetchSucceeded` | frontend/src/context/AuthContext.jsx:85-93 | a successful fetch installs the row's roles when truthy and `[]` otherwise, ends loading, and keeps user and session |
| `AuthContext.FetchedRoles` | frontend/src/context/AuthContext.jsx:87 | the roles a successful fetch installs are always truthy: the row's `roles` when truthy, else `[]` |
| `AuthContext.FetchFailed` | frontend/src/context/AuthContext.jsx:82-94 | a fetch that errored or threw keeps the roles and only ends loading |
| `AuthContext.EventWithoutUserClears` | frontend/src/context/AuthContext.jsx:51-57 | an event without a user sets session and user to null, roles to `[]` and loading to false |
| `AuthContext.EventKindIgnored` | frontend/src/context/AuthContext.jsx:33-36 | the event's name never influences the transition |
| `AuthContext.SessionEventIdempotent` | frontend/src/context/AuthContext.jsx:36-57 | applying the same auth event twice leaves the state it left once |
| `AuthContext.LogoutClearsFirst` | frontend/src/context/AuthContext.jsx:106-118 | logout clears the state before asking for the remote sign-out; the settling of the sign-out, whatever its outcome and whenever it arrives, changes no state and starts nothing |
| `AuthContext.Logout` | frontend/src/context/AuthContext.jsx:106-119 | the promise `logout` returns resolves to `undefined` for every sign-out outcome, failures included, and never rejects |
| `AuthContext.TimerOnlyEndsLoading` | frontend/src/context/AuthContext.jsx:61-64 | the timer sets loading to false and changes nothing else |
| `AuthContext.LoginLeavesState` | frontend/src/context/AuthContext.jsx:97-101 | `login` changes no state and only starts the password sign-in with the given credentials |
| `AuthContext.Login` | frontend/src/context/AuthContext.jsx:97-104 | login rejects exactly when the provider threw or returned a truthy error, and rejects with that same error; otherwise it returns the provider's data |
| `AuthContext.LateFetchAfterLogout` | frontend/src/context/AuthContext.jsx:85-87 | no staleness guard: for every starting state, session without token roles and row, a fetch started before a logout and finishing after it installs that row's roles next to a null user |
| `AuthContext.LateFetchAfterLogoutExample` | frontend/src/context/AuthContext.jsx:85-87 | the same trace for one concrete user with a `STUDENT` row |
| `AuthContext.PreviousRolesOutliveFailedFetch` | frontend/src/context/AuthContext.jsx:42-49 | an auth event for a user without token roles keeps the roles already held, and a failed fetch after it leaves them in place next to the new user |
| `AuthMiddleware.ExtractToken` | server/src/middlewares/authMiddleware.js:10-12 | a token is extracted exactly when the header starts with the case-sensitive `"Bearer "`, and the header is that prefix followed by the token |
| `AuthMiddleware.TokenUser` | server/src/middlewares/authMiddleware.js:57 | `req.user` without a row is exactly the claims plus `id`, and `id` is the claims' `sub` |
| `AuthMiddleware.RowUser` | server/src/middlewares/authMiddleware.js:49-54 | with a row, `roles` is the row's roles if truthy, else `[]`; other row columns override the claims; `id` is `sub` unless the row has one; other claims survive |
| `AuthMiddleware.Authorize` | server/src/middlewares/authMiddleware.js:7-70 | missing-token 401 exactly for an absent, wrongly prefixed or prefix-only header, with nothing verified; otherwise the header minus 7 characters is verified; invalid-token 401 exactly on verify failure, with no query; otherwise `next()` after one query by `sub` |
| `AuthMiddleware.ExactlyOneOutcome` | server/src/middlewares/authMiddleware.js:14-70 | every request ends in one of the two 401s or in `next()` |
| `AuthMiddleware.VerifiedAlwaysProceeds` | server/src/middlewares/authMiddleware.js:24-66 | once the token verifies, every database outcome proceeds, with the same oracle calls |
| `AuthMiddleware.EmptyBearerIsMissing` | server/src/middlewares/authMiddleware.js:10-16 | `"Bearer "` alone is the missing-token 401 and nothing is verified |
| `AuthMiddleware.LowerCaseSchemeIsMissing` | server/src/middlewares/authMiddleware.js:10 | a header `bearer <t>` is rejected as missing for every `t`, with nothing verified, although RFC 6750 section 2.1 reads the scheme case-insensitively |
| `AuthMiddleware.NoRowMeansTokenUser` | server/src/middlewares/authMiddleware.js:55-64 | no row and a throwing query decide the same, and `req.user` is the claims with `id` set to `sub` |
| `JsValues.Spread` | server/src/middlewares/authMiddleware.js:49-57 | every key of the last layer of an object spread is in the result with that layer's value |
| `JsValues.SpreadKeys` | server/src/middlewares/authMiddleware.js:49-54 | an object spread holds exactly the keys of its layers |
| `JsValues.SpreadLastWriterWins` | server/src/middlewares/authMiddleware.js:49-54 | each key of an object spread takes the value of the last layer that writes it |
| `JsStrings.Split` | server/scripts/seed_users.js:19 | `split` always yields at least one piece |
| `JsStrings.SplitPartsFree` | server/scripts/seed_users.js:19 | no piece of a split contains the separator |
| `JsStrings.JoinSplit` | server/scripts/seed_users.js:19 | joining the pieces of a split gives the string back |
| `JsStrings.SplitJoin` | server/scripts/seed_users.js:19 | splitting a join of separator-free pieces gives the pieces back |
| `JsStrings.SplitSeveralIffContains` | server/scripts/seed_users.js:18-19 | a string splits into two or more pieces exactly when it contains the separator, so `split('@')[1]` exists on the `includes('@')` branch |
| `SeedUsers.HostAfterAt` | server/scripts/seed_users.js:19 | the text the derivation reads is the host between the first `@` and the next `:` |
| `SeedUsers.SupabaseUrl` | server/scripts/seed_users.js:18-20 | with `@` in `DATABASE_URL` the URL is `https://<p>.supabase.co` with a dot-free project name `p`; without it, `VITE_SUPABASE_URL` when non-empty, else the fixed fallback; `FieldOrUndefined` (a missing `[1]` renders `undefined`) and `ProjectUrl` are its parts |
| `SeedUsers.ProjectRef` | server/scripts/seed_users.js:19 | the project name read from the host never contains a dot, whether it is the second label or `undefined` |
| `SeedUsers.ProjectUrl` | server/scripts/seed_users.js:19 | the derived URL starts with `https://`, ends with `.supabase.co`, and the project name reads back from between them |
| `SeedUsers.DatabaseUrlNamesProject` | server/scripts/seed_users.js:18-19 | a `DATABASE_URL` of the shape `user@lead.ref.domain:rest` yields `https://ref.supabase.co`, whatever `rest` and the fallbacks hold |
| `SeedUsers.UndottedHostNamesUndefined` | server/scripts/seed_users.js:19 | a host without a dot yields `https://undefined.supabase.co` |
| `SeedUsers.UrlWithoutAt` | server/scripts/seed_users.js:18-20 | without `@`, the URL is `VITE_SUPABASE_URL` when non-empty, else the fixed fallback |
| `SeedUsers.TableWellFormed` | server/scripts/seed_users.js:39-49 | six users, each with a non-empty roles array over the known role names, distinct e-mails, and the listed primary roles at index 0 |
| `SeedUsers.UserCalls` | server/scripts/seed_users.js:77-99 | each user gets one creation that carries its roles in `app_metadata`; the roles update with the same array and the returned id happens exactly when creation succeeded |
| `SeedUsers.UserReport` | server/scripts/seed_users.js:85-105 | roles are assigned exactly when creation and update succeed; an auth failure exactly when creation returned an error; a roles failure exactly when the update returned one; a crash exactly when creation or, after a created user, the update threw |
| `SeedUsers.AllCalls` | server/scripts/seed_users.js:72-107 | the loop makes between one and two calls per user and starts with the first user's creation |
| `SeedUsers.SeedLoop` | server/scripts/seed_users.js:72-107 | the loop makes the per-user calls of every user in order and reports on each user from that user's outcome alone |
| `SeedUsers.EveryUserAttempted` | server/scripts/seed_users.js:72-107 | whatever the outcomes, there is exactly one creation per user, in table order, each with that user's own roles |
| `SeedUsers.UpdateMirrorsCreation` | server/scripts/seed_users.js:82-99 | every roles update directly follows a creation and writes the array that creation put into the token metadata |
| `SeedUsers.UpdateOnlyAfterCreation` | server/scripts/seed_users.js:85-99 | a failed or throwing creation leads to no update; a successful one leads to exactly one, for the returned id |
| `SeedUsers.RunScript` | server/scripts/seed_users.js:18-112 | the script exits with code 1 exactly when the service key is missing or empty, before it creates a client or makes any call; otherwise it creates a client for the derived URL and, unless clean-up threw, runs the loop over the whole table, report i coming from user i's outcome alone |
| `Consistency.SeededRolesAgree` | server/scripts/seed_users.js:82-99 | for every seeded user whose creation and roles update succeeded, the client takes the roles from the token the creation call wrote, without fetching; the server takes them from the row the update call wrote; both get the seeded array with the primary role first |
| `Consistency.UnassignedRowDiverges` | server/scripts/seed_users.js:96-101 | when the roles update did not succeed and the row's `roles` column is falsy (NULL, say), the server reports `[]` while the client reads the seeded roles from the token |
| `Consistency.SeederWritesTableRoles` | server/scripts/seed_users.js:77-99 | for a created user, token metadata and row both receive that user's non-empty roles from the table |

## Left out

- The identity provider, the `users` table, `jwt.verify` cryptography, `db.query`, `admin.createUser`, the roles update and `deleteAllUsers` are external calls. Only their outcomes are modelled, as event payloads or parameters.
- React plumbing (`useState`, `useEffect`, `useMemo`, the context object, `useAuth`) and unsubscribing on unmount are UI wiring. They decide nothing about state.
- Timer semantics: the 5-second timeout is a `TimerFired` event. Clearing the timer on unmount is not modelled.
- Interleaving is covered by arbitrary event sequences in delivery order. Nothing finer is modelled.
- A rejected `getSession` promise is `SessionLoadFailed`, which changes nothing: the code has no handler for it.
- `next()` throwing inside the middleware's outer `try` is not modelled. `next` is treated as non-throwing.
- All `console` logging is left out, including the seeder's progress messages. `SeedUsers.Report` only classifies each user's outcome.
- `server/scripts/debug_student_state.js` is pure querying and printing, so it is not modelled.
- JavaScript numbers are integers here: NaN, -0 and fractions are not values of the model.
- Property lookup only sees an object's own properties, with no prototype chain. Key order inside `req.user` is not modelled.
- A `jwt.verify` payload that is a string, not an object, is not modelled.
- Header values that are not strings are not modelled.
- `seed()` rejecting after a throwing clean-up is only the `CleanupAborted` outcome.
- `SeedUsers.DatabaseUrlNamesProject`: stated only for URLs of the shape `user@lead.ref.domain:rest`. Other shapes follow from the definition of `SeedUsers.SupabaseUrl`, with no separate lemma.
- `Consistency.SeededRolesAgree`: assumes the row that the trigger creates exists when the update runs. An update that matches no row reports success in the code, and the model does not track row existence.
