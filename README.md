# Task manager: authorization and role elevation

A Dafny model of the server side of a role-based task manager. It covers:

- the process-wide session registry and the `requireAuth` / `requireRole` guards;
- the route handlers for accounts, tasks, role requests, notifications and stats;
- the storage layer those handlers call, held as four in-memory tables;
- the table defaults and the login and registration validators;
- two pieces of client logic: the role-request page's decisions and the browser's `AuthService`.

Modules, leaf to root:

| module | file | source |
|---|---|---|
| `Wrappers` | `wrappers.dfy` | `Option` for nullable columns and `undefined` results |
| `Tables` | `tables.dfy` | what `SELECT … WHERE … ORDER BY createdAt DESC`, `UPDATE … WHERE id`, `DELETE … WHERE id` and `count()` mean on a table held as a sequence of rows in insertion order |
| `Schema` | `schema.dfy` | `backend/shared/schema.ts`: rows, insert shapes, column defaults, `loginSchema`, `registerSchema` |
| `Storage` | `storage.dfy` | `backend/src/storage.ts`: class `DatabaseStorage` whose fields are the four tables, the serial counters and a clock |
| `Routes` | `routes.dfy` | `server/routes.ts`: class `Server` with the `sessions` map, the guards and one method or function per route |
| `RequestRole` | `request_role.dfy` | `client/src/pages/request-role.tsx` |
| `Auth` | `auth.dfy` | `frontend/src/lib/auth.ts`: class `AuthService` with the `token` and `user` fields |

Modelling choices:

- **Tables.** Each table is a sequence in insertion order. One clock stamps every `createdAt`, so `ORDER BY createdAt DESC` means reading the table from the back. `Storage.Consistent` is the database's constraints:
  - serial ids;
  - strictly growing timestamps;
  - UNIQUE `username` and `email`;
  - every foreign key names a user.

  Every storage method keeps `Consistent`.
- **Server invariant.** `Routes.Server.Valid` adds two facts to `Consistent`. First, no user has two PENDING role requests. Second, every session names an existing user. Every handler keeps `Valid`.
- **Handler replies.** A handler returns `Ok(body)` for a 200 response or `Fail(status, message)`. Request bodies come in already parsed; `None` stands for a body the zod schema rejects.
- **Free-text columns.** Roles and task status and priority are `text` columns that clients write, so they are strings. Request status and notification type are written only by the server, so they are enums.
- **Sessions are snapshots.** A session stores the user row as it was at login. `Approve` changes the `users` table but not `sessions`, so an existing session keeps its old role until the user logs in again.

## Model

| member | source | states |
|---|---|---|
| `Schema.NewUser` | backend/shared/schema.ts:6-13 | a new user's role is USER unless the insert names one; id and createdAt come from the database, not the insert |
| `Schema.NewTask` | backend/shared/schema.ts:15-26 | status defaults to TODO and priority to MEDIUM; id, createdAt and updatedAt are never taken from the insert (`updatedAt = createdAt =` now); createdById is copied and assignedToId may be absent |
| `Schema.NewRoleRequest` | backend/shared/schema.ts:103-109 | every new request is PENDING with no reviewer and no review time, whatever the insert held |
| `Schema.NewNotification` | backend/shared/schema.ts:40-48 | type defaults to INFO and read to false |
| `Schema.LoginValid` | backend/shared/schema.ts:127-130 | a login body passes exactly when the username and the password are both non-empty |
| `Schema.RegisterValid` | backend/shared/schema.ts:132-136 | a passing body has a valid email, and any body with a username of 3 or more characters, a password of 6 or more and a valid email passes; measured in UTF-16 units |
| `Tables.Select` | backend/src/storage.ts:101-107 | a filtered query returns only rows of the table that satisfy the filter, and all of them |
| `Tables.SelectNewestFirst` | backend/src/storage.ts:101-115 | when createdAt grows along the table, every filtered query's result is strictly newest first |
| `Tables.SelectNoRepeats` | backend/src/storage.ts:109-115 | on a table with distinct ids, no row appears twice in a filtered query |
| `Tables.Count` | backend/src/storage.ts:221-225 | `count()` is the number of matching rows (the length of `Where`): zero exactly when no row matches, the table size exactly when every row matches |
| `Tables.FindKey` | backend/src/storage.ts:59-62 | `const [row] = …` gives a row with that key, or nothing exactly when no row has it |
| `Tables.FindKeyUnique` | backend/src/storage.ts:96-99 | on a unique column, the lookup returns the one row that has the key |
| `Tables.Update` | backend/src/storage.ts:182-189 | an update by predicate keeps the table length, rewrites the matching rows and leaves every other row as it was |
| `Tables.Where` | backend/src/storage.ts:144-146 | a delete keeps exactly the rows that do not match |
| `Storage.Patched` | backend/src/storage.ts:132-142 | supplied task fields overwrite, omitted ones are kept, id and createdAt never change, and updatedAt is the new time |
| `Storage.Reviewed` | backend/src/storage.ts:182-189 | only status, reviewedById and reviewedAt can change; requester, roles, justification, id and createdAt are kept |
| `Storage.SetRole` | backend/src/storage.ts:82-89 | only the role of the user with that id changes; every other row is identical |
| `Storage.SetRoleKeepsIds` | backend/src/storage.ts:82-89 | a role change neither adds nor removes a user id |
| `Storage.PatchTask` | backend/src/storage.ts:132-142 | only the task with that id is patched; every other task is identical |
| `Storage.RemoveTask` | backend/src/storage.ts:144-146 | after the delete no task has that id, and every task with another id is still present |
| `Storage.PatchRequest` | backend/src/storage.ts:182-189 | only the request with that id changes |
| `Storage.MarkRead` | backend/src/storage.ts:208-213 | read becomes true on the notification with that id, whoever owns it; every other row is identical |
| `Storage.MarkReadIdempotent` | backend/src/storage.ts:208-213 | marking the same notification read twice equals marking it once |
| `Storage.ConsistentAddUser` | backend/shared/schema.ts:7-12 | inserting a user whose username and email are both new keeps ids serial and usernames and emails unique |
| `Storage.ConsistentSetRole` | backend/src/storage.ts:82-89 | a role change breaks no constraint |
| `Storage.ConsistentPatchRequest` | backend/src/storage.ts:182-189 | stamping a request with a reviewer who is a user breaks no constraint |
| `Storage.DatabaseStorage.constructor` | backend/src/storage.ts:242 | the storage starts with empty tables, and its constraints hold |
| `Storage.DatabaseStorage.GetUser` | backend/src/storage.ts:59-62 | returns the user with that id, or nothing exactly when there is none |
| `Storage.DatabaseStorage.GetUserByUsername` | backend/src/storage.ts:64-67 | returns the one user with that username, or nothing exactly when there is none |
| `Storage.DatabaseStorage.GetUserByEmail` | backend/src/storage.ts:69-72 | returns the one user with that email, or nothing exactly when there is none |
| `Storage.DatabaseStorage.GetAllUsers` | backend/src/storage.ts:91-93 | returns every user and nothing else, newest first |
| `Storage.DatabaseStorage.CreateUser` | backend/src/storage.ts:74-80 | a taken username or email changes nothing; otherwise exactly one row, with its defaults, is appended |
| `Storage.DatabaseStorage.UpdateUserRole` | backend/src/storage.ts:82-89 | only that user's role changes, and the updated row is returned |
| `Storage.DatabaseStorage.GetTask` | backend/src/storage.ts:96-99 | returns the task with that id, or nothing exactly when there is none |
| `Storage.DatabaseStorage.GetUserTasks` | backend/src/storage.ts:101-107 | returns exactly the tasks with assignedToId equal to the user, each once, newest first |
| `Storage.DatabaseStorage.GetTeamTasks` | backend/src/storage.ts:109-115 | returns exactly the tasks the manager created, each once, newest first |
| `Storage.DatabaseStorage.GetAllTasks` | backend/src/storage.ts:117-119 | returns every task, newest first |
| `Storage.DatabaseStorage.CreateTask` | backend/src/storage.ts:121-130 | appends exactly one task with updatedAt set at insertion; a foreign key that names no user inserts nothing |
| `Storage.DatabaseStorage.UpdateTask` | backend/src/storage.ts:132-142 | an unknown id changes nothing; otherwise only that task is patched and gets a new updatedAt |
| `Storage.DatabaseStorage.DeleteTask` | backend/src/storage.ts:144-146 | removes only the task with that id; every other table is unchanged |
| `Storage.DatabaseStorage.GetRoleRequest` | backend/src/storage.ts:149-152 | returns the request with that id, or nothing exactly when there is none |
| `Storage.DatabaseStorage.GetUserRoleRequests` | backend/src/storage.ts:154-160 | returns exactly the user's requests, newest first |
| `Storage.DatabaseStorage.GetAllRoleRequests` | backend/src/storage.ts:162-164 | returns every request, newest first |
| `Storage.DatabaseStorage.GetPendingRoleRequests` | backend/src/storage.ts:166-172 | returns exactly the PENDING requests, newest first |
| `Storage.DatabaseStorage.CreateRoleRequest` | backend/src/storage.ts:174-180 | appends exactly one PENDING, unreviewed request |
| `Storage.DatabaseStorage.UpdateRoleRequest` | backend/src/storage.ts:182-189 | an unknown id changes nothing; otherwise only that request's supplied fields change |
| `Storage.DatabaseStorage.GetUserNotifications` | backend/src/storage.ts:192-198 | returns exactly the user's notifications, newest first |
| `Storage.DatabaseStorage.CreateNotification` | backend/src/storage.ts:200-206 | appends exactly one notification, and no other table changes |
| `Storage.DatabaseStorage.MarkNotificationAsRead` | backend/src/storage.ts:208-213 | sets read on that notification only, with no ownership check |
| `Storage.DatabaseStorage.GetStats` | backend/src/storage.ts:216-239 | totalUsers is the number of users; pendingRequests counts PENDING requests and is zero exactly when none is pending; activeTasks is always 0, because its filter requires status to be both TODO and IN_PROGRESS |
| `Routes.BearerToken` | server/routes.ts:26 | no header gives no token, and a token is never empty |
| `Routes.BearerRoundTrip` | server/routes.ts:26 | the header `Bearer <t>` yields the token `t` |
| `Routes.BareTokenAccepted` | server/routes.ts:26 | a header with no `Bearer ` in it is taken whole as the token |
| `Routes.FreshToken` | server/routes.ts:21-23 | a new token is non-empty, base 36, and not already in the registry |
| `Routes.Base36Header` | server/routes.ts:21-27 | a generated token survives the trip through the Authorization header, with or without the `Bearer ` prefix |
| `Routes.RequireRole` | server/routes.ts:39-46 | passes exactly when the caller's role is in the allowed list; otherwise 403 |
| `Routes.UserOwnership` | server/routes.ts:197-219 | for a USER, update is allowed exactly for tasks assigned to them and delete exactly for tasks they created |
| `Routes.OtherRolesNeverRefused` | server/routes.ts:197-219 | any role other than USER (MANAGER, ADMIN) passes both task checks |
| `Routes.AssigneeMayNotDelete` | server/routes.ts:197-219 | the two checks differ: a USER can update a task they may not delete |
| `Routes.SubmitKeepsOnePending` | server/routes.ts:257-269 | adding a request for a user with nothing pending keeps at most one PENDING request per user |
| `Routes.ReviewKeepsOnePending` | server/routes.ts:291-295 | resolving a request keeps at most one PENDING request per user |
| `Routes.ReviewKeepsResolved` | server/routes.ts:286-295 | patching a PENDING request leaves every APPROVED or REJECTED request untouched |
| `Routes.Verdict` | server/routes.ts:301-339 | the notification goes to the requester: SUCCESS titled "Role Request Approved" for an approval, ERROR titled "Role Request Rejected" otherwise; read is left to its default |
| `Routes.Views` | server/routes.ts:138 | one password-free view per user, in the same order |
| `Routes.ReviewStampsRequest` | server/routes.ts:290-331 | a review stamps only the reviewed request, with the verdict, the reviewer and the time, and no resolved request changes |
| `Routes.ReviewSetsRole` | server/routes.ts:297-298 | approval changes only the requester's role, to the requested one; rejection changes no user |
| `Routes.ReviewNotifies` | server/routes.ts:300-339 | a review appends exactly one unread notification for the requester, SUCCESS or ERROR, and leaves tasks alone |
| `Routes.Server.constructor` | server/routes.ts:19 | the server starts with no sessions and an empty database |
| `Routes.Server.GetSession` | server/routes.ts:25-28 | resolves exactly when the header yields a token that is in the registry, to the session stored under it |
| `Routes.Server.RequireAuth` | server/routes.ts:30-37 | 401 exactly when the token is missing or unknown; otherwise the caller is the user stored in the session |
| `Routes.Server.Authorize` | server/routes.ts:135 | the guards chained: 401 without a session; then 403 unless the session's role is listed; otherwise the session's user |
| `Routes.Server.Me` | server/routes.ts:130-132 | returns the session's snapshot of the user, without the password |
| `Routes.Server.ListUsers` | server/routes.ts:135-142 | ADMIN only; one password-free view per user, newest first |
| `Routes.Server.ListTasks` | server/routes.ts:145-161 | ADMIN gets all tasks; MANAGER gets the assigned tasks newest first followed by the created tasks newest first, so a task that is both is listed twice and any other task once; anyone else only assigned tasks |
| `Routes.Server.TeamTasks` | server/routes.ts:163-172 | MANAGER and ADMIN only; ADMIN gets all tasks, MANAGER the tasks they created |
| `Routes.Server.ListRoleRequests` | server/routes.ts:231-243 | ADMIN gets every request, anyone else only their own, newest first |
| `Routes.Server.PendingRoleRequests` | server/routes.ts:245-252 | ADMIN only; exactly the PENDING requests |
| `Routes.Server.ListNotifications` | server/routes.ts:348-355 | exactly the caller's notifications, newest first |
| `Routes.Server.Stats` | server/routes.ts:368-375 | ADMIN only; exactly the storage counts: the number of users, the number of PENDING requests, and activeTasks 0 |
| `Routes.Server.Init` | server/routes.ts:50-74 | 400 and no change if any ADMIN exists; otherwise a valid body creates exactly one ADMIN with the hashed password |
| `Routes.Server.Register` | server/routes.ts:77-99 | 400 and no change for an invalid body or a taken username or email; otherwise exactly one new user with role USER |
| `Routes.Server.Login` | server/routes.ts:101-120 | 401 for an unknown user or a wrong password; otherwise a token not used before, stored with a snapshot of the user, that the next request's header resolves to |
| `Routes.Server.Logout` | server/routes.ts:122-128 | 401 without a session; otherwise only that token is removed and it no longer resolves |
| `Routes.Server.CreateTask` | server/routes.ts:174-185 | createdById is always the caller's id, whatever the body says; exactly one task is appended |
| `Routes.Server.UpdateTask` | server/routes.ts:187-207 | 404 for an unknown task, 403 for a USER who is not the assignee, each with no change; otherwise only that task is patched |
| `Routes.Server.DeleteTask` | server/routes.ts:209-228 | 404 for an unknown task, 403 for a USER who is not the creator, each with no change; otherwise only that task is removed |
| `Routes.Server.SubmitRoleRequest` | server/routes.ts:254-275 | 400 and no change if the caller has a PENDING request; otherwise one PENDING request whose user is the caller and whose currentRole comes from the session; requestedRole is not checked |
| `Routes.Server.ReviewGate` | server/routes.ts:277-288 | in order: 401, 403 for a non-ADMIN, 404 for an unknown id, 400 for a request that is not PENDING |
| `Routes.Server.Approve` | server/routes.ts:277-312 | a refused review changes nothing; otherwise the request becomes APPROVED with reviewer and time, the requester gets the requested role and one SUCCESS notification; the session registry is outside its frame, so existing sessions keep their snapshot |
| `Routes.Server.Reject` | server/routes.ts:314-345 | a refused review changes nothing; otherwise the request becomes REJECTED with reviewer and time, one ERROR notification is added, and no role changes |
| `Routes.Server.Resolve` | server/routes.ts:290-339 | a review that passed the gate writes exactly `AfterReview`: the stamp, then on approval the role change, then one notification; a rejection leaves users unchanged |
| `Routes.Server.StampNow` | server/routes.ts:291-295 | the request is stamped with the verdict, the admin's id and the current time |
| `Routes.Server.Promote` | server/routes.ts:298 | the requester's role becomes the requested role |
| `Routes.Server.Notify` | server/routes.ts:301-306 | exactly one notification for the requester is appended |
| `Routes.Server.MarkRead` | server/routes.ts:357-365 | any authenticated caller can mark any notification read |
| `RequestRole.AvailableRoles` | client/src/pages/request-role.tsx:101-111 | USER is offered [MANAGER, ADMIN], MANAGER [ADMIN], anyone else or no user []; every offered role ranks strictly above the current one, and every higher role is offered |
| `RequestRole.TrimEmpty` | client/src/pages/request-role.tsx:63 | a justification trims to empty exactly when every character is JavaScript whitespace |
| `RequestRole.HandleSubmit` | client/src/pages/request-role.tsx:62-73 | submission is sent exactly when a role is chosen and the justification has a non-whitespace character; it is sent unchanged, otherwise it is blocked |
| `RequestRole.Render` | client/src/pages/request-role.tsx:113-184 | no page without a user; ADMIN sees no form; otherwise the dialog is offered exactly when no request is PENDING |
| `RequestRole.PendingHidesDialog` | client/src/pages/request-role.tsx:172-184 | while a request is pending, no dialog is offered |
| `RequestRole.AdminSeesNoForm` | client/src/pages/request-role.tsx:117-143 | an ADMIN sees "Maximum Role Achieved" whatever their requests are |
| `Auth.HeaderCarriesToken` | frontend/src/lib/auth.ts:68-72 | the header the client sends resolves, on the server, to the client's token |
| `Auth.AuthService.constructor` | frontend/src/lib/auth.ts:13-24 | the fields start as the stored token and user |
| `Auth.AuthService.Login` | frontend/src/lib/auth.ts:26-37 | after a successful login, token and user are exactly what the server returned; a rejected login leaves both fields unchanged |
| `Auth.AuthService.BeginLogout` | frontend/src/lib/auth.ts:49-56 | with a token, the logout request is sent and both fields are kept until it settles; without one, both fields are cleared at once |
| `Auth.AuthService.FinishLogout` | frontend/src/lib/auth.ts:58-59 | once the logout request has settled, both fields are null and no role check passes |
| `Auth.AuthService.Logout` | frontend/src/lib/auth.ts:49-62 | an awaited logout: the server is called only with a token; afterwards both fields are null and no role check passes |
| `Auth.AuthService.GetCurrentUser` | frontend/src/lib/auth.ts:64-87 | with no token it returns null and sends nothing; an OK reply replaces the user; a non-OK reply or a thrown error starts a logout it does not await and returns null, with token and user still held (and `isAuthenticated` unchanged) until that logout settles |
| `Auth.HasRoleIsAnyOfOne` | frontend/src/lib/auth.ts:101-107 | `hasRole(r)` equals `hasAnyRole([r])` |
| `Auth.RolesNeedUser` | frontend/src/lib/auth.ts:101-107 | with no user, no role check passes; with a user, `hasAnyRole(rs)` means the user's role is in `rs` |
| `Auth.AnyRoleGrows` | frontend/src/lib/auth.ts:105-107 | listing more roles never makes `hasAnyRole` fail where it passed |
| `Auth.AuthenticatedMeansBoth` | frontend/src/lib/auth.ts:97-99 | authenticated exactly when there is a non-empty token and a user |

Behaviour the model keeps exactly as the code has it:

- Submitting a role request is refused with 400, not a separate conflict status. An ADMIN is not refused. `requestedRole` is not checked against the caller's role: any string is stored.
- A MANAGER's task list is a concatenation, not a union. A task the manager both created and is assigned to appears twice.
- `activeTasks` is always 0 (`Storage.DatabaseStorage.GetStats`).
- Marking a notification read has no ownership check.

## Left out

- Password hashing: bcrypt is a `hash` function held by the server, and `bcrypt.compare(pw, h)` is taken to mean `hash(pw) == h`. Salting and the cost factor are not modelled.
- Token generation: `Math.random` and `Date.now` are replaced by an arbitrary non-empty base-36 string not already in the registry (`Routes.FreshToken`).
- Time: `new Date()` and `defaultNow()` are one monotone integer clock shared by all tables. Database time and application time are not told apart.
- SQL and drizzle: each table is a sequence of rows. Column types, NULL versus `undefined`, and constraints other than primary key, UNIQUE and foreign key are not modelled.
- zod's email check is an `isEmail` predicate held by the server.
- zod parsing of task and role-request bodies is not spelled out. A body that fails to parse is `None`.
- Concurrency: every handler runs as one atomic step, so the check-then-write races in submit and approve do not arise in the model.
- Unexpected storage failures (the 500 responses) are not modelled. Every storage call either succeeds or reports a constraint violation.
- `parseInt` on a route parameter is taken as already done; a non-numeric id (NaN) is not modelled.
- `Storage.TaskUpdate`: an update body can carry only the task's own columns apart from `id`, `createdAt` and `updatedAt`. In the code, `req.body` goes straight into `.set`, so a client could overwrite `id` or `createdAt`; the model does not capture this.
- Routes.Server.Init: when `createUser` raises a constraint violation, the model uses a fixed message instead of the database's error text. The same fixed message stands for every zod and database error message.
- Routes.Server.Register: a failed `createUser` cannot happen here, because the username and email were just checked; the race between that check and the insert is left out with the rest of concurrency.
- The server entry points, the launcher, React rendering, toasts and react-query are not part of this model.
- `frontend/src/lib/auth.ts` `register`, `initializeAdmin`, `getToken` and `getUser` only forward a request or return a field, so they are not modelled. `localStorage` reads and writes and `fetch` are not modelled either: server replies are parameters of the methods.
- The client-only limits on the role-request page are not modelled: the 500-character justification limit and the role choice list shown in the dialog.
