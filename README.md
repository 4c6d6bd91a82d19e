# Task manager: a verified model of the stores, the route guard and the RBAC backend

This project models the core of a small task manager in Dafny. The manager has a React client and a Go/Fiber backend that stores its data in MongoDB.

Client side:

- **Task store** (`useTaskStore`). It holds a list of tasks and has five actions: add, update, delete, toggle and sync. The class `TaskStore.TaskStore` holds the list. Each action reassigns the list to the value of a pure transition function (`Append`, `Update`, `Remove`, `Toggle`, `Sync`), and the lemmas are stated about those functions.
- **Session store** (`useAuth`). It has two fields, `user` and `isInitialized`, and four actions. The class `Auth.AuthStore` holds the fields, and each of its methods is proved to perform one step of the state machine `Auth.Step`.
- **Route guard** (`PrivateRoute`). It shows loading, redirects to the login page, or renders the protected page, and it triggers `initialize` while the session is not initialized.
- **Task table** (`TaskList`). It keeps a list of its own. The list is filled by translating the backend's records, and updated locally after an accepted status toggle. Its delete button acts on the task store instead.

Backend:

- **Task handlers** (`GetTasks`, `CreateTask`, `UpdateTask`, `DeleteTask`). Each one is a method that walks the same ladder of checks:
  1. body;
  2. token;
  3. user;
  4. role;
  5. fetching the role's permissions;
  6. the permission scan, a loop with `break`;
  7. task id;
  8. write.

  The first failing check decides the reply. The handler returns its reply together with the database write it would perform.
- **Startup seeding** (`InitializePermissionsAndRoles`). It works on the `permissions` and `roles` collections, held as the fields of `Seeding.Catalog`. Three loops are proved against the prefix functions `SeedPermissions`, `AdminIds`/`UserIds` and `SeedRoles`.

Inputs from outside the code become parameters:

- the random task id and the clock;
- the outcome of each `fetch`;
- what the JWT library reads from the cookie;
- the contents of the Mongo collections (`Db`);
- which driver calls fail (`Faults`, and per-insert failure flags during seeding);
- the ids Mongo generates.

## Model

| member | source | states |
|---|---|---|
| TaskTypes.Merge | frontend/src/lib/tasks.ts:30 | `{ ...task, ...updates }`: each field the update carries wins, every other field is the task's |
| TaskTypes.MergeLaws | frontend/src/lib/tasks.ts:30 | spreading a partial task is a right-biased overwrite: the empty patch changes nothing, spreading twice equals spreading once, and absent `id`/`createdAt` fields are kept |
| TaskTypes.CountIdZero | frontend/src/lib/tasks.ts:35 | the number of entries with an id is zero exactly when no entry has it |
| TaskStore.Append | frontend/src/lib/tasks.ts:15-26 | `addTask`: one entry longer, the old list is the prefix in order, and the new last entry has the generated id, the current time as `createdAt`, status false, and the draft's name, description and `updatedAt`; ids stay unique when the generated id is fresh |
| TaskStore.AppendOverridesCarriedFields | frontend/src/lib/tasks.ts:20-23 | any `id`, `createdAt` or `status` the caller's object carries has no effect on the result |
| TaskStore.Update | frontend/src/lib/tasks.ts:27-32 | `updateTask`: same length and order; entries with another id are unchanged; every matching entry (all of them, not only the first) becomes the update spread over it |
| TaskStore.UpdateAbsentIsNoOp | frontend/src/lib/tasks.ts:29-31 | updating an id that no entry has leaves the list unchanged |
| TaskStore.UpdateWithoutIdKeepsUniqueness | frontend/src/lib/tasks.ts:30 | an update that carries no `id` keeps every id in place, so unique ids stay unique |
| TaskStore.UpdateCanBreakUniqueness | frontend/src/lib/tasks.ts:30 | an update carrying an `id` can give two entries the same id (concrete two-entry list) |
| TaskStore.Remove | frontend/src/lib/tasks.ts:33-36 | `deleteTask`: length drops by the number of matching entries; no entry with the id remains; an entry is kept exactly when it was there with another id; unique ids stay unique |
| TaskStore.RemoveConcat | frontend/src/lib/tasks.ts:35 | filtering distributes over concatenation, so kept entries keep their relative order |
| TaskStore.RemoveAbsentIsNoOp | frontend/src/lib/tasks.ts:35 | deleting an id that no entry has leaves the list unchanged |
| TaskStore.Toggle | frontend/src/lib/tasks.ts:37-42 | `toggleComplete`: same length and ids; matching entries get their status negated and nothing else changes; other entries are unchanged; unique ids stay unique |
| TaskStore.ToggleTwiceIsIdentity | frontend/src/lib/tasks.ts:39-41 | toggling the same id twice gives back the original list |
| TaskStore.Sync | frontend/src/lib/tasks.ts:43-49 | `syncTasks`: the given list's length and order, the prior list discarded; every entry has a `createdAt`, kept when present and set to now when missing |
| TaskStore.SyncIdempotent | frontend/src/lib/tasks.ts:45-48 | syncing an already synced list changes nothing, whatever the later time |
| TaskStore.TaskStore.constructor | frontend/src/lib/tasks.ts:14 | the store starts with no tasks |
| TaskStore.TaskStore.AddTask | frontend/src/lib/tasks.ts:15-26 | the new list is `Append` of the old one |
| TaskStore.TaskStore.UpdateTask | frontend/src/lib/tasks.ts:27-32 | the new list is `Update` of the old one |
| TaskStore.TaskStore.DeleteTask | frontend/src/lib/tasks.ts:33-36 | the new list is `Remove` of the old one |
| TaskStore.TaskStore.ToggleComplete | frontend/src/lib/tasks.ts:37-42 | the new list is `Toggle` of the old one |
| TaskStore.TaskStore.SyncTasks | frontend/src/lib/tasks.ts:43-49 | the new list is `Sync` of the given list, whatever the old one was |
| TaskStore.AddToggleDeleteScenario | frontend/src/lib/tasks.ts:15-42 | on a fresh store: add gives one entry with the generated id and status false, toggle makes it true, delete empties the store |
| Auth.Step | frontend/src/lib/auth.ts:22-46 | no action clears `isInitialized`; `initialize` always ends initialized and stores a user exactly on an ok response, namely the body; `setUser`, `login` and `logout` only assign `user` (logout to null) |
| Auth.RunConcat | frontend/src/lib/auth.ts:19-47 | running two action sequences in turn is running their concatenation |
| Auth.RunKeepsInitialized | frontend/src/lib/auth.ts:19-47 | once initialized, no sequence of actions makes the store uninitialized |
| Auth.InitializedAfterInitialize | frontend/src/lib/auth.ts:37-40 | after any completed `initialize`, whatever came before or after, the store is initialized |
| Auth.NoInitializeStaysUninitialized | frontend/src/lib/auth.ts:20-23 | without an `initialize`, an uninitialized store stays uninitialized |
| Auth.AuthStore.constructor | frontend/src/lib/auth.ts:20-21 | a new store has no user and is not initialized |
| Auth.AuthStore.SetUser | frontend/src/lib/auth.ts:22 | performs the `SetUser` step; the flag is unchanged |
| Auth.AuthStore.Login | frontend/src/lib/auth.ts:23 | performs the `Login` step; the flag is unchanged |
| Auth.AuthStore.Initialize | frontend/src/lib/auth.ts:24-42 | performs the `Initialize` step for the awaited outcome; the store ends initialized |
| Auth.AuthStore.Logout | frontend/src/lib/auth.ts:43-46 | performs the `Logout` step: no user, flag unchanged |
| PrivateRoute.Render | frontend/src/components/PrivateRoute.tsx:17-25 | loading exactly when not initialized; redirect exactly when initialized without a user; the children exactly when initialized with a user |
| PrivateRoute.NeverLoadingAfterInitialize | frontend/src/components/PrivateRoute.tsx:17-19 | once an `initialize` has completed, no later actions bring back the loading view |
| PrivateRoute.LoadingUntilInitialize | frontend/src/components/PrivateRoute.tsx:11-19 | from the initial state, the guard shows loading and keeps requesting `initialize` until one completes |
| PrivateRoute.Visit | frontend/src/components/PrivateRoute.tsx:9-26 | the first render reflects the prior state; `initialize` runs only when not initialized; the settled view is never loading, and is the children exactly when a user is stored |
| TaskList.Format | frontend/src/components/tasks/TaskList.tsx:38-45 | one backend record becomes a client record: `id` from `_id`, name, description and status copied, both timestamps present |
| TaskList.FormatAll | frontend/src/components/tasks/TaskList.tsx:38-45 | same length and order as the backend array; each entry's `id` is the `_id`, name, description and status are copied, and both timestamps are present |
| TaskList.FormatKeepsIdsDistinct | frontend/src/components/tasks/TaskList.tsx:38-39 | distinct backend `_id`s give distinct client ids |
| TaskList.SetStatus | frontend/src/components/tasks/TaskList.tsx:69-73 | same length; matching entries get the given status and nothing else changes; other entries are unchanged |
| TaskList.ToggleTwiceRestores | frontend/src/components/tasks/TaskList.tsx:69-73 | two accepted toggles, each passing the status the entry then shows, restore the original list |
| TaskList.StaleToggleChangesNothing | frontend/src/components/tasks/TaskList.tsx:71 | the local update writes the negation of the passed status, so a stale passed status leaves the entry as it is |
| TaskList.TaskListView.constructor | frontend/src/components/tasks/TaskList.tsx:23 | the local list starts empty |
| TaskList.TaskListView.FetchTasks | frontend/src/components/tasks/TaskList.tsx:26-54 | on a listed response the local list becomes the formatted records; on failure it is kept |
| TaskList.TaskListView.HandleToggleComplete | frontend/src/components/tasks/TaskList.tsx:56-77 | on an accepted request the matching entries get the negated passed status; otherwise nothing changes |
| TaskList.TaskListView.HandleDelete | frontend/src/components/tasks/TaskList.tsx:124 | the store's list loses the entries with the id, while the component's own list is unchanged |
| Models.HexDigit | backend/internal/controllers/taskController.go:56 | a recognised hex digit has a value below 16 |
| Models.DecodeHex | backend/internal/controllers/taskController.go:56 | two hex digits decode to one byte |
| Models.ObjectIdFromHex | backend/internal/controllers/taskController.go:264-267 | an id parses exactly when the text is 24 hex digits, and a parsed id has 12 bytes |
| Models.EncodeHex | backend/internal/controllers/authController.go:79-81 | two hex digits per byte |
| Models.DecodeEncode | backend/internal/controllers/authController.go:79-81 | decoding the hex form of bytes gives the bytes back |
| Models.HexRoundTrip | backend/internal/controllers/authController.go:79-81 | the issuer written into a token (the user id's hex form) parses back to that user id |
| Models.FindUser | backend/internal/controllers/taskController.go:71-76 | a found user is in the collection with the requested id; nothing is found exactly when no user has the id |
| Models.FindRole | backend/internal/controllers/taskController.go:79-84 | a found role is in the collection with the requested id; nothing is found exactly when no role has the id |
| Models.PermissionsOf | backend/internal/controllers/taskController.go:87-98 | a permission is fetched exactly when it is in the collection and the role lists its id |
| TaskController.ParseJwt | backend/internal/controllers/taskController.go:17-38 | a token is accepted exactly when it is HMAC-signed and verifies, and then its claims are returned; any other signing method is refused as unexpected |
| TaskController.UserIdFromToken | backend/internal/controllers/taskController.go:41-62 | an empty cookie fails first; a rejected token fails with the parser's error; success exactly when the token parses and its issuer is a hex id, which is the result |
| TaskController.RequiredPermission | backend/internal/controllers/taskController.go:100-106 | the handlers scan for `view_task`, `create_task`, `update_task_status` and `delete_task`, one name per operation, each name belonging to exactly one operation |
| TaskController.HasPermission | backend/internal/controllers/taskController.go:100-106 | finds a match exactly when some permission has the required name; it stops at the first such permission, and none before it matches |
| TaskController.Lookup | backend/internal/controllers/taskController.go:71-98 | 404 for a missing user, then 404 for a missing role, then 500 "Failed to retrieve permissions" for a failed fetch, then 500 "Failed to decode permissions" for a failed decode; otherwise the role's permissions |
| TaskController.Denial | backend/internal/controllers/taskController.go:100-110 | no refusal exactly when the lookup succeeds and grants the required name; 403 exactly when it succeeds without it; the lookup's own error otherwise |
| TaskController.Authorize | backend/internal/controllers/taskController.go:71-110 | runs the lookups and the scan, and refuses exactly as `Denial` says |
| TaskController.GetTasks | backend/internal/controllers/taskController.go:64-126 | token errors are returned; refusals in ladder order; once admitted, 500 "Failed to retrieve tasks" for a failed find, then 500 "Failed to decode tasks" for a failed decode; 200 exactly when admitted for `view_task` and the task listing succeeds, and then every stored task is listed whoever asks; no write |
| TaskController.TokenMessage | backend/internal/controllers/taskController.go:136-152 | `CreateTask`'s 401 texts: "Authorization token is missing" exactly for an empty cookie, "Invalid or expired token" exactly for a rejected token, "Invalid user ID in token" exactly for a non-hex issuer |
| TaskController.CreateTask | backend/internal/controllers/taskController.go:129-206 | 400 for a bad body first; token failures become 401 with their message; refusals in ladder order; once admitted, 500 "Failed to create task" for a failed insert; 201 exactly when admitted for `create_task` and the insert succeeds, and then both timestamps are the server's clock readings; only a 201 writes |
| TaskController.UpdateTaskRequiring | backend/internal/controllers/taskController.go:209-278 | 400 for a bad body; token errors returned; refusals in ladder order before the id is parsed; 400 for a bad id; 500 "Failed to update task" for a failed write; 200 exactly when admitted, the id parses and the write succeeds, and then the parsed body is `$set` on that id |
| TaskController.UpdateTask | backend/internal/controllers/taskController.go:251-261 | an authenticated user whose permissions lack `update_task_status` gets 403 whatever the task id; a 200 implies that permission was granted |
| TaskController.DeleteTask | backend/internal/controllers/taskController.go:280-343 | token errors returned; refusals in ladder order before the id is parsed; 400 for a bad id; 500 "Failed to delete task" for a failed delete; 200 exactly when admitted for `delete_task`, the id parses and the delete succeeds, and then that id is deleted |
| Seeding.ExtensionKeepsPermissionNames | backend/internal/Initialize/initialize.go:33-43 | extending the collection keeps every permission name present |
| Seeding.ExtensionKeepsRoleNames | backend/internal/Initialize/initialize.go:68-87 | extending the roles keeps every role name present |
| Seeding.InsertPermission | backend/internal/Initialize/initialize.go:33-43 | one step of the first loop: the collection grows by one exactly when the seed's name was missing and the insert did not fail, and then the new document is the seed under the generated id; afterwards the name is present unless it was missing and the insert failed |
| Seeding.SeedPermissions | backend/internal/Initialize/initialize.go:33-43 | the old collection stays as a prefix; every added permission carries a seed name that the old collection did not have |
| Seeding.SeedPermissionsPresent | backend/internal/Initialize/initialize.go:33-43 | every seed whose insert did not fail has its name present after the first loop |
| Seeding.SeedPermissionsAddsNamesOnce | backend/internal/Initialize/initialize.go:34-42 | the first loop never adds the same name twice |
| Seeding.SeedPermissionsAllPresent | backend/internal/Initialize/initialize.go:35-36 | when every seed name is already present, the first loop adds nothing |
| Seeding.SeedPermissionsTwice | backend/internal/Initialize/initialize.go:33-43 | a second seeding after one without failed inserts adds nothing |
| Seeding.SeedPermissionsAllMissing | backend/internal/Initialize/initialize.go:33-43 | with distinct seed names, none present and no failed insert, every seed is appended in order |
| Seeding.NewNameAbsent | backend/internal/Initialize/initialize.go:35-36 | the last seed's name is missing from the old collection and from the earlier seeds' inserts |
| Seeding.SeedNamesDistinct | backend/internal/Initialize/initialize.go:15-20 | the four seed names are pairwise distinct |
| Seeding.SeedEmptyCollection | backend/internal/Initialize/initialize.go:15-43 | seeding an empty collection without failures creates exactly `view_task`, `create_task`, `update_task` and `delete_task`, in order |
| Seeding.SeedingAddsOnlySeedNames | backend/internal/Initialize/initialize.go:15-43 | a name that is not a seed name and was absent stays absent after seeding |
| Seeding.AdminIds | backend/internal/Initialize/initialize.go:60-61 | `adminPermissions` holds the id of every listed permission, in listing order |
| Seeding.UserIds | backend/internal/Initialize/initialize.go:62-64 | `userPermissions` holds exactly the ids of listed permissions named `view_task` |
| Seeding.Assigned | backend/internal/Initialize/initialize.go:73-78 | `admin` receives the admin list; every other role name receives the user list |
| Seeding.InsertRole | backend/internal/Initialize/initialize.go:68-87 | one step of the role loop: the roles grow by one exactly when the name was missing and the insert did not fail, and then the new role has the generated id, the name and the permissions assigned to that name |
| Seeding.SeedRoles | backend/internal/Initialize/initialize.go:68-87 | the old roles stay unchanged as a prefix; every added role has one of the names, absent from the old roles, with everything for `admin` and the `view_task` ids for any other name |
| Seeding.SeedRolesPresent | backend/internal/Initialize/initialize.go:68-87 | every role name whose insert did not fail is present after the role loop |
| Seeding.SeedRolesAddsNamesOnce | backend/internal/Initialize/initialize.go:69-86 | the role loop never adds the same name twice |
| Seeding.SeedRolesAllPresent | backend/internal/Initialize/initialize.go:69-71 | an existing role is never updated: with all names present the roles are unchanged |
| Seeding.Catalog.constructor | backend/internal/Initialize/initialize.go:29-30 | the two collections seeding works on |
| Seeding.InsertMissingPermissions | backend/internal/Initialize/initialize.go:33-43 | the first loop, over the seed list it is given, leaves the permissions as `SeedPermissions` says and the roles untouched |
| Seeding.CollectPermissionIds | backend/internal/Initialize/initialize.go:56-65 | the second loop computes `AdminIds` and `UserIds` of the listing |
| Seeding.InsertMissingRoles | backend/internal/Initialize/initialize.go:68-87 | the last loop, over the role names it is given, leaves the roles as `SeedRoles` says and the permissions untouched |
| Seeding.InitializePermissionsAndRoles | backend/internal/Initialize/initialize.go:13-88 | permissions are seeded; a failed listing stops before the roles; otherwise the roles are seeded with the ids collected from the seeded permissions |
| UpdateDefect.GrantsNeedsName | backend/internal/controllers/taskController.go:251-257 | a role can grant a name only if some permission in the collection has that name |
| UpdateDefect.NoRoleGrantsUpdateStatus | backend/internal/controllers/taskController.go:253 | after seeding a collection without `update_task_status`, no role grants it |
| UpdateDefect.UpdateOnSeededPermissions | backend/internal/controllers/taskController.go:209-278 | against seeded permissions, `UpdateTask` never replies 200, and any authenticated user whose permissions could be fetched gets 403 |
| UpdateDefect.UpdateTaskIntended | backend/internal/controllers/taskController.go:209-278 | the update handler scanning for `update_task`: 403 without it; 500 for a failed write; 200 exactly when admitted for it, the id parses and the write succeeds |
| UpdateDefect.SeedRolesFresh | backend/internal/Initialize/initialize.go:68-87 | an empty roles collection seeded without failures holds `admin` with everything, then `user` with the `view_task` ids |
| UpdateDefect.SeedTwoNamesFresh | backend/internal/Initialize/initialize.go:68-87 | two distinct role names seeded into an empty roles collection without failures give both roles, in order, each with the permissions assigned to its name |
| UpdateDefect.AdminGrantsEverything | backend/internal/Initialize/initialize.go:60-61 | the admin role grants every permission name present in the collection |
| UpdateDefect.FreshPermissions | backend/internal/Initialize/initialize.go:15-43 | a fresh seeding without failures creates `update_task` |
| UpdateDefect.FreshAdminLookup | backend/internal/Initialize/initialize.go:68-87 | a user with the freshly seeded admin role gets every permission: `update_task` is granted and `update_task_status` is not |
| UpdateDefect.FreshAdminUpdates | backend/internal/controllers/taskController.go:251-278 | for the seeded admin with a valid token, body and id, `UpdateTask` as written replies 403, while the intended handler replies 200 and performs the update |

## Left out

- HTTP transport and `fetch`: each request's outcome is a parameter (`FetchOutcome`, `ListOutcome`, the toggle's `responseOk`).
- The Mongo driver and the connection (backend/internal/database/database.go is not part of this model). Collections are the value `Db`, and failed calls are the flags in `Faults` and the per-insert flags of seeding.
- A `FindOne` that fails for any reason other than "no documents" is treated as not found in the handlers. During seeding it is not modelled separately: the per-seed insert-failure flag stands for "nothing was inserted for this seed".
- JWT signing and verification internals and bcrypt: the JWT library's reading of the cookie is the value `JwtToken`.
- The authentication handlers in backend/internal/controllers/authController.go are not part of this model, except the issuer's hex form used by `Models.HexRoundTrip`.
- The clock (`time.Now`, `new Date()`, `Date.now()`) and randomness (`crypto.randomUUID()`, generated object ids) are parameters.
- Date parsing and formatting (`new Date(task.created_at)`, `date-fns`): backend timestamps arrive as numbers.
- React rendering, forms, toasts and navigation; `backend/main.go` and `backend/internal/routes/routes.go`. The client toggles with `PATCH` while the route table registers updates under `PUT`; routing is outside this model.
- Async interleaving of in-flight requests: each action runs as one atomic step, in sequence.
- TaskStore.Sync: one clock reading stands for every entry's `Date.now()`; the source reads the clock once per entry that lacks `createdAt`, so those entries could get different times.
- TaskStore.Append: only the task fields are modelled. Other fields the spread `...task` carries are not; for example, the form passes the backend record, whose `_id`, `created_at` and `updated_at` end up in the stored entry.
- Auth.AuthStore.Logout: the removal of `jwt` from `localStorage` is browser storage and is not modelled.
- TaskController.GetTasks: how Fiber renders a plain error returned by a handler (a token failure) is not modelled; the result records which error was returned.
- TaskController.UpdateTaskRequiring: Go's zero values for fields the client left out of the body are not modelled separately; the write records the whole parsed body as `$set`.
- Seeding.InitializePermissionsAndRoles: `log.Fatal` on a failed listing is modelled as stopping before the roles, not as ending the process.
- Log output (`console.error`, `log.Println`) is not modelled.

## Findings

| source | as written | input that shows it | evidently intended | confidence | as-written member | corrected member |
|---|---|---|---|---|---|---|
| backend/internal/controllers/taskController.go:253 | `UpdateTask` scans for the permission `update_task_status`, but seeding (backend/internal/Initialize/initialize.go:15-20) creates only `view_task`, `create_task`, `update_task` and `delete_task` | a fresh database after seeding, and the admin user with a valid token, a parsed body and a valid task id: the reply is 403 "You do not have permission to update this task" | scan for `update_task`, which seeding creates and gives to `admin` | high (proved on the model; not executed) | UpdateDefect.UpdateOnSeededPermissions | UpdateDefect.UpdateTaskIntended |
