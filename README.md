# TaskSync core, modelled in Dafny

TaskSync is a small task manager. An Express/Mongoose server keeps each
user's tasks. A React client mirrors the tasks and the login session in two
reducer-driven contexts. This project models the logic of four files:

- the server's task record schema (`server/models/Task.js`), as module `TaskSchema`;
- the server's seven task routes (`server/routes/tasks.js`), as module
  `TaskRoutes`. Class `TaskService` holds the task store as a map from id to
  record and has one method per route. The authenticated caller's id and the
  clock are parameters;
- the client's task context (`src/context/TaskContext.tsx`), as module
  `TaskContext`. The reducer and `applyFilters` are pure functions with
  lemmas. Class `TaskProvider` holds the `useReducer` state cell and a log of
  dispatched actions, and its methods follow the request → success/failure
  dispatch sequences of `fetchTasks`, `addTask`, `updateTask` and `deleteTask`;
- the client's session context (`src/context/AuthContext.tsx`), as module
  `AuthContext`. The reducer is a pure function. Class `AuthProvider` holds
  the state, the browser storage and an ordered log of storage writes and
  dispatches for `login`, `register` and `logout`.

Supporting modules:

- `Wrappers`: Option and Result.
- `ClientApi`: the outcome of a server call, and the
  `error.response?.data?.message || fallback` message rule.
- `Strings`: ECMAScript `trim`, ASCII `toLowerCase` and `includes`.
- `Sequences`: `Array.prototype.filter` as `Keep`.

Each server call the client makes is a parameter: it resolves with a payload
or rejects with an optional server message. Nothing is awaited and nothing
runs concurrently.

The main results:

- The client's cached `filteredTasks` always equals `applyFilters(tasks, filter)`.
- `applyFilters` keeps, in order, exactly the tasks that pass the category,
  status and case-insensitive title checks.
- The session state and the browser storage stay in step through `login`,
  `register` and `logout`.
- Each server listing is the caller's matching tasks, each exactly once,
  newest first.
- Every route depends only on the caller's own tasks, and never changes
  another user's tasks.
- `PATCH` applies its checks in a fixed order. It overwrites exactly the
  supplied fields, and the same PATCH applied twice gives the same result as
  applying it once.

Behaviour of the code that the model follows and a reader might not expect:

- `POST /` has no `.optional()` on its `category` and `status` validators.
  A body without them is rejected with 400, so the schema defaults (`Other`,
  `pending`) never apply through this route. `TaskSchema.NewTask` still
  models the defaults.
- A title of only whitespace passes `notEmpty()`. The schema's `trim`
  setter then makes it empty, so `save()` fails the `required` check, and the
  route answers 500 "Server error" without storing anything. The model shows
  this path for both `POST /` and `PATCH /:id`.
- The timestamps plug-in moves `updatedAt` only when a field actually
  changed. A PATCH that writes equal values, or the same PATCH sent a second
  time, leaves `updatedAt` alone.

## Model

| member | source | states |
|---|---|---|
| `ClientApi.ErrorText` | src/context/AuthContext.tsx:109 | the text is the server's message when one is present and non-empty, otherwise the fallback |
| `Strings.TrimStart` | server/models/Task.js:5-9 | what is kept is a suffix, everything dropped is whitespace, and what is kept does not start with whitespace |
| `Strings.TrimEnd` | server/models/Task.js:5-9 | what is kept is a prefix, everything dropped is whitespace, and what is kept does not end with whitespace |
| `Strings.Trim` | server/models/Task.js:5-9 | the result has no whitespace at either end and is no longer than the input |
| `Strings.TrimIsSlice` | server/models/Task.js:5-9 | the trimmed string is a contiguous slice of the input, and everything before and after that slice is whitespace |
| `Strings.TrimmedIsFixpoint` | server/models/Task.js:10-13 | trimming leaves a string unchanged exactly when it has no whitespace at either end |
| `Strings.TrimIdempotent` | server/models/Task.js:10-13 | trimming twice is the same as trimming once |
| `Strings.TrimEmptyIffAllSpace` | server/models/Task.js:5-9 | a string trims to empty exactly when every character is whitespace |
| `Strings.ToLower` | src/context/TaskContext.tsx:167 | lower-casing keeps the length and folds each character independently |
| `Strings.Includes` | src/context/TaskContext.tsx:167 | `includes` finds nothing longer than the string, always finds the empty string, and finds any suffix of the string |
| `Strings.IncludesIff` | src/context/TaskContext.tsx:167 | the `includes` scan succeeds exactly when the part occurs at some index of the string |
| `Sequences.Keep` | src/context/TaskContext.tsx:155-172 | `filter` returns an order-preserving subsequence no longer than its input, keeps only elements satisfying the predicate, and keeps every element that satisfies it |
| `Sequences.KeepCount` | src/context/TaskContext.tsx:155-172 | `filter` keeps every occurrence of an element the predicate holds of and no occurrence of any other: each element's count is its input count or zero |
| `Sequences.KeepAll` | src/context/TaskContext.tsx:155-172 | a predicate true of every element keeps the whole input |
| `Sequences.KeepAppend` | src/context/TaskContext.tsx:94-95 | filtering a concatenation is concatenating the filtered parts |
| `TaskSchema.ParseCategory` | server/models/Task.js:17-21 | a string is accepted exactly when it is the name of one of the four categories, and it is read back as that category |
| `TaskSchema.ParseStatus` | server/models/Task.js:22-26 | a string is accepted exactly when it is the name of one of the three statuses, and it is read back as that status |
| `TaskSchema.CategoryRoundTrip` | server/models/Task.js:17-21 | every category survives name-then-parse |
| `TaskSchema.StatusRoundTrip` | server/models/Task.js:22-26 | every status survives name-then-parse |
| `TaskSchema.NewTask` | server/models/Task.js:3-38 | creation succeeds exactly when the trimmed title is non-empty. The record stores the given title trimmed, the given description trimmed (or none), and the given due date. It is well formed and carries the given id and owner. Both timestamps are the creation instant. A missing category defaults to Other, a missing status to pending, and given values are kept |
| `TaskSchema.NewTaskFailsIffBlankTitle` | server/models/Task.js:5-9 | saving a new record fails exactly when the given title is entirely whitespace |
| `TaskSchema.Touch` | server/models/Task.js:33-35 | `updatedAt` becomes the save instant exactly when a user field changed, and nothing else about the record changes |
| `TaskRoutes.CreateErrors` | server/routes/tasks.js:39-48 | POST validation passes exactly when the title is present and non-empty and category and status are present and in their enumerations |
| `TaskRoutes.FieldsOf` | server/routes/tasks.js:51-60 | a validated body yields its title as given (non-empty), the category and status it names, and a description and due date exactly when the body carries them, with their values |
| `TaskRoutes.PatchErrors` | server/routes/tasks.js:76-85 | PATCH validation passes exactly when every supplied title is non-empty and every supplied category or status is in its enumeration; absent fields pass |
| `TaskRoutes.Owned` | server/routes/tasks.js:22-26 | a task is found exactly when it exists and the caller owns it, and the task found is the stored one |
| `TaskRoutes.GetReply` | server/routes/tasks.js:20-33 | GET /:id answers 200 with the stored task exactly when the caller owns a task with that id, and 404 "Task not found" otherwise |
| `TaskRoutes.GetSeesOnlyOwnTasks` | server/routes/tasks.js:20-28 | GET /:id gives the same answer for any two stores that agree on the caller's own tasks, so another user's task reads as missing |
| `TaskRoutes.ListingSeesOnlyOwnTasks` | server/routes/tasks.js:9-12 | whether a sequence is a correct listing depends only on the caller's own tasks |
| `TaskRoutes.InsertNewestFirst` | server/routes/tasks.js:11 | one insertion step of the sort adds exactly one entry and the new task is among the entries; the first entry is either the new task or the old first entry |
| `TaskRoutes.InsertNewestFirstSorted` | server/routes/tasks.js:11 | inserting a task into a newest-first sequence keeps it newest first |
| `TaskRoutes.InsertNewestFirstCount` | server/routes/tasks.js:11 | insertion adds exactly one copy of the task and keeps every old entry, counted as a multiset |
| `TaskRoutes.InsertNewestFirstMembers` | server/routes/tasks.js:11 | after insertion the members are the old members plus the new task |
| `TaskRoutes.InsertKeepsNoRepeats` | server/routes/tasks.js:11 | inserting a task not yet present creates no repeated task |
| `TaskRoutes.Assign` | server/routes/tasks.js:102 | writing one body key changes only that key's field. A title or description is stored as the value trimmed, a due date as given, and a category or status as the one the value names; id, owner and both timestamps are kept |
| `TaskRoutes.Patched` | server/routes/tasks.js:102 | writing a set of body keys gives each key in the set its field's new value (title and description trimmed, due date as given, category and status as named) and keeps every field whose key is not in the set, together with id, owner and both timestamps |
| `TaskRoutes.AssignStep` | server/routes/tasks.js:102 | writing one more body key onto a partly patched task gives the task patched with that key as well |
| `TaskRoutes.WriteKeys` | server/routes/tasks.js:102 | writing the body's keys one at a time, in whatever order the set yields them, produces the document with all of them written |
| `TaskRoutes.Updated` | server/routes/tasks.js:102-103 | a saved PATCH keeps id, owner and creation time. `updatedAt` becomes the save instant when some field changed, and stays as it was when none did |
| `TaskRoutes.UpdateWritesNamedFields` | server/routes/tasks.js:102-103 | every field the body names ends up with the body's value: title and description trimmed, due date as given, category and status as spelled |
| `TaskRoutes.UpdatedWellFormed` | server/routes/tasks.js:102-103 | a PATCH that passes the save-time `required` check keeps the record well formed (title non-empty and trimmed, description trimmed) under its own id |
| `TaskRoutes.UpdateKeepsUnnamedFields` | server/routes/tasks.js:102-105 | a PATCH never changes owner, id or creation time, and leaves every field not named in the body unchanged |
| `TaskRoutes.UpdateTwiceIsOnce` | server/routes/tasks.js:102-103 | applying the same accepted PATCH a second time, at any instant, leaves the record the first application produced, `updatedAt` included |
| `TaskRoutes.CreateIgnoresOtherKeys` | server/routes/tasks.js:51-60 | any body key outside the five task fields, an `owner` among them, changes neither the validation result nor the fields read from the body |
| `TaskRoutes.TaskService.Select` | server/routes/tasks.js:11 | the result is newest first, without repeats, contains only stored tasks matching the caller and criterion, and contains every such task |
| `TaskRoutes.TaskService.List` | server/routes/tasks.js:9-17 | GET / answers exactly the caller's tasks, newest first |
| `TaskRoutes.TaskService.Get` | server/routes/tasks.js:20-33 | GET /:id answers 200 with the stored task exactly when the caller owns a task with that id, and 404 "Task not found" otherwise |
| `TaskRoutes.TaskService.ListByCategory` | server/routes/tasks.js:130-144 | an out-of-enum category answers 400 "Invalid category"; otherwise the answer is exactly the caller's tasks in that category, newest first |
| `TaskRoutes.TaskService.ListByStatus` | server/routes/tasks.js:147-161 | an out-of-enum status answers 400 "Invalid status"; otherwise the answer is exactly the caller's tasks with that status, newest first |
| `TaskRoutes.TaskService.Create` | server/routes/tasks.js:35-69 | validation errors answer 400 with the messages in chain order, and a blank title answers 500; both leave the store unchanged. Otherwise a fresh id is stored with the schema's record, owned by the caller, and answered with 201, and the id counter moves on by one; no other id changes, so every other user's tasks are as they were. The store invariant is kept |
| `TaskRoutes.TaskService.Update` | server/routes/tasks.js:72-111 | checks run in order: validators (400), allow-list (400 "Invalid updates", even for a missing task), ownership (404). Then the body is written key by key (`WriteKeys`) and saved: 500 and no change if the title became empty, else 200 with the patched, touched record stored at that id only, so every other user's tasks are as they were. Every rejection leaves the store unchanged |
| `TaskRoutes.TaskService.Delete` | server/routes/tasks.js:114-127 | a task owned by the caller is removed (that id only) and answered "Task deleted"; otherwise 404 and the store is unchanged. Every other user's tasks are as they were |
| `TaskRoutes.OtherUsersUnaffected` | server/routes/tasks.js:53-116 | writing a caller-owned task (the POST save, the PATCH save) or removing one (the DELETE) leaves every other user's tasks exactly as they were |
| `TaskRoutes.DeleteThenGetIsNotFound` | server/routes/tasks.js:114-122 | once a task is removed, GET /:id answers 404 and a second DELETE finds nothing |
| `TaskContext.PassesFilter` | src/context/TaskContext.tsx:155-172 | a task that passes has the active category and the active status (when they are set), and with no category, status or search text every task passes |
| `TaskContext.PassesFilterIff` | src/context/TaskContext.tsx:155-172 | the early-return callback accepts a task exactly when: no active category or it matches; no active status or it matches; and empty search or the lower-cased title contains the lower-cased search |
| `TaskContext.ApplyFilters` | src/context/TaskContext.tsx:151-173 | `applyFilters` returns no more tasks than it is given, and every task it returns passes the callback |
| `TaskContext.ApplyFiltersSpec` | src/context/TaskContext.tsx:151-173 | `applyFilters` returns an order-preserving subsequence of its input containing exactly the tasks that match the filter, each as many times as in the input |
| `TaskContext.ApplyNoFilterIsIdentity` | src/context/TaskContext.tsx:157-169 | with no category, no status and no search text, `applyFilters` returns its input unchanged |
| `TaskContext.InitialState` | src/context/TaskContext.tsx:38-49 | the initial state is consistent (its view is the filtered list), empty, idle, without error and unfiltered |
| `TaskContext.RemoveById` | src/context/TaskContext.tsx:114 | the `filter` by `_id` returns no more entries than it is given, and none with the removed `_id` |
| `TaskContext.MergeFilter` | src/context/TaskContext.tsx:133-139 | each filter field is the payload's value when the payload defines it, and the old value otherwise |
| `TaskContext.ReplaceById` | src/context/TaskContext.tsx:102 | the `map` keeps the length and the `_id` at every position |
| `TaskContext.ReplaceByIdSpec` | src/context/TaskContext.tsx:102 | the `map` keeps the length, puts the payload in place of every entry with its `_id`, and leaves all other entries as they were |
| `TaskContext.Reduce` | src/context/TaskContext.tsx:71-148 | every action maps a consistent state to a consistent one: `filteredTasks` stays equal to `applyFilters(tasks, filter)` |
| `TaskContext.ViewIsFilteredList` | src/context/TaskContext.tsx:71-148 | in any consistent state the view is, in list order, exactly the tasks that match the filter, each as many times as in the list |
| `TaskContext.RequestTouchesOnlyLoadingAndError` | src/context/TaskContext.tsx:73-81 | a REQUEST yields the old state with `isLoading` set and `error` cleared, and nothing else changed |
| `TaskContext.FailureTouchesOnlyLoadingAndError` | src/context/TaskContext.tsx:119-127 | a FAILURE yields the old state with `isLoading` cleared and `error` set to its payload, and nothing else changed |
| `TaskContext.SuccessSettles` | src/context/TaskContext.tsx:82-118 | every SUCCESS ends loading and clears the error. For each kind the whole new state is given: FETCH installs the list, ADD prepends the payload, UPDATE replaces by `_id` and refreshes a matching `activeTask`, DELETE removes by `_id` and clears a matching `activeTask`; the view is recomputed and nothing else changes |
| `TaskContext.AddPrepends` | src/context/TaskContext.tsx:90-97 | ADD_TASK_SUCCESS makes the list the payload followed by the old list (one longer); the view gains the payload in front exactly when it passes the filter |
| `TaskContext.UpdateReplacesById` | src/context/TaskContext.tsx:98-109 | UPDATE_TASK_SUCCESS keeps the length, replaces each entry with the payload's `_id`, and leaves the rest unchanged; `activeTask` is replaced only when it has that `_id` |
| `TaskContext.DeleteRemovesById` | src/context/TaskContext.tsx:110-118 | DELETE_TASK_SUCCESS keeps, in order, exactly the entries with a different `_id`, each as many times as before; `activeTask` becomes null exactly when it had that `_id`, and is otherwise kept |
| `TaskContext.FilterMergesDefinedFields` | src/context/TaskContext.tsx:133-144 | FILTER_TASKS overwrites exactly the filter fields the payload defines, leaves `tasks` alone and recomputes the view |
| `TaskContext.FilterIdempotent` | src/context/TaskContext.tsx:133-144 | dispatching the same FILTER_TASKS payload twice gives the same state as once |
| `TaskContext.FailureAction` | src/context/TaskContext.tsx:193-252 | a rejected call dispatches the FAILURE of its own kind, carrying the server's message when it is present and non-empty |
| `TaskContext.TaskProvider.constructor` | src/context/TaskContext.tsx:177 | the provider starts from the initial state with nothing dispatched |
| `TaskContext.TaskProvider.Dispatch` | src/context/TaskContext.tsx:177 | a dispatch applies the reducer, is logged, and keeps the view consistent |
| `TaskContext.TaskProvider.FetchTasks` | src/context/TaskContext.tsx:181-198 | unauthenticated: nothing happens. Otherwise REQUEST, then SUCCESS installing the fetched list, or FAILURE with the server message or "Failed to fetch tasks", leaving only `isLoading` and `error` changed |
| `TaskContext.TaskProvider.AddTask` | src/context/TaskContext.tsx:201-217 | REQUEST then SUCCESS prepending the created task, or FAILURE with the message or "Failed to add task" followed by a rethrow. On success the whole new state is the list with the task in front, its view recomputed, idle and without error; `activeTask` and `filter` are kept |
| `TaskContext.TaskProvider.UpdateTask` | src/context/TaskContext.tsx:220-236 | REQUEST then SUCCESS replacing by `_id`, or FAILURE with the message or "Failed to update task" followed by a rethrow. On success the whole new state is given: the list replaced by `_id`, `activeTask` refreshed when it has that `_id`, `filter` kept, the view recomputed, idle and without error |
| `TaskContext.TaskProvider.DeleteTask` | src/context/TaskContext.tsx:239-255 | REQUEST then SUCCESS removing the requested id, or FAILURE with the message or "Failed to delete task" followed by a rethrow. On success the whole new state is given: the entries with that id removed, `activeTask` cleared when it has that id, `filter` kept, the view recomputed, idle and without error |
| `TaskContext.TaskProvider.SetActive` | src/context/TaskContext.tsx:258-263 | one SET_ACTIVE_TASK dispatch, changing only `activeTask` |
| `TaskContext.TaskProvider.Filter` | src/context/TaskContext.tsx:266-271 | one FILTER_TASKS dispatch, merging the filter and recomputing the view from the unchanged `tasks`; `activeTask`, `isLoading` and `error` are kept |
| `AuthContext.Reduce` | src/context/AuthContext.tsx:41-87 | after any SUCCESS, FAILURE, LOGOUT or AUTH_ERROR, the session is authenticated exactly when it holds a token |
| `AuthContext.RequestStartsLoading` | src/context/AuthContext.tsx:43-49 | LOGIN_REQUEST/REGISTER_REQUEST set `isLoading` and clear `error`; `user`, `token` and `isAuthenticated` are unchanged |
| `AuthContext.SuccessInstallsSession` | src/context/AuthContext.tsx:50-59 | LOGIN_SUCCESS/REGISTER_SUCCESS install the payload's user and token, authenticate, stop loading and clear the error |
| `AuthContext.FailureDropsSession` | src/context/AuthContext.tsx:60-69 | LOGIN_FAILURE/REGISTER_FAILURE drop user and token, deauthenticate, stop loading and set the error to the payload |
| `AuthContext.LogoutKeepsError` | src/context/AuthContext.tsx:70-78 | LOGOUT/AUTH_ERROR drop user, token and authentication and stop loading, keeping the previous error |
| `AuthContext.LoadUserOnlyLoads` | src/context/AuthContext.tsx:79-83 | LOAD_USER changes only `isLoading`, to true |
| `AuthContext.InitialState` | src/context/AuthContext.tsx:19-25 | the initial session mirrors the storage. It is authenticated exactly when a non-empty, unexpired token is stored, and it is idle without error |
| `AuthContext.SignInEffects` | src/context/AuthContext.tsx:94-147 | four effects with REQUEST first and only once. On success both storage writes come before SUCCESS, which is last. On failure FAILURE, with the message or fallback, comes second, followed only by removals |
| `AuthContext.AuthProvider.constructor` | src/context/AuthContext.tsx:91 | the provider starts from the initial state read from storage, in step with it |
| `AuthContext.AuthProvider.DispatchAction` | src/context/AuthContext.tsx:91 | a dispatch applies the reducer and is logged, and storage is untouched |
| `AuthContext.AuthProvider.SetStorageItem` | src/utils/auth.ts:20-22 | `setItem` writes one key and is logged, and the state is untouched |
| `AuthContext.AuthProvider.RemoveStorageItem` | src/utils/auth.ts:24-27 | `removeItem` deletes one key and is logged, and the state is untouched |
| `AuthContext.AuthProvider.SignIn` | src/context/AuthContext.tsx:94-147 | REQUEST first. On success, the token and then the user are written before SUCCESS, leaving an authenticated session and storage holding exactly those two. On failure, FAILURE with the message or fallback comes before both keys are removed, and the message is thrown. State and storage stay in step |
| `AuthContext.AuthProvider.Login` | src/context/AuthContext.tsx:94-119 | `login`: the sign-in sequence with fallback "Login failed". On success the session holds the returned user and token, authenticated, idle and without error, and storage holds exactly those two. On failure the session is empty with the message as error, storage is empty, and the message is thrown |
| `AuthContext.AuthProvider.Register` | src/context/AuthContext.tsx:122-147 | `register`: the same sequence with fallback "Registration failed", with the same whole new state and storage as `login` on success and on failure |
| `AuthContext.AuthProvider.LogOut` | src/context/AuthContext.tsx:150-153 | both keys are removed, then LOGOUT is dispatched, unconditionally; storage ends empty and the session is cleared with its error kept |

## Left out

- Networking and asynchrony. Each call's result is a parameter (resolved payload or rejection with an optional message). In-flight requests never interleave. The `useEffect` that fetches on login (src/context/TaskContext.tsx:274-278) is not modelled.
- The authentication routes (`server/routes/auth.js`) and the auth middleware. The caller's user id is a parameter of every route.
- `AuthContext.InitialState`: JWT decoding and the expiry comparison with the clock are a boolean parameter (`tokenLive`).
- JSON serialisation of the stored user: storage holds the user value itself.
- `TaskRoutes.TaskService.Create`: ObjectId generation is a counter of natural numbers (`nextId`).
- The 500 "Server error" answers caused by a failing store or a malformed id (`CastError`) are left out. Only the 500 caused by a blank title, which follows from the schema, is modelled.
- `dueDate` is kept as the string it was given; casting to a `Date`, and the error for an invalid date, are not modelled.
- `TaskRoutes.TaskService.Create`, `TaskRoutes.TaskService.Update`: a 400 from the validators carries only the message strings (`ErrorsReply`), in chain order. The `type`, `value`, `path` and `location` that express-validator adds to each entry of `errors` are not modelled.
- Request body values are strings. Non-string JSON values and their casting are not modelled.
- `Strings.ToLower`: folds ASCII letters only, not Unicode case mapping.
- The reducers' `default` branches cannot be reached with the modelled action types, so they are not modelled.
- The rendering components, `server/index.js`, and the due-soon and overdue display helpers are not part of this model.
