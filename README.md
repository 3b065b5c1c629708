# Todo domain layer

A Dafny model of the server-side todo domain of a Convex application. It has four layers.

- **Field validators** (`convex/helpers/validation.ts`): title, description, due date, status and priority checks. There are two composite checks, one for create and one for update, and each reports the first rule that fails.
- **Constants and status lifecycle** (`convex/helpers/constants.ts`): the length limits, the status and priority literals, and the `STATUS_TRANSITIONS` table behind `isValidStatusTransition`.
- **Record store gateway** (`convex/db/todos.ts`): the only code that touches the `todos` table. It is modelled as the class `Todos.Table`, which holds the documents in a `map<Id, Todo>` and the counter that hands out the next id. Insert, patch and delete reassign the map. The index reads (by owner, by owner and status, by owner and priority, and by owner, status and creation time) are functions over that map.
- **Endpoints** (`convex/endpoints/todos.ts`): `create`, `list`, `listByStatus`, `listByPriority`, `get`, `update`, `remove`, `complete`, `archive` and `stats`. The mutating handlers are methods on the store. Each one runs its guards in the source's order: authentication, then the rate limit, then existence, then ownership, then validation, and only then the write. A thrown error becomes an `Err` of the `Endpoints.Error` datatype, and an `Err` always leaves the store as it was.

How the environment is represented:
- The authenticated user is an `Option<UserId>` input.
- The rate limiter is a pure function from (limit name, user) to `{ok, retryAfter}`.
- `Date.now()` is a `now: int` parameter. Within one mutation the same `now` serves validation and the write.
- A document id is a natural number handed out in increasing order, so a larger id is a younger document. This stands for Convex's `_creationTime`, which orders every index read marked `.order("desc")`.
- JavaScript `length` counts UTF-16 code units (`JsString.Utf16Length`). `trim()` strips the ECMA-262 WhiteSpace and LineTerminator code points (`JsString.IsWhitespace`).
- JavaScript falsy checks are kept. An empty description and a due date of `0` are accepted without further checks.

The repository defines a status lifecycle: `STATUS_TRANSITIONS` and `isValidStatusTransition` (`convex/helpers/constants.ts:22-33`). No handler in `convex/endpoints/todos.ts` calls them: `update`, `complete` and `archive` all write the status unconditionally. The model follows the code (`Endpoints.Update`, `Endpoints.Complete`, `Endpoints.Archive`). The lifecycle-enforcing handlers are modelled beside them as corrected members (see Findings).

## Model

| member | source | states |
|---|---|---|
| Constants.ParseStatus | convex/helpers/constants.ts:14-15 | A string names a status iff it is one of `TODO_STATUSES`, and parsing is the inverse of the status literal |
| Constants.ParsePriority | convex/helpers/constants.ts:18-19 | A string names a priority iff it is one of `TODO_PRIORITIES`, and parsing is the inverse of the priority literal |
| Constants.NamesMatchLiterals | convex/helpers/constants.ts:14-19 | The literal lists are the three statuses and the three priorities in declaration order; every literal parses back to its value |
| Constants.IsValidStatusTransition | convex/helpers/constants.ts:31-33 | The table lookup allows a move iff it goes to a different status and is not archived to completed |
| Constants.TransitionTableIsTotal | convex/helpers/constants.ts:22-33 | The table has an entry for every status, so the `?? false` fallback is never used; the lookup agrees with table membership; no status may move to itself |
| Constants.LegalMovesExactly | convex/helpers/constants.ts:22-26 | The legal moves are exactly active to completed or archived, completed to active or archived, and archived to active |
| Constants.OnlyArchivedToCompletedForbidden | convex/helpers/constants.ts:22-26 | Among moves between different statuses, archived to completed is the only forbidden one |
| Constants.EveryStatusHasSuccessor | convex/helpers/constants.ts:22-26 | Every status has at least one legal move out |
| Constants.ReachableInTwoMoves | convex/helpers/constants.ts:22-26 | Every status reaches every other status in at most two legal moves |
| JsString.Utf16Length | convex/helpers/validation.ts:13 | `length` lies between the number of code points and twice that number |
| JsString.BmpLength | convex/helpers/validation.ts:13 | For text inside the Basic Multilingual Plane, `length` is the number of characters |
| JsString.TrimStart | convex/helpers/validation.ts:13 | The result is a suffix of the input; everything removed is white space; the result does not start with white space |
| JsString.TrimEnd | convex/helpers/validation.ts:13 | The result is a prefix of the input; everything removed is white space; the result does not end with white space |
| JsString.TrimEmptyIffBlank | convex/helpers/validation.ts:13 | `trim()` gives the empty string iff every character is white space |
| JsString.TrimLengthPositiveIffNotBlank | convex/helpers/validation.ts:13 | `trim().length > 0` iff the string has a non-white-space character |
| Validation.IsValidTitle | convex/helpers/validation.ts:12-14 | A title is valid iff it has a non-white-space character and its untrimmed length is at most `MAX_TITLE_LENGTH`; the literal 200 in the code equals that constant |
| Validation.TitleBoundaries | convex/helpers/validation.ts:12-14 | A non-blank title of length 200 passes, length 201 fails, and a blank title fails |
| Validation.TitleLengthExamples | convex/helpers/validation.ts:12-14 | 200 letters pass, 201 letters fail, 200 spaces fail |
| Validation.IsValidDescription | convex/helpers/validation.ts:20-23 | A description is valid iff it is absent or at most `MAX_DESCRIPTION_LENGTH` long; the empty string takes the falsy path and is accepted |
| Validation.DescriptionBoundaries | convex/helpers/validation.ts:20-23 | Length 2000 passes, length 2001 fails, absent and empty pass |
| Validation.IsValidDueDate | convex/helpers/validation.ts:29-32 | An absent due date and the falsy 0 are valid; any other due date is valid iff it is strictly after `now` |
| Validation.DueDateBoundaries | convex/helpers/validation.ts:29-32 | A due date equal to `now` fails, `now + 1` passes, 0 and absent pass |
| Validation.IsValidStatus | convex/helpers/validation.ts:37-39 | Accepts exactly the strings that are the literal of some status |
| Validation.IsValidPriority | convex/helpers/validation.ts:44-46 | Accepts exactly the strings that are the literal of some priority |
| Validation.FirstFailureSpec | convex/helpers/validation.ts:56-73 | Reading a list of rules first-failure gives an error iff some rule fails, and the error is the message of the earliest failing rule |
| Validation.ValidateTodoCreate | convex/helpers/validation.ts:51-74 | Valid iff title, description, due date and priority all pass; `error` is present iff not valid |
| Validation.CreateIsFirstFailure | convex/helpers/validation.ts:57-73 | The result is the first-failure reading of the rules in the order title, description, due date, priority, so exactly one error is reported: the first rule's |
| Validation.ValidateTodoUpdate | convex/helpers/validation.ts:79-107 | Valid iff every field that is present passes its rule; `error` is present iff not valid |
| Validation.UpdateIsFirstFailure | convex/helpers/validation.ts:86-106 | The result is the first-failure reading of the rules in the order title, description, status, due date, priority, with an absent field passing |
| Validation.EmptyUpdateIsValid | convex/helpers/validation.ts:79-107 | An update that carries no field is valid |
| Todos.ApplyPatch | convex/db/todos.ts:107-110 | A patch never changes the id, the owner or `createdAt`, and sets `updatedAt` to `now` |
| Todos.PatchOverwritesOnlyPresentFields | convex/db/todos.ts:96-111 | Every field the patch carries takes the new value; every field it leaves out keeps the old value |
| Todos.PatchIdempotent | convex/db/todos.ts:107-110 | Applying the same patch twice at the same time equals applying it once |
| Todos.EmptyPatchTouchesOnlyUpdatedAt | convex/db/todos.ts:107-110 | A patch with no fields only moves `updatedAt` |
| Todos.NewestFirstIsIndexScan | convex/db/todos.ts:44-48 | An index read returns every stored matching document, nothing else, each once, youngest first |
| Todos.ScanSound | convex/db/todos.ts:44-48 | Everything an index read returns is a stored document, under its own id, that matches the index prefix |
| Todos.ScanComplete | convex/db/todos.ts:44-48 | Every stored document matching the index prefix is returned |
| Todos.ScanYoungestFirst | convex/db/todos.ts:47 | Ids strictly decrease along an index read (descending order, no duplicates) |
| Todos.ScanLength | convex/db/todos.ts:122-128 | An index read has as many entries as there are matching stored ids |
| Todos.ScanFrame | convex/db/todos.ts:44-48 | An index read depends only on the documents below the id bound |
| Todos.InsertComesFirst | convex/db/todos.ts:24-28 | A document inserted under the next id comes first in every index read it matches, followed by the read as it was |
| Todos.WithStatusMembers | convex/endpoints/todos.ts:301-303 | Filtering by status keeps exactly the todos with that status, and never adds any |
| Todos.WithStatusConcat | convex/endpoints/todos.ts:301-303 | Filtering by status keeps order: the filter of a concatenation is the concatenation of the filters |
| Todos.WithStatusCount | convex/endpoints/todos.ts:301-303 | `filter(status === s).length` is the number of positions of the list holding status `s` |
| Todos.WithPriorityMembers | convex/endpoints/todos.ts:305-307 | Filtering by priority keeps exactly the todos with that priority, and never adds any |
| Todos.WithPriorityConcat | convex/endpoints/todos.ts:305-307 | Filtering by priority keeps order: the filter of a concatenation is the concatenation of the filters |
| Todos.WithPriorityCount | convex/endpoints/todos.ts:305-307 | `filter(priority === p).length` is the number of positions of the list holding priority `p` |
| Todos.ActiveWithPriorityCount | convex/endpoints/todos.ts:305-307 | `filter(priority === p && status === "active").length` is the number of positions holding an active todo of priority `p` |
| Todos.StatusScanIsFilter | convex/db/todos.ts:52-64 | The (owner, status) read is the owner's read filtered by status, in the same order |
| Todos.PriorityScanIsFilter | convex/db/todos.ts:67-79 | The (owner, priority) read is the owner's read filtered by priority, in the same order |
| Todos.StatusScanPriorityCount | convex/db/todos.ts:52-64 | In the (owner, status) read, the todos of priority `p` are as many as the stored ids with that owner, status and priority |
| Todos.InsertByCreatedAddsOne | convex/db/todos.ts:88-91 | Inserting a document into the `createdAt` order adds exactly that document |
| Todos.InsertByCreatedKeepsSorted | convex/db/todos.ts:88-91 | Inserting into a sequence in `createdAt` order keeps it in that order |
| Todos.SortByCreatedSpec | convex/db/todos.ts:86-92 | Putting documents in `by_user_status_and_created` order keeps the same documents and orders them latest `createdAt` first |
| Todos.SortKeepsOrdered | convex/db/todos.ts:88-91 | A sequence that is already in creation order is left as it is |
| Todos.CreatedOrderIsInsertionOrder | convex/db/todos.ts:82-93 | When `createdAt` never decreases from an older document to a younger one, the creation-time read equals the (owner, status) read |
| Todos.Table.CreateTodo | convex/db/todos.ts:12-29 | Stores every supplied field under a fresh id (the counter) with `createdAt = updatedAt = now`; the other documents are untouched |
| Todos.Table.GetTodoById | convex/db/todos.ts:32-37 | Returns the stored document with that id, or none iff the id is absent |
| Todos.Table.GetTodosByUser | convex/db/todos.ts:40-49 | The owner's documents, each exactly once, nothing else, youngest first |
| Todos.Table.GetTodosByUserAndStatus | convex/db/todos.ts:52-64 | The index read by owner and status, and equal to the owner's read filtered by status |
| Todos.Table.GetTodosByUserAndPriority | convex/db/todos.ts:67-79 | The index read by owner and priority, and equal to the owner's read filtered by priority |
| Todos.Table.GetActiveTodosByUser | convex/db/todos.ts:82-93 | The same documents as the (owner, active) read, in `createdAt` order; equal to that read when the clock is monotone |
| Todos.Table.UpdateTodo | convex/db/todos.ts:96-111 | Patches the document with that id and leaves every other document alone; a missing id changes nothing |
| Todos.Table.DeleteTodo | convex/db/todos.ts:114-119 | Removes that id and nothing else |
| Todos.Table.CountTodosByUser | convex/db/todos.ts:122-128 | The number of stored documents the user owns |
| Todos.Table.CountActiveTodosByUser | convex/db/todos.ts:131-137 | The number of stored documents the user owns that are active |
| Validation.EnumNamesAreValid | convex/helpers/validation.ts:37-46 | Every status name passes `isValidStatus` and every priority name passes `isValidPriority` |
| Endpoints.EnumFieldsAlwaysValid | convex/endpoints/todos.ts:20-25 | Status and priority arrive narrowed by the argument validators, so validation can only fail on title, description or due date |
| Endpoints.FetchOwned | convex/endpoints/todos.ts:123-131 | A missing id is `NotFound`; an id owned by someone else is `Forbidden`; otherwise the stored document |
| Endpoints.Create | convex/endpoints/todos.ts:19-60 | Checks run in the order authentication, rate limit, validation; it succeeds iff all pass; then exactly one active todo owned by the caller is inserted with the given fields, under the next id, and the counter moves on by one; the caller's `list` then starts with the new todo followed by the list as it was; on any error the store is unchanged |
| Endpoints.List | convex/endpoints/todos.ts:65-74 | `Unauthenticated` iff no user; otherwise exactly the caller's todos, youngest first |
| Endpoints.ListByStatus | convex/endpoints/todos.ts:79-91 | `Unauthenticated` iff no user; otherwise only the caller's todos with that status, equal to `list` filtered by status |
| Endpoints.ListByPriority | convex/endpoints/todos.ts:96-108 | `Unauthenticated` iff no user; otherwise only the caller's todos with that priority, equal to `list` filtered by priority |
| Endpoints.Get | convex/endpoints/todos.ts:113-135 | Checks run in the order authentication, existence, ownership; it succeeds iff the caller owns the stored todo and then returns it |
| Endpoints.Update | convex/endpoints/todos.ts:140-191 | Checks run in the order authentication, rate limit, existence, ownership, validation; on success only the supplied fields and `updatedAt` change; no transition check is applied; on error the store is unchanged |
| Endpoints.Remove | convex/endpoints/todos.ts:196-231 | Checks run in the order authentication, rate limit, existence, ownership; on success the id is absent and every other document is intact |
| Endpoints.Complete | convex/endpoints/todos.ts:236-258 | Checks run in the order authentication, existence, ownership; never `RateLimited`; on success the status is completed whatever it was, and `updatedAt = now` |
| Endpoints.Archive | convex/endpoints/todos.ts:263-285 | Checks run in the order authentication, existence, ownership; never `RateLimited`; on success the status is archived whatever it was, and `updatedAt = now` |
| Endpoints.UpdateWithLifecycle | convex/endpoints/todos.ts:182-189 | Corrected `update`: as `Update`, and a status move the lifecycle table forbids is refused with `IllegalTransition` and changes nothing; every accepted status change is a legal move |
| Endpoints.CompleteWithLifecycle | convex/endpoints/todos.ts:256 | Corrected `complete`: a todo whose status may not move to completed is refused with `IllegalTransition` and changes nothing |
| Endpoints.StatusesPartition | convex/endpoints/todos.ts:300-303 | The three status counts add up to the number of todos |
| Endpoints.PrioritiesPartition | convex/endpoints/todos.ts:305-307 | The three priority counts add up to the number of todos |
| Endpoints.ComputeStats | convex/endpoints/todos.ts:299-309 | `total` is the list's length; each status count is the number of positions holding that status; each priority count is the number of positions holding an active todo of that priority; `total = active + completed + archived` and `high + medium + low = active` |
| Endpoints.GetStats | convex/endpoints/todos.ts:290-313 | `Unauthenticated` iff no user; otherwise `total` is the number of todos the caller owns, each status count the number the caller owns with that status, and each priority count the number of the caller's active todos with that priority; the active count is the store's active count |
| Endpoints.StatsCountOwnedTodos | convex/endpoints/todos.ts:297-309 | The total and active counts of `stats` equal `countTodosByUser` and `countActiveTodosByUser`; every status and priority count is a count of the owner's stored todos |
| Endpoints.StatusCountIsOwned | convex/endpoints/todos.ts:301-303 | The `stats` count of a status is the number of the owner's stored todos with that status |
| Endpoints.PriorityCountIsOwned | convex/endpoints/todos.ts:305-307 | The `stats` count of a priority is the number of the owner's stored active todos with that priority |
| Endpoints.OwnedStatusCount | convex/endpoints/todos.ts:297-303 | Filtering the owner's read by a status gives as many todos as the owner has stored with that status |
| Endpoints.OwnedActivePriorityCount | convex/endpoints/todos.ts:297-307 | Filtering the owner's read to active todos of a priority gives as many todos as the owner has stored of that kind |
| Endpoints.NewHighTodoBumpsStats | convex/endpoints/todos.ts:299-309 | One more active high-priority todo adds one to `total`, `active` and `high`, and leaves the other counts alone |
| Endpoints.InsertExtendsOwnersList | convex/endpoints/todos.ts:51-58 | After a create, the owner's list starts with the new todo and continues with the list as it was |
| Endpoints.OwnershipIsolation | convex/endpoints/todos.ts:128-131 | `get` of another user's todo is `Forbidden` |
| Endpoints.ExistencePrecedesOwnership | convex/endpoints/todos.ts:123-126 | A missing id is `NotFound` for every caller, owner or not |
| Scenarios.CreateBuyMilk | convex/endpoints/todos.ts:45-58 | Creating "Buy milk" with medium priority stores an active todo whose `createdAt` equals `updatedAt` |
| Scenarios.ArchivedCompletedByUpdate | convex/endpoints/todos.ts:182-189 | As written, `update` moves an archived todo to completed, a move the lifecycle table forbids |
| Scenarios.ArchivedCompletedByComplete | convex/endpoints/todos.ts:256 | As written, `complete` moves an archived todo to completed, a move the lifecycle table forbids |
| Scenarios.LifecycleRefusesArchivedToCompleted | convex/helpers/constants.ts:25 | The corrected handlers refuse archived to completed with `IllegalTransition` and the todo stays archived |
| Scenarios.Walkthrough | convex/endpoints/todos.ts:236-258 | The path create, complete, update to active, update to archived: statuses and timestamps as expected; another user gets `Forbidden`; after remove the todo is `NotFound` |

## Left out

- The rate limiter's token buckets (`convex/rateLimiter.ts`). The limiter is a pure function of limit name and user, so consuming tokens and refilling over time are not modelled.
- The text of the rate-limit message (`Math.ceil(retryAfter / 1000)` seconds). `RateLimited` carries `retryAfter` in milliseconds as an integer.
- The messages of `NotFound`, `Forbidden` and `Unauthenticated` are left out; they are modelled as error kinds. The validation messages are modelled word for word.
- Authentication and session handling (`convex/auth.ts`, `convex/http.ts`) are left out. The caller is an `Option<UserId>` input.
- Convex argument validators (`v.string()`, `v.union(...)`, `v.id(...)`) are represented by the argument types. A status or priority is therefore always one of the enumeration's values, and an id is a natural number.
- Due dates are integers. NaN, infinities, fractional timestamps and `-0` are not modelled.
- Strings are sequences of code points. Lone surrogates, which a JavaScript string can hold, cannot be represented.
- `DEFAULT_PAGE_LIMIT` and `MAX_PAGE_LIMIT` are left out. No core function uses them.
- Concurrent mutations and transaction retries are left out. Each handler is one atomic step on the store.
- Store failures are not modelled; the store is total.
- Todos.Table.UpdateTodo: Convex's `db.patch` raises on a missing id and aborts the mutation. This is modelled as `found = false` with the store unchanged. Every handler checks existence first, so the case never arises from an endpoint.
- Todos.Table.DeleteTodo: Convex's `db.delete` on a missing id is modelled the same way: `found = false` and the store unchanged.
- Todos.Table.GetActiveTodosByUser: equals the (owner, active) read only when `createdAt` never decreases in insertion order (`ClockMonotone`). Otherwise it is stated as the same documents in `createdAt` order, with ties broken by insertion order.
- Todos.Table.CreateTodo: the generated document id is a counter value, not an opaque Convex id. `_creationTime` is represented by that counter order.
- The `Dashboard` module re-exported by `convex/db/index.ts` is not part of this model.
- The web client, React components and styling are left out.

## Findings

| source | as written | input that shows it | evidently intended | confidence | as-written member | corrected member |
|---|---|---|---|---|---|---|
| convex/endpoints/todos.ts:182-189 | `update` validates the fields but never calls `isValidStatusTransition`, so any status can be written | An archived todo owned by the caller, then `update(id, {status: "completed"})`: it succeeds and the todo becomes completed, while `isValidStatusTransition(archived, completed)` is false | A status in the update payload is checked against `STATUS_TRANSITIONS` from the current status, and a forbidden move fails with `IllegalTransition` | medium, not executed | Scenarios.ArchivedCompletedByUpdate | Endpoints.UpdateWithLifecycle |
| convex/endpoints/todos.ts:256 | `complete` writes `status: "completed"` whatever the current status is | An archived todo owned by the caller, then `complete(id)`: it succeeds and the todo becomes completed | `complete` on an archived todo fails with `IllegalTransition(archived, completed)` | medium, not executed | Scenarios.ArchivedCompletedByComplete | Endpoints.CompleteWithLifecycle |

`Endpoints.Update`, `Endpoints.Complete` and `Endpoints.Archive` model the handlers as written. `Endpoints.UpdateWithLifecycle` and `Endpoints.CompleteWithLifecycle` are the corrected handlers. `Scenarios.LifecycleRefusesArchivedToCompleted` shows that they refuse the move.
