# Todos API: a Dafny model of the in-memory record store

The todos service keeps a process-lifetime, ordered, mutable sequence of
`Todo{ID, Name, Done}` records, seeded with four records, and exposes five HTTP
operations over it: list, get by id, create, delete by id and patch by id.
Every operation that takes an id is a front-to-back scan with an early return.
Ids are supplied by the caller and never checked for uniqueness, so every
operation acts on the first record with the given id only.

The model has two modules:

- `TodoStore` (store.dfy) holds the record type, the decoded-JSON value type
  and the specification of the store on values. `FindFirst` gives the
  position of the first match. `RemoveAt`, `SetDoneAt` and `ApplyUpdates`
  give the store after a delete or a patch. `CountId` and `UniqueIds` count
  ids. It also holds the class `Store`. Its one field `todos: seq<Todo>` is
  the global slice. Its methods keep the source's scan loops and are proved
  against those functions. The lemmas state the store properties: first-match
  semantics, the create/read round trip, a shadowed duplicate, delete removes
  exactly one record and keeps the order of the rest, a patch changes only
  `done`, and uniqueness of ids is kept or lost.
- `Handlers` (handlers.dfy) holds the response and bind-result types, the
  status mapping as pure functions, and one method per HTTP handler. A handler
  method runs a store method on a `Store` and states the status and payload it
  answers together with the new store. `Scenarios` is a client that,
  from the seed, gets "1", deletes the absent "99", appends "5" and lists,
  then patches "3" with a boolean and "1" with a string, using only these
  contracts.

A lookup returns an index into the store, not a reference to the record.
A patch request body is a `map<string, JsonValue>`, so it can be stated
whether its `"done"` entry is present and boolean. A request body reaches a
handler as `Bind<T>`: either the decoded value or the decoder's error message.

## Model

| member | source | states |
|---|---|---|
| `TodoStore.FindFirst` | main.go:41-48 | the result is the index of a record with the id and no earlier record has it; it is `None` exactly when no record carries the id |
| `TodoStore.CountId` | main.go:30 | a count of the records carrying an id in the slice `todos`, used to state that delete removes exactly one; it is at most the length of the store, and zero exactly when the id is absent |
| `TodoStore.RemoveAt` | main.go:74 | `slices.Delete(todos, i, i+1)`: one record shorter, records before `i` in place, records after `i` shifted down by one in their old order |
| `TodoStore.SetDoneAt` | main.go:105 | the field write `todos[i].Done = done`: record `i` keeps its id and name and gets the new flag, every other record is unchanged |
| `TodoStore.DoneUpdate` | main.go:104 | the type assertion `updates["done"].(bool)` succeeds exactly when the key is present and holds a JSON boolean, and yields that boolean |
| `TodoStore.ApplyUpdates` | main.go:104-106 | a patch changes only the `done` flag of the matched record, to the body's boolean when there is one; otherwise the record stays as it was; all other records are unchanged |
| `TodoStore.Store.constructor` | main.go:30-35 | the store starts as the four seed records |
| `TodoStore.Store.GetTodoById` | main.go:41-48 | the scan returns the index of the first record with the id (no earlier record has it), or the error "Todo not found" when no record has the id; the store is only read |
| `TodoStore.Store.AddTodo` | main.go:66 | the new store is the old store followed by the new record, whatever its id |
| `TodoStore.Store.DeleteTodo` | main.go:70-79 | with a match, no error and the first matching record cut out; without one, the error "Todo doesn't exist" and the store unchanged |
| `TodoStore.Store.MarkAsDone` | main.go:102-110 | with a match, the store becomes the patched store and the record as it now is is returned; without a match, nothing is returned and the store is unchanged |
| `TodoStore.FirstMatchIsFindFirst` | main.go:42-44 | any index that is a first match is the one `FindFirst` returns, so the scans and the specification agree |
| `TodoStore.CountAppend` | main.go:66 | appending a record adds one to the count of its own id and leaves every other count unchanged |
| `TodoStore.CountRemoveAt` | main.go:74 | removing record `i` takes one from the count of its id and leaves every other count unchanged |
| `TodoStore.UniqueCountAtMostOne` | main.go:30 | an invariant over the slice `todos` that the code never enforces: when ids are unique, each id is carried by at most one record |
| `TodoStore.LookupDependsOnIdsOnly` | main.go:42-44 | two stores with the same ids in the same positions give the same lookup result and the same counts |
| `TodoStore.AppendFreshThenFind` | main.go:41-48 | round trip: after appending a record under an id not yet present, lookup of that id finds the appended record at the end |
| `TodoStore.AppendDuplicateIsShadowed` | main.go:66 | a duplicate id is accepted: the id is now carried at least twice, and lookup still finds the earlier record |
| `TodoStore.AppendUnique` | main.go:66 | appending keeps ids unique if and only if they were unique and the new id was absent |
| `TodoStore.DeleteRemovesExactlyOne` | main.go:70-75 | deleting the first match lowers the count of that id by exactly one and leaves the count of every other id unchanged |
| `TodoStore.DeleteUniqueThenAbsent` | main.go:70-75 | with unique ids, deleting keeps ids unique and the deleted id can no longer be found |
| `TodoStore.ApplyUpdatesKeepsLookups` | main.go:102-106 | a patch changes no id: every lookup result and every count is the same afterwards, and ids are unique afterwards exactly when they were before |
| `TodoStore.ApplyUpdatesIdempotent` | main.go:104-106 | applying the same patch body twice gives the same store as applying it once |
| `TodoStore.SeedFacts` | main.go:30-35 | the seed holds four records with distinct ids; "1" and "3" are found at positions 0 and 2, and "99" is not found |
| `Handlers.LookupReply` | main.go:54-58 | a lookup answers 200 with the record on success and 404 with the error message otherwise |
| `Handlers.DeleteReply` | main.go:86-91 | a delete answers 204 with no body on success and 404 with the error message otherwise |
| `Handlers.PatchReply` | main.go:98-111 | a patch answers 400 with the decoder's message exactly when the body failed to bind, 200 with the record when it bound and a record matched, and 404 "Todo not found" otherwise |
| `Handlers.GetTodosHandler` | main.go:37-39 | the list handler answers 200 with every record in store order |
| `Handlers.GetTodoByIdHandler` | main.go:50-59 | the get handler answers 200 with the first record having the id, or 404 "Todo not found" when there is none |
| `Handlers.AddTodoHandler` | main.go:61-68 | a bound body is appended and echoed with 201; a body that fails to bind leaves the store unchanged and the handler writes no response itself |
| `Handlers.DeleteTodoHandler` | main.go:81-93 | with a match, the first match is removed and the answer is 204 with no body; without one, the store is unchanged and the answer is 404 "Todo doesn't exist" |
| `Handlers.MarkAsDoneHandler` | main.go:95-112 | a body that fails to bind gives 400 with the decoder's message and the store is not read or changed; with a match, only the first match's `done` flag changes, to the body's boolean if there is one, and that record is returned with 200; without a match, 404 "Todo not found" and the store is unchanged |

## Left out

- Routing and the `main` function (main.go:114-122): the route table and `router.Run` are glue over the HTTP framework, which is not modelled.
- JSON decoding and encoding (`BindJSON`, `JSON`, `IndentedJSON`): a request body reaches a handler as already decoded (`Bind<T>`), and a reply is a status plus a structured payload. Indentation and wire format are not modelled.
- The text of the decoder's error message in the 400 answer comes from the decoder, so it is a parameter (`BindFailed(message)`).
- `Handlers.AddTodoHandler`: when the body fails to bind, the handler returns without writing. The 400 that the framework's `BindJSON` writes by itself in that case is framework behaviour and is not modelled (`Unanswered`).
- JSON numbers are kept as their text (`JNumber`). Their float64 value matters to nothing the core does.
- Concurrency: the global slice is shared by concurrent requests with no lock. Each handler is modelled as one atomic call on the store.
- Aliasing: `getTodoById` returns `&todos[i]`, a pointer into the slice. The model returns the index instead. For the same reason, the zeroing that `slices.Delete` (Go 1.22 and later) does to the vacated tail of the slice's backing array is not modelled.
