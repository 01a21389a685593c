/**
 * The request handlers of the todos service: each takes the parsed path
 * parameter and/or decoded body, runs one store operation and turns its
 * result into an HTTP status and payload. Each handler runs as one atomic
 * call on the store.
 */
module Handlers {
  import opened TodoStore

  /** What a handler writes as the response body. */
  datatype Payload =
    | TodoBody(todo: Todo)
    | TodoList(todos: seq<Todo>)
    | ErrorBody(error: string)
    | NoBody

  /**
   * The response a handler writes, or `Unanswered` when the handler returns
   * without writing one itself.
   */
  datatype Reply = Reply(status: nat, payload: Payload) | Unanswered

  /** The outcome of binding a JSON request body: a decoded value or the decoder's error. */
  datatype Bind<T> = Bound(value: T) | BindFailed(message: string)

  const StatusOK: nat := 200
  const StatusCreated: nat := 201
  const StatusNoContent: nat := 204
  const StatusBadRequest: nat := 400
  const StatusNotFound: nat := 404

  // ---------------------------------------------------------------------------
  // Status mapping
  // ---------------------------------------------------------------------------

  /** A lookup result as the get-by-id handler answers it. */
  function LookupReply(r: Result<Todo>): (reply: Reply)
    ensures reply.Reply? && reply.status in {StatusOK, StatusNotFound}
    ensures reply.status == StatusOK <==> r.Ok?
    ensures r.Ok? ==> reply.payload == TodoBody(r.value)
    ensures r.Err? ==> reply.payload == ErrorBody(r.message)
  {
    match r
    case Ok(t) => Reply(StatusOK, TodoBody(t))
    case Err(msg) => Reply(StatusNotFound, ErrorBody(msg))
  }

  /** A delete result as the delete handler answers it: no body on success. */
  function DeleteReply(err: Option<string>): (reply: Reply)
    ensures reply.Reply? && reply.status in {StatusNoContent, StatusNotFound}
    ensures reply.status == StatusNoContent <==> err.None?
    ensures err.None? ==> reply.payload == NoBody
    ensures err.Some? ==> reply.payload == ErrorBody(err.value)
  {
    match err
    case None => Reply(StatusNoContent, NoBody)
    case Some(msg) => Reply(StatusNotFound, ErrorBody(msg))
  }

  /** A patch body and scan outcome as the patch handler answers them. */
  function PatchReply(body: Bind<map<string, JsonValue>>, r: Option<Todo>): (reply: Reply)
    ensures reply.Reply? && reply.status in {StatusOK, StatusBadRequest, StatusNotFound}
    ensures reply.status == StatusBadRequest <==> body.BindFailed?
    ensures reply.status == StatusOK <==> body.Bound? && r.Some?
    ensures body.BindFailed? ==> reply.payload == ErrorBody(body.message)
    ensures body.Bound? && r.Some? ==> reply.payload == TodoBody(r.value)
    ensures body.Bound? && r.None? ==> reply.payload == ErrorBody(TodoNotFound)
  {
    match body
    case BindFailed(msg) => Reply(StatusBadRequest, ErrorBody(msg))
    case Bound(_) =>
      match r
      case Some(t) => Reply(StatusOK, TodoBody(t))
      case None => Reply(StatusNotFound, ErrorBody(TodoNotFound))
  }

  // ---------------------------------------------------------------------------
  // Handlers
  // ---------------------------------------------------------------------------

  /** GET /todos: every record, in store order. */
  method GetTodosHandler(store: Store) returns (reply: Reply)
    ensures reply == Reply(StatusOK, TodoList(store.todos))
  {
    reply := Reply(StatusOK, TodoList(store.todos));
  }

  /** GET /todos/{id}: the first record carrying `id`, or 404. */
  method GetTodoByIdHandler(store: Store, id: string) returns (reply: Reply)
    ensures match FindFirst(store.todos, id)
      case Some(i) => reply == Reply(StatusOK, TodoBody(store.todos[i]))
      case None => reply == Reply(StatusNotFound, ErrorBody(TodoNotFound))
  {
    var r := store.GetTodoById(id);
    match r
    case Ok(i) =>
      FirstMatchIsFindFirst(store.todos, id, i);
      reply := LookupReply(Ok(store.todos[i]));
    case Err(msg) =>
      reply := LookupReply(Err(msg));
  }

  /**
   * POST /todos: appends the decoded record, whatever its id, and echoes it
   * with 201. A body that fails to bind leaves the store alone and the handler
   * writes nothing.
   */
  method AddTodoHandler(store: Store, body: Bind<Todo>) returns (reply: Reply)
    modifies store
    ensures body.BindFailed? ==> reply == Unanswered && store.todos == old(store.todos)
    ensures body.Bound? ==>
      store.todos == old(store.todos) + [body.value] && reply == Reply(StatusCreated, TodoBody(body.value))
  {
    match body
    case BindFailed(_) =>
      reply := Unanswered;
    case Bound(t) =>
      store.AddTodo(t);
      reply := Reply(StatusCreated, TodoBody(t));
  }

  /** DELETE /todos/{id}: removes the first record carrying `id` (204), or 404. */
  method DeleteTodoHandler(store: Store, id: string) returns (reply: Reply)
    modifies store
    ensures match FindFirst(old(store.todos), id)
      case Some(i) => store.todos == RemoveAt(old(store.todos), i) && reply == Reply(StatusNoContent, NoBody)
      case None => store.todos == old(store.todos) && reply == Reply(StatusNotFound, ErrorBody(TodoDoesNotExist))
  {
    var err := store.DeleteTodo(id);
    reply := DeleteReply(err);
  }

  /**
   * PATCH /todos/{id}: a body that fails to bind is answered 400 before the
   * store is touched; otherwise the first record carrying `id` gets the
   * body's boolean `done` entry, if any, and is returned with 200, or 404.
   */
  method MarkAsDoneHandler(store: Store, id: string, body: Bind<map<string, JsonValue>>) returns (reply: Reply)
    modifies store
    ensures body.BindFailed? ==>
      store.todos == old(store.todos) && reply == Reply(StatusBadRequest, ErrorBody(body.message))
    ensures body.Bound? ==> match FindFirst(old(store.todos), id)
      case Some(i) =>
        store.todos == ApplyUpdates(old(store.todos), i, body.value) &&
        reply == Reply(StatusOK, TodoBody(store.todos[i]))
      case None =>
        store.todos == old(store.todos) && reply == Reply(StatusNotFound, ErrorBody(TodoNotFound))
  {
    match body
    case BindFailed(_) =>
      reply := PatchReply(body, None);
    case Bound(updates) =>
      var r := store.MarkAsDone(id, updates);
      reply := PatchReply(body, r);
  }

  /**
   * A client that, from the seed, gets "1", deletes the absent "99", appends
   * "5" and lists, then patches "3" with a boolean and "1" with a string.
   */
  method Scenarios()
  {
    var store := new Store();
    SeedFacts();

    var got := GetTodoByIdHandler(store, "1");
    assert got == Reply(StatusOK, TodoBody(Todo("1", "Learn Go", false)));

    var gone := DeleteTodoHandler(store, "99");
    assert gone == Reply(StatusNotFound, ErrorBody(TodoDoesNotExist));
    assert store.todos == Seed;

    var newTodo := Todo("5", "New", false);
    var created := AddTodoHandler(store, Bound(newTodo));
    assert created == Reply(StatusCreated, TodoBody(newTodo));
    var all := GetTodosHandler(store);
    assert all == Reply(StatusOK, TodoList(Seed + [newTodo]));

    var patched := MarkAsDoneHandler(store, "3", Bound(map["done" := JBool(true)]));
    FirstMatchIsFindFirst(Seed + [newTodo], "3", 2);
    assert patched == Reply(StatusOK, TodoBody(Todo("3", "Destroy a web app", true)));

    var ignored := MarkAsDoneHandler(store, "1", Bound(map["done" := JString("yes")]));
    assert ignored == Reply(StatusOK, TodoBody(Todo("1", "Learn Go", false)));
  }
}
