/**
 * The in-memory record store of the todos service: an ordered, mutable
 * sequence of Todo records, searched front to back by a caller-supplied id.
 * Ids are not required to be unique, so every operation that takes an id acts
 * on the FIRST record carrying it.
 */
module TodoStore {

  datatype Option<T> = None | Some(value: T)

  /** A value or an error message (a Go `error` built by `errors.New`). */
  datatype Result<T> = Ok(value: T) | Err(message: string)

  /** One record of the store. */
  datatype Todo = Todo(id: string, name: string, done: bool)

  /**
   * A decoded JSON value, as it sits in a `map[string]any` after decoding.
   * Numbers keep their text: their numeric value plays no part here.
   */
  datatype JsonValue =
    | JNull
    | JBool(b: bool)
    | JNumber(text: string)
    | JString(s: string)
    | JArray(items: seq<JsonValue>)
    | JObject(fields: map<string, JsonValue>)

  const TodoNotFound: string := "Todo not found"
  const TodoDoesNotExist: string := "Todo doesn't exist"

  /** The four records the store holds when the process starts. */
  const Seed: seq<Todo> := [
    Todo("1", "Learn Go", false),
    Todo("2", "Build a web app", false),
    Todo("3", "Destroy a web app", true),
    Todo("4", "Build an API in GO", false)
  ]

  // ---------------------------------------------------------------------------
  // Specification of the store operations, on values
  // ---------------------------------------------------------------------------

  /** Record `i` carries `id` and no earlier record does. */
  predicate IsFirstMatch(s: seq<Todo>, id: string, i: nat) {
    i < |s| && s[i].id == id && forall j :: 0 <= j < i ==> s[j].id != id
  }

  /** No record carries `id`. */
  predicate Absent(s: seq<Todo>, id: string) {
    forall j :: 0 <= j < |s| ==> s[j].id != id
  }

  /** No two records share an id (intended by the service, never enforced). */
  predicate UniqueIds(s: seq<Todo>) {
    forall i, j :: 0 <= i < j < |s| ==> s[i].id != s[j].id
  }

  /** The position of the first record carrying `id`, if any. */
  function FindFirst(s: seq<Todo>, id: string): (r: Option<nat>)
    ensures r.Some? ==> IsFirstMatch(s, id, r.value)
    ensures r.None? <==> Absent(s, id)
  {
    if s == [] then None
    else if s[0].id == id then Some(0)
    else match FindFirst(s[1..], id)
      case None => None
      case Some(j) => Some(j + 1)
  }

  /** How many records carry `id`. */
  function CountId(s: seq<Todo>, id: string): (n: nat)
    ensures n <= |s|
    ensures n == 0 <==> Absent(s, id)
  {
    if s == [] then 0
    else (if s[0].id == id then 1 else 0) + CountId(s[1..], id)
  }

  /** The store with record `i` cut out and the others closed up in order. */
  function RemoveAt(s: seq<Todo>, i: nat): (r: seq<Todo>)
    requires i < |s|
    ensures |r| == |s| - 1
    ensures forall k :: 0 <= k < i ==> r[k] == s[k]
    ensures forall k :: i <= k < |r| ==> r[k] == s[k + 1]
  {
    s[..i] + s[i + 1..]
  }

  /** The store with only the `done` flag of record `i` set to `b`. */
  function SetDoneAt(s: seq<Todo>, i: nat, b: bool): (r: seq<Todo>)
    requires i < |s|
    ensures |r| == |s|
    ensures r[i].id == s[i].id && r[i].name == s[i].name && r[i].done == b
    ensures forall k :: 0 <= k < |s| && k != i ==> r[k] == s[k]
  {
    s[i := s[i].(done := b)]
  }

  /**
   * The `done` entry of a decoded patch body, when it is present and a
   * boolean: the type assertion `updates["done"].(bool)`, which fails both for
   * a missing key and for a value of any other JSON type.
   */
  function DoneUpdate(updates: map<string, JsonValue>): (r: Option<bool>)
    ensures r.Some? <==> "done" in updates && updates["done"].JBool?
    ensures r.Some? ==> updates["done"] == JBool(r.value)
  {
    if "done" in updates then
      match updates["done"]
      case JBool(b) => Some(b)
      case _ => None
    else None
  }

  /** The store after a patch body is applied to record `i`. */
  function ApplyUpdates(s: seq<Todo>, i: nat, updates: map<string, JsonValue>): (r: seq<Todo>)
    requires i < |s|
    ensures |r| == |s|
    ensures r[i].id == s[i].id && r[i].name == s[i].name
    ensures r[i].done == (if DoneUpdate(updates).Some? then DoneUpdate(updates).value else s[i].done)
    ensures forall k :: 0 <= k < |s| && k != i ==> r[k] == s[k]
  {
    match DoneUpdate(updates)
    case Some(b) => SetDoneAt(s, i, b)
    case None => s
  }

  // ---------------------------------------------------------------------------
  // The store itself: the global `todos` slice and the scans over it
  // ---------------------------------------------------------------------------

  class Store {
    var todos: seq<Todo>

    /** The store as the process starts it. */
    constructor ()
      ensures todos == Seed
    {
      todos := Seed;
    }

    /** Linear scan for the first record carrying `id`; returns its index. */
    method GetTodoById(id: string) returns (r: Result<nat>)
      ensures r.Ok? ==> IsFirstMatch(todos, id, r.value)
      ensures r.Err? ==> Absent(todos, id) && r.message == TodoNotFound
    {
      var i := 0;
      while i < |todos|
        invariant 0 <= i <= |todos|
        invariant forall j :: 0 <= j < i ==> todos[j].id != id
      {
        if todos[i].id == id {
          return Ok(i);
        }
        i := i + 1;
      }
      return Err(TodoNotFound);
    }

    /** Appends a record at the end, whatever its id. */
    method AddTodo(t: Todo)
      modifies this
      ensures todos == old(todos) + [t]
    {
      todos := todos + [t];
    }

    /** Removes the first record carrying `id`; `None` is Go's nil error. */
    method DeleteTodo(id: string) returns (err: Option<string>)
      modifies this
      ensures match FindFirst(old(todos), id)
        case Some(i) => err == None && todos == RemoveAt(old(todos), i)
        case None => err == Some(TodoDoesNotExist) && todos == old(todos)
    {
      var i := 0;
      while i < |todos|
        invariant 0 <= i <= |todos|
        invariant todos == old(todos)
        invariant forall j :: 0 <= j < i ==> todos[j].id != id
      {
        if todos[i].id == id {
          todos := todos[..i] + todos[i + 1..];
          return None;
        }
        i := i + 1;
      }
      return Some(TodoDoesNotExist);
    }

    /**
     * The scan of the patch handler: on the first record carrying `id`, sets
     * `done` when the body holds a boolean `done` entry, and returns the
     * record as it now is; `None` when no record carries `id`.
     */
    method MarkAsDone(id: string, updates: map<string, JsonValue>) returns (r: Option<Todo>)
      modifies this
      ensures match FindFirst(old(todos), id)
        case Some(i) => todos == ApplyUpdates(old(todos), i, updates) && r == Some(todos[i])
        case None => r == None && todos == old(todos)
    {
      var i := 0;
      while i < |todos|
        invariant 0 <= i <= |todos|
        invariant todos == old(todos)
        invariant forall j :: 0 <= j < i ==> todos[j].id != id
      {
        if todos[i].id == id {
          var done := DoneUpdate(updates);
          if done.Some? {
            todos := todos[i := todos[i].(done := done.value)];
          }
          return Some(todos[i]);
        }
        i := i + 1;
      }
      return None;
    }
  }

  // ---------------------------------------------------------------------------
  // Properties of the specification
  // ---------------------------------------------------------------------------

  /** Only one index can be the first match. */
  lemma FirstMatchIsFindFirst(s: seq<Todo>, id: string, i: nat)
    requires IsFirstMatch(s, id, i)
    ensures FindFirst(s, id) == Some(i)
  {
  }

  /** Appending a record counts it once more under its id and nowhere else. */
  lemma {:induction false} CountAppend(s: seq<Todo>, t: Todo, x: string)
    ensures CountId(s + [t], x) == CountId(s, x) + (if t.id == x then 1 else 0)
  {
    if s == [] {
      assert s + [t] == [t];
    } else {
      assert (s + [t])[1..] == s[1..] + [t];
      CountAppend(s[1..], t, x);
    }
  }

  /** Removing record `i` counts one less under its id and no change elsewhere. */
  lemma {:induction false} CountRemoveAt(s: seq<Todo>, i: nat, x: string)
    requires i < |s|
    ensures CountId(RemoveAt(s, i), x) == CountId(s, x) - (if s[i].id == x then 1 else 0)
  {
    if i == 0 {
      assert RemoveAt(s, 0) == s[1..];
    } else {
      assert RemoveAt(s, i) == [s[0]] + RemoveAt(s[1..], i - 1);
      assert RemoveAt(s, i)[1..] == RemoveAt(s[1..], i - 1);
      CountRemoveAt(s[1..], i - 1, x);
    }
  }

  /** Under unique ids every id is carried at most once. */
  lemma {:induction false} UniqueCountAtMostOne(s: seq<Todo>, x: string)
    requires UniqueIds(s)
    ensures CountId(s, x) <= 1
  {
    if s != [] {
      assert UniqueIds(s[1..]) by {
        forall i, j | 0 <= i < j < |s[1..]| ensures s[1..][i].id != s[1..][j].id {
          assert s[1..][i] == s[i + 1] && s[1..][j] == s[j + 1];
        }
      }
      UniqueCountAtMostOne(s[1..], x);
      if s[0].id == x {
        assert Absent(s[1..], x) by {
          forall j | 0 <= j < |s[1..]| ensures s[1..][j].id != x {
            assert s[1..][j] == s[j + 1];
          }
        }
      }
    }
  }

  /** Lookups depend on the ids alone. */
  lemma LookupDependsOnIdsOnly(s: seq<Todo>, t: seq<Todo>, x: string)
    requires |s| == |t|
    requires forall k :: 0 <= k < |s| ==> s[k].id == t[k].id
    ensures FindFirst(s, x) == FindFirst(t, x)
    ensures CountId(s, x) == CountId(t, x)
  {
    if FindFirst(s, x).Some? {
      FirstMatchIsFindFirst(t, x, FindFirst(s, x).value);
    }
    CountIdsOnly(s, t, x);
  }

  lemma {:induction false} CountIdsOnly(s: seq<Todo>, t: seq<Todo>, x: string)
    requires |s| == |t|
    requires forall k :: 0 <= k < |s| ==> s[k].id == t[k].id
    ensures CountId(s, x) == CountId(t, x)
  {
    if s != [] {
      CountIdsOnly(s[1..], t[1..], x);
    }
  }

  /** Round trip: a record appended under a fresh id is what a lookup then finds. */
  lemma AppendFreshThenFind(s: seq<Todo>, t: Todo)
    requires Absent(s, t.id)
    ensures FindFirst(s + [t], t.id) == Some(|s|)
    ensures (s + [t])[|s|] == t
  {
    FirstMatchIsFindFirst(s + [t], t.id, |s|);
  }

  /**
   * A duplicate id is accepted: the appended record is counted, but lookups
   * keep finding the earlier record, so the new one is shadowed.
   */
  lemma AppendDuplicateIsShadowed(s: seq<Todo>, t: Todo, i: nat)
    requires IsFirstMatch(s, t.id, i)
    ensures FindFirst(s + [t], t.id) == Some(i)
    ensures CountId(s + [t], t.id) == CountId(s, t.id) + 1 >= 2
  {
    FirstMatchIsFindFirst(s + [t], t.id, i);
    CountAppend(s, t, t.id);
  }

  /** Appending keeps ids unique exactly when the new id is fresh. */
  lemma AppendUnique(s: seq<Todo>, t: Todo)
    ensures UniqueIds(s + [t]) <==> UniqueIds(s) && Absent(s, t.id)
  {
    var u := s + [t];
    if UniqueIds(u) {
      forall j | 0 <= j < |s| ensures s[j].id != t.id {
        assert u[j] == s[j] && u[|s|] == t;
      }
      forall i, j | 0 <= i < j < |s| ensures s[i].id != s[j].id {
        assert u[i] == s[i] && u[j] == s[j];
      }
    }
  }

  /**
   * Deleting the first match removes exactly one record carrying `id`, leaves
   * the count of every other id unchanged and keeps the others in order.
   */
  lemma DeleteRemovesExactlyOne(s: seq<Todo>, id: string, i: nat)
    requires IsFirstMatch(s, id, i)
    ensures CountId(RemoveAt(s, i), id) == CountId(s, id) - 1
    ensures forall x :: x != id ==> CountId(RemoveAt(s, i), x) == CountId(s, x)
  {
    CountRemoveAt(s, i, id);
    forall x | x != id ensures CountId(RemoveAt(s, i), x) == CountId(s, x) {
      CountRemoveAt(s, i, x);
    }
  }

  /** With unique ids, a deleted id can no longer be found. */
  lemma DeleteUniqueThenAbsent(s: seq<Todo>, id: string, i: nat)
    requires UniqueIds(s) && IsFirstMatch(s, id, i)
    ensures UniqueIds(RemoveAt(s, i))
    ensures FindFirst(RemoveAt(s, i), id) == None
  {
    UniqueCountAtMostOne(s, id);
    CountRemoveAt(s, i, id);
    var r := RemoveAt(s, i);
    forall a, b | 0 <= a < b < |r| ensures r[a].id != r[b].id {
      var a' := if a < i then a else a + 1;
      var b' := if b < i then b else b + 1;
      assert r[a] == s[a'] && r[b] == s[b'];
    }
  }

  /**
   * A patch changes no id, so it keeps ids unique and leaves every lookup
   * where it was.
   */
  lemma ApplyUpdatesKeepsLookups(s: seq<Todo>, i: nat, updates: map<string, JsonValue>, x: string)
    requires i < |s|
    ensures FindFirst(ApplyUpdates(s, i, updates), x) == FindFirst(s, x)
    ensures CountId(ApplyUpdates(s, i, updates), x) == CountId(s, x)
    ensures UniqueIds(ApplyUpdates(s, i, updates)) <==> UniqueIds(s)
  {
    var r := ApplyUpdates(s, i, updates);
    assert forall k :: 0 <= k < |s| ==> r[k].id == s[k].id;
    LookupDependsOnIdsOnly(r, s, x);
  }

  /** Applying the same patch twice is the same as applying it once. */
  lemma ApplyUpdatesIdempotent(s: seq<Todo>, i: nat, updates: map<string, JsonValue>)
    requires i < |s|
    ensures ApplyUpdates(ApplyUpdates(s, i, updates), i, updates) == ApplyUpdates(s, i, updates)
  {
  }

  /** The seed holds four records with distinct ids "1" to "4". */
  lemma SeedFacts()
    ensures |Seed| == 4 && UniqueIds(Seed)
    ensures FindFirst(Seed, "1") == Some(0) && FindFirst(Seed, "3") == Some(2)
    ensures FindFirst(Seed, "99") == None
  {
    FirstMatchIsFindFirst(Seed, "1", 0);
    FirstMatchIsFindFirst(Seed, "3", 2);
  }
}
