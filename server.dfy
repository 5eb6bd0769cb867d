/**
 * The handlers of main.go as they run: each one changes the shared "todos"
 * bucket in place. Every write handler is proved to leave the bucket and answer
 * exactly as the transition of the same name in module Todos; getTodos walks the
 * bucket in key order, as bbolt's `ForEach` does, building the list as it goes.
 */
module Server {
  import opened Wrappers
  import opened Machine
  import opened Keys
  import opened Strconv
  import opened Todos

  /** The database handle, reduced to the "todos" bucket its handlers use. */
  class TodoStore {
    var records: map<Bytes, Json>
    var sequence: Uint64

    /** The bucket's current contents as a value. */
    function Snapshot(): Bucket
      reads this
    {
      Bucket(records, sequence)
    }

    /** initDB on a new database file: the "todos" bucket exists and is empty. */
    constructor ()
      ensures Snapshot() == EmptyBucket
    {
      records := map[];
      sequence := 0;
    }

    /** Bucket.NextSequence: advance the counter and return its new value. */
    method NextSequence() returns (n: Uint64)
      modifies this`sequence
      ensures n == sequence == Todos.NextSequence(old(sequence))
    {
      sequence := Todos.NextSequence(sequence);
      n := sequence;
    }

    /** Bucket.Put: write value under key, replacing any value there. */
    method Put(key: Bytes, value: Json)
      modifies this`records
      ensures records == old(records)[key := value]
    {
      records := records[key := value];
    }

    /** Bucket.Delete: remove key; a missing key is not an error. */
    method Remove(key: Bytes)
      modifies this`records
      ensures records == old(records) - {key}
    {
      records := records - {key};
    }

    /** Undo a write transaction: put back the bucket as it was when it began. */
    method Rollback(saved: Bucket)
      modifies this
      ensures Snapshot() == saved
    {
      records, sequence := saved.records, saved.sequence;
    }

    /** createTodo (main.go:62-89). */
    method CreateTodo(body: Json, commitError: Option<string>) returns (resp: Response)
      modifies this
      ensures var s := Create(old(Snapshot()), body, commitError);
        Snapshot() == s.bucket && resp == Respond(s.outcome)
    {
      if body.BadJson? {
        return Respond(BadBody(body.error));
      }
      var saved := Snapshot();
      var id := NextSequence();
      var todo := body.todo.(id := AsInt64(id));
      Put(Itob(todo.id), Marshal(todo));
      if commitError.Some? {
        Rollback(saved);
        return Respond(StoreError(commitError.value));
      }
      resp := Respond(Created(todo));
    }

    /** updateTodo (main.go:91-117). */
    method UpdateTodo(path: string, body: Json, commitError: Option<string>) returns (resp: Response)
      modifies this
      ensures var s := Update(old(Snapshot()), path, body, commitError);
        Snapshot() == s.bucket && resp == Respond(s.outcome)
    {
      var parsed := Atoi(path);
      if parsed.None? {
        return Respond(InvalidId);
      }
      if body.BadJson? {
        return Respond(BadBody(body.error));
      }
      var todo := body.todo.(id := parsed.value);
      var saved := Snapshot();
      Put(Itob(todo.id), Marshal(todo));
      if commitError.Some? {
        Rollback(saved);
        return Respond(StoreError(commitError.value));
      }
      resp := Respond(Saved(todo));
    }

    /** deleteTodo (main.go:119-138). */
    method DeleteTodo(path: string, commitError: Option<string>) returns (resp: Response)
      modifies this
      ensures var s := Delete(old(Snapshot()), path, commitError);
        Snapshot() == s.bucket && resp == Respond(s.outcome)
    {
      var parsed := Atoi(path);
      if parsed.None? {
        return Respond(InvalidId);
      }
      var saved := Snapshot();
      Remove(Itob(parsed.value));
      if commitError.Some? {
        Rollback(saved);
        return Respond(StoreError(commitError.value));
      }
      resp := Respond(Deleted);
    }

    /**
     * getTodos (main.go:39-60): visit the records in ascending key order, decoding
     * each; the first record that does not decode ends the walk with a 500 and
     * discards what was collected. On success the answer is 200 with every record
     * exactly once, in key order; `keys` are the keys visited.
     */
    method GetTodos() returns (resp: Response, ghost keys: seq<Bytes>)
      ensures resp.status == StatusOK <==> AllDecodable(records)
      ensures resp.status == StatusOK ==> resp.body.ListBody? && ListedInKeyOrder(records, keys, resp.body.todos)
      ensures resp.status != StatusOK ==>
        && resp.status == StatusInternalServerError
        && resp.body.Text?
        && exists k :: FirstUndecodable(records, k) && records[k] == BadJson(resp.body.message)
    {
      var todos: seq<Todo> := [];
      var remaining := records.Keys;
      keys := [];
      while remaining != {}
        invariant remaining <= records.Keys
        invariant forall k :: k in keys <==> k in records && k !in remaining
        invariant StrictlyAscending(keys)
        invariant forall i, k :: 0 <= i < |keys| && k in remaining ==> LexLess(keys[i], k)
        invariant |todos| == |keys|
        invariant forall i :: 0 <= i < |keys| ==> keys[i] in records && records[keys[i]] == TodoJson(todos[i])
        decreases remaining
      {
        LeastExists(remaining);
        var k :| IsLeast(k, remaining);
        match records[k]
        case BadJson(e) =>
          forall o | o in records && LexLess(o, k)
            ensures records[o].TodoJson?
          {
            LexLessAsymmetric(o, k);
            LexLessIrreflexive(o);
          }
          assert FirstUndecodable(records, k);
          return Respond(StoreError(e)), keys;
        case TodoJson(t) =>
          todos := todos + [t];
          keys := keys + [k];
          remaining := remaining - {k};
      }
      resp := Respond(Listed(todos));
    }
  }

  /** Every record decodes, lies under its own id's key, and has an id from 1 to n. */
  ghost predicate IdsUpTo(records: map<Bytes, Json>, n: int)
  {
    forall k :: k in records ==>
      && records[k].TodoJson?
      && 1 <= records[k].todo.id <= n
      && k == Itob(records[k].todo.id)
  }

  /**
   * The creates of step 4, integration_test.go:85-97: five more creates on a store whose
   * sequence is at 1. Each lands under a new key, so the store then holds six
   * records and the sequence is at 6.
   */
  method CreatePaginationTodos(store: TodoStore)
    requires store.sequence == 1 && |store.records| == 1 && IdsUpTo(store.records, 1)
    requires Itob(1) in store.records
    modifies store
    ensures store.sequence == 6 && |store.records| == 6 && IdsUpTo(store.records, 6)
    ensures Itob(1) in store.records
  {
    for i := 0 to 5
      invariant store.sequence == 1 + i
      invariant |store.records| == 1 + i
      invariant IdsUpTo(store.records, 1 + i)
      invariant Itob(1) in store.records
    {
      var next := 2 + i;
      forall k | k in store.records
        ensures k != Itob(next)
      {
        ItobInjective(store.records[k].todo.id, next);
      }
      var more := store.CreateTodo(TodoJson(Todo(0, "Pagination Todo " + Itoa(i), false)), None);
      assert more.status == StatusCreated;
    }
  }

  /**
   * Steps 1 and 2 of integration_test.go:26-59 on a new database: the first
   * create answers 201 with id 1, and the listing holds exactly that record.
   */
  method CreateAndList(store: TodoStore)
    requires store.Snapshot() == EmptyBucket
    modifies store
    ensures store.records == map[Itob(1) := TodoJson(Todo(1, "Integration Test Todo", false))]
    ensures store.sequence == 1
  {
    var created := store.CreateTodo(TodoJson(Todo(0, "Integration Test Todo", false)), None);
    assert created == Response(StatusCreated, TodoBody(Todo(1, "Integration Test Todo", false)));

    var listed, keys := store.GetTodos();
    assert listed.status == StatusOK;
    assert Itob(1) in keys;
    assert keys[0] in store.records;
    assert listed.body.todos != [] && listed.body.todos[0] == Todo(1, "Integration Test Todo", false);
    ListingCountsRecords(store.records, keys, listed.body.todos);
    assert |listed.body.todos| == 1;
  }

  /** Step 3 of integration_test.go:61-83: PUT /todos/1 answers 200 with the new title and flag under id 1. */
  method UpdateFirst(store: TodoStore)
    requires store.records == map[Itob(1) := TodoJson(Todo(1, "Integration Test Todo", false))]
    requires store.sequence == 1
    modifies store
    ensures store.records == map[Itob(1) := TodoJson(Todo(1, "Updated Integration Test Todo", true))]
    ensures store.sequence == 1
  {
    assert Atoi("1") == Some(1) by {
      assert "1"[..0] == "";
    }
    var updated := store.UpdateTodo("1", TodoJson(Todo(0, "Updated Integration Test Todo", true)), None);
    assert updated == Response(StatusOK, TodoBody(Todo(1, "Updated Integration Test Todo", true)));
  }

  /**
   * The listing of step 4 and the delete of step 5 (integration_test.go:99-123):
   * the store holds all six records, and DELETE /todos/1 answers 204 and leaves
   * the other five. The test's page of three is not served by main.go, which
   * lists everything. Its closing `GET /todos/{id}` (integration_test.go:125-128) is not routed
   * by main.go either; a second delete of the same id, again 204, takes its place.
   */
  method ListAllAndDelete(store: TodoStore)
    requires store.sequence == 6 && |store.records| == 6 && IdsUpTo(store.records, 6)
    requires Itob(1) in store.records
    modifies store
    ensures Itob(1) !in store.records && |store.records| == 5 && store.sequence == 6
  {
    var all, allKeys := store.GetTodos();
    assert all.status == StatusOK;
    ListingCountsRecords(store.records, allKeys, all.body.todos);
    assert |all.body.todos| == 6;

    assert Atoi("1") == Some(1) by {
      assert "1"[..0] == "";
    }
    var deleted := store.DeleteTodo("1", None);
    assert deleted == Response(StatusNoContent, NoBody);
    var again := store.DeleteTodo("1", None);
    assert again == Response(StatusNoContent, NoBody);
  }

  /**
   * The lifecycle of integration_test.go:21-128 on a new database, step by step:
   * create and list, update, five more creates, list all and delete.
   */
  method Lifecycle()
  {
    var store := new TodoStore();
    CreateAndList(store);
    UpdateFirst(store);
    assert IdsUpTo(store.records, 1);
    CreatePaginationTodos(store);
    ListAllAndDelete(store);
    assert Itob(1) !in store.records && |store.records| == 5 && store.sequence == 6;
  }
}
