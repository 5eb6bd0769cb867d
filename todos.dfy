/**
 * The todo service of main.go as pure transitions on the "todos" bucket.
 *
 * A bucket is its records (key to stored JSON) and its sequence counter. Each
 * write handler (createTodo, updateTodo, deleteTodo) is a function from a bucket
 * and a request to the new bucket and an `Outcome`; `Respond` maps an outcome to
 * the HTTP status and body the handler writes. The class in module Server runs
 * the same handlers step by step and is proved to follow these functions.
 */
module Todos {
  import opened Wrappers
  import opened Machine
  import opened Keys
  import opened Strconv

  /** A todo item (main.go:20-24). */
  datatype Todo = Todo(id: Int64, title: string, completed: bool)

  /**
   * A JSON document as the service sees it: one that `encoding/json` decodes into
   * a Todo (absent fields left at their zero values), or one it rejects with an
   * error message. Request bodies and stored values are both documents.
   */
  datatype Json = TodoJson(todo: Todo) | BadJson(error: string)

  /** `json.Marshal` of a Todo, which cannot fail. */
  function Marshal(t: Todo): Json
  {
    TodoJson(t)
  }

  /** The "todos" bucket: records by key, and the counter behind `NextSequence`. */
  datatype Bucket = Bucket(records: map<Bytes, Json>, sequence: Uint64)

  /** The bucket that `initDB` creates in a new database file. */
  const EmptyBucket := Bucket(map[], 0)

  const StatusOK := 200
  const StatusCreated := 201
  const StatusNoContent := 204
  const StatusBadRequest := 400
  const StatusInternalServerError := 500

  const InvalidIdMessage := "Invalid ID"

  datatype Body =
    | TodoBody(todo: Todo)
    | ListBody(todos: seq<Todo>)
    | Text(message: string)
    | NoBody
    | StatusBody(status: string)

  datatype Response = Response(status: int, body: Body)

  /** What a handler decided, before it writes the response. */
  datatype Outcome =
    | InvalidId
    | BadBody(error: string)
    | StoreError(error: string)
    | Created(todo: Todo)
    | Saved(todo: Todo)
    | Deleted
    | Listed(todos: seq<Todo>)
    | Healthy
  {
    predicate IsClientError()
    {
      InvalidId? || BadBody?
    }

    predicate IsSuccess()
    {
      Created? || Saved? || Deleted? || Listed? || Healthy?
    }
  }

  /**
   * The response a handler writes: `http.Error` with 400 or 500 and the message
   * as plain text, or a success status (an explicit `WriteHeader`, else Go's
   * implicit 200) with the JSON body.
   */
  function Respond(o: Outcome): (r: Response)
    ensures r.status == StatusBadRequest <==> o.IsClientError()
    ensures r.status == StatusInternalServerError <==> o.StoreError?
    ensures 200 <= r.status < 300 <==> o.IsSuccess()
    ensures r.body.Text? <==> !o.IsSuccess()
    ensures r.body == NoBody <==> o.Deleted?
    ensures o.InvalidId? ==> r.body == Text(InvalidIdMessage)
  {
    match o
    case InvalidId => Response(StatusBadRequest, Text(InvalidIdMessage))
    case BadBody(e) => Response(StatusBadRequest, Text(e))
    case StoreError(e) => Response(StatusInternalServerError, Text(e))
    case Created(t) => Response(StatusCreated, TodoBody(t))
    case Saved(t) => Response(StatusOK, TodoBody(t))
    case Deleted => Response(StatusNoContent, NoBody)
    case Listed(ts) => Response(StatusOK, ListBody(ts))
    case Healthy => Response(StatusOK, StatusBody("healthy"))
  }

  /** healthCheck: answers without touching the store. */
  function HealthCheck(): (r: Response)
    ensures r.status == StatusOK && r.body == StatusBody("healthy")
  {
    Respond(Healthy)
  }

  /** bbolt's `NextSequence`: the uint64 counter plus one, with Go's unsigned wrap-around. */
  function NextSequence(s: Uint64): (n: Uint64)
    ensures s < MAX_UINT64 ==> n == s + 1
    ensures s == MAX_UINT64 ==> n == 0
  {
    (s + 1) % TWO_TO_THE_64
  }

  datatype Step = Step(bucket: Bucket, outcome: Outcome)

  /**
   * createTodo: decode the body; in one write transaction take the next sequence
   * value as the id (the client's id is overwritten) and put the record under
   * itob(id). A failed commit rolls the whole transaction back, sequence included.
   */
  function Create(b: Bucket, body: Json, commitError: Option<string>): (r: Step)
    ensures !r.outcome.IsSuccess() ==> r.bucket == b
    ensures r.outcome.IsSuccess() ==> r.outcome.Created?
    ensures r.bucket.records.Keys <= b.records.Keys + {Itob(AsInt64(NextSequence(b.sequence)))}
  {
    match body
    case BadJson(e) => Step(b, BadBody(e))
    case TodoJson(t) =>
      var next := NextSequence(b.sequence);
      var todo := t.(id := AsInt64(next));
      if commitError.Some? then Step(b, StoreError(commitError.value))
      else Step(Bucket(b.records[Itob(todo.id) := Marshal(todo)], next), Created(todo))
  }

  /**
   * updateTodo: parse the path id, then decode the body; the path id replaces the
   * body's id and the record is put under itob(id) whether or not one was there.
   */
  function Update(b: Bucket, path: string, body: Json, commitError: Option<string>): (r: Step)
    ensures !r.outcome.IsSuccess() ==> r.bucket == b
    ensures r.outcome.IsSuccess() ==> r.outcome.Saved?
    ensures r.bucket.sequence == b.sequence
  {
    match Atoi(path)
    case None => Step(b, InvalidId)
    case Some(id) =>
      match body
      case BadJson(e) => Step(b, BadBody(e))
      case TodoJson(t) =>
        var todo := t.(id := id);
        if commitError.Some? then Step(b, StoreError(commitError.value))
        else Step(b.(records := b.records[Itob(id) := Marshal(todo)]), Saved(todo))
  }

  /** deleteTodo: parse the path id and delete itob(id), present or not. */
  function Delete(b: Bucket, path: string, commitError: Option<string>): (r: Step)
    ensures !r.outcome.IsSuccess() ==> r.bucket == b
    ensures r.outcome.IsSuccess() ==> r.outcome.Deleted?
    ensures r.bucket.sequence == b.sequence && r.bucket.records.Keys <= b.records.Keys
  {
    match Atoi(path)
    case None => Step(b, InvalidId)
    case Some(id) =>
      if commitError.Some? then Step(b, StoreError(commitError.value))
      else Step(b.(records := b.records - {Itob(id)}), Deleted)
  }

  // ---------------------------------------------------------------------------
  // Invariants of the stored records.

  /** Every record that decodes is stored under the key of its own id. */
  predicate KeysMatchIds(b: Bucket)
  {
    forall k :: k in b.records && b.records[k].TodoJson? ==> k == Itob(b.records[k].todo.id)
  }

  /** Every record decodes, so a listing cannot fail. */
  predicate AllDecodable(records: map<Bytes, Json>)
  {
    forall k :: k in records ==> records[k].TodoJson?
  }

  /** k holds the first record, in key order, that does not decode. */
  predicate FirstUndecodable(records: map<Bytes, Json>, k: Bytes)
  {
    && k in records
    && records[k].BadJson?
    && forall o :: o in records && LexLess(o, k) ==> records[o].TodoJson?
  }

  /**
   * todos lists every record of records exactly once, in bbolt's ascending key
   * order; keys are the keys visited.
   */
  ghost predicate ListedInKeyOrder(records: map<Bytes, Json>, keys: seq<Bytes>, todos: seq<Todo>)
  {
    && StrictlyAscending(keys)
    && (forall k :: k in records <==> k in keys)
    && |todos| == |keys|
    && (forall i :: 0 <= i < |keys| ==> keys[i] in records && records[keys[i]] == TodoJson(todos[i]))
  }

  // ---------------------------------------------------------------------------
  // createTodo

  /**
   * A well-formed create takes the next sequence value as the id, keeps the
   * client's title and completed flag, stores the record under the key that
   * reads back as that sequence value, and answers 201 with it.
   */
  lemma CreateStoresNextSequence(b: Bucket, t: Todo)
    ensures var s := Create(b, TodoJson(t), None);
      var todo := Todo(AsInt64(NextSequence(b.sequence)), t.title, t.completed);
      && s.bucket.sequence == NextSequence(b.sequence)
      && s.outcome == Created(todo)
      && Respond(s.outcome) == Response(StatusCreated, TodoBody(todo))
      && s.bucket.records == b.records[Itob(todo.id) := TodoJson(todo)]
      && ValueOf(Itob(todo.id)) == s.bucket.sequence
      && (b.sequence + 1 < TWO_TO_THE_63 ==> todo.id == b.sequence + 1 && todo.id > 0)
  {
    ItobDecodes(AsInt64(NextSequence(b.sequence)));
  }

  /** The id the client sends on create makes no difference. */
  lemma CreateIgnoresClientId(b: Bucket, t: Todo, clientId: Int64, commitError: Option<string>)
    ensures Create(b, TodoJson(t.(id := clientId)), commitError) == Create(b, TodoJson(t), commitError)
  {
  }

  /**
   * A create can replace a record: when an update has written an id the sequence
   * has not reached yet, the create that reaches it overwrites that record.
   */
  lemma CreateCanOverwriteUpsertedRecord()
    ensures var s1 := Update(EmptyBucket, "1", TodoJson(Todo(0, "mine", false)), None);
      var s2 := Create(s1.bucket, TodoJson(Todo(0, "new", false)), None);
      && s1.bucket.records == map[Itob(1) := TodoJson(Todo(1, "mine", false))]
      && s2.outcome == Created(Todo(1, "new", false))
      && s2.bucket.records == map[Itob(1) := TodoJson(Todo(1, "new", false))]
  {
    assert Atoi("1") == Some(1) by {
      assert "1"[..0] == "";
    }
  }

  // ---------------------------------------------------------------------------
  // updateTodo

  /**
   * An update with a parseable id and a well-formed body answers 200 echoing the
   * body under the path id, writes that record at itob(id) whether or not the key
   * existed, changes no other key and leaves the sequence alone.
   */
  lemma UpdateUpserts(b: Bucket, path: string, t: Todo, id: Int64)
    requires Atoi(path) == Some(id)
    ensures var s := Update(b, path, TodoJson(t), None);
      var todo := Todo(id, t.title, t.completed);
      && s.outcome == Saved(todo)
      && Respond(s.outcome) == Response(StatusOK, TodoBody(todo))
      && Itob(id) in s.bucket.records && s.bucket.records[Itob(id)] == TodoJson(todo)
      && (forall k :: k != Itob(id) ==> (k in s.bucket.records <==> k in b.records))
      && (forall k :: k != Itob(id) && k in b.records ==> s.bucket.records[k] == b.records[k])
      && s.bucket.sequence == b.sequence
  {
  }

  /** Sending the same update twice leaves the same bucket and gets the same answer. */
  lemma UpdateIdempotent(b: Bucket, path: string, body: Json)
    ensures var s1 := Update(b, path, body, None);
      var s2 := Update(s1.bucket, path, body, None);
      s2 == s1
  {
  }

  // ---------------------------------------------------------------------------
  // deleteTodo

  /**
   * A delete with a parseable id answers 204 whether or not the key existed,
   * removes that key, and changes no other key and not the sequence.
   */
  lemma DeleteRemoves(b: Bucket, path: string, id: Int64)
    requires Atoi(path) == Some(id)
    ensures var s := Delete(b, path, None);
      && s.outcome == Deleted
      && Respond(s.outcome) == Response(StatusNoContent, NoBody)
      && Itob(id) !in s.bucket.records
      && (forall k :: k != Itob(id) ==> (k in s.bucket.records <==> k in b.records))
      && (forall k :: k != Itob(id) && k in b.records ==> s.bucket.records[k] == b.records[k])
      && s.bucket.sequence == b.sequence
  {
  }

  /** Deleting the same id twice: the second delete changes nothing and also answers 204. */
  lemma DeleteIdempotent(b: Bucket, path: string)
    ensures var s1 := Delete(b, path, None);
      var s2 := Delete(s1.bucket, path, None);
      s2 == s1
  {
  }

  // ---------------------------------------------------------------------------
  // Error paths

  /**
   * A path id Atoi rejects answers 400 "Invalid ID" and changes nothing; update
   * checks it before it looks at the body.
   */
  lemma InvalidIdRejected(b: Bucket, path: string, body: Json, commitError: Option<string>)
    requires Atoi(path) == None
    ensures Update(b, path, body, commitError) == Step(b, InvalidId)
    ensures Delete(b, path, commitError) == Step(b, InvalidId)
    ensures Respond(InvalidId) == Response(StatusBadRequest, Text(InvalidIdMessage))
  {
  }

  /**
   * A body that does not decode answers 400 with the decoder's message before any
   * transaction opens: no record changes and create does not advance the sequence.
   */
  lemma MalformedBodyRejected(b: Bucket, path: string, error: string, commitError: Option<string>)
    ensures Create(b, BadJson(error), commitError) == Step(b, BadBody(error))
    ensures Atoi(path).Some? ==> Update(b, path, BadJson(error), commitError) == Step(b, BadBody(error))
    ensures Respond(BadBody(error)) == Response(StatusBadRequest, Text(error))
  {
  }

  /** A transaction that fails to commit answers 500 with its error and rolls back entirely. */
  lemma CommitFailureRollsBack(b: Bucket, path: string, body: Json, error: string)
    ensures var s := Create(b, body, Some(error));
      s.bucket == b && (body.TodoJson? ==> s.outcome == StoreError(error))
    ensures var s := Update(b, path, body, Some(error));
      s.bucket == b && (Atoi(path).Some? && body.TodoJson? ==> s.outcome == StoreError(error))
    ensures var s := Delete(b, path, Some(error));
      s.bucket == b && (Atoi(path).Some? ==> s.outcome == StoreError(error))
    ensures Respond(StoreError(error)) == Response(StatusInternalServerError, Text(error))
  {
  }

  // ---------------------------------------------------------------------------
  // Listing order

  /**
   * When keys match ids, a listing in key order is a listing in ascending order
   * of the ids read as `uint64`; for non-negative ids, ascending id order.
   */
  lemma ListedIdsAscend(b: Bucket, keys: seq<Bytes>, todos: seq<Todo>)
    requires KeysMatchIds(b) && ListedInKeyOrder(b.records, keys, todos)
    ensures forall i, j :: 0 <= i < j < |todos| ==> AsUint64(todos[i].id) < AsUint64(todos[j].id)
    ensures (forall i :: 0 <= i < |todos| ==> todos[i].id >= 0) ==>
      forall i, j :: 0 <= i < j < |todos| ==> todos[i].id < todos[j].id
  {
    forall i, j | 0 <= i < j < |todos|
      ensures AsUint64(todos[i].id) < AsUint64(todos[j].id)
    {
      assert keys[i] == Itob(todos[i].id) && keys[j] == Itob(todos[j].id);
      ItobOrdersLikeUnsigned(todos[i].id, todos[j].id);
    }
  }

  /** A key-order listing names each record exactly once, so it is as long as the bucket. */
  lemma ListingCountsRecords(records: map<Bytes, Json>, keys: seq<Bytes>, todos: seq<Todo>)
    requires ListedInKeyOrder(records, keys, todos)
    ensures |todos| == |records|
  {
    AscendingKeysCount(keys);
    assert records.Keys == set k | k in keys;
  }

  // ---------------------------------------------------------------------------
  // Scenarios

  /** Creating "Buy milk" in a new database answers 201 with id 1. */
  lemma CreateFirstTodo()
    ensures var s := Create(EmptyBucket, TodoJson(Todo(0, "Buy milk", false)), None);
      && Respond(s.outcome) == Response(StatusCreated, TodoBody(Todo(1, "Buy milk", false)))
      && s.bucket == Bucket(map[Itob(1) := TodoJson(Todo(1, "Buy milk", false))], 1)
  {
  }

  /** PUT /todos/99999 on an empty store creates the record instead of answering 404. */
  lemma UpdateUnknownIdCreates()
    ensures var s := Update(EmptyBucket, "99999", TodoJson(Todo(0, "X", true)), None);
      && Respond(s.outcome) == Response(StatusOK, TodoBody(Todo(99999, "X", true)))
      && s.bucket == Bucket(map[Itob(99999) := TodoJson(Todo(99999, "X", true))], 0)
  {
    AtoiExample();
  }

  /** DELETE /todos/99999 on an empty store answers 204. */
  lemma DeleteUnknownId()
    ensures var s := Delete(EmptyBucket, "99999", None);
      Respond(s.outcome) == Response(StatusNoContent, NoBody) && s.bucket == EmptyBucket
  {
    AtoiExample();
  }
}
