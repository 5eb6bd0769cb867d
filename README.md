# todo-list-service, modelled in Dafny

The service keeps todo items (`id`, `title`, `completed`) in the bbolt bucket
`"todos"` and serves them over HTTP: `GET /todos` lists them, `POST /todos`
creates one with the next value of the bucket's sequence as its id,
`PUT /todos/{id}` writes one under the path id whether or not it existed,
`DELETE /todos/{id}` removes one and reports success even when nothing was there,
and `GET /health` answers without touching the store. Each record is stored
under `itob(id)`, the 8 big-endian bytes of `uint64(id)`.

The model has these parts:

- `Machine`: Go's `int`, `uint64` and `byte` widths, and the conversions
  `uint64(v)` and `int(u)` between them.
- `Strconv`: `strconv.Atoi`, which reads the path id. It accepts an optional
  sign and decimal digits whose value fits a 64-bit `int`. Atoi reads back every
  `Itoa` rendering.
- `Keys`: `itob`, the big-endian decoding it inverts, and bbolt's byte-wise key
  order (`bytes.Compare`). Proved: itob gives exactly 8 bytes, it is a bijection
  onto 8-byte keys, and key order is the order of the ids read as `uint64`.
  So for non-negative ids, key order is ascending id order.
- `Todos`: the data (`Todo`, stored and request JSON as `Json`, the `Bucket`
  with its records map and sequence counter) and the outcome-to-response
  mapping `Respond`. It also holds the write handlers as pure transitions
  (`Create`, `Update`, `Delete`), with lemmas for each property the code and
  its tests promise.
- `Server`: the class `TodoStore`, whose fields are the bucket's records and
  sequence. Its handler methods change them in place and are proved to follow
  the transitions above. `GetTodos` walks the records in key order, as
  `ForEach` does, and stops at the first record that does not decode.
- `Traces`: runs of write requests. Created ids are consecutive from the
  sequence value, so they are never reused, even after deletes, until the
  counter wraps past 2^64 - 1. The handlers keep
  every record decodable and stored under its own id's key.

Inputs the code gets from outside are parameters. The request body arrives
already decoded (`TodoJson(todo)` or `BadJson(error)`). A failed transaction
commit arrives as `commitError`. On a failure, the write and the sequence
advance both roll back.

Where the tests and the code disagree, the model follows `main.go`.
The tests decode a paginated envelope from `GET /todos`
(main_test.go:227-232, integration_test.go:54-59 and 101-112) and call a
`setupRouter` function. `main.go` defines neither: it returns every record as a bare
JSON array.

Two consequences of the code are worth knowing; both are proved.

- A create can overwrite a record. An update may write an id the sequence has
  not reached yet. The create that reaches that id then replaces the record
  (`Todos.CreateCanOverwriteUpsertedRecord`).
- The listing follows unsigned order. A negative path id, which `Atoi` accepts,
  is stored under a key that sorts after every non-negative id
  (`Keys.NegativeIdsSortLast`).

## Model

| member | source | states |
|---|---|---|
| `Machine.AsUint64` | main.go:148 | `uint64(v)` is the unique value in [0, 2^64) congruent to v; it is below 2^63 exactly when v is non-negative |
| `Machine.AsInt64` | main.go:72 | `int(u)` gives back the signed id whose `uint64` is u |
| `Machine.ConversionsRoundTrip` | main.go:72 | `int` and `uint64` conversions are inverse bijections |
| `Keys.Itob` | main.go:146-150 | itob always returns exactly 8 bytes |
| `Keys.ItobIsBytesOf` | main.go:146-150 | PutUint64's shifted bytes are the 8-byte big-endian digits of `uint64(v)` |
| `Keys.ItobDecodes` | main.go:146-150 | reading itob(v) back as big-endian gives `uint64(v)`, and `int` of that gives v |
| `Keys.ItobOnto` | main.go:146-150 | every 8-byte key is itob of exactly one id |
| `Keys.ItobInjective` | main.go:146-150 | itob(a) == itob(b) if and only if a == b |
| `Keys.ItobExamples` | main_test.go:74-97 | itob(42) = [0,0,0,0,0,0,0,42], itob(0) is all zeros, and itob(-1) is all 255 |
| `Keys.LexLessIffValueLess` | main.go:44 | on keys of equal length, bbolt's byte order is the order of their big-endian values |
| `Keys.ItobOrdersLikeUnsigned` | main.go:148 | itob(a) sorts before itob(b) if and only if `uint64(a) < uint64(b)` |
| `Keys.ItobOrdersNonNegativeIds` | main.go:148 | for ids 0 <= a, b: itob(a) sorts before itob(b) if and only if a < b |
| `Keys.NegativeIdsSortLast` | main.go:148 | the key of a negative id sorts after the key of every non-negative id |
| `Keys.LeastExists` | main.go:44 | every non-empty set of keys has a first key in bbolt's order (the one a cursor visits next) |
| `Keys.AscendingKeysCount` | main.go:44 | keys in strictly ascending order are distinct, so a cursor's visit list is as long as the set of keys it visits |
| `Strconv.Atoi` | main.go:93-97 | no contract of its own: it accepts `[+-]?[0-9]+` within the 64-bit `int` range and rejects everything else, as specified by `Strconv.AtoiOnDecimal`, `Strconv.AtoiAcceptsOnlyDecimal`, `Strconv.AtoiItoa`, `Strconv.AtoiRange`, `Strconv.AtoiSignsAndZeros` and `Strconv.AtoiRejects` |
| `Strconv.AtoiItoa` | main.go:93 | Atoi reads back every `int` from its decimal text |
| `Strconv.AtoiAcceptsOnlyDecimal` | main.go:93-97 | Atoi succeeds only on a sign or digit followed by digits, never on a bare sign, and the sign decides the sign of the id |
| `Strconv.AtoiOnDecimal` | main.go:93-97 | an optional `+` or `-` followed by decimal digits, leading zeros included, reads as the signed value of the digits when it fits the 64-bit `int`, and is rejected otherwise |
| `Strconv.AtoiRange` | main.go:121-125 | the boundary texts: that of 2^63 is rejected, those of 2^63 - 1 and -2^63 are accepted (the general range rule is `Strconv.AtoiOnDecimal`) |
| `Strconv.AtoiExample` | main_test.go:268 | the path id "99999" parses as 99999 |
| `Strconv.AtoiSignsAndZeros` | main.go:93 | leading zeros and an explicit + or - sign are accepted |
| `Strconv.AtoiRejects` | main.go:121-125 | empty text, a bare sign and non-digit text are rejected |
| `Todos.Respond` | main.go:54-137 | 400 exactly for a bad id or bad body; 500 exactly for a store error; 2xx exactly for success; errors carry plain text, a bad id "Invalid ID"; only delete has no body |
| `Todos.HealthCheck` | main.go:140-144 | health always answers 200 with status "healthy" |
| `Todos.NextSequence` | main.go:71 | the sequence advances by one, wrapping from 2^64-1 to 0 |
| `Todos.Create` | main.go:62-89 | a failed create leaves the bucket as it was; the only success is `Created`; at most the key of the next sequence value is added. The rest is stated by `Todos.CreateStoresNextSequence`, `Todos.CreateIgnoresClientId`, `Todos.MalformedBodyRejected` and `Todos.CommitFailureRollsBack` |
| `Todos.Update` | main.go:91-117 | a failed update leaves the bucket as it was; the only success is `Saved`; the sequence never moves. The rest is stated by `Todos.UpdateUpserts`, `Todos.UpdateIdempotent`, `Todos.InvalidIdRejected`, `Todos.MalformedBodyRejected` and `Todos.CommitFailureRollsBack` |
| `Todos.Delete` | main.go:119-138 | a failed delete leaves the bucket as it was; the only success is `Deleted`; the sequence never moves and no key is added. The rest is stated by `Todos.DeleteRemoves`, `Todos.DeleteIdempotent`, `Todos.InvalidIdRejected` and `Todos.CommitFailureRollsBack` |
| `Todos.CreateStoresNextSequence` | main.go:69-88 | a well-formed create stores the record under the next sequence value as id, keeps title and completed, and answers 201 with it; the key reads back as the new sequence value; the id is positive while the counter is below 2^63 - 1 |
| `Todos.CreateIgnoresClientId` | main.go:71-72 | the id sent on create has no effect on the store or the answer |
| `Todos.CreateCanOverwriteUpsertedRecord` | main.go:71-79 | after PUT /todos/1 on a new store, the first create gets id 1 and replaces that record |
| `Todos.UpdateUpserts` | main.go:104-116 | an update answers 200 with the body under the path id and writes it at itob(id) whether or not it existed; no other key and not the sequence changes |
| `Todos.UpdateIdempotent` | main.go:104-116 | the same update twice leaves the same store and gets the same answer |
| `Todos.DeleteRemoves` | main.go:127-137 | a delete answers 204 whether or not the key existed, removes it, and changes no other key and not the sequence |
| `Todos.DeleteIdempotent` | main.go:127-137 | a second delete of the same id changes nothing and also answers 204 |
| `Todos.InvalidIdRejected` | main.go:92-97 | an unparseable path id answers 400 "Invalid ID" and changes nothing; update checks it before decoding the body |
| `Todos.MalformedBodyRejected` | main.go:63-67 | a body that does not decode answers 400 with the decoder's message; nothing changes and create does not advance the sequence |
| `Todos.CommitFailureRollsBack` | main.go:69-85 | a failed commit answers 500 with its error and leaves records and sequence as they were |
| `Todos.ListedIdsAscend` | main.go:44-49 | when records sit under their ids' keys, a key-order listing has strictly ascending `uint64` ids, so ascending ids when none is negative |
| `Todos.ListingCountsRecords` | main.go:44-49 | a key-order listing has exactly as many todos as the bucket has records |
| `Todos.CreateFirstTodo` | main_test.go:155-161 | creating "Buy milk" in a new store answers 201 with id 1 |
| `Todos.UpdateUnknownIdCreates` | main_test.go:266-275 | PUT /todos/99999 on an empty store answers 200 with {99999, "X", true} and creates the record |
| `Todos.DeleteUnknownId` | main_test.go:326-330 | DELETE /todos/99999 on an empty store answers 204 |
| `Server.TodoStore.constructor` | main.go:33-36 | a new database has an empty "todos" bucket with sequence 0 |
| `Server.TodoStore.NextSequence` | main.go:71 | advances the counter and returns its new value |
| `Server.TodoStore.Put` | main.go:79 | writes the value under the key, replacing any previous value |
| `Server.TodoStore.Remove` | main.go:129 | removes the key; a missing key is not an error |
| `Server.TodoStore.Rollback` | main.go:69-85 | restores the bucket as it was when the write transaction began |
| `Server.TodoStore.CreateTodo` | main.go:62-89 | leaves the bucket and answers exactly as `Todos.Create` |
| `Server.TodoStore.UpdateTodo` | main.go:91-117 | leaves the bucket and answers exactly as `Todos.Update` |
| `Server.TodoStore.DeleteTodo` | main.go:119-138 | leaves the bucket and answers exactly as `Todos.Delete` |
| `Server.TodoStore.GetTodos` | main.go:39-60 | 200 if and only if every record decodes, listing every record once in ascending key order; otherwise 500 with the error of the first undecodable record in key order and no list |
| `Server.CreateAndList` | integration_test.go:26-59 | on a new store, the first create answers 201 with id 1 and the listing holds exactly that record; the store then holds that one record with the sequence at 1 |
| `Server.UpdateFirst` | integration_test.go:61-83 | PUT /todos/1 answers 200 with the new title and flag under id 1 and replaces the record |
| `Server.CreatePaginationTodos` | integration_test.go:85-97 | five more creates each land under a new key: six records, ids 1 to 6 under their own keys, sequence at 6 |
| `Server.ListAllAndDelete` | integration_test.go:99-128 | the listing holds all six records (main.go serves no page of three); DELETE /todos/1 answers 204 and leaves the other five; the closing `GET /todos/{id}`, which main.go does not route, is replaced by a second delete, again 204 |
| `Server.Lifecycle` | integration_test.go:21-128 | no contract: runs the four steps above in order on a new store and asserts the end state (id 1 gone, five records, sequence 6) |
| `Traces.ApplySequence` | main.go:69-80 | while the sequence is below 2^64 - 1: only a successful create advances it, by exactly one, and the created id is the new value read as `int` (that value itself below 2^63) |
| `Traces.CreatedIdsConsecutive` | main.go:71-72 | over any run whose successful creates do not carry the counter past 2^64 - 1, whatever other requests it holds, they get the ids whose `uint64` values are sequence+1, sequence+2, ... with no gaps, and the sequence ends at the last one; when the last of those values is below 2^63 the ids are those values themselves |
| `Traces.CreatedIdsNeverReused` | main.go:71-72 | over any run whose successful creates do not carry the counter past 2^64 - 1, created ids are pairwise distinct and nonzero, strictly increase as `uint64` and exceed every id handed out before, deletes notwithstanding; when the last of them is below 2^63 they also strictly increase as `int` |
| `Traces.ApplyPreservesInvariants` | main.go:69-130 | each write handler keeps every record decodable and stored under its own id's key |
| `Traces.RunPreservesInvariants` | main.go:42-52 | a bucket written only by the handlers stays decodable, so listing it never fails |
| `Traces.EmptyBucketInvariants` | main.go:33-36 | the bucket of a new database satisfies both invariants |

## Left out

- Process wiring: `main`, route registration with gorilla/mux, the `PORT` variable and logging (main.go:159-185). These are I/O.
- `initDB`'s file open and its errors (main.go:26-37): the model starts from the empty bucket of a new file (`Server.TodoStore.constructor`).
- bbolt internals: the file, the B+tree, transactions and writer serialisation. The bucket is a map plus a counter. A write transaction either commits or rolls back whole, as the `commitError` parameter decides.
- Read-transaction failures other than a record that does not decode (a closed database, for one): `GetTodos` fails only on decoding.
- JSON text: decoding a request body or a stored value is a given result, and marshalling a `Todo` is the identity. It follows that `must` (main.go:152-157) never panics.
- Body bytes: the newline `http.Error` appends, and `null` versus `[]` for an empty list, are not modelled.
- The error of `NextSequence` is discarded at main.go:71, so the model treats it as infallible.
- The dead global `nextID` (main.go:17) is never read.
- Pagination, `PaginatedResponse` and `setupRouter`, which the tests use, and the 404 for `GET /todos/{id}` (integration_test.go:126-128): `main.go` defines no such listing and no such route.
- Concurrency between requests is left to bbolt. `Traces.Run` serves requests one after another, as bbolt's single writer does.
- Traces.CreatedIdsConsecutive: stated only for runs whose successful creates keep the counter at or below 2^64 - 1. Past that point the counter wraps to 0 and ids repeat.
- Traces.CreatedIdsNeverReused: stated only for runs whose successful creates keep the counter at or below 2^64 - 1, for the same reason. Increase as `int` is stated only below 2^63, where `int(id)` is still positive.
- 32-bit platforms are not modelled: Go's `int` is taken as 64 bits, which fixes Atoi's range and the result of `int(uint64)`.
