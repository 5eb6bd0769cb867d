/**
 * Sequences of write requests against one bucket: what the service promises
 * over its lifetime rather than for one call.
 */
module Traces {
  import opened Wrappers
  import opened Machine
  import opened Todos

  /** A request to one of the three write routes (POST /todos, PUT and DELETE /todos/{id}). */
  datatype Request =
    | Post(body: Json, commitError: Option<string>)
    | Put(path: string, body: Json, commitError: Option<string>)
    | Remove(path: string, commitError: Option<string>)

  function Apply(b: Bucket, r: Request): Step
  {
    match r
    case Post(body, ce) => Create(b, body, ce)
    case Put(path, body, ce) => Update(b, path, body, ce)
    case Remove(path, ce) => Delete(b, path, ce)
  }

  datatype Trace = Trace(bucket: Bucket, outcomes: seq<Outcome>)

  /** Serve the requests one after another, as bbolt serialises writers. */
  function Run(b: Bucket, rs: seq<Request>): (t: Trace)
    ensures |t.outcomes| == |rs|
    decreases |rs|
  {
    if rs == [] then Trace(b, [])
    else
      var s := Apply(b, rs[0]);
      var t := Run(s.bucket, rs[1..]);
      Trace(t.bucket, [s.outcome] + t.outcomes)
  }

  /** The ids handed out by the successful creates, in order. */
  function CreatedIds(os: seq<Outcome>): seq<Int64>
  {
    if os == [] then []
    else (if os[0].Created? then [os[0].todo.id] else []) + CreatedIds(os[1..])
  }

  /** Only a successful create moves the sequence, and by exactly one. */
  lemma ApplySequence(b: Bucket, r: Request)
    requires b.sequence < MAX_UINT64
    ensures var s := Apply(b, r);
      s.bucket.sequence == if s.outcome.Created? then b.sequence + 1 else b.sequence
    ensures var s := Apply(b, r);
      s.outcome.Created? ==> AsUint64(s.outcome.todo.id) == b.sequence + 1
    ensures var s := Apply(b, r);
      s.outcome.Created? && b.sequence + 1 < TWO_TO_THE_63 ==> s.outcome.todo.id == b.sequence + 1
  {
  }

  /**
   * The successful creates of any run receive the ids sequence+1, sequence+2, ...
   * in order, with no gaps, whatever updates, deletes or failures come between,
   * and the bucket ends with its sequence at the last id handed out. This holds
   * for every run whose creates do not carry the counter past 2^64 - 1, however
   * many other requests it holds. An id is the counter's value read as `int`, so
   * it equals that value while the counter stays below 2^63 and is its
   * two's-complement reading above.
   */
  lemma {:induction false} CreatedIdsConsecutive(b: Bucket, rs: seq<Request>)
    requires b.sequence + |CreatedIds(Run(b, rs).outcomes)| <= MAX_UINT64
    ensures var t := Run(b, rs);
      var ids := CreatedIds(t.outcomes);
      && t.bucket.sequence == b.sequence + |ids|
      && forall i :: 0 <= i < |ids| ==> AsUint64(ids[i]) == b.sequence + 1 + i
    ensures var ids := CreatedIds(Run(b, rs).outcomes);
      b.sequence + |ids| < TWO_TO_THE_63 ==> forall i :: 0 <= i < |ids| ==> ids[i] == b.sequence + 1 + i
    decreases |rs|
  {
    if rs != [] {
      var s := Apply(b, rs[0]);
      var t := Run(s.bucket, rs[1..]);
      var rest := CreatedIds(t.outcomes);
      var os := [s.outcome] + t.outcomes;
      assert Run(b, rs) == Trace(t.bucket, os);
      assert os[1..] == t.outcomes;
      var ids := CreatedIds(os);
      if s.outcome.Created? {
        assert ids == [s.outcome.todo.id] + rest;
        assert b.sequence < MAX_UINT64;
        ApplySequence(b, rs[0]);
      } else {
        assert ids == rest;
        match rs[0] {
          case Post(_, _) =>
          case Put(_, _, _) =>
          case Remove(_, _) =>
        }
        assert s.bucket.sequence == b.sequence;
      }
      CreatedIdsConsecutive(s.bucket, rs[1..]);
    }
  }

  /**
   * Ids are never reused until the counter wraps: within a run the created ids are
   * pairwise distinct and nonzero, strictly increasing as `uint64` (and as `int`
   * while the counter stays below 2^63), and each exceeds every id the sequence
   * had handed out before the run, deletes notwithstanding.
   */
  lemma CreatedIdsNeverReused(b: Bucket, rs: seq<Request>)
    requires b.sequence + |CreatedIds(Run(b, rs).outcomes)| <= MAX_UINT64
    ensures var ids := CreatedIds(Run(b, rs).outcomes);
      && (forall i, j :: 0 <= i < j < |ids| ==> AsUint64(ids[i]) < AsUint64(ids[j]) && ids[i] != ids[j])
      && (forall i :: 0 <= i < |ids| ==> b.sequence < AsUint64(ids[i]) && ids[i] != 0)
    ensures var ids := CreatedIds(Run(b, rs).outcomes);
      b.sequence + |ids| < TWO_TO_THE_63 ==> forall i, j :: 0 <= i < j < |ids| ==> ids[i] < ids[j]
  {
    CreatedIdsConsecutive(b, rs);
  }

  /** Every write handler keeps each decodable record under its own id's key, and writes only decodable records. */
  lemma ApplyPreservesInvariants(b: Bucket, r: Request)
    requires KeysMatchIds(b) && AllDecodable(b.records)
    ensures KeysMatchIds(Apply(b, r).bucket) && AllDecodable(Apply(b, r).bucket.records)
  {
  }

  /**
   * A bucket written only by the handlers, from the empty bucket of a new file or
   * any bucket that already satisfies them, keeps both invariants: so getTodos
   * never fails on it and lists it in ascending unsigned id order.
   */
  lemma {:induction false} RunPreservesInvariants(b: Bucket, rs: seq<Request>)
    requires KeysMatchIds(b) && AllDecodable(b.records)
    ensures KeysMatchIds(Run(b, rs).bucket) && AllDecodable(Run(b, rs).bucket.records)
    decreases |rs|
  {
    if rs != [] {
      ApplyPreservesInvariants(b, rs[0]);
      RunPreservesInvariants(Apply(b, rs[0]).bucket, rs[1..]);
    }
  }

  /** The empty bucket of a new database file satisfies both invariants. */
  lemma EmptyBucketInvariants()
    ensures KeysMatchIds(EmptyBucket) && AllDecodable(EmptyBucket.records)
  {
  }
}
