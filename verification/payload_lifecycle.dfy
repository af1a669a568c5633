/** Starting the payload persistence over stored data, and the broker-wide
    publish counter that hands out payload ids. On start every bucket is
    scanned for its highest id, and the counter is raised above the
    highest of them, so that an id issued after a restart never collides
    with a payload that is still stored. */
module PayloadLifecycle {
  import opened Wrappers
  import opened PayloadStore

  /** A started persistence: the stored buckets and the publish counter,
      which holds the next id to issue. */
  datatype Engine = Engine(store: Store, publishCounter: nat)

  /** Every stored id lies below the counter, so no id the counter issues
      can collide with a stored payload. */
  ghost predicate CounterAboveStoredIds(e: Engine)
    requires |e.store.buckets| > 0
  {
    forall id :: id in Contents(e.store) ==> id < e.publishCounter
  }

  /** The highest id in one bucket, or `None` when the bucket is empty. */
  method BucketMaxId(bucket: Bucket) returns (m: Option<PayloadId>)
    ensures m.None? <==> bucket == map[]
    ensures m.Some? ==> m.value in bucket && forall id :: id in bucket ==> id <= m.value
  {
    m := None;
    var rest := bucket.Keys;
    while rest != {}
      invariant rest <= bucket.Keys
      invariant m.None? ==> rest == bucket.Keys
      invariant m.Some? ==> m.value in bucket && forall id :: id in bucket && id !in rest ==> id <= m.value
      decreases rest
    {
      var id :| id in rest;
      if m.None? || m.value < id {
        m := Some(id);
      }
      rest := rest - {id};
    }
    if m.None? {
      assert bucket.Keys == {};
    }
  }

  /** The highest stored id over all buckets (the high-water mark), or
      `None` when the whole store is empty. */
  method HighWaterMark(s: Store) returns (m: Option<PayloadId>)
    requires Valid(s)
    ensures m.Some? ==> m.value in Contents(s)
    ensures forall id :: id in Contents(s) ==> m.Some? && id <= m.value
  {
    m := None;
    for i := 0 to |s.buckets|
      invariant m.None? <==> forall j :: 0 <= j < i ==> s.buckets[j] == map[]
      invariant m.Some? ==> exists j :: 0 <= j < i && m.value in s.buckets[j]
      invariant m.Some? ==> forall j, id :: 0 <= j < i && id in s.buckets[j] ==> id <= m.value
    {
      var bucketMax := BucketMaxId(s.buckets[i]);
      if bucketMax.Some? && (m.None? || m.value < bucketMax.value) {
        m := bucketMax;
      }
    }
    if m.Some? {
      var j :| 0 <= j < |s.buckets| && m.value in s.buckets[j];
      ContentsLookup(s, m.value);
    }
    forall id | id in Contents(s)
      ensures m.Some? && id <= m.value
    {
      ContentsLookup(s, id);
    }
  }

  /** The counter after reconciling it with the high-water mark: left alone
      when already above it, otherwise raised to one past it. */
  function Reconcile(publishCounter: nat, highWaterMark: Option<PayloadId>): (r: nat)
    ensures publishCounter <= r
    ensures highWaterMark.Some? ==> highWaterMark.value < r
    ensures r == publishCounter || (highWaterMark.Some? && r == highWaterMark.value + 1)
  {
    match highWaterMark
    case None => publishCounter
    case Some(m) => if publishCounter > m then publishCounter else m + 1
  }

  /** Opens the persistence over stored buckets with the counter as it
      currently stands. */
  method Start(s: Store, publishCounter: nat) returns (e: Engine)
    requires Valid(s)
    ensures e.store == s
    ensures CounterAboveStoredIds(e)
    ensures publishCounter <= e.publishCounter
    ensures e.publishCounter == publishCounter || e.publishCounter - 1 in Contents(s)
  {
    var highWaterMark := HighWaterMark(s);
    var counter := Reconcile(publishCounter, highWaterMark);
    e := Engine(s, counter);
    if highWaterMark.Some? {
      var m := highWaterMark.value;
      assert counter == publishCounter || counter - 1 == m;
      forall id | id in Contents(s) ensures id < counter {
        assert id <= m;
      }
    }
  }

  /** Stops the persistence; the buckets persist for the next start. */
  function Stop(e: Engine): (s: Store) {
    e.store
  }

  /** Issues the next payload id and advances the counter. */
  function NextId(e: Engine): (r: (PayloadId, Engine))
    requires |e.store.buckets| > 0
    ensures r.0 == e.publishCounter
    ensures r.1 == e.(publishCounter := e.publishCounter + 1)
    ensures r.0 < r.1.publishCounter
    ensures CounterAboveStoredIds(e) ==> r.0 !in Contents(e.store) && CounterAboveStoredIds(r.1)
  {
    (e.publishCounter, e.(publishCounter := e.publishCounter + 1))
  }

  /** Storing a payload under a freshly issued id keeps every stored id
      below the counter, so ids stay unique across any run of issue-and-put
      steps. */
  lemma PutIssuedIdKeepsCounterAbove(e: Engine, payload: Payload)
    requires Valid(e.store)
    requires CounterAboveStoredIds(e)
    ensures var (id, e') := NextId(e);
            && id !in Contents(e.store)
            && CounterAboveStoredIds(e'.(store := Put(e'.store, id, payload)))
  {
  }

  /** Stopping and starting again keeps every payload and leaves the
      counter strictly above every stored id, whatever ids were written
      directly before the stop. */
  method Restart(e: Engine) returns (e': Engine)
    requires Valid(e.store)
    ensures e'.store == e.store
    ensures forall id :: id in Contents(e.store) ==> id < e'.publishCounter
    ensures e.publishCounter <= e'.publishCounter
  {
    e' := Start(Stop(e), e.publishCounter);
  }

  /** The first id issued after a stop and a start lies above every stored
      id, and so collides with no payload still stored. */
  method FirstIdAfterRestart(e: Engine) returns (id: PayloadId)
    requires Valid(e.store)
    ensures forall k :: k in Contents(e.store) ==> k < id
    ensures e.publishCounter <= id
  {
    var restarted := Restart(e);
    var issued := NextId(restarted);
    id := issued.0;
  }

  /** A payload written under id 123456789, then a stop and a fresh start
      over the same buckets: the counter ends above 123456789. */
  method RestartAboveHighestId(publishCounter: nat) returns (counterAfter: nat)
    ensures counterAfter > 123456789
  {
    var e := Start(Empty(8), publishCounter);
    e := e.(store := Put(e.store, 123456789, [1, 2, 3]));
    assert 123456789 in Contents(e.store);
    var restarted := Start(Stop(e), e.publishCounter);
    counterAfter := restarted.publishCounter;
  }
}
