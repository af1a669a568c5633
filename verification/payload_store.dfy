/** The local payload persistence: message payload bytes keyed by payload
    id, spread over a fixed number of buckets. An id always lives in bucket
    `id % bucketCount`. The flat map `Contents` is the store as callers see
    it; every operation is stated against it. */
module PayloadStore {
  import opened Wrappers
  import opened Primitives

  type PayloadId = nat
  type Payload = seq<byte>
  type Bucket = map<PayloadId, Payload>

  /** The buckets, in bucket-index order; their number is the configured
      bucket count. */
  datatype Store = Store(buckets: seq<Bucket>)

  /** The bucket an id is routed to. */
  function BucketIndex(id: PayloadId, bucketCount: nat): (i: nat)
    requires bucketCount > 0
    ensures i < bucketCount
  {
    id % bucketCount
  }

  /** At least one bucket, and every stored id sits in the bucket it routes
      to, so the buckets are disjoint. */
  ghost predicate Valid(s: Store) {
    && |s.buckets| > 0
    && forall i, id :: 0 <= i < |s.buckets| && id in s.buckets[i] ==> BucketIndex(id, |s.buckets|) == i
  }

  /** The bucket `id` lives in. */
  function Home(s: Store, id: PayloadId): Bucket
    requires |s.buckets| > 0
  {
    s.buckets[BucketIndex(id, |s.buckets|)]
  }

  /** Every id held by some bucket. */
  function StoredIds(s: Store): set<PayloadId> {
    set i, id | 0 <= i < |s.buckets| && id in s.buckets[i] :: id
  }

  /** The store as one flat map from payload id to payload bytes. */
  ghost function Contents(s: Store): map<PayloadId, Payload>
    requires |s.buckets| > 0
  {
    map id | id in StoredIds(s) && id in Home(s, id) :: Home(s, id)[id]
  }

  /** In a valid store, an id is stored exactly when its home bucket holds
      it. */
  lemma ContentsLookup(s: Store, id: PayloadId)
    requires Valid(s)
    ensures id in Contents(s) <==> id in Home(s, id)
    ensures id in Contents(s) ==> Contents(s)[id] == Home(s, id)[id]
  {
  }

  /** A fresh store with `bucketCount` empty buckets. */
  function Empty(bucketCount: nat): (s: Store)
    requires bucketCount > 0
    ensures Valid(s)
    ensures |s.buckets| == bucketCount
    ensures Contents(s) == map[]
  {
    Store(seq(bucketCount, _ => map[]))
  }

  /** Stores `payload` under `id`, replacing any earlier payload. */
  function Put(s: Store, id: PayloadId, payload: Payload): (r: Store)
    requires Valid(s)
    ensures Valid(r)
    ensures |r.buckets| == |s.buckets|
    ensures Contents(r) == Contents(s)[id := payload]
  {
    var i := BucketIndex(id, |s.buckets|);
    var bucket: Bucket := s.buckets[i][id := payload];
    var r := Store(s.buckets[i := bucket]);
    ReplaceHomeBucket(s, id, bucket, r);
    r
  }

  /** Replacing the home bucket of `id` by one that agrees with it except
      at `id` keeps the routing invariant, and changes the contents at
      `id` only. */
  lemma ReplaceHomeBucket(s: Store, id: PayloadId, bucket: Bucket, r: Store)
    requires Valid(s)
    requires bucket.Keys <= Home(s, id).Keys + {id}
    requires forall other :: other != id ==> (other in bucket <==> other in Home(s, id))
    requires forall other :: other != id && other in bucket ==> bucket[other] == Home(s, id)[other]
    requires r == Store(s.buckets[BucketIndex(id, |s.buckets|) := bucket])
    ensures Valid(r)
    ensures forall other :: other != id ==> (other in Contents(r) <==> other in Contents(s))
    ensures forall other :: other != id && other in Contents(r) ==> Contents(r)[other] == Contents(s)[other]
    ensures id in Contents(r) <==> id in bucket
    ensures id in bucket ==> Contents(r)[id] == bucket[id]
  {
    var n := |s.buckets|;
    forall j, other | 0 <= j < n && other in r.buckets[j]
      ensures BucketIndex(other, n) == j
    {
      if j == BucketIndex(id, n) && other == id {
      } else {
        assert other in s.buckets[j];
      }
    }
    forall other | other != id
      ensures other in Contents(r) <==> other in Contents(s)
      ensures other in Contents(r) ==> Contents(r)[other] == Contents(s)[other]
    {
      ContentsLookup(s, other);
      ContentsLookup(r, other);
    }
    ContentsLookup(r, id);
  }

  /** The payload stored under `id`, or `None` when there is none (never
      written or removed, which look the same). */
  function Get(s: Store, id: PayloadId): (r: Option<Payload>)
    requires Valid(s)
    ensures r.Some? <==> id in Contents(s)
    ensures r.Some? ==> r.value == Contents(s)[id]
  {
    ContentsLookup(s, id);
    var bucket := Home(s, id);
    if id in bucket then Some(bucket[id]) else None
  }

  /** Deletes the payload stored under `id`; a missing id is left alone. */
  function Remove(s: Store, id: PayloadId): (r: Store)
    requires Valid(s)
    ensures Valid(r)
    ensures |r.buckets| == |s.buckets|
    ensures Contents(r) == Contents(s) - {id}
  {
    var i := BucketIndex(id, |s.buckets|);
    var bucket: Bucket := s.buckets[i] - {id};
    var r := Store(s.buckets[i := bucket]);
    ReplaceHomeBucket(s, id, bucket, r);
    r
  }

  /** Lists every stored id, bucket by bucket. */
  method GetAllIds(s: Store) returns (ids: set<PayloadId>)
    requires Valid(s)
    ensures ids == Contents(s).Keys
  {
    ids := {};
    for i := 0 to |s.buckets|
      invariant ids == set j, id | 0 <= j < i && id in s.buckets[j] :: id
    {
      ids := ids + s.buckets[i].Keys;
    }
    forall id | id in ids ensures id in Contents(s) {
      ContentsLookup(s, id);
    }
    forall id | id in Contents(s) ensures id in ids {
      ContentsLookup(s, id);
    }
  }
}
