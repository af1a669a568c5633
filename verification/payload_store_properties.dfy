/** What callers of the payload store rely on: reads return what was last
    written, removal hides an id and nothing else, and listing reports
    exactly the live ids. */
module PayloadStoreProperties {
  import opened Wrappers
  import opened PayloadStore

  /** A payload reads back byte for byte, whatever its length. */
  lemma PutThenGet(s: Store, id: PayloadId, payload: Payload)
    requires Valid(s)
    ensures Get(Put(s, id, payload), id) == Some(payload)
  {
  }

  /** A removed payload reads as absent. */
  lemma PutRemoveThenGet(s: Store, id: PayloadId, payload: Payload)
    requires Valid(s)
    ensures Get(Remove(Put(s, id, payload), id), id) == None
  {
  }

  /** Writing or removing one id leaves every other id as it was, whether
      or not the two share a bucket. */
  lemma OtherIdsUnaffected(s: Store, id: PayloadId, other: PayloadId, payload: Payload)
    requires Valid(s)
    requires other != id
    ensures Get(Put(s, id, payload), other) == Get(s, other)
    ensures Get(Remove(s, id), other) == Get(s, other)
  {
  }

  /** Removing an id that holds no payload changes nothing at all, down to
      the bucket layout. */
  lemma RemoveAbsentIsNoOp(s: Store, id: PayloadId)
    requires Valid(s)
    requires Get(s, id) == None
    ensures Remove(s, id) == s
  {
    ContentsLookup(s, id);
    var i := BucketIndex(id, |s.buckets|);
    assert s.buckets[i] - {id} == s.buckets[i];
    assert s.buckets[i := s.buckets[i]] == s.buckets;
  }

  /** Two payloads written under two ids both read back (the small and the
      large-payload round trips of the store's tests). */
  lemma TwoPayloadsReadBack(bucketCount: nat, payload1: Payload, payload2: Payload)
    requires bucketCount > 0
    ensures var s := Put(Put(Empty(bucketCount), 0, payload1), 1, payload2);
            Get(s, 0) == Some(payload1) && Get(s, 1) == Some(payload2)
  {
  }

  /** Writing ids 0 and 1, then removing 1, leaves 0 readable and 1 absent. */
  lemma RemoveSecondOfTwo(bucketCount: nat, payload1: Payload, payload2: Payload)
    requires bucketCount > 0
    ensures var s := Remove(Put(Put(Empty(bucketCount), 0, payload1), 1, payload2), 1);
            Get(s, 0) == Some(payload1) && Get(s, 1) == None
  {
  }

  /** Writing ids 0, 1 and 2 and removing 1 lists exactly ids 0 and 2. */
  method ListAfterRemoval(payload: Payload) returns (ids: set<PayloadId>)
    ensures ids == {0, 2}
    ensures |ids| == 2 && 1 !in ids
  {
    var s0 := Empty(8);
    var s1 := Put(s0, 0, payload);
    assert Contents(s1).Keys == {0};
    var s2 := Put(s1, 1, payload);
    assert Contents(s2).Keys == {0, 1};
    var s3 := Put(s2, 2, payload);
    assert Contents(s3).Keys == {0, 1, 2};
    var s4 := Remove(s3, 1);
    assert Contents(s4).Keys == {0, 1, 2} - {1};
    ids := GetAllIds(s4);
  }
}
