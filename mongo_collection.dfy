/** A MongoDB collection with a unique index on the natural key, as the
    stores use it: a map from that key to the stored document. A document
    carries the driver's `_id` beside the fields the app wrote; the stores
    strip `_id` before returning a record.

    The driver calls become map operations: `replaceOne(filter, doc,
    {upsert: true})` is an update that keeps an existing `_id`, `findOne` a
    lookup, `deleteOne` a removal, `find(filter).toArray()` a traversal. */
module MongoCollection {
  import opened Wrappers

  datatype Doc<T> = Doc(id: nat, body: T)

  /** What one driver call does: completes, or rejects with an error whose
      text is `reason`. The network and the server are oracles. */
  datatype Io = Done | Broken(reason: string)

  /** `replaceOne({key}, body, { upsert: true })`; `freshId` is the `_id` the
      driver assigns when it inserts. */
  function ReplaceOneUpsert<K, T>(coll: map<K, Doc<T>>, key: K, body: T, freshId: nat): (r: map<K, Doc<T>>)
    ensures r.Keys == coll.Keys + {key}
    ensures r[key].body == body
    ensures r[key].id == if key in coll then coll[key].id else freshId
    ensures forall k :: k in coll && k != key ==> r[k] == coll[k]
  {
    coll[key := Doc(if key in coll then coll[key].id else freshId, body)]
  }

  /** `findOne({key})` followed by `const { _id, ...rest } = result`. */
  function FindOne<K, T>(coll: map<K, Doc<T>>, key: K): (r: Option<T>)
    ensures r.Some? <==> key in coll
    ensures r.Some? ==> r.value == coll[key].body
  {
    if key in coll then Some(coll[key].body) else None
  }

  /** `deleteOne({key})`; the match count is never inspected. */
  function DeleteOne<K, T>(coll: map<K, Doc<T>>, key: K): (r: map<K, Doc<T>>)
    ensures r.Keys == coll.Keys - {key}
    ensures forall k :: k in r ==> r[k] == coll[k]
  {
    coll - {key}
  }

  /** Upsert then lookup of the same key gives back what was written. */
  lemma FindAfterUpsert<K, T>(coll: map<K, Doc<T>>, key: K, body: T, freshId: nat, other: K)
    ensures FindOne(ReplaceOneUpsert(coll, key, body, freshId), key) == Some(body)
    ensures other != key ==> FindOne(ReplaceOneUpsert(coll, key, body, freshId), other) == FindOne(coll, other)
  {
  }

  /** Upserting the same key twice leaves one document, holding the latest
      body, under the `_id` of the first write. */
  lemma UpsertTwiceKeepsOne<K, T>(coll: map<K, Doc<T>>, key: K, first: T, second: T, id1: nat, id2: nat)
    ensures var once := ReplaceOneUpsert(coll, key, first, id1);
      var twice := ReplaceOneUpsert(once, key, second, id2);
      && twice.Keys == once.Keys
      && twice[key] == Doc(once[key].id, second)
  {
  }

  /** `find({}).toArray()` with `_id` stripped from every document: one
      record per stored document, in the order the cursor yields them. */
  method ToArray<K, T>(coll: map<K, Doc<T>>) returns (bodies: seq<T>)
    ensures |bodies| == |coll|
    ensures forall k :: k in coll ==> coll[k].body in bodies
    ensures forall i :: 0 <= i < |bodies| ==> exists k :: k in coll && coll[k].body == bodies[i]
  {
    var remaining := coll.Keys;
    ghost var visited: set<K> := {};
    bodies := [];
    while remaining != {}
      invariant remaining !! visited && remaining + visited == coll.Keys
      invariant |bodies| == |visited|
      invariant forall k :: k in visited ==> coll[k].body in bodies
      invariant forall i :: 0 <= i < |bodies| ==> exists k :: k in visited && coll[k].body == bodies[i]
      decreases |remaining|
    {
      var k :| k in remaining;
      bodies := bodies + [coll[k].body];
      remaining := remaining - {k};
      visited := visited + {k};
    }
    assert visited == coll.Keys;
  }

  /** No key occurs twice. */
  predicate Distinct<K(==)>(keys: seq<K>)
  {
    forall i, j :: 0 <= i < j < |keys| ==> keys[i] != keys[j]
  }

  /** Dropping the last key of a distinct list keeps it distinct, and the
      last key is not among the others. */
  lemma DistinctInit<K>(keys: seq<K>)
    requires |keys| > 0 && Distinct(keys)
    ensures Distinct(keys[..|keys| - 1])
    ensures keys[|keys| - 1] !in keys[..|keys| - 1]
    ensures forall k :: k in keys <==> k in keys[..|keys| - 1] || k == keys[|keys| - 1]
  {
    var init := keys[..|keys| - 1];
    assert keys == init + [keys[|keys| - 1]];
    forall i | 0 <= i < |init| ensures init[i] != keys[|keys| - 1] {
      assert init[i] == keys[i];
    }
  }

  /** `find(filter).toArray()`, as the keys of the matching documents: each
      matching document once, in the order the cursor yields them. */
  method Find<K, V>(coll: map<K, V>, matches: K -> bool) returns (keys: seq<K>)
    ensures Distinct(keys)
    ensures forall k :: k in keys <==> k in coll && matches(k)
  {
    var remaining := coll.Keys;
    keys := [];
    while remaining != {}
      invariant remaining <= coll.Keys
      invariant Distinct(keys)
      invariant forall k :: k in keys ==> k !in remaining
      invariant forall k :: k in keys <==> k in coll && k !in remaining && matches(k)
      decreases |remaining|
    {
      var k :| k in remaining;
      if matches(k) {
        keys := keys + [k];
      }
      remaining := remaining - {k};
    }
  }
}
