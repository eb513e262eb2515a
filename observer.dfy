/** src/Observers/CacheInvalidationObserver.php: the model observer that
    flushes cached reads when a model is written. */
module InvalidationObserver {
  import opened Domain
  import opened CacheStore
  import opened QueryCacheKeyGenerator

  class CacheInvalidationObserver {
    /** The injected cache repository. */
    const cache: Store
    const schema: Schema

    constructor (cache: Store, schema: Schema)
      ensures this.cache == cache && this.schema == schema
    {
      this.cache := cache;
      this.schema := schema;
    }

    /** What one invalidation of `m` leaves in the store: on a store with
        tags, every entry tagged with the model's table is gone and the rest
        stay; on a store without tags, nothing stays; a flush that raises
        leaves the store as it was. */
    twostate predicate Invalidated(m: Model)
      reads this, cache
    {
      if cache.flushFails then cache.entries == old(cache.entries)
      else if cache.supportsTags then cache.entries == WithoutTags(old(cache.entries), {m.table})
      else cache.entries == map[]
    }

    /** `invalidate`: the tags of the model with no eager loads, a tag
        support probe at call time, and a flush whose exception is
        swallowed. */
    method Invalidate(m: Model)
      modifies cache`entries
      ensures Invalidated(m)
    {
      var tags := MakeTags(schema, m, []);
      TagsShape(schema, m, []);
      assert (set t | t in tags) == {m.table};
      var supportsTags := cache.supportsTags;
      if supportsTags {
        var raised := cache.FlushTags(tags);
      } else {
        var raised := cache.Flush();
      }
    }

    method Created(m: Model)
      modifies cache`entries
      ensures Invalidated(m)
    {
      Invalidate(m);
    }

    method Updated(m: Model)
      modifies cache`entries
      ensures Invalidated(m)
    {
      Invalidate(m);
    }

    method Deleted(m: Model)
      modifies cache`entries
      ensures Invalidated(m)
    {
      Invalidate(m);
    }

    method Restored(m: Model)
      modifies cache`entries
      ensures Invalidated(m)
    {
      Invalidate(m);
    }
  }

  /** A tagged flush for a written model evicts every read stored with the
      tags of a query that depends on the model's table: a query on the
      model itself, or one that eager-loads a relation resolving to it. */
  lemma InvalidationEvictsDependentReads(entries: map<string, Entry>, key: string, schema: Schema,
                                         m: Model, eagerLoad: EagerLoad, written: Model)
    requires key in entries
    requires entries[key].tags == set t | t in Tags(schema, m, eagerLoad)
    requires written.table == m.table
             || exists i :: 0 <= i < |eagerLoad| && ResolvesTo(schema, m, eagerLoad, i, written.table)
    ensures key !in WithoutTags(entries, {written.table})
  {
    TagsMembers(schema, m, eagerLoad, written.table);
    assert written.table in entries[key].tags;
  }

  /** A read whose query neither targets the written model's table nor
      eager-loads a relation resolving to it survives the tagged flush. */
  lemma InvalidationKeepsIndependentReads(entries: map<string, Entry>, key: string, schema: Schema,
                                          m: Model, eagerLoad: EagerLoad, written: Model)
    requires key in entries
    requires entries[key].tags == set t | t in Tags(schema, m, eagerLoad)
    requires written.table != m.table
    requires forall i :: 0 <= i < |eagerLoad| ==> !ResolvesTo(schema, m, eagerLoad, i, written.table)
    ensures key in WithoutTags(entries, {written.table})
    ensures WithoutTags(entries, {written.table})[key] == entries[key]
  {
    TagsMembers(schema, m, eagerLoad, written.table);
    assert written.table !in entries[key].tags;
  }
}
