/** The cache backend the package talks to, reduced to what it relies on:
    a map from key to entry, whether the backend supports tags, and whether
    its flush operations fail. Expiry is recorded, not enforced. */
module CacheStore {
  import opened Wrappers
  import opened Domain

  /** A stored value; None is a stored null, which every read treats as a miss. */
  datatype Entry = Entry(value: Option<Value>, tags: set<string>, ttl: int)

  /** `get($key)` returns a non-null value. */
  predicate Hit(entries: map<string, Entry>, key: string) {
    key in entries && entries[key].value.Some?
  }

  /** The entries after `put($key, $value, $ttl)`: a positive TTL stores the
      value, any other TTL forgets the key. */
  function Stored(entries: map<string, Entry>, key: string, value: Option<Value>, tags: set<string>, ttl: int)
    : (r: map<string, Entry>)
    ensures ttl > 0 ==> key in r && r[key] == Entry(value, tags, ttl)
    ensures ttl <= 0 ==> key !in r
    ensures forall k :: k != key ==> (k in r <==> k in entries) && (k in r ==> r[k] == entries[k])
  {
    if ttl > 0 then entries[key := Entry(value, tags, ttl)] else entries - {key}
  }

  /** The entries left after flushing `flushed`: exactly those that carry
      none of the flushed tags, unchanged. */
  function WithoutTags(entries: map<string, Entry>, flushed: set<string>): (r: map<string, Entry>)
    ensures forall k :: k in r <==> k in entries && entries[k].tags !! flushed
    ensures forall k :: k in r ==> r[k] == entries[k]
  {
    map k | k in entries && entries[k].tags !! flushed :: entries[k]
  }

  /** Flushing a tag that every entry carries empties the store. */
  lemma WithoutSharedTag(entries: map<string, Entry>, tag: string)
    requires forall k :: k in entries ==> tag in entries[k].tags
    ensures WithoutTags(entries, {tag}) == map[]
  {
    assert forall k :: k !in WithoutTags(entries, {tag});
  }

  class Store {
    var entries: map<string, Entry>
    /** `method_exists($store, 'tags') || $store instanceof TaggableStore` */
    var supportsTags: bool
    /** The backend raises on flush (unreachable server, driver without flush). */
    var flushFails: bool

    constructor (supportsTags: bool)
      ensures entries == map[] && this.supportsTags == supportsTags && !flushFails
    {
      entries := map[];
      this.supportsTags := supportsTags;
      flushFails := false;
    }

    /** `put` (through `tags($tags)` on a taggable store). */
    method Put(key: string, value: Option<Value>, tags: set<string>, ttl: int)
      modifies this`entries
      ensures entries == Stored(old(entries), key, value, tags, ttl)
    {
      entries := Stored(entries, key, value, tags, ttl);
    }

    /** `tags($tags)->flush()`: drop every entry carrying one of the tags.
        `tags()` raises on a store without tag support. */
    method FlushTags(tags: seq<string>) returns (raised: bool)
      modifies this`entries
      ensures raised == (flushFails || !supportsTags)
      ensures entries == if raised then old(entries) else WithoutTags(old(entries), set t | t in tags)
    {
      raised := flushFails || !supportsTags;
      if !raised {
        entries := WithoutTags(entries, set t | t in tags);
      }
    }

    /** `flush()`: drop everything. */
    method Flush() returns (raised: bool)
      modifies this`entries
      ensures raised == flushFails
      ensures entries == if raised then old(entries) else map[]
    {
      raised := flushFails;
      if !raised {
        entries := map[];
      }
    }

    /** The application reconfigures the backend at run time. */
    method Reconfigure(supportsTags: bool, flushFails: bool)
      modifies this`supportsTags, this`flushFails
      ensures this.supportsTags == supportsTags && this.flushFails == flushFails
    {
      this.supportsTags := supportsTags;
      this.flushFails := flushFails;
    }
  }
}
