/** tests/CachingTest.php, replayed against the model: one `products`
    table, the shipped configuration, a store with tags. */
module CachingScenarios {
  import opened Wrappers
  import opened Domain
  import opened CacheStore
  import opened CachingTrait
  import opened QueryCacheKeyGenerator
  import opened CachingBuilder
  import opened InvalidationObserver

  const Product: Model := Model("Product", "products", None, "testing", "testing", None, 15, None)

  /** `Product::all()` reads the name of the first product row. */
  function FirstProduct(rows: map<string, seq<Value>>, q: SqlQuery, op: ReadOp): Option<Value> {
    if "products" in rows && |rows["products"]| > 0 then Some(rows["products"][0]) else None
  }

  method NewProductBuilder(cache: Store, db: Database) returns (b: Builder)
    ensures fresh(b) && fresh(b.policy) && fresh(b.policy.config)
    ensures b.cache == cache && b.db == db && b.model == Product && b.eagerLoad == []
    ensures b.ShouldCache() && b.policy.GetCacheTtl() == 3600
    ensures b.StoredTags() == if cache.supportsTags then {"products"} else {}
  {
    TagsShape(Schema(map[]), Product, []);
    assert (set t | t in Tags(Schema(map[]), Product, [])) == {"products"};
    var config := new Config(DefaultSettings());
    var policy := new Caching(config, None);
    b := new Builder(policy, cache, db, Product, Schema(map[]), SqlQuery("select * from \"products\"", []), [],
                     c => "", pageName => 1);
  }

  /** it_caches_queries: the second `all()` runs no query. */
  method ItCachesQueries() returns (products: Option<Value>, products2: Option<Value>, queries: nat)
    ensures products == Some("Laptop") && products2 == products
    ensures queries == 0
  {
    var cache := new Store(true);
    var db := new Database(map["products" := ["Laptop"]], FirstProduct);
    var b := NewProductBuilder(cache, db);
    products := b.Get(["*"]);
    var before := db.executed;
    products2 := b.Get(["*"]);
    queries := db.executed - before;
  }

  /** it_invalidates_cache_on_update: after the update and its `updated`
      event, the next `all()` runs one query and sees the new name. */
  method ItInvalidatesCacheOnUpdate() returns (products: Option<Value>, queries: nat)
    ensures products == Some("Desktop") && queries == 1
  {
    var cache := new Store(true);
    var db := new Database(map["products" := ["Laptop"]], FirstProduct);
    var b := NewProductBuilder(cache, db);
    var cached := b.Get(["*"]);
    var observer := new CacheInvalidationObserver(cache, Schema(map[]));
    products, queries := UpdateThenRead(b, observer);
  }

  /** The second half of it_invalidates_cache_on_update: every cached read
      carries the `products` tag when the product is renamed. */
  method UpdateThenRead(b: Builder, observer: CacheInvalidationObserver) returns (products: Option<Value>, queries: nat)
    requires observer.cache == b.cache && b.cache.supportsTags && !b.cache.flushFails
    requires forall k :: k in b.cache.entries ==> "products" in b.cache.entries[k].tags
    requires b.ShouldCache() && b.db.run == FirstProduct
    modifies b.cache, b.db
    ensures products == Some("Desktop") && queries == 1
  {
    WithoutSharedTag(b.cache.entries, "products");
    b.db.Write("products", ["Desktop"]);
    observer.Updated(Product);
    assert b.cache.entries == map[];
    var before := b.db.executed;
    products := b.Get(["*"]);
    queries := b.db.executed - before;
  }

  /** it_can_bypass_cache: `withoutCache()->get()` runs one query even with
      the result cached, and leaves the cache as it was. */
  method ItCanBypassCache() returns (products: Option<Value>, queries: nat, cacheUntouched: bool)
    ensures products == Some("Laptop") && queries == 1 && cacheUntouched
  {
    var cache := new Store(true);
    var db := new Database(map["products" := ["Laptop"]], FirstProduct);
    var b := NewProductBuilder(cache, db);
    var cached := b.Get(["*"]);
    var entries := cache.entries;
    b.WithoutCache();
    var before := db.executed;
    products := b.Get(["*"]);
    queries := db.executed - before;
    cacheUntouched := cache.entries == entries;
  }
}
