# model-caching, modelled in Dafny

`model-caching` is a read-through query cache for Laravel's Eloquent ORM. A
caching query builder intercepts the eight read methods (`get`, `first`,
`find`, `findMany`, `paginate`, `simplePaginate`, `count`, `exists`). It
derives a cache key from the model, the SQL, the bindings, the columns and
the normalised eager-load array. It answers from the cache when the key holds
a value and otherwise runs the query and stores the result, tagged with the
tables the query depends on. A model observer flushes those tags when a
model is created, updated, deleted or restored. An administrative class
runs closures with caching switched off and clears cached reads. An older
tag builder (`CacheTags` with the `CachePrefixing` trait) names tags after
model classes under a memoised prefix.

The project has these modules:

| file | module | models |
|---|---|---|
| wrappers.dfy | `Wrappers` | `Option` and `Result` |
| strings.dfy | `Strings` | PHP truthiness of strings, `implode`/`explode`, integer interpolation, byte-wise string order |
| php_arrays.dfy | `PhpArrays` | `ksort` on string keys, `array_unique` |
| domain.dfy | `Domain` | model instances, relationship methods, eager-load constraints, the `model-caching` configuration |
| key_generator.dfy | `QueryCacheKeyGenerator` | `src/Cache/QueryCacheKeyGenerator.php` |
| cache_store.dfy | `CacheStore` | the cache backend: key → (value, tags, TTL), tag support, failing flushes |
| caching_trait.dfy | `CachingTrait` | `src/Traits/Caching.php` |
| caching_builder.dfy | `CachingBuilder` | `src/Builders/CachingBuilder.php`, with the database it reads |
| observer.dfy | `InvalidationObserver` | `src/Observers/CacheInvalidationObserver.php` |
| model_caching.dfy | `ModelCaching` | `src/ModelCaching.php` |
| cache_prefixing.dfy | `CachePrefixing` | `src/Traits/CachePrefixing.php` |
| cache_tags.dfy | `CacheTags` | `src/CacheTags.php` |
| caching_scenarios.dfy | `CachingScenarios` | the three tests of `tests/CachingTest.php` |

Code that mutates state is modelled imperatively:
- The builder, the trait's policy state, the store, the observer, the
  administrative class and the tag builder are classes. Their methods
  state their new state in `ensures`.
- `normalizeEagerLoad`, `makeTags` and `CacheTags::make` are methods with
  loops. Each is proved equal to a function, and the properties the code
  promises are lemmas about those functions.

`sha1(serialize(...))` and `Str::slug` are function parameters. Lemmas about
the layout of a key ask for `DigestShape`: forty lower-case hex digits.
Lemmas that tell two keys apart ask for `NoCollision` of the two component
tuples they compare, never for a hash that is injective everywhere, since
no forty-digit hash can be. `SeparatingDigestMeetsHypotheses` shows that
both hypotheses can be met together. Lemmas that need a collision-free slug over
`[a-z0-9-]` ask for `SlugLike`.

A configuration key is `None` when it is absent. The defaults of
`config/model-caching.php` are `DefaultSettings()`: prefix `model-cache`,
enabled, database keying on, no store, and a duration of 3600 seconds.

Behaviour the model keeps as the code has it:
- `enableCache` on the builder clears `avoidCache`, so it undoes an earlier
  `withoutCache`.
- `count` keys on `['*']` whatever column it counts.
- The paginators' keys omit `pageName` and `total`.
- A stored null result is read back as a miss, so the query runs again.
- A `put` with a TTL of zero or less forgets the key.
- When `use-database-keying` is absent, the key generator defaults it to on,
  while `CachePrefixing` defaults it to off.

## Model

| member | source | states |
|---|---|---|
| QueryCacheKeyGenerator.NormalizeConstraint | src/Cache/QueryCacheKeyGenerator.php:59-65 | a callable constraint becomes null; any other constraint is kept unchanged |
| QueryCacheKeyGenerator.NormalizeEagerLoad | src/Cache/QueryCacheKeyGenerator.php:51-69 | the loop after `ksort` computes exactly `Normalized`: the array sorted by key, each callable constraint replaced by null |
| QueryCacheKeyGenerator.NormalizedEntries | src/Cache/QueryCacheKeyGenerator.php:54-68 | normalisation keeps exactly the set of relation names; every entry survives with its constraint normalised, and every output entry comes from an input entry |
| QueryCacheKeyGenerator.NormalizedOrderInsensitive | src/Cache/QueryCacheKeyGenerator.php:53-54 | two eager-load arrays with the same entries in any insertion order normalise to the same array, and that array is sorted by key |
| QueryCacheKeyGenerator.GetPrefix | src/Cache/QueryCacheKeyGenerator.php:96-112 | the base is the truthy model prefix, else the config prefix (default `model-cache`); with keying on (default on) the prefix is `base:connection:database`, otherwise the bare base |
| QueryCacheKeyGenerator.Make | src/Cache/QueryCacheKeyGenerator.php:13-25 | every key starts with the prefix followed by `:` |
| QueryCacheKeyGenerator.MakeEndsWithDigest | src/Cache/QueryCacheKeyGenerator.php:24 | with a hash of SHA-1's shape the key ends in the forty hex digits of the digest of the component tuple |
| QueryCacheKeyGenerator.SeparatingDigestMeetsHypotheses | src/Cache/QueryCacheKeyGenerator.php:24 | for any component tuple some hash of SHA-1's shape collides it with no other tuple, so the key lemmas' hypotheses can hold |
| QueryCacheKeyGenerator.MakeInjective | src/Cache/QueryCacheKeyGenerator.php:15-24 | when the two component tuples do not collide, changing the class, the connection name, the SQL, the bindings, the columns or the normalised eager load changes the key |
| QueryCacheKeyGenerator.MakeIgnoresEagerLoadOrder | src/Cache/QueryCacheKeyGenerator.php:13-25 | the key does not depend on the order in which relations were eager-loaded |
| QueryCacheKeyGenerator.MakeForgetsClosures | src/Cache/QueryCacheKeyGenerator.php:59-62 | eager loads with the same relations in the same order, whose constraints are pairwise equal or both callable, share a key |
| QueryCacheKeyGenerator.NormalizeThenSort | src/Cache/QueryCacheKeyGenerator.php:54-66 | when every constraint is callable, sorting then normalising equals normalising then sorting |
| QueryCacheKeyGenerator.NormalizeInsert | src/Cache/QueryCacheKeyGenerator.php:54-66 | inserting a callable entry in key order commutes with normalisation |
| QueryCacheKeyGenerator.ResolvePathAppend | src/Cache/QueryCacheKeyGenerator.php:74-82 | resolving a path one part after the other is resolving the whole path; a failure anywhere fails the whole |
| QueryCacheKeyGenerator.GetRelationDotted | src/Cache/QueryCacheKeyGenerator.php:74-94 | a dotted path `a.rest` resolves `rest` from the model relation `a` leads to, and fails when `a` fails |
| QueryCacheKeyGenerator.MakeTags | src/Cache/QueryCacheKeyGenerator.php:27-46 | the loop computes exactly `Tags`: the model's table, then each resolvable relation's table in key order, deduplicated |
| QueryCacheKeyGenerator.TagsShape | src/Cache/QueryCacheKeyGenerator.php:29-45 | the model's own table comes first, no tag repeats, and with no eager loads the tags are exactly `[table]` |
| QueryCacheKeyGenerator.ResolvedTablesMembers | src/Cache/QueryCacheKeyGenerator.php:33-43 | a table is collected from the eager loads exactly when some key's relation resolves to it |
| QueryCacheKeyGenerator.TagsMembers | src/Cache/QueryCacheKeyGenerator.php:27-46 | a table is a tag exactly when it is the model's own table or some eager-load key's relation resolves to it |
| QueryCacheKeyGenerator.ResolvedTablesConcat | src/Cache/QueryCacheKeyGenerator.php:33-43 | the collected tables of two eager-load arrays in sequence are the concatenation of each array's tables |
| QueryCacheKeyGenerator.FailedRelationSkipped | src/Cache/QueryCacheKeyGenerator.php:35-41 | a relation that throws is skipped without raising: the tags are those of the eager load without that key |
| PhpArrays.KSort | src/Cache/QueryCacheKeyGenerator.php:54 | `ksort` permutes the entries and keeps the key set |
| PhpArrays.KSortSorted | src/Cache/QueryCacheKeyGenerator.php:54 | `ksort` on distinct keys yields an array sorted by key |
| PhpArrays.KSortOrderInsensitive | src/Cache/QueryCacheKeyGenerator.php:54 | `ksort` of two arrays with the same distinct-key entries yields the same array |
| PhpArrays.Unique | src/Cache/QueryCacheKeyGenerator.php:45 | `array_unique` keeps exactly the same members without repeats, and the first element stays first |
| PhpArrays.UniqueKeepsFirstOccurrenceOrder | src/Cache/QueryCacheKeyGenerator.php:45 | `array_unique` keeps values in the order of their first occurrences |
| PhpArrays.UniqueOfNoDuplicates | src/Cache/QueryCacheKeyGenerator.php:45 | `array_unique` leaves an array without repeats unchanged |
| Strings.JoinSplit | src/Cache/QueryCacheKeyGenerator.php:76 | imploding the pieces of an `explode` with the same delimiter gives back the path |
| CacheStore.Stored | src/Builders/CachingBuilder.php:281-288 | `put` with a positive TTL stores the entry under the key and forgets the key otherwise; every other key is untouched |
| CacheStore.WithoutTags | src/Observers/CacheInvalidationObserver.php:53-59 | a tagged flush keeps exactly the entries that carry none of the flushed tags, unchanged |
| CacheStore.WithoutSharedTag | src/Observers/CacheInvalidationObserver.php:53-59 | flushing a tag that every entry carries empties the store |
| CacheStore.Store.FlushTags | src/Observers/CacheInvalidationObserver.php:53-59 | raises exactly when the store has no tags or the flush fails; otherwise only entries carrying a flushed tag are dropped |
| CacheStore.Store.Flush | src/Observers/CacheInvalidationObserver.php:61-65 | raises exactly when the flush fails; otherwise the store is empty |
| CachingTrait.Caching.constructor | src/Traits/Caching.php:13-15 | a new policy caches, with no TTL override and no cooldown |
| CachingTrait.Caching.GetCacheStore | src/Traits/Caching.php:35-42 | the host's truthy `cacheStore`, else the configured store |
| CachingTrait.Caching.IsCachingEnabled | src/Traits/Caching.php:47-54 | false whenever the global switch is off; otherwise the instance flag |
| CachingTrait.Caching.DisableCache | src/Traits/Caching.php:59-63 | clears `shouldCache` only, after which caching is off |
| CachingTrait.Caching.EnableCache | src/Traits/Caching.php:68-72 | sets `shouldCache` only, after which caching follows the global switch |
| CachingTrait.Caching.CacheFor | src/Traits/Caching.php:77-81 | sets the TTL override, which `getCacheTtl` then returns |
| CachingTrait.Caching.GetDefaultCacheCooldownSeconds | src/Traits/Caching.php:95-102 | the declared property exists, so the default is the current cooldown |
| CachingTrait.Caching.WithCacheCooldownSeconds | src/Traits/Caching.php:86-90 | a non-null argument becomes the cooldown; null leaves it as it was |
| CachingTrait.Caching.GetCacheTtlAsWritten | src/Traits/Caching.php:107-118 | the override when set; without one, the `property_exists` branch returns null from an `int` function, which fails |
| CachingTrait.Caching.GetCacheTtl | src/Traits/Caching.php:107-118 | the override when set, else the configured duration (3600 when absent) |
| CachingTrait.Caching.CacheSupportsTags | src/Traits/Caching.php:131-135 | whether the store supports tags, asked at call time |
| CachingTrait.DefaultTtlUnreachable | src/Traits/Caching.php:113-117 | under the shipped configuration and no override, the code as written fails where the configured 3600 was meant |
| CachingBuilder.ResolvePage | src/Builders/CachingBuilder.php:158 | a truthy page is kept, otherwise the request's current page is used (line 182 does the same for `simplePaginate`) |
| CachingBuilder.ResolvePerPage | src/Builders/CachingBuilder.php:159 | a truthy page size is kept, otherwise the model's per-page default is used (line 183 does the same for `simplePaginate`) |
| CachingBuilder.Resolve | src/Builders/CachingBuilder.php:152-195 | the paginators get their page and page size filled in and keep their other arguments; every other read is passed on unchanged |
| CachingBuilder.ResolveIdempotent | src/Builders/CachingBuilder.php:158-162 | filling in the paginator defaults a second time changes nothing |
| CachingBuilder.Rendered | src/Builders/CachingBuilder.php:138 | each id rendered as PHP interpolates it, in the given order |
| CachingBuilder.Suffix | src/Builders/CachingBuilder.php:75-228 | the suffix is falsy exactly for `get` |
| CachingBuilder.KeyColumns | src/Builders/CachingBuilder.php:207-228 | `count` and `exists` key on `['*']` whatever they count; the other reads key on their columns |
| CachingBuilder.GenerateCacheKey | src/Builders/CachingBuilder.php:254-263 | the key extends the generator's key, equals it exactly when the suffix is falsy, and otherwise continues with `:` and the suffix |
| CachingBuilder.KindOfSuffixCorrect | src/Builders/CachingBuilder.php:75-228 | the method can be read back off its suffix, so the eight methods' suffixes are pairwise distinct |
| CachingBuilder.RenderedInjective | src/Builders/CachingBuilder.php:138 | different id lists, including different orders of the same ids, render differently |
| CachingBuilder.SuffixInjective | src/Builders/CachingBuilder.php:117-186 | equal suffixes come from the same method with the same id, ids, or page and page size |
| CachingBuilder.ReadKeyShape | src/Builders/CachingBuilder.php:254-263 | a read's key is the prefix, `:`, the digest, and for every method but `get` a `:` and the suffix |
| CachingBuilder.ReadKeyInjective | src/Builders/CachingBuilder.php:254-263 | when their component tuples do not collide, two reads share a key only when they have the same method, the same key columns, and the same id, ids, or page and page size |
| CachingBuilder.KeyOfInjective | src/Builders/CachingBuilder.php:254-263 | the same for the keys the builder computes, after the paginator defaults are resolved |
| CachingBuilder.CountIgnoresColumn | src/Builders/CachingBuilder.php:200-216 | `count` of any two columns reads one cache entry |
| CachingBuilder.PaginateDefaultsShareKey | src/Builders/CachingBuilder.php:158-162 | omitting the page and page size or passing their defaults explicitly gives the same key, for `paginate` and likewise for `simplePaginate` (lines 182-186) |
| CachingBuilder.Database.Execute | src/Builders/CachingBuilder.php:79-81 | runs the query against the current rows and counts one execution |
| CachingBuilder.Builder.SetCacheRepository | src/Builders/CachingBuilder.php:22-26 | replaces the cache repository |
| CachingBuilder.Builder.ShouldCache | src/Builders/CachingBuilder.php:242-249 | caching happens exactly when it is not avoided and the policy is enabled, which needs the global switch on |
| CachingBuilder.Builder.DisableCache | src/Builders/CachingBuilder.php:40-45 | sets `avoidCache` and clears `shouldCache`, after which no read is cached |
| CachingBuilder.Builder.WithoutCache | src/Builders/CachingBuilder.php:50-53 | the same as `disableCache` |
| CachingBuilder.Builder.EnableCache | src/Builders/CachingBuilder.php:58-63 | clears `avoidCache` and sets `shouldCache`, after which caching equals the global switch |
| CachingBuilder.Builder.Remember | src/Builders/CachingBuilder.php:281-288 | on a hit, the stored value without running the query; on a miss, one query whose result is stored under the key with the tags (if the store has tags) and the TTL |
| CachingBuilder.Builder.Intercept | src/Builders/CachingBuilder.php:68-84 | `Served`: bypassed reads run once and leave the cache alone; hits run nothing; misses run the resolved read once and store it |
| CachingBuilder.Builder.Get | src/Builders/CachingBuilder.php:68-84 | `Served` for `get` |
| CachingBuilder.Builder.First | src/Builders/CachingBuilder.php:89-105 | `Served` for `first` |
| CachingBuilder.Builder.Find | src/Builders/CachingBuilder.php:110-126 | `Served` for `find` |
| CachingBuilder.Builder.FindMany | src/Builders/CachingBuilder.php:131-147 | `Served` for `findMany` |
| CachingBuilder.Builder.Paginate | src/Builders/CachingBuilder.php:152-171 | `Served` for `paginate`, whose cached path runs with the resolved page and page size |
| CachingBuilder.Builder.SimplePaginate | src/Builders/CachingBuilder.php:176-195 | `Served` for `simplePaginate`, likewise |
| CachingBuilder.Builder.Count | src/Builders/CachingBuilder.php:200-216 | `Served` for `count` |
| CachingBuilder.Builder.Exists | src/Builders/CachingBuilder.php:221-237 | `Served` for `exists` |
| InvalidationObserver.CacheInvalidationObserver.Invalidate | src/Observers/CacheInvalidationObserver.php:40-71 | with tags, only entries tagged with the model's table go; without tags, everything goes; a failing flush is swallowed and leaves the store as it was |
| InvalidationObserver.CacheInvalidationObserver.Created | src/Observers/CacheInvalidationObserver.php:20-23 | the same invalidation |
| InvalidationObserver.CacheInvalidationObserver.Updated | src/Observers/CacheInvalidationObserver.php:25-28 | the same invalidation |
| InvalidationObserver.CacheInvalidationObserver.Deleted | src/Observers/CacheInvalidationObserver.php:30-33 | the same invalidation |
| InvalidationObserver.CacheInvalidationObserver.Restored | src/Observers/CacheInvalidationObserver.php:35-38 | the same invalidation |
| InvalidationObserver.InvalidationEvictsDependentReads | src/Observers/CacheInvalidationObserver.php:42-45 | a read stored with the tags of a query on the written model's table, or one eager-loading a relation to it, is evicted |
| InvalidationObserver.InvalidationKeepsIndependentReads | src/Observers/CacheInvalidationObserver.php:53-59 | a read whose tags avoid the written model's table survives the tagged flush unchanged |
| ModelCaching.Disabled | src/ModelCaching.php:17 | the caller's configuration with caching off and every other key unchanged |
| ModelCaching.NestedBodiesSeeCachingOff | src/ModelCaching.php:13-26 | however deeply `runDisabled` calls nest, the innermost body runs with caching off, and its outcome is the outcome of the whole |
| ModelCaching.ModelCaching.Repository | src/ModelCaching.php:42-46 | a truthy store name selects that store and fails when it is not defined; otherwise the default store |
| ModelCaching.ModelCaching.RunDisabled | src/ModelCaching.php:13-26 | returns or raises exactly what the closure does under caching off, and afterwards the flag is its effective value from before the call |
| ModelCaching.ModelCaching.Invoke | src/ModelCaching.php:20 | the closure's outcome under the current configuration, which it leaves as it found it |
| ModelCaching.ModelCaching.ClearModel | src/ModelCaching.php:31-57 | false and no change for an unknown class; otherwise the model's table tag is flushed on a store with tags, everything on one without; an undefined store or a failing flush raises |
| ModelCaching.ModelCaching.ClearAll | src/ModelCaching.php:62-72 | empties the repository whatever its tag support; an undefined store or a failing flush raises |
| CachePrefixing.KeepTruthy | src/Traits/CachePrefixing.php:24 | `filter()` keeps exactly the truthy strings, in order |
| CachePrefixing.DatabasePrefix | src/Traits/CachePrefixing.php:31-43 | null exactly when keying is off (off when absent); `connection:database` when both are truthy; the truthy one alone when only one is; empty when neither is |
| CachePrefixing.JoinTerminated | src/Traits/CachePrefixing.php:24-27 | the `:`-join plus a trailing `:` is every part followed by `:` |
| CachePrefixing.PrefixShape | src/Traits/CachePrefixing.php:18-27 | the prefix is the root and every truthy segment each closed by `:`, so it starts with `nehal:model-caching`, ends with `:`, and has no empty segment |
| CachePrefixing.DefaultSegments | src/Traits/CachePrefixing.php:18-27 | under the shipped configuration with database keying on, the segments after the root are `connection:database` then `model-cache` |
| CachePrefixing.BarePrefix | src/Traits/CachePrefixing.php:18-27 | with keying off and no truthy config or model prefix, the prefix is just `nehal:model-caching:` |
| CachePrefixing.DatabaseKeyingDefaultsDiffer | src/Traits/CachePrefixing.php:33 | with the keying key absent, this trait adds no database segment while the key generator keys by database |
| CacheTags.RelatedClasses | src/CacheTags.php:36-39 | the related class of each eager-load key in key order, and none exactly when some relation throws |
| CacheTags.ClassTags | src/CacheTags.php:46-52 | one tag per class: the prefix followed by the class's slug |
| CacheTags.TagList | src/CacheTags.php:36-41 | the model's tag first, no repeats, and exactly the model's tag and the related classes' tags |
| CacheTags.ClassTagsDistinguish | src/CacheTags.php:51-56 | under one prefix and a collision-free slug, distinct classes get distinct tags |
| CacheTags.KeyText | src/CacheTags.php:80 | a null key interpolates as the empty string, and a key's text holds no `:` |
| CacheTags.ModelKeyInjective | src/CacheTags.php:78-81 | two instances share a cache key only when they have the same class and the same primary key |
| CacheTags.CacheTags.constructor | src/CacheTags.php:20-28 | a new tag builder has neither memo set |
| CacheTags.CacheTags.GetCachePrefix | src/Traits/CachePrefixing.php:12-29 | returns the memo when set; otherwise composes the prefix and memoises it |
| CacheTags.CacheTags.ClearCachePrefix | src/Traits/CachePrefixing.php:74-77 | drops the memo, so the next call recomputes |
| CacheTags.CacheTags.GetRelationTag | src/CacheTags.php:46-52 | the prefix and the related class's slug; a relation that throws leaves the prefix memo alone |
| CacheTags.CacheTags.GetModelTag | src/CacheTags.php:54-57 | the prefix and the model class's slug |
| CacheTags.CacheTags.Make | src/CacheTags.php:30-44 | the memo when set; otherwise `TagList` of the related classes, memoised; a relation that throws makes it raise and nothing is memoised |
| CacheTags.CacheTags.GetCacheTags | src/CacheTags.php:88-91 | the same as `make` |
| CacheTags.CacheTags.GetCacheKey | src/CacheTags.php:78-81 | the prefix, the class's slug, `:` and the primary key |
| CacheTags.CacheTags.GetCacheDuration | src/CacheTags.php:83-86 | the configured duration, 3600 when absent |
| CachingScenarios.ItCachesQueries | tests/CachingTest.php:25-42 | the second read returns the first read's `Laptop` and runs no query |
| CachingScenarios.ItInvalidatesCacheOnUpdate | tests/CachingTest.php:45-58 | after the update and its `updated` event, the next read runs one query and sees `Desktop` |
| CachingScenarios.UpdateThenRead | tests/CachingTest.php:50-57 | when every cached read carries the `products` tag, renaming the product and firing `updated` makes the next read run one query and see `Desktop` |
| CachingScenarios.ItCanBypassCache | tests/CachingTest.php:61-71 | `withoutCache()->get()` runs one query and leaves the cache untouched |

## Left out

- Hashing, serialisation and slugs: `sha1(serialize(...))` and `Str::slug` are parameters. Collision freedom is a hypothesis of the lemmas that need it.
- SQL generation and query execution: `toSql`/`getBindings` are an input value, and the parent reads are one function of the table rows. Results are serialised strings.
- `Paginator::resolveCurrentPage` is a function parameter. `getPerPage` is a model field.
- The key omits the paginators' `pageName` and `total`, as the code does; nothing beyond that is claimed about them.
- Cache backend internals: TTLs are recorded but nothing expires, and Laravel's tag namespaces are not modelled. A tagged lookup reads the same map as an untagged one. A failing flush is modelled as removing nothing; a tagged flush that fails part-way, leaving some subset of the entries, is not modelled.
- Concurrent misses and races on the backend.
- `config()`, `Container::getInstance()` and `app()` service location: the configuration is one shared `Config` object, and the stores are a map of named stores.
- `getCacheRepository` and `getCacheKeyGenerator` (src/Traits/Caching.php:20-30, 123-126) are container lookups. The builder receives its store, and the one generator implementation is called directly.
- `setKeyGenerator` (src/Builders/CachingBuilder.php:31-35): there is a single generator implementation, so swapping it is not modelled.
- `getEagerLoads` (src/Builders/CachingBuilder.php:268-276): the builder's eager-load array is a field. The `property_exists` check always holds for a builder.
- CachingBuilder.Builder.Intercept: the TTL comes from the corrected `CachingTrait.Caching.GetCacheTtl` (see Findings). As written, every cached path calls `getCacheTtl()` (src/Builders/CachingBuilder.php:77, 98, 119, 140, 164, 188, 209, 230), which raises a `TypeError` when `cacheFor` was never called, on a hit as well as a miss. The rows of `Intercept` and of the eight reads describe the corrected program.
- CachingBuilder.Builder.Get: as for `Intercept`, the corrected program; as written, a read without `cacheFor` raises. The same holds for `First`, `Find`, `FindMany`, `Paginate`, `SimplePaginate`, `Count` and `Exists`.
- CachingScenarios.ItCachesQueries: replays the test against the corrected program. As written, the first `Product::all()` raises the `getCacheTtl` TypeError, and so does the first cached read in `ItInvalidatesCacheOnUpdate`, `UpdateThenRead` and `ItCanBypassCache`.
- Fluent `return $this` is not modelled: the setters return nothing.
- `find` and `findMany` take integer ids. String primary keys, an array passed to `find`, `(array)` of a scalar, and an `Arrayable` such as a Collection passed to `findMany` (whose `(array)` cast gives the object's properties, not its items) are not modelled.
- `ksort` orders keys byte-wise. PHP's ordering of numeric-string keys is not modelled.
- `array_unique` leaves gaps in the indexes. The model re-indexes.
- QueryCacheKeyGenerator.GetPrefix: a `cache-prefix` explicitly set to null is read as the empty string. With database keying off and no truthy model prefix, the code then returns null from a `string` function (src/Cache/QueryCacheKeyGenerator.php:98-111), a `TypeError` that makes key generation raise; that error path is not modelled.
- QueryCacheKeyGenerator.MakeTags: a relationship lookup either yields a related model or throws an `Exception`, which is skipped. A relationship method that returns something other than a relation is not modelled: the code then raises a `TypeError`, which `catch (\Exception $e)` does not catch, so `makeTags` raises where nothing in the model does.
- CachingBuilder.Builder.First: Laravel's parent `first`, `find`, `findMany`, `paginate` and `simplePaginate` call back into the overridden cached `get`, so a miss also writes an entry under the inner `get` key. The model runs each parent read as one opaque step and stores only the outer entry.
- The observer flushes the repository it was given, and that is the repository modelled. Which store the container injects is not modelled.
- `CacheTags` receives a query builder it never reads, so that argument is left out.
- ModelCaching.ModelCaching.RunDisabled: closures are modelled as functions of the configuration they see, or as nested `runDisabled` calls. Their other side effects are not modelled.
- ModelCaching.ModelCaching.RunDisabled: an absent `enabled` key is restored as `Some(true)`, its effective value, rather than left absent. Every reader treats the two alike.
- ModelCaching.ModelCaching.ClearModel: the boolean a successful `flush()` returns is modelled as `true`.
- ModelCaching.ModelCaching.ClearAll: the boolean a successful `flush()` returns is modelled as `true`.
- Pivot events (src/Traits/PivotEventTrait.php, src/Traits/FiresPivotEventsTrait.php, src/Relations) go through framework internals and are not part of this model.
- The service providers, the facade, the console command, `src/Helper.php` and the wiring traits `CachesQueries`, `Cachable` and `CachedModel` are not part of this model.
- `getDatabaseName`, `getConnectionName` and `slugify` (src/Traits/CachePrefixing.php:59-72) are model fields and the slug parameter.

## Findings

| source | as written | input that shows it | evidently intended | confidence | as-written member | corrected member |
|---|---|---|---|---|---|---|
| src/Traits/Caching.php:113-114 | `getCacheTtl` returns `$this->cacheTtl` whenever the property exists. The trait declares it (line 15), so with no `cacheFor` call, null is returned from a function declared `: int`. PHP raises a TypeError, and the configured duration at line 117 is never reached. | any cached read on a builder whose `cacheFor` was never called, under the shipped configuration | with no override, the configured `cache_duration` (3600 by default) | not executed | CachingTrait.Caching.GetCacheTtlAsWritten, shown by CachingTrait.DefaultTtlUnreachable | CachingTrait.Caching.GetCacheTtl |
