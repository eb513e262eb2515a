/** src/ModelCaching.php: the administrative entry points — running a
    closure with caching switched off, and clearing cached reads. */
module ModelCaching {
  import opened Wrappers
  import opened Strings
  import opened Domain
  import opened CacheStore
  import opened QueryCacheKeyGenerator

  /** How a call ends: with a value, or by raising. */
  datatype Outcome<T> = Returned(value: T) | Threw(error: string)

  /** A closure handed to `runDisabled`: one that computes its outcome from
      the configuration it sees, or one that itself calls `runDisabled`. */
  datatype Closure<T> = Body(f: Settings -> Outcome<T>) | Nested(inner: Closure<T>)

  /** The configuration a closure runs under: the caller's, with caching off. */
  function Disabled(s: Settings): (r: Settings)
    ensures !CachingEnabled(r)
    ensures r.cachePrefix == s.cachePrefix && r.useDatabaseKeying == s.useDatabaseKeying
    ensures r.store == s.store && r.cacheDuration == s.cacheDuration
  {
    s.(enabled := Some(false))
  }

  /** What running a closure under settings `s` yields. */
  function Denote<T>(c: Closure<T>, s: Settings): Outcome<T> {
    match c
    case Body(f) => f(s)
    case Nested(inner) => Denote(inner, Disabled(s))
  }

  /** The body at the bottom of a chain of nested calls. */
  function Innermost<T>(c: Closure<T>): Settings -> Outcome<T> {
    match c
    case Body(f) => f
    case Nested(inner) => Innermost(inner)
  }

  /** However deeply `runDisabled` calls nest, the innermost body runs with
      the caller's configuration with caching off, and its outcome is the
      outcome of the whole. */
  lemma {:induction false} NestedBodiesSeeCachingOff<T>(c: Closure<T>, s: Settings)
    ensures Denote(c, Disabled(s)) == Innermost(c)(Disabled(s))
  {
    match c
    case Body(f) =>
    case Nested(inner) =>
      assert Disabled(Disabled(s)) == Disabled(s);
      NestedBodiesSeeCachingOff(inner, s);
  }

  class ModelCaching {
    /** The process-wide configuration `config()` reads and writes. */
    const config: Config
    /** The container's `cache` manager: its default store and its named stores. */
    const defaultStore: Store
    const stores: map<string, Store>
    /** The model classes that exist, with the instance `new $modelClass` builds. */
    const classes: map<string, Model>
    const schema: Schema

    constructor (config: Config, defaultStore: Store, stores: map<string, Store>,
                 classes: map<string, Model>, schema: Schema)
      ensures this.config == config && this.defaultStore == defaultStore && this.stores == stores
      ensures this.classes == classes && this.schema == schema
    {
      this.config := config;
      this.defaultStore := defaultStore;
      this.stores := stores;
      this.classes := classes;
      this.schema := schema;
    }

    /** The repository the clears act on: `$cache->store($store)` when the
        configured store name is truthy (an undefined name raises), else the
        default store. */
    function Repository(): (r: Option<Store>)
      reads this, config
      ensures config.settings.store.Some? && Truthy(config.settings.store.value) ==>
        (r.Some? <==> config.settings.store.value in stores)
        && (r.Some? ==> r.value == stores[config.settings.store.value])
      ensures !(config.settings.store.Some? && Truthy(config.settings.store.value)) ==> r == Some(defaultStore)
    {
      var name := config.settings.store;
      if name.Some? && Truthy(name.value) then
        if name.value in stores then Some(stores[name.value]) else None
      else Some(defaultStore)
    }

    function Target(): set<Store>
      reads this, config
    {
      if Repository().Some? then {Repository().value} else {}
    }

    /** `runDisabled`: switch caching off, run the closure, and restore the
        flag in a `finally`, so an exception from the closure propagates
        after the restore. */
    method RunDisabled<T>(closure: Closure<T>) returns (r: Outcome<T>)
      modifies config
      ensures r == Denote(closure, Disabled(old(config.settings)))
      ensures config.settings == old(config.settings).(enabled := Some(CachingEnabled(old(config.settings))))
      decreases closure, 1
    {
      var originalSetting := CachingEnabled(config.settings);
      config.settings := config.settings.(enabled := Some(false));
      r := Invoke(closure);
      config.settings := config.settings.(enabled := Some(originalSetting));
    }

    /** `$closure()` */
    method Invoke<T>(closure: Closure<T>) returns (r: Outcome<T>)
      modifies config
      requires config.settings.enabled.Some?
      ensures r == Denote(closure, old(config.settings))
      ensures config.settings == old(config.settings)
      decreases closure, 0
    {
      match closure
      case Body(f) =>
        r := f(config.settings);
      case Nested(inner) =>
        r := RunDisabled(inner);
        assert Disabled(old(config.settings)) == old(config.settings).(enabled := Some(false));
    }

    /** `clearModel`: false for a class that does not exist; otherwise the
        model's own tag is flushed on a store with tags, everything on one
        without. A failing flush or an undefined store name raises. */
    method ClearModel(modelClass: string) returns (r: Outcome<bool>)
      modifies Target()
      ensures modelClass !in classes ==> r == Returned(false) && unchanged(Target())
      ensures modelClass in classes && Repository().None? ==> r.Threw?
      ensures modelClass in classes && Repository().Some? && Repository().value.flushFails ==>
        r.Threw? && unchanged(Target())
      ensures modelClass in classes && Repository().Some? && !Repository().value.flushFails ==>
        r == Returned(true)
        && Repository().value.entries
           == if Repository().value.supportsTags then WithoutTags(old(Repository().value.entries), {classes[modelClass].table})
              else map[]
    {
      if modelClass !in classes {
        return Returned(false);
      }
      var model := classes[modelClass];
      var tags := MakeTags(schema, model, []);
      TagsShape(schema, model, []);
      assert (set t | t in tags) == {model.table};
      var cache := Repository();
      if cache.None? {
        return Threw("Cache store is not defined.");
      }
      var store := cache.value;
      var raised;
      if store.supportsTags {
        raised := store.FlushTags(tags);
      } else {
        raised := store.Flush();
      }
      r := if raised then Threw("flush failed") else Returned(true);
    }

    /** `clearAll`: flush the whole repository. */
    method ClearAll() returns (r: Outcome<bool>)
      modifies Target()
      ensures Repository().None? ==> r.Threw?
      ensures Repository().Some? && Repository().value.flushFails ==> r.Threw? && unchanged(Target())
      ensures Repository().Some? && !Repository().value.flushFails ==>
        r == Returned(true) && Repository().value.entries == map[]
    {
      var cache := Repository();
      if cache.None? {
        return Threw("Cache store is not defined.");
      }
      var raised := cache.value.Flush();
      r := if raised then Threw("flush failed") else Returned(true);
    }
  }
}
