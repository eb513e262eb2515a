/** src/Traits/Caching.php: the per-instance cache policy. The trait's
    fields and methods are a class here; a host (a model, or the caching
    builder) holds one. */
module CachingTrait {
  import opened Wrappers
  import opened Strings
  import opened Domain
  import opened CacheStore

  datatype PhpError = ReturnTypeError(message: string)

  class Caching {
    var shouldCache: bool
    var cacheCooldownSeconds: Option<int>
    var cacheTtl: Option<int>
    /** The host's own `$cacheStore` property: None when undeclared or null. */
    const cacheStore: Option<string>
    /** The process-wide configuration, read at call time. */
    const config: Config

    constructor (config: Config, cacheStore: Option<string>)
      ensures this.config == config && this.cacheStore == cacheStore
      ensures shouldCache && cacheCooldownSeconds == None && cacheTtl == None
    {
      this.config := config;
      this.cacheStore := cacheStore;
      shouldCache := true;
      cacheCooldownSeconds := None;
      cacheTtl := None;
    }

    /** `getCacheStore`: the host's truthy `$cacheStore`, else the configured store. */
    function GetCacheStore(): (store: Option<string>)
      reads this, config
      ensures cacheStore.Some? && Truthy(cacheStore.value) ==> store == cacheStore
      ensures !(cacheStore.Some? && Truthy(cacheStore.value)) ==> store == config.settings.store
    {
      if cacheStore.Some? && Truthy(cacheStore.value) then cacheStore else config.settings.store
    }

    /** `isCachingEnabled`: the global switch first, then this instance's flag. */
    function IsCachingEnabled(): (enabled: bool)
      reads this, config
      ensures !CachingEnabled(config.settings) ==> !enabled
      ensures CachingEnabled(config.settings) ==> enabled == shouldCache
    {
      if !CachingEnabled(config.settings) then false else shouldCache
    }

    /** `disableCache` (the trait's own): clears the flag and nothing else. */
    method DisableCache()
      modifies this`shouldCache
      ensures !shouldCache && !IsCachingEnabled()
    {
      shouldCache := false;
    }

    /** `enableCache` (the trait's own): sets the flag and nothing else. */
    method EnableCache()
      modifies this`shouldCache
      ensures shouldCache && IsCachingEnabled() == CachingEnabled(config.settings)
    {
      shouldCache := true;
    }

    /** `cacheFor($seconds)`: an explicit TTL, which `getCacheTtl` then returns. */
    method CacheFor(seconds: int)
      modifies this`cacheTtl
      ensures cacheTtl == Some(seconds)
      ensures GetCacheTtl() == seconds && GetCacheTtlAsWritten() == Success(seconds)
    {
      cacheTtl := Some(seconds);
    }

    /** `getDefaultCacheCooldownSeconds`: the trait declares the property, so
        `property_exists` holds and the current value is returned. */
    function GetDefaultCacheCooldownSeconds(): (seconds: Option<int>)
      reads this
      ensures seconds == cacheCooldownSeconds
    {
      cacheCooldownSeconds
    }

    /** `withCacheCooldownSeconds($seconds)`: `$seconds ?? default`, where the
        default is the field's own value, so a null argument changes nothing. */
    method WithCacheCooldownSeconds(seconds: Option<int>)
      modifies this`cacheCooldownSeconds
      ensures seconds.Some? ==> cacheCooldownSeconds == seconds
      ensures seconds.None? ==> cacheCooldownSeconds == old(cacheCooldownSeconds)
    {
      cacheCooldownSeconds := if seconds.Some? then seconds else GetDefaultCacheCooldownSeconds();
    }

    /** `getCacheTtl` as written: with no override the `property_exists`
        branch returns the null field from a function declared `: int`, which
        PHP rejects with a TypeError; the configured default is never reached. */
    function GetCacheTtlAsWritten(): (ttl: Result<int, PhpError>)
      reads this
      ensures cacheTtl.Some? ==> ttl == Success(cacheTtl.value)
      ensures cacheTtl.None? ==> ttl.Failure?
    {
      if cacheTtl.Some? then Success(cacheTtl.value)
      else Failure(ReturnTypeError("Return value must be of type int, null returned"))
    }

    /** `getCacheTtl` as evidently intended: the override, else the configured
        duration (default 3600). */
    function GetCacheTtl(): (ttl: int)
      reads this, config
      ensures cacheTtl.Some? ==> ttl == cacheTtl.value
      ensures cacheTtl.None? ==> ttl == config.settings.cacheDuration.GetOr(3600)
    {
      if cacheTtl.Some? then cacheTtl.value else config.settings.cacheDuration.GetOr(3600)
    }

    /** `cacheSupportsTags($cache)`, asked of the store at call time. */
    function CacheSupportsTags(cache: Store): (supported: bool)
      reads cache
      ensures supported == cache.supportsTags
    {
      cache.supportsTags
    }
  }

  /** The discrepancy: a fresh policy under the default configuration has no
      TTL override, so the code as written fails where 3600 was meant. */
  lemma DefaultTtlUnreachable(c: Caching)
    requires c.cacheTtl.None? && c.config.settings == DefaultSettings()
    ensures c.GetCacheTtlAsWritten().Failure?
    ensures c.GetCacheTtl() == 3600
  {
  }
}
