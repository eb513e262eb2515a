/** The entities the cache code reads: model instances, their relationship
    methods, eager-load constraints and the `model-caching` configuration. */
module Domain {
  import opened Wrappers

  /** A query result as the cache backend stores it (serialised). */
  type Value = string

  /** What the cache code reads off an Eloquent model instance. */
  datatype Model = Model(
    cls: string,                     // get_class($model)
    table: string,                   // $model->getTable()
    connectionName: Option<string>,  // $model->getConnectionName(): None for the default connection
    connection: string,              // $model->getConnection()->getName()
    database: string,                // $model->getConnection()->getDatabaseName()
    cachePrefix: Option<string>,     // the optional $cachePrefix property: None when undeclared or null
    perPage: int,                    // $model->getPerPage()
    key: Option<int>)                // $model->getKey()

  /** The relationship methods of the application's models: calling method
      `name` on an instance of class `cls` yields a relation whose related
      model is `relations[(cls, name)]`. A pair missing from the map is a
      call that throws. */
  datatype Schema = Schema(relations: map<(string, string), Model>)

  /** The value of one entry of a builder's eager-load array. */
  datatype Constraint =
    | Closure(id: nat)       // a callable constraint, identified by the closure object
    | Literal(text: string)  // any other (serialisable) value
    | NoConstraint           // null

  /** A builder's eager-load array: relation path => constraint, in insertion order. */
  type EagerLoad = seq<(string, Constraint)>

  /** The `model-caching` configuration; a field is None when its key is
      absent. A string key set to null is read as Some(""), which every
      reader but one treats alike; the exception is `getPrefix` with a null
      'cache-prefix' and database keying off, which returns null from a
      string function and so raises. */
  datatype Settings = Settings(
    cachePrefix: Option<string>,       // 'cache-prefix'
    enabled: Option<bool>,             // 'enabled'
    useDatabaseKeying: Option<bool>,   // 'use-database-keying'
    store: Option<string>,             // 'store'
    cacheDuration: Option<int>)        // 'cache_duration'

  /** config/model-caching.php with no environment overrides. */
  function DefaultSettings(): Settings {
    Settings(Some("model-cache"), Some(true), Some(true), None, Some(3600))
  }

  /** `config('model-caching.enabled', true)` */
  predicate CachingEnabled(s: Settings) {
    s.enabled.GetOr(true)
  }

  /** The process-wide configuration repository, which `runDisabled` writes. */
  class Config {
    var settings: Settings

    constructor (s: Settings)
      ensures settings == s
    {
      settings := s;
    }
  }
}
