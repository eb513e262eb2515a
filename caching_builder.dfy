/** src/Builders/CachingBuilder.php: the query builder that answers its
    read operations from the cache, running the query only on a miss. */
module CachingBuilder {
  import opened Wrappers
  import opened Strings
  import opened Domain
  import opened CacheStore
  import opened CachingTrait
  import opened QueryCacheKeyGenerator

  /** The eight reads the builder intercepts, with the arguments the caller
      passed (PHP's parameter defaults already filled in; null is None). */
  datatype ReadOp =
    | Get(columns: seq<string>)
    | First(columns: seq<string>)
    | Find(id: int, columns: seq<string>)
    | FindMany(ids: seq<int>, columns: seq<string>)
    | Paginate(perPage: Option<int>, columns: seq<string>, pageName: string, page: Option<int>, total: Option<int>)
    | SimplePaginate(perPage: Option<int>, columns: seq<string>, pageName: string, page: Option<int>)
    | Count(column: string)
    | Exists

  /** Which of the eight methods a read is. */
  function Kind(op: ReadOp): nat {
    match op
    case Get(_) => 0
    case First(_) => 1
    case Find(_, _) => 2
    case FindMany(_, _) => 3
    case Paginate(_, _, _, _, _) => 4
    case SimplePaginate(_, _, _, _) => 5
    case Count(_) => 6
    case Exists => 7
  }

  // ---------------------------------------------------------------------
  // Paginator defaults

  /** An int argument is given when it is PHP-truthy (neither null nor 0). */
  predicate Given(n: Option<int>) {
    n.Some? && n.value != 0
  }

  /** `$page ?: Paginator::resolveCurrentPage($pageName)` */
  function ResolvePage(page: Option<int>, pageName: string, currentPage: string -> int): (r: int)
    ensures Given(page) ==> r == page.value
    ensures !Given(page) ==> r == currentPage(pageName)
  {
    if Given(page) then page.value else currentPage(pageName)
  }

  /** `$perPage ?: $this->getModel()->getPerPage()` */
  function ResolvePerPage(perPage: Option<int>, modelPerPage: int): (r: int)
    ensures Given(perPage) ==> r == perPage.value
    ensures !Given(perPage) ==> r == modelPerPage
  {
    if Given(perPage) then perPage.value else modelPerPage
  }

  /** The read the cached path hands to the parent builder: the two
      paginators get their page and page size filled in; every other read
      is passed on as it came. */
  function Resolve(op: ReadOp, modelPerPage: int, currentPage: string -> int): (r: ReadOp)
    ensures Kind(r) == Kind(op)
    ensures !(op.Paginate? || op.SimplePaginate?) ==> r == op
    ensures op.Paginate? || op.SimplePaginate? ==>
      && r.columns == op.columns && r.pageName == op.pageName
      && r.page == Some(ResolvePage(op.page, op.pageName, currentPage))
      && r.perPage == Some(ResolvePerPage(op.perPage, modelPerPage))
    ensures op.Paginate? ==> r.total == op.total
  {
    match op
    case Paginate(perPage, columns, pageName, page, total) =>
      Paginate(Some(ResolvePerPage(perPage, modelPerPage)), columns, pageName,
               Some(ResolvePage(page, pageName, currentPage)), total)
    case SimplePaginate(perPage, columns, pageName, page) =>
      SimplePaginate(Some(ResolvePerPage(perPage, modelPerPage)), columns, pageName,
                     Some(ResolvePage(page, pageName, currentPage)))
    case _ => op
  }

  /** Filling in the defaults twice changes nothing more. */
  lemma ResolveIdempotent(op: ReadOp, modelPerPage: int, currentPage: string -> int)
    ensures Resolve(Resolve(op, modelPerPage, currentPage), modelPerPage, currentPage)
         == Resolve(op, modelPerPage, currentPage)
  {
  }

  // ---------------------------------------------------------------------
  // Keys

  /** The head of each method's key suffix. */
  function Head(op: ReadOp): string {
    match op
    case Get(_) => ""
    case First(_) => "first"
    case Find(_, _) => "find:"
    case FindMany(_, _) => "findMany:"
    case Paginate(_, _, _, _, _) => "paginate:"
    case SimplePaginate(_, _, _, _) => "simplePaginate:"
    case Count(_) => "count"
    case Exists => "exists"
  }

  /** Each id as PHP interpolates it. */
  function Rendered(ids: seq<int>): (r: seq<string>)
    ensures |r| == |ids|
    ensures forall i :: 0 <= i < |ids| ==> r[i] == IntToString(ids[i])
  {
    seq(|ids|, i requires 0 <= i < |ids| => IntToString(ids[i]))
  }

  /** The arguments written after the head: the id, the ids joined by
      commas, or the resolved page and page size. */
  function Arg(op: ReadOp, page: int, perPage: int): string {
    match op
    case Find(id, _) => IntToString(id)
    case FindMany(ids, _) => Join(Rendered(ids), ",")
    case Paginate(_, _, _, _, _) => IntToString(page) + ":" + IntToString(perPage)
    case SimplePaginate(_, _, _, _) => IntToString(page) + ":" + IntToString(perPage)
    case _ => ""
  }

  /** The `$suffix` each method passes to `generateCacheKey`; `page` and
      `perPage` are the resolved paginator values. */
  function Suffix(op: ReadOp, page: int, perPage: int): (suffix: string)
    ensures op.Get? <==> !Truthy(suffix)
  {
    assert !op.Get? ==> |Head(op)| >= 5;
    Head(op) + Arg(op, page, perPage)
  }

  /** The columns each method passes to `generateCacheKey`: `count` and
      `exists` key on `['*']` whatever they count. */
  function KeyColumns(op: ReadOp): (columns: seq<string>)
    ensures op.Count? || op.Exists? ==> columns == ["*"]
    ensures !op.Count? && !op.Exists? ==> columns == op.columns
  {
    match op
    case Count(_) => ["*"]
    case Exists => ["*"]
    case Get(columns) => columns
    case First(columns) => columns
    case Find(_, columns) => columns
    case FindMany(_, columns) => columns
    case Paginate(_, columns, _, _, _) => columns
    case SimplePaginate(_, columns, _, _) => columns
  }

  /** `generateCacheKey`: the generator's key, extended by ':' and the
      suffix exactly when the suffix is truthy. */
  function GenerateCacheKey(baseKey: string, suffix: string): (key: string)
    ensures |key| >= |baseKey| && key[..|baseKey|] == baseKey
    ensures key == baseKey <==> !Truthy(suffix)
    ensures Truthy(suffix) ==> key[|baseKey|..] == ":" + suffix
  {
    if Truthy(suffix) then baseKey + ":" + suffix else baseKey
  }

  /** The key of a read issued by a builder over model `m`, query `q` and
      eager load `e` under settings `s`. */
  function ReadKey(s: Settings, m: Model, q: SqlQuery, e: EagerLoad, sha1: Components -> string,
                   op: ReadOp, page: int, perPage: int): string
  {
    GenerateCacheKey(Make(s, m, q, KeyColumns(op), e, sha1), Suffix(op, page, perPage))
  }

  /** The key a builder computes for a read: the paginators' page and page
      size are resolved first, every other read keys on its arguments. */
  function KeyOf(s: Settings, m: Model, q: SqlQuery, e: EagerLoad, sha1: Components -> string,
                 currentPage: string -> int, op: ReadOp): string
  {
    if op.Paginate? || op.SimplePaginate? then
      ReadKey(s, m, q, e, sha1, op, ResolvePage(op.page, op.pageName, currentPage), ResolvePerPage(op.perPage, m.perPage))
    else ReadKey(s, m, q, e, sha1, op, 0, 0)
  }

  /** Reading the method back off a suffix. */
  function KindOfSuffix(suffix: string): nat {
    if |suffix| < 5 then 0
    else if suffix[0] == 'p' then 4
    else if suffix[0] == 's' then 5
    else if suffix[0] == 'c' then 6
    else if suffix[0] == 'e' then 7
    else if suffix[2] == 'r' then 1
    else if suffix[4] == ':' then 2
    else 3
  }

  /** The suffix names its method. */
  lemma KindOfSuffixCorrect(op: ReadOp, page: int, perPage: int)
    ensures KindOfSuffix(Suffix(op, page, perPage)) == Kind(op)
  {
    var h, a := Head(op), Arg(op, page, perPage);
    if !op.Get? {
      assert |h| >= 5;
      assert (h + a)[0] == h[0] && (h + a)[2] == h[2] && (h + a)[4] == h[4];
    }
  }

  /** Equal ids render equally and only then. */
  lemma RenderedInjective(a: seq<int>, b: seq<int>)
    requires Join(Rendered(a), ",") == Join(Rendered(b), ",")
    ensures a == b
  {
    JoinInjective(Rendered(a), Rendered(b), ',');
    forall i | 0 <= i < |a| ensures a[i] == b[i] {
      IntToStringInjective(a[i], b[i]);
    }
  }

  /** Equal suffixes come from the same method with the same id, ids, or
      page and page size. */
  lemma SuffixInjective(op1: ReadOp, page1: int, perPage1: int, op2: ReadOp, page2: int, perPage2: int)
    requires Suffix(op1, page1, perPage1) == Suffix(op2, page2, perPage2)
    ensures Kind(op1) == Kind(op2)
    ensures op1.Find? && op2.Find? ==> op1.id == op2.id
    ensures op1.FindMany? && op2.FindMany? ==> op1.ids == op2.ids
    ensures (op1.Paginate? || op1.SimplePaginate?) && Kind(op1) == Kind(op2) ==>
      page1 == page2 && perPage1 == perPage2
  {
    KindOfSuffixCorrect(op1, page1, perPage1);
    KindOfSuffixCorrect(op2, page2, perPage2);
    var h := Head(op1);
    var a1, a2 := Arg(op1, page1, perPage1), Arg(op2, page2, perPage2);
    assert Head(op2) == h;
    assert a1 == (h + a1)[|h|..] == (h + a2)[|h|..] == a2;
    if op1.Find? {
      IntToStringInjective(op1.id, op2.id);
    } else if op1.FindMany? {
      RenderedInjective(op1.ids, op2.ids);
    } else if op1.Paginate? || op1.SimplePaginate? {
      SplitAtFirst(IntToString(page1), IntToString(perPage1), IntToString(page2), IntToString(perPage2), ':');
      IntToStringInjective(page1, page2);
      IntToStringInjective(perPage1, perPage2);
    }
  }

  /** The layout of a read's key: prefix, ':', the digest, and for every
      method but `get` ':' and the suffix. */
  lemma ReadKeyShape(s: Settings, m: Model, q: SqlQuery, e: EagerLoad, sha1: Components -> string,
                     op: ReadOp, page: int, perPage: int)
    requires DigestShape(sha1)
    ensures var d := sha1(KeyComponents(m, q, KeyColumns(op), e));
      && |d| == 40
      && ReadKey(s, m, q, e, sha1, op, page, perPage)
         == GetPrefix(s, m) + ":" + d + (if op.Get? then "" else ":" + Suffix(op, page, perPage))
  {
  }

  /** Two reads of one builder share a cache entry only when they are the
      same read: same method, same key columns, and the same id, ids, or
      page and page size. */
  lemma ReadKeyInjective(s: Settings, m: Model, q: SqlQuery, e: EagerLoad, sha1: Components -> string,
                         op1: ReadOp, page1: int, perPage1: int, op2: ReadOp, page2: int, perPage2: int)
    requires DigestShape(sha1)
    requires NoCollision(sha1, KeyComponents(m, q, KeyColumns(op1), e), KeyComponents(m, q, KeyColumns(op2), e))
    requires ReadKey(s, m, q, e, sha1, op1, page1, perPage1) == ReadKey(s, m, q, e, sha1, op2, page2, perPage2)
    ensures Kind(op1) == Kind(op2)
    ensures KeyColumns(op1) == KeyColumns(op2)
    ensures op1.Find? && op2.Find? ==> op1.id == op2.id
    ensures op1.FindMany? && op2.FindMany? ==> op1.ids == op2.ids
    ensures (op1.Paginate? || op1.SimplePaginate?) && Kind(op1) == Kind(op2) ==>
      page1 == page2 && perPage1 == perPage2
  {
    var p := GetPrefix(s, m);
    var c1, c2 := KeyComponents(m, q, KeyColumns(op1), e), KeyComponents(m, q, KeyColumns(op2), e);
    var d1, d2 := sha1(c1), sha1(c2);
    var s1, s2 := Suffix(op1, page1, perPage1), Suffix(op2, page2, perPage2);
    var k := ReadKey(s, m, q, e, sha1, op1, page1, perPage1);
    ReadKeyShape(s, m, q, e, sha1, op1, page1, perPage1);
    ReadKeyShape(s, m, q, e, sha1, op2, page2, perPage2);
    if op1.Get? && op2.Get? {
      assert d1 == k[|p| + 1..] == d2;
    } else if !op1.Get? && !op2.Get? {
      assert k == p + ":" + d1 + ":" + s1 == p + ":" + d2 + ":" + s2;
      assert d1 == k[|p| + 1..|p| + 41] == d2;
      assert s1 == k[|p| + 42..] == s2;
      SuffixInjective(op1, page1, perPage1, op2, page2, perPage2);
    }
    assert c1 == c2;
  }

  /** `count` answers every column from one entry, since its key ignores
      the column it was asked to count. */
  lemma CountIgnoresColumn(s: Settings, m: Model, q: SqlQuery, e: EagerLoad, sha1: Components -> string,
                           currentPage: string -> int, c1: string, c2: string)
    ensures KeyOf(s, m, q, e, sha1, currentPage, Count(c1)) == KeyOf(s, m, q, e, sha1, currentPage, Count(c2))
  {
  }

  /** Passing the default page and page size explicitly, or leaving them
      null, gives the same key. */
  lemma PaginateDefaultsShareKey(s: Settings, m: Model, q: SqlQuery, e: EagerLoad, sha1: Components -> string,
                                 currentPage: string -> int, columns: seq<string>, pageName: string,
                                 total: Option<int>)
    ensures KeyOf(s, m, q, e, sha1, currentPage, Paginate(None, columns, pageName, None, total))
         == KeyOf(s, m, q, e, sha1, currentPage, Paginate(Some(m.perPage), columns, pageName,
                                                         Some(currentPage(pageName)), total))
    ensures KeyOf(s, m, q, e, sha1, currentPage, SimplePaginate(None, columns, pageName, None))
         == KeyOf(s, m, q, e, sha1, currentPage, SimplePaginate(Some(m.perPage), columns, pageName,
                                                               Some(currentPage(pageName))))
  {
    var page, perPage := currentPage(pageName), m.perPage;
    assert ResolvePage(Some(page), pageName, currentPage) == page == ResolvePage(None, pageName, currentPage);
    assert ResolvePerPage(Some(perPage), perPage) == perPage == ResolvePerPage(None, perPage);
    var p1, p2 := Paginate(None, columns, pageName, None, total),
                  Paginate(Some(perPage), columns, pageName, Some(page), total);
    assert KeyColumns(p1) == KeyColumns(p2) && Suffix(p1, page, perPage) == Suffix(p2, page, perPage);
    var s1, s2 := SimplePaginate(None, columns, pageName, None),
                  SimplePaginate(Some(perPage), columns, pageName, Some(page));
    assert KeyColumns(s1) == KeyColumns(s2) && Suffix(s1, page, perPage) == Suffix(s2, page, perPage);
  }

  /** Two reads of one builder share a cache entry only when they are the
      same read, with the paginators' defaults resolved. */
  lemma KeyOfInjective(s: Settings, m: Model, q: SqlQuery, e: EagerLoad, sha1: Components -> string,
                       currentPage: string -> int, op1: ReadOp, op2: ReadOp)
    requires DigestShape(sha1)
    requires NoCollision(sha1, KeyComponents(m, q, KeyColumns(op1), e), KeyComponents(m, q, KeyColumns(op2), e))
    requires KeyOf(s, m, q, e, sha1, currentPage, op1) == KeyOf(s, m, q, e, sha1, currentPage, op2)
    ensures Kind(op1) == Kind(op2) && KeyColumns(op1) == KeyColumns(op2)
    ensures op1.Find? && op2.Find? ==> op1.id == op2.id
    ensures op1.FindMany? && op2.FindMany? ==> op1.ids == op2.ids
    ensures (op1.Paginate? || op1.SimplePaginate?) && Kind(op1) == Kind(op2) ==>
      Resolve(op1, m.perPage, currentPage).page == Resolve(op2, m.perPage, currentPage).page
      && Resolve(op1, m.perPage, currentPage).perPage == Resolve(op2, m.perPage, currentPage).perPage
  {
    var page1 := if op1.Paginate? || op1.SimplePaginate? then ResolvePage(op1.page, op1.pageName, currentPage) else 0;
    var perPage1 := if op1.Paginate? || op1.SimplePaginate? then ResolvePerPage(op1.perPage, m.perPage) else 0;
    var page2 := if op2.Paginate? || op2.SimplePaginate? then ResolvePage(op2.page, op2.pageName, currentPage) else 0;
    var perPage2 := if op2.Paginate? || op2.SimplePaginate? then ResolvePerPage(op2.perPage, m.perPage) else 0;
    ReadKeyInjective(s, m, q, e, sha1, op1, page1, perPage1, op2, page2, perPage2);
  }

  // ---------------------------------------------------------------------
  // The database and the builder

  /** What `parent::get()` and the other parent reads run against: the rows
      of each table and a count of the queries executed. What a query
      returns for given rows is a parameter; None is a null result. */
  class Database {
    var rows: map<string, seq<Value>>
    var executed: nat
    const run: (map<string, seq<Value>>, SqlQuery, ReadOp) -> Option<Value>

    constructor (rows: map<string, seq<Value>>, run: (map<string, seq<Value>>, SqlQuery, ReadOp) -> Option<Value>)
      ensures this.rows == rows && this.run == run && executed == 0
    {
      this.rows := rows;
      this.run := run;
      executed := 0;
    }

    /** Run one read. */
    method Execute(q: SqlQuery, op: ReadOp) returns (v: Option<Value>)
      modifies this`executed
      ensures v == run(rows, q, op) && executed == old(executed) + 1
    {
      v := run(rows, q, op);
      executed := executed + 1;
    }

    /** A write to one table. */
    method Write(table: string, contents: seq<Value>)
      modifies this`rows
      ensures rows == old(rows)[table := contents]
    {
      rows := rows[table := contents];
    }
  }

  class Builder {
    /** The state `use Caching` adds: `shouldCache`, `cacheTtl`, ... */
    const policy: Caching
    var avoidCache: bool
    var cache: Store
    const db: Database
    const model: Model
    const schema: Schema
    const query: SqlQuery
    /** `getEagerLoads()`: the builder's eager-load array. */
    const eagerLoad: EagerLoad
    /** `sha1(serialize(...))` inside the key generator. */
    const sha1: Components -> string
    /** `Paginator::resolveCurrentPage($pageName)`: the page the request asks for. */
    const currentPage: string -> int

    constructor (policy: Caching, cache: Store, db: Database, model: Model, schema: Schema, query: SqlQuery,
                 eagerLoad: EagerLoad, sha1: Components -> string, currentPage: string -> int)
      ensures this.policy == policy && this.cache == cache && this.db == db && this.model == model
      ensures this.schema == schema && this.query == query && this.eagerLoad == eagerLoad
      ensures this.sha1 == sha1 && this.currentPage == currentPage
      ensures !avoidCache
    {
      this.policy := policy;
      this.cache := cache;
      this.db := db;
      this.model := model;
      this.schema := schema;
      this.query := query;
      this.eagerLoad := eagerLoad;
      this.sha1 := sha1;
      this.currentPage := currentPage;
      avoidCache := false;
    }

    /** `setCacheRepository` */
    method SetCacheRepository(cache: Store)
      modifies this`cache
      ensures this.cache == cache
    {
      this.cache := cache;
    }

    /** `shouldCache`: not avoided, and enabled both globally and here. */
    function ShouldCache(): (use: bool)
      reads this, policy, policy.config
      ensures use ==> CachingEnabled(policy.config.settings)
      ensures use <==> !avoidCache && policy.IsCachingEnabled()
    {
      if avoidCache then false else policy.IsCachingEnabled()
    }

    /** `disableCache`: both flags off, so every read goes to the database. */
    method DisableCache()
      modifies this`avoidCache, policy`shouldCache
      ensures avoidCache && !policy.shouldCache && !ShouldCache()
    {
      avoidCache := true;
      policy.shouldCache := false;
    }

    /** `withoutCache`: the same as `disableCache`. */
    method WithoutCache()
      modifies this`avoidCache, policy`shouldCache
      ensures avoidCache && !policy.shouldCache && !ShouldCache()
    {
      DisableCache();
    }

    /** `enableCache`: both flags on, which undoes an earlier `withoutCache`;
        the global switch still decides. */
    method EnableCache()
      modifies this`avoidCache, policy`shouldCache
      ensures !avoidCache && policy.shouldCache
      ensures ShouldCache() == CachingEnabled(policy.config.settings)
    {
      avoidCache := false;
      policy.shouldCache := true;
    }

    /** The read the cached path runs. */
    function Resolved(op: ReadOp): ReadOp
      reads this
    {
      Resolve(op, model.perPage, currentPage)
    }

    /** The key a read is cached under. */
    function CacheKey(op: ReadOp): string
      reads this, policy.config
    {
      KeyOf(policy.config.settings, model, query, eagerLoad, sha1, currentPage, op)
    }

    /** The tags an entry is stored with: none on a store without tags. */
    function StoredTags(): set<string>
      reads this, cache
    {
      if cache.supportsTags then set t | t in Tags(schema, model, eagerLoad) else {}
    }

    /** What one intercepted read does: when caching is off it runs the read
        as given and leaves the cache alone; otherwise a stored non-null
        value under the read's key is returned without touching the
        database, and on a miss the resolved read runs once and its result
        is put under the key with the tags and the TTL. */
    twostate predicate Served(op: ReadOp, new v: Option<Value>)
      reads this, policy, policy.config, cache, db
    {
      if !ShouldCache() then
        v == db.run(db.rows, query, op) && db.executed == old(db.executed) + 1
        && cache.entries == old(cache.entries)
      else
        var key := CacheKey(op);
        if Hit(old(cache.entries), key) then
          v == old(cache.entries)[key].value && cache.entries == old(cache.entries)
          && db.executed == old(db.executed)
        else
          v == db.run(db.rows, query, Resolved(op)) && db.executed == old(db.executed) + 1
          && cache.entries == Stored(old(cache.entries), key, v, StoredTags(), policy.GetCacheTtl())
    }

    /** `remember`: through `tags($tags)` when the store supports tags. */
    method Remember(key: string, tags: seq<string>, ttl: int, op: ReadOp) returns (v: Option<Value>)
      modifies cache`entries, db`executed
      ensures Hit(old(cache.entries), key) ==>
        v == old(cache.entries)[key].value && cache.entries == old(cache.entries)
        && db.executed == old(db.executed)
      ensures !Hit(old(cache.entries), key) ==>
        v == db.run(db.rows, query, op) && db.executed == old(db.executed) + 1
        && cache.entries == Stored(old(cache.entries), key, v,
                                   if cache.supportsTags then set t | t in tags else {}, ttl)
    {
      var tagged := policy.CacheSupportsTags(cache);
      if Hit(cache.entries, key) {
        v := cache.entries[key].value;
      } else {
        v := db.Execute(query, op);
        cache.Put(key, v, if tagged then set t | t in tags else {}, ttl);
      }
    }

    /** The shape the eight overrides share. */
    method Intercept(op: ReadOp) returns (v: Option<Value>)
      modifies cache`entries, db`executed
      ensures Served(op, v)
    {
      if !ShouldCache() {
        v := db.Execute(query, op);
        return;
      }
      var key := CacheKey(op);
      var tags := MakeTags(schema, model, eagerLoad);
      var ttl := policy.GetCacheTtl();
      v := Remember(key, tags, ttl, Resolved(op));
    }

    method Get(columns: seq<string>) returns (v: Option<Value>)
      modifies cache`entries, db`executed
      ensures Served(ReadOp.Get(columns), v)
    {
      v := Intercept(ReadOp.Get(columns));
    }

    method First(columns: seq<string>) returns (v: Option<Value>)
      modifies cache`entries, db`executed
      ensures Served(ReadOp.First(columns), v)
    {
      v := Intercept(ReadOp.First(columns));
    }

    method Find(id: int, columns: seq<string>) returns (v: Option<Value>)
      modifies cache`entries, db`executed
      ensures Served(ReadOp.Find(id, columns), v)
    {
      v := Intercept(ReadOp.Find(id, columns));
    }

    method FindMany(ids: seq<int>, columns: seq<string>) returns (v: Option<Value>)
      modifies cache`entries, db`executed
      ensures Served(ReadOp.FindMany(ids, columns), v)
    {
      v := Intercept(ReadOp.FindMany(ids, columns));
    }

    method Paginate(perPage: Option<int>, columns: seq<string>, pageName: string, page: Option<int>,
                    total: Option<int>) returns (v: Option<Value>)
      modifies cache`entries, db`executed
      ensures Served(ReadOp.Paginate(perPage, columns, pageName, page, total), v)
    {
      v := Intercept(ReadOp.Paginate(perPage, columns, pageName, page, total));
    }

    method SimplePaginate(perPage: Option<int>, columns: seq<string>, pageName: string, page: Option<int>)
      returns (v: Option<Value>)
      modifies cache`entries, db`executed
      ensures Served(ReadOp.SimplePaginate(perPage, columns, pageName, page), v)
    {
      v := Intercept(ReadOp.SimplePaginate(perPage, columns, pageName, page));
    }

    method Count(column: string) returns (v: Option<Value>)
      modifies cache`entries, db`executed
      ensures Served(ReadOp.Count(column), v)
    {
      v := Intercept(ReadOp.Count(column));
    }

    method Exists() returns (v: Option<Value>)
      modifies cache`entries, db`executed
      ensures Served(ReadOp.Exists, v)
    {
      v := Intercept(ReadOp.Exists);
    }
  }
}
