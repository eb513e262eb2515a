/** src/Cache/QueryCacheKeyGenerator.php: the cache key of a query and the
    invalidation tags of its result.

    `sha1(serialize(...))` is a library call; it is a parameter here, and the
    lemmas that need it to behave like SHA-1 ask for `DigestShape` and for
    `NoCollision` of the tuples they compare. */
module QueryCacheKeyGenerator {
  import opened Wrappers
  import opened Strings
  import opened PhpArrays
  import opened Domain

  /** `$query->toSql()` and `$query->getBindings()` of the query being cached. */
  datatype SqlQuery = SqlQuery(sql: string, bindings: seq<string>)

  /** The `$components` array that is serialised and hashed. */
  datatype Components = Components(
    cls: string,
    connection: Option<string>,
    sql: string,
    bindings: seq<string>,
    columns: seq<string>,
    eagerLoad: EagerLoad)

  predicate IsLowerHex(ch: char) {
    '0' <= ch <= '9' || 'a' <= ch <= 'f'
  }

  /** The shape of `sha1(...)`: forty lower-case hex digits. */
  ghost predicate DigestShape(sha1: Components -> string) {
    forall c :: |sha1(c)| == 40 && forall i :: 0 <= i < 40 ==> IsLowerHex(sha1(c)[i])
  }

  /** The two component tuples do not collide under the hash. SHA-1 has
      only finitely many digests, so this is asked only of the pair at hand,
      never of every pair. */
  predicate NoCollision(sha1: Components -> string, c1: Components, c2: Components) {
    sha1(c1) == sha1(c2) ==> c1 == c2
  }

  /** A digest function that separates `c0` from every other tuple. */
  function SeparatingDigest(c0: Components): Components -> string {
    c => if c == c0 then seq(40, _ => '0') else seq(40, _ => 'f')
  }

  /** The hypotheses of the key lemmas can be met: for any tuple there is a
      hash of the right shape that collides it with no other tuple. */
  lemma SeparatingDigestMeetsHypotheses(c0: Components, c: Components)
    ensures DigestShape(SeparatingDigest(c0))
    ensures NoCollision(SeparatingDigest(c0), c0, c) && NoCollision(SeparatingDigest(c0), c, c0)
  {
    var h := SeparatingDigest(c0);
    if c != c0 {
      assert h(c)[0] != h(c0)[0];
    }
  }

  // ---------------------------------------------------------------------
  // Eager-load normalisation

  /** A callable constraint cannot be serialised, so only the relation name is kept. */
  function NormalizeConstraint(c: Constraint): (r: Constraint)
    ensures c.Closure? ==> r == NoConstraint
    ensures !c.Closure? ==> r == c
  {
    if c.Closure? then NoConstraint else c
  }

  function NormalizeEach(a: EagerLoad): (r: EagerLoad)
    ensures |r| == |a|
    ensures forall i :: 0 <= i < |a| ==> r[i] == (a[i].0, NormalizeConstraint(a[i].1))
  {
    seq(|a|, i requires 0 <= i < |a| => (a[i].0, NormalizeConstraint(a[i].1)))
  }

  /** What `normalizeEagerLoad` returns: the array sorted by key, with every
      callable constraint replaced by null. */
  function Normalized(eagerLoad: EagerLoad): EagerLoad {
    NormalizeEach(KSort(eagerLoad))
  }

  /** `normalizeEagerLoad`: `ksort`, then a loop that copies each entry,
      writing null for a callable constraint. */
  method NormalizeEagerLoad(eagerLoad: EagerLoad) returns (normalized: EagerLoad)
    ensures normalized == Normalized(eagerLoad)
  {
    var sorted := KSort(eagerLoad);
    normalized := [];
    for i := 0 to |sorted|
      invariant normalized == NormalizeEach(sorted[..i])
    {
      var (relation, constraints) := sorted[i];
      if constraints.Closure? {
        normalized := normalized + [(relation, NoConstraint)];
      } else {
        normalized := normalized + [(relation, constraints)];
      }
    }
    assert sorted[..|sorted|] == sorted;
  }

  /** Normalisation keeps exactly the relation names, and every entry keeps its
      constraint unless that constraint is callable. */
  lemma NormalizedEntries(eagerLoad: EagerLoad)
    ensures Keys(Normalized(eagerLoad)) == Keys(eagerLoad)
    ensures forall k, c :: (k, c) in eagerLoad ==> (k, NormalizeConstraint(c)) in Normalized(eagerLoad)
    ensures forall k, c :: (k, c) in Normalized(eagerLoad) ==>
      exists c0 :: (k, c0) in eagerLoad && c == NormalizeConstraint(c0)
  {
    NormalizedKeys(KSort(eagerLoad));
    NormalizedKeepsEntries(eagerLoad);
    NormalizedEntriesFromInput(eagerLoad);
  }

  lemma NormalizedKeys(sorted: EagerLoad)
    ensures Keys(NormalizeEach(sorted)) == Keys(sorted)
  {
    var r := NormalizeEach(sorted);
    forall k | k in Keys(r) ensures k in Keys(sorted) {
      var i :| 0 <= i < |r| && r[i].0 == k;
      assert sorted[i].0 == k;
    }
    forall k | k in Keys(sorted) ensures k in Keys(r) {
      var i :| 0 <= i < |sorted| && sorted[i].0 == k;
      assert r[i].0 == k;
    }
  }

  lemma NormalizedKeepsEntries(eagerLoad: EagerLoad)
    ensures forall k, c :: (k, c) in eagerLoad ==> (k, NormalizeConstraint(c)) in Normalized(eagerLoad)
  {
    var sorted := KSort(eagerLoad);
    var r := NormalizeEach(sorted);
    forall k, c | (k, c) in eagerLoad ensures (k, NormalizeConstraint(c)) in r {
      assert (k, c) in multiset(sorted);
      var i :| 0 <= i < |sorted| && sorted[i] == (k, c);
      assert r[i] == (k, NormalizeConstraint(c));
    }
  }

  lemma NormalizedEntriesFromInput(eagerLoad: EagerLoad)
    ensures forall k, c :: (k, c) in Normalized(eagerLoad) ==>
      exists c0 :: (k, c0) in eagerLoad && c == NormalizeConstraint(c0)
  {
    var sorted := KSort(eagerLoad);
    var r := NormalizeEach(sorted);
    forall k, c | (k, c) in r ensures exists c0 :: (k, c0) in eagerLoad && c == NormalizeConstraint(c0) {
      var i :| 0 <= i < |r| && r[i] == (k, c);
      assert sorted[i] in multiset(eagerLoad);
    }
  }

  /** Two eager-load arrays with the same entries, in whatever insertion
      order, normalise to the same array, sorted by relation name. */
  lemma NormalizedOrderInsensitive(a: EagerLoad, b: EagerLoad)
    requires DistinctKeys(a) && DistinctKeys(b)
    requires multiset(a) == multiset(b)
    ensures Normalized(a) == Normalized(b)
    ensures SortedByKey(Normalized(a))
  {
    KSortOrderInsensitive(a, b);
    KSortSorted(a);
  }

  // ---------------------------------------------------------------------
  // Key

  /** `getPrefix`: the model's truthy `$cachePrefix`, else the configured
      prefix (default 'model-cache'); then `:connection:database` when database
      keying is on (default on). */
  function GetPrefix(s: Settings, m: Model): (prefix: string)
    ensures var base := if m.cachePrefix.Some? && Truthy(m.cachePrefix.value) then m.cachePrefix.value
                        else s.cachePrefix.GetOr("model-cache");
      && (s.useDatabaseKeying.GetOr(true) ==> prefix == base + ":" + m.connectionName.GetOr("") + ":" + m.database)
      && (!s.useDatabaseKeying.GetOr(true) ==> prefix == base)
    ensures m.cachePrefix.Some? && Truthy(m.cachePrefix.value) && !s.useDatabaseKeying.GetOr(true) ==>
      prefix == m.cachePrefix.value
    ensures (m.cachePrefix.None? || !Truthy(m.cachePrefix.value)) && s == DefaultSettings() ==>
      prefix == "model-cache:" + m.connectionName.GetOr("") + ":" + m.database
    ensures s.useDatabaseKeying.GetOr(true) ==>
      |prefix| > |m.database| + 1 && prefix[|prefix| - |m.database| - 1..] == ":" + m.database
  {
    var base := if m.cachePrefix.Some? && Truthy(m.cachePrefix.value) then m.cachePrefix.value
                else s.cachePrefix.GetOr("model-cache");
    if s.useDatabaseKeying.GetOr(true) then base + ":" + m.connectionName.GetOr("") + ":" + m.database
    else base
  }

  function KeyComponents(m: Model, q: SqlQuery, columns: seq<string>, eagerLoad: EagerLoad): Components {
    Components(m.cls, m.connectionName, q.sql, q.bindings, columns, Normalized(eagerLoad))
  }

  /** `make`: prefix ':' sha1(serialize(components)). */
  function Make(s: Settings, m: Model, q: SqlQuery, columns: seq<string>, eagerLoad: EagerLoad,
                sha1: Components -> string): (key: string)
    ensures |key| > |GetPrefix(s, m)| && key[..|GetPrefix(s, m)| + 1] == GetPrefix(s, m) + ":"
  {
    GetPrefix(s, m) + ":" + sha1(KeyComponents(m, q, columns, eagerLoad))
  }

  /** With a SHA-1-like hash a key ends in forty hex digits, its digest. */
  lemma MakeEndsWithDigest(s: Settings, m: Model, q: SqlQuery, columns: seq<string>, eagerLoad: EagerLoad,
                           sha1: Components -> string)
    requires DigestShape(sha1)
    ensures var key := Make(s, m, q, columns, eagerLoad, sha1);
      |key| >= 41 && key[|key| - 40..] == sha1(KeyComponents(m, q, columns, eagerLoad))
      && IsLowerHex(key[|key| - 1])
  {
    var d := sha1(KeyComponents(m, q, columns, eagerLoad));
    var key := Make(s, m, q, columns, eagerLoad, sha1);
    assert |d| == 40 && IsLowerHex(d[39]);
    assert key == (GetPrefix(s, m) + ":") + d;
    assert key[|key| - 1] == d[39];
  }

  /** Equal keys come from equal component tuples: changing the class, the
      connection name, the SQL, a binding, the columns or the normalised
      eager load changes the key, whatever the prefix. */
  lemma MakeInjective(sha1: Components -> string,
                      s1: Settings, m1: Model, q1: SqlQuery, cols1: seq<string>, e1: EagerLoad,
                      s2: Settings, m2: Model, q2: SqlQuery, cols2: seq<string>, e2: EagerLoad)
    requires DigestShape(sha1)
    requires NoCollision(sha1, KeyComponents(m1, q1, cols1, e1), KeyComponents(m2, q2, cols2, e2))
    requires m1.cls != m2.cls || m1.connectionName != m2.connectionName || q1 != q2
             || cols1 != cols2 || Normalized(e1) != Normalized(e2)
    ensures Make(s1, m1, q1, cols1, e1, sha1) != Make(s2, m2, q2, cols2, e2, sha1)
  {
    MakeEndsWithDigest(s1, m1, q1, cols1, e1, sha1);
    MakeEndsWithDigest(s2, m2, q2, cols2, e2, sha1);
    var c1 := KeyComponents(m1, q1, cols1, e1);
    var c2 := KeyComponents(m2, q2, cols2, e2);
    assert c1 != c2;
    assert sha1(c1) != sha1(c2);
  }

  /** The key does not depend on the order in which relations were eager-loaded. */
  lemma MakeIgnoresEagerLoadOrder(s: Settings, m: Model, q: SqlQuery, columns: seq<string>,
                                  a: EagerLoad, b: EagerLoad, sha1: Components -> string)
    requires DistinctKeys(a) && DistinctKeys(b) && multiset(a) == multiset(b)
    ensures Make(s, m, q, columns, a, sha1) == Make(s, m, q, columns, b, sha1)
  {
    NormalizedOrderInsensitive(a, b);
  }

  /** The two eager loads list the same relations in the same order, and
      each pair of constraints is equal or both callable. */
  predicate SameUpToClosures(a: EagerLoad, b: EagerLoad) {
    && |a| == |b|
    && forall i :: 0 <= i < |a| ==>
         a[i].0 == b[i].0 && (a[i].1 == b[i].1 || (a[i].1.Closure? && b[i].1.Closure?))
  }

  /** The accepted precision loss: eager loads that differ only in their
      callable constraints share a key. */
  lemma MakeForgetsClosures(s: Settings, m: Model, q: SqlQuery, columns: seq<string>,
                            a: EagerLoad, b: EagerLoad, sha1: Components -> string)
    requires SameUpToClosures(a, b)
    ensures Make(s, m, q, columns, a, sha1) == Make(s, m, q, columns, b, sha1)
  {
    assert NormalizeEach(a) == NormalizeEach(b);
    KSortAlike(a, b);
  }

  /** `ksort` moves entries by their keys alone, so two arrays that agree
      after normalisation still agree after sorting. */
  lemma {:induction false} KSortAlike(a: EagerLoad, b: EagerLoad)
    requires NormalizeEach(a) == NormalizeEach(b)
    ensures NormalizeEach(KSort(a)) == NormalizeEach(KSort(b))
    decreases |a|
  {
    if |a| > 0 {
      assert |a| == |NormalizeEach(a)| == |b|;
      assert NormalizeEach(a)[0] == NormalizeEach(b)[0];
      assert NormalizeEach(a[1..]) == NormalizeEach(a)[1..] == NormalizeEach(b)[1..] == NormalizeEach(b[1..]);
      KSortAlike(a[1..], b[1..]);
      InsertAlike(a[0], b[0], KSort(a[1..]), KSort(b[1..]));
    }
  }

  lemma {:induction false} InsertAlike(e: (string, Constraint), f: (string, Constraint), x: EagerLoad, y: EagerLoad)
    requires e.0 == f.0 && NormalizeConstraint(e.1) == NormalizeConstraint(f.1)
    requires NormalizeEach(x) == NormalizeEach(y)
    ensures NormalizeEach(InsertByKey(e, x)) == NormalizeEach(InsertByKey(f, y))
    decreases |x|
  {
    assert |x| == |NormalizeEach(x)| == |y|;
    if |x| > 0 {
      assert NormalizeEach(x)[0] == NormalizeEach(y)[0];
    }
    if |x| == 0 || !StrLess(x[0].0, e.0) {
      NormalizeEachCons(e, x);
      NormalizeEachCons(f, y);
    } else {
      assert NormalizeEach(x[1..]) == NormalizeEach(x)[1..] == NormalizeEach(y)[1..] == NormalizeEach(y[1..]);
      InsertAlike(e, f, x[1..], y[1..]);
      NormalizeEachCons(x[0], InsertByKey(e, x[1..]));
      NormalizeEachCons(y[0], InsertByKey(f, y[1..]));
    }
  }

  /** Every constraint of the eager load is callable. */
  predicate AllClosures(a: EagerLoad) {
    forall i :: 0 <= i < |a| ==> a[i].1.Closure?
  }

  lemma AllClosuresPermuted(a: EagerLoad, b: EagerLoad)
    requires AllClosures(a) && multiset(a) == multiset(b)
    ensures AllClosures(b)
  {
    forall i | 0 <= i < |b| ensures b[i].1.Closure? {
      assert b[i] in multiset(a);
      var j :| 0 <= j < |a| && a[j] == b[i];
    }
  }

  lemma NormalizeEachCons(x: (string, Constraint), a: EagerLoad)
    ensures NormalizeEach([x] + a) == [(x.0, NormalizeConstraint(x.1))] + NormalizeEach(a)
  {
  }

  /** When all constraints are callable, sorting and normalising commute. */
  lemma {:induction false} NormalizeThenSort(a: EagerLoad)
    requires AllClosures(a)
    ensures Normalized(a) == KSort(NormalizeEach(a))
    decreases |a|
  {
    if |a| > 0 {
      NormalizeThenSort(a[1..]);
      assert a == [a[0]] + a[1..];
      NormalizeEachCons(a[0], a[1..]);
      var rest := KSort(a[1..]);
      AllClosuresPermuted(a[1..], rest);
      NormalizeInsert(a[0], rest);
    }
  }

  lemma {:induction false} NormalizeInsert(e: (string, Constraint), a: EagerLoad)
    requires e.1.Closure? && AllClosures(a)
    ensures NormalizeEach(InsertByKey(e, a)) == InsertByKey((e.0, NoConstraint), NormalizeEach(a))
    decreases |a|
  {
    var n := NormalizeEach(a);
    if |a| == 0 || !StrLess(a[0].0, e.0) {
      assert InsertByKey(e, a) == [e] + a;
      NormalizeEachCons(e, a);
    } else {
      assert a == [a[0]] + a[1..];
      NormalizeEachCons(a[0], a[1..]);
      assert n[0].0 == a[0].0 && n[1..] == NormalizeEach(a[1..]);
      NormalizeInsert(e, a[1..]);
      assert InsertByKey(e, a) == [a[0]] + InsertByKey(e, a[1..]);
      NormalizeEachCons(a[0], InsertByKey(e, a[1..]));
    }
  }

  // ---------------------------------------------------------------------
  // Relations and tags

  /** `getRelation`'s reduce over the segments of a dotted path: each segment
      is a relationship method called on the model reached so far. The result
      is the related model of the last relation; None when a call throws. */
  function ResolvePath(schema: Schema, cursor: Model, segments: seq<string>): Option<Model>
    requires |segments| > 0
    decreases |segments|
  {
    var call := (cursor.cls, segments[0]);
    if call !in schema.relations then None
    else if |segments| == 1 then Some(schema.relations[call])
    else ResolvePath(schema, schema.relations[call], segments[1..])
  }

  /** `getRelation($model, $relationName)->getRelated()` */
  function GetRelation(schema: Schema, m: Model, relationName: string): Option<Model> {
    ResolvePath(schema, m, Split(relationName, '.'))
  }

  /** Resolving a path one part after the other is resolving the whole path. */
  lemma {:induction false} ResolvePathAppend(schema: Schema, cursor: Model, p: seq<string>, q: seq<string>)
    requires |p| > 0 && |q| > 0
    ensures ResolvePath(schema, cursor, p + q) ==
      match ResolvePath(schema, cursor, p)
      case None => None
      case Some(mid) => ResolvePath(schema, mid, q)
    decreases |p|
  {
    var call := (cursor.cls, p[0]);
    assert (p + q)[0] == p[0];
    if call in schema.relations && |p| > 1 {
      assert (p + q)[1..] == p[1..] + q;
      ResolvePathAppend(schema, schema.relations[call], p[1..], q);
    } else if call in schema.relations {
      assert (p + q)[1..] == q;
    }
  }

  lemma {:induction false} SplitAtDelimiter(a: string, b: string, d: char)
    requires d !in a
    ensures Split(a + [d] + b, d) == [a] + Split(b, d)
    decreases |a|
  {
    if |a| > 0 {
      assert (a + [d] + b)[1..] == a[1..] + [d] + b;
      SplitAtDelimiter(a[1..], b, d);
      assert [a[0]] + a[1..] == a;
    } else {
      assert (a + [d] + b)[1..] == b;
    }
  }

  /** A dotted path "a.rest" resolves "rest" from the model "a" leads to. */
  lemma GetRelationDotted(schema: Schema, m: Model, first: string, rest: string)
    requires '.' !in first
    ensures GetRelation(schema, m, first + "." + rest) ==
      match GetRelation(schema, m, first)
      case None => None
      case Some(mid) => GetRelation(schema, mid, rest)
  {
    SplitAtDelimiter(first, rest, '.');
    SplitNoDelimiter(first, '.');
    ResolvePathAppend(schema, m, [first], Split(rest, '.'));
  }

  lemma {:induction false} SplitNoDelimiter(s: string, d: char)
    requires d !in s
    ensures Split(s, d) == [s]
    decreases |s|
  {
    if |s| > 0 {
      SplitNoDelimiter(s[1..], d);
      assert [s[0]] + s[1..] == s;
    }
  }

  /** The tables `makeTags` collects from the eager-load keys, in key order:
      one per key whose relation resolves, none for a key that throws. */
  function ResolvedTables(schema: Schema, m: Model, eagerLoad: EagerLoad): seq<string>
    decreases |eagerLoad|
  {
    if |eagerLoad| == 0 then []
    else
      ResolvedTables(schema, m, eagerLoad[..|eagerLoad| - 1])
      + match GetRelation(schema, m, eagerLoad[|eagerLoad| - 1].0)
        case None => []
        case Some(related) => [related.table]
  }

  /** What `makeTags` returns. */
  function Tags(schema: Schema, m: Model, eagerLoad: EagerLoad): seq<string> {
    Unique([m.table] + ResolvedTables(schema, m, eagerLoad))
  }

  /** `makeTags`: the model's table, then the related table of each eager-load
      key whose relation resolves (a key that throws is skipped), deduplicated. */
  method MakeTags(schema: Schema, m: Model, eagerLoad: EagerLoad) returns (tags: seq<string>)
    ensures tags == Tags(schema, m, eagerLoad)
  {
    var collected := [m.table];
    if |eagerLoad| > 0 {
      for i := 0 to |eagerLoad|
        invariant collected == [m.table] + ResolvedTables(schema, m, eagerLoad[..i])
      {
        assert eagerLoad[..i + 1][..i] == eagerLoad[..i];
        var relation := GetRelation(schema, m, eagerLoad[i].0);
        if relation.Some? {
          collected := collected + [relation.value.table];
        }
      }
      assert eagerLoad[..|eagerLoad|] == eagerLoad;
    }
    tags := Unique(collected);
  }

  /** The model's own table comes first, no tag repeats, and with no eager
      loads the tags are exactly the model's table. */
  lemma TagsShape(schema: Schema, m: Model, eagerLoad: EagerLoad)
    ensures |Tags(schema, m, eagerLoad)| > 0 && Tags(schema, m, eagerLoad)[0] == m.table
    ensures NoDuplicates(Tags(schema, m, eagerLoad))
    ensures eagerLoad == [] ==> Tags(schema, m, eagerLoad) == [m.table]
  {
    if eagerLoad == [] {
      UniqueOfNoDuplicates([m.table]);
    }
  }

  /** The related table of eager-load entry `i`, when its relation resolves. */
  predicate ResolvesTo(schema: Schema, m: Model, eagerLoad: EagerLoad, i: int, t: string)
    requires 0 <= i < |eagerLoad|
  {
    GetRelation(schema, m, eagerLoad[i].0).Some? && GetRelation(schema, m, eagerLoad[i].0).value.table == t
  }

  lemma {:induction false} ResolvedTablesMembers(schema: Schema, m: Model, eagerLoad: EagerLoad, t: string)
    ensures t in ResolvedTables(schema, m, eagerLoad) <==>
      exists i :: 0 <= i < |eagerLoad| && ResolvesTo(schema, m, eagerLoad, i, t)
    decreases |eagerLoad|
  {
    if |eagerLoad| > 0 {
      var init := eagerLoad[..|eagerLoad| - 1];
      var last := |eagerLoad| - 1;
      ResolvedTablesMembers(schema, m, init, t);
      forall i | 0 <= i < |init| ensures ResolvesTo(schema, m, init, i, t) == ResolvesTo(schema, m, eagerLoad, i, t) {
        assert init[i] == eagerLoad[i];
      }
      if t in ResolvedTables(schema, m, eagerLoad) && t !in ResolvedTables(schema, m, init) {
        assert ResolvesTo(schema, m, eagerLoad, last, t);
      }
    }
  }

  /** A table is a tag exactly when it is the model's own table or the
      related table of some eager-load key that resolves. */
  lemma TagsMembers(schema: Schema, m: Model, eagerLoad: EagerLoad, t: string)
    ensures t in Tags(schema, m, eagerLoad) <==>
      t == m.table || exists i :: 0 <= i < |eagerLoad| && ResolvesTo(schema, m, eagerLoad, i, t)
  {
    ResolvedTablesMembers(schema, m, eagerLoad, t);
  }

  lemma {:induction false} ResolvedTablesConcat(schema: Schema, m: Model, a: EagerLoad, b: EagerLoad)
    ensures ResolvedTables(schema, m, a + b) == ResolvedTables(schema, m, a) + ResolvedTables(schema, m, b)
    decreases |b|
  {
    if |b| == 0 {
      assert a + b == a;
    } else {
      assert (a + b)[..|a + b| - 1] == a + b[..|b| - 1];
      ResolvedTablesConcat(schema, m, a, b[..|b| - 1]);
    }
  }

  /** A relation that fails to resolve is skipped without trace: the tags are
      those of the eager load without it. */
  lemma FailedRelationSkipped(schema: Schema, m: Model, eagerLoad: EagerLoad, i: nat)
    requires i < |eagerLoad| && GetRelation(schema, m, eagerLoad[i].0).None?
    ensures Tags(schema, m, eagerLoad) == Tags(schema, m, eagerLoad[..i] + eagerLoad[i + 1..])
  {
    var pre, x, post := eagerLoad[..i], [eagerLoad[i]], eagerLoad[i + 1..];
    assert eagerLoad == (pre + x) + post;
    ResolvedTablesConcat(schema, m, pre + x, post);
    ResolvedTablesConcat(schema, m, pre, x);
    ResolvedTablesConcat(schema, m, pre, post);
    assert ResolvedTables(schema, m, x) == [] by {
      assert x[..0] == [];
    }
    assert ResolvedTables(schema, m, eagerLoad) == ResolvedTables(schema, m, pre + post);
  }
}
