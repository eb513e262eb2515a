/** src/Traits/CachePrefixing.php: the tag prefix of the older tag builder.
    The composition is pure and lives here; the memo field `cachedPrefix`
    belongs to the class that uses the trait (`CacheTags.CacheTags`). */
module CachePrefixing {
  import opened Wrappers
  import opened Strings
  import opened Domain

  const Root: string := "nehal:model-caching"

  /** `collect($parts)->filter()`: the truthy strings, in order. */
  function KeepTruthy(parts: seq<Option<string>>): (kept: seq<string>)
    ensures forall i :: 0 <= i < |kept| ==> Truthy(kept[i])
    ensures forall x :: x in kept <==> Some(x) in parts && Truthy(x)
    ensures |kept| <= |parts|
  {
    if |parts| == 0 then []
    else
      var rest := KeepTruthy(parts[1..]);
      assert parts == [parts[0]] + parts[1..];
      if parts[0].Some? && Truthy(parts[0].value) then [parts[0].value] + rest else rest
  }

  lemma KeepTruthyCons(x: Option<string>, rest: seq<Option<string>>)
    ensures KeepTruthy([x] + rest)
         == (if x.Some? && Truthy(x.value) then [x.value] else []) + KeepTruthy(rest)
  {
    assert ([x] + rest)[1..] == rest;
  }

  lemma JoinPair(a: string, b: string, sep: string)
    ensures Join([a, b], sep) == a + sep + b
  {
    assert [a, b][1..] == [b];
  }

  /** `getDatabasePrefix`: null unless database keying is on (off when the
      key is absent); else the truthy ones of connection name and database
      name, joined by ':'. */
  function DatabasePrefix(s: Settings, m: Model): (prefix: Option<string>)
    ensures !s.useDatabaseKeying.GetOr(false) <==> prefix.None?
    ensures prefix.Some? && Truthy(m.connection) && Truthy(m.database) ==>
      prefix.value == m.connection + ":" + m.database
    ensures prefix.Some? && Truthy(m.connection) && !Truthy(m.database) ==> prefix.value == m.connection
    ensures prefix.Some? && !Truthy(m.connection) && Truthy(m.database) ==> prefix.value == m.database
    ensures prefix.Some? && !Truthy(m.connection) && !Truthy(m.database) ==> prefix.value == ""
  {
    if !s.useDatabaseKeying.GetOr(false) then None
    else
      var parts := [Some(m.connection), Some(m.database)];
      KeepTruthyCons(Some(m.connection), [Some(m.database)]);
      KeepTruthyCons(Some(m.database), []);
      assert [Some(m.connection)] + [Some(m.database)] == parts;
      assert [Some(m.database)] + [] == [Some(m.database)];
      assert Truthy(m.connection) && Truthy(m.database) ==> KeepTruthy(parts) == [m.connection, m.database];
      JoinPair(m.connection, m.database, ":");
      Some(Join(KeepTruthy(parts), ":"))
  }

  /** `getConfigPrefix`: `config('model-caching.cache-prefix')`, null when absent. */
  function ConfigPrefix(s: Settings): Option<string> {
    s.cachePrefix
  }

  /** `getModelPrefix`: the model's `$cachePrefix` property; null when the
      model does not declare it. */
  function ModelPrefix(m: Model): Option<string> {
    m.cachePrefix
  }

  /** The segments after the root that survive the filter. */
  function Segments(s: Settings, m: Model): seq<string> {
    KeepTruthy([DatabasePrefix(s, m), ConfigPrefix(s), ModelPrefix(m)])
  }

  /** What `getCachePrefix` computes: the truthy parts joined by ':', with a
      trailing ':'. */
  function ComposePrefix(s: Settings, m: Model): string {
    Join(KeepTruthy([Some(Root), DatabasePrefix(s, m), ConfigPrefix(s), ModelPrefix(m)]), ":") + ":"
  }

  /** Each segment followed by ':' — a reference reading of the prefix. */
  function Terminated(parts: seq<string>): string {
    if |parts| == 0 then "" else parts[0] + ":" + Terminated(parts[1..])
  }

  lemma {:induction false} JoinTerminated(parts: seq<string>)
    requires |parts| > 0
    ensures Join(parts, ":") + ":" == Terminated(parts)
    decreases |parts|
  {
    if |parts| > 1 {
      JoinTerminated(parts[1..]);
      assert Join(parts, ":") + ":" == parts[0] + ":" + (Join(parts[1..], ":") + ":");
    }
  }

  /** The prefix is the root and then every truthy segment, each closed by
      ':'; so it starts with the root, ends with ':', and an absent or empty
      segment leaves no empty segment behind. */
  lemma PrefixShape(s: Settings, m: Model)
    ensures ComposePrefix(s, m) == Root + ":" + Terminated(Segments(s, m))
    ensures |ComposePrefix(s, m)| > |Root| && ComposePrefix(s, m)[..|Root|] == Root
    ensures ComposePrefix(s, m)[|ComposePrefix(s, m)| - 1] == ':'
    ensures forall x :: x in Segments(s, m) ==> x != ""
  {
    var parts := KeepTruthy([Some(Root), DatabasePrefix(s, m), ConfigPrefix(s), ModelPrefix(m)]);
    assert [Some(Root), DatabasePrefix(s, m), ConfigPrefix(s), ModelPrefix(m)][1..]
        == [DatabasePrefix(s, m), ConfigPrefix(s), ModelPrefix(m)];
    assert parts == [Root] + Segments(s, m);
    JoinTerminated(parts);
    assert parts[1..] == Segments(s, m);
  }

  /** With the shipped configuration and no model prefix, the segments after
      the root are `connection:database`, then 'model-cache'. */
  lemma DefaultSegments(m: Model)
    requires Truthy(m.connection) && Truthy(m.database) && m.cachePrefix.None?
    ensures Segments(DefaultSettings(), m) == [m.connection + ":" + m.database, "model-cache"]
  {
    var db := m.connection + ":" + m.database;
    assert DatabasePrefix(DefaultSettings(), m) == Some(db);
    var none: Option<string> := None;
    KeepTruthyCons(none, []);
    assert [none] + [] == [none];
    KeepTruthyCons(Some("model-cache"), [none]);
    assert [Some("model-cache")] + [none] == [Some("model-cache"), none];
    KeepTruthyCons(Some(db), [Some("model-cache"), none]);
    assert [Some(db)] + [Some("model-cache"), none] == [Some(db), Some("model-cache"), none];
  }

  /** With keying off and no truthy config or model prefix, nothing follows
      the root: absent or empty segments leave no trace. */
  lemma BarePrefix(s: Settings, m: Model)
    requires !s.useDatabaseKeying.GetOr(false)
    requires ConfigPrefix(s).None? || !Truthy(ConfigPrefix(s).value)
    requires ModelPrefix(m).None? || !Truthy(ModelPrefix(m).value)
    ensures ComposePrefix(s, m) == Root + ":"
  {
    PrefixShape(s, m);
    assert Segments(s, m) == [];
  }

  /** When 'use-database-keying' is absent the two prefix schemes disagree:
      this trait defaults to off, the key generator's `getPrefix` to on. */
  lemma DatabaseKeyingDefaultsDiffer(s: Settings, m: Model)
    requires s.useDatabaseKeying.None?
    ensures DatabasePrefix(s, m).None?
    ensures s.useDatabaseKeying.GetOr(true)
  {
  }
}
