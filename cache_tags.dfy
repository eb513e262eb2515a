/** src/CacheTags.php: the older tag builder, which names tags after model
    classes under the `CachePrefixing` prefix and memoises both the prefix
    and the tag list. `Str::slug` is a parameter; the lemmas that need it to
    behave like a slug ask for `SlugLike`. */
module CacheTags {
  import opened Wrappers
  import opened Strings
  import opened PhpArrays
  import opened Domain
  import opened QueryCacheKeyGenerator
  import opened CachePrefixing

  predicate SlugChar(ch: char) {
    'a' <= ch <= 'z' || '0' <= ch <= '9' || ch == '-'
  }

  /** What the tag code relies on from `Str::slug`: lower-case letters,
      digits and dashes only, and no collisions. */
  ghost predicate SlugLike(slug: string -> string) {
    && (forall x, i :: 0 <= i < |slug(x)| ==> SlugChar(slug(x)[i]))
    && (forall x, y :: slug(x) == slug(y) ==> x == y)
  }

  /** The related class of each eager-load key, in key order; None when the
      relation of some key throws. */
  function RelatedClasses(schema: Schema, m: Model, eagerLoad: EagerLoad): (classes: Option<seq<string>>)
    ensures classes.Some? <==> forall i :: 0 <= i < |eagerLoad| ==> GetRelation(schema, m, eagerLoad[i].0).Some?
    ensures classes.Some? ==> |classes.value| == |eagerLoad|
    ensures classes.Some? ==>
      forall i :: 0 <= i < |eagerLoad| ==> classes.value[i] == GetRelation(schema, m, eagerLoad[i].0).value.cls
    decreases |eagerLoad|
  {
    if |eagerLoad| == 0 then Some([])
    else
      var init := eagerLoad[..|eagerLoad| - 1];
      assert forall i :: 0 <= i < |init| ==> init[i] == eagerLoad[i];
      var previous := RelatedClasses(schema, m, init);
      var relation := GetRelation(schema, m, eagerLoad[|eagerLoad| - 1].0);
      if previous.None? || relation.None? then None
      else Some(previous.value + [relation.value.cls])
  }

  /** One tag per class: the prefix and the class's slug. */
  function ClassTags(prefix: string, slug: string -> string, classes: seq<string>): (tags: seq<string>)
    ensures |tags| == |classes|
    ensures forall i :: 0 <= i < |classes| ==> tags[i] == prefix + slug(classes[i])
  {
    seq(|classes|, i requires 0 <= i < |classes| => prefix + slug(classes[i]))
  }

  /** One more eager-load key: its related class is appended, or the whole
      resolution fails. */
  lemma RelatedClassesStep(schema: Schema, m: Model, eagerLoad: EagerLoad, i: nat)
    requires i < |eagerLoad|
    ensures RelatedClasses(schema, m, eagerLoad[..i + 1]) ==
      var previous := RelatedClasses(schema, m, eagerLoad[..i]);
      var relation := GetRelation(schema, m, eagerLoad[i].0);
      if previous.None? || relation.None? then None else Some(previous.value + [relation.value.cls])
  {
    assert eagerLoad[..i + 1][..i] == eagerLoad[..i];
  }

  lemma ClassTagsStep(prefix: string, slug: string -> string, classes: seq<string>, c: string)
    ensures ClassTags(prefix, slug, classes + [c]) == ClassTags(prefix, slug, classes) + [prefix + slug(c)]
  {
  }

  /** The tag list `make` builds from the related classes: the model's tag,
      then one per class, the first occurrence of each kept. */
  function TagList(prefix: string, slug: string -> string, m: Model, classes: seq<string>): (tags: seq<string>)
    ensures |tags| > 0 && tags[0] == prefix + slug(m.cls)
    ensures NoDuplicates(tags)
    ensures forall t :: t in tags <==>
      t == prefix + slug(m.cls) || exists i :: 0 <= i < |classes| && t == prefix + slug(classes[i])
  {
    var all := [prefix + slug(m.cls)] + ClassTags(prefix, slug, classes);
    assert forall t :: t in all <==>
      t == prefix + slug(m.cls) || exists i :: 0 <= i < |classes| && t == prefix + slug(classes[i])
    by {
      forall t | t in all && t != prefix + slug(m.cls)
        ensures exists i :: 0 <= i < |classes| && t == prefix + slug(classes[i])
      {
        var j :| 0 <= j < |all| && all[j] == t;
        assert t == prefix + slug(classes[j - 1]);
      }
      forall i | 0 <= i < |classes| ensures prefix + slug(classes[i]) in all {
        assert all[i + 1] == prefix + slug(classes[i]);
      }
    }
    Unique(all)
  }

  /** With a slug that never collides and a fixed prefix, distinct classes
      get distinct tags. */
  lemma ClassTagsDistinguish(prefix: string, slug: string -> string, c1: string, c2: string)
    requires SlugLike(slug)
    requires prefix + slug(c1) == prefix + slug(c2)
    ensures c1 == c2
  {
    assert slug(c1) == (prefix + slug(c1))[|prefix|..] == (prefix + slug(c2))[|prefix|..] == slug(c2);
  }

  /** The interpolated primary key; null concatenates as the empty string. */
  function KeyText(key: Option<int>): (text: string)
    ensures key.None? <==> text == ""
    ensures ':' !in text
  {
    if key.Some? then IntToString(key.value) else ""
  }

  /** What `getCacheKey` returns for a prefix. */
  function ModelKey(prefix: string, slug: string -> string, m: Model): string {
    prefix + slug(m.cls) + ":" + KeyText(m.key)
  }

  /** Two model instances share a key only when they have the same class
      and the same primary key. */
  lemma ModelKeyInjective(prefix: string, slug: string -> string, m1: Model, m2: Model)
    requires SlugLike(slug)
    requires ModelKey(prefix, slug, m1) == ModelKey(prefix, slug, m2)
    ensures m1.cls == m2.cls && m1.key == m2.key
  {
    var s1, s2 := slug(m1.cls), slug(m2.cls);
    var k1, k2 := KeyText(m1.key), KeyText(m2.key);
    assert ':' !in s1 && ':' !in s2 by {
      assert !SlugChar(':');
    }
    assert ModelKey(prefix, slug, m1) == prefix + (s1 + ":" + k1);
    assert ModelKey(prefix, slug, m2) == prefix + (s2 + ":" + k2);
    assert s1 + ":" + k1 == ModelKey(prefix, slug, m1)[|prefix|..] == s2 + ":" + k2;
    SplitAtFirst(s1, k1, s2, k2, ':');
    if m1.key.Some? && m2.key.Some? {
      IntToStringInjective(m1.key.value, m2.key.value);
    }
  }

  class CacheTags {
    const eagerLoad: EagerLoad
    const model: Model
    const config: Config
    const schema: Schema
    const slug: string -> string
    var cachedTags: Option<seq<string>>
    /** The `CachePrefixing` memo. */
    var cachedPrefix: Option<string>

    constructor (eagerLoad: EagerLoad, model: Model, config: Config, schema: Schema, slug: string -> string)
      ensures this.eagerLoad == eagerLoad && this.model == model && this.config == config
      ensures this.schema == schema && this.slug == slug
      ensures cachedTags == None && cachedPrefix == None
    {
      this.eagerLoad := eagerLoad;
      this.model := model;
      this.config := config;
      this.schema := schema;
      this.slug := slug;
      cachedTags := None;
      cachedPrefix := None;
    }

    /** The prefix the next `getCachePrefix` returns: the memo when set,
        else a fresh composition. */
    function EffectivePrefix(): string
      reads this, config
    {
      if cachedPrefix.Some? then cachedPrefix.value else ComposePrefix(config.settings, model)
    }

    /** The memo agrees with the current configuration. */
    predicate PrefixCurrent()
      reads this, config
    {
      cachedPrefix.None? || cachedPrefix.value == ComposePrefix(config.settings, model)
    }

    /** `getCachePrefix`: the memo when set; otherwise compose and memoise. */
    method GetCachePrefix() returns (prefix: string)
      modifies this`cachedPrefix
      ensures prefix == old(EffectivePrefix()) && cachedPrefix == Some(prefix)
      ensures old(PrefixCurrent()) ==> PrefixCurrent() && prefix == ComposePrefix(config.settings, model)
    {
      if cachedPrefix.Some? {
        return cachedPrefix.value;
      }
      var prefix' := ComposePrefix(config.settings, model);
      cachedPrefix := Some(prefix');
      prefix := prefix';
    }

    /** `clearCachePrefix`: the next call recomputes. */
    method ClearCachePrefix()
      modifies this`cachedPrefix
      ensures cachedPrefix == None && PrefixCurrent()
      ensures EffectivePrefix() == ComposePrefix(config.settings, model)
    {
      cachedPrefix := None;
    }

    /** `getRelationTag`: the relation is resolved first, so one that throws
        leaves the prefix memo alone. */
    method GetRelationTag(relationName: string) returns (tag: Option<string>)
      modifies this`cachedPrefix
      ensures GetRelation(schema, model, relationName).None? ==> tag.None? && cachedPrefix == old(cachedPrefix)
      ensures GetRelation(schema, model, relationName).Some? ==>
        tag == Some(old(EffectivePrefix()) + slug(GetRelation(schema, model, relationName).value.cls))
        && cachedPrefix == Some(old(EffectivePrefix()))
    {
      var relation := GetRelation(schema, model, relationName);
      if relation.None? {
        return None;
      }
      var prefix := GetCachePrefix();
      tag := Some(prefix + slug(relation.value.cls));
    }

    /** `getModelTag` */
    method GetModelTag() returns (tag: string)
      modifies this`cachedPrefix
      ensures tag == old(EffectivePrefix()) + slug(model.cls) && cachedPrefix == Some(old(EffectivePrefix()))
    {
      var prefix := GetCachePrefix();
      tag := prefix + slug(model.cls);
    }

    /** The tags `make` computes from the current state; None when it raises. */
    function ExpectedTags(): Option<seq<string>>
      reads this, config
    {
      var classes := RelatedClasses(schema, model, eagerLoad);
      if classes.None? then None else Some(TagList(EffectivePrefix(), slug, model, classes.value))
    }

    /** `make`: the memoised list when there is one; otherwise one tag per
        eager-load key in key order (a relation that throws makes `make`
        raise, reported as None, and nothing is memoised), the model's tag
        in front, repeats dropped, and the result memoised. */
    method Make() returns (tags: Option<seq<string>>)
      modifies this`cachedTags, this`cachedPrefix
      ensures old(cachedTags).Some? ==>
        tags == old(cachedTags) && cachedTags == old(cachedTags) && cachedPrefix == old(cachedPrefix)
      ensures old(cachedTags).None? ==> tags == old(ExpectedTags()) && cachedTags == tags
      ensures old(cachedTags).None? ==> EffectivePrefix() == old(EffectivePrefix())
    {
      if cachedTags.Some? {
        return cachedTags;
      }
      ghost var prefix := EffectivePrefix();
      var relationTags: seq<string> := [];
      for i := 0 to |eagerLoad|
        invariant cachedTags == None
        invariant EffectivePrefix() == prefix
        invariant RelatedClasses(schema, model, eagerLoad[..i]).Some?
        invariant relationTags == ClassTags(prefix, slug, RelatedClasses(schema, model, eagerLoad[..i]).value)
      {
        RelatedClassesStep(schema, model, eagerLoad, i);
        ghost var classes := RelatedClasses(schema, model, eagerLoad[..i]).value;
        var tag := GetRelationTag(eagerLoad[i].0);
        if tag.None? {
          assert !GetRelation(schema, model, eagerLoad[i].0).Some?;
          return None;
        }
        ClassTagsStep(prefix, slug, classes, GetRelation(schema, model, eagerLoad[i].0).value.cls);
        relationTags := relationTags + [tag.value];
      }
      assert eagerLoad[..|eagerLoad|] == eagerLoad;
      var modelTag := GetModelTag();
      tags := Some(Unique([modelTag] + relationTags));
      cachedTags := tags;
    }

    /** `getCacheTags`: `make`. */
    method GetCacheTags() returns (tags: Option<seq<string>>)
      modifies this`cachedTags, this`cachedPrefix
      ensures old(cachedTags).Some? ==> tags == old(cachedTags) && cachedTags == old(cachedTags)
      ensures old(cachedTags).None? ==> tags == old(ExpectedTags()) && cachedTags == tags
    {
      tags := Make();
    }

    /** `getCacheKey`: prefix, the class's slug, ':' and the primary key. */
    method GetCacheKey() returns (key: string)
      modifies this`cachedPrefix
      ensures key == ModelKey(old(EffectivePrefix()), slug, model)
      ensures cachedPrefix == Some(old(EffectivePrefix()))
    {
      var prefix := GetCachePrefix();
      key := prefix + slug(model.cls) + ":" + KeyText(model.key);
    }

    /** `getCacheDuration`: the configured duration, 3600 when absent. */
    function GetCacheDuration(): (seconds: int)
      reads config
      ensures config.settings.cacheDuration.Some? ==> seconds == config.settings.cacheDuration.value
      ensures config.settings.cacheDuration.None? ==> seconds == 3600
    {
      config.settings.cacheDuration.GetOr(3600)
    }
  }
}
