/** The two PHP array functions the key and tag code relies on: `ksort`
    (sort an associative array by key) and `array_unique` (drop repeated
    values, keeping the first). A PHP associative array is modelled as a
    sequence of (key, value) pairs in insertion order. */
module PhpArrays {
  import opened Strings

  function Keys<V>(a: seq<(string, V)>): set<string> {
    set i | 0 <= i < |a| :: a[i].0
  }

  lemma KeysConcat<V>(a: seq<(string, V)>, b: seq<(string, V)>)
    ensures Keys(a + b) == Keys(a) + Keys(b)
  {
    forall k | k in Keys(a + b) ensures k in Keys(a) + Keys(b) {
      var i :| 0 <= i < |a + b| && (a + b)[i].0 == k;
      if i >= |a| {
        assert b[i - |a|].0 == k;
      }
    }
    forall k | k in Keys(a) ensures k in Keys(a + b) {
      var i :| 0 <= i < |a| && a[i].0 == k;
      assert (a + b)[i].0 == k;
    }
    forall k | k in Keys(b) ensures k in Keys(a + b) {
      var i :| 0 <= i < |b| && b[i].0 == k;
      assert (a + b)[|a| + i].0 == k;
    }
  }

  /** PHP arrays never repeat a key. */
  predicate DistinctKeys<V>(a: seq<(string, V)>) {
    forall i, j :: 0 <= i < j < |a| ==> a[i].0 != a[j].0
  }

  /** Keys in strictly increasing byte-wise order. */
  predicate SortedByKey<V>(a: seq<(string, V)>) {
    forall i, j :: 0 <= i < j < |a| ==> StrLess(a[i].0, a[j].0)
  }

  /** Insert one pair before the first pair whose key does not sort below it. */
  function InsertByKey<V>(e: (string, V), a: seq<(string, V)>): (r: seq<(string, V)>)
    ensures multiset(r) == multiset(a) + multiset{e}
    ensures Keys(r) == Keys(a) + {e.0}
    decreases |a|
  {
    if |a| == 0 || !StrLess(a[0].0, e.0) then
      KeysConcat([e], a);
      [e] + a
    else
      var rest := InsertByKey(e, a[1..]);
      assert a == [a[0]] + a[1..];
      KeysConcat([a[0]], rest);
      KeysConcat([a[0]], a[1..]);
      [a[0]] + rest
  }

  /** `ksort($a)`: the same pairs, ordered by key. */
  function KSort<V>(a: seq<(string, V)>): (r: seq<(string, V)>)
    ensures multiset(r) == multiset(a)
    ensures Keys(r) == Keys(a)
    decreases |a|
  {
    if |a| == 0 then []
    else
      assert a == [a[0]] + a[1..];
      KeysConcat([a[0]], a[1..]);
      InsertByKey(a[0], KSort(a[1..]))
  }

  lemma {:induction false} InsertKeepsSorted<V>(e: (string, V), a: seq<(string, V)>)
    requires SortedByKey(a) && e.0 !in Keys(a)
    ensures SortedByKey(InsertByKey(e, a))
    decreases |a|
  {
    if |a| == 0 {
    } else if !StrLess(a[0].0, e.0) {
      assert a[0].0 != e.0;
      StrLessTotal(a[0].0, e.0);
      forall j | 0 < j < |a| ensures StrLess(e.0, a[j].0) {
        StrLessTransitive(e.0, a[0].0, a[j].0);
      }
    } else {
      assert a == [a[0]] + a[1..];
      KeysConcat([a[0]], a[1..]);
      InsertKeepsSorted(e, a[1..]);
      var r := InsertByKey(e, a);
      var rest := InsertByKey(e, a[1..]);
      assert r == [a[0]] + rest;
      forall j | 0 < j < |r| ensures StrLess(a[0].0, r[j].0) {
        assert r[j] in multiset(rest);
        assert r[j] in multiset(a[1..]) + multiset{e};
        if r[j] != e {
          assert r[j] in a[1..];
        }
      }
    }
  }

  /** `ksort` puts the keys of a PHP array in strictly increasing order. */
  lemma {:induction false} KSortSorted<V>(a: seq<(string, V)>)
    requires DistinctKeys(a)
    ensures SortedByKey(KSort(a))
    decreases |a|
  {
    if |a| > 0 {
      KSortSorted(a[1..]);
      assert a[0].0 !in Keys(a[1..]);
      InsertKeepsSorted(a[0], KSort(a[1..]));
    }
  }

  lemma SortedTail<V>(a: seq<(string, V)>)
    requires SortedByKey(a) && |a| > 0
    ensures SortedByKey(a[1..])
  {
    forall x, y | 0 <= x < y < |a| - 1 ensures StrLess(a[1..][x].0, a[1..][y].0) {
      assert a[1..][x] == a[x + 1] && a[1..][y] == a[y + 1];
    }
  }

  /** Two strictly sorted arrays holding the same pairs start with the same pair. */
  lemma SortedHeads<V>(a: seq<(string, V)>, b: seq<(string, V)>)
    requires SortedByKey(a) && SortedByKey(b)
    requires multiset(a) == multiset(b) && |a| > 0
    ensures |b| > 0 && a[0] == b[0]
  {
    assert a[0] in multiset(b);
    assert b[0] in multiset(a);
    var i :| 0 <= i < |b| && b[i] == a[0];
    var j :| 0 <= j < |a| && a[j] == b[0];
    assert i > 0 ==> StrLess(b[0].0, b[i].0);
    assert j > 0 ==> StrLess(a[0].0, a[j].0);
    StrLessAsymmetric(a[0].0, b[0].0);
    StrLessIrreflexive(a[0].0);
  }

  lemma MultisetTails<V>(a: seq<(string, V)>, b: seq<(string, V)>)
    requires multiset(a) == multiset(b) && |a| > 0 && |b| > 0 && a[0] == b[0]
    ensures multiset(a[1..]) == multiset(b[1..])
  {
    assert a == [a[0]] + a[1..] && b == [b[0]] + b[1..];
    assert multiset(a) == multiset{a[0]} + multiset(a[1..]);
    assert multiset(b) == multiset{b[0]} + multiset(b[1..]);
    assert multiset(a[1..]) == multiset(a) - multiset{a[0]};
    assert multiset(b[1..]) == multiset(b) - multiset{b[0]};
  }

  /** A strictly sorted array is determined by the multiset of its pairs. */
  lemma {:induction false} SortedUnique<V>(a: seq<(string, V)>, b: seq<(string, V)>)
    requires SortedByKey(a) && SortedByKey(b)
    requires multiset(a) == multiset(b)
    ensures a == b
    decreases |a|
  {
    if |a| == 0 {
      assert |b| == |multiset(b)| == |multiset(a)| == 0;
    } else {
      SortedHeads(a, b);
      MultisetTails(a, b);
      SortedTail(a);
      SortedTail(b);
      SortedUnique(a[1..], b[1..]);
      assert a == [a[0]] + a[1..] && b == [b[0]] + b[1..];
    }
  }

  /** `ksort` ignores insertion order: two PHP arrays holding the same pairs
      sort to the same array. */
  lemma KSortOrderInsensitive<V>(a: seq<(string, V)>, b: seq<(string, V)>)
    requires DistinctKeys(a) && DistinctKeys(b)
    requires multiset(a) == multiset(b)
    ensures KSort(a) == KSort(b)
  {
    KSortSorted(a);
    KSortSorted(b);
    SortedUnique(KSort(a), KSort(b));
  }

  predicate NoDuplicates(s: seq<string>) {
    forall i, j :: 0 <= i < j < |s| ==> s[i] != s[j]
  }

  /** `array_unique($a)` read as a list: the first occurrence of every
      value, in order (`UniqueKeepsFirstOccurrenceOrder`). */
  function Unique(s: seq<string>): (r: seq<string>)
    ensures forall x :: x in r <==> x in s
    ensures NoDuplicates(r)
    ensures |s| > 0 ==> |r| > 0 && r[0] == s[0]
    decreases |s|
  {
    if |s| == 0 then []
    else
      var d := Unique(s[..|s| - 1]);
      assert s == s[..|s| - 1] + [s[|s| - 1]];
      if s[|s| - 1] in d then d else d + [s[|s| - 1]]
  }

  /** The position of the first occurrence of `x` in `s`. */
  function FirstIndex(s: seq<string>, x: string): (k: nat)
    requires x in s
    ensures k < |s| && s[k] == x && x !in s[..k]
  {
    if s[0] == x then 0
    else
      assert s == [s[0]] + s[1..];
      var k := 1 + FirstIndex(s[1..], x);
      assert s[..k] == [s[0]] + s[1..][..k - 1];
      k
  }

  lemma FirstIndexPrefix(s: seq<string>, n: nat, x: string)
    requires n <= |s| && x in s[..n]
    ensures FirstIndex(s, x) == FirstIndex(s[..n], x)
  {
    var k, j := FirstIndex(s, x), FirstIndex(s[..n], x);
    assert s[..n][..j] == s[..j] && s[j] == x;
    assert s[..k] == s[..n][..k];
  }

  /** `array_unique` keeps the first occurrences in the order they appear. */
  lemma {:induction false} UniqueKeepsFirstOccurrenceOrder(s: seq<string>)
    ensures forall i, j :: 0 <= i < j < |Unique(s)| ==>
      FirstIndex(s, Unique(s)[i]) < FirstIndex(s, Unique(s)[j])
    decreases |s|
  {
    if |s| > 0 {
      var init := s[..|s| - 1];
      var d := Unique(init);
      UniqueKeepsFirstOccurrenceOrder(init);
      forall x | x in d ensures FirstIndex(s, x) == FirstIndex(init, x) < |s| - 1 {
        FirstIndexPrefix(s, |s| - 1, x);
      }
      if s[|s| - 1] !in d {
        assert s[|s| - 1] !in init;
        assert FirstIndex(s, s[|s| - 1]) == |s| - 1;
        var r := d + [s[|s| - 1]];
        forall i, j | 0 <= i < j < |r| ensures FirstIndex(s, r[i]) < FirstIndex(s, r[j]) {
          assert r[i] in d;
          if j < |d| {
            assert r[i] == d[i] && r[j] == d[j];
          }
        }
      }
    }
  }

  /** `array_unique` leaves a list without repeats as it is. */
  lemma {:induction false} UniqueOfNoDuplicates(s: seq<string>)
    requires NoDuplicates(s)
    ensures Unique(s) == s
    decreases |s|
  {
    if |s| > 0 {
      UniqueOfNoDuplicates(s[..|s| - 1]);
      assert s[|s| - 1] !in s[..|s| - 1];
      assert s == s[..|s| - 1] + [s[|s| - 1]];
    }
  }
}
