// Kotlin's `mutableMapOf()` and `mutableSetOf()` are LinkedHashMap and
// LinkedHashSet: they remember insertion order, and re-inserting a present
// key keeps its original place. Queue members are drawn in that order, and
// the loader's set of object ids is iterated in it. Entries are kept as a
// sequence of (key, value) pairs with distinct keys.

module LinkedMaps {
  import opened Common

  function Keys<K, V>(m: seq<(K, V)>): (ks: seq<K>)
    ensures |ks| == |m|
    ensures forall i :: 0 <= i < |m| ==> ks[i] == m[i].0
  {
    if |m| == 0 then [] else [m[0].0] + Keys(m[1..])
  }

  predicate Valid<K(==), V>(m: seq<(K, V)>)
  {
    NoDuplicates(Keys(m))
  }

  /** The value stored under `k`, if any. */
  function Get<K(==), V>(m: seq<(K, V)>, k: K): (r: Option<V>)
    ensures r.None? <==> k !in Keys(m)
    ensures r.Some? ==> exists i :: 0 <= i < |m| && m[i] == (k, r.value)
  {
    if |m| == 0 then None
    else if m[0].0 == k then Some(m[0].1)
    else
      assert Keys(m)[1..] == Keys(m[1..]);
      var r := Get(m[1..], k);
      assert r.Some? ==> exists i :: 0 <= i < |m| && m[i] == (k, r.value) by {
        if r.Some? {
          var i :| 0 <= i < |m[1..]| && m[1..][i] == (k, r.value);
          assert m[i + 1] == (k, r.value);
        }
      }
      r
  }

  function Contains<K(==), V>(m: seq<(K, V)>, k: K): bool
  {
    k in Keys(m)
  }

  /** `map[k] = v`: overwrites in place when `k` is present, appends otherwise. */
  function Put<K(==), V>(m: seq<(K, V)>, k: K, v: V): (r: seq<(K, V)>)
    ensures k in Keys(m) ==> Keys(r) == Keys(m)
    ensures k !in Keys(m) ==> Keys(r) == Keys(m) + [k]
  {
    if |m| == 0 then [(k, v)]
    else if m[0].0 == k then [(k, v)] + m[1..]
    else
      assert Keys(m) == [m[0].0] + Keys(m[1..]);
      [m[0]] + Put(m[1..], k, v)
  }

  /** `map.remove(k)`: drops the entry for `k`; the others keep their order. */
  function Remove<K(==), V>(m: seq<(K, V)>, k: K): (r: seq<(K, V)>)
    ensures Keys(r) == Without(Keys(m), k)
  {
    if |m| == 0 then []
    else
      assert Keys(m)[1..] == Keys(m[1..]);
      if m[0].0 == k then Remove(m[1..], k) else [m[0]] + Remove(m[1..], k)
  }

  /** The sequence with every occurrence of `k` left out. */
  function Without<K(==)>(s: seq<K>, k: K): (r: seq<K>)
    ensures k !in r
    ensures forall i :: 0 <= i < |r| ==> r[i] in s && r[i] != k
    ensures forall i :: 0 <= i < |s| && s[i] != k ==> s[i] in r
  {
    if |s| == 0 then [] else if s[0] == k then Without(s[1..], k) else [s[0]] + Without(s[1..], k)
  }

  lemma {:induction false} GetOfPut<K, V>(m: seq<(K, V)>, k: K, v: V, k': K)
    ensures Get(Put(m, k, v), k') == if k' == k then Some(v) else Get(m, k')
  {
    if |m| > 0 && m[0].0 != k {
      GetOfPut(m[1..], k, v, k');
      assert Put(m, k, v)[1..] == Put(m[1..], k, v);
    }
  }

  lemma {:induction false} GetOfRemove<K, V>(m: seq<(K, V)>, k: K, k': K)
    ensures Get(Remove(m, k), k') == if k' == k then None else Get(m, k')
  {
    if |m| > 0 {
      GetOfRemove(m[1..], k, k');
      if m[0].0 != k {
        assert Remove(m, k)[1..] == Remove(m[1..], k);
      }
    }
  }

  lemma {:induction false} WithoutKeepsDistinct<K>(s: seq<K>, k: K)
    requires NoDuplicates(s)
    ensures NoDuplicates(Without(s, k))
  {
    if |s| > 0 {
      assert NoDuplicates(s[1..]) by {
        forall i, j | 0 <= i < j < |s[1..]| ensures s[1..][i] != s[1..][j] {
          assert s[1..][i] == s[i + 1] && s[1..][j] == s[j + 1];
        }
      }
      WithoutKeepsDistinct(s[1..], k);
      if s[0] != k {
        assert s[0] !in s[1..] by {
          forall j | 0 <= j < |s[1..]| ensures s[1..][j] != s[0] { assert s[1..][j] == s[j + 1]; }
        }
        var w := Without(s[1..], k);
        assert s[0] !in w;
        forall i, j | 0 <= i < j < |[s[0]] + w| ensures ([s[0]] + w)[i] != ([s[0]] + w)[j] {
          if i == 0 { assert ([s[0]] + w)[j] == w[j - 1]; }
          else { assert ([s[0]] + w)[i] == w[i - 1] && ([s[0]] + w)[j] == w[j - 1]; }
        }
      }
    }
  }

  lemma PutKeepsValid<K, V>(m: seq<(K, V)>, k: K, v: V)
    requires Valid(m)
    ensures Valid(Put(m, k, v))
  {
    if k !in Keys(m) {
      var ks := Keys(m) + [k];
      forall i, j | 0 <= i < j < |ks| ensures ks[i] != ks[j] {
        if j == |ks| - 1 { assert ks[i] == Keys(m)[i]; }
      }
    }
  }

  lemma RemoveKeepsValid<K, V>(m: seq<(K, V)>, k: K)
    requires Valid(m)
    ensures Valid(Remove(m, k))
  {
    WithoutKeepsDistinct(Keys(m), k);
  }

  // ------------------------------------------------ insertion-ordered sets

  /** `set.add(x)` on a LinkedHashSet: appends `x` unless it is already there. */
  function AddToSet<K(==)>(s: seq<K>, x: K): (r: seq<K>)
    ensures NoDuplicates(s) ==> NoDuplicates(r)
    ensures x in r && forall i :: 0 <= i < |r| ==> r[i] in s || r[i] == x
    ensures |s| <= |r| <= |s| + 1 && r[..|s|] == s
  {
    if x in s then s
    else
      var r := s + [x];
      assert forall i :: 0 <= i < |s| ==> r[i] == s[i];
      r
  }
}
