/** Python's `dict`: a finite map that remembers insertion order. A dict is
    modelled as its list of entries in iteration order; Python never builds one
    with a repeated key, which is what `UniqueKeys` says. */
module Dict {
  import opened Wrappers

  type Dict<K, V> = seq<(K, V)>

  /** The keys in iteration order (`list(d)`). */
  function Keys<K, V>(d: Dict<K, V>): seq<K> {
    seq(|d|, i requires 0 <= i < |d| => d[i].0)
  }

  /** The values in iteration order (`list(d.values())`). */
  function Values<K, V>(d: Dict<K, V>): seq<V> {
    seq(|d|, i requires 0 <= i < |d| => d[i].1)
  }

  predicate Distinct<T(==)>(s: seq<T>) {
    forall i, j :: 0 <= i < j < |s| ==> s[i] != s[j]
  }

  /** No key occurs twice: the shape of every dict Python produces. */
  predicate UniqueKeys<K(==), V>(d: Dict<K, V>) {
    Distinct(Keys(d))
  }

  /** `d.get(k)`: the value stored under `k`, if any. */
  function Get<K(==), V>(d: Dict<K, V>, k: K): (r: Option<V>)
    ensures r.Some? <==> k in Keys(d)
  {
    if d == [] then None
    else if d[0].0 == k then
      assert Keys(d)[0] == k;
      Some(d[0].1)
    else
      assert Keys(d) == [d[0].0] + Keys(d[1..]);
      Get(d[1..], k)
  }

  /** `d[k] = v`: a new key goes to the end; an existing key keeps its
      position and only its value changes. */
  function Put<K(==, !new), V>(d: Dict<K, V>, k: K, v: V): (r: Dict<K, V>)
    ensures Get(r, k) == Some(v)
    ensures forall k' :: k' != k ==> Get(r, k') == Get(d, k')
    ensures Keys(r) == if k in Keys(d) then Keys(d) else Keys(d) + [k]
  {
    if d == [] then [(k, v)]
    else if d[0].0 == k then
      var r := [(k, v)] + d[1..];
      assert Keys(d)[0] == k;
      assert Keys(r) == Keys(d);
      assert r[1..] == d[1..];
      r
    else
      var rest := Put(d[1..], k, v);
      var r := [d[0]] + rest;
      assert r[1..] == rest;
      assert Keys(d) == [d[0].0] + Keys(d[1..]);
      assert Keys(r) == [d[0].0] + Keys(rest);
      r
  }

  /** In a valid dict the entry at position `i` is what `get` finds. */
  lemma {:induction false} GetAt<K, V>(d: Dict<K, V>, i: nat)
    requires UniqueKeys(d)
    requires i < |d|
    ensures Get(d, d[i].0) == Some(d[i].1)
  {
    if i > 0 {
      assert Keys(d)[0] != Keys(d)[i];
      assert UniqueKeys(d[1..]) by {
        forall a, b | 0 <= a < b < |d[1..]|
          ensures Keys(d[1..])[a] != Keys(d[1..])[b]
        {
          assert Keys(d)[a + 1] != Keys(d)[b + 1];
        }
      }
      GetAt(d[1..], i - 1);
    }
  }

  /** Assignment keeps a dict free of repeated keys. */
  lemma PutUniqueKeys<K(!new), V>(d: Dict<K, V>, k: K, v: V)
    ensures UniqueKeys(d) ==> UniqueKeys(Put(d, k, v))
  {
    if UniqueKeys(d) && k !in Keys(d) {
      var ks := Keys(d) + [k];
      assert Keys(Put(d, k, v)) == ks;
      forall i, j | 0 <= i < j < |ks| ensures ks[i] != ks[j] {
        if j < |d| {
          assert ks[i] == Keys(d)[i] && ks[j] == Keys(d)[j];
        } else {
          assert ks[i] == Keys(d)[i];
        }
      }
    }
  }

  /** Assignment never removes a key and never moves one: the old key order
      is a prefix of the new one. */
  lemma PutKeepsOrder<K(!new), V>(d: Dict<K, V>, k: K, v: V)
    ensures Keys(d) <= Keys(Put(d, k, v))
    ensures |Put(d, k, v)| == if k in Keys(d) then |d| else |d| + 1
  {
  }

  /** Assigning a key the dict lacks appends the entry at the end. */
  lemma {:induction false} PutAppends<K(!new), V>(d: Dict<K, V>, k: K, v: V)
    requires k !in Keys(d)
    ensures Put(d, k, v) == d + [(k, v)]
  {
    if d != [] {
      var tail := d[1..];
      assert Keys(d) == [d[0].0] + Keys(tail);
      assert Put(d, k, v) == [d[0]] + Put(tail, k, v);
      PutAppends(tail, k, v);
      assert d == [d[0]] + tail;
    }
  }

  /** Assigning the key first found at position `i` rewrites that entry and
      leaves every other entry where it was. */
  lemma {:induction false} PutReplaces<K(!new), V>(d: Dict<K, V>, k: K, v: V, i: nat)
    requires i < |d| && d[i].0 == k
    requires forall j :: 0 <= j < i ==> d[j].0 != k
    ensures Put(d, k, v) == d[i := (k, v)]
  {
    var tail := d[1..];
    if i == 0 {
      assert Put(d, k, v) == [(k, v)] + tail;
      assert [(k, v)] + tail == d[0 := (k, v)];
    } else {
      assert d[0].0 != k;
      assert Put(d, k, v) == [d[0]] + Put(tail, k, v);
      forall j | 0 <= j < i - 1 ensures tail[j].0 != k {
        assert tail[j] == d[j + 1];
      }
      assert tail[i - 1] == d[i];
      PutReplaces(tail, k, v, i - 1);
      assert [d[0]] + tail[i - 1 := (k, v)] == d[i := (k, v)];
    }
  }
}
