/**
 * Python's `dict`: a finite map that also remembers the order in which its
 * keys were first inserted. Iterating a dict, `list(d)` and comprehensions
 * over it follow that order, so the server's reply strings and its broadcast
 * order depend on it.
 */
module OrderedDict {

  datatype Dict<K(!new), V> = Dict(keys: seq<K>, values: map<K, V>) {

    /** The keys are distinct and are exactly the keys of the map. */
    ghost predicate Valid()
    {
      && Distinct(keys)
      && (forall k :: k in values <==> k in keys)
    }
  }

  /** No element occurs twice. */
  predicate Distinct<T(==)>(s: seq<T>)
  {
    forall i, j :: 0 <= i < j < |s| ==> s[i] != s[j]
  }

  /** `{}` */
  function Empty<K(!new), V>(): (d: Dict<K, V>)
    ensures d.Valid() && d.keys == [] && d.values == map[]
  {
    Dict([], map[])
  }

  /** The one-entry literal `{k: v}`. */
  function Singleton<K(!new), V>(k: K, v: V): (d: Dict<K, V>)
    ensures d.Valid() && d.keys == [k] && d.values == map[k := v]
  {
    Dict([k], map[k := v])
  }

  /**
   * `d[k] = v`: the key takes the new value and keeps its place if it was
   * there already; a new key goes last. No other entry changes.
   */
  function Put<K(!new), V>(d: Dict<K, V>, k: K, v: V): (r: Dict<K, V>)
    requires d.Valid()
    ensures r.Valid()
    ensures k in r.values && r.values[k] == v
    ensures forall j :: j != k ==> (j in r.values <==> j in d.values)
    ensures forall j :: j != k && j in d.values ==> r.values[j] == d.values[j]
    ensures k in d.values ==> r.keys == d.keys
    ensures k !in d.values ==> r.keys == d.keys + [k]
  {
    Dict(if k in d.values then d.keys else d.keys + [k], d.values[k := v])
  }

  /** Writing a key twice leaves only the second value, in the first write's place. */
  lemma PutPut<K(!new), V>(d: Dict<K, V>, k: K, v1: V, v2: V)
    requires d.Valid()
    ensures Put(Put(d, k, v1), k, v2) == Put(d, k, v2)
  {
  }

  /** Writing back the value a key already holds changes nothing. */
  lemma PutSame<K(!new), V>(d: Dict<K, V>, k: K)
    requires d.Valid() && k in d.values
    ensures Put(d, k, d.values[k]) == d
  {
  }

  /**
   * `d.update(pair)`: the entries of `pair` are written into `d` one after
   * the other, in `pair`'s order.
   */
  function Merge<K(!new), V>(d: Dict<K, V>, pair: Dict<K, V>): (r: Dict<K, V>)
    requires d.Valid() && pair.Valid()
    ensures r.Valid()
    ensures forall k :: k in r.values <==> k in d.values || k in pair.values
    ensures forall k :: k in pair.values ==> r.values[k] == pair.values[k]
    ensures forall k :: k in d.values && k !in pair.values ==> r.values[k] == d.values[k]
    ensures |d.keys| <= |r.keys| && r.keys[..|d.keys|] == d.keys
  {
    MergeKeys(d, pair.keys, pair.values)
  }

  function MergeKeys<K(!new), V>(d: Dict<K, V>, ks: seq<K>, m: map<K, V>): (r: Dict<K, V>)
    requires d.Valid()
    requires forall k :: k in ks ==> k in m
    ensures r.Valid()
    ensures forall k :: k in r.values <==> k in d.values || k in ks
    ensures forall k :: k in ks ==> r.values[k] == m[k]
    ensures forall k :: k in d.values && k !in ks ==> r.values[k] == d.values[k]
    ensures |d.keys| <= |r.keys| && r.keys[..|d.keys|] == d.keys
    decreases |ks|
  {
    if ks == [] then d
    else
      var d' := Put(d, ks[0], m[ks[0]]);
      var r := MergeKeys(d', ks[1..], m);
      assert forall k :: k in ks <==> k == ks[0] || k in ks[1..];
      PrefixOfPrefix(d.keys, d'.keys, r.keys);
      r
  }

  /** A prefix of a prefix is a prefix. */
  lemma PrefixOfPrefix<T>(a: seq<T>, b: seq<T>, c: seq<T>)
    requires |a| <= |b| <= |c| && b[..|a|] == a && c[..|b|] == b
    ensures c[..|a|] == a
  {
    assert c[..|a|] == c[..|b|][..|a|];
  }

  /** Merging the literal `{k: v}` is the same as assigning `d[k] = v`. */
  lemma MergeSingleton<K(!new), V>(d: Dict<K, V>, k: K, v: V)
    requires d.Valid()
    ensures Merge(d, Singleton(k, v)) == Put(d, k, v)
  {
    var pair := Singleton(k, v);
    assert pair.keys[1..] == [];
    assert MergeKeys(d, pair.keys, pair.values) == MergeKeys(Put(d, k, v), [], pair.values);
  }

  /**
   * `[k for k in d if p(d[k])]` over a key sequence: the keys whose value
   * satisfies `p`, in iteration order.
   */
  function Select<K(!new), V>(ks: seq<K>, m: map<K, V>, p: V -> bool): (r: seq<K>)
    requires forall k :: k in ks ==> k in m
    ensures forall k :: k in r <==> k in ks && p(m[k])
    ensures |r| <= |ks|
  {
    if ks == [] then []
    else
      var last := ks[|ks| - 1];
      var front := ks[..|ks| - 1];
      assert forall k :: k in ks <==> k in front || k == last;
      Select(front, m, p) + (if p(m[last]) then [last] else [])
  }

  /** Selecting from distinct keys yields distinct keys. */
  lemma {:induction false} SelectDistinct<K(!new), V>(ks: seq<K>, m: map<K, V>, p: V -> bool)
    requires forall k :: k in ks ==> k in m
    requires Distinct(ks)
    ensures Distinct(Select(ks, m, p))
  {
    if ks != [] {
      var front := ks[..|ks| - 1];
      var last := ks[|ks| - 1];
      SelectDistinct(front, m, p);
      assert last !in front by {
        forall i | 0 <= i < |front| ensures front[i] != last {
          assert front[i] == ks[i];
        }
      }
      var r0 := Select(front, m, p);
      assert last !in r0;
      var r := Select(ks, m, p);
      assert r == r0 + (if p(m[last]) then [last] else []);
      forall i, j | 0 <= i < j < |r| ensures r[i] != r[j] {
        if j >= |r0| {
          assert r[j] == last && r[i] == r0[i] && r0[i] in r0;
        } else {
          assert r[i] == r0[i] && r[j] == r0[j];
        }
      }
    }
  }
}
