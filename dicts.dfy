/**
 * Typed Python dictionaries as sequences of items in insertion order, with
 * `d[k] = v` overwriting an existing key in place and appending a new one.
 */
module Dicts {
  import opened Options

  datatype Item<K, V> = Item(key: K, val: V)

  function KeysOf<K, V>(m: seq<Item<K, V>>): (ks: seq<K>)
    ensures |ks| == |m| && forall i :: 0 <= i < |m| ==> ks[i] == m[i].key
  {
    seq(|m|, i requires 0 <= i < |m| => m[i].key)
  }

  /** `d.get(k)`. */
  function Get<K(==,!new), V>(m: seq<Item<K, V>>, k: K): (r: Option<V>)
    ensures r.Some? <==> k in KeysOf(m)
  {
    if m == [] then None
    else if m[0].key == k then Some(m[0].val)
    else
      assert KeysOf(m) == [m[0].key] + KeysOf(m[1..]);
      Get(m[1..], k)
  }

  /** A value found under `k` is stored in an item with key `k`. */
  lemma {:induction false} GetItem<K(!new), V>(m: seq<Item<K, V>>, k: K)
    requires Get(m, k).Some?
    ensures Item(k, Get(m, k).value) in m
  {
    if m[0].key != k {
      GetItem(m[1..], k);
    }
  }

  /** `d[k] = v`. */
  function Put<K(==,!new), V>(m: seq<Item<K, V>>, k: K, v: V): (r: seq<Item<K, V>>)
    ensures Get(r, k) == Some(v)
    ensures forall k' :: k' != k ==> Get(r, k') == Get(m, k')
    ensures k in KeysOf(m) ==> KeysOf(r) == KeysOf(m)
    ensures k !in KeysOf(m) ==> KeysOf(r) == KeysOf(m) + [k]
  {
    if m == [] then [Item(k, v)]
    else if m[0].key == k then
      ReplaceFront(m, k, v);
      [Item(k, v)] + m[1..]
    else
      var rest := Put(m[1..], k, v);
      ExtendFront(m, rest, k, v);
      [m[0]] + rest
  }

  /** The keys of a dictionary with one more item in front. */
  lemma KeysCons<K, V>(x: Item<K, V>, m: seq<Item<K, V>>)
    ensures KeysOf([x] + m) == [x.key] + KeysOf(m)
  {
    var l, r := KeysOf([x] + m), [x.key] + KeysOf(m);
    forall i | 0 <= i < |l|
      ensures l[i] == r[i]
    {
      if i > 0 {
        assert ([x] + m)[i] == m[i - 1];
      }
    }
  }

  /** A lookup in a dictionary with one more item in front. */
  lemma GetCons<K(!new), V>(x: Item<K, V>, m: seq<Item<K, V>>, k: K)
    ensures Get([x] + m, k) == if x.key == k then Some(x.val) else Get(m, k)
  {
    assert ([x] + m)[0] == x && ([x] + m)[1..] == m;
  }

  /** Overwriting the first item keeps the keys and changes only the value under `k`. */
  lemma ReplaceFront<K(!new), V>(m: seq<Item<K, V>>, k: K, v: V)
    requires m != [] && m[0].key == k
    ensures Get([Item(k, v)] + m[1..], k) == Some(v)
    ensures forall k' :: k' != k ==> Get([Item(k, v)] + m[1..], k') == Get(m, k')
    ensures KeysOf([Item(k, v)] + m[1..]) == KeysOf(m)
  {
    assert [m[0]] + m[1..] == m;
    KeysCons(Item(k, v), m[1..]);
    KeysCons(m[0], m[1..]);
    GetCons(Item(k, v), m[1..], k);
    forall k' | k' != k
      ensures Get([Item(k, v)] + m[1..], k') == Get(m, k')
    {
      GetCons(Item(k, v), m[1..], k');
      GetCons(m[0], m[1..], k');
    }
  }

  /** Keeping the first item in front of the tail's update gives the update of the whole. */
  lemma ExtendFront<K(!new), V>(m: seq<Item<K, V>>, rest: seq<Item<K, V>>, k: K, v: V)
    requires m != [] && m[0].key != k
    requires Get(rest, k) == Some(v)
    requires forall k' :: k' != k ==> Get(rest, k') == Get(m[1..], k')
    requires k in KeysOf(m[1..]) ==> KeysOf(rest) == KeysOf(m[1..])
    requires k !in KeysOf(m[1..]) ==> KeysOf(rest) == KeysOf(m[1..]) + [k]
    ensures Get([m[0]] + rest, k) == Some(v)
    ensures forall k' :: k' != k ==> Get([m[0]] + rest, k') == Get(m, k')
    ensures k in KeysOf(m) ==> KeysOf([m[0]] + rest) == KeysOf(m)
    ensures k !in KeysOf(m) ==> KeysOf([m[0]] + rest) == KeysOf(m) + [k]
  {
    assert [m[0]] + m[1..] == m;
    ExtendFrontKeys(m, rest, k);
    GetCons(m[0], rest, k);
    forall k' | k' != k
      ensures Get([m[0]] + rest, k') == Get(m, k')
    {
      GetCons(m[0], rest, k');
      GetCons(m[0], m[1..], k');
    }
  }

  lemma ExtendFrontKeys<K, V>(m: seq<Item<K, V>>, rest: seq<Item<K, V>>, k: K)
    requires m != [] && m[0].key != k
    requires k in KeysOf(m[1..]) ==> KeysOf(rest) == KeysOf(m[1..])
    requires k !in KeysOf(m[1..]) ==> KeysOf(rest) == KeysOf(m[1..]) + [k]
    ensures k in KeysOf(m) ==> KeysOf([m[0]] + rest) == KeysOf(m)
    ensures k !in KeysOf(m) ==> KeysOf([m[0]] + rest) == KeysOf(m) + [k]
  {
    assert [m[0]] + m[1..] == m;
    KeysCons(m[0], m[1..]);
    KeysCons(m[0], rest);
    assert k in KeysOf(m) <==> k in KeysOf(m[1..]);
    if k !in KeysOf(m) {
      assert [m[0].key] + (KeysOf(m[1..]) + [k]) == ([m[0].key] + KeysOf(m[1..])) + [k];
    }
  }

  /** Writing `k` only adds the item `(k, v)`, and keeps or drops the others. */
  lemma {:induction false} PutItems<K(!new), V>(m: seq<Item<K, V>>, k: K, v: V)
    ensures forall x :: x in Put(m, k, v) ==> x in m || x == Item(k, v)
  {
    if m != [] && m[0].key != k {
      PutItems(m[1..], k, v);
      assert Put(m, k, v) == [m[0]] + Put(m[1..], k, v);
    }
  }
}
