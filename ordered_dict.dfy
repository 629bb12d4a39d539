/**
 * Python's `dict`: insertion-ordered, and assigning to an existing key keeps the key where
 * it first appeared. A dict is a sequence of entries whose keys are the dict's keys in order.
 */
module OrderedDict {
  import opened Wrappers

  datatype Entry<K, V> = Entry(key: K, value: V)

  function Keys<K, V>(d: seq<Entry<K, V>>): (ks: seq<K>)
    ensures |ks| == |d|
    ensures forall i :: 0 <= i < |d| ==> ks[i] == d[i].key
  {
    if d == [] then [] else [d[0].key] + Keys(d[1..])
  }

  function Values<K, V>(d: seq<Entry<K, V>>): (vs: seq<V>)
    ensures |vs| == |d|
    ensures forall i :: 0 <= i < |d| ==> vs[i] == d[i].value
  {
    if d == [] then [] else [d[0].value] + Values(d[1..])
  }

  /** No key occurs twice: every dict the source builds has this shape. */
  ghost predicate Distinct<K, V>(d: seq<Entry<K, V>>) {
    forall i, j :: 0 <= i < j < |d| ==> d[i].key != d[j].key
  }

  /** `d.get(k)`: the value of the first entry with key `k`. */
  function Get<K(==), V>(d: seq<Entry<K, V>>, k: K): Maybe<V> {
    if d == [] then None
    else if d[0].key == k then Some(d[0].value)
    else Get(d[1..], k)
  }

  /** `k in d`: a lookup finds a value exactly for the keys of the dict. */
  lemma {:induction false} GetSomeIffKey<K, V>(d: seq<Entry<K, V>>, k: K)
    ensures Get(d, k).Some? <==> k in Keys(d)
  {
    if d != [] {
      assert Keys(d) == [d[0].key] + Keys(d[1..]);
      GetSomeIffKey(d[1..], k);
    }
  }

  /** The value `Get` finds is the value of an entry of the dict with that key. */
  lemma {:induction false} GetFinds<K, V>(d: seq<Entry<K, V>>, k: K)
    requires Get(d, k).Some?
    ensures exists i :: 0 <= i < |d| && d[i] == Entry(k, Get(d, k).value)
  {
    if d[0].key != k {
      GetFinds(d[1..], k);
      var i :| 0 <= i < |d[1..]| && d[1..][i] == Entry(k, Get(d[1..], k).value);
      assert d[i + 1] == Entry(k, Get(d, k).value);
    }
  }

  /**
   * `d[k] = v`: an existing key keeps its position and takes the new value, a new key is
   * appended at the end; no other key changes.
   */
  function Set<K(==,!new), V>(d: seq<Entry<K, V>>, k: K, v: V): (r: seq<Entry<K, V>>)
    ensures Get(r, k) == Some(v)
    ensures forall k' :: k' != k ==> Get(r, k') == Get(d, k')
  {
    if d == [] then [Entry(k, v)]
    else if d[0].key == k then
      var r := [Entry(k, v)] + d[1..];
      assert r[1..] == d[1..];
      r
    else
      var rest := Set(d[1..], k, v);
      var r := [d[0]] + rest;
      assert r[1..] == rest;
      r
  }

  /** The keys after `d[k] = v`: the same keys, with `k` appended when it is new. */
  lemma {:induction false} SetKeys<K(!new), V>(d: seq<Entry<K, V>>, k: K, v: V)
    ensures Keys(Set(d, k, v)) == if k in Keys(d) then Keys(d) else Keys(d) + [k]
  {
    if d != [] {
      var r := Set(d, k, v);
      assert Keys(d) == [d[0].key] + Keys(d[1..]);
      if d[0].key == k {
        assert r[1..] == d[1..];
        assert Keys(r) == [k] + Keys(r[1..]);
      } else {
        SetKeys(d[1..], k, v);
        assert r[1..] == Set(d[1..], k, v);
        assert Keys(r) == [d[0].key] + Keys(r[1..]);
      }
    }
  }

  /** Assignment never repeats a key. */
  lemma SetDistinct<K(!new), V>(d: seq<Entry<K, V>>, k: K, v: V)
    requires Distinct(d)
    ensures Distinct(Set(d, k, v))
  {
    SetKeys(d, k, v);
    var r := Set(d, k, v);
    forall i, j | 0 <= i < j < |r|
      ensures r[i].key != r[j].key
    {
      assert Keys(r)[i] == r[i].key && Keys(r)[j] == r[j].key;
      assert Keys(d) == Keys(d[..]);
      if k in Keys(d) {
        assert Keys(d)[i] == d[i].key && Keys(d)[j] == d[j].key;
      } else if j < |d| {
        assert Keys(d)[i] == d[i].key && Keys(d)[j] == d[j].key;
      } else {
        assert Keys(d)[i] == d[i].key;
      }
    }
  }

  /** In a dict without repeated keys, looking up the key of an entry finds that entry's value. */
  lemma {:induction false} GetDistinctAt<K, V>(d: seq<Entry<K, V>>, i: nat)
    requires Distinct(d) && i < |d|
    ensures Get(d, d[i].key) == Some(d[i].value)
  {
    if i > 0 {
      assert d[1..][i - 1] == d[i];
      GetDistinctAt(d[1..], i - 1);
    }
  }

  /** Assigning a key twice leaves the dict as the second assignment alone would. */
  lemma {:induction false} SetTwice<K(!new), V>(d: seq<Entry<K, V>>, k: K, v1: V, v2: V)
    ensures Set(Set(d, k, v1), k, v2) == Set(d, k, v2)
  {
    if d != [] && d[0].key != k {
      SetTwice(d[1..], k, v1, v2);
      assert Set(d, k, v1)[1..] == Set(d[1..], k, v1);
    }
  }

  /** Every entry after `d[k] = v` is the new entry or an entry of `d`. */
  lemma {:induction false} SetEntries<K(!new), V>(d: seq<Entry<K, V>>, k: K, v: V)
    ensures Entry(k, v) in Set(d, k, v)
    ensures forall e :: e in Set(d, k, v) ==> e == Entry(k, v) || e in d
  {
    if d != [] && d[0].key != k {
      SetEntries(d[1..], k, v);
      assert Set(d, k, v) == [d[0]] + Set(d[1..], k, v);
    }
  }
}
