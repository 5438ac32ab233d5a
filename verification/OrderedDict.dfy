/**
  A Python dict as the list of its items in iteration order: assigning to a
  present key keeps its place, assigning to a new key appends it.
  */
module OrderedDict {
  import opened Prelude
  import opened Collections

  datatype Entry<K, V> = Entry(key: K, value: V)

  function Keys<K, V>(d: seq<Entry<K, V>>): (r: seq<K>)
    ensures |r| == |d|
    ensures forall i | 0 <= i < |d| :: r[i] == d[i].key
  {
    seq(|d|, i requires 0 <= i < |d| => d[i].key)
  }

  function Values<K, V>(d: seq<Entry<K, V>>): (r: seq<V>)
    ensures |r| == |d|
    ensures forall i | 0 <= i < |d| :: r[i] == d[i].value
  {
    seq(|d|, i requires 0 <= i < |d| => d[i].value)
  }

  /** A dict has no key twice. */
  ghost predicate IsDict<K(!new), V>(d: seq<Entry<K, V>>) {
    Distinct(Keys(d))
  }

  /** `d.get(k)` */
  function Lookup<K(==), V>(d: seq<Entry<K, V>>, k: K): (r: Option<V>)
    ensures r.Some? <==> exists i :: 0 <= i < |d| && d[i].key == k
    ensures r.Some? ==> exists i :: 0 <= i < |d| && d[i] == Entry(k, r.value)
  {
    if d == [] then None
    else if d[0].key == k then Some(d[0].value)
    else
      assert forall i | 1 <= i < |d| :: d[i] == d[1..][i - 1];
      Lookup(d[1..], k)
  }

  /** `d[k] = v` */
  function Put<K(==), V>(d: seq<Entry<K, V>>, k: K, v: V): seq<Entry<K, V>> {
    if d == [] then [Entry(k, v)]
    else if d[0].key == k then [Entry(k, v)] + d[1..]
    else [d[0]] + Put(d[1..], k, v)
  }

  lemma {:induction false} PutLookup<K, V>(d: seq<Entry<K, V>>, k: K, v: V, x: K)
    ensures Lookup(Put(d, k, v), x) == if x == k then Some(v) else Lookup(d, x)
  {
    if d != [] && d[0].key != k {
      PutLookup(d[1..], k, v, x);
      assert Put(d, k, v)[1..] == Put(d[1..], k, v);
    } else if d != [] {
      assert Put(d, k, v)[1..] == d[1..];
    }
  }

  lemma KeysCons<K, V>(x: Entry<K, V>, d: seq<Entry<K, V>>)
    ensures Keys([x] + d) == [x.key] + Keys(d)
  {
  }

  /** A present key keeps its place, a new one goes to the end. */
  lemma {:induction false} PutKeys<K, V>(d: seq<Entry<K, V>>, k: K, v: V)
    ensures Keys(Put(d, k, v)) == if k in Keys(d) then Keys(d) else Keys(d) + [k]
  {
    if d != [] {
      assert d == [d[0]] + d[1..];
      KeysCons(d[0], d[1..]);
      if d[0].key == k {
        KeysCons(Entry(k, v), d[1..]);
      } else {
        PutKeys(d[1..], k, v);
        KeysCons(d[0], Put(d[1..], k, v));
        var rest := Keys(d[1..]);
        assert ([d[0].key] + rest) + [k] == [d[0].key] + (rest + [k]);
      }
    } else {
      KeysCons(Entry(k, v), d);
    }
  }

  lemma PutIsDict<K(!new), V>(d: seq<Entry<K, V>>, k: K, v: V)
    requires IsDict(d)
    ensures IsDict(Put(d, k, v))
  {
    PutKeys(d, k, v);
  }

  /** In a dict the entry at a place is the one its key looks up. */
  lemma {:induction false} LookupAt<K(!new), V>(d: seq<Entry<K, V>>, i: nat)
    requires IsDict(d) && i < |d|
    ensures Lookup(d, d[i].key) == Some(d[i].value)
  {
    if i == 0 {
    } else {
      assert Keys(d)[0] != Keys(d)[i];
      TailIsDict(d);
      LookupAt(d[1..], i - 1);
    }
  }

  lemma TailIsDict<K(!new), V>(d: seq<Entry<K, V>>)
    requires IsDict(d) && d != []
    ensures IsDict(d[1..])
  {
    assert Keys(d[1..]) == Keys(d)[1..];
  }
}
