/**
  The five list merges of app/nodes/apply_revision_node.py.  Each indexes the
  current items it keeps by a key in a dict, assigns the new items over it and
  returns the dict's values.
  */
module RevisionMerge {
  import opened Prelude
  import opened Collections
  import opened OrderedDict

  // ---------------------------------------------------------------- the merge

  /** Assigning a list of items into a dict, one after the other. */
  function PutAll<K(==), T>(d: seq<Entry<K, T>>, xs: seq<T>, keyOf: T -> K): seq<Entry<K, T>> {
    if xs == [] then d
    else
      var n := |xs| - 1;
      Put(PutAll(d, xs[..n], keyOf), keyOf(xs[n]), xs[n])
  }

  function MergedDict<K(==), T>(current: seq<T>, keyOf: T -> K, keeps: K -> bool, upserts: seq<T>): seq<Entry<K, T>> {
    PutAll(PutAll([], Filter(current, x => keeps(keyOf(x))), keyOf), upserts, keyOf)
  }

  function Merge<K(==), T>(current: seq<T>, keyOf: T -> K, keeps: K -> bool, upserts: seq<T>): seq<T> {
    Values(MergedDict(current, keyOf, keeps, upserts))
  }

  method MergeItems<K(==), T(==)>(current: seq<T>, keyOf: T -> K, keeps: K -> bool, upserts: seq<T>)
    returns (result: seq<T>, changed: bool)
    ensures result == Merge(current, keyOf, keeps, upserts)
    ensures changed <==> result != current
  {
    var kept := Filter(current, x => keeps(keyOf(x)));
    var merged: seq<Entry<K, T>> := [];
    for i := 0 to |kept|
      invariant merged == PutAll([], kept[..i], keyOf)
    {
      assert kept[..i + 1][..i] == kept[..i];
      merged := Put(merged, keyOf(kept[i]), kept[i]);
    }
    assert kept[..|kept|] == kept;
    for i := 0 to |upserts|
      invariant merged == PutAll(PutAll([], kept, keyOf), upserts[..i], keyOf)
    {
      assert upserts[..i + 1][..i] == upserts[..i];
      merged := Put(merged, keyOf(upserts[i]), upserts[i]);
    }
    assert upserts[..|upserts|] == upserts;
    result := Values(merged);
    changed := result != current;
  }

  // --------------------------------------------------------- the five instances

  datatype Preference = Preference(domain: string, key: string, body: string)
  datatype Spending = Spending(category: string, body: string)
  datatype HardConstraint = HardConstraint(domain: string, field: string, body: string)
  datatype NamedConstraint = NamedConstraint(entityType: string, entityName: string, mode: string, body: string)
  datatype Unmapped = Unmapped(text: string, body: string)

  /** A removal by type, or by type and name. */
  datatype NamedSelector = NamedSelector(entityType: string, entityName: Option<string>)

  function PreferenceKey(p: Preference): (string, string) {
    (p.domain, p.key)
  }

  function SpendingKey(s: Spending): string {
    s.category
  }

  function UnmappedKey(u: Unmapped): string {
    u.text
  }

  function HardKey(c: HardConstraint): (string, string) {
    (c.domain, c.field)
  }

  function NamedKey(c: NamedConstraint): (string, string, string) {
    (c.entityType, c.entityName, c.mode)
  }

  /** A pair of non-empty strings that is not removed. */
  function KeepsPairs(removals: seq<(string, string)>): ((string, string)) -> bool {
    (k: (string, string)) => k.0 != "" && k.1 != "" && k !in removals
  }

  function KeepsNames(removals: seq<string>): string -> bool {
    (k: string) => k != "" && k !in removals
  }

  predicate ShouldRemove(entityType: string, entityName: string, replaceTypes: seq<string>,
                         removals: seq<NamedSelector>) {
    entityType in replaceTypes
    || exists i :: 0 <= i < |removals| && removals[i].entityType == entityType
                   && (removals[i].entityName.None? || removals[i].entityName.value == entityName)
  }

  function KeepsNamed(replaceTypes: seq<string>, removals: seq<NamedSelector>): ((string, string, string)) -> bool {
    (k: (string, string, string)) => k.0 != "" && k.1 != "" && !ShouldRemove(k.0, k.1, replaceTypes, removals)
  }

  function MergePreferences(current: seq<Preference>, removals: seq<(string, string)>, upserts: seq<Preference>)
    : seq<Preference>
  {
    Merge(current, PreferenceKey, KeepsPairs(removals), upserts)
  }

  function MergeSpending(current: seq<Spending>, removals: seq<string>, upserts: seq<Spending>): seq<Spending> {
    Merge(current, SpendingKey, KeepsNames(removals), upserts)
  }

  function MergeHard(current: seq<HardConstraint>, removals: seq<(string, string)>, additions: seq<HardConstraint>)
    : seq<HardConstraint>
  {
    Merge(current, HardKey, KeepsPairs(removals), additions)
  }

  function MergeNamed(current: seq<NamedConstraint>, replaceTypes: seq<string>, removals: seq<NamedSelector>,
                      additions: seq<NamedConstraint>): seq<NamedConstraint>
  {
    Merge(current, NamedKey, KeepsNamed(replaceTypes, removals), additions)
  }

  function MergeUnmapped(current: seq<Unmapped>, additions: seq<Unmapped>): seq<Unmapped> {
    Merge(current, UnmappedKey, KeepsNames([]), additions)
  }

  // ------------------------------------------------------- what a merge amounts to

  function KeysOf<K, T>(xs: seq<T>, keyOf: T -> K): (r: seq<K>)
    ensures |r| == |xs|
    ensures forall i | 0 <= i < |xs| :: r[i] == keyOf(xs[i])
  {
    seq(|xs|, i requires 0 <= i < |xs| => keyOf(xs[i]))
  }

  /** The last item of a key, the one that wins. */
  function LastWith<K(==), T>(xs: seq<T>, keyOf: T -> K, k: K): Option<T> {
    if xs == [] then None
    else if keyOf(xs[|xs| - 1]) == k then Some(xs[|xs| - 1])
    else LastWith(xs[..|xs| - 1], keyOf, k)
  }

  lemma {:induction false} PutAllLookup<K(!new), T>(d: seq<Entry<K, T>>, xs: seq<T>, keyOf: T -> K, k: K)
    ensures Lookup(PutAll(d, xs, keyOf), k) ==
            if LastWith(xs, keyOf, k).Some? then LastWith(xs, keyOf, k) else Lookup(d, k)
  {
    if xs == [] {
    } else {
      var n := |xs| - 1;
      PutAllLookup(d, xs[..n], keyOf, k);
      PutLookup(PutAll(d, xs[..n], keyOf), keyOf(xs[n]), xs[n], k);
    }
  }

  lemma KeysOfSnoc<K, T>(before: seq<K>, xs: seq<T>, keyOf: T -> K)
    requires xs != []
    ensures var n := |xs| - 1;
            before + KeysOf(xs, keyOf) == (before + KeysOf(xs[..n], keyOf)) + [keyOf(xs[n])]
  {
  }

  lemma {:induction false} PutAllKeys<K(!new), T>(d: seq<Entry<K, T>>, xs: seq<T>, keyOf: T -> K)
    requires IsDict(d)
    ensures Keys(PutAll(d, xs, keyOf)) == Dedup(Keys(d) + KeysOf(xs, keyOf))
    ensures IsDict(PutAll(d, xs, keyOf))
  {
    if xs == [] {
      assert Keys(d) + KeysOf(xs, keyOf) == Keys(d);
      DedupOfDistinct(Keys(d));
    } else {
      var n := |xs| - 1;
      var e := PutAll(d, xs[..n], keyOf);
      PutAllKeys(d, xs[..n], keyOf);
      PutKeys(e, keyOf(xs[n]), xs[n]);
      PutIsDict(e, keyOf(xs[n]), xs[n]);
      KeysOfSnoc(Keys(d), xs, keyOf);
      DedupSnoc(Keys(d) + KeysOf(xs[..n], keyOf), keyOf(xs[n]));
    }
  }

  /** Every entry of the dict sits under its own key. */
  ghost predicate OwnKeys<K(!new), T>(d: seq<Entry<K, T>>, keyOf: T -> K) {
    forall i | 0 <= i < |d| :: d[i].key == keyOf(d[i].value)
  }

  lemma {:induction false} PutAllOwnKeys<K(!new), T>(d: seq<Entry<K, T>>, xs: seq<T>, keyOf: T -> K)
    requires OwnKeys(d, keyOf)
    ensures OwnKeys(PutAll(d, xs, keyOf), keyOf)
  {
    if xs == [] {
    } else {
      var n := |xs| - 1;
      PutAllOwnKeys(d, xs[..n], keyOf);
      PutOwnKey(PutAll(d, xs[..n], keyOf), xs[n], keyOf);
    }
  }

  lemma {:induction false} PutOwnKey<K(!new), T>(d: seq<Entry<K, T>>, x: T, keyOf: T -> K)
    requires OwnKeys(d, keyOf)
    ensures OwnKeys(Put(d, keyOf(x), x), keyOf)
  {
    if d == [] || d[0].key == keyOf(x) {
    } else {
      PutOwnKey(d[1..], x, keyOf);
      var e := Put(d[1..], keyOf(x), x);
      forall i | 0 <= i < |e| + 1
        ensures Put(d, keyOf(x), x)[i].key == keyOf(Put(d, keyOf(x), x)[i].value)
      {
        if i > 0 {
          assert Put(d, keyOf(x), x)[i] == e[i - 1];
        }
      }
    }
  }

  lemma {:induction false} LastWithOfFilter<K(!new), T>(xs: seq<T>, keyOf: T -> K, keeps: K -> bool, k: K)
    ensures LastWith(Filter(xs, x => keeps(keyOf(x))), keyOf, k) == if keeps(k) then LastWith(xs, keyOf, k) else None
  {
    if xs == [] {
    } else {
      var n := |xs| - 1;
      var p := x => keeps(keyOf(x));
      LastWithOfFilter(xs[..n], keyOf, keeps, k);
      assert xs == xs[..n] + [xs[n]];
      FilterConcat(xs[..n], [xs[n]], p);
      assert [xs[n]][1..] == [];
      var f := Filter(xs[..n], p);
      if p(xs[n]) {
        assert (f + [xs[n]])[..|f|] == f;
      } else {
        assert f + [] == f;
      }
    }
  }

  lemma {:induction false} KeysOfFilter<K(!new), T>(xs: seq<T>, keyOf: T -> K, keeps: K -> bool)
    ensures KeysOf(Filter(xs, x => keeps(keyOf(x))), keyOf) == Filter(KeysOf(xs, keyOf), keeps)
  {
    if xs == [] {
    } else {
      KeysOfFilter(xs[1..], keyOf, keeps);
      assert KeysOf(xs, keyOf)[1..] == KeysOf(xs[1..], keyOf);
    }
  }

  /** In a list with distinct keys the last item of a key is the only one. */
  lemma {:induction false} LastWithOfValues<K(!new), T>(d: seq<Entry<K, T>>, keyOf: T -> K, k: K)
    requires IsDict(d) && OwnKeys(d, keyOf)
    ensures LastWith(Values(d), keyOf, k) == Lookup(d, k)
  {
    if d == [] {
    } else {
      var n := |d| - 1;
      assert Values(d)[..n] == Values(d[..n]);
      assert Keys(d[..n]) == Keys(d)[..n];
      LastWithOfValues(d[..n], keyOf, k);
      if d[n].key == k {
        LookupAt(d, n);
      } else {
        LookupSnoc(d[..n], d[n], k);
        assert d == d[..n] + [d[n]];
      }
    }
  }

  lemma {:induction false} LookupSnoc<K(!new), T>(d: seq<Entry<K, T>>, e: Entry<K, T>, k: K)
    requires e.key != k
    ensures Lookup(d + [e], k) == Lookup(d, k)
  {
    if d == [] {
    } else {
      LookupSnoc(d[1..], e, k);
      assert (d + [e])[1..] == d[1..] + [e];
    }
  }

  /** The kept part of the current list, as a dict. */
  lemma KeptDict<K(!new), T>(current: seq<T>, keyOf: T -> K, keeps: K -> bool)
    ensures var d := PutAll([], Filter(current, x => keeps(keyOf(x))), keyOf);
            && IsDict(d)
            && Keys(d) == Dedup(Filter(KeysOf(current, keyOf), keeps))
            && OwnKeys(d, keyOf)
  {
    var kept := Filter(current, x => keeps(keyOf(x)));
    var none: seq<Entry<K, T>> := [];
    PutAllKeys(none, kept, keyOf);
    PutAllOwnKeys(none, kept, keyOf);
    KeysOfFilter(current, keyOf, keeps);
    assert Keys(none) + KeysOf(kept, keyOf) == KeysOf(kept, keyOf);
  }

  /**
    A merge is the map update "drop the removed keys, then assign the new items,
    the last one of a key winning"; its keys are the kept keys in their order of
    first occurrence, then the new ones in theirs.
    */
  lemma MergeIsMapUpdate<K(!new), T>(current: seq<T>, keyOf: T -> K, keeps: K -> bool, upserts: seq<T>, k: K)
    ensures var result := Merge(current, keyOf, keeps, upserts);
            && LastWith(result, keyOf, k) ==
               (if LastWith(upserts, keyOf, k).Some? then LastWith(upserts, keyOf, k)
                else if keeps(k) then LastWith(current, keyOf, k)
                else None)
            && KeysOf(result, keyOf) == Dedup(Filter(KeysOf(current, keyOf), keeps) + KeysOf(upserts, keyOf))
            && Distinct(KeysOf(result, keyOf))
  {
    var kept := Filter(current, x => keeps(keyOf(x)));
    var d := PutAll([], kept, keyOf);
    var e := PutAll(d, upserts, keyOf);
    var none: seq<Entry<K, T>> := [];
    KeptDict(current, keyOf, keeps);
    PutAllKeys(d, upserts, keyOf);
    PutAllOwnKeys(d, upserts, keyOf);
    PutAllLookup(d, upserts, keyOf, k);
    PutAllLookup(none, kept, keyOf, k);
    LastWithOfFilter(current, keyOf, keeps, k);
    LastWithOfValues(e, keyOf, k);
    assert KeysOf(Values(e), keyOf) == Keys(e);
    DedupOfDedup(Filter(KeysOf(current, keyOf), keeps), KeysOf(upserts, keyOf));
    DedupDistinct(Filter(KeysOf(current, keyOf), keeps) + KeysOf(upserts, keyOf));
  }

  lemma DedupOfDedup<K(!new)>(a: seq<K>, b: seq<K>)
    ensures Dedup(Dedup(a) + b) == Dedup(a + b)
  {
    DedupDistinct(a);
    DedupOfDistinct(Dedup(a));
    DedupConcat(Dedup(a), b);
    DedupConcat(a, b);
    forall x | x in Dedup(b)
      ensures x in Dedup(a) <==> x in a
    {
      DedupMember(a, x);
    }
    FilterSame(Dedup(b), x => x !in Dedup(a), x => x !in a);
  }

  // ---------------------------------------------------------------- applying twice

  /** The keys a merge adds: the upserted ones the kept part does not have. */
  function AddedKeys<K(==), T>(current: seq<T>, keyOf: T -> K, keeps: K -> bool, upserts: seq<T>): seq<K> {
    Filter(Dedup(KeysOf(upserts, keyOf)), k => k !in Filter(KeysOf(current, keyOf), keeps))
  }

  /** Among the added keys, no removed key is mentioned before one that is not removed. */
  ghost predicate RemovedKeysLast<K(!new), T>(current: seq<T>, keyOf: T -> K, keeps: K -> bool, upserts: seq<T>) {
    var added := AddedKeys(current, keyOf, keeps, upserts);
    forall i, j | 0 <= i < j < |added| :: !keeps(added[i]) ==> !keeps(added[j])
  }

  lemma MergedKeys<K(!new), T>(current: seq<T>, keyOf: T -> K, keeps: K -> bool, upserts: seq<T>)
    ensures KeysOf(Merge(current, keyOf, keeps, upserts), keyOf)
            == Dedup(Filter(KeysOf(current, keyOf), keeps)) + AddedKeys(current, keyOf, keeps, upserts)
    ensures Distinct(KeysOf(Merge(current, keyOf, keeps, upserts), keyOf))
  {
    var a, b := Filter(KeysOf(current, keyOf), keeps), KeysOf(upserts, keyOf);
    if upserts != [] {
      MergeIsMapUpdate(current, keyOf, keeps, upserts, keyOf(upserts[0]));
    } else if current != [] {
      MergeIsMapUpdate(current, keyOf, keeps, upserts, keyOf(current[0]));
    }
    DedupConcat(a, b);
  }

  /** After a second application: kept keys, added keys that are not removed, added keys that are. */
  lemma KeysAfterTwo<K(!new), T>(current: seq<T>, keyOf: T -> K, keeps: K -> bool, upserts: seq<T>)
    ensures var once := Merge(current, keyOf, keeps, upserts);
            var added := AddedKeys(current, keyOf, keeps, upserts);
            && Filter(KeysOf(once, keyOf), keeps)
               == Dedup(Filter(KeysOf(current, keyOf), keeps)) + Filter(added, keeps)
            && AddedKeys(once, keyOf, keeps, upserts) == Filter(added, k => !keeps(k))
  {
    var once := Merge(current, keyOf, keeps, upserts);
    var a, b := Filter(KeysOf(current, keyOf), keeps), KeysOf(upserts, keyOf);
    var added := AddedKeys(current, keyOf, keeps, upserts);
    MergedKeys(current, keyOf, keeps, upserts);
    FilterConcat(Dedup(a), added, keeps);
    forall i | 0 <= i < |Dedup(a)|
      ensures keeps(Dedup(a)[i])
    {
      DedupMember(a, Dedup(a)[i]);
      FilterMember(KeysOf(current, keyOf), keeps, Dedup(a)[i]);
    }
    FilterAll(Dedup(a), keeps);
    var kept2 := Dedup(a) + Filter(added, keeps);
    forall i | 0 <= i < |Dedup(b)|
      ensures var k := Dedup(b)[i]; k !in kept2 <==> k !in a && !keeps(k)
    {
      var k := Dedup(b)[i];
      DedupMember(a, k);
      FilterMember(added, keeps, k);
      FilterMember(Dedup(b), x => x !in a, k);
      FilterMember(KeysOf(current, keyOf), keeps, k);
    }
    FilterTwice(Dedup(b), x => x !in a, k => !keeps(k), k => k !in kept2);
  }

  /** From the first element outside on, all are outside. */
  ghost predicate OutsideLast<K(!new)>(s: seq<K>, p: K -> bool) {
    forall i, j | 0 <= i < j < |s| :: !p(s[i]) ==> !p(s[j])
  }

  lemma OutsideLastCons<K(!new)>(x: K, t: seq<K>, p: K -> bool)
    ensures OutsideLast([x] + t, p) <==> if p(x) then OutsideLast(t, p) else forall j | 0 <= j < |t| :: !p(t[j])
  {
    var s := [x] + t;
    assert forall j | 0 <= j < |t| :: s[j + 1] == t[j];
    if OutsideLast(s, p) {
      forall i, j | 0 <= i < j < |t| && !p(t[i])
        ensures !p(t[j])
      {
        assert s[i + 1] == t[i] && s[j + 1] == t[j];
      }
      forall j | 0 <= j < |t| && !p(x)
        ensures !p(t[j])
      {
        assert s[0] == x && s[j + 1] == t[j];
      }
    }
  }

  lemma NoneInsideIff<K>(t: seq<K>, p: K -> bool)
    ensures Filter(t, p) == [] <==> forall j | 0 <= j < |t| :: !p(t[j])
  {
    if Filter(t, p) == [] {
      forall j | 0 <= j < |t|
        ensures !p(t[j])
      {
        FilterMember(t, p, t[j]);
      }
    } else {
      FilterMember(t, p, Filter(t, p)[0]);
    }
  }

  /** An inside head leaves the question to the tail. */
  lemma InsideHead<K>(x: K, t: seq<K>, a: seq<K>, b: seq<K>)
    ensures [x] + t == ([x] + a) + b <==> t == a + b
  {
    assert ([x] + a) + b == [x] + (a + b);
    assert ([x] + t)[1..] == t && ([x] + (a + b))[1..] == a + b;
  }

  /** An outside head stays in front only if nothing is inside. */
  lemma OutsideHead<K>(x: K, t: seq<K>, p: K -> bool, q: K -> bool)
    requires !p(x) && forall k :: q(k) == !p(k)
    ensures [x] + t == Filter(t, p) + ([x] + Filter(t, q)) <==> Filter(t, p) == []
  {
    var yes := Filter(t, p);
    NoneInsideIff(t, p);
    if yes == [] {
      FilterAll(t, q);
      assert [x] + t == [] + ([x] + t);
    } else {
      FilterMember(t, p, yes[0]);
      assert (yes + ([x] + Filter(t, q)))[0] == yes[0];
      assert ([x] + t)[0] == x;
    }
  }

  /** Sorting a list into inside and outside changes nothing exactly when the outside comes last. */
  lemma {:induction false} PartitionedIff<K(!new)>(s: seq<K>, p: K -> bool, q: K -> bool)
    requires forall k :: q(k) == !p(k)
    ensures s == Filter(s, p) + Filter(s, q) <==> OutsideLast(s, p)
  {
    if s == [] {
    } else {
      var x, t := s[0], s[1..];
      assert s == [x] + t;
      PartitionedIff(t, p, q);
      OutsideLastCons(x, t, p);
      NoneInsideIff(t, p);
      if p(x) {
        InsideHead(x, t, Filter(t, p), Filter(t, q));
      } else {
        OutsideHead(x, t, p, q);
      }
    }
  }

  lemma SameItems<K(!new), T>(xs: seq<T>, ys: seq<T>, keyOf: T -> K)
    requires KeysOf(xs, keyOf) == KeysOf(ys, keyOf) && Distinct(KeysOf(xs, keyOf))
    requires forall k | k in KeysOf(xs, keyOf) :: LastWith(xs, keyOf, k) == LastWith(ys, keyOf, k)
    ensures xs == ys
  {
    assert |xs| == |KeysOf(xs, keyOf)| == |ys|;
    forall i | 0 <= i < |xs|
      ensures xs[i] == ys[i]
    {
      var k := KeysOf(xs, keyOf)[i];
      assert KeysOf(ys, keyOf)[i] == k;
      OnlyWith(xs, keyOf, i);
      OnlyWith(ys, keyOf, i);
    }
  }

  lemma {:induction false} OnlyWith<K(!new), T>(xs: seq<T>, keyOf: T -> K, i: nat)
    requires i < |xs| && Distinct(KeysOf(xs, keyOf))
    ensures LastWith(xs, keyOf, keyOf(xs[i])) == Some(xs[i])
  {
    var n := |xs| - 1;
    if i >= n {
    } else {
      assert KeysOf(xs[..n], keyOf) == KeysOf(xs, keyOf)[..n];
      assert KeysOf(xs, keyOf)[i] != KeysOf(xs, keyOf)[n];
      OnlyWith(xs[..n], keyOf, i);
    }
  }

  /** As a map, a second application of the same patch changes nothing. */
  lemma TwiceIsOnceAsMap<K(!new), T>(current: seq<T>, keyOf: T -> K, keeps: K -> bool, upserts: seq<T>, k: K)
    ensures var once := Merge(current, keyOf, keeps, upserts);
            LastWith(Merge(once, keyOf, keeps, upserts), keyOf, k) == LastWith(once, keyOf, k)
  {
    var once := Merge(current, keyOf, keeps, upserts);
    MergeIsMapUpdate(current, keyOf, keeps, upserts, k);
    MergeIsMapUpdate(once, keyOf, keeps, upserts, k);
  }

  lemma SameTail<K>(a: seq<K>, s: seq<K>, t: seq<K>)
    ensures a + s == a + t <==> s == t
  {
    assert (a + s)[|a|..] == s && (a + t)[|a|..] == t;
  }

  lemma KeysOfTwice<K(!new), T>(current: seq<T>, keyOf: T -> K, keeps: K -> bool, upserts: seq<T>)
    ensures var once := Merge(current, keyOf, keeps, upserts);
            var twice := Merge(once, keyOf, keeps, upserts);
            var kept := Dedup(Filter(KeysOf(current, keyOf), keeps));
            var added := AddedKeys(current, keyOf, keeps, upserts);
            && KeysOf(once, keyOf) == kept + added
            && KeysOf(twice, keyOf) == kept + (Filter(added, keeps) + Filter(added, k => !keeps(k)))
            && Distinct(KeysOf(twice, keyOf))
  {
    var once := Merge(current, keyOf, keeps, upserts);
    var kept := Dedup(Filter(KeysOf(current, keyOf), keeps));
    var added := AddedKeys(current, keyOf, keeps, upserts);
    var yes, no := Filter(added, keeps), Filter(added, k => !keeps(k));
    MergedKeys(current, keyOf, keeps, upserts);
    MergedKeys(once, keyOf, keeps, upserts);
    KeysAfterTwo(current, keyOf, keeps, upserts);
    FilterDistinct(KeysOf(once, keyOf), keeps);
    DedupOfDistinct(Filter(KeysOf(once, keyOf), keeps));
    assert (kept + yes) + no == kept + (yes + no);
  }

  /** As a list it changes nothing exactly when the removed keys among the added ones come last. */
  lemma TwiceIsOnceIff<K(!new), T>(current: seq<T>, keyOf: T -> K, keeps: K -> bool, upserts: seq<T>)
    ensures var once := Merge(current, keyOf, keeps, upserts);
            Merge(once, keyOf, keeps, upserts) == once <==> RemovedKeysLast(current, keyOf, keeps, upserts)
  {
    var once := Merge(current, keyOf, keeps, upserts);
    var twice := Merge(once, keyOf, keeps, upserts);
    var added := AddedKeys(current, keyOf, keeps, upserts);
    var drops := k => !keeps(k);
    var sorted := Filter(added, keeps) + Filter(added, drops);
    KeysOfTwice(current, keyOf, keeps, upserts);
    PartitionedIff(added, keeps, drops);
    if added == sorted {
      forall k | k in KeysOf(twice, keyOf)
        ensures LastWith(twice, keyOf, k) == LastWith(once, keyOf, k)
      {
        TwiceIsOnceAsMap(current, keyOf, keeps, upserts, k);
      }
      SameItems(twice, once, keyOf);
    } else {
      SameTail(Dedup(Filter(KeysOf(current, keyOf), keeps)), added, sorted);
    }
  }

  /** From the second application on, the list no longer changes. */
  lemma ThriceIsTwice<K(!new), T>(current: seq<T>, keyOf: T -> K, keeps: K -> bool, upserts: seq<T>)
    ensures var twice := Merge(Merge(current, keyOf, keeps, upserts), keyOf, keeps, upserts);
            Merge(twice, keyOf, keeps, upserts) == twice
  {
    var once := Merge(current, keyOf, keeps, upserts);
    var added := AddedKeys(once, keyOf, keeps, upserts);
    KeysAfterTwo(current, keyOf, keeps, upserts);
    forall i | 0 <= i < |added|
      ensures !keeps(added[i])
    {
      FilterMember(AddedKeys(current, keyOf, keeps, upserts), k => !keeps(k), added[i]);
    }
    TwiceIsOnceIff(once, keyOf, keeps, upserts);
  }

  // ------------------------------------------------------------- replacing a type

  /** After replacing an entity type, only the additions of that type remain. */
  lemma ReplacedTypeIsAdditions(current: seq<NamedConstraint>, replaceTypes: seq<string>, removals: seq<NamedSelector>,
                                additions: seq<NamedConstraint>, c: NamedConstraint)
    requires c.entityType in replaceTypes
    ensures c in MergeNamed(current, replaceTypes, removals, additions)
            <==> LastWith(additions, NamedKey, NamedKey(c)) == Some(c)
  {
    var keeps := KeepsNamed(replaceTypes, removals);
    var result := Merge(current, NamedKey, keeps, additions);
    MergeIsMapUpdate(current, NamedKey, keeps, additions, NamedKey(c));
    if c in result {
      var i: nat :| i < |result| && result[i] == c;
      OnlyWith(result, NamedKey, i);
    }
    if LastWith(result, NamedKey, NamedKey(c)) == Some(c) {
      LastWithIsIn(result, NamedKey, NamedKey(c));
    }
  }

  lemma {:induction false} LastWithIsIn<K(!new), T>(xs: seq<T>, keyOf: T -> K, k: K)
    requires LastWith(xs, keyOf, k).Some?
    ensures LastWith(xs, keyOf, k).value in xs && keyOf(LastWith(xs, keyOf, k).value) == k
  {
    if keyOf(xs[|xs| - 1]) == k {
    } else {
      LastWithIsIn(xs[..|xs| - 1], keyOf, k);
    }
  }

  /** A removed and re-added preference moves behind the other new ones on a second application. */
  lemma SecondApplicationMayReorder()
    ensures var quiet, direct := Preference("hotel", "quiet", ""), Preference("flight", "direct", "");
            var once := MergePreferences([], [("hotel", "quiet")], [quiet, direct]);
            MergePreferences(once, [("hotel", "quiet")], [quiet, direct]) != once
  {
    var quiet, direct := Preference("hotel", "quiet", ""), Preference("flight", "direct", "");
    var keyOf, keeps := PreferenceKey, KeepsPairs([("hotel", "quiet")]);
    var us := [quiet, direct];
    var keys := KeysOf(us, keyOf);
    assert keys == [("hotel", "quiet"), ("flight", "direct")];
    DedupOfDistinct(keys);
    FilterAll(keys, k => k !in Filter(KeysOf([], keyOf), keeps));
    TwiceIsOnceIff([], keyOf, keeps, us);
    var added := AddedKeys([], keyOf, keeps, us);
    assert added == keys;
    assert !keeps(added[0]) && keeps(added[1]);
  }
}
