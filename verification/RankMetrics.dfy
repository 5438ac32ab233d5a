/**
  The graded ranking metric of eval/rag_metrics.py.

  The gain 2^grade - 1 and the discount 1/log2(rank + 1) enter as a pair of
  functions of which only `IsScale` is used; so every result holds for any
  increasing gain that vanishes at 0 and any positive decreasing discount.
  `norm` stands for `str(x).strip().lower()`.
  */
module RankMetrics {
  import opened Prelude
  import opened Collections
  import opened OrderedDict
  import opened Sorting

  /** `ValueError` for a bad k, `None` for "not applicable", or the score. */
  datatype Metric = Raised | NotApplicable | Score(value: real)

  datatype Scale = Scale(gain: real -> real, discount: nat -> real)

  ghost predicate IsScale(sc: Scale) {
    && sc.gain(0.0) == 0.0
    && (forall x, y :: 0.0 <= x < y ==> sc.gain(x) < sc.gain(y))
    && (forall r: nat, q: nat :: r < q ==> 0.0 < sc.discount(q) < sc.discount(r))
  }

  // ---------------------------------------------------------------- the code

  function NormalizedValues(ids: seq<string>, norm: string -> string): seq<string> {
    Filter(seq(|ids|, i requires 0 <= i < |ids| => norm(ids[i])), (s: string) => s != "")
  }

  function TopK(ids: seq<string>, norm: string -> string, k: nat): seq<string> {
    Take(Dedup(NormalizedValues(ids, norm)), k)
  }

  function NormalizedGrades(relevance: seq<Entry<string, real>>, norm: string -> string)
    : seq<Entry<string, real>>
  {
    if relevance == [] then []
    else
      var n := |relevance| - 1;
      var d := NormalizedGrades(relevance[..n], norm);
      var e := relevance[n];
      if norm(e.key) == "" then d
      else Put(d, norm(e.key), if e.value > 0.0 then e.value else 0.0)
  }

  function Positive(grades: seq<real>): seq<real> {
    Filter(grades, g => g > 0.0)
  }

  function Grade(d: seq<Entry<string, real>>, id: string): real {
    match Lookup(d, id) case Some(g) => g case None => 0.0
  }

  function Grades(ids: seq<string>, d: seq<Entry<string, real>>): (r: seq<real>)
    ensures |r| == |ids|
  {
    if ids == [] then [] else [Grade(d, ids[0])] + Grades(ids[1..], d)
  }

  function IdealGrades(d: seq<Entry<string, real>>, k: nat): seq<real> {
    Take(SortBy(Positive(Values(d)), (x, y) => x >= y), k)
  }

  function ActualGrades(ranked: seq<string>, d: seq<Entry<string, real>>, norm: string -> string, k: nat)
    : seq<real>
  {
    Grades(TopK(ranked, norm, k), d)
  }

  /** `_dcg`: the sum over ranks 1, 2, ... */
  function Dcg(grades: seq<real>, sc: Scale): real {
    if grades == [] then 0.0
    else
      var n := |grades|;
      Dcg(grades[..n - 1], sc) + sc.gain(grades[n - 1]) * sc.discount(n)
  }

  function Ndcg(ranked: seq<string>, relevance: seq<Entry<string, real>>, k: int,
                norm: string -> string, sc: Scale): Metric
  {
    if k <= 0 then Raised
    else
      var d := NormalizedGrades(relevance, norm);
      if Positive(Values(d)) == [] then NotApplicable
      else
        var ideal := Dcg(IdealGrades(d, k), sc);
        if ideal == 0.0 then NotApplicable
        else Score(Dcg(ActualGrades(ranked, d, norm, k), sc) / ideal)
  }

  // ------------------------------------------- sums over a zero-padded ranking

  predicate NonNegative(s: seq<real>) {
    forall i | 0 <= i < |s| :: s[i] >= 0.0
  }

  lemma GainNonNegative(x: real, sc: Scale)
    requires IsScale(sc) && x >= 0.0
    ensures sc.gain(x) >= 0.0
    ensures x > 0.0 <==> sc.gain(x) > 0.0
  {
    assert x > 0.0 ==> sc.gain(0.0) < sc.gain(x);
  }

  lemma DiscountPositive(r: nat, sc: Scale)
    requires IsScale(sc)
    ensures sc.discount(r) > sc.discount(r + 1) > 0.0
  {
  }

  function At(s: seq<real>, i: nat): real {
    if i < |s| then s[i] else 0.0
  }

  function GainTo(s: seq<real>, r: nat, sc: Scale): real {
    if r == 0 then 0.0 else GainTo(s, r - 1, sc) + sc.gain(At(s, r - 1))
  }

  function DcgTo(s: seq<real>, r: nat, sc: Scale): real {
    if r == 0 then 0.0 else DcgTo(s, r - 1, sc) + sc.gain(At(s, r - 1)) * sc.discount(r)
  }

  lemma {:induction false} SameUpTo(s: seq<real>, t: seq<real>, r: nat, sc: Scale)
    requires forall i: nat | i < r :: At(s, i) == At(t, i)
    ensures DcgTo(s, r, sc) == DcgTo(t, r, sc) && GainTo(s, r, sc) == GainTo(t, r, sc)
  {
    if r == 0 {
    } else {
      SameUpTo(s, t, r - 1, sc);
    }
  }

  lemma {:induction false} DcgIsFull(s: seq<real>, sc: Scale)
    ensures Dcg(s, sc) == DcgTo(s, |s|, sc)
  {
    if s == [] {
    } else {
      var n := |s|;
      DcgIsFull(s[..n - 1], sc);
      SameUpTo(s[..n - 1], s, n - 1, sc);
    }
  }

  lemma {:induction false} DcgIsPadded(s: seq<real>, k: nat, sc: Scale)
    requires sc.gain(0.0) == 0.0 && |s| <= k
    ensures Dcg(s, sc) == DcgTo(s, k, sc)
    decreases k
  {
    if |s| < k {
      DcgIsPadded(s, k - 1, sc);
      assert sc.gain(At(s, k - 1)) == 0.0;
    } else {
      DcgIsFull(s, sc);
    }
  }

  lemma {:induction false} GainToStep(s: seq<real>, r: nat, q: nat, sc: Scale)
    requires IsScale(sc) && r <= q && NonNegative(s)
    ensures GainTo(s, r, sc) <= GainTo(s, q, sc)
    decreases q
  {
    if r >= q {
    } else {
      GainToStep(s, r, q - 1, sc);
      GainNonNegative(At(s, q - 1), sc);
    }
  }

  lemma {:induction false} GainToCons(s: seq<real>, r: nat, sc: Scale)
    requires s != [] && r > 0
    ensures GainTo(s, r, sc) == sc.gain(s[0]) + GainTo(s[1..], r - 1, sc)
  {
    if r <= 1 {
    } else {
      GainToCons(s, r - 1, sc);
      assert At(s, r - 1) == At(s[1..], r - 2);
    }
  }

  // -------------------------------------------------- the rearrangement bound

  /** Every prefix of t gains at least as much as the same prefix of s. */
  ghost predicate Dominates(t: seq<real>, s: seq<real>, k: nat, sc: Scale) {
    forall r: nat :: r <= k ==> GainTo(s, r, sc) <= GainTo(t, r, sc)
  }

  /** t has gained strictly more than s over some prefix shorter than r. */
  predicate EverAhead(t: seq<real>, s: seq<real>, r: nat, sc: Scale) {
    r > 0 && (EverAhead(t, s, r - 1, sc) || GainTo(s, r - 1, sc) < GainTo(t, r - 1, sc))
  }

  lemma {:induction false} NeverAheadTies(t: seq<real>, s: seq<real>, r: nat, q: nat, sc: Scale)
    requires !EverAhead(t, s, r, sc) && q < r && GainTo(s, q, sc) <= GainTo(t, q, sc)
    ensures GainTo(s, q, sc) == GainTo(t, q, sc)
  {
    if q >= r - 1 {
    } else {
      NeverAheadTies(t, s, r - 1, q, sc);
    }
  }

  function Worth(discount: real, gap: real): real {
    discount * gap
  }

  /**
    The lead of t in discounted gain over the first r ranks is at least the
    discount times its lead in gain, and strictly more once t has been ahead.
    */
  predicate LeadsBy(t: seq<real>, s: seq<real>, r: nat, sc: Scale) {
    var dcgLead := DcgTo(t, r, sc) - DcgTo(s, r, sc);
    var worth := Worth(sc.discount(r), GainTo(t, r, sc) - GainTo(s, r, sc));
    dcgLead >= worth && (EverAhead(t, s, r, sc) ==> dcgLead > worth)
  }

  lemma LeadsByStep(t: seq<real>, s: seq<real>, r: nat, sc: Scale)
    requires r > 0 && LeadsBy(t, s, r - 1, sc)
    requires 0.0 < sc.discount(r) < sc.discount(r - 1)
    requires GainTo(s, r - 1, sc) <= GainTo(t, r - 1, sc)
    ensures LeadsBy(t, s, r, sc)
  {
    var g, hi, lo := GainTo(t, r - 1, sc) - GainTo(s, r - 1, sc), sc.discount(r - 1), sc.discount(r);
    var x, y := sc.gain(At(t, r - 1)), sc.gain(At(s, r - 1));
    ProductStep(g, hi, lo);
    Distribute(lo, g, x, y);
    LeadStep(DcgTo(t, r - 1, sc) - DcgTo(s, r - 1, sc), g, Worth(hi, g), Worth(lo, g), x * lo - y * lo);
  }

  /** Both leads change by the same discounted difference; the products enter as numbers. */
  lemma LeadStep(lead: real, gap: real, high: real, low: real, change: real)
    requires lead >= high >= low && gap >= 0.0 && (gap > 0.0 ==> high > low)
    ensures lead + change >= low + change
    ensures lead > high || gap > 0.0 ==> lead + change > low + change
  {
  }

  lemma Distribute(z: real, g: real, x: real, y: real)
    ensures Worth(z, g + x - y) == Worth(z, g) + (x * z - y * z)
  {
  }

  lemma ProductStep(x: real, hi: real, lo: real)
    requires x >= 0.0 && lo < hi
    ensures Worth(hi, x) >= Worth(lo, x)
    ensures x > 0.0 ==> Worth(hi, x) > Worth(lo, x)
  {
    WorthOfDifference(hi, lo, x);
    ProductSign(hi - lo, x);
  }

  lemma WorthOfDifference(hi: real, lo: real, x: real)
    ensures Worth(hi, x) - Worth(lo, x) == Worth(hi - lo, x)
  {
  }

  /** Summation by parts, one rank at a time. */
  lemma {:induction false} DominanceDiscounts(t: seq<real>, s: seq<real>, r: nat, k: nat, sc: Scale)
    requires IsScale(sc) && Dominates(t, s, k, sc) && r <= k
    ensures LeadsBy(t, s, r, sc)
  {
    if r == 0 {
    } else {
      DominanceDiscounts(t, s, r - 1, k, sc);
      DiscountPositive(r - 1, sc);
      LeadsByStep(t, s, r, sc);
    }
  }

  lemma LeadIsNonNegative(t: seq<real>, s: seq<real>, k: nat, sc: Scale)
    requires LeadsBy(t, s, k, sc) && sc.discount(k) > 0.0
    requires GainTo(s, k, sc) <= GainTo(t, k, sc)
    ensures DcgTo(s, k, sc) <= DcgTo(t, k, sc)
    ensures DcgTo(s, k, sc) == DcgTo(t, k, sc) ==>
              GainTo(s, k, sc) == GainTo(t, k, sc) && !EverAhead(t, s, k, sc)
  {
    var gap := GainTo(t, k, sc) - GainTo(s, k, sc);
    ProductSign(sc.discount(k), gap);
    LeadSign(DcgTo(t, k, sc) - DcgTo(s, k, sc), Worth(sc.discount(k), gap), gap, EverAhead(t, s, k, sc));
  }

  lemma ProductSign(x: real, y: real)
    requires x > 0.0 && y >= 0.0
    ensures Worth(x, y) >= 0.0 && (y > 0.0 ==> Worth(x, y) > 0.0)
  {
  }

  lemma LeadSign(lead: real, worth: real, gap: real, ahead: bool)
    requires lead >= worth >= 0.0 && gap >= 0.0 && (gap > 0.0 ==> worth > 0.0) && (ahead ==> lead > worth)
    ensures lead >= 0.0 && (lead == 0.0 ==> gap == 0.0 && !ahead)
  {
  }

  lemma {:induction false} DominatedDcg(t: seq<real>, s: seq<real>, k: nat, sc: Scale)
    requires IsScale(sc) && Dominates(t, s, k, sc)
    ensures DcgTo(s, k, sc) <= DcgTo(t, k, sc)
    ensures DcgTo(s, k, sc) == DcgTo(t, k, sc) ==>
              GainTo(s, k, sc) == GainTo(t, k, sc) && !EverAhead(t, s, k, sc)
  {
    DominanceDiscounts(t, s, k, k, sc);
    DiscountPositive(k, sc);
    LeadIsNonNegative(t, s, k, sc);
  }

  /** The bound is attained only rank by rank. */
  lemma DominatedDcgTight(t: seq<real>, s: seq<real>, k: nat, i: nat, sc: Scale)
    requires IsScale(sc) && Dominates(t, s, k, sc) && i < k
    requires DcgTo(s, k, sc) == DcgTo(t, k, sc)
    requires NonNegative(s) && NonNegative(t)
    ensures At(s, i) == At(t, i)
  {
    DominatedDcg(t, s, k, sc);
    NeverAheadTies(t, s, k, i, sc);
    if i + 1 < k {
      NeverAheadTies(t, s, k, i + 1, sc);
    }
    GainInjective(At(s, i), At(t, i), sc);
  }

  lemma GainInjective(x: real, y: real, sc: Scale)
    requires IsScale(sc) && x >= 0.0 && y >= 0.0 && sc.gain(x) == sc.gain(y)
    ensures x == y
  {
  }

  // ------------------------------- the best r grades beat any r distinct grades

  function Sum(s: seq<real>, sc: Scale): real {
    if s == [] then 0.0 else sc.gain(s[0]) + Sum(s[1..], sc)
  }

  lemma {:induction false} SumWithout(s: seq<real>, j: nat, sc: Scale)
    requires j < |s|
    ensures Sum(s, sc) == sc.gain(s[j]) + Sum(s[..j] + s[j + 1..], sc)
  {
    var rest := s[..j] + s[j + 1..];
    if j == 0 {
      assert rest == s[1..];
    } else {
      SumWithout(s[1..], j - 1, sc);
      assert rest[1..] == s[1..][..j - 1] + s[1..][j..];
    }
  }

  predicate Descending(s: seq<real>) {
    forall i, j | 0 <= i < j < |s| :: s[i] >= s[j]
  }

  lemma MultisetWithout(b: seq<real>, j: nat)
    requires j < |b|
    ensures multiset(b[..j] + b[j + 1..]) == multiset(b) - multiset{b[j]}
  {
    assert b == b[..j] + [b[j]] + b[j + 1..];
  }

  lemma MultisetTail(s: seq<real>)
    requires s != []
    ensures multiset(s[1..]) == multiset(s) - multiset{s[0]} && s[0] in multiset(s)
  {
    assert s == [s[0]] + s[1..];
  }

  lemma TopIsDrawn(b: seq<real>, s: seq<real>, j: nat)
    requires s != [] && j < |b| && (s[0] in b ==> b[j] == s[0])
    ensures b[j] in multiset(b) && (s[0] in multiset(b) ==> b[j] == s[0])
  {
  }

  lemma SmallerDraw(a: multiset<real>, m: multiset<real>, x: real, y: real)
    requires a <= m && x in a && y in m && (y in a ==> x == y)
    ensures a - multiset{x} <= m - multiset{y}
  {
  }

  lemma RestWithin(b: seq<real>, s: seq<real>, j: nat)
    requires s != [] && j < |b| && multiset(b) <= multiset(s)
    requires s[0] in b ==> b[j] == s[0]
    ensures multiset(b[..j] + b[j + 1..]) <= multiset(s[1..])
  {
    MultisetWithout(b, j);
    MultisetTail(s);
    TopIsDrawn(b, s, j);
    SmallerDraw(multiset(b), multiset(s), b[j], s[0]);
  }

  lemma DrawnBelowTop(b: seq<real>, s: seq<real>, j: nat)
    requires j < |b| && multiset(b) <= multiset(s) && Descending(s)
    ensures s != [] && b[j] <= s[0]
  {
    assert b[j] in multiset(b);
    assert b[j] in multiset(s);
    var i :| 0 <= i < |s| && s[i] == b[j];
  }

  /** Grades drawn from a descending list, each at most as often as it occurs, gain no more than its top. */
  lemma {:induction false} TopSum(b: seq<real>, s: seq<real>, sc: Scale)
    requires IsScale(sc)
    requires multiset(b) <= multiset(s)
    requires Descending(s) && NonNegative(b)
    ensures Sum(b, sc) <= GainTo(s, |b|, sc)
    decreases |s|
  {
    if b == [] {
    } else {
      var j: nat := if s != [] && s[0] in b then var j: nat :| j < |b| && b[j] == s[0]; j else 0;
      DrawnBelowTop(b, s, j);
      RestWithin(b, s, j);
      TopSum(b[..j] + b[j + 1..], s[1..], sc);
      SumWithout(b, j, sc);
      GainToCons(s, |b|, sc);
      GainMonotone(b[j], s[0], sc);
    }
  }

  lemma GainMonotone(x: real, y: real, sc: Scale)
    requires IsScale(sc) && 0.0 <= x <= y
    ensures sc.gain(x) <= sc.gain(y)
  {
    assert x < y ==> sc.gain(x) < sc.gain(y);
  }

  lemma {:induction false} SumOfPositives(s: seq<real>, r: nat, sc: Scale)
    requires IsScale(sc) && r <= |s| && NonNegative(s)
    ensures Sum(Positive(s[..r]), sc) == GainTo(s, r, sc)
  {
    if r == 0 {
    } else {
      SumOfPositives(s, r - 1, sc);
      assert s[..r] == s[..r - 1] + [s[r - 1]];
      PositiveSnoc(s[..r - 1], s[r - 1]);
      if s[r - 1] > 0.0 {
        SumConcat(Positive(s[..r - 1]), [s[r - 1]], sc);
        assert Sum([s[r - 1]], sc) == sc.gain(s[r - 1]);
      } else {
        assert Positive(s[..r]) == Positive(s[..r - 1]);
      }
    }
  }

  lemma PositiveSnoc(s: seq<real>, x: real)
    ensures Positive(s + [x]) == Positive(s) + if x > 0.0 then [x] else []
  {
    FilterConcat(s, [x], g => g > 0.0);
    assert [x][1..] == [];
  }

  lemma {:induction false} SumConcat(a: seq<real>, b: seq<real>, sc: Scale)
    ensures Sum(a + b, sc) == Sum(a, sc) + Sum(b, sc)
  {
    if a == [] {
      assert a + b == b;
    } else {
      SumConcat(a[1..], b, sc);
      assert (a + b)[1..] == a[1..] + b;
    }
  }

  // ------------------------------------------ distinct ids draw distinct entries

  /** `d` without the entry of `id` */
  function Without(d: seq<Entry<string, real>>, id: string): seq<Entry<string, real>> {
    if d == [] then []
    else if d[0].key == id then d[1..]
    else [d[0]] + Without(d[1..], id)
  }

  lemma {:induction false} WithoutLookup(d: seq<Entry<string, real>>, id: string, x: string)
    requires x != id
    ensures Lookup(Without(d, id), x) == Lookup(d, x)
  {
    if d == [] || d[0].key == id {
    } else {
      WithoutLookup(d[1..], id, x);
      assert Without(d, id)[1..] == Without(d[1..], id);
    }
  }

  lemma {:induction false} WithoutPositives(d: seq<Entry<string, real>>, id: string)
    requires Grade(d, id) > 0.0
    ensures multiset(Positive(Values(d))) ==
            multiset{Grade(d, id)} + multiset(Positive(Values(Without(d, id))))
  {
    PositiveValues(d[0], d[1..]);
    assert d == [d[0]] + d[1..];
    if d[0].key == id {
    } else {
      WithoutPositives(d[1..], id);
      PositiveValues(d[0], Without(d[1..], id));
    }
  }

  lemma PositiveValues(e: Entry<string, real>, d: seq<Entry<string, real>>)
    ensures Positive(Values([e] + d)) == (if e.value > 0.0 then [e.value] else []) + Positive(Values(d))
  {
    assert Values([e] + d) == [e.value] + Values(d);
    FilterConcat([e.value], Values(d), g => g > 0.0);
    assert [e.value][1..] == [];
  }

  lemma {:induction false} GradesWithout(ids: seq<string>, d: seq<Entry<string, real>>, id: string)
    requires id !in ids
    ensures Grades(ids, Without(d, id)) == Grades(ids, d)
  {
    if ids == [] {
    } else {
      WithoutLookup(d, id, ids[0]);
      GradesWithout(ids[1..], d, id);
    }
  }

  lemma {:induction false} DistinctDraw(ids: seq<string>, d: seq<Entry<string, real>>)
    requires Distinct(ids)
    ensures multiset(Positive(Grades(ids, d))) <= multiset(Positive(Values(d)))
  {
    if ids == [] {
    } else {
      var g := Grade(d, ids[0]);
      assert Grades(ids, d)[1..] == Grades(ids[1..], d);
      if g > 0.0 {
        var d' := Without(d, ids[0]);
        WithoutPositives(d, ids[0]);
        GradesWithout(ids[1..], d, ids[0]);
        DistinctDraw(ids[1..], d');
      } else {
        DistinctDraw(ids[1..], d);
      }
    }
  }

  // ------------------------------------------------------------------ results

  predicate NonNegativeDict(d: seq<Entry<string, real>>) {
    forall i | 0 <= i < |d| :: d[i].value >= 0.0
  }

  lemma {:induction false} PutNonNegative(d: seq<Entry<string, real>>, k: string, v: real)
    requires NonNegativeDict(d) && v >= 0.0
    ensures NonNegativeDict(Put(d, k, v))
  {
    if d == [] || d[0].key == k {
    } else {
      PutNonNegative(d[1..], k, v);
    }
  }

  lemma {:induction false} GradesNonNegative(relevance: seq<Entry<string, real>>, norm: string -> string)
    ensures NonNegativeDict(NormalizedGrades(relevance, norm))
  {
    if relevance == [] {
    } else {
      var e := relevance[|relevance| - 1];
      var before := relevance[..|relevance| - 1];
      GradesNonNegative(before, norm);
      PutNonNegative(NormalizedGrades(before, norm), norm(e.key), if e.value > 0.0 then e.value else 0.0);
    }
  }

  lemma {:induction false} GradesAt(ids: seq<string>, d: seq<Entry<string, real>>)
    ensures forall i | 0 <= i < |ids| :: Grades(ids, d)[i] == Grade(d, ids[i])
    ensures NonNegativeDict(d) ==> NonNegative(Grades(ids, d))
  {
    if ids == [] {
    } else {
      GradesAt(ids[1..], d);
    }
  }

  /** The ideal list: descending, positive, the positive grades themselves, cut at k. */
  lemma IdealShape(d: seq<Entry<string, real>>, k: nat) returns (all: seq<real>)
    ensures IdealGrades(d, k) == Take(all, k)
    ensures multiset(all) == multiset(Positive(Values(d)))
    ensures Descending(all) && |all| == |Positive(Values(d))|
    ensures forall i | 0 <= i < |all| :: all[i] > 0.0
  {
    var le := (x: real, y: real) => x >= y;
    all := SortBy(Positive(Values(d)), le);
    SortByAscending(Positive(Values(d)), le);
    assert forall i, j | 0 <= i < j < |all| :: le(all[i], all[j]);
    forall i | 0 <= i < |all|
      ensures all[i] > 0.0
    {
      SortByMembers(Positive(Values(d)), le, all[i]);
      FilterMember(Values(d), g => g > 0.0, all[i]);
    }
  }

  lemma {:induction false} GradesPrefix(ids: seq<string>, d: seq<Entry<string, real>>, m: nat)
    requires m <= |ids|
    ensures Grades(ids[..m], d) == Grades(ids, d)[..m]
  {
    if m == 0 {
    } else {
      GradesPrefix(ids[1..], d, m - 1);
      assert ids[..m][1..] == ids[1..][..m - 1];
    }
  }

  lemma {:induction false} PaddingGainsNothing(s: seq<real>, m: nat, r: nat, sc: Scale)
    requires IsScale(sc) && m <= r && (m == r || m == |s|)
    ensures GainTo(s, r, sc) == GainTo(s, m, sc)
    decreases r
  {
    if m >= r {
    } else {
      PaddingGainsNothing(s, m, r - 1, sc);
    }
  }

  lemma PrefixDominated(ids: seq<string>, d: seq<Entry<string, real>>, all: seq<real>, m: nat, sc: Scale)
    requires IsScale(sc) && Distinct(ids) && m <= |ids| && NonNegativeDict(d)
    requires multiset(all) == multiset(Positive(Values(d)))
    requires Descending(all) && NonNegative(all)
    ensures GainTo(Grades(ids, d), m, sc) <= GainTo(all, m, sc)
  {
    var a := Grades(ids, d);
    var b := Positive(a[..m]);
    forall i | 0 <= i < |b|
      ensures b[i] >= 0.0
    {
      FilterMember(a[..m], g => g > 0.0, b[i]);
    }
    FilterLength(a[..m], g => g > 0.0);
    GradesAt(ids, d);
    GradesPrefix(ids, d, m);
    DistinctDraw(ids[..m], d);
    TopSum(b, all, sc);
    SumOfPositives(a, m, sc);
    GainToStep(all, |b|, m, sc);
  }

  /** The ideal ranking dominates the ranking under test at every cut-off. */
  lemma IdealDominates(ranked: seq<string>, d: seq<Entry<string, real>>, k: nat,
                       norm: string -> string, sc: Scale)
    requires IsScale(sc) && NonNegativeDict(d)
    ensures var a, ideal := ActualGrades(ranked, d, norm, k), IdealGrades(d, k);
            Dominates(ideal, a, k, sc) && |a| <= k && |ideal| <= k && NonNegative(a) && NonNegative(ideal)
  {
    var ids := TopK(ranked, norm, k);
    var a, ideal := Grades(ids, d), IdealGrades(d, k);
    var all := IdealShape(d, k);
    DedupDistinct(NormalizedValues(ranked, norm));
    GradesAt(ids, d);
    forall r: nat | r <= k
      ensures GainTo(a, r, sc) <= GainTo(ideal, r, sc)
    {
      DominatedAt(ids, d, all, r, sc);
      SameUpTo(all, ideal, r, sc);
    }
  }

  lemma DominatedAt(ids: seq<string>, d: seq<Entry<string, real>>, all: seq<real>, r: nat, sc: Scale)
    requires IsScale(sc) && Distinct(ids) && NonNegativeDict(d)
    requires multiset(all) == multiset(Positive(Values(d)))
    requires Descending(all) && NonNegative(all)
    ensures GainTo(Grades(ids, d), r, sc) <= GainTo(all, r, sc)
  {
    var a := Grades(ids, d);
    GradesAt(ids, d);
    var m := if r <= |a| then r else |a|;
    PrefixDominated(ids, d, all, m, sc);
    PaddingGainsNothing(a, m, r, sc);
    GainToStep(all, m, r, sc);
  }

  lemma {:induction false} DcgOfNonNegatives(s: seq<real>, sc: Scale)
    requires IsScale(sc) && NonNegative(s)
    ensures Dcg(s, sc) >= 0.0
    ensures Dcg(s, sc) == 0.0 <==> forall i | 0 <= i < |s| :: s[i] == 0.0
  {
    if s == [] {
    } else {
      var n := |s|;
      DcgOfNonNegatives(s[..n - 1], sc);
      assert forall i | 0 <= i < n - 1 :: s[..n - 1][i] == s[i];
      GainNonNegative(s[n - 1], sc);
      DiscountPositive(n, sc);
      ProductStep(sc.gain(s[n - 1]), sc.discount(n), 0.0);
    }
  }

  /** What a run that reaches the division has at hand. */
  lemma NdcgDivides(ranked: seq<string>, relevance: seq<Entry<string, real>>, k: int,
                    norm: string -> string, sc: Scale)
    requires IsScale(sc) && k > 0
    ensures var d := NormalizedGrades(relevance, norm);
            var a, ideal := ActualGrades(ranked, d, norm, k), IdealGrades(d, k);
            && NonNegative(a) && NonNegative(ideal) && Dominates(ideal, a, k, sc)
            && Dcg(a, sc) == DcgTo(a, k, sc) && Dcg(ideal, sc) == DcgTo(ideal, k, sc)
            && |a| <= k && |ideal| <= k
            && 0.0 <= Dcg(a, sc) <= Dcg(ideal, sc)
            && (Positive(Values(d)) != [] ==> Dcg(ideal, sc) > 0.0 && ideal != [])
            && forall i | 0 <= i < |ideal| :: ideal[i] > 0.0
  {
    var d := NormalizedGrades(relevance, norm);
    var a, ideal := ActualGrades(ranked, d, norm, k), IdealGrades(d, k);
    GradesNonNegative(relevance, norm);
    IdealDominates(ranked, d, k, norm, sc);
    DcgIsPadded(a, k, sc);
    DcgIsPadded(ideal, k, sc);
    DominatedDcg(ideal, a, k, sc);
    DcgOfNonNegatives(a, sc);
    DcgOfNonNegatives(ideal, sc);
    var all := IdealShape(d, k);
  }

  /** Which of the three outcomes occurs; the guard against dividing by zero never fires. */
  lemma NdcgOutcome(ranked: seq<string>, relevance: seq<Entry<string, real>>, k: int,
                    norm: string -> string, sc: Scale)
    requires IsScale(sc)
    ensures var m := Ndcg(ranked, relevance, k, norm, sc);
            var d := NormalizedGrades(relevance, norm);
            && (m.Raised? <==> k <= 0)
            && (m.Score? <==> k > 0 && exists i :: 0 <= i < |d| && d[i].value > 0.0)
  {
    var d := NormalizedGrades(relevance, norm);
    if k > 0 {
      NdcgDivides(ranked, relevance, k, norm, sc);
      var vs := Values(d);
      if Positive(vs) != [] {
        var g := Positive(vs)[0];
        FilterMember(vs, x => x > 0.0, g);
        var i :| 0 <= i < |vs| && vs[i] == g;
        assert d[i].value == g;
      } else {
        forall i | 0 <= i < |d|
          ensures d[i].value <= 0.0
        {
          FilterMember(vs, x => x > 0.0, vs[i]);
        }
      }
    }
  }

  lemma QuotientInUnit(x: real, y: real)
    requires 0.0 <= x <= y && y > 0.0
    ensures 0.0 <= x / y <= 1.0
    ensures x / y == 1.0 <==> x == y
    ensures x / y == 0.0 <==> x == 0.0
  {
    var q := x / y;
    assert q * y == x;
    ProductStep(y, 0.0, if q < 0.0 then q else -1.0);
    ProductStep(y, if q > 1.0 then q else 2.0, 1.0);
  }

  /** No ranking scores outside [0, 1]. */
  lemma NdcgInUnit(ranked: seq<string>, relevance: seq<Entry<string, real>>, k: int,
                   norm: string -> string, sc: Scale)
    requires IsScale(sc) && Ndcg(ranked, relevance, k, norm, sc).Score?
    ensures 0.0 <= Ndcg(ranked, relevance, k, norm, sc).value <= 1.0
  {
    var d := NormalizedGrades(relevance, norm);
    NdcgDivides(ranked, relevance, k, norm, sc);
    QuotientInUnit(Dcg(ActualGrades(ranked, d, norm, k), sc), Dcg(IdealGrades(d, k), sc));
  }

  lemma DominatesPrefix(p: seq<real>, s: seq<real>, k: nat, sc: Scale)
    requires IsScale(sc) && p <= s && NonNegative(s)
    ensures Dominates(s, p, k, sc)
  {
    forall r: nat | r <= k
      ensures GainTo(p, r, sc) <= GainTo(s, r, sc)
    {
      var m := if r <= |p| then r else |p|;
      SameUpTo(p, s, m, sc);
      PaddingGainsNothing(p, m, r, sc);
      GainToStep(s, m, r, sc);
    }
  }

  lemma TightIsPrefix(ideal: seq<real>, a: seq<real>, k: nat, sc: Scale)
    requires IsScale(sc) && Dominates(ideal, a, k, sc) && |ideal| <= k
    requires NonNegative(a) && NonNegative(ideal) && forall i | 0 <= i < |ideal| :: ideal[i] > 0.0
    requires DcgTo(a, k, sc) == DcgTo(ideal, k, sc)
    ensures ideal <= a
  {
    forall i: nat | i < |ideal|
      ensures i < |a| && a[i] == ideal[i]
    {
      DominatedDcgTight(ideal, a, k, i, sc);
    }
    assert ideal != [] ==> |ideal| - 1 < |a|;
  }

  /** The score is 1 exactly when the ranking starts with the best grades, best first. */
  lemma NdcgPerfectIff(ranked: seq<string>, relevance: seq<Entry<string, real>>, k: int,
                       norm: string -> string, sc: Scale)
    requires IsScale(sc) && Ndcg(ranked, relevance, k, norm, sc).Score?
    ensures var d := NormalizedGrades(relevance, norm);
            Ndcg(ranked, relevance, k, norm, sc).value == 1.0
            <==> IdealGrades(d, k) <= ActualGrades(ranked, d, norm, k)
  {
    var d := NormalizedGrades(relevance, norm);
    var a, ideal := ActualGrades(ranked, d, norm, k), IdealGrades(d, k);
    NdcgDivides(ranked, relevance, k, norm, sc);
    QuotientInUnit(Dcg(a, sc), Dcg(ideal, sc));
    if Dcg(a, sc) == Dcg(ideal, sc) {
      TightIsPrefix(ideal, a, k, sc);
    } else if ideal <= a {
      DominatesPrefix(ideal, a, k, sc);
      DominatedDcg(a, ideal, k, sc);
    }
  }

  /** The score is 0 exactly when no relevant item is among the first k. */
  lemma NdcgZeroIff(ranked: seq<string>, relevance: seq<Entry<string, real>>, k: int,
                    norm: string -> string, sc: Scale)
    requires IsScale(sc) && Ndcg(ranked, relevance, k, norm, sc).Score?
    ensures var d := NormalizedGrades(relevance, norm);
            var ids := TopK(ranked, norm, k);
            Ndcg(ranked, relevance, k, norm, sc).value == 0.0
            <==> forall i | 0 <= i < |ids| :: Grade(d, ids[i]) == 0.0
  {
    var d := NormalizedGrades(relevance, norm);
    var a := ActualGrades(ranked, d, norm, k);
    NdcgDivides(ranked, relevance, k, norm, sc);
    QuotientInUnit(Dcg(a, sc), Dcg(IdealGrades(d, k), sc));
    DcgOfNonNegatives(a, sc);
    GradesAt(TopK(ranked, norm, k), d);
  }
}
