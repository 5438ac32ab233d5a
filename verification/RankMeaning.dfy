/**
  What the score of a ranking measures: what the gains and discounts amount to, that a
  better item in front scores more, and what counts as the grade of an id.
  */
module RankMeaning {
  import opened Prelude
  import opened Collections
  import opened OrderedDict
  import opened RealFacts
  import opened RankMetrics

  /** What an item of the grade x adds at the rank r. */
  function Adds(x: real, r: nat, sc: Scale): real {
    sc.gain(x) * sc.discount(r)
  }

  lemma DcgSnoc(s: seq<real>, x: real, sc: Scale)
    ensures Dcg(s + [x], sc) == Dcg(s, sc) + Adds(x, |s| + 1, sc)
  {
    assert (s + [x])[..|s|] == s;
  }

  /** What putting x before y, at the ranks r and r + 1, gains over the other order. */
  function Exchange(x: real, y: real, r: nat, sc: Scale): real {
    (sc.gain(x) - sc.gain(y)) * (sc.discount(r) - sc.discount(r + 1))
  }

  lemma ExchangeAdds(x: real, y: real, r: nat, sc: Scale)
    ensures Adds(x, r, sc) + Adds(y, r + 1, sc) - (Adds(y, r, sc) + Adds(x, r + 1, sc)) == Exchange(x, y, r, sc)
  {
    CrossedProducts(sc.gain(x), sc.gain(y), sc.discount(r), sc.discount(r + 1));
  }

  lemma CrossedProducts(g: real, h: real, d: real, e: real)
    ensures g * d + h * e - (h * d + g * e) == (g - h) * (d - e)
  {
  }

  lemma LastTwo(a: seq<real>, x: real, y: real, sc: Scale)
    ensures Dcg(a + [x, y], sc) == Dcg(a, sc) + Adds(x, |a| + 1, sc) + Adds(y, |a| + 2, sc)
  {
    assert a + [x, y] == (a + [x]) + [y];
    DcgSnoc(a, x, sc);
    DcgSnoc(a + [x], y, sc);
  }

  lemma SameLast(p: seq<real>, q: seq<real>, z: real, sc: Scale)
    requires |p| == |q|
    ensures Dcg(p + [z], sc) - Dcg(q + [z], sc) == Dcg(p, sc) - Dcg(q, sc)
  {
    DcgSnoc(p, z, sc);
    DcgSnoc(q, z, sc);
  }

  /** Exchanging two neighbours changes the sum by the difference of their gains times that of their discounts. */
  lemma {:induction false} NeighbourSwap(a: seq<real>, x: real, y: real, b: seq<real>, sc: Scale)
    ensures Dcg(a + [x, y] + b, sc) - Dcg(a + [y, x] + b, sc) == Exchange(x, y, |a| + 1, sc)
    decreases |b|
  {
    if b == [] {
      assert a + [x, y] + b == a + [x, y] && a + [y, x] + b == a + [y, x];
      LastTwo(a, x, y, sc);
      LastTwo(a, y, x, sc);
      ExchangeAdds(x, y, |a| + 1, sc);
    } else {
      var n := |b| - 1;
      NeighbourSwap(a, x, y, b[..n], sc);
      assert a + [x, y] + b == (a + [x, y] + b[..n]) + [b[n]] && a + [y, x] + b == (a + [y, x] + b[..n]) + [b[n]];
      SameLast(a + [x, y] + b[..n], a + [y, x] + b[..n], b[n], sc);
    }
  }

  /** The score is the share of the ideal sum that the ranking reaches. */
  lemma ScoreIsTheQuotient(ranked: seq<string>, relevance: seq<Entry<string, real>>, k: int,
                           norm: string -> string, sc: Scale)
    requires Ndcg(ranked, relevance, k, norm, sc).Score?
    ensures var d := NormalizedGrades(relevance, norm);
            var ideal := Dcg(IdealGrades(d, k), sc);
            && ideal != 0.0
            && Ndcg(ranked, relevance, k, norm, sc) == Score(Dcg(ActualGrades(ranked, d, norm, k), sc) / ideal)
  {
  }

  lemma IdealIsPositive(ranked: seq<string>, relevance: seq<Entry<string, real>>, k: int,
                        norm: string -> string, sc: Scale)
    requires IsScale(sc) && Ndcg(ranked, relevance, k, norm, sc).Score?
    ensures Dcg(IdealGrades(NormalizedGrades(relevance, norm), k), sc) > 0.0
  {
    NdcgDivides(ranked, relevance, k, norm, sc);
  }

  lemma LargerQuotient(m: Metric, n: Metric, x: real, y: real, ideal: real)
    requires ideal > 0.0 && m == Score(x / ideal) && n == Score(y / ideal) && x > y
    ensures m.value > n.value
  {
    assert m.value * ideal == x && n.value * ideal == y;
  }

  lemma ExchangeIsPositive(x: real, y: real, r: nat, sc: Scale)
    requires IsScale(sc) && x > y >= 0.0
    ensures Exchange(x, y, r, sc) > 0.0
  {
    PositiveProduct(sc.gain(x) - sc.gain(y), sc.discount(r) - sc.discount(r + 1));
  }

  lemma PositiveProduct(x: real, y: real)
    requires x > 0.0 && y > 0.0
    ensures x * y > 0.0
  {
  }

  lemma ScoresAlike(ranked: seq<string>, other: seq<string>, relevance: seq<Entry<string, real>>, k: int,
                    norm: string -> string, sc: Scale)
    requires Ndcg(ranked, relevance, k, norm, sc).Score?
    ensures Ndcg(other, relevance, k, norm, sc).Score?
  {
  }

  /** Of two rankings that differ in two neighbours only, the one with the better item in front scores more. */
  lemma BetterFirstScoresMore(better: seq<string>, worse: seq<string>, relevance: seq<Entry<string, real>>, k: int,
                              norm: string -> string, sc: Scale, a: seq<real>, x: real, y: real, b: seq<real>)
    requires IsScale(sc) && Ndcg(worse, relevance, k, norm, sc).Score? && x > y >= 0.0
    requires var d := NormalizedGrades(relevance, norm);
             ActualGrades(better, d, norm, k) == a + [x, y] + b && ActualGrades(worse, d, norm, k) == a + [y, x] + b
    ensures Ndcg(better, relevance, k, norm, sc).Score?
    ensures Ndcg(better, relevance, k, norm, sc).value > Ndcg(worse, relevance, k, norm, sc).value
  {
    ScoresAlike(worse, better, relevance, k, norm, sc);
    IdealIsPositive(worse, relevance, k, norm, sc);
    ExchangeIsPositive(x, y, |a| + 1, sc);
    NeighbourSwap(a, x, y, b, sc);
    LargerSumScoresMore(better, worse, relevance, k, norm, sc);
  }

  lemma LargerSumScoresMore(more: seq<string>, less: seq<string>, relevance: seq<Entry<string, real>>, k: int,
                            norm: string -> string, sc: Scale)
    requires Ndcg(more, relevance, k, norm, sc).Score? && Ndcg(less, relevance, k, norm, sc).Score?
    requires var d := NormalizedGrades(relevance, norm);
             && Dcg(IdealGrades(d, k), sc) > 0.0
             && Dcg(ActualGrades(more, d, norm, k), sc) > Dcg(ActualGrades(less, d, norm, k), sc)
    ensures Ndcg(more, relevance, k, norm, sc).value > Ndcg(less, relevance, k, norm, sc).value
  {
    var d := NormalizedGrades(relevance, norm);
    ScoreIsTheQuotient(more, relevance, k, norm, sc);
    ScoreIsTheQuotient(less, relevance, k, norm, sc);
    LargerQuotient(Ndcg(more, relevance, k, norm, sc), Ndcg(less, relevance, k, norm, sc),
                   Dcg(ActualGrades(more, d, norm, k), sc), Dcg(ActualGrades(less, d, norm, k), sc),
                   Dcg(IdealGrades(d, k), sc));
  }

  /** A lone relevant item adds its gain, discounted by its rank. */
  lemma LoneItem(before: seq<real>, x: real, sc: Scale)
    requires IsScale(sc) && forall i | 0 <= i < |before| :: before[i] == 0.0
    ensures Dcg(before + [x], sc) == sc.gain(x) * sc.discount(|before| + 1)
  {
    DcgSnoc(before, x, sc);
    ZerosGainNothing(before, sc);
  }

  lemma {:induction false} ZerosGainNothing(s: seq<real>, sc: Scale)
    requires IsScale(sc) && forall i | 0 <= i < |s| :: s[i] == 0.0
    ensures Dcg(s, sc) == 0.0
  {
    if s == [] {
    } else {
      ZerosGainNothing(s[..|s| - 1], sc);
    }
  }

  /** The entry at i is the last whose id reads as the given one. */
  predicate LastEntry(relevance: seq<Entry<string, real>>, norm: string -> string, id: string, i: int) {
    && 0 <= i < |relevance| && norm(relevance[i].key) == id
    && forall j | i < j < |relevance| :: norm(relevance[j].key) != id
  }

  /** An id that is not blank has the grade of its last entry, or 0 where that is negative. */
  lemma {:induction false} RecordedGrade(relevance: seq<Entry<string, real>>, norm: string -> string, id: string,
                                         i: int)
    requires LastEntry(relevance, norm, id, i)
    ensures var g := Grade(NormalizedGrades(relevance, norm), id);
            && (id == "" ==> g == 0.0)
            && (id != "" ==> g >= 0.0 && g >= relevance[i].value && (g == 0.0 || g == relevance[i].value))
  {
    var n := |relevance| - 1;
    var d := NormalizedGrades(relevance[..n], norm);
    BlankIsNotRecorded(relevance, norm);
    if norm(relevance[n].key) != "" {
      PutLookup(d, norm(relevance[n].key), if relevance[n].value > 0.0 then relevance[n].value else 0.0, id);
    }
    if i < n {
      RecordedGrade(relevance[..n], norm, id, i);
    }
  }

  lemma {:induction false} BlankIsNotRecorded(relevance: seq<Entry<string, real>>, norm: string -> string)
    ensures Lookup(NormalizedGrades(relevance, norm), "").None?
  {
    if relevance == [] {
    } else {
      var n := |relevance| - 1;
      BlankIsNotRecorded(relevance[..n], norm);
      if norm(relevance[n].key) != "" {
        PutLookup(NormalizedGrades(relevance[..n], norm), norm(relevance[n].key),
                  if relevance[n].value > 0.0 then relevance[n].value else 0.0, "");
      }
    }
  }

  /** An id no entry reads as has no grade. */
  lemma {:induction false} NotRecorded(relevance: seq<Entry<string, real>>, norm: string -> string, id: string)
    requires forall i | 0 <= i < |relevance| :: norm(relevance[i].key) != id
    ensures Lookup(NormalizedGrades(relevance, norm), id).None? && Grade(NormalizedGrades(relevance, norm), id) == 0.0
  {
    if relevance == [] {
    } else {
      var n := |relevance| - 1;
      NotRecorded(relevance[..n], norm, id);
      if norm(relevance[n].key) != "" {
        PutLookup(NormalizedGrades(relevance[..n], norm), norm(relevance[n].key),
                  if relevance[n].value > 0.0 then relevance[n].value else 0.0, id);
      }
    }
  }

  /** The ranking that is scored: what the ids read as, without blanks and repetitions, cut off at k. */
  lemma RankedIds(ids: seq<string>, norm: string -> string, k: nat)
    ensures var top := TopK(ids, norm, k);
            && |top| <= k && Distinct(top) && "" !in top
            && (forall x | x in top :: exists i :: 0 <= i < |ids| && norm(ids[i]) == x)
            && (|top| < k ==> forall i | 0 <= i < |ids| :: norm(ids[i]) != "" ==> norm(ids[i]) in top)
  {
    var all := seq(|ids|, i requires 0 <= i < |ids| => norm(ids[i]));
    var values := NormalizedValues(ids, norm);
    var top := TopK(ids, norm, k);
    DedupDistinct(values);
    forall x: string
      ensures x in Dedup(values) <==> x != "" && exists i :: 0 <= i < |ids| && norm(ids[i]) == x
    {
      DedupMember(values, x);
      FilterMember(all, (s: string) => s != "", x);
      if i :| 0 <= i < |ids| && norm(ids[i]) == x {
        assert all[i] == x;
      }
    }
    assert forall x | x in top :: x in Dedup(values);
  }
}
