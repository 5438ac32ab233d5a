/** What the combination optimizer guarantees, for every input. */
module BudgetTheorems {
  import opened Prelude
  import opened Collections
  import opened OrderedDict
  import opened RealFacts
  import opened Rounding
  import opened Sorting
  import opened Text
  import opened BudgetOptimizer

  // --------------------------------------------------------------- the orders

  lemma CandidateLeIsOrder()
    ensures TotalPreorder(CandidateLe)
  {
    forall a: Candidate, b: Candidate
      ensures CandidateLe(a, b) || CandidateLe(b, a)
    {
      LexLeTotal(a.id, b.id);
    }
    forall a: Candidate, b: Candidate, c: Candidate | CandidateLe(a, b) && CandidateLe(b, c)
      ensures CandidateLe(a, c)
    {
      if LexLe(a.id, b.id) && LexLe(b.id, c.id) {
        LexLeTransitive(a.id, b.id, c.id);
      }
    }
  }

  lemma CombinationLeIsOrder()
    ensures TotalPreorder(CombinationLe)
  {
    forall a: Combination, b: Combination
      ensures CombinationLe(a, b) || CombinationLe(b, a)
    {
      LexLeTotal(a.id, b.id);
    }
    forall a: Combination, b: Combination, c: Combination | CombinationLe(a, b) && CombinationLe(b, c)
      ensures CombinationLe(a, c)
    {
      if LexLe(a.id, b.id) && LexLe(b.id, c.id) {
        LexLeTransitive(a.id, b.id, c.id);
      }
    }
  }

  // ------------------------------------------------------------- the product

  lemma {:induction false} ProductMembers(outbound: seq<Candidate>, inbound: seq<Candidate>, hotels: seq<Candidate>,
                                          t: Triple)
    ensures t in Product(outbound, inbound, hotels)
            <==> t.outbound in outbound && t.inbound in inbound && t.hotel in hotels
  {
    if outbound == [] {
    } else {
      ProductMembers(outbound[1..], inbound, hotels, t);
      WithReturnsMembers(outbound[0], inbound, hotels, t);
      assert outbound == [outbound[0]] + outbound[1..];
    }
  }

  lemma {:induction false} WithReturnsMembers(o: Candidate, inbound: seq<Candidate>, hotels: seq<Candidate>, t: Triple)
    ensures t in WithReturns(o, inbound, hotels) <==> t.outbound == o && t.inbound in inbound && t.hotel in hotels
  {
    if inbound == [] {
    } else {
      WithReturnsMembers(o, inbound[1..], hotels, t);
      assert inbound == [inbound[0]] + inbound[1..];
      var ws := WithHotels(o, inbound[0], hotels);
      if t.outbound == o && t.inbound == inbound[0] && t.hotel in hotels {
        var i :| 0 <= i < |hotels| && hotels[i] == t.hotel;
        assert ws[i] == t;
      }
    }
  }

  lemma {:induction false} ProductSize(outbound: seq<Candidate>, inbound: seq<Candidate>, hotels: seq<Candidate>)
    ensures |Product(outbound, inbound, hotels)| == |outbound| * (|inbound| * |hotels|)
  {
    if outbound == [] {
    } else {
      WithReturnsSize(outbound[0], inbound, hotels);
      ProductSize(outbound[1..], inbound, hotels);
      OneMore(|outbound| - 1, |inbound| * |hotels|);
    }
  }

  lemma OneMore(n: int, m: int)
    ensures (n + 1) * m == n * m + m
  {
  }

  lemma {:induction false} WithReturnsSize(o: Candidate, inbound: seq<Candidate>, hotels: seq<Candidate>)
    ensures |WithReturns(o, inbound, hotels)| == |inbound| * |hotels|
  {
    if inbound == [] {
    } else {
      WithReturnsSize(o, inbound[1..], hotels);
      OneMore(|inbound| - 1, |hotels|);
    }
  }

  // ------------------------------------------------------------------ counting

  lemma {:induction false} EveryTripleCounted(p: Problem, ts: seq<Triple>)
    ensures |Feasibles(p, ts)| + CountOverTransport(p, ts) + CountOverBudget(p, ts) == |ts|
  {
    if ts == [] {
    } else {
      EveryTripleCounted(p, ts[..|ts| - 1]);
    }
  }

  function CountsOf(out: Outcome): Counts {
    match out
    case MissingCandidates(_, _, _) => Counts(0, 0, 0, 0)
    case NeedsUserChange(c, _) => c
    case Selected(c, _, _, _) => c
  }

  lemma ZeroFactor(a: int, b: int, c: int)
    requires a == 0 || b == 0 || c == 0
    ensures a * (b * c) == 0
  {
  }

  lemma CountsOfLoop(p: Problem)
    requires p.outbound != [] && p.inbound != [] && p.hotels != []
    ensures var ts := p.Triples();
            CountsOf(Solve(p))
            == Counts(|ts|, |Feasibles(p, ts)|, CountOverTransport(p, ts), CountOverBudget(p, ts))
            && (Solve(p).Selected? <==> Feasibles(p, ts) != [])
  {
    ProductNonEmpty(p.outbound, p.inbound, p.hotels);
  }

  /** Every combination is evaluated once and lands in exactly one of the three counters. */
  lemma CountersAddUp(p: Problem)
    ensures var c := CountsOf(Solve(p));
            && c.evaluated == c.feasible + c.overTransport + c.overBudget
            && c.evaluated == |p.outbound| * (|p.inbound| * |p.hotels|)
            && (Solve(p).Selected? <==> c.feasible > 0)
  {
    if p.outbound == [] || p.inbound == [] || p.hotels == [] {
      ZeroFactor(|p.outbound|, |p.inbound|, |p.hotels|);
    } else {
      CountsOfLoop(p);
      ProductSize(p.outbound, p.inbound, p.hotels);
      EveryTripleCounted(p, p.Triples());
    }
  }

  // --------------------------------------------------------------- feasibility

  lemma {:induction false} FeasiblesHas(p: Problem, ts: seq<Triple>, i: nat)
    requires i < |ts| && p.Feasible(ts[i])
    ensures p.Combine(ts[i]) in Feasibles(p, ts)
  {
    if i >= |ts| - 1 {
    } else {
      FeasiblesHas(p, ts[..|ts| - 1], i);
    }
  }

  lemma {:induction false} FeasiblesFrom(p: Problem, ts: seq<Triple>, c: Combination) returns (i: nat)
    requires c in Feasibles(p, ts)
    ensures i < |ts| && p.Feasible(ts[i]) && c == p.Combine(ts[i])
  {
    var n := |ts| - 1;
    if c in Feasibles(p, ts[..n]) {
      i := FeasiblesFrom(p, ts[..n], c);
    } else {
      i := n;
    }
  }

  /** Within the lists of the problem. */
  predicate InLists(p: Problem, t: Triple) {
    t.outbound in p.outbound && t.inbound in p.inbound && t.hotel in p.hotels
  }

  lemma FeasibleTripleListed(p: Problem, t: Triple)
    ensures InLists(p, t) && p.Feasible(t) ==> p.Combine(t) in Feasibles(p, p.Triples())
  {
    ProductMembers(p.outbound, p.inbound, p.hotels, t);
    if InLists(p, t) && p.Feasible(t) {
      var ts := p.Triples();
      var i: nat :| i < |ts| && ts[i] == t;
      FeasiblesHas(p, ts, i);
    }
  }

  lemma ListedTripleFeasible(p: Problem, c: Combination)
    requires c in Feasibles(p, p.Triples())
    ensures InLists(p, c.triple) && p.Feasible(c.triple) && c == p.Combine(c.triple)
  {
    var i := FeasiblesFrom(p, p.Triples(), c);
    ProductMembers(p.outbound, p.inbound, p.hotels, c.triple);
  }

  // ----------------------------------------------------------------- selection

  /**
    The selection is the head of all feasible combinations in key order: the best
    and its alternatives are feasible, in order, as many as asked for, and no
    combination left out has a smaller key than any of them.
    */
  lemma SelectionIsOptimal(p: Problem)
    requires Solve(p).Selected?
    ensures var out := Solve(p);
            var shown := [out.best] + out.alternatives;
            var all := Feasibles(p, p.Triples());
            && Ascending(shown, CombinationLe)
            && multiset(shown) <= multiset(all)
            && |shown| == (if |all| <= 1 + p.cfg.maxAlternatives then |all| else 1 + p.cfg.maxAlternatives)
            && forall c, s :: c in multiset(all) - multiset(shown) && s in shown ==> CombinationLe(s, c)
  {
    var all := Feasibles(p, p.Triples());
    var ordered := SortBy(all, CombinationLe);
    CombinationLeIsOrder();
    SortByAscending(all, CombinationLe);
    var out := Solve(p);
    var shown := [out.best] + out.alternatives;
    var m := if |all| <= 1 + p.cfg.maxAlternatives then |all| else 1 + p.cfg.maxAlternatives;
    ShownIsHead(ordered, p.cfg.maxAlternatives, m);
    assert shown == ordered[..m];
    HeadIsLeast(ordered, m);
  }

  lemma ShownIsHead(ordered: seq<Combination>, more: int, m: int)
    requires ordered != [] && more >= 0
    requires m == if |ordered| <= 1 + more then |ordered| else 1 + more
    ensures [ordered[0]] + Take(ordered[1..], more) == ordered[..m]
  {
  }

  lemma HeadIsLeast(ordered: seq<Combination>, m: int)
    requires 0 <= m <= |ordered| && Ascending(ordered, CombinationLe)
    ensures Ascending(ordered[..m], CombinationLe)
    ensures multiset(ordered[..m]) <= multiset(ordered)
    ensures forall c, s :: c in multiset(ordered) - multiset(ordered[..m]) && s in ordered[..m] ==> CombinationLe(s, c)
  {
    MultisetTail(ordered, m);
    forall c, s | c in multiset(ordered) - multiset(ordered[..m]) && s in ordered[..m]
      ensures CombinationLe(s, c)
    {
      assert c in ordered[m..];
      var i :| 0 <= i < |ordered| - m && ordered[m..][i] == c;
      var j :| 0 <= j < m && ordered[..m][j] == s;
      assert CombinationLe(ordered[j], ordered[m + i]);
    }
  }

  lemma MultisetTail(s: seq<Combination>, m: int)
    requires 0 <= m <= |s|
    ensures multiset(s[..m]) <= multiset(s)
    ensures multiset(s) - multiset(s[..m]) == multiset(s[m..])
  {
    assert s == s[..m] + s[m..];
  }

  lemma BestIsLeast(p: Problem, t: Triple)
    requires Solve(p).Selected? && InLists(p, t) && p.Feasible(t)
    ensures CombinationLe(Solve(p).best, p.Combine(t))
  {
    var all := Feasibles(p, p.Triples());
    CombinationLeIsOrder();
    SortByAscending(all, CombinationLe);
    FeasibleTripleListed(p, t);
    var ordered := SortBy(all, CombinationLe);
    SortByMembers(all, CombinationLe, p.Combine(t));
    var i :| 0 <= i < |ordered| && ordered[i] == p.Combine(t);
    assert CombinationLe(ordered[0], ordered[0]) && (i > 0 ==> CombinationLe(ordered[0], ordered[i]));
  }

  lemma BestIsFeasible(p: Problem)
    requires Solve(p).Selected?
    ensures var best := Solve(p).best;
            InLists(p, best.triple) && p.Feasible(best.triple) && best == p.Combine(best.triple)
  {
    var all := Feasibles(p, p.Triples());
    SortByMembers(all, CombinationLe, Solve(p).best);
    ListedTripleFeasible(p, Solve(p).best);
  }

  // --------------------------------------------------------- weights and scores

  /** The weights are never negative and share out at most one whole. */
  lemma WeightsShareOne(plan: Plan)
    ensures var w := CombinationWeights(plan);
            && w.transport >= 0.0 && w.hotel >= 0.0 && GetOr(w.food, 0.0) >= 0.0
            && (var sum := w.transport + w.hotel + GetOr(w.food, 0.0); sum == 0.0 || sum == 1.0)
  {
    var t := Max(GetOr(plan.ratioTransport, 0.35), 0.0);
    var h := Max(GetOr(plan.ratioHotel, 0.35), 0.0);
    var f := if IncludesFood(plan) then Max(GetOr(plan.ratioFood, 0.30), 0.0) else 0.0;
    if t + h + f > 0.0 {
      ThreeShares(t, h, f, t + h + f);
    }
  }

  /** A component contributes between nothing and its weight. */
  lemma PartOfWeight(quality: real, weight: real)
    requires weight >= 0.0
    ensures 0.0 <= Part(quality, weight) <= weight
  {
    PartNonNegative(quality, weight);
    PartAtMostWeight(quality, weight);
  }

  lemma PartNonNegative(quality: real, weight: real)
    requires weight >= 0.0
    ensures 0.0 <= Part(quality, weight)
  {
    ScaleMonotone(0.0, Clamp01(quality), weight);
  }

  lemma PartAtMostWeight(quality: real, weight: real)
    requires weight >= 0.0
    ensures Part(quality, weight) <= weight
  {
    ScaleMonotone(Clamp01(quality), 1.0, weight);
  }

  lemma PartMonotone(x: real, y: real, weight: real)
    requires x <= y && weight >= 0.0
    ensures Part(x, weight) <= Part(y, weight)
  {
    ScaleMonotone(Clamp01(x), Clamp01(y), weight);
  }

  /** A component at its best adds exactly its own weight to what it adds at its worst. */
  lemma WeightIsWhatItAdds(x: real, y: real, fit: real, w: Weights)
    requires w.food.Some?
    ensures WeightedSum(1.0, y, Some(fit), w) == WeightedSum(0.0, y, Some(fit), w) + w.transport
    ensures WeightedSum(x, 1.0, Some(fit), w) == WeightedSum(x, 0.0, Some(fit), w) + w.hotel
    ensures WeightedSum(x, y, Some(1.0), w) == WeightedSum(x, y, Some(0.0), w) + w.food.value
    ensures WeightedSum(x, y, None, w) == WeightedSum(x, y, Some(0.0), w)
  {
    EndsOfPart(w.transport);
    EndsOfPart(w.hotel);
    EndsOfPart(w.food.value);
  }

  lemma EndsOfPart(weight: real)
    ensures Part(0.0, weight) == 0.0 && Part(1.0, weight) == weight
  {
  }

  /** The score is a sub-convex combination, so the last clamp changes nothing. */
  lemma FinalClampIsNoOp(plan: Plan, transportQuality: real, hotelQuality: real, fit: Option<real>)
    ensures var w := CombinationWeights(plan);
            WeightedScore(transportQuality, hotelQuality, fit, w) == WeightedSum(transportQuality, hotelQuality, fit, w)
  {
    WeightsShareOne(plan);
    WeightedSumInUnit(transportQuality, hotelQuality, fit, CombinationWeights(plan));
  }

  /** With food in the plan and any weight at all, the best combination scores one and the worst zero. */
  lemma ScoreSpansUnit(plan: Plan)
    requires IncludesFood(plan) && CombinationWeights(plan) != Weights(0.0, 0.0, Some(0.0))
    ensures var w := CombinationWeights(plan);
            WeightedScore(1.0, 1.0, Some(1.0), w) == 1.0 && WeightedScore(0.0, 0.0, Some(0.0), w) == 0.0
  {
    var w := CombinationWeights(plan);
    WeightsShareOne(plan);
    AllSpread(w);
  }

  /** From the worst to the best the weights are added one by one. */
  lemma AllSpread(w: Weights)
    requires w.food.Some?
    ensures WeightedSum(0.0, 0.0, Some(0.0), w) == 0.0
    ensures WeightedSum(1.0, 1.0, Some(1.0), w) == w.transport + w.hotel + w.food.value
  {
    EndsOfPart(w.transport);
    EndsOfPart(w.hotel);
    EndsOfPart(w.food.value);
    WeightIsWhatItAdds(0.0, 1.0, 1.0, w);
    WeightIsWhatItAdds(0.0, 0.0, 1.0, w);
  }

  lemma WeightedSumInUnit(x: real, y: real, fit: Option<real>, w: Weights)
    requires w.transport >= 0.0 && w.hotel >= 0.0 && GetOr(w.food, 0.0) >= 0.0
    requires w.transport + w.hotel + GetOr(w.food, 0.0) <= 1.0
    ensures 0.0 <= WeightedSum(x, y, fit, w) <= 1.0
  {
    PartOfWeight(x, w.transport);
    PartOfWeight(y, w.hotel);
    if w.food.Some? && fit.Some? {
      PartOfWeight(fit.value, w.food.value);
    }
  }

  lemma WeightedSumMonotone(x: real, y: real, f: Option<real>, x': real, y': real, f': Option<real>, w: Weights)
    requires w.transport >= 0.0 && w.hotel >= 0.0 && GetOr(w.food, 0.0) >= 0.0
    requires x <= x' && y <= y' && f.Some? == f'.Some? && (f.Some? ==> f.value <= f'.value)
    ensures WeightedSum(x, y, f, w) <= WeightedSum(x', y', f', w)
  {
    PartMonotone(x, x', w.transport);
    PartMonotone(y, y', w.hotel);
    if w.food.Some? && f.Some? {
      PartMonotone(f.value, f'.value, w.food.value);
    }
  }

  /** A cheaper combination never fits the food and activity reserve worse. */
  lemma CheaperFitsBetter(p: Problem, cheap: Triple, dear: Triple)
    requires KnownCosts(cheap).knownSubtotal <= KnownCosts(dear).knownSubtotal
    ensures var f, g := ReserveFit(p.Remaining(dear), p.plan.foodTarget),
                      ReserveFit(p.Remaining(cheap), p.plan.foodTarget);
            f.Some? == g.Some? && (f.Some? ==> f.value <= g.value)
  {
    var total := TotalBudget(p.plan);
    if total.Some? && p.plan.foodTarget.Some? && p.plan.foodTarget.value > 0.0 {
      HalfEvenMonotone(total.value - KnownCosts(dear).knownSubtotal as real,
                       total.value - KnownCosts(cheap).knownSubtotal as real);
      DivideMonotone(p.Remaining(dear).value as real, p.Remaining(cheap).value as real, p.plan.foodTarget.value);
    }
  }

  /** At least as good on both qualities and no dearer: at least the score. */
  lemma NoWorseScores(p: Problem, good: Triple, bad: Triple)
    requires p.TransportQuality(bad) <= p.TransportQuality(good)
    requires p.HotelQuality(bad) <= p.HotelQuality(good)
    requires KnownCosts(good).knownSubtotal <= KnownCosts(bad).knownSubtotal
    ensures p.Combine(bad).score <= p.Combine(good).score
  {
    var w := CombinationWeights(p.plan);
    var f := ReserveFit(p.Remaining(bad), p.plan.foodTarget);
    var g := ReserveFit(p.Remaining(good), p.plan.foodTarget);
    WeightsShareOne(p.plan);
    CheaperFitsBetter(p, good, bad);
    WeightedSumMonotone(p.TransportQuality(bad), p.HotelQuality(bad), f,
                        p.TransportQuality(good), p.HotelQuality(good), g, w);
    ToGridMonotone(WeightedScore(p.TransportQuality(bad), p.HotelQuality(bad), f, w),
                   WeightedScore(p.TransportQuality(good), p.HotelQuality(good), g, w), p.cfg.scoreGrid);
  }

  /** The selection is Pareto-optimal: nothing feasible is as good on both qualities and strictly cheaper. */
  lemma SelectionIsPareto(p: Problem, t: Triple)
    requires Solve(p).Selected? && InLists(p, t) && p.Feasible(t)
    requires p.TransportQuality(t) >= Solve(p).best.transportQuality
    requires p.HotelQuality(t) >= Solve(p).best.hotelQuality
    ensures KnownCosts(t).knownSubtotal >= Solve(p).best.costs.knownSubtotal
  {
    var best := Solve(p).best;
    BestIsFeasible(p);
    BestIsLeast(p, t);
    if KnownCosts(t).knownSubtotal < best.costs.knownSubtotal {
      NoWorseScores(p, t, best.triple);
    }
  }

  // ----------------------------------------------------------- limiting the lists

  lemma {:induction false} BestByIdKeys(ordered: seq<Candidate>)
    ensures var d := BestById(ordered);
            IsDict(d) && forall i | 0 <= i < |d| :: Strip(d[i].value.id) == d[i].key != ""
  {
    if ordered == [] {
    } else {
      var n := |ordered| - 1;
      BestByIdKeys(ordered[..n]);
      var before, key := BestById(ordered[..n]), Strip(ordered[n].id);
      if key != "" && Lookup(before, key).None? {
        assert Keys(before + [Entry(key, ordered[n])]) == Keys(before) + [key];
      }
    }
  }

  /** The records kept are drawn from the ordered list. */
  lemma {:induction false} BestByIdDrawn(ordered: seq<Candidate>, i: nat)
    requires i < |BestById(ordered)|
    ensures exists k :: 0 <= k < |ordered| && ordered[k] == BestById(ordered)[i].value
  {
    var n := |ordered| - 1;
    var before := BestById(ordered[..n]);
    if i < |before| {
      BestByIdDrawn(ordered[..n], i);
      var k :| 0 <= k < n && ordered[..n][k] == before[i].value;
      assert ordered[k] == BestById(ordered)[i].value;
    } else {
      assert ordered[n] == BestById(ordered)[i].value;
    }
  }

  lemma {:induction false} BestByIdAscending(ordered: seq<Candidate>, i: nat, j: nat)
    requires Ascending(ordered, CandidateLe) && i < j < |BestById(ordered)|
    ensures CandidateLe(BestById(ordered)[i].value, BestById(ordered)[j].value)
  {
    var n := |ordered| - 1;
    var before := BestById(ordered[..n]);
    if j < |before| {
      BestByIdAscending(ordered[..n], i, j);
    } else {
      BestByIdDrawn(ordered[..n], i);
      var k :| 0 <= k < n && ordered[..n][k] == before[i].value;
      assert CandidateLe(ordered[k], ordered[n]);
    }
  }

  lemma DrawnBefore(ordered: seq<Candidate>, n: nat, i: nat)
    requires Ascending(ordered, CandidateLe) && n < |ordered| && i < |BestById(ordered[..n])|
    ensures CandidateLe(BestById(ordered[..n])[i].value, ordered[n])
  {
    BestByIdDrawn(ordered[..n], i);
    var m :| 0 <= m < n && ordered[..n][m] == BestById(ordered[..n])[i].value;
    assert CandidateLe(ordered[m], ordered[n]);
  }

  /** The place at which the id of an ordered candidate is kept, by a record that is no worse. */
  lemma {:induction false} BestByIdCovers(ordered: seq<Candidate>, k: nat) returns (i: nat)
    requires Ascending(ordered, CandidateLe) && k < |ordered| && Strip(ordered[k].id) != ""
    requires forall c: Candidate :: CandidateLe(c, c)
    ensures i < |BestById(ordered)| && BestById(ordered)[i].key == Strip(ordered[k].id)
    ensures CandidateLe(BestById(ordered)[i].value, ordered[k])
  {
    var n := |ordered| - 1;
    var before, key := BestById(ordered[..n]), Strip(ordered[k].id);
    if k < n {
      i := BestByIdCovers(ordered[..n], k);
    } else if Lookup(before, key).Some? {
      i :| 0 <= i < |before| && before[i].key == key;
      DrawnBefore(ordered, n, i);
    } else {
      i := |before|;
    }
  }

  /** The place in the limited list's source that keeps the id of a candidate. */
  lemma KeptPlace(cs: seq<Candidate>, c: Candidate) returns (i: nat)
    requires c in cs && Strip(c.id) != ""
    ensures var d := BestById(SortBy(cs, CandidateLe));
            i < |d| && d[i].key == Strip(c.id) && CandidateLe(d[i].value, c)
  {
    var ordered := SortBy(cs, CandidateLe);
    CandidateLeIsOrder();
    SortByAscending(cs, CandidateLe);
    SortByMembers(cs, CandidateLe, c);
    var k: nat :| k < |ordered| && ordered[k] == c;
    i := BestByIdCovers(ordered, k);
  }

  lemma KeptIsDrawn(cs: seq<Candidate>, limit: int, i: nat)
    requires limit >= 0 && i < |LimitRanked(cs, limit)|
    ensures var d := BestById(SortBy(cs, CandidateLe));
            i < |d| && LimitRanked(cs, limit)[i] == d[i].value && Strip(d[i].value.id) == d[i].key != ""
    ensures LimitRanked(cs, limit)[i] in cs
  {
    var ordered := SortBy(cs, CandidateLe);
    var d := BestById(ordered);
    BestByIdKeys(ordered);
    BestByIdDrawn(ordered, i);
    SortByMembers(cs, CandidateLe, d[i].value);
  }

  /** One record per non-blank id, from the input, best first, at most `limit`. */
  lemma LimitedListShape(cs: seq<Candidate>, limit: int)
    requires limit >= 0
    ensures var kept := LimitRanked(cs, limit);
            && |kept| <= limit
            && (forall i | 0 <= i < |kept| :: kept[i] in cs && Strip(kept[i].id) != "")
            && (forall i, j | 0 <= i < j < |kept| ::
                  CandidateLe(kept[i], kept[j]) && Strip(kept[i].id) != Strip(kept[j].id))
  {
    var ordered := SortBy(cs, CandidateLe);
    var d, kept := BestById(ordered), LimitRanked(cs, limit);
    CandidateLeIsOrder();
    SortByAscending(cs, CandidateLe);
    BestByIdKeys(ordered);
    forall i | 0 <= i < |kept|
      ensures kept[i] in cs && Strip(kept[i].id) != ""
    {
      KeptIsDrawn(cs, limit, i);
    }
    forall i, j | 0 <= i < j < |kept|
      ensures CandidateLe(kept[i], kept[j]) && Strip(kept[i].id) != Strip(kept[j].id)
    {
      KeptIsDrawn(cs, limit, i);
      KeptIsDrawn(cs, limit, j);
      BestByIdAscending(ordered, i, j);
      assert Keys(d)[i] != Keys(d)[j];
    }
  }

  /** Each record kept is the best of its id. */
  lemma LimitKeepsBestOfId(cs: seq<Candidate>, limit: int, c: Candidate, k: Candidate)
    requires limit >= 0 && c in cs && k in LimitRanked(cs, limit) && Strip(c.id) == Strip(k.id)
    ensures CandidateLe(k, c)
  {
    var kept, d := LimitRanked(cs, limit), BestById(SortBy(cs, CandidateLe));
    var j: nat :| j < |kept| && kept[j] == k;
    KeptIsDrawn(cs, limit, j);
    var i := KeptPlace(cs, c);
    BestByIdKeys(SortBy(cs, CandidateLe));
    OnePlace(d, i, j);
  }

  lemma OnePlace(d: seq<Entry<string, Candidate>>, i: nat, j: nat)
    requires IsDict(d) && i < |d| && j < |d| && d[i].key == d[j].key
    ensures i == j
  {
    assert Keys(d)[i] == Keys(d)[j];
  }

  /** An id is dropped only when the list is full of records that are no worse. */
  lemma LimitDropsTheRest(cs: seq<Candidate>, limit: int, c: Candidate, k: Candidate)
    requires limit >= 0 && c in cs && Strip(c.id) != ""
    requires forall k' | k' in LimitRanked(cs, limit) :: Strip(k'.id) != Strip(c.id)
    ensures |LimitRanked(cs, limit)| == limit
    ensures k in LimitRanked(cs, limit) ==> CandidateLe(k, c)
  {
    var ordered := SortBy(cs, CandidateLe);
    var kept, d := LimitRanked(cs, limit), BestById(ordered);
    var i := KeptPlace(cs, c);
    if i < |kept| {
      KeptIsDrawn(cs, limit, i);
      assert false;
    }
    if k in kept {
      var j: nat :| j < |kept| && kept[j] == k;
      KeptIsDrawn(cs, limit, j);
      CandidateLeIsOrder();
      SortByAscending(cs, CandidateLe);
      BestByIdAscending(ordered, j, i);
      assert CandidateLe(k, d[i].value) && CandidateLe(d[i].value, c);
    }
  }

  // -------------------------------------------------------------- budget advice

  /** The same run with the total budget set to `cents`. */
  function WithTotal(p: Problem, cents: real): Problem {
    p.(plan := p.plan.(hardTotal := Some(cents)))
  }

  lemma {:induction false} CheapestIsLeast(rows: seq<CostRow>)
    requires rows != []
    ensures Cheapest(rows) in rows
    ensures forall r | r in rows :: RowLe(Cheapest(rows), r)
  {
    var n := |rows| - 1;
    var last := rows[n];
    assert rows == rows[..n] + [last];
    LexLeTotal(last.id, last.id);
    if n == 0 {
    } else {
      CheapestIsLeast(rows[..n]);
      var best := Cheapest(rows[..n]);
      LexLeTotal(best.id, last.id);
      if !RowLe(best, last) {
        forall r | r in rows[..n]
          ensures RowLe(last, r)
        {
          if LexLe(last.id, best.id) && LexLe(best.id, r.id) {
            LexLeTransitive(last.id, best.id, r.id);
          }
        }
      }
    }
  }

  /** The cheapest subtotal among the combinations under the transport cap. */
  ghost predicate IsCheapestUnderCap(p: Problem, k: int) {
    && (exists t :: InLists(p, t) && p.MeetsTransport(t) && KnownCosts(t).knownSubtotal == k)
    && (forall t :: InLists(p, t) && p.MeetsTransport(t) ==> k <= KnownCosts(t).knownSubtotal)
  }

  lemma RowsMember(p: Problem, t: Triple)
    ensures InLists(p, t) ==> p.Row(t) in Rows(p, p.Triples())
  {
    ProductMembers(p.outbound, p.inbound, p.hotels, t);
    if InLists(p, t) {
      var ts := p.Triples();
      var i :| 0 <= i < |ts| && ts[i] == t;
      assert Rows(p, ts)[i] == p.Row(t);
    }
  }

  lemma RowListed(p: Problem, r: CostRow)
    requires r in Rows(p, p.Triples())
    ensures InLists(p, r.triple) && r == p.Row(r.triple)
  {
    var rows := Rows(p, p.Triples());
    var i :| 0 <= i < |rows| && rows[i] == r;
    ProductMembers(p.outbound, p.inbound, p.hotels, r.triple);
    assert p.Triples()[i] in p.Triples();
  }

  /** The rows under the transport cap are the rows of the combinations that meet it. */
  lemma ValidRows(p: Problem)
    ensures var valid := Filter(Rows(p, p.Triples()), (r: CostRow) => p.RowUnderCap(r));
            && (forall t :: InLists(p, t) && p.MeetsTransport(t) ==> p.Row(t) in valid)
            && (forall r | r in valid :: InLists(p, r.triple) && p.MeetsTransport(r.triple) && r == p.Row(r.triple))
  {
    var rows := Rows(p, p.Triples());
    var under := (r: CostRow) => p.RowUnderCap(r);
    forall t | InLists(p, t) && p.MeetsTransport(t)
      ensures p.Row(t) in Filter(rows, under)
    {
      RowsMember(p, t);
      FilterMember(rows, under, p.Row(t));
    }
    forall r | r in Filter(rows, under)
      ensures InLists(p, r.triple) && p.MeetsTransport(r.triple) && r == p.Row(r.triple)
    {
      FilterMember(rows, under, r);
      RowListed(p, r);
    }
  }

  lemma AdviceIs(p: Problem)
    requires Solve(p).NeedsUserChange?
    ensures p.outbound != [] && p.inbound != [] && p.hotels != []
    ensures Rows(p, p.Triples()) != [] && Solve(p).advice == BuildAdvice(p, Rows(p, p.Triples()))
  {
    ProductNonEmpty(p.outbound, p.inbound, p.hotels);
  }

  /** The cheapest row the advice is built on. */
  lemma AdvisedRow(p: Problem)
    requires Rows(p, p.Triples()) != []
    ensures var a := BuildAdvice(p, Rows(p, p.Triples()));
            var blocked := a.reason.TransportLimitBlocksAll?;
            && (blocked <==> forall t :: InLists(p, t) ==> !p.MeetsTransport(t))
            && (!blocked ==> IsCheapestUnderCap(p, a.minimumSubtotal))
  {
    var rows := Rows(p, p.Triples());
    var valid := Filter(rows, (r: CostRow) => p.RowUnderCap(r));
    ValidRows(p);
    if valid != [] {
      CheapestIsLeast(valid);
      var k := Cheapest(valid).knownSubtotal;
      forall t | InLists(p, t) && p.MeetsTransport(t)
        ensures k <= KnownCosts(t).knownSubtotal
      {
        assert RowLe(Cheapest(valid), p.Row(t));
      }
    }
  }

  /** What the advice reports: the cap blocks everything, or the cheapest subtotal under the cap. */
  ghost predicate Reported(p: Problem, a: Advice) {
    && a.currentTotal == TotalBudget(p.plan)
    && (a.reason.TransportLimitBlocksAll? <==> forall t :: InLists(p, t) ==> !p.MeetsTransport(t))
    && (!a.reason.TransportLimitBlocksAll? ==> IsCheapestUnderCap(p, a.minimumSubtotal))
    && (a.increase.Some? <==> !a.reason.TransportLimitBlocksAll? && a.currentTotal.Some?)
    && (a.increase.Some? ==>
          a.increase.value == HalfEven(Max(a.minimumSubtotal as real - a.currentTotal.value, 0.0)))
  }

  lemma AdviceReports(p: Problem)
    requires Solve(p).NeedsUserChange?
    ensures Reported(p, Solve(p).advice)
  {
    AdviceIs(p);
    BuiltAdviceReports(p);
  }

  lemma BuiltAdviceReports(p: Problem)
    requires Rows(p, p.Triples()) != []
    ensures Reported(p, BuildAdvice(p, Rows(p, p.Triples())))
  {
    AdvisedRow(p);
    AdvisedIncrease(p, Rows(p, p.Triples()));
  }

  lemma AdvisedIncrease(p: Problem, rows: seq<CostRow>)
    requires rows != []
    ensures var a := BuildAdvice(p, rows);
            && a.currentTotal == TotalBudget(p.plan)
            && (a.increase.Some? <==> !a.reason.TransportLimitBlocksAll? && a.currentTotal.Some?)
            && (a.increase.Some? ==>
                  a.increase.value == HalfEven(Max(a.minimumSubtotal as real - a.currentTotal.value, 0.0)))
  {
  }

  /** A run ends feasible exactly when some combination meets both limits. */
  lemma SelectedIff(p: Problem)
    ensures Solve(p).Selected? <==> exists t :: InLists(p, t) && p.Feasible(t)
  {
    var all := Feasibles(p, p.Triples());
    if all != [] {
      ListedTripleFeasible(p, all[0]);
    }
    if t: Triple :| InLists(p, t) && p.Feasible(t) {
      FeasibleTripleListed(p, t);
    }
  }

  /** Raising the budget to `cents` helps exactly from the cheapest subtotal under the cap onwards. */
  lemma FeasibleFrom(p: Problem, k: int, cents: real)
    requires IsCheapestUnderCap(p, k) && !p.plan.noBudgetLimit && cents >= 0.0
    ensures Solve(WithTotal(p, cents)).Selected? <==> k as real <= cents
  {
    var q := WithTotal(p, cents);
    SelectedIff(q);
    assert forall t :: q.MeetsTransport(t) == p.MeetsTransport(t) && InLists(q, t) == InLists(p, t);
    var t :| InLists(p, t) && p.MeetsTransport(t) && KnownCosts(t).knownSubtotal == k;
    if k as real <= cents {
      assert InLists(q, t) && q.Feasible(t);
    }
  }

  lemma BudgetIsMissing(p: Problem, k: int)
    requires IsCheapestUnderCap(p, k) && forall t :: InLists(p, t) ==> !p.Feasible(t)
    ensures !p.plan.noBudgetLimit && TotalBudget(p.plan).Some?
    ensures 0.0 <= TotalBudget(p.plan).value < k as real
  {
    var t :| InLists(p, t) && p.MeetsTransport(t) && KnownCosts(t).knownSubtotal == k;
    assert !p.MeetsBudget(t);
  }

  /** With nothing feasible but something under the cap, the budget is what is missing. */
  lemma ShortOfBudget(p: Problem)
    requires Solve(p).NeedsUserChange? && !Solve(p).advice.reason.TransportLimitBlocksAll?
    ensures var a := Solve(p).advice;
            && !p.plan.noBudgetLimit && a.currentTotal.Some? && a.currentTotal.value >= 0.0
            && a.currentTotal.value < a.minimumSubtotal as real && a.increase.Some?
  {
    AdviceReports(p);
    AdviceIs(p);
    SelectedIff(p);
    BudgetIsMissing(p, Solve(p).advice.minimumSubtotal);
  }

  /** From the current budget upwards the run is feasible exactly with x more, or above that. */
  ghost predicate AdviceHolds(p: Problem, total: real, x: int) {
    forall b: real :: b >= total ==> (Solve(WithTotal(p, b)).Selected? <==> b >= total + x as real)
  }

  /**
    The advice "raise the budget by x" is exact — with any budget b from the
    current one upwards the run is feasible if and only if b is at least x above
    it — exactly when the current budget is a whole number of cents.
    */
  lemma AdviceExactIff(p: Problem)
    requires Solve(p).NeedsUserChange? && !Solve(p).advice.reason.TransportLimitBlocksAll?
    ensures var a := Solve(p).advice;
            a.currentTotal.Some? && a.increase.Some? &&
            (IsWhole(a.currentTotal.value) <==> AdviceHolds(p, a.currentTotal.value, a.increase.value))
  {
    ShortOfBudget(p);
    AdviceReports(p);
    AdviceIs(p);
    var a := Solve(p).advice;
    ExactFromThreshold(p, a.minimumSubtotal, a.currentTotal.value, a.increase.value);
  }

  lemma ExactFromThreshold(p: Problem, k: int, total: real, x: int)
    requires IsCheapestUnderCap(p, k) && !p.plan.noBudgetLimit && 0.0 <= total < k as real
    requires x == HalfEven(Max(k as real - total, 0.0))
    ensures IsWhole(total) <==> AdviceHolds(p, total, x)
  {
    WholeIncrease(k, total);
    if IsWhole(total) {
      forall b: real | b >= total
        ensures Solve(WithTotal(p, b)).Selected? <==> b >= total + x as real
      {
        FeasibleFrom(p, k, b);
      }
    } else {
      var b := if total + x as real < k as real then Max(total + x as real, total) else k as real;
      FeasibleFrom(p, k, b);
      assert !(Solve(WithTotal(p, b)).Selected? <==> b >= total + x as real);
    }
  }

  lemma WholeIncrease(k: int, total: real)
    requires k as real > total
    ensures HalfEven(Max(k as real - total, 0.0)) as real == k as real - total <==> IsWhole(total)
  {
    HalfEvenExactIffWhole(k as real - total);
    WholeDifference(k, total);
  }

  lemma WholeDifference(k: int, x: real)
    ensures IsWhole(k as real - x) <==> IsWhole(x)
  {
    if IsWhole(x) {
      assert k as real - x == (k - x.Floor) as real;
      assert ((k - x.Floor) as real).Floor == k - x.Floor;
    }
    if IsWhole(k as real - x) {
      var n := (k as real - x).Floor;
      assert x == (k - n) as real;
      assert ((k - n) as real).Floor == k - n;
    }
  }

  /**
    The fallback reason is given exactly when something under the cap is short of
    the budget by no more than half a cent; never for a budget in whole cents.
    */
  lemma FallbackReasonIff(p: Problem)
    requires Solve(p).NeedsUserChange?
    ensures var a := Solve(p).advice;
            && (a.reason.NoFeasibleCombination? <==>
                  !a.reason.TransportLimitBlocksAll? && a.currentTotal.Some?
                  && a.minimumSubtotal as real - a.currentTotal.value <= 0.5)
            && (a.currentTotal.Some? && IsWhole(a.currentTotal.value) ==> !a.reason.NoFeasibleCombination?)
  {
    AdviceReports(p);
    var a := Solve(p).advice;
    if !a.reason.TransportLimitBlocksAll? {
      ShortOfBudget(p);
      AdviceIs(p);
      HalfCent(a.minimumSubtotal as real - a.currentTotal.value);
      WholeDifference(a.minimumSubtotal, a.currentTotal.value);
    }
  }

  /** Positive amounts round to nothing up to half a cent, and never when whole. */
  lemma HalfCent(gap: real)
    requires gap > 0.0
    ensures HalfEven(gap) >= 0 && (HalfEven(gap) == 0 <==> gap <= 0.5)
    ensures IsWhole(gap) ==> gap >= 1.0
  {
    if gap <= 0.5 {
      assert gap.Floor == 0;
    }
  }

  /** When the transport cap blocks everything, no budget helps. */
  lemma NoBudgetHelpsUnderCap(p: Problem, cents: real)
    requires Solve(p).NeedsUserChange? && Solve(p).advice.reason.TransportLimitBlocksAll?
    ensures Solve(WithTotal(p, cents)).NeedsUserChange?
    ensures Solve(WithTotal(p, cents)).advice.reason.TransportLimitBlocksAll?
  {
    var q := WithTotal(p, cents);
    AdviceReports(p);
    SelectedIff(q);
    assert forall t :: q.MeetsTransport(t) == p.MeetsTransport(t) && InLists(q, t) == InLists(p, t);
    ProductNonEmpty(q.outbound, q.inbound, q.hotels);
    AdviceReports(q);
  }

  // -------------------------------------------------------------- conservation

  /** Food and activities come first: a buffer is left only when their target is met in full. */
  lemma TargetIsServedFirst(remaining: int, target: real)
    requires remaining >= 0 && target >= 0.0
    ensures var a := Allocate(Some(remaining), Some(target));
            && a.SoftTargetThenBuffer? && a.shortfall.Some?
            && a.foodActivity >= 0 && a.buffer >= 0 && a.shortfall.value >= 0
            && a.foodActivity + a.buffer == remaining
            && a.foodActivity + a.shortfall.value == HalfEven(target)
            && (a.buffer == 0 || a.shortfall.value == 0)
  {
    HalfEvenMonotone(0.0, target);
    HalfEvenOfInt(0);
  }

  /** The total budget is a hard limit. */
  predicate BudgetLimited(plan: Plan) {
    !plan.noBudgetLimit && TotalBudget(plan).Some?
  }

  /** The allocation of a selection under a total budget, whether or not there is a target for food. */
  lemma AllocationConservesIff(p: Problem)
    requires Solve(p).Selected? && BudgetLimited(p.plan)
    ensures Conserves(p.plan, Solve(p).best)
  {
    BestIsFeasible(p);
    CombinationConserves(p, Solve(p).best.triple);
  }

  /**
    Nothing negative is allocated, and known costs, food and buffer use up the budget
    exactly when it is a whole number of cents.
    */
  ghost predicate Conserves(plan: Plan, c: Combination) {
    && c.allocation.SoftTargetThenBuffer? && TotalBudget(plan).Some?
    && c.allocation.foodActivity >= 0 && c.allocation.buffer >= 0
    && (IsWhole(TotalBudget(plan).value)
        <==> (c.costs.knownSubtotal + c.allocation.foodActivity + c.allocation.buffer) as real
             == TotalBudget(plan).value)
  }

  lemma CombinationConserves(p: Problem, t: Triple)
    requires BudgetLimited(p.plan) && p.Feasible(t)
    ensures Conserves(p.plan, p.Combine(t))
  {
    var c := p.Combine(t);
    CombinationShares(p, t);
    SharesAddUpIff(TotalBudget(p.plan).value, c.costs.knownSubtotal, c.allocation.foodActivity, c.allocation.buffer);
  }

  /** Under the budget limit the two parts of the allocation share out what the known costs leave. */
  lemma CombinationShares(p: Problem, t: Triple)
    requires BudgetLimited(p.plan) && p.Feasible(t)
    ensures var c := p.Combine(t);
            && TotalBudget(p.plan).Some? && c.costs.knownSubtotal as real <= TotalBudget(p.plan).value
            && c.allocation.SoftTargetThenBuffer? && c.allocation.foodActivity >= 0 && c.allocation.buffer >= 0
            && c.allocation.foodActivity + c.allocation.buffer
               == HalfEven(TotalBudget(p.plan).value - c.costs.knownSubtotal as real)
  {
    HalfEvenMonotone(0.0, TotalBudget(p.plan).value - KnownCosts(t).knownSubtotal as real);
    HalfEvenOfInt(0);
  }

  /** Known costs and the rounded remainder add up to the budget exactly when it is in whole cents. */
  lemma SharesAddUpIff(total: real, known: int, food: int, buffer: int)
    requires known as real <= total && food + buffer == HalfEven(total - known as real)
    ensures IsWhole(total) <==> (known + food + buffer) as real == total
  {
    var rest := total - known as real;
    HalfEvenExactIffWhole(rest);
    WholeDifference(-known, -total);
    WholeDifference(0, total);
    assert rest == -known as real - -total;
  }
}
