/**
  What the optimizer's outcome says about the candidates' own fields: the prices,
  scores and ranks that app/optimization/budget_optimizer.py reads from them, and the
  settings of the budget plan.
  */
module BudgetMeaning {
  import opened Prelude
  import opened Collections
  import opened RealFacts
  import opened Rounding
  import opened Sorting
  import opened Text
  import opened BudgetOptimizer
  import opened BudgetTheorems

  // ------------------------------------------------------------- reading the fields

  /** x is the point of the unit interval nearest to the candidate's total score; without one it is 0. */
  predicate Rated(c: Candidate, x: real) {
    && 0.0 <= x <= 1.0
    && (c.totalScore.None? ==> x == 0.0)
    && (c.totalScore.Some? ==> (x < c.totalScore.value ==> x == 1.0) && (x > c.totalScore.value ==> x == 0.0))
  }

  /** x is the amount in the field if that is a non-negative number, else 0. */
  predicate Priced(f: Field, x: real) {
    if f.Amount? && f.cents >= 0.0 then x == f.cents else x == 0.0
  }

  /** A flight costs what `total_price` says; `price` counts only where that key is missing. */
  predicate FlightPriced(c: Candidate, x: real) {
    && (c.totalPrice.Absent? ==> Priced(c.price, x))
    && (!c.totalPrice.Absent? ==> Priced(c.totalPrice, x))
  }

  /** Ranks count from one; a candidate without a rank comes after a billion. */
  predicate Ranked(c: Candidate, n: int) {
    && (c.rank.None? ==> n == 1000000000)
    && (c.rank.Some? ==> n >= 1 && n >= c.rank.value && (n == 1 || n == c.rank.value))
  }

  predicate Within(x: real, y: real, distance: real) {
    x - distance <= y <= x + distance
  }

  lemma ScoreIsRated(c: Candidate, x: real)
    ensures Rated(c, x) <==> x == Score(c)
  {
  }

  lemma RankIsRanked(c: Candidate, n: int)
    ensures Ranked(c, n) <==> n == Rank(c)
  {
  }

  // -------------------------------------------------------------------- qualities

  lemma OnGridIsNear(x: real, grid: int)
    requires grid > 0
    ensures Within(x, ToGrid(x, grid), 1.0 / (2 * grid) as real)
  {
    var g, n := grid as real, HalfEven(Scaled(x, grid)) as real;
    QuotientsAreNear(x, n, g);
  }

  lemma QuotientsAreNear(x: real, n: real, g: real)
    requires g > 0.0 && x * g - 0.5 <= n <= x * g + 0.5
    ensures x - 1.0 / (2.0 * g) <= n / g <= x + 1.0 / (2.0 * g)
  {
    assert n / g - x == (n - x * g) / g;
    assert 1.0 / (2.0 * g) == 0.5 / g;
    DivideMonotone(-0.5, n - x * g, g);
    DivideMonotone(n - x * g, 0.5, g);
  }

  /** The reported hotel quality is the selected hotel's own score, up to the rounding of the grid. */
  lemma HotelQualityIsItsScore(p: Problem, h: real)
    requires Solve(p).Selected? && Rated(Solve(p).best.triple.hotel, h)
    ensures Within(h, Solve(p).best.hotelQuality, 1.0 / (2 * p.cfg.scoreGrid) as real)
  {
    BestIsFeasible(p);
    ScoreIsRated(Solve(p).best.triple.hotel, h);
    OnGridIsNear(h, p.cfg.scoreGrid);
  }

  lemma MeanIsNear(t: Triple, o: real, r: real, grid: int)
    requires grid > 0 && Rated(t.outbound, o) && Rated(t.inbound, r)
    ensures Within((o + r) / 2.0, ToGrid((Score(t.outbound) + Score(t.inbound)) / 2.0, grid), 1.0 / (2 * grid) as real)
  {
    ScoreIsRated(t.outbound, o);
    ScoreIsRated(t.inbound, r);
    OnGridIsNear((o + r) / 2.0, grid);
  }

  lemma BestQualities(p: Problem)
    requires Solve(p).Selected?
    ensures Solve(p).best.transportQuality == p.TransportQuality(Solve(p).best.triple)
    ensures Solve(p).best.hotelQuality == p.HotelQuality(Solve(p).best.triple)
  {
    BestIsFeasible(p);
  }

  lemma MeanQuality(p: Problem, t: Triple, o: real, r: real)
    requires Rated(t.outbound, o) && Rated(t.inbound, r)
    ensures Within((o + r) / 2.0, p.TransportQuality(t), 1.0 / (2 * p.cfg.scoreGrid) as real)
  {
    MeanIsNear(t, o, r, p.cfg.scoreGrid);
  }

  /** The reported transport quality is the mean of the two selected flights' scores. */
  lemma TransportQualityIsTheMean(p: Problem, o: real, r: real)
    requires Solve(p).Selected?
    requires Rated(Solve(p).best.triple.outbound, o) && Rated(Solve(p).best.triple.inbound, r)
    ensures Within((o + r) / 2.0, Solve(p).best.transportQuality, 1.0 / (2 * p.cfg.scoreGrid) as real)
  {
    BestQualities(p);
    MeanQuality(p, Solve(p).best.triple, o, r);
  }

  /** t's hotel is rated no worse than the other's, and so are its flights on average. */
  ghost predicate RatedNoWorse(t: Triple, than: Triple) {
    && (forall x, y :: Rated(t.hotel, x) && Rated(than.hotel, y) ==> x >= y)
    && (forall o, r, o', r' :: Rated(t.outbound, o) && Rated(t.inbound, r)
                               && Rated(than.outbound, o') && Rated(than.inbound, r')
                               ==> o + r >= o' + r')
  }

  lemma RatedNoWorseScores(p: Problem, t: Triple, than: Triple)
    requires RatedNoWorse(t, than)
    ensures p.HotelQuality(t) >= p.HotelQuality(than) && p.TransportQuality(t) >= p.TransportQuality(than)
  {
    ScoreIsRated(t.hotel, Score(t.hotel));
    ScoreIsRated(than.hotel, Score(than.hotel));
    ScoreIsRated(t.outbound, Score(t.outbound));
    ScoreIsRated(t.inbound, Score(t.inbound));
    ScoreIsRated(than.outbound, Score(than.outbound));
    ScoreIsRated(than.inbound, Score(than.inbound));
    ToGridMonotone(Score(than.hotel), Score(t.hotel), p.cfg.scoreGrid);
    ToGridMonotone((Score(than.outbound) + Score(than.inbound)) / 2.0,
                   (Score(t.outbound) + Score(t.inbound)) / 2.0, p.cfg.scoreGrid);
  }

  /**
    Nothing feasible is rated at least as well, hotel by hotel and on the average of the
    flights, and cheaper: the selection is Pareto-optimal in the candidates' own scores.
    */
  lemma SelectionIsParetoInScores(p: Problem, t: Triple)
    requires Solve(p).Selected? && InLists(p, t) && p.Feasible(t) && RatedNoWorse(t, Solve(p).best.triple)
    ensures KnownCosts(t).knownSubtotal >= Solve(p).best.costs.knownSubtotal
  {
    BestIsFeasible(p);
    RatedNoWorseScores(p, t, Solve(p).best.triple);
    SelectionIsPareto(p, t);
  }

  // ------------------------------------------------------------------------ prices

  /** Each amount is the sum of the prices it stands for, up to its roundings to cents. */
  predicate AddsUp(c: Costs, o: real, r: real, h: real) {
    && Within(o, c.outbound as real, 0.5) && Within(r, c.inbound as real, 0.5) && Within(h, c.hotel as real, 0.5)
    && Within(o + r, c.transportTotal as real, 0.5)
    && Within(c.transportTotal as real + h, c.knownSubtotal as real, 0.5)
  }

  predicate WholePrices(o: real, r: real, h: real) {
    IsWhole(o) && IsWhole(r) && IsWhole(h)
  }

  /** In whole cents nothing is rounded. */
  predicate AddsUpExactly(c: Costs, o: real, r: real, h: real) {
    && c.outbound as real == o && c.inbound as real == r && c.hotel as real == h
    && c.transportTotal as real == o + r && c.knownSubtotal as real == o + r + h
  }

  lemma WholeIsKept(x: real)
    requires IsWhole(x)
    ensures HalfEven(x) as real == x
  {
    HalfEvenOfInt(x.Floor);
  }

  lemma WholeSum(x: real, y: real)
    requires IsWhole(x) && IsWhole(y)
    ensures IsWhole(x + y)
  {
    assert x + y == (x.Floor + y.Floor) as real;
    assert ((x.Floor + y.Floor) as real).Floor == x.Floor + y.Floor;
  }

  lemma PricesAreCosts(t: Triple, o: real, r: real, h: real)
    requires FlightPriced(t.outbound, o) && FlightPriced(t.inbound, r) && Priced(t.hotel.estimatedTotalPrice, h)
    ensures o == FlightCost(t.outbound) && r == FlightCost(t.inbound) && h == HotelCost(t.hotel)
  {
  }

  /** The costs of a combination are its flights' and its hotel's own prices. */
  lemma CostsAreThePrices(t: Triple, o: real, r: real, h: real)
    requires FlightPriced(t.outbound, o) && FlightPriced(t.inbound, r) && Priced(t.hotel.estimatedTotalPrice, h)
    ensures AddsUp(KnownCosts(t), o, r, h)
    ensures WholePrices(o, r, h) ==> AddsUpExactly(KnownCosts(t), o, r, h)
  {
    PricesAreCosts(t, o, r, h);
    if WholePrices(o, r, h) {
      WholeSum(o, r);
      WholeSum(o + r, h);
      WholeIsKept(o);
      WholeIsKept(r);
      WholeIsKept(h);
      WholeIsKept(o + r);
      WholeIsKept(o + r + h);
    }
  }

  // -------------------------------------------------------------------- the budget

  /** x is the limit in force: that of the hard limits, else the plan's, else the request's, and never negative. */
  predicate InForce(plan: Plan, x: Option<real>) {
    && (x.None? <==> plan.hardTotal.None? && plan.planTotal.None? && plan.requestTotal.None?)
    && (x.Some? ==>
          && x.value >= 0.0
          && (plan.hardTotal.Some? ==> AtZeroOrAbove(plan.hardTotal.value, x.value))
          && (plan.hardTotal.None? && plan.planTotal.Some? ==> AtZeroOrAbove(plan.planTotal.value, x.value))
          && (plan.hardTotal.None? && plan.planTotal.None? ==> AtZeroOrAbove(plan.requestTotal.value, x.value)))
  }

  predicate AtZeroOrAbove(wanted: real, x: real) {
    x == wanted || (wanted < 0.0 && x == 0.0)
  }

  lemma LimitInForce(plan: Plan, x: Option<real>)
    ensures InForce(plan, x) <==> x == TotalBudget(plan)
  {
  }

  /** Feasible is what keeps its flights under the cap and, in a limited budget, its total under that. */
  lemma FeasibleByPrices(p: Problem, t: Triple, o: real, r: real, h: real)
    requires FlightPriced(t.outbound, o) && FlightPriced(t.inbound, r) && Priced(t.hotel.estimatedTotalPrice, h)
    requires WholePrices(o, r, h)
    ensures p.Feasible(t) <==>
              && (p.plan.maxTransport.Some? ==> o + r <= p.plan.maxTransport.value)
              && (!p.plan.noBudgetLimit ==> forall b :: InForce(p.plan, Some(b)) ==> o + r + h <= b)
  {
    CostsAreThePrices(t, o, r, h);
    LimitInForce(p.plan, TotalBudget(p.plan));
    assert forall b :: InForce(p.plan, Some(b)) ==> TotalBudget(p.plan) == Some(b) by {
      forall b | InForce(p.plan, Some(b))
        ensures TotalBudget(p.plan) == Some(b)
      {
        LimitInForce(p.plan, Some(b));
      }
    }
  }

  // -------------------------------------------------------------------- the score

  /** What is left of the budget is what the known costs leave, in cents. */
  lemma RemainderIsLeft(p: Problem)
    requires Solve(p).Selected?
    ensures var best := Solve(p).best;
            && (best.remaining.Some? <==> TotalBudget(p.plan).Some?)
            && (best.remaining.Some? ==>
                  Within(TotalBudget(p.plan).value - best.costs.knownSubtotal as real,
                         best.remaining.value as real, 0.5))
  {
    BestIsFeasible(p);
  }

  /** The reserve fits by the share of the food target that is left, one at most. */
  predicate Fits(fit: Option<real>, remaining: Option<int>, target: Option<real>) {
    && (fit.Some? <==> remaining.Some? && target.Some?)
    && (fit.Some? ==>
          && 0.0 <= fit.value <= 1.0
          && (target.value <= 0.0 || remaining.value as real >= target.value ==> fit.value == 1.0)
          && (target.value > 0.0 && 0.0 <= remaining.value as real <= target.value ==>
                fit.value * target.value == remaining.value as real)
          && (target.value > 0.0 && remaining.value < 0 ==> fit.value == 0.0))
  }

  lemma FitIsTheShare(remaining: Option<int>, target: Option<real>)
    ensures Fits(ReserveFit(remaining, target), remaining, target)
  {
    if remaining.Some? && target.Some? && target.value > 0.0 {
      var x, t := remaining.value as real, target.value;
      if x >= t {
        DivideMonotone(t, x, t);
        DivideSelf(t);
      } else if x >= 0.0 {
        DivideMonotone(0.0, x, t);
        DivideMonotone(x, t, t);
        DivideSelf(t);
      } else {
        DivideMonotone(x, 0.0, t);
        NegativeQuotient(x, t);
      }
    }
  }

  lemma NegativeQuotient(x: real, t: real)
    requires x < 0.0 < t
    ensures x / t < 0.0
  {
    assert (x / t) * t == x;
    if x / t >= 0.0 {
      ScaleMonotone(0.0, x / t, t);
    }
  }

  /** A ratio of the plan counts as given when it is not negative, and by default otherwise. */
  predicate Counts(given: Option<real>, default: real, x: real) {
    && (given.None? ==> x == default)
    && (given.Some? ==> AtZeroOrAbove(given.value, x) && x >= 0.0)
  }

  lemma CountsIsRead(given: Option<real>, default: real, x: real)
    requires Counts(given, default, x) && default >= 0.0
    ensures x == Max(GetOr(given, default), 0.0) && x >= 0.0
  {
  }

  lemma ShareTimesWhole(x: real, whole: real)
    requires whole != 0.0
    ensures (x / whole) * whole == x
  {
  }

  /** The weights stand to each other as t, h and f. */
  predicate Proportional(w: Weights, t: real, h: real, f: real) {
    && w.transport * (t + h + f) == t && w.hotel * (t + h + f) == h
    && (w.food.Some? ==> w.food.value * (t + h + f) == f)
  }

  lemma ThreeWeights(t: real, h: real, f: real, total: real, w: Weights)
    requires t >= 0.0 && h >= 0.0 && f >= 0.0 && total == (if t + h + f == 0.0 then 1.0 else t + h + f)
    requires w.transport == t / total && w.hotel == h / total && (w.food.Some? ==> w.food.value == f / total)
    ensures Proportional(w, t, h, f)
  {
    if t + h + f != 0.0 {
      ShareTimesWhole(t, total);
      ShareTimesWhole(h, total);
      ShareTimesWhole(f, total);
    }
  }

  /**
    The weights stand to each other as the plan's ratios for transport, hotel and food
    do; food has one exactly under a limited budget with a target for it.
    */
  lemma WeightsAreProportional(plan: Plan, t: real, h: real, f: real)
    requires Counts(plan.ratioTransport, 0.35, t) && Counts(plan.ratioHotel, 0.35, h)
    requires Counts(plan.ratioFood, 0.30, f)
    ensures var w := CombinationWeights(plan);
            && (w.food.Some? <==> !plan.noBudgetLimit && TotalBudget(plan).Some? && plan.foodTarget.Some?)
            && Proportional(w, t, h, if w.food.Some? then f else 0.0)
  {
    CountsIsRead(plan.ratioTransport, 0.35, t);
    CountsIsRead(plan.ratioHotel, 0.35, h);
    CountsIsRead(plan.ratioFood, 0.30, f);
    var food := if IncludesFood(plan) then f else 0.0;
    ThreeWeights(t, h, food, if t + h + food == 0.0 then 1.0 else t + h + food, CombinationWeights(plan));
  }

  lemma GridInUnit(x: real, grid: int)
    requires grid > 0 && 0.0 <= x <= 1.0
    ensures 0.0 <= ToGrid(x, grid) <= 1.0
  {
    ToGridMonotone(0.0, x, grid);
    ToGridMonotone(x, 1.0, grid);
    HalfEvenOfInt(0);
    HalfEvenOfInt(grid);
    DivideSelf(grid as real);
  }

  lemma QualitiesInUnit(p: Problem, t: Triple)
    ensures 0.0 <= p.TransportQuality(t) <= 1.0 && 0.0 <= p.HotelQuality(t) <= 1.0
  {
    GridInUnit((Score(t.outbound) + Score(t.inbound)) / 2.0, p.cfg.scoreGrid);
    GridInUnit(Score(t.hotel), p.cfg.scoreGrid);
  }

  /** What the qualities, each times its weight, add up to; the reserve counts where the plan has food. */
  function Total(x: real, y: real, fit: Option<real>, w: Weights): real {
    x * w.transport + y * w.hotel + if w.food.Some? && fit.Some? then fit.value * w.food.value else 0.0
  }

  /** Inside the unit interval a component contributes exactly its quality times its weight. */
  lemma SumIsTotal(x: real, y: real, fit: Option<real>, w: Weights)
    requires 0.0 <= x <= 1.0 && 0.0 <= y <= 1.0 && (fit.Some? ==> 0.0 <= fit.value <= 1.0)
    ensures WeightedSum(x, y, fit, w) == Total(x, y, fit, w)
  {
  }

  lemma ScoreIsNear(plan: Plan, x: real, y: real, fit: Option<real>, grid: int)
    requires 0.0 <= x <= 1.0 && 0.0 <= y <= 1.0 && (fit.Some? ==> 0.0 <= fit.value <= 1.0) && grid > 0
    ensures var w := CombinationWeights(plan);
            Within(Total(x, y, fit, w), ToGrid(WeightedScore(x, y, fit, w), grid), 1.0 / (2 * grid) as real)
  {
    var w := CombinationWeights(plan);
    SumIsTotal(x, y, fit, w);
    FinalClampIsNoOp(plan, x, y, fit);
    OnGridIsNear(WeightedScore(x, y, fit, w), grid);
  }

  /** The score of the selection is the weighted sum of its qualities, up to the grid. */
  lemma ScoreIsTheWeightedSum(p: Problem)
    requires Solve(p).Selected?
    ensures var best := Solve(p).best;
            && Within(Total(best.transportQuality, best.hotelQuality, best.reserveFit, CombinationWeights(p.plan)),
                      best.score, 1.0 / (2 * p.cfg.scoreGrid) as real)
            && Fits(best.reserveFit, best.remaining, p.plan.foodTarget)
  {
    BestIsFeasible(p);
    var t := Solve(p).best.triple;
    FitIsTheShare(p.Remaining(t), p.plan.foodTarget);
    QualitiesInUnit(p, t);
    ScoreIsNear(p.plan, p.TransportQuality(t), p.HotelQuality(t), ReserveFit(p.Remaining(t), p.plan.foodTarget),
                p.cfg.scoreGrid);
  }

  // -------------------------------------------------------------------- the order

  /** n is the sum of the three ranks. */
  ghost predicate RanksAddUp(t: Triple, n: int) {
    exists i, j, k :: Ranked(t.outbound, i) && Ranked(t.inbound, j) && Ranked(t.hotel, k) && n == i + j + k
  }

  lemma RankSumAddsUp(t: Triple, n: int)
    requires RanksAddUp(t, n)
    ensures n == RankSum(t)
  {
    var i, j, k :| Ranked(t.outbound, i) && Ranked(t.inbound, j) && Ranked(t.hotel, k) && n == i + j + k;
    RankIsRanked(t.outbound, i);
    RankIsRanked(t.inbound, j);
    RankIsRanked(t.hotel, k);
  }

  /** The better score wins, then the lower cost, then the smaller sum of ranks, then the smaller id. */
  predicate Beats(a: Combination, b: Combination, m: int, n: int) {
    && a.score >= b.score
    && (a.score == b.score ==> a.costs.knownSubtotal <= b.costs.knownSubtotal)
    && (a.score == b.score && a.costs.knownSubtotal == b.costs.knownSubtotal ==> m <= n)
    && (a.score == b.score && a.costs.knownSubtotal == b.costs.knownSubtotal && m == n ==> LexLe(a.id, b.id))
  }

  lemma OrderOfCombinations(a: Combination, b: Combination)
    requires CombinationLe(a, b)
    ensures Beats(a, b, RankSum(a.triple), RankSum(b.triple))
  {
  }

  lemma BestComesFirst(p: Problem, t: Triple, m: int, n: int)
    requires Solve(p).Selected? && InLists(p, t) && p.Feasible(t)
    requires RanksAddUp(Solve(p).best.triple, m) && RanksAddUp(t, n)
    ensures Beats(Solve(p).best, p.Combine(t), m, n)
  {
    BestIsLeast(p, t);
    RankSumAddsUp(Solve(p).best.triple, m);
    RankSumAddsUp(t, n);
    OrderOfCombinations(Solve(p).best, p.Combine(t));
  }

  /** The lower rank goes first, then the better score, then the lower price, then the smaller id. */
  predicate Precedes(a: Candidate, b: Candidate, i: int, j: int, x: real, y: real, u: real, v: real) {
    && i <= j
    && (i == j ==> x >= y)
    && (i == j && x == y ==> u <= v)
    && (i == j && x == y && u == v ==> LexLe(a.id, b.id))
  }

  /** What breaks a tie is the total price where it is present, else the estimated one. */
  predicate TiePriced(c: Candidate, x: real) {
    && (c.totalPrice.Absent? || c.totalPrice.Null? ==> Priced(c.estimatedTotalPrice, x))
    && (c.totalPrice.Junk? || c.totalPrice.Amount? ==> Priced(c.totalPrice, x))
  }

  /** The sort key of the candidates, in their own fields. */
  lemma CandidateOrder(a: Candidate, b: Candidate, i: int, j: int, x: real, y: real, u: real, v: real)
    requires Ranked(a, i) && Ranked(b, j) && Rated(a, x) && Rated(b, y) && TiePriced(a, u) && TiePriced(b, v)
    ensures CandidateLe(a, b) <==> Precedes(a, b, i, j, x, y, u, v)
  {
    ScoreIsRated(a, x);
    ScoreIsRated(b, y);
    RankIsRanked(a, i);
    RankIsRanked(b, j);
  }

  lemma KeptInOrder(cs: seq<Candidate>, limit: int, m: nat, n: nat,
                    i: int, j: int, x: real, y: real, u: real, v: real)
    requires limit >= 0 && m < n < |LimitRanked(cs, limit)|
    requires var a, b := LimitRanked(cs, limit)[m], LimitRanked(cs, limit)[n];
             && Ranked(a, i) && Ranked(b, j) && Rated(a, x) && Rated(b, y) && TiePriced(a, u) && TiePriced(b, v)
    ensures Precedes(LimitRanked(cs, limit)[m], LimitRanked(cs, limit)[n], i, j, x, y, u, v)
  {
    LimitedListShape(cs, limit);
    CandidateOrder(LimitRanked(cs, limit)[m], LimitRanked(cs, limit)[n], i, j, x, y, u, v);
  }

  // ---------------------------------------------------------------- what is reported

  /** A flight flies where its direction says, or its query's direction if it has none. */
  predicate Flies(c: Candidate, direction: string) {
    && (c.direction != [] ==> Strip(c.direction) == direction)
    && (c.direction == [] ==> Strip(c.queryDirection) == direction)
  }

  /** The lists hold flights out, flights back and hotels of the input, each at most so many. */
  lemma ListsOfProblem(cfg: ValidConfig, plan: Plan, flights: seq<Candidate>, hotels: seq<Candidate>,
                       digest: string -> string, c: Candidate)
    ensures var p := ProblemOf(cfg, plan, flights, hotels, digest);
            && (c in p.outbound ==> c in flights && Flies(c, "outbound"))
            && (c in p.inbound ==> c in flights && Flies(c, "return"))
            && (c in p.hotels ==> c in hotels)
            && |p.outbound| <= cfg.maxOutbound && |p.inbound| <= cfg.maxReturn && |p.hotels| <= cfg.maxHotel
  {
    var out := (c: Candidate) => Direction(c) == "outbound";
    var back := (c: Candidate) => Direction(c) == "return";
    LimitedListShape(Filter(flights, out), cfg.maxOutbound);
    LimitedListShape(Filter(flights, back), cfg.maxReturn);
    LimitedListShape(hotels, cfg.maxHotel);
    FilterMember(flights, out, c);
    FilterMember(flights, back, c);
  }

  /** A run lacks candidates exactly when a list is empty, and says which. */
  lemma MissingIff(p: Problem)
    ensures Solve(p).MissingCandidates? <==> p.outbound == [] || p.inbound == [] || p.hotels == []
    ensures Solve(p).MissingCandidates? ==>
              && (Solve(p).outbound <==> p.outbound == []) && (Solve(p).inbound <==> p.inbound == [])
              && (Solve(p).hotel <==> p.hotels == [])
  {
  }

  /** A combination's id digests the ids of its parts. */
  lemma IdDigestsTheIds(p: Problem)
    requires Solve(p).Selected?
    ensures var t := Solve(p).best.triple;
            Solve(p).best.id == p.digest(t.outbound.id + "|" + t.inbound.id + "|" + t.hotel.id)
  {
    BestIsFeasible(p);
  }

  /** The minimum reported beside a selection is that of all combinations, feasible or not. */
  lemma MinimumOfAll(p: Problem, t: Triple)
    requires Solve(p).Selected?
    ensures InLists(p, t) ==> Solve(p).minimumSubtotal <= KnownCosts(t).knownSubtotal
    ensures exists s :: InLists(p, s) && KnownCosts(s).knownSubtotal == Solve(p).minimumSubtotal
  {
    var rows := Rows(p, p.Triples());
    ProductNonEmpty(p.outbound, p.inbound, p.hotels);
    CheapestIsLeast(rows);
    RowListed(p, Cheapest(rows));
    RowsMember(p, t);
    if InLists(p, t) {
      assert RowLe(Cheapest(rows), p.Row(t));
    }
  }

  /** Among equally cheap combinations the advice names the one with the smallest id. */
  lemma AdviceBreaksTies(p: Problem, t: Triple)
    requires Solve(p).NeedsUserChange? && InLists(p, t) && p.MeetsTransport(t)
    ensures var cheapest := Solve(p).advice.cheapest;
            && cheapest.knownSubtotal <= KnownCosts(t).knownSubtotal
            && (cheapest.knownSubtotal == KnownCosts(t).knownSubtotal ==>
                  LexLe(cheapest.id, CombinationId(t, p.digest)))
  {
    AdviceIs(p);
    ValidRows(p);
    CheapestIsLeast(Filter(Rows(p, p.Triples()), (r: CostRow) => p.RowUnderCap(r)));
  }

  /** Without a food target everything that is left is buffer; without a budget nothing is allocated. */
  lemma NoTargetIsAllBuffer(remaining: int)
    ensures Allocate(None, None) == Unlimited
    ensures Allocate(Some(remaining), None) == SoftTargetThenBuffer(0, if remaining > 0 then remaining else 0, None)
  {
  }

  /** The optimizer accepts any positive limits, any number of alternatives and any grid. */
  lemma SettingsIff(outbound: int, inbound: int, hotels: int, alternatives: int, grid: int)
    ensures Config(outbound, inbound, hotels, alternatives, grid).Valid()
            <==> outbound >= 1 && inbound >= 1 && hotels >= 1 && alternatives >= 0 && grid >= 1
  {
  }
}
