/**
  The combination optimizer of app/optimization/budget_optimizer.py.

  Every amount of money is a real number of cents, so a whole number is a whole
  cent and `round(x, 2)` is `HalfEven`; amounts the code has rounded are `int`.
  */
module BudgetOptimizer {
  import opened Prelude
  import opened Collections
  import opened OrderedDict
  import opened Rounding
  import opened Sorting
  import opened Text

  // ------------------------------------------------------------------- inputs

  /** What a price key of a candidate dict yields. */
  datatype Field = Absent | Null | Junk | Amount(cents: real)

  datatype Candidate = Candidate(
    id: string,
    direction: string,
    queryDirection: string,
    rank: Option<int>,
    totalScore: Option<real>,
    totalPrice: Field,
    price: Field,
    estimatedTotalPrice: Field)

  /** The fields read from the planning context; None where they are missing or unreadable. */
  datatype Plan = Plan(
    noBudgetLimit: bool,
    hardTotal: Option<real>,
    planTotal: Option<real>,
    requestTotal: Option<real>,
    maxTransport: Option<real>,
    foodTarget: Option<real>,
    ratioTransport: Option<real>,
    ratioHotel: Option<real>,
    ratioFood: Option<real>)

  /** scoreGrid is 10^score_round_digits. */
  datatype Config = Config(maxOutbound: int, maxReturn: int, maxHotel: int, maxAlternatives: int, scoreGrid: int) {
    /** What the constructor of the optimizer insists on. */
    predicate Valid() {
      maxOutbound > 0 && maxReturn > 0 && maxHotel > 0 && maxAlternatives >= 0 && scoreGrid > 0
    }
  }

  type ValidConfig = c: Config | c.Valid() witness Config(10, 10, 10, 3, 1000000)

  // -------------------------------------------------------- reading candidates

  function Clamp01(x: real): (r: real)
    ensures 0.0 <= r <= 1.0
    ensures 0.0 <= x <= 1.0 ==> r == x
  {
    if x > 1.0 then 1.0 else if x < 0.0 then 0.0 else x
  }

  function Max(x: real, y: real): real {
    if x >= y then x else y
  }

  function ReadAmount(f: Field): real {
    match f case Amount(x) => x case _ => 0.0
  }

  function GetOr(x: Option<real>, default: real): real {
    match x case Some(v) => v case None => default
  }

  function Direction(c: Candidate): string {
    Strip(if c.direction != "" then c.direction else c.queryDirection)
  }

  function Rank(c: Candidate): int {
    match c.rank
    case Some(r) => if r > 1 then r else 1
    case None => 1000000000
  }

  function Score(c: Candidate): real {
    Clamp01(GetOr(c.totalScore, 0.0))
  }

  function TieBreakCost(c: Candidate): real {
    Max(ReadAmount(if c.totalPrice.Absent? || c.totalPrice.Null? then c.estimatedTotalPrice else c.totalPrice), 0.0)
  }

  function FlightCost(c: Candidate): real {
    Max(ReadAmount(if c.totalPrice.Absent? then c.price else c.totalPrice), 0.0)
  }

  function HotelCost(c: Candidate): real {
    Max(ReadAmount(c.estimatedTotalPrice), 0.0)
  }

  // ------------------------------------------------- limiting the candidate lists

  /** The sort key (rank, -score, cost, id). */
  predicate CandidateLe(a: Candidate, b: Candidate) {
    || Rank(a) < Rank(b)
    || (Rank(a) == Rank(b)
        && (|| Score(a) > Score(b)
            || (Score(a) == Score(b)
                && (|| TieBreakCost(a) < TieBreakCost(b)
                    || (TieBreakCost(a) == TieBreakCost(b) && LexLe(a.id, b.id))))))
  }

  /** `setdefault` over the ordered candidates, without blank ids. */
  function BestById(ordered: seq<Candidate>): seq<Entry<string, Candidate>> {
    if ordered == [] then []
    else
      var n := |ordered| - 1;
      var best := BestById(ordered[..n]);
      var key := Strip(ordered[n].id);
      if key == "" || Lookup(best, key).Some? then best else best + [Entry(key, ordered[n])]
  }

  function LimitRanked(candidates: seq<Candidate>, limit: int): seq<Candidate>
    requires limit >= 0
  {
    Take(Values(BestById(SortBy(candidates, CandidateLe))), limit)
  }

  method LimitRankedCandidates(candidates: seq<Candidate>, limit: int) returns (kept: seq<Candidate>)
    requires limit >= 0
    ensures kept == LimitRanked(candidates, limit)
  {
    var ordered := SortBy(candidates, CandidateLe);
    var bestById: seq<Entry<string, Candidate>> := [];
    for i := 0 to |ordered|
      invariant bestById == BestById(ordered[..i])
    {
      assert ordered[..i + 1][..i] == ordered[..i];
      var key := Strip(ordered[i].id);
      if key == "" {
        continue;
      }
      if Lookup(bestById, key).None? {
        bestById := bestById + [Entry(key, ordered[i])];
      }
    }
    assert ordered[..|ordered|] == ordered;
    kept := Take(Values(bestById), limit);
  }

  // -------------------------------------------------------------- combinations

  datatype Triple = Triple(outbound: Candidate, inbound: Candidate, hotel: Candidate)

  function WithHotels(o: Candidate, r: Candidate, hotels: seq<Candidate>): seq<Triple> {
    seq(|hotels|, i requires 0 <= i < |hotels| => Triple(o, r, hotels[i]))
  }

  function WithReturns(o: Candidate, returns_: seq<Candidate>, hotels: seq<Candidate>): seq<Triple> {
    if returns_ == [] then []
    else WithHotels(o, returns_[0], hotels) + WithReturns(o, returns_[1..], hotels)
  }

  /** `itertools.product` */
  function Product(outbound: seq<Candidate>, returns_: seq<Candidate>, hotels: seq<Candidate>): seq<Triple> {
    if outbound == [] then []
    else WithReturns(outbound[0], returns_, hotels) + Product(outbound[1..], returns_, hotels)
  }

  datatype Costs = Costs(outbound: int, inbound: int, transportTotal: int, hotel: int, knownSubtotal: int)

  function KnownCosts(t: Triple): Costs {
    var o, r, h := FlightCost(t.outbound), FlightCost(t.inbound), HotelCost(t.hotel);
    var transport := HalfEven(o + r);
    Costs(HalfEven(o), HalfEven(r), transport, HalfEven(h), HalfEven(transport as real + h))
  }

  /** The id hashes the three candidate ids joined by a bar. */
  function CombinationId(t: Triple, digest: string -> string): string {
    digest(t.outbound.id + "|" + t.inbound.id + "|" + t.hotel.id)
  }

  // ------------------------------------------------------- weights and scores

  function TotalBudget(plan: Plan): Option<real> {
    if plan.hardTotal.Some? then Some(Max(plan.hardTotal.value, 0.0))
    else if plan.planTotal.Some? then Some(Max(plan.planTotal.value, 0.0))
    else if plan.requestTotal.Some? then Some(Max(plan.requestTotal.value, 0.0))
    else None
  }

  datatype Weights = Weights(transport: real, hotel: real, food: Option<real>)

  function IncludesFood(plan: Plan): bool {
    !plan.noBudgetLimit && TotalBudget(plan).Some? && plan.foodTarget.Some?
  }

  function CombinationWeights(plan: Plan): Weights {
    var t := Max(GetOr(plan.ratioTransport, 0.35), 0.0);
    var h := Max(GetOr(plan.ratioHotel, 0.35), 0.0);
    var f := if IncludesFood(plan) then Max(GetOr(plan.ratioFood, 0.30), 0.0) else 0.0;
    var total := if t + h + f == 0.0 then 1.0 else t + h + f;
    Weights(t / total, h / total, if IncludesFood(plan) then Some(f / total) else None)
  }

  function ReserveFit(remaining: Option<int>, foodTarget: Option<real>): Option<real> {
    if remaining.None? || foodTarget.None? then None
    else if foodTarget.value <= 0.0 then Some(1.0)
    else Some(Clamp01(remaining.value as real / foodTarget.value))
  }

  function WeightedSum(transportQuality: real, hotelQuality: real, fit: Option<real>, w: Weights): real {
    Part(transportQuality, w.transport) + Part(hotelQuality, w.hotel)
    + if w.food.Some? && fit.Some? then Part(fit.value, w.food.value) else 0.0
  }

  /** The part one component contributes to the score. */
  function Part(quality: real, weight: real): real {
    Clamp01(quality) * weight
  }

  function WeightedScore(transportQuality: real, hotelQuality: real, fit: Option<real>, w: Weights): real {
    Clamp01(WeightedSum(transportQuality, hotelQuality, fit, w))
  }

  datatype Allocation =
    | Unlimited
    | SoftTargetThenBuffer(foodActivity: int, buffer: int, shortfall: Option<int>)

  function MaxInt(x: int, y: int): int {
    if x >= y then x else y
  }

  function Allocate(remaining: Option<int>, foodTarget: Option<real>): Allocation {
    if remaining.None? then Unlimited
    else
      var rest := MaxInt(remaining.value, 0);
      var target := if foodTarget.Some? then MaxInt(HalfEven(foodTarget.value), 0) else 0;
      var food := if rest <= target then rest else target;
      SoftTargetThenBuffer(food, rest - food, if foodTarget.Some? then Some(MaxInt(target - food, 0)) else None)
  }

  // -------------------------------------------------------------- one problem

  /** A run after the candidate lists have been limited. */
  datatype Problem = Problem(
    cfg: ValidConfig,
    plan: Plan,
    digest: string -> string,
    outbound: seq<Candidate>,
    inbound: seq<Candidate>,
    hotels: seq<Candidate>)
  {
    function Triples(): seq<Triple> {
      Product(outbound, inbound, hotels)
    }

    /** The round-trip cap is a hard limit. */
    predicate MeetsTransport(t: Triple) {
      plan.maxTransport.Some? ==> KnownCosts(t).transportTotal as real <= plan.maxTransport.value
    }

    /** The total budget is a hard limit unless the mode says otherwise. */
    predicate MeetsBudget(t: Triple) {
      !plan.noBudgetLimit && TotalBudget(plan).Some? ==>
        KnownCosts(t).knownSubtotal as real <= TotalBudget(plan).value
    }

    predicate Feasible(t: Triple) {
      MeetsTransport(t) && MeetsBudget(t)
    }

    function Remaining(t: Triple): Option<int> {
      match TotalBudget(plan)
      case None => None
      case Some(b) => Some(HalfEven(b - KnownCosts(t).knownSubtotal as real))
    }

    function TransportQuality(t: Triple): real {
      ToGrid((Score(t.outbound) + Score(t.inbound)) / 2.0, cfg.scoreGrid)
    }

    function HotelQuality(t: Triple): real {
      ToGrid(Score(t.hotel), cfg.scoreGrid)
    }

    function Combine(t: Triple): Combination {
      var fit := ReserveFit(Remaining(t), plan.foodTarget);
      Combination(
        t,
        CombinationId(t, digest),
        ToGrid(WeightedScore(TransportQuality(t), HotelQuality(t), fit, CombinationWeights(plan)), cfg.scoreGrid),
        TransportQuality(t), HotelQuality(t), fit,
        KnownCosts(t),
        Remaining(t),
        Allocate(Remaining(t), plan.foodTarget))
    }

    predicate RowUnderCap(r: CostRow) {
      plan.maxTransport.Some? ==> r.transportTotal as real <= plan.maxTransport.value
    }

    function Row(t: Triple): CostRow {
      CostRow(t, CombinationId(t, digest), KnownCosts(t).knownSubtotal, KnownCosts(t).transportTotal)
    }
  }

  datatype Combination = Combination(
    triple: Triple,
    id: string,
    score: real,
    transportQuality: real,
    hotelQuality: real,
    reserveFit: Option<real>,
    costs: Costs,
    remaining: Option<int>,
    allocation: Allocation)

  /** The sort key (-score, known subtotal, rank sum, id). */
  predicate CombinationLe(a: Combination, b: Combination) {
    || a.score > b.score
    || (a.score == b.score
        && (|| a.costs.knownSubtotal < b.costs.knownSubtotal
            || (a.costs.knownSubtotal == b.costs.knownSubtotal
                && (|| RankSum(a.triple) < RankSum(b.triple)
                    || (RankSum(a.triple) == RankSum(b.triple) && LexLe(a.id, b.id))))))
  }

  function RankSum(t: Triple): int {
    Rank(t.outbound) + Rank(t.inbound) + Rank(t.hotel)
  }

  datatype CostRow = CostRow(triple: Triple, id: string, knownSubtotal: int, transportTotal: int)

  predicate RowLe(a: CostRow, b: CostRow) {
    a.knownSubtotal < b.knownSubtotal || (a.knownSubtotal == b.knownSubtotal && LexLe(a.id, b.id))
  }

  /** `min(rows, key=...)`: the first of the least rows. */
  function Cheapest(rows: seq<CostRow>): CostRow
    requires rows != []
  {
    if |rows| == 1 then rows[0]
    else
      var best := Cheapest(rows[..|rows| - 1]);
      var last := rows[|rows| - 1];
      if RowLe(best, last) then best else last
  }

  // ------------------------------------------------------------------ outcomes

  datatype Counts = Counts(evaluated: int, feasible: int, overTransport: int, overBudget: int)

  datatype Reason = TransportLimitBlocksAll | AllCombinationsOverTotalBudget | NoFeasibleCombination

  datatype Advice = Advice(
    reason: Reason,
    currentTotal: Option<real>,
    minimumSubtotal: int,
    increase: Option<int>,
    cheapest: CostRow)

  datatype Outcome =
    | MissingCandidates(outbound: bool, inbound: bool, hotel: bool)
    | NeedsUserChange(counts: Counts, advice: Advice)
    | Selected(counts: Counts, best: Combination, alternatives: seq<Combination>, minimumSubtotal: int)

  function Feasibles(p: Problem, ts: seq<Triple>): seq<Combination> {
    if ts == [] then []
    else
      var n := |ts| - 1;
      Feasibles(p, ts[..n]) + if p.Feasible(ts[n]) then [p.Combine(ts[n])] else []
  }

  function CountOverTransport(p: Problem, ts: seq<Triple>): int {
    if ts == [] then 0
    else
      var n := |ts| - 1;
      CountOverTransport(p, ts[..n]) + if p.MeetsTransport(ts[n]) then 0 else 1
  }

  function CountOverBudget(p: Problem, ts: seq<Triple>): int {
    if ts == [] then 0
    else
      var n := |ts| - 1;
      CountOverBudget(p, ts[..n]) + if p.MeetsTransport(ts[n]) && !p.MeetsBudget(ts[n]) then 1 else 0
  }

  function Rows(p: Problem, ts: seq<Triple>): (rows: seq<CostRow>)
    ensures |rows| == |ts|
    ensures forall i | 0 <= i < |ts| :: rows[i] == p.Row(ts[i])
  {
    seq(|ts|, i requires 0 <= i < |ts| => p.Row(ts[i]))
  }

  function BuildAdvice(p: Problem, rows: seq<CostRow>): Advice
    requires rows != []
  {
    var valid := Filter(rows, (r: CostRow) => p.RowUnderCap(r));
    var cheapest := Cheapest(if valid != [] then valid else rows);
    var blocked := p.plan.maxTransport.Some? && valid == [];
    var total := TotalBudget(p.plan);
    var increase := if total.Some? && !blocked
                    then Some(HalfEven(Max(cheapest.knownSubtotal as real - total.value, 0.0)))
                    else None;
    var reason := if blocked then TransportLimitBlocksAll
                  else if increase.Some? && increase.value > 0 then AllCombinationsOverTotalBudget
                  else NoFeasibleCombination;
    Advice(reason, total, cheapest.knownSubtotal, increase, cheapest)
  }

  function Solve(p: Problem): Outcome {
    if p.outbound == [] || p.inbound == [] || p.hotels == [] then
      MissingCandidates(p.outbound == [], p.inbound == [], p.hotels == [])
    else
      var ts := p.Triples();
      ProductNonEmpty(p.outbound, p.inbound, p.hotels);
      Conclude(p, Rows(p, ts), Feasibles(p, ts),
               Counts(|ts|, |Feasibles(p, ts)|, CountOverTransport(p, ts), CountOverBudget(p, ts)))
  }

  function Conclude(p: Problem, rows: seq<CostRow>, found: seq<Combination>, counts: Counts): Outcome
    requires rows != []
  {
    if found == [] then NeedsUserChange(counts, BuildAdvice(p, rows))
    else
      var ordered := SortBy(found, CombinationLe);
      Selected(counts, ordered[0], Take(ordered[1..], p.cfg.maxAlternatives), Cheapest(rows).knownSubtotal)
  }

  function ProblemOf(cfg: ValidConfig, plan: Plan, flights: seq<Candidate>, hotels: seq<Candidate>,
                     digest: string -> string): Problem
  {
    Problem(cfg, plan, digest,
            LimitRanked(Filter(flights, (c: Candidate) => Direction(c) == "outbound"), cfg.maxOutbound),
            LimitRanked(Filter(flights, (c: Candidate) => Direction(c) == "return"), cfg.maxReturn),
            LimitRanked(hotels, cfg.maxHotel))
  }

  method Optimize(cfg: ValidConfig, plan: Plan, flights: seq<Candidate>, hotelCandidates: seq<Candidate>,
                  digest: string -> string) returns (out: Outcome)
    ensures out == Solve(ProblemOf(cfg, plan, flights, hotelCandidates, digest))
  {
    var outbound := LimitRankedCandidates(Filter(flights, (c: Candidate) => Direction(c) == "outbound"),
      cfg.maxOutbound);
    var inbound := LimitRankedCandidates(Filter(flights, (c: Candidate) => Direction(c) == "return"), cfg.maxReturn);
    var hotels := LimitRankedCandidates(hotelCandidates, cfg.maxHotel);
    var p := Problem(cfg, plan, digest, outbound, inbound, hotels);
    if outbound == [] || inbound == [] || hotels == [] {
      return MissingCandidates(outbound == [], inbound == [], hotels == []);
    }
    ProductNonEmpty(outbound, inbound, hotels);
    var rows, found, counts := EnumerateCombinations(p, p.Triples());
    out := Conclude(p, rows, found, counts);
  }

  lemma EnumerationStep(p: Problem, ts: seq<Triple>, i: nat)
    requires i < |ts|
    ensures Rows(p, ts[..i + 1]) == Rows(p, ts[..i]) + [p.Row(ts[i])]
    ensures Feasibles(p, ts[..i + 1]) == Feasibles(p, ts[..i]) + if p.Feasible(ts[i]) then [p.Combine(ts[i])] else []
    ensures CountOverTransport(p, ts[..i + 1])
            == CountOverTransport(p, ts[..i]) + if p.MeetsTransport(ts[i]) then 0 else 1
    ensures CountOverBudget(p, ts[..i + 1])
            == CountOverBudget(p, ts[..i]) + if p.MeetsTransport(ts[i]) && !p.MeetsBudget(ts[i]) then 1 else 0
  {
    assert ts[..i + 1][..i] == ts[..i];
  }

  /** The loop over the product. */
  method EnumerateCombinations(p: Problem, ts: seq<Triple>)
    returns (rows: seq<CostRow>, found: seq<Combination>, counts: Counts)
    ensures rows == Rows(p, ts) && found == Feasibles(p, ts)
    ensures counts == Counts(|ts|, |found|, CountOverTransport(p, ts), CountOverBudget(p, ts))
  {
    rows, found := [], [];
    var evaluated, overBudget, overTransport := 0, 0, 0;
    for i := 0 to |ts|
      invariant evaluated == i
      invariant rows == Rows(p, ts[..i])
      invariant found == Feasibles(p, ts[..i])
      invariant overTransport == CountOverTransport(p, ts[..i])
      invariant overBudget == CountOverBudget(p, ts[..i])
    {
      EnumerationStep(p, ts, i);
      var t := ts[i];
      evaluated := evaluated + 1;
      rows := rows + [p.Row(t)];
      if !p.MeetsTransport(t) {
        overTransport := overTransport + 1;
        continue;
      }
      if !p.MeetsBudget(t) {
        overBudget := overBudget + 1;
        continue;
      }
      found := found + [p.Combine(t)];
    }
    assert ts[..|ts|] == ts;
    counts := Counts(evaluated, |found|, overTransport, overBudget);
  }

  lemma ProductNonEmpty(outbound: seq<Candidate>, returns_: seq<Candidate>, hotels: seq<Candidate>)
    requires outbound != [] && returns_ != [] && hotels != []
    ensures Product(outbound, returns_, hotels) != []
  {
    assert |WithHotels(outbound[0], returns_[0], hotels)| > 0;
    assert |WithReturns(outbound[0], returns_, hotels)| > 0;
  }
}
