/**
  Budgets that are not a whole number of cents, on which what the optimizer
  reports is off: the smallest cases behind the equivalences of BudgetTheorems.
*/
module BudgetWitnesses {
  import opened Prelude
  import opened Collections
  import opened OrderedDict
  import opened Rounding
  import opened Sorting
  import opened Text
  import opened BudgetOptimizer
  import opened BudgetTheorems

  const SETTINGS := Config(10, 10, 10, 3, 1000000)

  function Flight(id: string, direction: string, cents: real): Candidate {
    Candidate(id, direction, direction, Some(1), None, Amount(cents), Absent, Absent)
  }

  function Stay(id: string, cents: real): Candidate {
    Candidate(id, "", "", Some(1), None, Absent, Absent, Amount(cents))
  }

  const OUTBOUND := Flight("out", "outbound", 50.0)
  const INBOUND := Flight("back", "return", 30.0)
  const HOTEL := Stay("stay", 20.0)
  const SOLE := Triple(OUTBOUND, INBOUND, HOTEL)

  /** A budget, no cap, and ten cents meant for food. */
  function PlanFor(budget: real): Plan {
    Plan(false, Some(budget), None, None, None, Some(10.0), None, None, None)
  }

  /** The run on one ranked candidate of each kind, together a hundred cents. */
  function Small(budget: real, digest: string -> string): Problem {
    ProblemOf(SETTINGS, PlanFor(budget), [OUTBOUND, INBOUND], [HOTEL], digest)
  }

  /** A list of one candidate with an id is kept as it is. */
  lemma LimitOfOne(c: Candidate, limit: int)
    requires Strip(c.id) != "" && limit >= 1
    ensures LimitRanked([c], limit) == [c]
  {
    assert SortBy([c][1..], CandidateLe) == [];
    assert SortBy([c], CandidateLe) == [c];
    assert [c][..0] == [] && BestById([c][..0]) == [];
    assert BestById([c]) == [Entry(Strip(c.id), c)];
    assert Values([Entry(Strip(c.id), c)]) == [c];
  }

  lemma Words()
    ensures Strip("out") == "out" && Strip("back") == "back" && Strip("stay") == "stay"
    ensures Strip("outbound") == "outbound" && Strip("return") == "return"
  {
  }

  lemma FilterPair(o: Candidate, r: Candidate, p: Candidate -> bool)
    ensures p(o) && !p(r) ==> Filter([o, r], p) == [o]
    ensures !p(o) && p(r) ==> Filter([o, r], p) == [r]
  {
    assert [o, r][1..] == [r] && [r][1..] == [];
    assert Filter([r], p) == if p(r) then [r] else [];
  }

  /** One flight each way is split into the two groups. */
  lemma OneEachWay(o: Candidate, r: Candidate)
    requires o.direction == "outbound" && r.direction == "return"
    ensures Filter([o, r], (c: Candidate) => Direction(c) == "outbound") == [o]
    ensures Filter([o, r], (c: Candidate) => Direction(c) == "return") == [r]
  {
    Words();
    assert Direction(o) == "outbound" && Direction(r) == "return";
    FilterPair(o, r, (c: Candidate) => Direction(c) == "outbound");
    FilterPair(o, r, (c: Candidate) => Direction(c) == "return");
  }

  /** The problem of one candidate of each kind. */
  lemma ProblemOfThree(plan: Plan, o: Candidate, r: Candidate, h: Candidate, digest: string -> string)
    requires o.direction == "outbound" && r.direction == "return"
    requires Strip(o.id) != "" && Strip(r.id) != "" && Strip(h.id) != ""
    ensures ProblemOf(SETTINGS, plan, [o, r], [h], digest) == Problem(SETTINGS, plan, digest, [o], [r], [h])
  {
    OneEachWay(o, r);
    LimitOfOne(o, 10);
    LimitOfOne(r, 10);
    LimitOfOne(h, 10);
  }

  lemma SmallProblem(budget: real, digest: string -> string)
    ensures Small(budget, digest) == Problem(SETTINGS, PlanFor(budget), digest, [OUTBOUND], [INBOUND], [HOTEL])
  {
    Words();
    ProblemOfThree(PlanFor(budget), OUTBOUND, INBOUND, HOTEL, digest);
  }

  lemma WholeAmounts()
    ensures HalfEven(80.0) == 80 && HalfEven(100.0) == 100
  {
    HalfEvenOfInt(80);
    HalfEvenOfInt(100);
  }

  lemma SoleCosts()
    ensures KnownCosts(SOLE).knownSubtotal == 100
  {
    assert FlightCost(OUTBOUND) == 50.0 && FlightCost(INBOUND) == 30.0 && HotelCost(HOTEL) == 20.0;
    WholeAmounts();
  }

  lemma SoleTriple(budget: real, digest: string -> string)
    requires budget >= 0.0
    ensures var p := Small(budget, digest);
            && TotalBudget(p.plan) == Some(budget)
            && InLists(p, SOLE) && p.MeetsTransport(SOLE)
            && (forall t :: InLists(p, t) ==> t == SOLE)
            && (p.Feasible(SOLE) <==> 100.0 <= budget)
  {
    SoleCosts();
    SmallProblem(budget, digest);
    var p := Small(budget, digest);
    forall t | InLists(p, t)
      ensures t == SOLE
    {
      assert t.outbound == OUTBOUND && t.inbound == INBOUND && t.hotel == HOTEL;
    }
  }

  /** Below a hundred cents the advice reports that subtotal. */
  lemma SmallAdvice(budget: real, digest: string -> string)
    requires 0.0 <= budget < 100.0
    ensures var out := Solve(Small(budget, digest));
            && out.NeedsUserChange? && !out.advice.reason.TransportLimitBlocksAll?
            && out.advice.currentTotal == Some(budget) && out.advice.minimumSubtotal == 100
  {
    var p := Small(budget, digest);
    SoleTriple(budget, digest);
    SelectedIff(p);
    AdviceReports(p);
    SoleCosts();
  }

  lemma SmallSelects(budget: real, digest: string -> string)
    requires budget >= 100.0
    ensures Solve(Small(budget, digest)).Selected?
    ensures Solve(Small(budget, digest)).best.costs.knownSubtotal == 100
  {
    var p := Small(budget, digest);
    SoleTriple(budget, digest);
    SelectedIff(p);
    BestIsFeasible(p);
    SoleCosts();
  }

  /** Half a cent short, the answer is the fallback reason. */
  lemma FallbackReasonIsGiven(digest: string -> string)
    ensures var out := Solve(Small(99.5, digest));
            out.NeedsUserChange? && out.advice.reason.NoFeasibleCombination?
  {
    SmallAdvice(99.5, digest);
    FallbackReasonIff(Small(99.5, digest));
  }

  /** Short by 1.4 cents, the advice is to raise the budget by one cent, with which nothing is feasible still. */
  lemma AdviceFallsShort(digest: string -> string)
    ensures var p := Small(98.6, digest);
            && Solve(p).NeedsUserChange? && Solve(p).advice.increase == Some(1)
            && Solve(p).advice.reason.AllCombinationsOverTotalBudget?
            && Solve(WithTotal(p, 99.6)).NeedsUserChange?
  {
    var p := Small(98.6, digest);
    SmallAdvice(98.6, digest);
    AdviceReports(p);
    FallbackReasonIff(p);
    assert (1.4).Floor == 1;
    SmallAdvice(99.6, digest);
    SmallProblem(98.6, digest);
    SmallProblem(99.6, digest);
    assert WithTotal(p, 99.6) == Small(99.6, digest);
  }

  /** What a selection shares out under a budget. */
  lemma CombinationOf(p: Problem, c: Combination, budget: real)
    requires p.Feasible(c.triple) && c == p.Combine(c.triple)
    requires BudgetLimited(p.plan) && TotalBudget(p.plan) == Some(budget)
    ensures c.allocation.SoftTargetThenBuffer? &&
            c.allocation.foodActivity + c.allocation.buffer == HalfEven(budget - c.costs.knownSubtotal as real)
  {
    CombinationShares(p, c.triple);
  }

  lemma HalfRoundsToNothing()
    ensures HalfEven(0.5) == 0
  {
    assert (0.5).Floor == 0;
  }

  lemma SmallPlan(budget: real, digest: string -> string)
    requires budget >= 0.0
    ensures BudgetLimited(Small(budget, digest).plan) && TotalBudget(Small(budget, digest).plan) == Some(budget)
  {
    SmallProblem(budget, digest);
  }

  /** Half a cent over, a selection leaves it unaccounted for. */
  lemma HalfACentIsLost(digest: string -> string)
    ensures var out := Solve(Small(100.5, digest));
            && out.Selected? && out.best.allocation.SoftTargetThenBuffer?
            && out.best.costs.knownSubtotal + out.best.allocation.foodActivity + out.best.allocation.buffer == 100
  {
    var p := Small(100.5, digest);
    SmallSelects(100.5, digest);
    SmallPlan(100.5, digest);
    BestIsFeasible(p);
    CombinationOf(p, Solve(p).best, 100.5);
    HalfRoundsToNothing();
  }
}
