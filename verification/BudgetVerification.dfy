/**
  The verifier's checks on the optimizer's selection, app/verifiers/proposal_verifier.py:
  every issue that sends a run back to the optimizer. The proposal copies ids, prices
  and budget from the selection, so they are functions of candidates and selection.
  */
module BudgetVerification {
  import opened Prelude
  import opened Collections
  import opened Rounding
  import opened Text
  import opened BudgetOptimizer
  import opened BudgetTheorems

  datatype Slot = OutboundSlot | ReturnSlot | HotelSlot

  datatype Issue =
    | NotInRankedPool(slot: Slot)
    | CombinationMismatch(slot: Slot)
    | TransportArithmetic
    | SubtotalArithmetic
    | FactMismatch(slot: Slot)
    | LimitedFieldsMissing
    | TotalViolation
    | RemainingMismatch
    | AllocationMismatch

  // ------------------------------------------------------------------ the lineage

  function Ids(candidates: seq<Candidate>, direction: string): set<string> {
    set c | c in candidates && c.direction == direction && c.id != "" :: c.id
  }

  lemma IdsAre(candidates: seq<Candidate>, direction: string, id: string)
    ensures id !in Ids(candidates, direction)
            <==> forall c | c in candidates :: c.direction != direction || c.id == "" || c.id != id
  {
  }

  /** The proposal strips the ids it copies; pool and combination keep them as they are. */
  method CheckSelectionLineage(flights: seq<Candidate>, hotels: seq<Candidate>, t: Triple) returns (issues: set<Issue>)
    ensures forall x | x in issues :: x.NotInRankedPool? || x.CombinationMismatch?
    ensures NotInRankedPool(OutboundSlot) in issues <==>
              forall f | f in flights :: f.direction != "outbound" || f.id == "" || f.id != Strip(t.outbound.id)
    ensures NotInRankedPool(ReturnSlot) in issues <==>
              forall f | f in flights :: f.direction != "return" || f.id == "" || f.id != Strip(t.inbound.id)
    ensures NotInRankedPool(HotelSlot) in issues <==> forall h | h in hotels :: h.id == "" || h.id != Strip(t.hotel.id)
    ensures CombinationMismatch(OutboundSlot) in issues <==> t.outbound.id != Strip(t.outbound.id)
    ensures CombinationMismatch(ReturnSlot) in issues <==> t.inbound.id != Strip(t.inbound.id)
    ensures CombinationMismatch(HotelSlot) in issues <==> t.hotel.id != Strip(t.hotel.id)
  {
    issues := {};
    IdsAre(flights, "outbound", Strip(t.outbound.id));
    IdsAre(flights, "return", Strip(t.inbound.id));
    if Strip(t.outbound.id) !in Ids(flights, "outbound") {
      issues := issues + {NotInRankedPool(OutboundSlot)};
    }
    if Strip(t.inbound.id) !in Ids(flights, "return") {
      issues := issues + {NotInRankedPool(ReturnSlot)};
    }
    var hotelIds := set h | h in hotels && h.id != "" :: h.id;
    if Strip(t.hotel.id) !in hotelIds {
      issues := issues + {NotInRankedPool(HotelSlot)};
    }
    if t.outbound.id != Strip(t.outbound.id) {
      issues := issues + {CombinationMismatch(OutboundSlot)};
    }
    if t.inbound.id != Strip(t.inbound.id) {
      issues := issues + {CombinationMismatch(ReturnSlot)};
    }
    if t.hotel.id != Strip(t.hotel.id) {
      issues := issues + {CombinationMismatch(HotelSlot)};
    }
  }

  predicate LineageHolds(flights: seq<Candidate>, hotels: seq<Candidate>, t: Triple) {
    && Strip(t.outbound.id) in Ids(flights, "outbound") && Strip(t.inbound.id) in Ids(flights, "return")
    && (exists h :: h in hotels && h.id == Strip(t.hotel.id) && h.id != "")
    && Unpadded(t)
  }

  /** No id has white space around it. */
  predicate Unpadded(t: Triple) {
    Strip(t.outbound.id) == t.outbound.id && Strip(t.inbound.id) == t.inbound.id && Strip(t.hotel.id) == t.hotel.id
  }

  // ------------------------------------------------------------------- the amounts

  predicate Close(x: real, y: real, tolerance: real) {
    -tolerance <= x - y <= tolerance
  }

  /** The amounts add up, agree with the prices, and stay within the budget. */
  predicate AmountsHold(plan: Plan, c: Combination, tolerance: real) {
    var k := c.costs;
    && Close(k.transportTotal as real, (k.outbound + k.inbound) as real, tolerance)
    && Close(k.knownSubtotal as real, (k.outbound + k.inbound + k.hotel) as real, tolerance)
    && Close(k.outbound as real, FlightCost(c.triple.outbound), tolerance)
    && Close(k.inbound as real, FlightCost(c.triple.inbound), tolerance)
    && Close(k.hotel as real, HotelCost(c.triple.hotel), tolerance)
    && (!plan.noBudgetLimit ==>
          && TotalBudget(plan).Some? && c.remaining.Some?
          && k.knownSubtotal as real - TotalBudget(plan).value <= tolerance
          && Close(c.remaining.value as real, TotalBudget(plan).value - k.knownSubtotal as real, tolerance)
          && (c.allocation.SoftTargetThenBuffer? ==>
                Close((c.allocation.foodActivity + c.allocation.buffer) as real, c.remaining.value as real, tolerance)))
  }

  method CheckKnownCosts(c: Combination, tolerance: real) returns (issues: set<Issue>)
    ensures forall x | x in issues :: x.TransportArithmetic? || x.SubtotalArithmetic? || x.FactMismatch?
    ensures TransportArithmetic in issues <==>
              !Close(c.costs.transportTotal as real, (c.costs.outbound + c.costs.inbound) as real, tolerance)
    ensures SubtotalArithmetic in issues <==>
              !Close(c.costs.knownSubtotal as real,
                     (c.costs.outbound + c.costs.inbound + c.costs.hotel) as real, tolerance)
    ensures FactMismatch(OutboundSlot) in issues <==>
              !Close(c.costs.outbound as real, FlightCost(c.triple.outbound), tolerance)
    ensures FactMismatch(ReturnSlot) in issues <==>
              !Close(c.costs.inbound as real, FlightCost(c.triple.inbound), tolerance)
    ensures FactMismatch(HotelSlot) in issues <==>
              !Close(c.costs.hotel as real, HotelCost(c.triple.hotel), tolerance)
  {
    var k := c.costs;
    issues := {};
    if !Close(k.transportTotal as real, (k.outbound + k.inbound) as real, tolerance) {
      issues := issues + {TransportArithmetic};
    }
    if !Close(k.knownSubtotal as real, (k.outbound + k.inbound + k.hotel) as real, tolerance) {
      issues := issues + {SubtotalArithmetic};
    }
    if !Close(k.outbound as real, FlightCost(c.triple.outbound), tolerance) {
      issues := issues + {FactMismatch(OutboundSlot)};
    }
    if !Close(k.inbound as real, FlightCost(c.triple.inbound), tolerance) {
      issues := issues + {FactMismatch(ReturnSlot)};
    }
    if !Close(k.hotel as real, HotelCost(c.triple.hotel), tolerance) {
      issues := issues + {FactMismatch(HotelSlot)};
    }
  }

  method CheckLimitedBudget(plan: Plan, c: Combination, tolerance: real) returns (issues: set<Issue>)
    ensures forall x | x in issues :: x in {LimitedFieldsMissing, TotalViolation, RemainingMismatch, AllocationMismatch}
    ensures LimitedFieldsMissing in issues <==> !plan.noBudgetLimit && (TotalBudget(plan).None? || c.remaining.None?)
    ensures plan.noBudgetLimit ==> issues == {}
    ensures LimitedFieldsMissing in issues ==> issues == {LimitedFieldsMissing}
    ensures !plan.noBudgetLimit && LimitedFieldsMissing !in issues ==>
              && (TotalViolation in issues <==> c.costs.knownSubtotal as real - TotalBudget(plan).value > tolerance)
              && (RemainingMismatch in issues <==>
                    !Close(c.remaining.value as real, TotalBudget(plan).value - c.costs.knownSubtotal as real,
                           tolerance))
              && (AllocationMismatch in issues <==>
                    c.allocation.SoftTargetThenBuffer?
                    && !Close((c.allocation.foodActivity + c.allocation.buffer) as real, c.remaining.value as real,
                              tolerance))
  {
    var total := TotalBudget(plan);
    issues := {};
    if plan.noBudgetLimit {
      return;
    }
    if total.None? || c.remaining.None? {
      return {LimitedFieldsMissing};
    }
    if c.costs.knownSubtotal as real - total.value > tolerance {
      issues := issues + {TotalViolation};
    }
    if !Close(c.remaining.value as real, total.value - c.costs.knownSubtotal as real, tolerance) {
      issues := issues + {RemainingMismatch};
    }
    if c.allocation.SoftTargetThenBuffer? {
      var shared := c.allocation.foodActivity + c.allocation.buffer;
      if !Close(shared as real, c.remaining.value as real, tolerance) {
        issues := issues + {AllocationMismatch};
      }
    }
  }

  method CheckBudgetConsistency(plan: Plan, c: Combination, tolerance: real) returns (issues: set<Issue>)
    ensures issues == {} <==> AmountsHold(plan, c, tolerance)
  {
    var known := CheckKnownCosts(c, tolerance);
    var limited := CheckLimitedBudget(plan, c, tolerance);
    issues := known + limited;
    IssueFree(known, limited);
  }

  lemma IssueFree(known: set<Issue>, limited: set<Issue>)
    requires forall x | x in known :: x.TransportArithmetic? || x.SubtotalArithmetic? || x.FactMismatch?
    requires forall x | x in limited ::
               x in {LimitedFieldsMissing, TotalViolation, RemainingMismatch, AllocationMismatch}
    ensures known + limited == {} <==>
              && TransportArithmetic !in known && SubtotalArithmetic !in known
              && FactMismatch(OutboundSlot) !in known && FactMismatch(ReturnSlot) !in known
              && FactMismatch(HotelSlot) !in known
              && LimitedFieldsMissing !in limited && TotalViolation !in limited
              && RemainingMismatch !in limited && AllocationMismatch !in limited
  {
    forall x | x in known && x.FactMismatch?
      ensures x in {FactMismatch(OutboundSlot), FactMismatch(ReturnSlot), FactMismatch(HotelSlot)}
    {
      match x.slot {
        case OutboundSlot =>
        case ReturnSlot =>
        case HotelSlot =>
      }
    }
  }

  /** No issue of the selection sends the run back to the optimizer. */
  predicate Sound(plan: Plan, flights: seq<Candidate>, hotels: seq<Candidate>, c: Combination, tolerance: real) {
    LineageHolds(flights, hotels, c.triple) && AmountsHold(plan, c, tolerance)
  }

  // ----------------------------------------------------------- what the ranking leaves

  predicate WholeAmount(f: Field) {
    f.Amount? && f.cents >= 0.0 && IsWhole(f.cents)
  }

  /** A ranked flight carries its direction and a price rounded to cents. */
  predicate RankedFlight(c: Candidate) {
    c.direction in ["outbound", "return"] && WholeAmount(c.totalPrice) && Strip(c.id) != ""
  }

  predicate RankedHotel(c: Candidate) {
    WholeAmount(c.estimatedTotalPrice) && Strip(c.id) != ""
  }

  predicate AllRanked(flights: seq<Candidate>, hotels: seq<Candidate>) {
    (forall c | c in flights :: RankedFlight(c)) && (forall c | c in hotels :: RankedHotel(c))
  }

  lemma DirectionWords()
    ensures Strip("outbound") == "outbound" && Strip("return") == "return"
  {
  }

  lemma DrawnFrom(flights: seq<Candidate>, direction: string, limit: int, c: Candidate)
    requires limit >= 0 && c in LimitRanked(Filter(flights, (x: Candidate) => Direction(x) == direction), limit)
    ensures c in flights && Direction(c) == direction
  {
    var group := Filter(flights, (x: Candidate) => Direction(x) == direction);
    LimitedListShape(group, limit);
    FilterMember(flights, (x: Candidate) => Direction(x) == direction, c);
  }

  /** The selected candidates are among the ranked ones, the flights in their own direction. */
  lemma SelectedAreRanked(cfg: ValidConfig, plan: Plan, flights: seq<Candidate>, hotels: seq<Candidate>,
                          digest: string -> string, t: Triple)
    requires AllRanked(flights, hotels) && InLists(ProblemOf(cfg, plan, flights, hotels, digest), t)
    ensures t.outbound in flights && t.inbound in flights && t.hotel in hotels
    ensures t.outbound.direction == "outbound" && t.inbound.direction == "return"
  {
    DrawnFrom(flights, "outbound", cfg.maxOutbound, t.outbound);
    DrawnFrom(flights, "return", cfg.maxReturn, t.inbound);
    LimitedListShape(hotels, cfg.maxHotel);
    DirectionWords();
  }

  // -------------------------------------------------------------- when a selection holds

  lemma LineageHoldsIff(flights: seq<Candidate>, hotels: seq<Candidate>, t: Triple)
    requires t.outbound in flights && t.inbound in flights && t.hotel in hotels && AllRanked(flights, hotels)
    requires t.outbound.direction == "outbound" && t.inbound.direction == "return"
    ensures LineageHolds(flights, hotels, t) <==> Unpadded(t)
  {
    if Unpadded(t) {
      assert t.outbound.id in Ids(flights, "outbound") && t.inbound.id in Ids(flights, "return");
    }
  }

  lemma WholeIsInt(x: real)
    requires IsWhole(x)
    ensures HalfEven(x) as real == x
  {
    HalfEvenExactIffWhole(x);
  }

  lemma WholeSum(x: real, y: real)
    requires IsWhole(x) && IsWhole(y)
    ensures HalfEven(x + y) == HalfEven(x) + HalfEven(y)
  {
    WholeIsInt(x);
    WholeIsInt(y);
    HalfEvenOfInt(HalfEven(x) + HalfEven(y));
    assert x + y == (HalfEven(x) + HalfEven(y)) as real;
  }

  /** On whole cents no rounding of the costs loses anything. */
  lemma CostsAreExact(t: Triple)
    requires WholeAmount(t.outbound.totalPrice) && WholeAmount(t.inbound.totalPrice)
    requires WholeAmount(t.hotel.estimatedTotalPrice)
    ensures var k := KnownCosts(t);
            && k.transportTotal == k.outbound + k.inbound && k.knownSubtotal == k.outbound + k.inbound + k.hotel
            && k.outbound as real == FlightCost(t.outbound) && k.inbound as real == FlightCost(t.inbound)
            && k.hotel as real == HotelCost(t.hotel)
  {
    var o, r, h := FlightCost(t.outbound), FlightCost(t.inbound), HotelCost(t.hotel);
    WholeIsInt(o);
    WholeIsInt(r);
    WholeIsInt(h);
    WholeSum(o, r);
    var transport := HalfEven(o) + HalfEven(r);
    HalfEvenOfInt(transport);
    assert IsWhole(transport as real);
    WholeSum(transport as real, h);
  }

  /** How far an amount is from whole cents. */
  function OffWhole(x: real): real {
    if HalfEven(x) as real >= x then HalfEven(x) as real - x else x - HalfEven(x) as real
  }

  lemma OffWholeShifts(x: real, k: int)
    ensures OffWhole(x - k as real) == OffWhole(x)
  {
    var y := x - k as real;
    assert y.Floor == x.Floor - k;
  }

  lemma AmountsHoldIff(p: Problem, t: Triple, tolerance: real)
    requires p.Feasible(t) && tolerance >= 0.0
    requires WholeAmount(t.outbound.totalPrice) && WholeAmount(t.inbound.totalPrice)
    requires WholeAmount(t.hotel.estimatedTotalPrice)
    ensures AmountsHold(p.plan, p.Combine(t), tolerance) <==>
              p.plan.noBudgetLimit || (TotalBudget(p.plan).Some? && OffWhole(TotalBudget(p.plan).value) <= tolerance)
  {
    CostsAreExact(t);
    if BudgetLimited(p.plan) {
      CombinationShares(p, t);
      OffWholeShifts(TotalBudget(p.plan).value, KnownCosts(t).knownSubtotal);
    }
  }

  /**
    For candidates as the ranking leaves them, a selection passes every check that could
    send it back to the optimizer exactly when no selected id has white space around it
    and, under a budget limit, the budget is no further from whole cents than the
    tolerance. Both can be seen before the optimizer is called.
  */
  lemma SelectionSoundIff(cfg: ValidConfig, plan: Plan, flights: seq<Candidate>, hotels: seq<Candidate>,
                          digest: string -> string, tolerance: real)
    requires AllRanked(flights, hotels) && tolerance >= 0.0
    requires Solve(ProblemOf(cfg, plan, flights, hotels, digest)).Selected?
    ensures var best := Solve(ProblemOf(cfg, plan, flights, hotels, digest)).best;
            Sound(plan, flights, hotels, best, tolerance) <==>
              && Unpadded(best.triple)
              && (plan.noBudgetLimit || (TotalBudget(plan).Some? && OffWhole(TotalBudget(plan).value) <= tolerance))
  {
    var p := ProblemOf(cfg, plan, flights, hotels, digest);
    BestIsFeasible(p);
    var t := Solve(p).best.triple;
    SelectedAreRanked(cfg, plan, flights, hotels, digest, t);
    LineageHoldsIff(flights, hotels, t);
    AmountsHoldIff(p, t, tolerance);
  }

  /** With at least half a cent of tolerance, as by default, only the ids can be at fault. */
  lemma DefaultToleranceSuffices(cfg: ValidConfig, plan: Plan, flights: seq<Candidate>, hotels: seq<Candidate>,
                                 digest: string -> string, tolerance: real)
    requires AllRanked(flights, hotels) && tolerance >= 0.5 && (plan.noBudgetLimit || TotalBudget(plan).Some?)
    requires Solve(ProblemOf(cfg, plan, flights, hotels, digest)).Selected?
    ensures var best := Solve(ProblemOf(cfg, plan, flights, hotels, digest)).best;
            Sound(plan, flights, hotels, best, tolerance) <==> Unpadded(best.triple)
  {
    SelectionSoundIff(cfg, plan, flights, hotels, digest, tolerance);
  }
}
