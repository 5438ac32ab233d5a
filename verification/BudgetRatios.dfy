/** The spending ratios of app/builders/planning_context_builder.py. */
module BudgetRatios {
  import opened Prelude
  import opened RealFacts
  import opened Rounding
  import BudgetOptimizer

  const MAX_ADJUSTMENT := 0.35
  const GRID := 1000000

  datatype SpendPreference = SpendPreference(category: string, direction: string, strength: Option<real>)

  /** One number per category: net signals, raw weights or ratios. */
  datatype Split = Split(transport: real, hotel: real, food: real) {
    function Sum(): real {
      transport + hotel + food
    }
  }

  const DEFAULT_RATIOS := Split(0.35, 0.35, 0.30)

  function Clamp(x: real, lo: real, hi: real): (r: real)
    requires lo <= hi
    ensures lo <= r <= hi
    ensures lo <= x <= hi ==> r == x
  {
    var capped := if x < hi then x else hi;
    if capped > lo then capped else lo
  }

  function Strength(p: SpendPreference): (r: real)
    ensures 0.0 <= r <= 1.0
  {
    Clamp(match p.strength case Some(s) => s case None => 0.0, 0.0, 1.0)
  }

  predicate Counts(p: SpendPreference) {
    p.category in ["transport", "hotel", "food_activity"] && p.direction in ["increase", "decrease"]
  }

  function Signed(p: SpendPreference): real {
    if p.direction == "increase" then Strength(p) else -Strength(p)
  }

  function Nudge(s: Split, p: SpendPreference): Split {
    if !Counts(p) then s
    else if p.category == "transport" then s.(transport := Clamp(s.transport + Signed(p), -1.0, 1.0))
    else if p.category == "hotel" then s.(hotel := Clamp(s.hotel + Signed(p), -1.0, 1.0))
    else s.(food := Clamp(s.food + Signed(p), -1.0, 1.0))
  }

  function NetSignals(ps: seq<SpendPreference>): (s: Split)
    ensures -1.0 <= s.transport <= 1.0 && -1.0 <= s.hotel <= 1.0 && -1.0 <= s.food <= 1.0
  {
    if ps == [] then Split(0.0, 0.0, 0.0)
    else Nudge(NetSignals(ps[..|ps| - 1]), ps[|ps| - 1])
  }

  function RawWeights(s: Split): Split {
    Split(DEFAULT_RATIOS.transport * (1.0 + MAX_ADJUSTMENT * s.transport),
          DEFAULT_RATIOS.hotel * (1.0 + MAX_ADJUSTMENT * s.hotel),
          DEFAULT_RATIOS.food * (1.0 + MAX_ADJUSTMENT * s.food))
  }

  /** Shares of one, rounded to six digits, the remainder going to food and activities. */
  function Normalize(raw: Split): Split {
    var total := if raw.Sum() == 0.0 then 1.0 else raw.Sum();
    var rounded := Split(ToGrid(raw.transport / total, GRID), ToGrid(raw.hotel / total, GRID),
                         ToGrid(raw.food / total, GRID));
    var difference := ToGrid(1.0 - rounded.Sum(), GRID);
    rounded.(food := ToGrid(rounded.food + difference, GRID))
  }

  function AdjustedRatios(ps: seq<SpendPreference>): Split {
    Normalize(RawWeights(NetSignals(ps)))
  }

  method AdjustBudgetRatios(spendPreferences: seq<SpendPreference>) returns (ratios: Split)
    ensures ratios == AdjustedRatios(spendPreferences)
  {
    var net := Split(0.0, 0.0, 0.0);
    for i := 0 to |spendPreferences|
      invariant net == NetSignals(spendPreferences[..i])
    {
      assert spendPreferences[..i + 1][..i] == spendPreferences[..i];
      var item := spendPreferences[i];
      if !Counts(item) {
        continue;
      }
      var signed := if item.direction == "increase" then Strength(item) else -Strength(item);
      if item.category == "transport" {
        net := net.(transport := Clamp(net.transport + signed, -1.0, 1.0));
      } else if item.category == "hotel" {
        net := net.(hotel := Clamp(net.hotel + signed, -1.0, 1.0));
      } else {
        net := net.(food := Clamp(net.food + signed, -1.0, 1.0));
      }
    }
    assert spendPreferences[..|spendPreferences|] == spendPreferences;
    ratios := Normalize(RawWeights(net));
  }

  // ------------------------------------------------------------ exactly one whole

  /** A value on the six-digit grid is its own rounding. */
  lemma OnGridFixed(n: int)
    ensures ToGrid(n as real / 1000000.0, GRID) == n as real / 1000000.0
  {
    HalfEvenOfInt(n);
    assert Scaled(n as real / 1000000.0, GRID) == n as real;
  }

  lemma ToGridIsOnGrid(x: real)
    ensures ToGrid(x, GRID) == HalfEven(Scaled(x, GRID)) as real / 1000000.0
    ensures x - 0.0000005 <= ToGrid(x, GRID) <= x + 0.0000005
  {
    var n := HalfEven(Scaled(x, GRID));
    assert Scaled(x, GRID) == x * 1000000.0;
  }

  /** Whatever the weights, the three rounded ratios add up to exactly one. */
  lemma NormalizeSums(raw: Split)
    ensures Normalize(raw).Sum() == 1.0
    ensures var total := if raw.Sum() == 0.0 then 1.0 else raw.Sum();
            && Normalize(raw).transport == ToGrid(raw.transport / total, GRID)
            && Normalize(raw).hotel == ToGrid(raw.hotel / total, GRID)
  {
    var total := if raw.Sum() == 0.0 then 1.0 else raw.Sum();
    var x, y, z := raw.transport / total, raw.hotel / total, raw.food / total;
    ToGridIsOnGrid(x);
    ToGridIsOnGrid(y);
    ToGridIsOnGrid(z);
    var a, b, c := HalfEven(Scaled(x, GRID)), HalfEven(Scaled(y, GRID)), HalfEven(Scaled(z, GRID));
    OnGridFixed(1000000 - a - b - c);
    OnGridFixed(1000000 - a - b);
    var d := 1.0 - (ToGrid(x, GRID) + ToGrid(y, GRID) + ToGrid(z, GRID));
    assert d == (1000000 - a - b - c) as real / 1000000.0;
    assert ToGrid(z, GRID) + d == (1000000 - a - b) as real / 1000000.0;
  }

  // ------------------------------------------------------------------- the bounds

  /** The raw weights stay within 35 % of the defaults. */
  predicate InBand(raw: Split) {
    && 0.2275 <= raw.transport <= 0.4725
    && 0.2275 <= raw.hotel <= 0.4725
    && 0.195 <= raw.food <= 0.405
  }

  lemma RawInBand(ps: seq<SpendPreference>)
    ensures InBand(RawWeights(NetSignals(ps)))
  {
  }

  lemma ShareOfBand(raw: Split)
    requires InBand(raw)
    ensures 0.20585 <= raw.transport / raw.Sum() <= 0.52795
    ensures 0.20585 <= raw.hotel / raw.Sum() <= 0.52795
    ensures 0.52906 <= raw.transport / raw.Sum() + raw.hotel / raw.Sum() <= 0.82895
  {
    var total := raw.Sum();
    ShareBounds(raw.transport, total, 0.20585, 0.52795);
    ShareBounds(raw.hotel, total, 0.20585, 0.52795);
    ShareBounds(raw.transport + raw.hotel, total, 0.52906, 0.82895);
    DivideAdds(raw.transport, raw.hotel, total);
  }

  lemma NormalizedBand(raw: Split)
    requires InBand(raw)
    ensures var r := Normalize(raw);
            && r.Sum() == 1.0
            && 0.2058 <= r.transport <= 0.528 && 0.2058 <= r.hotel <= 0.528
            && 0.171 <= r.food <= 0.471
  {
    ShareOfBand(raw);
    NormalizeSums(raw);
    ToGridIsOnGrid(raw.transport / raw.Sum());
    ToGridIsOnGrid(raw.hotel / raw.Sum());
  }

  /** However strong and however many the preferences, the ratios share out one whole and keep to their bands. */
  lemma RatiosBounded(ps: seq<SpendPreference>)
    ensures var r := AdjustedRatios(ps);
            && r.Sum() == 1.0
            && 0.2058 <= r.transport <= 0.528 && 0.2058 <= r.hotel <= 0.528
            && 0.171 <= r.food <= 0.471
  {
    RawInBand(ps);
    NormalizedBand(RawWeights(NetSignals(ps)));
  }

  // ------------------------------------------------------- use in the optimizer

  lemma WholeIsItsWeights(plan: BudgetOptimizer.Plan, r: Split)
    requires BudgetOptimizer.IncludesFood(plan)
    requires r.transport >= 0.0 && r.hotel >= 0.0 && r.food >= 0.0 && r.Sum() == 1.0
    requires plan.ratioTransport == Some(r.transport) && plan.ratioHotel == Some(r.hotel)
             && plan.ratioFood == Some(r.food)
    ensures BudgetOptimizer.CombinationWeights(plan) == BudgetOptimizer.Weights(r.transport, r.hotel, Some(r.food))
  {
    DivideByWhole(r.transport, r.transport + r.hotel + r.food);
    DivideByWhole(r.hotel, r.transport + r.hotel + r.food);
    DivideByWhole(r.food, r.transport + r.hotel + r.food);
  }

  /** In a budget-limited run the optimizer weighs with exactly these ratios. */
  lemma RatiosAreTheWeights(ps: seq<SpendPreference>, plan: BudgetOptimizer.Plan)
    requires BudgetOptimizer.IncludesFood(plan)
    requires var r := AdjustedRatios(ps);
             && plan.ratioTransport == Some(r.transport) && plan.ratioHotel == Some(r.hotel)
             && plan.ratioFood == Some(r.food)
    ensures var r := AdjustedRatios(ps);
            BudgetOptimizer.CombinationWeights(plan) == BudgetOptimizer.Weights(r.transport, r.hotel, Some(r.food))
  {
    RatiosBounded(ps);
    WholeIsItsWeights(plan, AdjustedRatios(ps));
  }
}
