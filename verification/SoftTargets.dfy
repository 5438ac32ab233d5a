/** The three soft budget targets of app/builders/planning_context_builder.py, rounded one by one. */
module SoftTargets {
  import opened RealFacts
  import opened Rounding
  import opened BudgetRatios

  function Share(total: real, ratio: real): real {
    total * ratio
  }

  /** The three soft targets of a budget, in cents. */
  datatype Targets = Targets(transport: int, hotel: int, food: int) {
    function Sum(): int {
      transport + hotel + food
    }
  }

  function TargetsOf(total: real, r: Split): Targets {
    Targets(HalfEven(Share(total, r.transport)), HalfEven(Share(total, r.hotel)), HalfEven(Share(total, r.food)))
  }

  // --------------------------------------------------------- when they add up

  /** What rounding added to x. */
  function Error(x: real): real {
    HalfEven(x) as real - x
  }

  lemma SharesAddUp(total: real, x: real, y: real, z: real)
    requires x + y + z == 1.0
    ensures Share(total, x) + Share(total, y) + Share(total, z) == total
  {
    assert Share(total, x) + Share(total, y) + Share(total, z) == total * (x + y + z);
  }

  /** Rounded one by one, the targets of a budget in whole cents miss it by at most one cent. */
  lemma TargetsWithinACent(ps: seq<SpendPreference>, cents: int)
    ensures -1 <= TargetsOf(cents as real, AdjustedRatios(ps)).Sum() - cents <= 1
  {
    var r := AdjustedRatios(ps);
    RatiosBounded(ps);
    SharesAddUp(cents as real, r.transport, r.hotel, r.food);
  }

  /**
    For any budget and any preferences the targets add up to the budget exactly
    when it is in whole cents and the errors of the first two roundings do not
    push the third across a half: together they stay below half a cent, or are
    just that while an even number of cents is left for food.
  */
  lemma TargetsAddUpIff(ps: seq<SpendPreference>, total: real)
    ensures var r := AdjustedRatios(ps);
            var x, y := Share(total, r.transport), Share(total, r.hotel);
            var drift := Error(x) + Error(y);
            TargetsOf(total, r).Sum() as real == total <==>
            && IsWhole(total)
            && (-0.5 < drift < 0.5
                || ((drift == 0.5 || drift == -0.5) && (total.Floor - HalfEven(x) - HalfEven(y)) % 2 == 0))
  {
    var r := AdjustedRatios(ps);
    RatiosBounded(ps);
    SharesAddUp(total, r.transport, r.hotel, r.food);
    var x, y := Share(total, r.transport), Share(total, r.hotel);
    var sum := TargetsOf(total, r).Sum();
    if IsWhole(total) {
      ThirdRounding(total.Floor - HalfEven(x) - HalfEven(y), Error(x) + Error(y), Share(total, r.food));
    } else {
      assert (sum as real).Floor == sum;
    }
  }

  lemma ThirdRounding(n: int, drift: real, z: real)
    requires z == n as real + drift
    ensures HalfEven(z) == n <==> -0.5 < drift < 0.5 || ((drift == 0.5 || drift == -0.5) && n % 2 == 0)
  {
    if -0.5 < drift < 0.5 {
      HalfEvenNear(z, n);
    } else if drift == 0.5 {
      assert z.Floor == n;
    } else if drift == -0.5 {
      assert z.Floor == n - 1;
    }
  }

  lemma HalfEvenNear(z: real, n: int)
    requires n as real - 0.5 < z < n as real + 0.5
    ensures HalfEven(z) == n
  {
    assert n - 1 < HalfEven(z) < n + 1;
  }

  // ------------------------------------------------------- the default ratios

  lemma DefaultRatios()
    ensures AdjustedRatios([]) == Split(0.35, 0.35, 0.3)
  {
    assert RawWeights(NetSignals([])) == DEFAULT_RATIOS;
    DefaultsStay(DEFAULT_RATIOS);
  }

  lemma DefaultsStay(raw: Split)
    requires raw == Split(0.35, 0.35, 0.3)
    ensures Normalize(raw) == raw
  {
    NormalizeSums(raw);
    DivideByWhole(raw.transport, raw.Sum());
    DivideByWhole(raw.hotel, raw.Sum());
    SixDigits(raw.transport / raw.Sum(), 350000);
    SixDigits(raw.hotel / raw.Sum(), 350000);
    assert Normalize(raw).transport == 0.35 && Normalize(raw).hotel == 0.35;
  }

  lemma SixDigits(x: real, n: int)
    requires x * 1000000.0 == n as real
    ensures ToGrid(x, GRID) == n as real / 1000000.0
  {
    HalfEvenOfInt(n);
  }

  /** The nearest integer, a half going to the even one. */
  lemma HalfEvenIsNearest(x: real)
    ensures -0.5 <= Error(x) <= 0.5
    ensures Error(x) == 0.5 || Error(x) == -0.5 ==> HalfEven(x) % 2 == 0
  {
  }

  lemma ThirtyFivePercent(cents: int)
    ensures -10 <= 20 * HalfEven(Share(cents as real, 0.35)) - 7 * cents <= 10
  {
  }

  lemma ThirtyPercent(cents: int)
    ensures var f := HalfEven(Share(cents as real, 0.3));
            && -5 <= 10 * f - 3 * cents <= 5
            && (10 * f - 3 * cents in {-5, 5} ==> f % 2 == 0)
  {
    HalfEvenIsNearest(Share(cents as real, 0.3));
  }

  /** Within the first twenty cents: a and f are 35 % and 30 % of m, rounded. */
  lemma MissesBelowTwenty(m: int, a: int, f: int)
    requires 0 <= m < 20
    requires -10 <= 20 * a - 7 * m <= 10
    requires -5 <= 10 * f - 3 * m <= 5
    requires 10 * f - 3 * m == 5 || 10 * f - 3 * m == -5 ==> f % 2 == 0
    ensures 2 * a + f != m <==> m in {1, 2, 4, 5, 7, 10, 13, 15, 16, 18, 19}
  {
    assert 0 <= a <= 7 && 0 <= f <= 6;
  }

  lemma EvenShift(f: int, q: int)
    ensures f % 2 == 0 ==> (f - 6 * q) % 2 == 0
  {
    assert f - 6 * q == f - 2 * (3 * q);
  }

  /** Without any preference, eleven of every twenty budgets in whole cents are missed. */
  lemma DefaultTargetsMissIff(cents: int)
    ensures TargetsOf(cents as real, AdjustedRatios([])).Sum() != cents
       <==> cents % 20 in {1, 2, 4, 5, 7, 10, 13, 15, 16, 18, 19}
  {
    DefaultRatios();
    ThirtyFivePercent(cents);
    ThirtyPercent(cents);
    var a, f := HalfEven(Share(cents as real, 0.35)), HalfEven(Share(cents as real, 0.3));
    var q, m := cents / 20, cents % 20;
    EvenShift(f, q);
    MissesBelowTwenty(m, a - 7 * q, f - 6 * q);
  }

  /** Each target is its own ratio of the budget, to within half a cent. */
  lemma TargetsAreTheShares(total: real, r: Split)
    ensures var t := TargetsOf(total, r);
            && -0.5 <= t.transport as real - total * r.transport <= 0.5
            && -0.5 <= t.hotel as real - total * r.hotel <= 0.5
            && -0.5 <= t.food as real - total * r.food <= 0.5
  {
  }
}
