/**
  Python's `round`, on exact reals: to the nearest multiple of a grid, ties to
  the even neighbour.  Money is measured in cents everywhere in this project, so
  `round(x, 2)` is `HalfEven(x)`; scores and ratios use `ToGrid` with the grid
  10^digits.
  */
module Rounding {
  import opened RealFacts

  function HalfEven(x: real): (r: int)
    ensures x - 0.5 <= r as real <= x + 0.5
  {
    var f := x.Floor;
    var d := x - f as real;
    if d < 0.5 then f
    else if d > 0.5 then f + 1
    else if f % 2 == 0 then f
    else f + 1
  }

  lemma HalfEvenMonotone(x: real, y: real)
    requires x <= y
    ensures HalfEven(x) <= HalfEven(y)
  {
    if x.Floor < y.Floor {
      assert HalfEven(x) <= x.Floor + 1 <= y.Floor <= HalfEven(y);
    }
  }

  lemma HalfEvenOfInt(n: int)
    ensures HalfEven(n as real) == n
  {
    assert (n as real).Floor == n;
  }

  predicate IsWhole(x: real) {
    x == x.Floor as real
  }

  /** Rounding is exact only on whole numbers. */
  lemma HalfEvenExactIffWhole(x: real)
    ensures HalfEven(x) as real == x <==> IsWhole(x)
  {
    if HalfEven(x) as real == x {
      assert (HalfEven(x) as real).Floor == HalfEven(x);
    }
  }

  /** `round(x, digits)` with grid = 10^digits. */
  function ToGrid(x: real, grid: int): real
    requires grid > 0
  {
    OnGrid(HalfEven(Scaled(x, grid)), grid)
  }

  function Scaled(x: real, grid: int): real {
    x * grid as real
  }

  function OnGrid(n: int, grid: int): real
    requires grid > 0
  {
    n as real / grid as real
  }

  lemma ToGridMonotone(x: real, y: real, grid: int)
    requires grid > 0 && x <= y
    ensures ToGrid(x, grid) <= ToGrid(y, grid)
  {
    ScaleMonotone(x, y, grid as real);
    HalfEvenMonotone(Scaled(x, grid), Scaled(y, grid));
    DivideMonotone(HalfEven(Scaled(x, grid)) as real, HalfEven(Scaled(y, grid)) as real, grid as real);
  }
}
