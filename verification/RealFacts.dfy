/** Products and quotients of reals, one small fact each. */
module RealFacts {

  lemma ScaleMonotone(x: real, y: real, g: real)
    requires x <= y && g >= 0.0
    ensures x * g <= y * g
  {
    assert (y - x) * g >= 0.0;
  }

  lemma ScaleStrict(x: real, y: real, g: real)
    requires x < y && g > 0.0
    ensures x * g < y * g
  {
    assert (y - x) * g > 0.0;
  }

  lemma DivideMonotone(x: real, y: real, g: real)
    requires x <= y && g > 0.0
    ensures x / g <= y / g
  {
    var p, q := x / g, y / g;
    assert p * g == x && q * g == y;
    if p > q {
      ScaleStrict(q, p, g);
    }
  }

  lemma DivideAdds(x: real, y: real, s: real)
    requires s > 0.0
    ensures (x + y) / s == x / s + y / s
  {
  }

  lemma DivideSelf(s: real)
    requires s > 0.0
    ensures s / s == 1.0
  {
  }

  lemma DivideByWhole(x: real, s: real)
    requires s == 1.0
    ensures x / s == x
  {
  }

  lemma ThreeShares(x: real, y: real, z: real, s: real)
    requires x >= 0.0 && y >= 0.0 && z >= 0.0 && s == x + y + z && s > 0.0
    ensures x / s >= 0.0 && y / s >= 0.0 && z / s >= 0.0
    ensures x / s + y / s + z / s == 1.0
  {
    DivideMonotone(0.0, x, s);
    DivideMonotone(0.0, y, s);
    DivideMonotone(0.0, z, s);
    DivideAdds(x, y, s);
    DivideAdds(x + y, z, s);
    DivideSelf(s);
  }

  lemma ShareBounds(part: real, total: real, lo: real, hi: real)
    requires total > 0.0 && lo * total <= part <= hi * total
    ensures lo <= part / total <= hi
  {
    var q := part / total;
    assert q * total == part;
    if q < lo {
      ScaleStrict(q, lo, total);
    }
    if q > hi {
      ScaleStrict(hi, q, total);
    }
  }

  /** The same part of a larger whole is a smaller share. */
  lemma SmallerShare(x: real, s: real, t: real)
    requires x >= 0.0 && 0.0 < s <= t
    ensures x / t <= x / s
  {
    var p, q := x / t, x / s;
    assert p * t == x && q * s == x;
    DivideMonotone(0.0, x, s);
    ScaleMonotone(s, t, q);
    if p > q {
      ScaleStrict(q, p, t);
    }
  }

  /** A part that grows with its whole, the rest staying the same, is a larger share. */
  lemma GrowingShare(x: real, y: real, rest: real)
    requires 0.0 < x <= y && rest > 0.0
    ensures x / (x + rest) <= y / (y + rest)
  {
    SmallerShare(rest, x + rest, y + rest);
    DivideAdds(x, rest, x + rest);
    DivideSelf(x + rest);
    DivideAdds(y, rest, y + rest);
    DivideSelf(y + rest);
  }
}
