/**
  What the spending preferences of app/builders/planning_context_builder.py do
  to the ratios: the direction in which a wish moves them, and when the order of
  the wishes matters.
*/
module BudgetWishes {
  import opened Prelude
  import opened RealFacts
  import opened Rounding
  import opened BudgetRatios

  const TRANSPORT := "transport"
  const HOTEL := "hotel"
  const FOOD := "food_activity"

  predicate IsCategory(category: string) {
    category in [TRANSPORT, HOTEL, FOOD]
  }

  /** The entry of a category. */
  function Of(s: Split, category: string): real
    requires IsCategory(category)
  {
    if category == TRANSPORT then s.transport else if category == HOTEL then s.hotel else s.food
  }

  /** What one more wish does to the signals. */
  lemma OneMoreWish(ps: seq<SpendPreference>, p: SpendPreference)
    ensures NetSignals(ps + [p]) == Nudge(NetSignals(ps), p)
  {
    assert (ps + [p])[..|ps|] == ps;
  }

  // ------------------------------------------------------------- effect of a wish

  /** From x to y is not against the direction of the wish. */
  predicate Along(p: SpendPreference, x: real, y: real) {
    if p.direction == "increase" then x <= y else y <= x
  }

  /** Only the weight of the category differs, and it has not shrunk. */
  predicate Grew(before: Split, after: Split, category: string)
    requires IsCategory(category)
  {
    && Of(before, category) <= Of(after, category)
    && forall c | c in [TRANSPORT, HOTEL, FOOD] && c != category :: Of(before, c) == Of(after, c)
  }

  lemma LargerShare(part: real, grown: real, whole: real, grownWhole: real)
    requires 0.0 < part <= grown && part < whole && grownWhole - whole == grown - part
    ensures ToGrid(part / whole, GRID) <= ToGrid(grown / grownWhole, GRID)
  {
    GrowingShare(part, grown, whole - part);
    ToGridMonotone(part / whole, grown / grownWhole, GRID);
  }

  lemma LesserShare(part: real, whole: real, grownWhole: real)
    requires 0.0 < part && 0.0 < whole <= grownWhole
    ensures ToGrid(part / grownWhole, GRID) <= ToGrid(part / whole, GRID)
  {
    SmallerShare(part, whole, grownWhole);
    ToGridMonotone(part / grownWhole, part / whole, GRID);
  }

  /** A larger weight has no smaller ratio, and the other two rounded ratios do not grow. */
  lemma GrownWeight(before: Split, after: Split, category: string)
    requires IsCategory(category) && InBand(before) && InBand(after) && Grew(before, after, category)
    ensures Of(Normalize(before), category) <= Of(Normalize(after), category)
    ensures category != TRANSPORT ==> Normalize(after).transport <= Normalize(before).transport
    ensures category != HOTEL ==> Normalize(after).hotel <= Normalize(before).hotel
  {
    NormalizeSums(before);
    NormalizeSums(after);
    assert Of(before, TRANSPORT) == before.transport && Of(after, TRANSPORT) == after.transport;
    assert Of(before, HOTEL) == before.hotel && Of(after, HOTEL) == after.hotel;
    assert Of(before, FOOD) == before.food && Of(after, FOOD) == after.food;
    if category == TRANSPORT {
      LargerShare(before.transport, after.transport, before.Sum(), after.Sum());
      LesserShare(before.hotel, before.Sum(), after.Sum());
    } else if category == HOTEL {
      LargerShare(before.hotel, after.hotel, before.Sum(), after.Sum());
      LesserShare(before.transport, before.Sum(), after.Sum());
    } else {
      LesserShare(before.transport, before.Sum(), after.Sum());
      LesserShare(before.hotel, before.Sum(), after.Sum());
    }
  }

  /** A wish moves the weight of its category along and no other. */
  lemma NudgedWeight(s: Split, p: SpendPreference)
    requires Counts(p)
    requires -1.0 <= s.transport <= 1.0 && -1.0 <= s.hotel <= 1.0 && -1.0 <= s.food <= 1.0
    ensures IsCategory(p.category)
    ensures p.direction == "increase" ==> Grew(RawWeights(s), RawWeights(Nudge(s, p)), p.category)
    ensures p.direction != "increase" ==> Grew(RawWeights(Nudge(s, p)), RawWeights(s), p.category)
  {
  }

  /**
    Whatever the earlier wishes, a wish never moves the ratio of its own category
    the other way, and never moves another transport or hotel ratio along.
  */
  lemma WishIsHeard(ps: seq<SpendPreference>, p: SpendPreference)
    requires Counts(p)
    ensures var before, after := AdjustedRatios(ps), AdjustedRatios(ps + [p]);
            && Along(p, Of(before, p.category), Of(after, p.category))
            && (p.category != TRANSPORT ==> Along(p, after.transport, before.transport))
            && (p.category != HOTEL ==> Along(p, after.hotel, before.hotel))
  {
    OneMoreWish(ps, p);
    RawInBand(ps);
    RawInBand(ps + [p]);
    NudgedWeight(NetSignals(ps), p);
    var before, after := RawWeights(NetSignals(ps)), RawWeights(NetSignals(ps + [p]));
    if p.direction == "increase" {
      GrownWeight(before, after, p.category);
    } else {
      GrownWeight(after, before, p.category);
    }
  }

  /** x plus the change, as far as it stays between -1 and 1. */
  predicate Moved(x: real, change: real, y: real) {
    && -1.0 <= y <= 1.0
    && (y < x + change ==> y == 1.0) && (y > x + change ==> y == -1.0)
  }

  /** How strong a wish is: a number between 0 and 1, and 0 where none is given. */
  predicate Strong(p: SpendPreference, x: real) {
    && 0.0 <= x <= 1.0
    && (p.strength.None? ==> x == 0.0)
    && (p.strength.Some? ==> (x < p.strength.value ==> x == 1.0) && (x > p.strength.value ==> x == 0.0))
  }

  /** One more wish moves the signal of its own category by its strength, up or down, and no other. */
  lemma SignalMoves(ps: seq<SpendPreference>, p: SpendPreference, x: real)
    requires Strong(p, x)
    ensures var s, t := NetSignals(ps), NetSignals(ps + [p]);
            var change := if p.direction == "increase" then x else if p.direction == "decrease" then -x else 0.0;
            && Moved(s.transport, if p.category == "transport" then change else 0.0, t.transport)
            && Moved(s.hotel, if p.category == "hotel" then change else 0.0, t.hotel)
            && Moved(s.food, if p.category == "food_activity" then change else 0.0, t.food)
  {
    OneMoreWish(ps, p);
  }

  /** The share of weight in whole, to within half a millionth. */
  predicate IsShare(ratio: real, weight: real, whole: real) {
    whole > 0.0 && -0.0000005 <= ratio - weight / whole <= 0.0000005
  }

  lemma WeightsOfSignals(s: Split)
    ensures RawWeights(s)
            == Split(0.35 + 0.1225 * s.transport, 0.35 + 0.1225 * s.hotel, 0.3 + 0.105 * s.food)
  {
  }

  lemma RatiosAreShares(raw: Split)
    requires InBand(raw)
    ensures IsShare(Normalize(raw).transport, raw.transport, raw.Sum())
    ensures IsShare(Normalize(raw).hotel, raw.hotel, raw.Sum())
    ensures Normalize(raw).food == 1.0 - Normalize(raw).transport - Normalize(raw).hotel
  {
    NormalizeSums(raw);
    ToGridIsOnGrid(raw.transport / raw.Sum());
    ToGridIsOnGrid(raw.hotel / raw.Sum());
  }

  /**
    A full signal moves a weight by 35 % of its default; the ratios are the weights' shares,
    food taking what the rounding of the other two leaves.
    */
  lemma RatiosFollowSignals(ps: seq<SpendPreference>)
    ensures var r, s := AdjustedRatios(ps), NetSignals(ps);
            var transport, hotel, food := 0.35 + 0.1225 * s.transport, 0.35 + 0.1225 * s.hotel, 0.3 + 0.105 * s.food;
            && IsShare(r.transport, transport, transport + hotel + food)
            && IsShare(r.hotel, hotel, transport + hotel + food)
            && r.food == 1.0 - r.transport - r.hotel
  {
    RawInBand(ps);
    WeightsOfSignals(NetSignals(ps));
    RatiosAreShares(RawWeights(NetSignals(ps)));
  }

  /** What a change of one signal from the defaults makes of the shares of all three. */
  lemma FeltShares(x: real)
    requires 0.01 <= x <= 1.0
    ensures 0.3505 <= (0.35 + 0.1225 * x) / (1.0 + 0.1225 * x)
    ensures (0.35 - 0.1225 * x) / (1.0 - 0.1225 * x) <= 0.3495
    ensures 0.35 / (1.0 + 0.105 * x) <= 0.3498 && 0.3502 <= 0.35 / (1.0 - 0.105 * x)
  {
    ShareBounds(0.35 + 0.1225 * x, 1.0 + 0.1225 * x, 0.3505, 1.0);
    ShareBounds(0.35 - 0.1225 * x, 1.0 - 0.1225 * x, 0.0, 0.3495);
    ShareBounds(0.35, 1.0 + 0.105 * x, 0.0, 0.3498);
    ShareBounds(0.35, 1.0 - 0.105 * x, 0.3502, 1.0);
  }

  lemma FirstWish(p: SpendPreference, x: real)
    requires Counts(p) && Strong(p, x)
    ensures var s, change := NetSignals([p]), if p.direction == "increase" then x else -x;
            s == Split(if p.category == TRANSPORT then change else 0.0, if p.category == HOTEL then change else 0.0,
                       if p.category == FOOD then change else 0.0)
  {
    SignalMoves([], p, x);
    assert [] + [p] == [p];
  }

  /** So a wish of some strength is felt: from the defaults, one of a hundredth moves its ratio already. */
  lemma WishIsFelt(p: SpendPreference, x: real)
    requires Counts(p) && Strong(p, x) && x >= 0.01
    ensures var after := AdjustedRatios([p]);
            && (p.category != FOOD ==> if p.direction == "increase" then Of(after, p.category) > 0.3504
                                       else Of(after, p.category) < 0.3496)
            && (p.category == FOOD ==> if p.direction == "increase" then after.food > 0.3003 else after.food < 0.2997)
  {
    FirstWish(p, x);
    FeltShares(x);
    RatiosFollowSignals([p]);
    FeltRatio(p.category, if p.direction == "increase" then x else -x, AdjustedRatios([p]));
  }

  lemma FeltRatio(category: string, change: real, r: Split)
    requires IsCategory(category)
    requires var transport, hotel, food := 0.35 + (if category == TRANSPORT then 0.1225 * change else 0.0),
                                           0.35 + (if category == HOTEL then 0.1225 * change else 0.0),
                                           0.3 + (if category == FOOD then 0.105 * change else 0.0);
             && IsShare(r.transport, transport, transport + hotel + food)
             && IsShare(r.hotel, hotel, transport + hotel + food)
             && r.food == 1.0 - r.transport - r.hotel
    ensures category == TRANSPORT ==>
              -0.000001 <= r.transport - (0.35 + 0.1225 * change) / (1.0 + 0.1225 * change) <= 0.000001
    ensures category == HOTEL ==>
              -0.000001 <= r.hotel - (0.35 + 0.1225 * change) / (1.0 + 0.1225 * change) <= 0.000001
    ensures category == FOOD ==> -0.000002 <= r.food - 1.0 + 2.0 * (0.35 / (1.0 + 0.105 * change)) <= 0.000002
  {
  }

  // -------------------------------------------------------------- order dependence

  /** The net signal of a category. */
  function Signal(ps: seq<SpendPreference>, category: string): (r: real)
    requires IsCategory(category)
    ensures -1.0 <= r <= 1.0
  {
    Of(NetSignals(ps), category)
  }

  /** What one preference asks of a category. */
  function Wish(p: SpendPreference, category: string): real {
    if Counts(p) && p.category == category then Signed(p) else 0.0
  }

  function Rise(p: SpendPreference, category: string): (r: real)
    ensures r >= 0.0
  {
    if Wish(p, category) > 0.0 then Wish(p, category) else 0.0
  }

  function Fall(p: SpendPreference, category: string): (r: real)
    ensures r >= 0.0
  {
    if Wish(p, category) < 0.0 then -Wish(p, category) else 0.0
  }

  /** The strengths of all wishes to spend more on the category, added up. */
  function Rises(ps: seq<SpendPreference>, category: string): (r: real)
    ensures r >= 0.0
  {
    if ps == [] then 0.0 else Rises(ps[..|ps| - 1], category) + Rise(ps[|ps| - 1], category)
  }

  /** The strengths of all wishes to spend less. */
  function Falls(ps: seq<SpendPreference>, category: string): (r: real)
    ensures r >= 0.0
  {
    if ps == [] then 0.0 else Falls(ps[..|ps| - 1], category) + Fall(ps[|ps| - 1], category)
  }

  /** The clamped sum of the wishes, starting at x. */
  function Follow(x: real, ps: seq<SpendPreference>, category: string): (r: real)
    requires -1.0 <= x <= 1.0
    ensures -1.0 <= r <= 1.0
  {
    if ps == [] then x
    else Clamp(Follow(x, ps[..|ps| - 1], category) + Wish(ps[|ps| - 1], category), -1.0, 1.0)
  }

  lemma NudgeOf(s: Split, p: SpendPreference, category: string)
    requires IsCategory(category) && -1.0 <= Of(s, category) <= 1.0
    ensures Of(Nudge(s, p), category) == Clamp(Of(s, category) + Wish(p, category), -1.0, 1.0)
  {
  }

  lemma {:induction false} SignalFollows(ps: seq<SpendPreference>, category: string)
    requires IsCategory(category)
    ensures Signal(ps, category) == Follow(0.0, ps, category)
  {
    if ps == [] {
    } else {
      SignalFollows(ps[..|ps| - 1], category);
      NudgeOf(NetSignals(ps[..|ps| - 1]), ps[|ps| - 1], category);
    }
  }

  lemma {:induction false} FollowConcat(x: real, ps: seq<SpendPreference>, qs: seq<SpendPreference>, category: string)
    requires -1.0 <= x <= 1.0
    ensures Follow(x, ps + qs, category) == Follow(Follow(x, ps, category), qs, category)
  {
    if qs == [] {
      assert ps + qs == ps;
    } else {
      assert (ps + qs)[..|ps + qs| - 1] == ps + qs[..|qs| - 1];
      FollowConcat(x, ps, qs[..|qs| - 1], category);
    }
  }

  lemma {:induction false} RisesConcat(ps: seq<SpendPreference>, qs: seq<SpendPreference>, category: string)
    ensures Rises(ps + qs, category) == Rises(ps, category) + Rises(qs, category)
    ensures Falls(ps + qs, category) == Falls(ps, category) + Falls(qs, category)
  {
    if qs == [] {
      assert ps + qs == ps;
    } else {
      assert (ps + qs)[..|ps + qs| - 1] == ps + qs[..|qs| - 1];
      RisesConcat(ps, qs[..|qs| - 1], category);
    }
  }

  lemma RisesOfOne(p: SpendPreference, category: string)
    ensures Rises([p], category) == Rise(p, category) && Falls([p], category) == Fall(p, category)
  {
    assert [p][..0] == [];
  }

  /** Taking the same wish out of the middle. */
  lemma RisesWithout(ps: seq<SpendPreference>, i: nat, category: string)
    requires i < |ps|
    ensures Rises(ps, category) == Rises(ps[..i] + ps[i + 1..], category) + Rise(ps[i], category)
    ensures Falls(ps, category) == Falls(ps[..i] + ps[i + 1..], category) + Fall(ps[i], category)
  {
    assert ps == (ps[..i] + [ps[i]]) + ps[i + 1..];
    RisesConcat(ps[..i] + [ps[i]], ps[i + 1..], category);
    RisesConcat(ps[..i], [ps[i]], category);
    RisesConcat(ps[..i], ps[i + 1..], category);
    RisesOfOne(ps[i], category);
  }

  /** Where a permutation has the last preference, and that the rest is a permutation of the rest. */
  lemma PlaceOf(ps: seq<SpendPreference>, n: nat, qs: seq<SpendPreference>) returns (i: nat)
    requires multiset(ps) == multiset(qs) && n == |ps| - 1
    ensures i < |qs| && qs[i] == ps[n]
    ensures multiset(ps[..n]) == multiset(qs[..i] + qs[i + 1..])
  {
    assert ps == ps[..n] + [ps[n]];
    assert ps[n] in multiset(qs);
    i :| 0 <= i < |qs| && qs[i] == ps[n];
    assert qs == qs[..i] + [qs[i]] + qs[i + 1..];
    assert multiset(ps[..n]) == multiset(ps) - multiset{ps[n]};
    assert multiset(qs[..i] + qs[i + 1..]) == multiset(qs) - multiset{ps[n]};
  }

  /** The two sums do not depend on the order. */
  lemma {:induction false} RisesOfPermuted(ps: seq<SpendPreference>, qs: seq<SpendPreference>, category: string)
    requires multiset(ps) == multiset(qs)
    ensures Rises(ps, category) == Rises(qs, category) && Falls(ps, category) == Falls(qs, category)
    decreases |ps|
  {
    if ps == [] {
      assert |multiset(qs)| == 0;
    } else {
      var n := |ps| - 1;
      var i := PlaceOf(ps, n, qs);
      RisesOfPermuted(ps[..n], qs[..i] + qs[i + 1..], category);
      RisesWithout(qs, i, category);
    }
  }

  /** No clamp can depend on the order: one direction is missing, or neither goes further than one. */
  predicate OrderFree(rises: real, falls: real) {
    rises == 0.0 || falls == 0.0 || (rises <= 1.0 && falls <= 1.0)
  }

  /** The signal that remains when the order does not matter. */
  function Settled(rises: real, falls: real): real {
    Clamp(rises - falls, -1.0, 1.0)
  }

  lemma SettledStep(rises: real, falls: real, p: SpendPreference, category: string)
    requires rises >= 0.0 && falls >= 0.0
    requires OrderFree(rises + Rise(p, category), falls + Fall(p, category))
    ensures OrderFree(rises, falls)
    ensures Clamp(Settled(rises, falls) + Wish(p, category), -1.0, 1.0)
         == Settled(rises + Rise(p, category), falls + Fall(p, category))
  {
  }

  lemma {:induction false} SettledSignal(ps: seq<SpendPreference>, category: string)
    requires OrderFree(Rises(ps, category), Falls(ps, category))
    ensures Follow(0.0, ps, category) == Settled(Rises(ps, category), Falls(ps, category))
  {
    if ps == [] {
    } else {
      var n := |ps| - 1;
      SettledStep(Rises(ps[..n], category), Falls(ps[..n], category), ps[n], category);
      SettledSignal(ps[..n], category);
    }
  }

  /** A list without wishes to spend less goes up until it is clamped, and dually. */
  lemma {:induction false} OneWay(x: real, ps: seq<SpendPreference>, category: string)
    requires -1.0 <= x <= 1.0
    ensures Falls(ps, category) == 0.0 ==> Follow(x, ps, category) == Clamp(x + Rises(ps, category), -1.0, 1.0)
    ensures Rises(ps, category) == 0.0 ==> Follow(x, ps, category) == Clamp(x - Falls(ps, category), -1.0, 1.0)
  {
    if ps == [] {
    } else {
      OneWay(x, ps[..|ps| - 1], category);
    }
  }

  lemma RisesSnoc(ps: seq<SpendPreference>, p: SpendPreference, category: string)
    ensures Rises(ps + [p], category) == Rises(ps, category) + Rise(p, category)
    ensures Falls(ps + [p], category) == Falls(ps, category) + Fall(p, category)
    ensures multiset(ps + [p]) == multiset(ps) + multiset{p}
  {
    assert (ps + [p])[..|ps|] == ps;
  }

  /** The wishes to spend more on the category, and all the other preferences. */
  lemma {:induction false} Sorted(ps: seq<SpendPreference>, category: string)
      returns (up: seq<SpendPreference>, rest: seq<SpendPreference>)
    ensures multiset(up) + multiset(rest) == multiset(ps)
    ensures Rises(up, category) == Rises(ps, category) && Falls(up, category) == 0.0
    ensures Rises(rest, category) == 0.0 && Falls(rest, category) == Falls(ps, category)
  {
    if ps == [] {
      up, rest := [], [];
    } else {
      var n := |ps| - 1;
      assert ps == ps[..n] + [ps[n]];
      up, rest := Sorted(ps[..n], category);
      RisesSnoc(ps[..n], ps[n], category);
      if Wish(ps[n], category) > 0.0 {
        RisesSnoc(up, ps[n], category);
        up := up + [ps[n]];
      } else {
        RisesSnoc(rest, ps[n], category);
        rest := rest + [ps[n]];
      }
    }
  }

  lemma UpFirst(up: seq<SpendPreference>, rest: seq<SpendPreference>, category: string)
    requires Falls(up, category) == 0.0 && Rises(rest, category) == 0.0
    ensures Follow(0.0, up + rest, category)
         == Clamp(Clamp(Rises(up, category), -1.0, 1.0) - Falls(rest, category), -1.0, 1.0)
  {
    FollowConcat(0.0, up, rest, category);
    OneWay(0.0, up, category);
    OneWay(Follow(0.0, up, category), rest, category);
  }

  lemma DownFirst(rest: seq<SpendPreference>, up: seq<SpendPreference>, category: string)
    requires Falls(up, category) == 0.0 && Rises(rest, category) == 0.0
    ensures Follow(0.0, rest + up, category)
         == Clamp(Clamp(-Falls(rest, category), -1.0, 1.0) + Rises(up, category), -1.0, 1.0)
  {
    FollowConcat(0.0, rest, up, category);
    OneWay(0.0, rest, category);
    OneWay(Follow(0.0, rest, category), up, category);
  }

  lemma ClampsDiffer(rises: real, falls: real)
    requires rises >= 0.0 && falls >= 0.0 && !OrderFree(rises, falls)
    ensures Clamp(Clamp(rises, -1.0, 1.0) - falls, -1.0, 1.0) != Clamp(Clamp(-falls, -1.0, 1.0) + rises, -1.0, 1.0)
  {
  }

  /** Spending more first and spending less first end differently. */
  lemma OrdersDiffer(up: seq<SpendPreference>, rest: seq<SpendPreference>, category: string)
    requires IsCategory(category) && Falls(up, category) == 0.0 && Rises(rest, category) == 0.0
    requires !OrderFree(Rises(up, category), Falls(rest, category))
    ensures Signal(up + rest, category) != Signal(rest + up, category)
  {
    SignalFollows(up + rest, category);
    SignalFollows(rest + up, category);
    UpFirst(up, rest, category);
    DownFirst(rest, up, category);
    ClampsDiffer(Rises(up, category), Falls(rest, category));
  }

  lemma TwoOrders(ps: seq<SpendPreference>, category: string) returns (qs: seq<SpendPreference>)
    requires IsCategory(category) && !OrderFree(Rises(ps, category), Falls(ps, category))
    ensures multiset(qs) == multiset(ps) && Signal(qs, category) != Signal(ps, category)
  {
    var up, rest := Sorted(ps, category);
    OrdersDiffer(up, rest, category);
    if Signal(up + rest, category) != Signal(ps, category) {
      qs := up + rest;
    } else {
      qs := rest + up;
    }
  }

  /** Every order of the same preferences gives the category the same signal. */
  ghost predicate AnyOrder(ps: seq<SpendPreference>, category: string)
    requires IsCategory(category)
  {
    forall qs | multiset(qs) == multiset(ps) :: Signal(qs, category) == Signal(ps, category)
  }

  /**
    Signals are clamped after every wish, so the order of the wishes can matter.
    It does not exactly when all wishes about the category point the same way, or
    neither those for more nor those for less add up to more than one.
  */
  lemma OrderIsFreeIff(ps: seq<SpendPreference>, category: string)
    requires IsCategory(category)
    ensures AnyOrder(ps, category) <==> OrderFree(Rises(ps, category), Falls(ps, category))
  {
    if OrderFree(Rises(ps, category), Falls(ps, category)) {
      SignalFollows(ps, category);
      SettledSignal(ps, category);
      forall qs | multiset(qs) == multiset(ps)
        ensures Signal(qs, category) == Signal(ps, category)
      {
        RisesOfPermuted(qs, ps, category);
        SignalFollows(qs, category);
        SettledSignal(qs, category);
      }
    } else {
      var qs := TwoOrders(ps, category);
    }
  }

  const MORE := SpendPreference(HOTEL, "increase", Some(1.0))
  const LESS := SpendPreference(HOTEL, "decrease", Some(1.0))

  lemma ThreeWishes(p: SpendPreference, q: SpendPreference, r: SpendPreference)
    ensures NetSignals([p, q, r]) == Nudge(Nudge(Nudge(NetSignals([]), p), q), r)
  {
    assert [p] == [] + [p] && [p, q] == [p] + [q] && [p, q, r] == [p, q] + [r];
    OneMoreWish([], p);
    OneMoreWish([p], q);
    OneMoreWish([p, q], r);
  }

  lemma FullStrength()
    ensures Wish(MORE, HOTEL) == 1.0 && Wish(LESS, HOTEL) == -1.0
  {
  }

  /** Two wishes for more and one for less, in two orders: the ratios are the default ones, or hotels gain. */
  lemma OrderMatters()
    ensures multiset([MORE, MORE, LESS]) == multiset([MORE, LESS, MORE])
    ensures Signal([MORE, MORE, LESS], HOTEL) == 0.0 && Signal([MORE, LESS, MORE], HOTEL) == 1.0
  {
    FullStrength();
    ThreeOf(MORE, MORE, LESS);
    ThreeOf(MORE, LESS, MORE);
  }

  lemma ThreeOf(p: SpendPreference, q: SpendPreference, r: SpendPreference)
    ensures var one := Clamp(Wish(p, HOTEL), -1.0, 1.0);
            var two := Clamp(one + Wish(q, HOTEL), -1.0, 1.0);
            Signal([p, q, r], HOTEL) == Clamp(two + Wish(r, HOTEL), -1.0, 1.0)
  {
    ThreeWishes(p, q, r);
    var s := NetSignals([]);
    NudgeOf(s, p, HOTEL);
    NudgeOf(Nudge(s, p), q, HOTEL);
    NudgeOf(Nudge(Nudge(s, p), q), r, HOTEL);
  }
}
