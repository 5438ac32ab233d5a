/** The ordered-path metric of eval/workflow_metrics.py. */
module PathMetrics {

  /** `at` places the items of `expected` at strictly increasing positions of `actual`. */
  ghost predicate Embeds(expected: seq<string>, actual: seq<string>, at: seq<int>) {
    && |at| == |expected|
    && (forall i | 0 <= i < |at| :: 0 <= at[i] < |actual| && actual[at[i]] == expected[i])
    && (forall i, j | 0 <= i < j < |at| :: at[i] < at[j])
  }

  ghost predicate IsSubsequence(expected: seq<string>, actual: seq<string>) {
    exists at: seq<int> :: Embeds(expected, actual, at)
  }

  /** The cursor of the greedy scan after reading `actual`. */
  function Cursor(actual: seq<string>, expected: seq<string>): (c: nat)
    ensures c <= |expected|
  {
    if actual == [] then 0
    else
      var n := |actual| - 1;
      var c := Cursor(actual[..n], expected);
      if c < |expected| && actual[n] == expected[c] then c + 1 else c
  }

  /** What the greedy scan has matched really is an ordered subsequence. */
  lemma {:induction false} GreedySound(actual: seq<string>, expected: seq<string>) returns (at: seq<int>)
    ensures Embeds(expected[..Cursor(actual, expected)], actual, at)
  {
    if actual == [] {
      at := [];
    } else {
      var n := |actual| - 1;
      var c := Cursor(actual[..n], expected);
      at := GreedySound(actual[..n], expected);
      if c < |expected| && actual[n] == expected[c] {
        at := at + [n];
      }
    }
  }

  /** No embedding of a prefix of `expected` gets further than the greedy cursor. */
  lemma {:induction false} GreedyComplete(actual: seq<string>, expected: seq<string>, m: nat, at: seq<int>)
    requires m <= |expected| && Embeds(expected[..m], actual, at)
    ensures m <= Cursor(actual, expected)
  {
    if m == 0 {
    } else {
      var n := |actual| - 1;
      var last := at[m - 1];
      if last == n {
        assert Embeds(expected[..m - 1], actual[..n], at[..m - 1]);
        GreedyComplete(actual[..n], expected, m - 1, at[..m - 1]);
      } else {
        assert forall i | 0 <= i < m - 1 :: at[i] < at[m - 1];
        assert Embeds(expected[..m], actual[..n], at);
        GreedyComplete(actual[..n], expected, m, at);
      }
    }
  }

  method OrderedPathContains(actual: seq<string>, expected: seq<string>) returns (score: real)
    ensures score == 1.0 <==> IsSubsequence(expected, actual)
    ensures score == 0.0 || score == 1.0
  {
    var cursor := 0;
    for i := 0 to |actual|
      invariant cursor == Cursor(actual[..i], expected)
    {
      assert actual[..i + 1][..i] == actual[..i];
      if cursor < |expected| && actual[i] == expected[cursor] {
        cursor := cursor + 1;
      }
    }
    assert actual[..|actual|] == actual;
    score := if cursor == |expected| then 1.0 else 0.0;

    ghost var at := GreedySound(actual, expected);
    if cursor == |expected| {
      assert Embeds(expected, actual, at);
    } else {
      forall other: seq<int> | Embeds(expected, actual, other)
        ensures false
      {
        assert expected[..|expected|] == expected;
        GreedyComplete(actual, expected, |expected|, other);
      }
    }
  }
}
