/**
  Python's stable `sorted(s, key=...)`, for a key given as the comparison
  `le(x, y)` ("the key of x is not above the key of y"), and the lexicographic
  order of Python strings.
  */
module Sorting {

  ghost predicate TotalPreorder<T(!new)>(le: (T, T) -> bool) {
    && (forall x, y :: le(x, y) || le(y, x))
    && (forall x, y, z :: le(x, y) && le(y, z) ==> le(x, z))
  }

  ghost predicate Ascending<T>(s: seq<T>, le: (T, T) -> bool) {
    forall i, j | 0 <= i < j < |s| :: le(s[i], s[j])
  }

  /** Inserts x, which stood before every element of s, behind no element of an equal key. */
  function Insert<T>(x: T, s: seq<T>, le: (T, T) -> bool): (r: seq<T>)
    ensures multiset(r) == multiset{x} + multiset(s)
    ensures |r| == |s| + 1
  {
    if s == [] then [x]
    else if le(x, s[0]) then [x] + s
    else
      assert s == [s[0]] + s[1..];
      [s[0]] + Insert(x, s[1..], le)
  }

  function SortBy<T>(s: seq<T>, le: (T, T) -> bool): (r: seq<T>)
    ensures multiset(r) == multiset(s)
    ensures |r| == |s|
  {
    if s == [] then []
    else
      assert s == [s[0]] + s[1..];
      Insert(s[0], SortBy(s[1..], le), le)
  }

  lemma {:induction false} InsertAscending<T(!new)>(x: T, s: seq<T>, le: (T, T) -> bool)
    requires TotalPreorder(le) && Ascending(s, le)
    ensures Ascending(Insert(x, s, le), le)
  {
    if s == [] || le(x, s[0]) {
    } else {
      InsertAscending(x, s[1..], le);
      var r := Insert(x, s[1..], le);
      forall y | y in r
        ensures le(s[0], y)
      {
        assert y in multiset{x} + multiset(s[1..]);
      }
    }
  }

  lemma {:induction false} SortByAscending<T(!new)>(s: seq<T>, le: (T, T) -> bool)
    requires TotalPreorder(le)
    ensures Ascending(SortBy(s, le), le)
  {
    if s == [] {
    } else {
      SortByAscending(s[1..], le);
      InsertAscending(s[0], SortBy(s[1..], le), le);
    }
  }

  /** Membership survives sorting. */
  lemma SortByMembers<T>(s: seq<T>, le: (T, T) -> bool, x: T)
    ensures x in SortBy(s, le) <==> x in s
  {
    assert x in SortBy(s, le) <==> x in multiset(SortBy(s, le));
    assert x in s <==> x in multiset(s);
  }

  /** `a <= b` on Python strings. */
  predicate LexLe(a: string, b: string) {
    a == [] || (b != [] && (a[0] < b[0] || (a[0] == b[0] && LexLe(a[1..], b[1..]))))
  }

  lemma {:induction false} LexLeTotal(a: string, b: string)
    ensures LexLe(a, b) || LexLe(b, a)
  {
    if a == [] || b == [] {
    } else {
      LexLeTotal(a[1..], b[1..]);
    }
  }

  lemma {:induction false} LexLeTransitive(a: string, b: string, c: string)
    requires LexLe(a, b) && LexLe(b, c)
    ensures LexLe(a, c)
  {
    if a == [] || b == [] || a[0] != b[0] || b[0] != c[0] {
    } else {
      LexLeTransitive(a[1..], b[1..], c[1..]);
    }
  }

  lemma {:induction false} LexLeAntisymmetric(a: string, b: string)
    requires LexLe(a, b) && LexLe(b, a)
    ensures a == b
  {
    if a == [] {
    } else {
      LexLeAntisymmetric(a[1..], b[1..]);
      assert a == [a[0]] + a[1..] && b == [b[0]] + b[1..];
    }
  }

  /** a comes first exactly when it is a prefix of b, or smaller where they first differ. */
  lemma {:induction false} LexLeIff(a: string, b: string)
    ensures LexLe(a, b) <==> a <= b || exists k :: 0 <= k < |a| && k < |b| && a[..k] == b[..k] && a[k] < b[k]
  {
    if a == [] || b == [] {
    } else {
      LexLeIff(a[1..], b[1..]);
      if a[0] == b[0] {
        assert a == [a[0]] + a[1..] && b == [b[0]] + b[1..];
        if k :| 0 <= k < |a[1..]| && k < |b[1..]| && a[1..][..k] == b[1..][..k] && a[1..][k] < b[1..][k] {
          assert a[..k + 1] == [a[0]] + a[1..][..k] && b[..k + 1] == [b[0]] + b[1..][..k];
        }
        if k :| 0 <= k < |a| && k < |b| && a[..k] == b[..k] && a[k] < b[k] {
          assert a[1..][..k - 1] == a[..k][1..] && b[1..][..k - 1] == b[..k][1..];
        }
      } else {
        assert a[..0] == b[..0];
        if k :| 0 <= k < |a| && k < |b| && a[..k] == b[..k] && a[k] < b[k] {
          assert k > 0 ==> a[..k][0] == b[..k][0];
        }
      }
    }
  }

  /** y if it sorts like x, else nothing. */
  function IfAlike<T>(y: T, le: (T, T) -> bool, x: T): seq<T> {
    if le(y, x) && le(x, y) then [y] else []
  }

  /** The elements that sort like x. */
  function Alike<T>(s: seq<T>, le: (T, T) -> bool, x: T): seq<T> {
    if s == [] then [] else IfAlike(s[0], le, x) + Alike(s[1..], le, x)
  }

  lemma AlikeCons<T>(y: T, s: seq<T>, le: (T, T) -> bool, x: T)
    ensures Alike([y] + s, le, x) == IfAlike(y, le, x) + Alike(s, le, x)
  {
    assert ([y] + s)[1..] == s;
  }

  lemma EitherEmpty<T>(a: seq<T>, b: seq<T>, c: seq<T>)
    requires a == [] || b == []
    ensures a + (b + c) == b + (a + c)
  {
  }

  lemma {:induction false} InsertKeepsAlike<T>(y: T, s: seq<T>, le: (T, T) -> bool, x: T)
    requires forall z | z in s :: le(y, x) && le(x, z) ==> le(y, z)
    ensures Alike(Insert(y, s, le), le, x) == IfAlike(y, le, x) + Alike(s, le, x)
  {
    if s == [] {
      AlikeCons(y, [], le, x);
      assert [y] + [] == [y];
    } else if le(y, s[0]) {
      AlikeCons(y, s, le, x);
    } else {
      InsertKeepsAlike(y, s[1..], le, x);
      AlikeCons(s[0], Insert(y, s[1..], le), le, x);
      assert s[0] in s;
      EitherEmpty(IfAlike(s[0], le, x), IfAlike(y, le, x), Alike(s[1..], le, x));
    }
  }

  /** The sort is stable: elements of equal keys keep their order. */
  lemma {:induction false} SortByIsStable<T(!new)>(s: seq<T>, le: (T, T) -> bool, x: T)
    requires TotalPreorder(le)
    ensures Alike(SortBy(s, le), le, x) == Alike(s, le, x)
  {
    if s == [] {
    } else {
      SortByIsStable(s[1..], le, x);
      InsertKeepsAlike(s[0], SortBy(s[1..], le), le, x);
    }
  }
}
