/**
 Byte-wise string order, sorting, and the fact that makes sorted lists canonical:
 a strictly increasing list is determined by its set of elements.
 */
module Ordering {

  /** Strict lexicographic order, as Go compares strings. */
  predicate Before(a: string, b: string) {
    b != [] && (a == [] || a[0] < b[0] || (a[0] == b[0] && Before(a[1..], b[1..])))
  }

  /** The first difference decides, and a proper prefix comes first. */
  lemma {:induction false} BeforeIsFirstDifference(a: string, b: string)
    ensures Before(a, b) <==>
              exists k :: 0 <= k <= |a| && k < |b| && a[..k] == b[..k] && (k == |a| || a[k] < b[k])
  {
    if Before(a, b) {
      if a == [] || a[0] < b[0] {
        assert a[..0] == b[..0];
      } else {
        BeforeIsFirstDifference(a[1..], b[1..]);
        var k :| 0 <= k <= |a| - 1 && k < |b| - 1 && a[1..][..k] == b[1..][..k]
                 && (k == |a| - 1 || a[1..][k] < b[1..][k]);
        assert a[..k + 1] == [a[0]] + a[1..][..k] && b[..k + 1] == [b[0]] + b[1..][..k];
      }
    }
    if k :| 0 <= k <= |a| && k < |b| && a[..k] == b[..k] && (k == |a| || a[k] < b[k]) {
      if k > 0 {
        assert a[0] == a[..k][0] == b[..k][0] == b[0];
        assert a[1..][..k - 1] == a[..k][1..] && b[1..][..k - 1] == b[..k][1..];
        BeforeIsFirstDifference(a[1..], b[1..]);
        assert k - 1 == |a[1..]| || a[1..][k - 1] < b[1..][k - 1];
      }
    }
  }

  predicate AtMost(a: string, b: string) {
    a == b || Before(a, b)
  }

  lemma {:induction false} BeforeIrreflexive(a: string)
    ensures !Before(a, a)
  {
    if a != [] {
      BeforeIrreflexive(a[1..]);
    }
  }

  lemma {:induction false} BeforeTransitive(a: string, b: string, c: string)
    requires Before(a, b) && Before(b, c)
    ensures Before(a, c)
  {
    if a != [] && a[0] == b[0] && b[0] == c[0] {
      BeforeTransitive(a[1..], b[1..], c[1..]);
    }
  }

  lemma {:induction false} BeforeTotal(a: string, b: string)
    ensures a == b || Before(a, b) || Before(b, a)
  {
    if a != [] && b != [] && a[0] == b[0] {
      BeforeTotal(a[1..], b[1..]);
      assert a == [a[0]] + a[1..] && b == [b[0]] + b[1..];
    }
  }

  /** A comparison that a sort can rely on. */
  ghost predicate TotalPreorder<T(!new)>(le: (T, T) -> bool) {
    && (forall a, b :: le(a, b) || le(b, a))
    && (forall a, b, c :: le(a, b) && le(b, c) ==> le(a, c))
  }

  lemma StringOrderIsTotal()
    ensures TotalPreorder(AtMost)
  {
    forall a, b ensures AtMost(a, b) || AtMost(b, a) {
      BeforeTotal(a, b);
    }
    forall a, b, c | AtMost(a, b) && AtMost(b, c) ensures AtMost(a, c) {
      if a != b && b != c {
        BeforeTransitive(a, b, c);
      }
    }
  }

  ghost predicate SortedBy<T(!new)>(le: (T, T) -> bool, s: seq<T>) {
    forall i, j | 0 <= i < j < |s| :: le(s[i], s[j])
  }

  /**
   The contract of a library sort: some permutation in order. Nothing is promised
   about elements the comparison cannot tell apart.
   */
  method SortBy<T(!new)>(s: seq<T>, le: (T, T) -> bool) returns (r: seq<T>)
    requires TotalPreorder(le)
    ensures multiset(r) == multiset(s)
    ensures SortedBy(le, r)
  {
    r := [];
    for i := 0 to |s|
      invariant multiset(r) == multiset(s[..i])
      invariant SortedBy(le, r)
    {
      var k := 0;
      while k < |r| && le(r[k], s[i])
        invariant 0 <= k <= |r|
        invariant forall j | 0 <= j < k :: le(r[j], s[i])
      {
        k := k + 1;
      }
      AboveSuffix(le, r, k, s[i]);
      InsertKeepsOrder(le, r, k, s[i]);
      assert s[..i + 1] == s[..i] + [s[i]];
      r := r[..k] + [s[i]] + r[k..];
    }
    assert s[..|s|] == s;
  }

  lemma AboveSuffix<T(!new)>(le: (T, T) -> bool, s: seq<T>, k: nat, x: T)
    requires TotalPreorder(le) && SortedBy(le, s)
    requires k < |s| ==> !le(s[k], x)
    ensures forall j | k <= j < |s| :: le(x, s[j])
  {
    forall j | k <= j < |s| ensures le(x, s[j]) {
      assert le(x, s[k]);
      if k < j {
        assert le(s[k], s[j]);
      }
    }
  }

  lemma InsertKeepsOrder<T(!new)>(le: (T, T) -> bool, s: seq<T>, k: nat, x: T)
    requires SortedBy(le, s) && k <= |s|
    requires forall j | 0 <= j < k :: le(s[j], x)
    requires forall j | k <= j < |s| :: le(x, s[j])
    ensures SortedBy(le, s[..k] + [x] + s[k..])
    ensures multiset(s[..k] + [x] + s[k..]) == multiset(s) + multiset{x}
  {
    assert s == s[..k] + s[k..];
    var r := s[..k] + [x] + s[k..];
    forall i, j | 0 <= i < j < |r| ensures le(r[i], r[j]) {
      var y := if i < k then s[i] else if i == k then x else s[i - 1];
      var z := if j < k then s[j] else if j == k then x else s[j - 1];
      assert r[i] == y && r[j] == z;
    }
  }

  /** Some permutation is in order. */
  lemma {:induction false} Arrangement<T(!new)>(s: seq<T>, le: (T, T) -> bool) returns (r: seq<T>)
    requires TotalPreorder(le)
    ensures multiset(r) == multiset(s) && SortedBy(le, r)
  {
    if s == [] {
      r := [];
    } else {
      var n := |s| - 1;
      r := Arrangement(s[..n], le);
      assert s == s[..n] + [s[n]];
      var k := 0;
      while k < |r| && le(r[k], s[n])
        invariant 0 <= k <= |r|
        invariant forall j | 0 <= j < k :: le(r[j], s[n])
      {
        k := k + 1;
      }
      AboveSuffix(le, r, k, s[n]);
      InsertKeepsOrder(le, r, k, s[n]);
      r := r[..k] + [s[n]] + r[k..];
    }
  }

  /** Elements that the comparison tells apart have one order. */
  lemma {:induction false} SortedPermutationsEqual<T(!new)>(le: (T, T) -> bool, a: seq<T>, b: seq<T>)
    requires multiset(a) == multiset(b) && SortedBy(le, a) && SortedBy(le, b)
    requires forall x, y :: x in a && y in a && le(x, y) && le(y, x) ==> x == y
    ensures a == b
  {
    assert |a| == |multiset(a)| == |multiset(b)| == |b|;
    if a != [] {
      HeadsEqual(le, a, b);
      TailOf(a);
      TailOf(b);
      SortedPermutationsEqual(le, a[1..], b[1..]);
    }
  }

  lemma HeadsEqual<T(!new)>(le: (T, T) -> bool, a: seq<T>, b: seq<T>)
    requires multiset(a) == multiset(b) && SortedBy(le, a) && SortedBy(le, b) && a != [] && b != []
    requires forall x, y :: x in a && y in a && le(x, y) && le(y, x) ==> x == y
    ensures a[0] == b[0]
  {
    assert a[0] in multiset(b) && b[0] in multiset(a);
    HeadBelow(le, a, b[0]);
    HeadBelow(le, b, a[0]);
  }

  lemma TailOf<T>(s: seq<T>)
    requires s != []
    ensures s == [s[0]] + s[1..] && multiset(s[1..]) == multiset(s) - multiset{s[0]}
  {
    assert s == [s[0]] + s[1..];
  }

  lemma HeadBelow<T(!new)>(le: (T, T) -> bool, s: seq<T>, x: T)
    requires SortedBy(le, s) && x in s
    ensures x == s[0] || le(s[0], x)
  {
  }

  /** Strictly increasing: sorted and free of duplicates. */
  predicate Increasing(s: seq<string>) {
    forall i, j | 0 <= i < j < |s| :: Before(s[i], s[j])
  }

  predicate Distinct<T(==)>(s: seq<T>) {
    forall i, j | 0 <= i < j < |s| :: s[i] != s[j]
  }

  function Elements<T>(s: seq<T>): set<T> {
    set x | x in s
  }

  lemma {:induction false} HeadIsLeast(s: seq<string>, x: string)
    requires Increasing(s) && x in s
    ensures x == s[0] || Before(s[0], x)
  {
    var i :| 0 <= i < |s| && s[i] == x;
    assert i == 0 || Before(s[0], s[i]);
  }

  /** A set of strings has one strictly increasing enumeration. */
  lemma {:induction false} IncreasingUnique(a: seq<string>, b: seq<string>)
    requires Increasing(a) && Increasing(b) && Elements(a) == Elements(b)
    ensures a == b
  {
    assert forall x :: x in a <==> x in Elements(a);
    assert forall x :: x in b <==> x in Elements(b);
    if a != [] {
      assert a[0] in Elements(b);
    }
    if b != [] {
      assert b[0] in Elements(a);
    }
    if a != [] {
      assert a[0] in Elements(b) && b[0] in Elements(a);
      HeadIsLeast(a, b[0]);
      HeadIsLeast(b, a[0]);
      if a[0] != b[0] {
        BeforeTransitive(a[0], b[0], a[0]);
        BeforeIrreflexive(a[0]);
      }
      TailElements(a);
      TailElements(b);
      IncreasingUnique(a[1..], b[1..]);
      assert a == [a[0]] + a[1..] && b == [b[0]] + b[1..];
    }
  }

  lemma TailElements(s: seq<string>)
    requires s != [] && Increasing(s)
    ensures Increasing(s[1..]) && Elements(s[1..]) == Elements(s) - {s[0]}
  {
    forall x ensures x in Elements(s[1..]) <==> x in Elements(s) - {s[0]} {
      if x in s[1..] {
        var i :| 0 <= i < |s| - 1 && s[1..][i] == x;
        assert Before(s[0], s[i + 1]);
        BeforeIrreflexive(s[0]);
      }
      if x in s && x != s[0] {
        var i :| 0 <= i < |s| && s[i] == x;
        assert s[1..][i - 1] == x;
      }
    }
  }

  /** Sorting a duplicate-free list gives the enumeration of its set. */
  lemma SortedDistinctIsIncreasing(s: seq<string>, r: seq<string>)
    requires Distinct(s) && multiset(r) == multiset(s) && SortedBy(AtMost, r)
    ensures Increasing(r) && Elements(r) == Elements(s)
  {
    forall i, j | 0 <= i < j < |r| ensures Before(r[i], r[j]) {
      assert AtMost(r[i], r[j]);
      if r[i] == r[j] {
        assert r == r[..j] + [r[j]] + r[j + 1..];
        assert r[i] in r[..j];
        assert multiset(r)[r[j]] >= 2;
        DistinctCountsOnce(s, r[j]);
      }
    }
    forall x ensures x in r <==> x in s {
      assert x in multiset(r) <==> x in multiset(s);
    }
  }

  lemma {:induction false} DistinctCountsOnce(s: seq<string>, x: string)
    requires Distinct(s)
    ensures multiset(s)[x] <= 1
  {
    if s != [] {
      assert s == [s[0]] + s[1..];
      DistinctCountsOnce(s[1..], x);
      if x == s[0] {
        assert x !in s[1..];
      }
    }
  }

  /** The strictly increasing enumeration of the elements of a list. */
  function Canonical(s: seq<string>): (r: seq<string>)
    ensures Increasing(r) && Elements(r) == Elements(s)
  {
    if s == [] then []
    else
      assert s == s[..|s| - 1] + [s[|s| - 1]];
      Insert(Canonical(s[..|s| - 1]), s[|s| - 1])
  }

  function Insert(s: seq<string>, x: string): (r: seq<string>)
    requires Increasing(s)
    ensures Increasing(r) && Elements(r) == Elements(s) + {x}
  {
    if s == [] then [x]
    else if s[0] == x then s
    else if Before(x, s[0]) then
      assert Increasing([x] + s) by {
        forall j | 0 < j < |[x] + s| ensures Before(x, ([x] + s)[j]) {
          if j > 1 { BeforeTransitive(x, s[0], s[j - 1]); }
        }
      }
      assert Elements([x] + s) == Elements(s) + {x};
      [x] + s
    else
      var rest := Insert(s[1..], x);
      assert Increasing([s[0]] + rest) && Elements([s[0]] + rest) == Elements(s) + {x} by {
        BeforeTotal(s[0], x);
        TailElements(s);
        forall j | 0 < j < |[s[0]] + rest| ensures Before(s[0], ([s[0]] + rest)[j]) {
          assert rest[j - 1] in Elements(rest);
          var y := rest[j - 1];
          if y != x {
            assert y in Elements(s[1..]);
            var i :| 0 <= i < |s| - 1 && s[1..][i] == y;
            assert Before(s[0], s[i + 1]);
          }
        }
        assert forall y :: y in [s[0]] + rest <==> y == s[0] || y in Elements(rest);
      }
      [s[0]] + rest
  }
}
