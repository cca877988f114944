/**
 Restrictive merging of decision constraints. An empty allow-list means
 "unrestricted", which is what makes the merge delicate: a merge that should leave
 nothing yields the empty list, and the next contributor is then taken as it is.
 */
module Constraints {
  import opened Prelude
  import opened Ordering

  datatype Limits = Limits(
    maxCost: Option<int>,
    maxRuntime: Option<int>,
    allowedDomains: seq<string>,
    allowedResourceIds: seq<string>,
    requireReview: bool)

  const UNRESTRICTED := Limits(None, None, [], [], false)

  function Lower(left: Option<int>, right: Option<int>): Option<int> {
    if left == None then right
    else if right == None then left
    else if left.value <= right.value then left
    else right
  }

  /** The elements of one list that the other has too, in the first list's order. */
  function Common(left: seq<string>, right: seq<string>): (r: seq<string>)
    ensures forall x :: x in r <==> x in left && x in right
  {
    if left == [] then []
    else
      assert left == [left[0]] + left[1..];
      if left[0] in right then [left[0]] + Common(left[1..], right) else Common(left[1..], right)
  }

  function Intersect(left: seq<string>, right: seq<string>): seq<string> {
    if left == [] then right
    else if right == [] then left
    else Canonical(Common(left, right))
  }

  /** The loop of the source: keep shared values once each, then sort. */
  method Intersection(left: seq<string>, right: seq<string>) returns (r: seq<string>)
    ensures r == Intersect(left, right)
    ensures left != [] && right != [] ==>
      Increasing(r) && Elements(r) == Elements(left) * Elements(right)
  {
    if |left| == 0 {
      return right;
    }
    if |right| == 0 {
      return left;
    }
    r := [];
    for i := 0 to |left|
      invariant Distinct(r)
      invariant forall x :: x in r <==> x in left[..i] && x in right
    {
      if left[i] in right && left[i] !in r {
        r := r + [left[i]];
      }
    }
    ghost var found := r;
    StringOrderIsTotal();
    r := SortBy(r, AtMost);
    SortedDistinctIsIncreasing(found, r);
    assert Elements(r) == Elements(left) * Elements(right);
    IntersectIsEnumeration(left, right);
    IncreasingUnique(r, Intersect(left, right));
  }

  lemma IntersectIsEnumeration(left: seq<string>, right: seq<string>)
    requires left != [] && right != []
    ensures Increasing(Intersect(left, right))
    ensures Elements(Intersect(left, right)) == Elements(left) * Elements(right)
  {
    assert Elements(Common(left, right)) == Elements(left) * Elements(right);
  }

  function Merge(current: Limits, incoming: Limits): Limits {
    Limits(
      Lower(current.maxCost, incoming.maxCost),
      Lower(current.maxRuntime, incoming.maxRuntime),
      Intersect(current.allowedDomains, incoming.allowedDomains),
      Intersect(current.allowedResourceIds, incoming.allowedResourceIds),
      current.requireReview || incoming.requireReview)
  }

  /** The limits left after merging contributors from first to last. */
  function MergeAll(cs: seq<Limits>): Limits {
    if cs == [] then UNRESTRICTED else Merge(MergeAll(cs[..|cs| - 1]), cs[|cs| - 1])
  }

  function LowerAll(caps: seq<Option<int>>): Option<int> {
    if caps == [] then None else Lower(LowerAll(caps[..|caps| - 1]), caps[|caps| - 1])
  }

  function IntersectAll(lists: seq<seq<string>>): seq<string> {
    if lists == [] then [] else Intersect(IntersectAll(lists[..|lists| - 1]), lists[|lists| - 1])
  }

  function Map<T, U>(f: T -> U, s: seq<T>): (r: seq<U>)
    ensures |r| == |s| && forall i | 0 <= i < |s| :: r[i] == f(s[i])
  {
    seq(|s|, i requires 0 <= i < |s| => f(s[i]))
  }

  const Cost := (c: Limits) => c.maxCost
  const Runtime := (c: Limits) => c.maxRuntime
  const Domains := (c: Limits) => c.allowedDomains
  const Resources := (c: Limits) => c.allowedResourceIds

  /** Each field of a merged sequence is the fold of that field alone. */
  lemma MergeAllByField(cs: seq<Limits>)
    ensures MergeAll(cs).maxCost == LowerAll(Map(Cost, cs))
    ensures MergeAll(cs).maxRuntime == LowerAll(Map(Runtime, cs))
    ensures MergeAll(cs).allowedDomains == IntersectAll(Map(Domains, cs))
    ensures MergeAll(cs).allowedResourceIds == IntersectAll(Map(Resources, cs))
    ensures MergeAll(cs).requireReview <==> exists c :: c in cs && c.requireReview
  {
    MergedCaps(cs);
    MergedLists(cs);
    MergedReview(cs);
  }

  lemma {:induction false} MergedCaps(cs: seq<Limits>)
    ensures MergeAll(cs).maxCost == LowerAll(Map(Cost, cs))
    ensures MergeAll(cs).maxRuntime == LowerAll(Map(Runtime, cs))
  {
    if cs != [] {
      var rest := cs[..|cs| - 1];
      MergedCaps(rest);
      assert Map(Cost, cs)[..|cs| - 1] == Map(Cost, rest);
      assert Map(Runtime, cs)[..|cs| - 1] == Map(Runtime, rest);
    }
  }

  lemma {:induction false} MergedLists(cs: seq<Limits>)
    ensures MergeAll(cs).allowedDomains == IntersectAll(Map(Domains, cs))
    ensures MergeAll(cs).allowedResourceIds == IntersectAll(Map(Resources, cs))
  {
    if cs != [] {
      var rest := cs[..|cs| - 1];
      MergedLists(rest);
      assert Map(Domains, cs)[..|cs| - 1] == Map(Domains, rest);
      assert Map(Resources, cs)[..|cs| - 1] == Map(Resources, rest);
    }
  }

  lemma {:induction false} MergedReview(cs: seq<Limits>)
    ensures MergeAll(cs).requireReview <==> exists c :: c in cs && c.requireReview
  {
    if cs != [] {
      assert cs == cs[..|cs| - 1] + [cs[|cs| - 1]];
      MergedReview(cs[..|cs| - 1]);
    }
  }

  /** The first contributor is taken over unchanged. */
  lemma MergeAllOne(c: Limits)
    ensures MergeAll([c]) == c
  {
    assert [c][..0] == [];
    assert MergeAll([]) == UNRESTRICTED;
  }

  // ----- numeric caps -----

  /** A merged cap is the minimum of the caps present, and absent only if none is. */
  lemma {:induction false} LowerAllIsMinimum(caps: seq<Option<int>>)
    ensures LowerAll(caps).Some? ==> LowerAll(caps) in caps
    ensures forall c :: c in caps && c.Some? ==> LowerAll(caps).Some? && LowerAll(caps).value <= c.value
  {
    if caps != [] {
      var rest, last := caps[..|caps| - 1], caps[|caps| - 1];
      assert forall c :: c in caps <==> c in rest || c == last;
      LowerAllIsMinimum(rest);
    }
  }

  lemma LowerAllPermutes(a: seq<Option<int>>, b: seq<Option<int>>)
    requires multiset(a) == multiset(b)
    ensures LowerAll(a) == LowerAll(b)
  {
    LowerAllIsMinimum(a);
    LowerAllIsMinimum(b);
    assert forall c :: c in a <==> c in multiset(a);
    assert forall c :: c in b <==> c in multiset(b);
  }

  // ----- allow-lists -----

  predicate Permits(list: seq<string>, x: string) {
    list == [] || x in list
  }

  predicate AllPermit(lists: seq<seq<string>>, x: string) {
    forall l :: l in lists ==> Permits(l, x)
  }

  function NonEmpty(lists: seq<seq<string>>): (r: seq<seq<string>>)
    ensures multiset(r) == multiset(lists)[[] := 0]
  {
    if lists == [] then []
    else
      assert lists == lists[..|lists| - 1] + [lists[|lists| - 1]];
      var rest := NonEmpty(lists[..|lists| - 1]);
      if lists[|lists| - 1] == [] then rest else rest + [lists[|lists| - 1]]
  }

  lemma NonEmptyMembers(lists: seq<seq<string>>)
    ensures forall l :: l in NonEmpty(lists) <==> l in lists && l != []
  {
    forall l ensures l in NonEmpty(lists) <==> l in lists && l != [] {
      assert l in NonEmpty(lists) <==> multiset(NonEmpty(lists))[l] > 0;
      assert l in lists <==> multiset(lists)[l] > 0;
    }
  }

  /**
   What a folded list stands for: nothing if no list restricts, the one restricting
   list as given, or else the enumeration of exactly the values that all permit.
   */
  ghost predicate Stands(list: seq<string>, lists: seq<seq<string>>) {
    && (|NonEmpty(lists)| == 0 <==> list == [])
    && (|NonEmpty(lists)| == 1 ==> list == NonEmpty(lists)[0])
    && (|NonEmpty(lists)| >= 2 ==> Increasing(list))
    && (forall x :: Permits(list, x) <==> AllPermit(lists, x))
  }

  lemma {:induction false} IntersectAllMeaning(lists: seq<seq<string>>, common: string)
    requires AllPermit(lists, common)
    ensures Stands(IntersectAll(lists), lists)
  {
    if lists == [] {
    } else {
      var rest, last := lists[..|lists| - 1], lists[|lists| - 1];
      assert forall l :: l in lists <==> l in rest || l == last;
      IntersectAllMeaning(rest, common);
      NonEmptyMembers(rest);
      assert forall x :: AllPermit(lists, x) <==> AllPermit(rest, x) && Permits(last, x);
      if last != [] && NonEmpty(rest) != [] {
        IntersectPermits(IntersectAll(rest), last, common);
      }
    }
  }

  lemma IntersectPermits(left: seq<string>, right: seq<string>, common: string)
    requires left != [] && right != [] && common in left && common in right
    ensures Intersect(left, right) != [] && Increasing(Intersect(left, right))
    ensures forall x :: Permits(Intersect(left, right), x) <==> Permits(left, x) && Permits(right, x)
  {
    IntersectIsEnumeration(left, right);
    forall x ensures x in Intersect(left, right) <==> x in left && x in right {
      assert x in Intersect(left, right) <==> x in Elements(Intersect(left, right));
    }
  }

  /** Lists standing for contributors with the same restrictions are equal. */
  lemma StandsUnique(a: seq<string>, la: seq<seq<string>>, b: seq<string>, lb: seq<seq<string>>)
    requires Stands(a, la) && Stands(b, lb)
    requires multiset(NonEmpty(la)) == multiset(NonEmpty(lb))
    requires forall x :: AllPermit(la, x) <==> AllPermit(lb, x)
    ensures a == b
  {
    assert |NonEmpty(la)| == |multiset(NonEmpty(la))| == |NonEmpty(lb)|;
    if |NonEmpty(la)| == 1 {
      assert NonEmpty(la)[0] in multiset(NonEmpty(lb));
    } else if |NonEmpty(la)| >= 2 {
      forall x ensures x in a <==> x in b {
        assert Permits(a, x) <==> Permits(b, x);
      }
      IncreasingUnique(a, b);
    }
  }

  /**
   The folded list permits exactly what every contributor permits if and only if
   some value is permitted by every contributor.
   */
  lemma IntersectAllExact(lists: seq<seq<string>>)
    ensures (forall x :: Permits(IntersectAll(lists), x) <==> AllPermit(lists, x))
            <==> (exists x :: AllPermit(lists, x))
  {
    if exists x :: AllPermit(lists, x) {
      var x :| AllPermit(lists, x);
      IntersectAllMeaning(lists, x);
    } else {
      var list := IntersectAll(lists);
      var x := if list == [] then "" else list[0];
      assert Permits(list, x) && !AllPermit(lists, x);
    }
  }

  /** Disjoint lists followed by a third: the third is let through unrestricted. */
  lemma DisjointListsForget()
    ensures IntersectAll([["a"], ["b"], ["c"]]) == ["c"]
    ensures !AllPermit([["a"], ["b"], ["c"]], "c")
  {
    var ls := [["a"], ["b"], ["c"]];
    assert ls[..2] == [["a"], ["b"]] && ls[..2][..1] == [["a"]] && ls[..2][..1][..0] == [];
    assert IntersectAll([["a"]]) == ["a"];
    assert Common(["a"], ["b"]) == [];
    assert IntersectAll(ls[..2]) == [];
    assert ["a"] in ls && "c" !in ["a"];
  }

  lemma IntersectAllPermutes(a: seq<seq<string>>, b: seq<seq<string>>, common: string)
    requires multiset(a) == multiset(b) && AllPermit(a, common)
    ensures IntersectAll(a) == IntersectAll(b)
  {
    assert forall l :: l in a <==> l in multiset(a);
    assert forall l :: l in b <==> l in multiset(b);
    assert forall x :: AllPermit(a, x) <==> AllPermit(b, x);
    IntersectAllMeaning(a, common);
    IntersectAllMeaning(b, common);
    StandsUnique(IntersectAll(a), a, IntersectAll(b), b);
  }

  lemma IntersectAllRegroups(a: seq<seq<string>>, b: seq<seq<string>>, common: string)
    requires AllPermit(a + b, common)
    ensures Intersect(IntersectAll(a), IntersectAll(b)) == IntersectAll(a + b)
  {
    assert forall l :: l in a + b <==> l in a || l in b;
    assert forall x :: AllPermit(a + b, x) <==> AllPermit(a, x) && AllPermit(b, x);
    IntersectAllMeaning(a, common);
    IntersectAllMeaning(b, common);
    IntersectAllMeaning(a + b, common);
    StandsAppend(IntersectAll(a), a, IntersectAll(b), b, common);
    StandsUnique(Intersect(IntersectAll(a), IntersectAll(b)), a + b, IntersectAll(a + b), a + b);
  }

  lemma StandsAppend(left: seq<string>, a: seq<seq<string>>, right: seq<string>, b: seq<seq<string>>, common: string)
    requires Stands(left, a) && Stands(right, b)
    requires Permits(left, common) && Permits(right, common)
    requires forall x :: AllPermit(a + b, x) <==> AllPermit(a, x) && AllPermit(b, x)
    ensures Stands(Intersect(left, right), a + b)
  {
    NonEmptyAppend(a, b);
    if left != [] && right != [] {
      IntersectPermits(left, right, common);
    }
  }

  lemma {:induction false} NonEmptyAppend(a: seq<seq<string>>, b: seq<seq<string>>)
    ensures NonEmpty(a + b) == NonEmpty(a) + NonEmpty(b)
  {
    if b == [] {
      assert a + b == a;
    } else {
      assert (a + b)[..|a + b| - 1] == a + b[..|b| - 1];
      NonEmptyAppend(a, b[..|b| - 1]);
    }
  }

  // ----- whole constraint records -----

  function Without<T>(s: seq<T>, j: nat): seq<T>
    requires j < |s|
  {
    s[..j] + s[j + 1..]
  }

  lemma WithoutOne<T>(s: seq<T>, j: nat)
    requires j < |s|
    ensures multiset(s) == multiset(Without(s, j)) + multiset{s[j]}
    ensures multiset(Without(s, j)) == multiset(s) - multiset{s[j]}
  {
    assert s == s[..j] + ([s[j]] + s[j + 1..]);
  }

  lemma MapWithout<T, U>(f: T -> U, s: seq<T>, j: nat)
    requires j < |s|
    ensures multiset(Map(f, s)) == multiset(Map(f, Without(s, j))) + multiset{f(s[j])}
  {
    WithoutOne(Map(f, s), j);
    assert Without(Map(f, s), j) == Map(f, Without(s, j));
  }

  lemma {:induction false} MapPermutes<T, U>(f: T -> U, a: seq<T>, b: seq<T>)
    requires multiset(a) == multiset(b)
    ensures multiset(Map(f, a)) == multiset(Map(f, b))
    decreases |a|
  {
    if a == [] {
      assert |b| == |multiset(a)|;
    } else {
      assert a[0] in multiset(b);
      var j :| 0 <= j < |b| && b[j] == a[0];
      WithoutOne(a, 0);
      WithoutOne(b, j);
      MapPermutes(f, Without(a, 0), Without(b, j));
      MapWithout(f, a, 0);
      MapWithout(f, b, j);
    }
  }

  /** Some domain and some resource are permitted by every contributor. */
  ghost predicate Agreeable(cs: seq<Limits>) {
    && (exists x :: AllPermit(Map(Domains, cs), x))
    && (exists x :: AllPermit(Map(Resources, cs), x))
  }

  /** The merge of agreeable contributors does not depend on their order. */
  lemma MergeAllPermutes(a: seq<Limits>, b: seq<Limits>)
    requires multiset(a) == multiset(b) && Agreeable(a)
    ensures MergeAll(a) == MergeAll(b)
  {
    MergeAllByField(a);
    MergeAllByField(b);
    MapPermutes(Cost, a, b);
    MapPermutes(Runtime, a, b);
    MapPermutes(Domains, a, b);
    MapPermutes(Resources, a, b);
    LowerAllPermutes(Map(Cost, a), Map(Cost, b));
    LowerAllPermutes(Map(Runtime, a), Map(Runtime, b));
    var x :| AllPermit(Map(Domains, a), x);
    IntersectAllPermutes(Map(Domains, a), Map(Domains, b), x);
    var y :| AllPermit(Map(Resources, a), y);
    IntersectAllPermutes(Map(Resources, a), Map(Resources, b), y);
    forall c ensures c in a <==> c in b {
      assert c in multiset(a) <==> c in multiset(b);
    }
  }

  /** Nor on how they are grouped into partial merges. */
  lemma MergeAllRegroups(a: seq<Limits>, b: seq<Limits>)
    requires Agreeable(a + b)
    ensures Merge(MergeAll(a), MergeAll(b)) == MergeAll(a + b)
  {
    MergeAllByField(a);
    MergeAllByField(b);
    MergeAllByField(a + b);
    CapsRegroup(a, b);
    ListsRegroup(a, b);
  }

  lemma CapsRegroup(a: seq<Limits>, b: seq<Limits>)
    ensures Lower(LowerAll(Map(Cost, a)), LowerAll(Map(Cost, b))) == LowerAll(Map(Cost, a + b))
    ensures Lower(LowerAll(Map(Runtime, a)), LowerAll(Map(Runtime, b))) == LowerAll(Map(Runtime, a + b))
  {
    assert Map(Cost, a + b) == Map(Cost, a) + Map(Cost, b);
    assert Map(Runtime, a + b) == Map(Runtime, a) + Map(Runtime, b);
    LowerAllRegroups(Map(Cost, a), Map(Cost, b));
    LowerAllRegroups(Map(Runtime, a), Map(Runtime, b));
  }

  lemma ListsRegroup(a: seq<Limits>, b: seq<Limits>)
    requires Agreeable(a + b)
    ensures Intersect(IntersectAll(Map(Domains, a)), IntersectAll(Map(Domains, b))) == IntersectAll(Map(Domains, a + b))
    ensures Intersect(IntersectAll(Map(Resources, a)), IntersectAll(Map(Resources, b)))
         == IntersectAll(Map(Resources, a + b))
  {
    assert Map(Domains, a + b) == Map(Domains, a) + Map(Domains, b);
    assert Map(Resources, a + b) == Map(Resources, a) + Map(Resources, b);
    var x :| AllPermit(Map(Domains, a + b), x);
    IntersectAllRegroups(Map(Domains, a), Map(Domains, b), x);
    var y :| AllPermit(Map(Resources, a + b), y);
    IntersectAllRegroups(Map(Resources, a), Map(Resources, b), y);
  }

  lemma {:induction false} LowerAllRegroups(a: seq<Option<int>>, b: seq<Option<int>>)
    ensures Lower(LowerAll(a), LowerAll(b)) == LowerAll(a + b)
  {
    if b == [] {
      assert a + b == a;
    } else {
      assert (a + b)[..|a + b| - 1] == a + b[..|b| - 1];
      LowerAllRegroups(a, b[..|b| - 1]);
    }
  }
}
