/** The list operations the access code is written with, and the order in
    which strings are sorted. */
module Lists {
  import opened Common

  function Filter<T>(s: seq<T>, keep: T -> bool): seq<T> {
    if s == [] then [] else (if keep(s[0]) then [s[0]] else []) + Filter(s[1..], keep)
  }

  function Map<A, B>(s: seq<A>, f: A -> B): seq<B> {
    if s == [] then [] else [f(s[0])] + Map(s[1..], f)
  }

  function FlatMap<A, B>(s: seq<A>, f: A -> seq<B>): seq<B> {
    if s == [] then [] else f(s[0]) + FlatMap(s[1..], f)
  }

  function Find<T>(s: seq<T>, test: T -> bool): Option<T> {
    if s == [] then None else if test(s[0]) then Some(s[0]) else Find(s[1..], test)
  }

  function Elements<T>(s: seq<T>): set<T> {
    set x | x in s
  }

  lemma {:induction false} FilterKeeps<T>(s: seq<T>, keep: T -> bool)
    ensures forall x :: x in Filter(s, keep) <==> x in s && keep(x)
  {
    if s == [] {
    } else {
      FilterKeeps(s[1..], keep);
    }
  }

  lemma {:induction false} FilterAgrees<T>(s: seq<T>, p: T -> bool, q: T -> bool)
    requires forall x :: x in s ==> p(x) == q(x)
    ensures Filter(s, p) == Filter(s, q)
  {
    if s == [] {
    } else {
      FilterAgrees(s[1..], p, q);
    }
  }

  function IfKept<T>(x: T, keep: T -> bool): seq<T> {
    if keep(x) then [x] else []
  }

  lemma {:induction false} FilterConcat<T>(s: seq<T>, t: seq<T>, keep: T -> bool)
    ensures Filter(s + t, keep) == Filter(s, keep) + Filter(t, keep)
  {
    if s == [] {
      assert s + t == t;
    } else {
      FilterConcat(s[1..], t, keep);
      FilterHead(s, keep);
      FilterHead(s + t, keep);
      assert (s + t)[0] == s[0] && (s + t)[1..] == s[1..] + t;
    }
  }

  lemma FilterHead<T>(s: seq<T>, keep: T -> bool)
    requires s != []
    ensures Filter(s, keep) == IfKept(s[0], keep) + Filter(s[1..], keep)
  {
  }

  lemma Without<T>(s: seq<T>, k: nat)
    requires k < |s|
    ensures multiset(s[..k] + s[k + 1..]) == multiset(s) - multiset{s[k]}
  {
    assert s == s[..k] + [s[k]] + s[k + 1..];
  }

  lemma FilterAround<T>(s: seq<T>, k: nat, keep: T -> bool)
    requires k < |s|
    ensures multiset(Filter(s, keep)) == multiset(IfKept(s[k], keep)) + multiset(Filter(s[..k] + s[k + 1..], keep))
  {
    hide Filter, IfKept;
    FilterConcat(s[..k], s[k + 1..], keep);
    FilterConcat(s[..k], s[k..], keep);
    FilterHead(s[k..], keep);
    assert s == s[..k] + s[k..];
    assert s[k..][1..] == s[k + 1..];
  }

  /** Filtering two arrangements of the same list keeps the same items
      equally often. */
  lemma {:induction false} FilterUnordered<T>(s: seq<T>, t: seq<T>, keep: T -> bool)
    requires multiset(s) == multiset(t)
    ensures multiset(Filter(s, keep)) == multiset(Filter(t, keep))
  {
    hide Filter, IfKept;
    if s == [] {
      assert |t| == |multiset(t)| == 0;
    } else {
      assert s[0] in multiset(t);
      var k :| 0 <= k < |t| && t[k] == s[0];
      Without(s, 0);
      Without(t, k);
      FilterUnordered(s[..0] + s[1..], t[..k] + t[k + 1..], keep);
      FilterAround(s, 0, keep);
      FilterAround(t, k, keep);
    }
  }

  lemma {:induction false} MapMembers<A, B>(s: seq<A>, f: A -> B)
    ensures |Map(s, f)| == |s|
    ensures forall i :: 0 <= i < |s| ==> Map(s, f)[i] == f(s[i])
    ensures forall y :: y in Map(s, f) <==> exists x :: x in s && f(x) == y
  {
    if s == [] {
    } else {
      MapMembers(s[1..], f);
    }
  }

  lemma {:induction false} FlatMapMember<A, B>(s: seq<A>, f: A -> seq<B>, y: B)
    ensures y in FlatMap(s, f) <==> exists x :: x in s && y in f(x)
  {
    if s == [] {
    } else {
      FlatMapMember(s[1..], f, y);
      if y in f(s[0]) {
        assert s[0] in s;
      }
    }
  }

  lemma FlatMapMembers<A, B>(s: seq<A>, f: A -> seq<B>)
    ensures forall y :: y in FlatMap(s, f) <==> exists x :: x in s && y in f(x)
  {
    forall y ensures y in FlatMap(s, f) <==> exists x :: x in s && y in f(x) {
      FlatMapMember(s, f, y);
    }
  }

  lemma {:induction false} FlatMapAgrees<A, B>(s: seq<A>, f: A -> seq<B>, g: A -> seq<B>)
    requires forall x :: x in s ==> f(x) == g(x)
    ensures FlatMap(s, f) == FlatMap(s, g)
  {
    if s == [] {
    } else {
      FlatMapAgrees(s[1..], f, g);
    }
  }

  lemma {:induction false} MapConcat<A, B>(s: seq<A>, t: seq<A>, f: A -> B)
    ensures Map(s + t, f) == Map(s, f) + Map(t, f)
  {
    if s == [] {
      assert s + t == t;
    } else {
      MapConcat(s[1..], t, f);
      assert (s + t)[0] == s[0] && (s + t)[1..] == s[1..] + t;
    }
  }

  lemma MapAround<A, B>(s: seq<A>, k: nat, f: A -> B)
    requires k < |s|
    ensures multiset(Map(s, f)) == multiset{f(s[k])} + multiset(Map(s[..k] + s[k + 1..], f))
  {
    MapConcat(s[..k], s[k + 1..], f);
    MapConcat(s[..k], s[k..], f);
    assert s == s[..k] + s[k..];
    assert s[k..][1..] == s[k + 1..];
  }

  lemma {:induction false} MapUnordered<A, B>(s: seq<A>, t: seq<A>, f: A -> B)
    requires multiset(s) == multiset(t)
    ensures multiset(Map(s, f)) == multiset(Map(t, f))
  {
    hide Map;
    if s == [] {
      assert |t| == |multiset(t)| == 0;
    } else {
      assert s[0] in multiset(t);
      var k :| 0 <= k < |t| && t[k] == s[0];
      Without(s, 0);
      Without(t, k);
      MapUnordered(s[..0] + s[1..], t[..k] + t[k + 1..], f);
      MapAround(s, 0, f);
      MapAround(t, k, f);
    }
  }

  lemma {:induction false} FindFirst<T>(s: seq<T>, test: T -> bool)
    ensures Find(s, test).Some? ==> Find(s, test).value in s && test(Find(s, test).value)
    ensures Find(s, test).None? ==> forall x :: x in s ==> !test(x)
  {
    if s == [] {
    } else {
      FindFirst(s[1..], test);
    }
  }

  // ---------------------------------------------------------------------
  // Sorting strings

  /** `a` sorts before `b` or equals it: character by character. */
  predicate Before(a: string, b: string) {
    a == "" || (b != "" && (a[0] < b[0] || (a[0] == b[0] && Before(a[1..], b[1..]))))
  }

  predicate Ordered(s: seq<string>) {
    forall i, j :: 0 <= i < j < |s| ==> Before(s[i], s[j])
  }

  /** One that the other starts with sorts first; else the first character in
      which they differ decides. */
  lemma {:induction false} BeforeIff(a: string, b: string)
    ensures Before(a, b) <==>
      exists n :: 0 <= n <= |a| && n <= |b| && a[..n] == b[..n] && (n == |a| || (n < |b| && a[n] < b[n]))
  {
    if a == "" {
      assert a[..0] == b[..0];
    } else if b == "" || a[0] != b[0] {
      assert a[..0] == b[..0];
      forall n | 0 < n <= |a| && n <= |b| ensures a[..n] != b[..n] {
        assert a[..n][0] != b[..n][0];
      }
    } else {
      BeforeIff(a[1..], b[1..]);
      var c, d := a[1..], b[1..];
      if n :| 0 <= n <= |c| && n <= |d| && c[..n] == d[..n] && (n == |c| || (n < |d| && c[n] < d[n])) {
        assert a[..n + 1] == [a[0]] + a[1..][..n] && b[..n + 1] == [b[0]] + b[1..][..n];
        assert n < |a[1..]| ==> a[n + 1] == a[1..][n];
        assert n < |b[1..]| ==> b[n + 1] == b[1..][n];
      }
      if n :| 0 <= n <= |a| && n <= |b| && a[..n] == b[..n] && (n == |a| || (n < |b| && a[n] < b[n])) {
        assert n > 0;
        assert a[1..][..n - 1] == a[..n][1..] && b[1..][..n - 1] == b[..n][1..];
      }
    }
  }

  lemma {:induction false} BeforeIsTotal(a: string, b: string)
    ensures Before(a, b) || Before(b, a)
    ensures Before(a, b) && Before(b, a) ==> a == b
  {
    if a != "" && b != "" && a[0] == b[0] {
      BeforeIsTotal(a[1..], b[1..]);
      assert a == [a[0]] + a[1..] && b == [b[0]] + b[1..];
    }
  }

  lemma {:induction false} BeforeIsTransitive(a: string, b: string, c: string)
    requires Before(a, b) && Before(b, c)
    ensures Before(a, c)
  {
    if a != "" && a[0] == b[0] && b[0] == c[0] {
      BeforeIsTransitive(a[1..], b[1..], c[1..]);
    }
  }

  function InsertBy<T>(x: T, s: seq<T>, first: (T, T) -> bool): seq<T> {
    if s == [] || first(x, s[0]) then [x] + s else [s[0]] + InsertBy(x, s[1..], first)
  }

  function SortBy<T>(s: seq<T>, first: (T, T) -> bool): seq<T> {
    if s == [] then [] else InsertBy(s[0], SortBy(s[1..], first), first)
  }

  function Sort(s: seq<string>): seq<string> {
    SortBy(s, Before)
  }

  lemma {:induction false} InsertCounts<T>(x: T, s: seq<T>, first: (T, T) -> bool)
    ensures multiset(InsertBy(x, s, first)) == multiset{x} + multiset(s)
  {
    if s != [] && !first(x, s[0]) {
      InsertCounts(x, s[1..], first);
      assert s == [s[0]] + s[1..];
    }
  }

  /** Sorting rearranges, whatever the order is. */
  lemma {:induction false} SortRearranges<T>(s: seq<T>, first: (T, T) -> bool)
    ensures multiset(SortBy(s, first)) == multiset(s)
  {
    if s == [] {
    } else {
      SortRearranges(s[1..], first);
      InsertCounts(s[0], SortBy(s[1..], first), first);
      assert s == [s[0]] + s[1..];
    }
  }

  lemma {:induction false} InsertOrders(x: string, s: seq<string>)
    requires Ordered(s)
    ensures Ordered(InsertBy(x, s, Before))
  {
    if s == [] {
    } else if Before(x, s[0]) {
      forall j | 0 <= j < |s| ensures Before(x, s[j]) {
        if j > 0 { BeforeIsTransitive(x, s[0], s[j]); }
      }
    } else {
      InsertOrders(x, s[1..]);
      InsertCounts(x, s[1..], Before);
      BeforeIsTotal(x, s[0]);
      forall y | y in InsertBy(x, s[1..], Before) ensures Before(s[0], y) {
        assert y in multiset(InsertBy(x, s[1..], Before));
      }
    }
  }

  lemma {:induction false} SortOrders(s: seq<string>)
    ensures Ordered(Sort(s))
    ensures multiset(Sort(s)) == multiset(s)
  {
    SortRearranges(s, Before);
    if s == [] {
    } else {
      SortOrders(s[1..]);
      InsertOrders(s[0], Sort(s[1..]));
    }
  }

  lemma HeadFirst(s: seq<string>, x: string)
    requires Ordered(s) && x in s
    ensures Before(s[0], x)
  {
    BeforeIsTotal(x, x);
  }

  lemma TailCounts<T>(s: seq<T>)
    requires s != []
    ensures multiset(s[1..]) == multiset(s) - multiset{s[0]}
  {
    assert s == [s[0]] + s[1..];
  }

  lemma SameHead(s: seq<string>, t: seq<string>)
    requires Ordered(s) && Ordered(t) && multiset(s) == multiset(t) && s != []
    ensures t != [] && s[0] == t[0]
  {
    assert s[0] in multiset(t);
    assert t[0] in multiset(s);
    HeadFirst(s, t[0]);
    HeadFirst(t, s[0]);
    BeforeIsTotal(s[0], t[0]);
  }

  /** There is only one way to sort a list of strings. */
  lemma {:induction false} OrderedOnce(s: seq<string>, t: seq<string>)
    requires Ordered(s) && Ordered(t) && multiset(s) == multiset(t)
    ensures s == t
  {
    if s == [] {
      assert |t| == |multiset(t)| == 0;
    } else {
      SameHead(s, t);
      TailCounts(s);
      TailCounts(t);
      OrderedOnce(s[1..], t[1..]);
      assert s == [s[0]] + s[1..] && t == [t[0]] + t[1..];
    }
  }

  lemma SortUnordered(s: seq<string>, t: seq<string>)
    requires multiset(s) == multiset(t)
    ensures Sort(s) == Sort(t)
  {
    SortOrders(s);
    SortOrders(t);
    OrderedOnce(Sort(s), Sort(t));
  }

  /** Each item once, where it first appears. */
  function Distinct<T(==)>(s: seq<T>): seq<T> {
    if s == [] then []
    else
      var init := s[..|s| - 1];
      Distinct(init) + (if s[|s| - 1] in init then [] else [s[|s| - 1]])
  }

  lemma {:induction false} DistinctElements<T>(s: seq<T>)
    ensures forall x :: x in Distinct(s) <==> x in s
  {
    if s == [] {
    } else {
      var init, last := s[..|s| - 1], s[|s| - 1];
      DistinctElements(init);
      assert s == init + [last];
    }
  }

  lemma {:induction false} KeptOccurs<T>(s: seq<T>, i: nat)
    requires i < |Distinct(s)|
    ensures exists p :: 0 <= p < |s| && s[p] == Distinct(s)[i]
  {
    if s == [] {
    } else {
      var init := s[..|s| - 1];
      if i < |Distinct(init)| {
        KeptOccurs(init, i);
        var p :| 0 <= p < |init| && init[p] == Distinct(init)[i];
        assert s[p] == init[p];
      } else {
        assert s[|s| - 1] == Distinct(s)[i];
      }
    }
  }

  /** Of two items kept, the one kept first occurs before the other does. */
  lemma {:induction false} DistinctKeepsOrder<T>(s: seq<T>, i: nat, j: nat)
    requires i < j < |Distinct(s)|
    ensures exists p :: 0 <= p < |s| && s[p] == Distinct(s)[i] && forall q :: 0 <= q <= p ==> s[q] != Distinct(s)[j]
  {
    if s == [] {
    } else {
      var init, kept := s[..|s| - 1], Distinct(s[..|s| - 1]);
      DistinctElements(init);
      if j < |kept| {
        DistinctKeepsOrder(init, i, j);
        var p :| 0 <= p < |init| && init[p] == kept[i] && forall q :: 0 <= q <= p ==> init[q] != kept[j];
        assert s[p] == init[p] && forall q :: 0 <= q <= p ==> s[q] == init[q];
      } else {
        assert Distinct(s) == kept + [s[|s| - 1]] && j == |kept|;
        KeptOccurs(init, i);
        var p :| 0 <= p < |init| && init[p] == kept[i];
        assert s[p] == kept[i] && forall q :: 0 <= q <= p ==> s[q] == init[q] && init[q] in init;
      }
    }
  }

  lemma {:induction false} DistinctOnce<T>(s: seq<T>, x: T)
    ensures multiset(Distinct(s))[x] == if x in s then 1 else 0
  {
    if s == [] {
    } else {
      var init, last := s[..|s| - 1], s[|s| - 1];
      DistinctOnce(init, x);
      assert s == init + [last];
    }
  }

  lemma DistinctUnordered(s: seq<string>, t: seq<string>)
    requires Elements(s) == Elements(t)
    ensures multiset(Distinct(s)) == multiset(Distinct(t))
  {
    forall x: string ensures multiset(Distinct(s))[x] == multiset(Distinct(t))[x] {
      DistinctOnce(s, x);
      DistinctOnce(t, x);
      assert x in Elements(s) <==> x in Elements(t);
    }
  }

  /** A list without repeats, sorted. */
  function SortedSet(s: seq<string>): seq<string> {
    Sort(Distinct(s))
  }

  lemma SortedSetMembers(s: seq<string>)
    ensures Ordered(SortedSet(s))
    ensures forall x :: multiset(SortedSet(s))[x] == if x in s then 1 else 0
    ensures forall x :: x in SortedSet(s) <==> x in s
  {
    SortOrders(Distinct(s));
    forall x ensures multiset(SortedSet(s))[x] == if x in s then 1 else 0 {
      DistinctOnce(s, x);
    }
    assert forall x :: x in SortedSet(s) <==> x in multiset(SortedSet(s));
  }

  lemma SortedSetUnordered(s: seq<string>, t: seq<string>)
    requires Elements(s) == Elements(t)
    ensures SortedSet(s) == SortedSet(t)
  {
    DistinctUnordered(s, t);
    SortUnordered(Distinct(s), Distinct(t));
  }

  /** The usual test that a list has no repeats. */
  lemma {:induction false} NoRepeats<T>(s: seq<T>)
    ensures |Elements(s)| <= |s|
    ensures |Elements(s)| == |s| <==> forall i, j :: 0 <= i < j < |s| ==> s[i] != s[j]
  {
    if s == [] {
    } else {
      var init, last := s[..|s| - 1], s[|s| - 1];
      NoRepeats(init);
      assert s == init + [last];
      assert Elements(s) == Elements(init) + {last};
      if last in init {
        var i :| 0 <= i < |init| && init[i] == last;
        assert s[i] == s[|s| - 1];
        assert Elements(s) == Elements(init);
      }
    }
  }

  /** The i-th item of one item and three lists. */
  lemma InPieces<T>(head: T, a: seq<T>, b: seq<T>, c: seq<T>, i: nat)
    requires i < 1 + |a| + |b| + |c|
    ensures
      var all := [head] + (a + b + c);
      && |all| == 1 + |a| + |b| + |c|
      && all[i] ==
         if i == 0 then head
         else if i < 1 + |a| then a[i - 1]
         else if i < 1 + |a| + |b| then b[i - 1 - |a|]
         else c[i - 1 - |a| - |b|]
  {
  }
}
