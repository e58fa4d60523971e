/** Minute-of-day spans and the interval algebra behind the week calendar.

    A span is half-open and non-empty. `Canonical` sequences (sorted, with a
    positive gap between neighbours) are the normal form: two of them that
    cover the same minutes are equal, so a result that is canonical and
    covers the right minutes is completely determined. */
module Spans {

  datatype Bounds = Span(start: int, end: int)

  type Span = s: Bounds | s.start < s.end witness Span(0, 1)

  function Min(a: int, b: int): int { if a < b then a else b }

  function Max(a: int, b: int): int { if a < b then b else a }

  ghost predicate Between(start: int, m: int, end: int) { start <= m < end }

  ghost function Range(start: int, end: int): iset<int> { iset m | Between(start, m, end) }

  /** The minutes a sequence of spans covers. */
  ghost function Minutes(ss: seq<Span>): iset<int> {
    if ss == [] then iset{}
    else Minutes(ss[..|ss| - 1]) + Range(ss[|ss| - 1].start, ss[|ss| - 1].end)
  }

  ghost predicate Canonical(ss: seq<Span>) {
    forall i, j :: 0 <= i < j < |ss| ==> ss[i].end < ss[j].start
  }

  /** Ordered and pairwise disjoint; neighbours may touch. */
  ghost predicate Disjoint(ss: seq<Span>) {
    forall i, j :: 0 <= i < j < |ss| ==> ss[i].end <= ss[j].start
  }

  ghost predicate Within(ss: seq<Span>, start: int, end: int) {
    forall i :: 0 <= i < |ss| ==> start <= ss[i].start && ss[i].end <= end
  }

  lemma MinutesAppend(ss: seq<Span>, s: Span)
    ensures Minutes(ss + [s]) == Minutes(ss) + Range(s.start, s.end)
  {
    assert (ss + [s])[..|ss|] == ss;
  }

  lemma {:induction false} MinutesConcat(a: seq<Span>, b: seq<Span>)
    ensures Minutes(a + b) == Minutes(a) + Minutes(b)
  {
    if b == [] {
      assert a + b == a;
    } else {
      var last := b[|b| - 1];
      MinutesConcat(a, b[..|b| - 1]);
      MinutesAppend(a + b[..|b| - 1], last);
      assert a + b == a + b[..|b| - 1] + [last];
    }
  }

  lemma {:induction false} MinutesWithin(ss: seq<Span>, start: int, end: int)
    requires Within(ss, start, end)
    ensures Minutes(ss) <= Range(start, end)
  {
    if ss == [] {
    } else {
      MinutesWithin(ss[..|ss| - 1], start, end);
    }
  }

  lemma {:induction false} MinutesAt(ss: seq<Span>, k: nat)
    requires k < |ss|
    ensures Range(ss[k].start, ss[k].end) <= Minutes(ss)
  {
    if k < |ss| - 1 { MinutesAt(ss[..|ss| - 1], k); }
  }

  // ---------------------------------------------------------------------
  // The normal form is unique

  lemma LastSpan(ss: seq<Span>)
    requires Canonical(ss) && ss != []
    ensures var last := ss[|ss| - 1];
      && last.start in Minutes(ss) && last.end - 1 in Minutes(ss) && last.start - 1 !in Minutes(ss)
      && (forall m :: m in Minutes(ss) ==> m < last.end)
      && Minutes(ss[..|ss| - 1]) == Minutes(ss) - Range(last.start - 1, last.end)
  {
    var init, last := ss[..|ss| - 1], ss[|ss| - 1];
    if init != [] {
      var low := if |init| == 0 then 0 else FirstStart(init);
      assert Within(init, low, last.start - 1);
      MinutesWithin(init, low, last.start - 1);
    }
  }

  function FirstStart(ss: seq<Span>): int
    requires ss != []
    ensures Canonical(ss) ==> forall i :: 0 <= i < |ss| ==> FirstStart(ss) <= ss[i].start
  {
    ss[0].start
  }

  lemma SameLast(a: seq<Span>, b: seq<Span>)
    requires Canonical(a) && Canonical(b) && Minutes(a) == Minutes(b) && a != [] && b != []
    ensures a[|a| - 1] == b[|b| - 1]
  {
    var la, lb := a[|a| - 1], b[|b| - 1];
    LastSpan(a);
    LastSpan(b);
    MinutesAt(a, |a| - 1);
    MinutesAt(b, |b| - 1);
    assert la.end == lb.end;
    assert la.start - 1 !in Range(lb.start, lb.end);
    assert lb.start - 1 !in Range(la.start, la.end);
  }

  lemma InitMinutes(a: seq<Span>)
    requires Canonical(a) && a != []
    ensures Canonical(a[..|a| - 1])
    ensures Minutes(a[..|a| - 1]) == Minutes(a) - Range(a[|a| - 1].start - 1, a[|a| - 1].end)
  {
    LastSpan(a);
  }

  lemma SomeMinute(a: seq<Span>)
    ensures a != [] ==> a[|a| - 1].start in Minutes(a)
  {
  }

  /** Two canonical sequences covering the same minutes are the same sequence. */
  lemma {:induction false} CanonicalUnique(a: seq<Span>, b: seq<Span>)
    requires Canonical(a) && Canonical(b) && Minutes(a) == Minutes(b)
    ensures a == b
    decreases |a|
  {
    if a == [] {
      SomeMinute(b);
    } else if b == [] {
      SomeMinute(a);
    } else {
      SameLast(a, b);
      InitMinutes(a);
      InitMinutes(b);
      CanonicalUnique(a[..|a| - 1], b[..|b| - 1]);
      assert a == a[..|a| - 1] + [a[|a| - 1]] && b == b[..|b| - 1] + [b[|b| - 1]];
    }
  }

  // ---------------------------------------------------------------------
  // Reference merge: absorb the spans one at a time, in any order

  function Absorb(s: Span, c: seq<Span>): (r: seq<Span>)
    decreases |c|
  {
    if c == [] then [s]
    else
      var last := c[|c| - 1];
      if last.end < s.start then c + [s]
      else if s.end < last.start then Absorb(s, c[..|c| - 1]) + [last]
      else Absorb(Span(Min(s.start, last.start), Max(s.end, last.end)), c[..|c| - 1])
  }

  function Merge(ss: seq<Span>): (r: seq<Span>) {
    if ss == [] then [] else Absorb(ss[|ss| - 1], Merge(ss[..|ss| - 1]))
  }

  lemma {:induction false} AbsorbCovers(s: Span, c: seq<Span>)
    ensures Minutes(Absorb(s, c)) == Minutes(c) + Range(s.start, s.end)
    decreases |c|
  {
    if c == [] {
      MinutesAppend([], s);
      assert [] + [s] == [s];
    } else {
      var init, last := c[..|c| - 1], c[|c| - 1];
      if last.end < s.start {
        MinutesAppend(c, s);
      } else if s.end < last.start {
        AbsorbCovers(s, init);
        MinutesAppend(Absorb(s, init), last);
      } else {
        var both := Span(Min(s.start, last.start), Max(s.end, last.end));
        AbsorbCovers(both, init);
        assert Range(both.start, both.end) == Range(last.start, last.end) + Range(s.start, s.end);
        assert Minutes(c) == Minutes(init) + Range(last.start, last.end);
      }
    }
  }

  lemma {:induction false} AbsorbCanonical(s: Span, c: seq<Span>, bound: int)
    requires Canonical(c) && s.end <= bound
    requires forall k :: 0 <= k < |c| ==> c[k].end <= bound
    ensures Canonical(Absorb(s, c))
    ensures forall k :: 0 <= k < |Absorb(s, c)| ==> Absorb(s, c)[k].end <= bound
    decreases |c|
  {
    if c == [] {
    } else {
      var init, last := c[..|c| - 1], c[|c| - 1];
      if last.end < s.start {
      } else if s.end < last.start {
        AbsorbCanonical(s, init, last.start - 1);
      } else {
        AbsorbCanonical(Span(Min(s.start, last.start), Max(s.end, last.end)), init, bound);
      }
    }
  }

  lemma {:induction false} MergeCanonical(ss: seq<Span>)
    ensures Canonical(Merge(ss)) && Minutes(Merge(ss)) == Minutes(ss)
  {
    if ss == [] {
    } else {
      var s, c := ss[|ss| - 1], Merge(ss[..|ss| - 1]);
      MergeCanonical(ss[..|ss| - 1]);
      var bound := if c == [] then s.end else Max(s.end, c[|c| - 1].end);
      forall k | 0 <= k < |c| ensures c[k].end <= bound {
        assert k < |c| - 1 ==> c[k].end < c[|c| - 1].start;
      }
      AbsorbCanonical(s, c, bound);
      AbsorbCovers(s, c);
    }
  }

  /** Merge(ss) is the one canonical sequence with the minutes of ss. */
  lemma MergeIsNormalForm(ss: seq<Span>, r: seq<Span>)
    ensures r == Merge(ss) <==> Canonical(r) && Minutes(r) == Minutes(ss)
  {
    MergeCanonical(ss);
    if Canonical(r) && Minutes(r) == Minutes(ss) { CanonicalUnique(r, Merge(ss)); }
  }

  /** The merge depends on the minutes covered and on nothing else. */
  lemma MergeDependsOnMinutesOnly(a: seq<Span>, b: seq<Span>)
    ensures Merge(a) == Merge(b) <==> Minutes(a) == Minutes(b)
  {
    MergeCanonical(a);
    MergeCanonical(b);
    MergeIsNormalForm(b, Merge(a));
  }

  lemma {:induction false} MinutesUnordered(a: seq<Span>, b: seq<Span>)
    requires forall s :: s in a ==> s in b
    ensures Minutes(a) <= Minutes(b)
  {
    if a == [] {
    } else {
      MinutesUnordered(a[..|a| - 1], b);
      assert a[|a| - 1] in b;
      var k :| 0 <= k < |b| && b[k] == a[|a| - 1];
      MinutesAt(b, k);
    }
  }

  lemma MergeIdempotentAndUnordered(a: seq<Span>, b: seq<Span>)
    ensures Merge(Merge(a)) == Merge(a)
    ensures multiset(a) == multiset(b) ==> Merge(a) == Merge(b)
  {
    MergeCanonical(a);
    MergeDependsOnMinutesOnly(Merge(a), a);
    if multiset(a) == multiset(b) {
      forall s ensures s in a <==> s in b { assert s in multiset(a) <==> s in multiset(b); }
      MinutesUnordered(a, b);
      MinutesUnordered(b, a);
      MergeDependsOnMinutesOnly(a, b);
    }
  }

  // ---------------------------------------------------------------------
  // Span objects, as the page holds them

  class MinuteSpan {
    var start: int
    var end: int

    constructor (start: int, end: int)
      ensures this.start == start && this.end == end
    {
      this.start, this.end := start, end;
    }
  }

  predicate NonEmpty(ss: seq<MinuteSpan>)
    reads ss
  {
    forall i :: 0 <= i < |ss| ==> ss[i].start < ss[i].end
  }

  function Values(ss: seq<MinuteSpan>): (r: seq<Span>)
    reads ss
    requires NonEmpty(ss)
    ensures |r| == |ss|
    ensures forall i :: 0 <= i < |ss| ==> r[i] == Span(ss[i].start, ss[i].end)
  {
    if ss == [] then [] else Values(ss[..|ss| - 1]) + [Span(ss[|ss| - 1].start, ss[|ss| - 1].end)]
  }

  lemma ValuesAppend(a: seq<MinuteSpan>, b: seq<MinuteSpan>)
    requires NonEmpty(a) && NonEmpty(b)
    ensures NonEmpty(a + b) && Values(a + b) == Values(a) + Values(b)
  {
  }

  /** The library sort: stable, by start. */
  function SortedByStart(ss: seq<Span>): (r: seq<Span>)
    ensures Minutes(r) == Minutes(ss)
    ensures forall i, j :: 0 <= i < j < |r| ==> r[i].start <= r[j].start
  {
    if ss == [] then [] else InsertByStart(SortedByStart(ss[..|ss| - 1]), ss[|ss| - 1])
  }

  function InsertByStart(ss: seq<Span>, x: Span): (r: seq<Span>)
    requires forall i, j :: 0 <= i < j < |ss| ==> ss[i].start <= ss[j].start
    ensures |r| == |ss| + 1
    ensures Minutes(r) == Minutes(ss) + Range(x.start, x.end)
    ensures forall i, j :: 0 <= i < j < |r| ==> r[i].start <= r[j].start
    ensures ss != [] ==> r[|r| - 1].start == Max(ss[|ss| - 1].start, x.start)
  {
    if ss == [] || ss[|ss| - 1].start <= x.start then
      MinutesAppend(ss, x);
      ss + [x]
    else
      var init, last := ss[..|ss| - 1], ss[|ss| - 1];
      assert ss == init + [last];
      MinutesAppend(InsertByStart(init, x), last);
      InsertByStart(init, x) + [last]
  }

  ghost predicate StartsBy(ss: seq<Span>, start: int) {
    forall i :: 0 <= i < |ss| ==> ss[i].start <= start
  }

  /** The scan opens a new span: s starts after everything merged so far. */
  lemma ScanOpen(merged: seq<Span>, s: Span)
    requires Canonical(merged) && StartsBy(merged, s.start)
    requires merged != [] ==> merged[|merged| - 1].end < s.start
    ensures Canonical(merged + [s]) && StartsBy(merged + [s], s.start)
    ensures Minutes(merged + [s]) == Minutes(merged) + Range(s.start, s.end)
  {
    hide Minutes;
    MinutesAppend(merged, s);
    forall i | 0 <= i < |merged| ensures merged[i].end < s.start {
      assert i < |merged| - 1 ==> merged[i].end < merged[|merged| - 1].start;
    }
  }

  /** The scan widens its last span: s starts inside it or at its end. */
  lemma ScanWiden(merged: seq<Span>, s: Span, wide: Span)
    requires Canonical(merged) && StartsBy(merged, s.start)
    requires merged != [] && s.start <= merged[|merged| - 1].end
    requires wide == Span(merged[|merged| - 1].start, Max(merged[|merged| - 1].end, s.end))
    ensures var next := merged[..|merged| - 1] + [wide];
      Canonical(next) && StartsBy(next, s.start) && Minutes(next) == Minutes(merged) + Range(s.start, s.end)
  {
    var last := merged[|merged| - 1];
    MinutesAppend(merged[..|merged| - 1], wide);
    assert Range(wide.start, wide.end) == Range(last.start, last.end) + Range(s.start, s.end);
  }

  /** `merged` is the canonical form of the first n sorted spans. */
  ghost predicate Scanned(merged: seq<Span>, sorted: seq<Span>, n: nat) {
    && n <= |sorted|
    && Canonical(merged)
    && Minutes(merged) == Minutes(sorted[..n])
    && (n < |sorted| ==> StartsBy(merged, sorted[n].start))
  }

  /** What one turn of the scan does to the merged list. */
  function ScanNext(merged: seq<Span>, s: Span): seq<Span> {
    if merged != [] && s.start <= merged[|merged| - 1].end
    then merged[..|merged| - 1] + [Span(merged[|merged| - 1].start, Max(merged[|merged| - 1].end, s.end))]
    else merged + [s]
  }

  lemma ScanStep(merged: seq<Span>, sorted: seq<Span>, n: nat)
    requires n < |sorted| && Scanned(merged, sorted, n)
    requires n + 1 < |sorted| ==> sorted[n].start <= sorted[n + 1].start
    ensures Scanned(ScanNext(merged, sorted[n]), sorted, n + 1)
  {
    var s := sorted[n];
    assert sorted[..n + 1][..n] == sorted[..n];
    if merged != [] && s.start <= merged[|merged| - 1].end {
      ScanWiden(merged, s, Span(merged[|merged| - 1].start, Max(merged[|merged| - 1].end, s.end)));
    } else {
      ScanOpen(merged, s);
    }
  }

  /** Span objects that nobody else holds. */
  twostate predicate Owned(new ss: seq<MinuteSpan>) {
    forall i :: 0 <= i < |ss| ==> fresh(ss[i])
  }

  /** The last span is widened in place to reach `end`, if it does not. */
  method WidenLast(merged: seq<MinuteSpan>, end: int)
    requires NonEmpty(merged) && merged != []
    requires Canonical(Values(merged))
    modifies merged[|merged| - 1]
    ensures NonEmpty(merged)
    ensures Values(merged) == var before := old(Values(merged));
      before[..|merged| - 1] + [Span(before[|merged| - 1].start, Max(before[|merged| - 1].end, end))]
  {
    var last := merged[|merged| - 1];
    last.end := if last.end < end then end else last.end;
  }

  /** A fresh copy of the span is appended. */
  method PushCopy(merged: seq<MinuteSpan>, s: Span) returns (r: seq<MinuteSpan>)
    requires NonEmpty(merged)
    ensures |r| == |merged| + 1 && r[..|merged|] == merged && fresh(r[|merged|])
    ensures NonEmpty(r) && Values(r) == Values(merged) + [s]
  {
    var copy := new MinuteSpan(s.start, s.end);
    r := merged + [copy];
    ValuesAppend(merged, [copy]);
  }

  /** The body of the mergeSpans loop: widen the last copy, or push a new one. */
  method TakeSpan(merged: seq<MinuteSpan>, span: Span) returns (r: seq<MinuteSpan>)
    requires NonEmpty(merged)
    requires Canonical(Values(merged))
    modifies merged
    ensures NonEmpty(r) && Values(r) == ScanNext(old(Values(merged)), span)
    ensures r == merged || (|r| == |merged| + 1 && r[..|merged|] == merged && fresh(r[|merged|]))
  {
    hide Canonical;
    if |merged| > 0 && span.start <= merged[|merged| - 1].end {
      WidenLast(merged, span.end);
      r := merged;
    } else {
      r := PushCopy(merged, span);
    }
  }

  function ScanAll(sorted: seq<Span>, n: nat): seq<Span>
    requires n <= |sorted|
  {
    if n == 0 then [] else ScanNext(ScanAll(sorted, n - 1), sorted[n - 1])
  }

  lemma NothingScanned(sorted: seq<Span>)
    ensures Scanned([], sorted, 0)
  {
  }

  lemma {:induction false} ScanAllScanned(sorted: seq<Span>, n: nat)
    requires n <= |sorted|
    requires forall i, j :: 0 <= i < j < |sorted| ==> sorted[i].start <= sorted[j].start
    ensures Scanned(ScanAll(sorted, n), sorted, n)
  {
    hide Canonical, StartsBy, Minutes, ScanNext;
    if n == 0 {
      NothingScanned(sorted);
    } else {
      ScanAllScanned(sorted, n - 1);
      ScanStep(ScanAll(sorted, n - 1), sorted, n - 1);
    }
  }

  lemma ScanAllCanonical(sorted: seq<Span>, n: nat)
    requires n <= |sorted|
    requires forall i, j :: 0 <= i < j < |sorted| ==> sorted[i].start <= sorted[j].start
    ensures Canonical(ScanAll(sorted, n))
  {
    ScanAllScanned(sorted, n);
  }

  method TakeNext(merged: seq<MinuteSpan>, sorted: seq<Span>, n: nat) returns (r: seq<MinuteSpan>)
    requires forall i, j :: 0 <= i < j < |sorted| ==> sorted[i].start <= sorted[j].start
    requires n < |sorted| && NonEmpty(merged) && Values(merged) == ScanAll(sorted, n)
    modifies merged
    ensures NonEmpty(r) && Values(r) == ScanAll(sorted, n + 1)
    ensures forall i :: 0 <= i < |r| ==> r[i] in merged || fresh(r[i])
  {
    hide Canonical, ScanNext;
    ScanAllCanonical(sorted, n);
    r := TakeSpan(merged, sorted[n]);
  }

  /** The scan over the sorted spans. */
  method ScanSorted(sorted: seq<Span>) returns (merged: seq<MinuteSpan>)
    requires forall i, j :: 0 <= i < j < |sorted| ==> sorted[i].start <= sorted[j].start
    ensures NonEmpty(merged) && Owned(merged)
    ensures Values(merged) == ScanAll(sorted, |sorted|)
  {
    merged := [];
    for n := 0 to |sorted|
      invariant Owned(merged) && NonEmpty(merged)
      invariant Values(merged) == ScanAll(sorted, n)
    {
      merged := TakeNext(merged, sorted, n);
    }
  }

  /** mergeSpans: keeps copies only and widens those in place. There is no
      modifies clause: the caller's spans are unchanged. */
  method MergeSpans(spans: seq<MinuteSpan>) returns (merged: seq<MinuteSpan>)
    requires NonEmpty(spans)
    ensures NonEmpty(merged) && Owned(merged)
    ensures Values(merged) == Merge(Values(spans))
  {
    var sorted := SortedByStart(Values(spans));
    merged := ScanSorted(sorted);
    ScanAllScanned(sorted, |sorted|);
    assert sorted[..|sorted|] == sorted;
    MergeIsNormalForm(Values(spans), Values(merged));
  }

  // ---------------------------------------------------------------------
  // Subtraction with a moving cursor

  /** What the inner loop knows after n removals: everything of the base span
      below the cursor is settled ... */
  ghost predicate Settled(out: seq<Span>, base: Span, cursor: int, removals: seq<Span>, n: nat) {
    && n <= |removals| && base.start <= cursor
    && Minutes(out) == Range(base.start, Min(cursor, base.end)) - Minutes(removals)
    && Minutes(removals[..n]) * Range(cursor, base.end) == iset{}
  }

  /** ... and the pieces, then the cursor, then the later removals are in order. */
  ghost predicate InOrder(out: seq<Span>, base: Span, cursor: int) {
    && base.start <= cursor
    && Canonical(out)
    && Within(out, base.start, Min(cursor - 1, base.end))
  }

  lemma MinutesSplit(ss: seq<Span>, n: nat)
    requires n <= |ss|
    ensures Minutes(ss) == Minutes(ss[..n]) + Minutes(ss[n..])
  {
    MinutesConcat(ss[..n], ss[n..]);
    assert ss == ss[..n] + ss[n..];
  }

  lemma {:induction false} MinutesAbove(ss: seq<Span>, low: int, m: int)
    requires forall i :: 0 <= i < |ss| ==> m <= ss[i].start
    ensures Minutes(ss) * Range(low, m) == iset{}
  {
    if ss == [] {
    } else {
      MinutesAbove(ss[..|ss| - 1], low, m);
    }
  }

  lemma SkipRemoval(out: seq<Span>, base: Span, cursor: int, removals: seq<Span>, n: nat)
    requires n < |removals| && Settled(out, base, cursor, removals, n)
    requires removals[n].end <= cursor || removals[n].start >= base.end
    ensures Settled(out, base, cursor, removals, n + 1)
  {
    assert removals[..n + 1] == removals[..n] + [removals[n]];
    MinutesAppend(removals[..n], removals[n]);
  }

  lemma SetsOfTake(done: iset<int>, gone: iset<int>, base: Span, cursor: int, r: Span)
    requires base.start <= cursor < r.end && r.start < base.end
    requires done == Range(base.start, Min(cursor, base.end)) - gone
    requires Range(cursor, r.start) * gone == iset{} && Range(r.start, r.end) <= gone
    ensures done + Range(cursor, r.start) == Range(base.start, Min(r.end, base.end)) - gone
  {
    forall m ensures m in done + Range(cursor, r.start) <==> m in Range(base.start, Min(r.end, base.end)) - gone {
      assert m in Range(r.start, r.end) ==> m in gone;
      assert m in Range(cursor, r.start) ==> m !in Range(cursor, r.start) * gone || m in iset{};
    }
  }

  lemma TakeRemoval(out: seq<Span>, base: Span, cursor: int, removals: seq<Span>, n: nat, next: seq<Span>)
    requires n < |removals| && Canonical(removals) && Settled(out, base, cursor, removals, n)
    requires removals[n].end > cursor && removals[n].start < base.end
    requires next == if removals[n].start > cursor then out + [Span(cursor, removals[n].start)] else out
    ensures Settled(next, base, removals[n].end, removals, n + 1)
  {
    var r := removals[n];
    assert Range(cursor, r.start) * Minutes(removals) == iset{} by {
      MinutesSplit(removals, n);
      MinutesAbove(removals[n..], cursor, r.start);
    }
    MinutesAt(removals, n);
    SetsOfTake(Minutes(out), Minutes(removals), base, cursor, r);
    if r.start > cursor {
      MinutesAppend(out, Span(cursor, r.start));
    } else {
      assert Range(cursor, r.start) == iset{};
    }
    assert removals[..n + 1] == removals[..n] + [r];
    MinutesAppend(removals[..n], r);
  }

  lemma TakeRest(out: seq<Span>, base: Span, cursor: int, removals: seq<Span>, n: nat)
    requires Settled(out, base, cursor, removals, n) && (n == |removals| || base.end <= cursor)
    ensures cursor >= base.end ==> Minutes(out) == Range(base.start, base.end) - Minutes(removals)
    ensures cursor < base.end ==>
      Minutes(out + [Span(cursor, base.end)]) == Range(base.start, base.end) - Minutes(removals)
  {
    if cursor < base.end {
      assert removals[..n] == removals;
      MinutesAppend(out, Span(cursor, base.end));
      forall m ensures m in Range(cursor, base.end) ==> m !in Minutes(removals) {
        assert m !in Minutes(removals) * Range(cursor, base.end);
      }
      assert Range(base.start, base.end) == Range(base.start, cursor) + Range(cursor, base.end);
    }
  }

  lemma PieceInOrder(out: seq<Span>, base: Span, cursor: int, end: int)
    requires InOrder(out, base, cursor) && cursor < end <= base.end
    ensures InOrder(out + [Span(cursor, end)], base, end + 1)
  {
  }

  lemma NothingSettled(span: Span, removals: seq<Span>)
    ensures Settled([], span, span.start, removals, 0) && InOrder([], span, span.start)
  {
  }

  /** The piece of the base span between the cursor and the next removal. */
  method CutPiece(out: seq<Span>, span: Span, cursor: int, removals: seq<Span>, n: nat) returns (r: seq<Span>)
    requires n < |removals| && Canonical(removals)
    requires Settled(out, span, cursor, removals, n) && InOrder(out, span, cursor)
    requires removals[n].end > cursor && removals[n].start < span.end
    ensures Settled(r, span, removals[n].end, removals, n + 1) && InOrder(r, span, removals[n].end)
  {
    r := out;
    if removals[n].start > cursor {
      PieceInOrder(out, span, cursor, removals[n].start);
      r := out + [Span(cursor, removals[n].start)];
    }
    TakeRemoval(out, span, cursor, removals, n, r);
  }

  /** The inner loop of subtractSpans: one base span, a moving cursor, and an
      early exit that the canonical order of the removals makes safe. */
  method CutSpan(span: Span, removals: seq<Span>) returns (out: seq<Span>)
    requires Canonical(removals)
    ensures Canonical(out) && Within(out, span.start, span.end)
    ensures Minutes(out) == Range(span.start, span.end) - Minutes(removals)
  {
    hide Minutes, Canonical;
    out := [];
    var cursor := span.start;
    var n := 0;
    NothingSettled(span, removals);
    while n < |removals|
      invariant Settled(out, span, cursor, removals, n)
      invariant InOrder(out, span, cursor)
    {
      var removal := removals[n];
      if removal.end <= cursor || removal.start >= span.end {
        SkipRemoval(out, span, cursor, removals, n);
        n := n + 1;
        continue;
      }
      out := CutPiece(out, span, cursor, removals, n);
      cursor := Max(cursor, removal.end);
      n := n + 1;
      if cursor >= span.end { break; }
    }
    TakeRest(out, span, cursor, removals, n);
    if cursor < span.end {
      PieceInOrder(out, span, cursor, span.end);
      out := out + [Span(cursor, span.end)];
    }
  }

  /** Appending the pieces of the next base span. */
  lemma JoinPieces(base: seq<Span>, n: nat, out: seq<Span>, pieces: seq<Span>)
    requires n < |base| && Canonical(pieces) && Within(pieces, base[n].start, base[n].end)
    ensures (Disjoint(base) && Disjoint(out) && EndsBy(out, base, n) ==> Disjoint(out + pieces) && EndsBy(out + pieces, base, n + 1))
    ensures (Canonical(base) && Canonical(out) && EndsBy(out, base, n) ==> Canonical(out + pieces) && EndsBy(out + pieces, base, n + 1))
  {
  }

  /** Every piece so far ends by the end of some base span before the n-th. */
  ghost predicate EndsBy(out: seq<Span>, base: seq<Span>, n: nat) {
    n <= |base| && forall i :: 0 <= i < |out| ==> n > 0 && out[i].end <= base[n - 1].end
  }

  /** subtractSpans. The pieces cover exactly the minutes of some base span
      that no removal covers; an ordered disjoint base gives ordered disjoint
      pieces, and a canonical base the one canonical answer. */
  method SubtractSpans(base: seq<MinuteSpan>, remove: seq<MinuteSpan>) returns (out: seq<Span>)
    requires NonEmpty(base) && NonEmpty(remove)
    ensures Minutes(out) == Minutes(Values(base)) - Minutes(Values(remove))
    ensures Disjoint(Values(base)) ==> Disjoint(out)
    ensures Canonical(Values(base)) ==> Canonical(out)
  {
    var removals := MergeSpans(remove);
    MergeCanonical(Values(remove));
    out := CutAll(Values(base), Values(removals));
  }

  /** The outer loop of subtractSpans. */
  method CutAll(base: seq<Span>, removals: seq<Span>) returns (out: seq<Span>)
    requires Canonical(removals)
    ensures Minutes(out) == Minutes(base) - Minutes(removals)
    ensures Disjoint(base) ==> Disjoint(out)
    ensures Canonical(base) ==> Canonical(out)
  {
    out := [];
    for n := 0 to |base|
      invariant Minutes(out) == Minutes(base[..n]) - Minutes(removals)
      invariant Disjoint(base) ==> Disjoint(out) && EndsBy(out, base, n)
      invariant Canonical(base) ==> Canonical(out) && EndsBy(out, base, n)
    {
      var pieces := CutSpan(base[n], removals);
      JoinPieces(base, n, out, pieces);
      MinutesConcat(out, pieces);
      assert base[..n + 1] == base[..n] + [base[n]];
      MinutesAppend(base[..n], base[n]);
      out := out + pieces;
    }
    assert base[..|base|] == base;
  }
}
