/** The week calendar of the booking dashboard: UTC intervals projected onto
    local days, and the open / booked / busy blocks of each day.

    Instants are local milliseconds (a fixed zone offset is already applied);
    an unparsable ISO string is None. */
module CalendarView {
  import opened Common
  import opened Spans

  const CAL_DAYS := 7
  const CAL_START_MIN := 8 * 60
  const CAL_END_MIN := 18 * 60
  const DAY_MIN := 24 * 60
  const MINUTE_MS := 60_000
  const HOUR_MS := 3_600_000
  const DAY_MS := 86_400_000

  datatype Interval = Interval(start: Option<int>, end: Option<int>)

  datatype WorkingHours = WorkingHours(dayOfWeek: int, startMin: int, endMin: int)

  datatype Kind = Booked | Open | Busy

  datatype Block = Block(kind: Kind, span: Span)

  // ---------------------------------------------------------------------
  // Projection of an interval onto one day

  function ClipToVisible(b: Bounds): Option<Span> {
    var start, end := Max(b.start, CAL_START_MIN), Min(b.end, CAL_END_MIN);
    if end > start then Some(Span(start, end)) else None
  }

  /** The whole minutes of a time of day, from its hour and minute. */
  function ClockMinutes(timeOfDay: int): int {
    timeOfDay / HOUR_MS * 60 + timeOfDay / MINUTE_MS % 60
  }

  /** The interval as minutes of the given day, before clipping. */
  function DayBounds(interval: Interval, day: int): Option<Bounds> {
    var dayStart, dayEnd := day * DAY_MS, (day + 1) * DAY_MS;
    if interval.start.None? || interval.end.None? then None
    else
      var s, e := interval.start.value, interval.end.value;
      if e <= dayStart || s >= dayEnd then None
      else Some(Span(if s < dayStart then 0 else ClockMinutes(s - dayStart),
                     if e >= dayEnd then DAY_MIN else ClockMinutes(e - dayStart)))
  }

  function SpanForDay(interval: Interval, day: int): Option<Span> {
    match DayBounds(interval, day)
    case None => None
    case Some(b) => ClipToVisible(b)
  }

  /** Whole minutes since the local epoch. */
  function MinuteIndex(t: int): int { t / MINUTE_MS }

  lemma ClockMinutesIsFloor(timeOfDay: int)
    ensures ClockMinutes(timeOfDay) == timeOfDay / MINUTE_MS
  {
    var minutes := timeOfDay / MINUTE_MS;
    assert timeOfDay / HOUR_MS == minutes / 60 by {
      var h := minutes / 60;
      assert HOUR_MS * h <= timeOfDay < HOUR_MS * (h + 1);
    }
  }

  lemma MinuteOfDay(t: int, day: int)
    ensures (t - day * DAY_MS) / MINUTE_MS == MinuteIndex(t) - day * DAY_MIN
  {
    var q := t / MINUTE_MS;
    assert MINUTE_MS * (q - day * DAY_MIN) <= t - day * DAY_MS < MINUTE_MS * (q - day * DAY_MIN + 1);
  }

  function Clamp(x: int, low: int, high: int): int
    requires low <= high
  {
    if x < low then low else if x > high then high else x
  }

  /** The projection is the interval's minutes, clamped to the day. */
  lemma DayBoundsClamp(s: int, e: int, day: int)
    requires s <= e
    ensures match DayBounds(Interval(Some(s), Some(e)), day)
      case Some(b) =>
        && b.start == Clamp(MinuteIndex(s), day * DAY_MIN, (day + 1) * DAY_MIN) - day * DAY_MIN
        && b.end == Clamp(MinuteIndex(e), day * DAY_MIN, (day + 1) * DAY_MIN) - day * DAY_MIN
      case None =>
        Clamp(MinuteIndex(s), day * DAY_MIN, (day + 1) * DAY_MIN) == Clamp(MinuteIndex(e), day * DAY_MIN, (day + 1) * DAY_MIN)
  {
    ClockMinutesIsFloor(s - day * DAY_MS);
    ClockMinutesIsFloor(e - day * DAY_MS);
    MinuteOfDay(s, day);
    MinuteOfDay(e, day);
  }

  function ProjectedLength(interval: Interval, day: int): int {
    match DayBounds(interval, day)
    case None => 0
    case Some(b) => b.end - b.start
  }

  function TotalProjected(interval: Interval, day: int, n: nat): int {
    if n == 0 then 0 else TotalProjected(interval, day, n - 1) + ProjectedLength(interval, day + n - 1)
  }

  /** Projecting onto n consecutive days loses and invents no minute. */
  lemma {:induction false} ProjectionConservesMinutes(s: int, e: int, day: int, n: nat)
    requires s <= e
    ensures TotalProjected(Interval(Some(s), Some(e)), day, n) ==
      Clamp(MinuteIndex(e), day * DAY_MIN, (day + n) * DAY_MIN) - Clamp(MinuteIndex(s), day * DAY_MIN, (day + n) * DAY_MIN)
  {
    if n == 0 {
    } else {
      ProjectionConservesMinutes(s, e, day, n - 1);
      DayBoundsClamp(s, e, day + n - 1);
      ClampJoin(MinuteIndex(s), day * DAY_MIN, (day + n - 1) * DAY_MIN, (day + n) * DAY_MIN);
      ClampJoin(MinuteIndex(e), day * DAY_MIN, (day + n - 1) * DAY_MIN, (day + n) * DAY_MIN);
    }
  }

  lemma ClampJoin(x: int, a: int, b: int, c: int)
    requires a <= b <= c
    ensures Clamp(x, a, b) - a + Clamp(x, b, c) - b == Clamp(x, a, c) - a
  {
  }

  lemma WholeIntervalConserved(s: int, e: int, day: int, n: nat)
    requires day * DAY_MS <= s <= e <= (day + n) * DAY_MS
    ensures TotalProjected(Interval(Some(s), Some(e)), day, n) == MinuteIndex(e) - MinuteIndex(s)
  {
    ProjectionConservesMinutes(s, e, day, n);
    assert day * DAY_MIN <= MinuteIndex(s) <= MinuteIndex(e) <= (day + n) * DAY_MIN;
  }

  // ---------------------------------------------------------------------
  // What a day shows, said without the projection

  ghost predicate Shows(interval: Interval, day: int, m: int) {
    && CAL_START_MIN <= m < CAL_END_MIN
    && interval.start.Some? && interval.end.Some?
    && MinuteIndex(interval.start.value) <= day * DAY_MIN + m < MinuteIndex(interval.end.value)
  }

  ghost function Shown(interval: Interval, day: int): iset<int> { iset m | Shows(interval, day, m) }

  ghost function ShownMinutes(intervals: seq<Interval>, day: int): iset<int> {
    if intervals == [] then iset{}
    else ShownMinutes(intervals[..|intervals| - 1], day) + Shown(intervals[|intervals| - 1], day)
  }

  ghost function WorkMinutes(hours: seq<WorkingHours>, dow: int): iset<int> {
    if hours == [] then iset{}
    else
      var row := hours[|hours| - 1];
      WorkMinutes(hours[..|hours| - 1], dow) +
      (if row.dayOfWeek == dow then Range(row.startMin, row.endMin) * Range(CAL_START_MIN, CAL_END_MIN) else iset{})
  }

  ghost function OptionMinutes(s: Option<Span>): iset<int> {
    match s case None => iset{} case Some(v) => Range(v.start, v.end)
  }

  lemma ClipShows(b: Bounds)
    ensures OptionMinutes(ClipToVisible(b)) == Range(b.start, b.end) * Range(CAL_START_MIN, CAL_END_MIN)
  {
  }

  /** A day shows a minute of an interval exactly when the interval holds it. */
  lemma SpanForDayExact(interval: Interval, day: int)
    ensures OptionMinutes(SpanForDay(interval, day)) == Shown(interval, day)
  {
    if interval.start.Some? && interval.end.Some? {
      var s, e := interval.start.value, interval.end.value;
      ClockMinutesIsFloor(s - day * DAY_MS);
      ClockMinutesIsFloor(e - day * DAY_MS);
      MinuteOfDay(s, day);
      MinuteOfDay(e, day);
      forall m ensures m in OptionMinutes(SpanForDay(interval, day)) <==> Shows(interval, day, m) {
        ShowsAt(interval, day, m);
      }
    }
  }

  lemma ShowsAt(interval: Interval, day: int, m: int)
    requires interval.start.Some? && interval.end.Some?
    ensures m in OptionMinutes(SpanForDay(interval, day)) <==> Shows(interval, day, m)
  {
    var s, e := interval.start.value, interval.end.value;
    ClockMinutesIsFloor(s - day * DAY_MS);
    ClockMinutesIsFloor(e - day * DAY_MS);
    MinuteOfDay(s, day);
    MinuteOfDay(e, day);
    match DayBounds(interval, day)
    case None =>
      assert MinuteIndex(e) <= day * DAY_MIN || MinuteIndex(s) >= (day + 1) * DAY_MIN;
    case Some(b) =>
      ClipShows(b);
      assert b.start <= m < b.end && 0 <= m < DAY_MIN <==> MinuteIndex(s) <= day * DAY_MIN + m < MinuteIndex(e) && 0 <= m < DAY_MIN;
  }

  // ---------------------------------------------------------------------
  // Building the days

  function SpansOf(blocks: seq<Block>, kind: Kind): seq<Span> {
    if blocks == [] then []
    else
      var rest, last := SpansOf(blocks[..|blocks| - 1], kind), blocks[|blocks| - 1];
      if last.kind == kind then rest + [last.span] else rest
  }

  lemma {:induction false} SpansConcat(a: seq<Block>, b: seq<Block>, kind: Kind)
    ensures SpansOf(a + b, kind) == SpansOf(a, kind) + SpansOf(b, kind)
  {
    if b == [] {
      assert a + b == a;
    } else {
      SpansConcat(a, b[..|b| - 1], kind);
      assert (a + b)[..|a + b| - 1] == a + b[..|b| - 1];
    }
  }

  function Blocks(kind: Kind, spans: seq<Span>): (r: seq<Block>)
    ensures |r| == |spans| && forall i :: 0 <= i < |r| ==> r[i] == Block(kind, spans[i])
  {
    seq(|spans|, i requires 0 <= i < |spans| => Block(kind, spans[i]))
  }

  lemma {:induction false} BlocksOf(kind: Kind, spans: seq<Span>, k: Kind)
    ensures SpansOf(Blocks(kind, spans), k) == if k == kind then spans else []
  {
    if spans == [] {
    } else {
      BlocksOf(kind, spans[..|spans| - 1], k);
      assert Blocks(kind, spans)[..|spans| - 1] == Blocks(kind, spans[..|spans| - 1]);
    }
  }

  /** The loop that turns intervals into blocks of one kind. */
  method ProjectAll(intervals: seq<Interval>, day: int) returns (spans: seq<Span>)
    ensures Minutes(spans) == ShownMinutes(intervals, day)
  {
    spans := [];
    for n := 0 to |intervals|
      invariant Minutes(spans) == ShownMinutes(intervals[..n], day)
    {
      var span := SpanForDay(intervals[n], day);
      SpanForDayExact(intervals[n], day);
      assert intervals[..n + 1][..n] == intervals[..n];
      if span.None? { continue; }
      MinutesAppend(spans, span.value);
      spans := spans + [span.value];
    }
    assert intervals[..|intervals|] == intervals;
  }

  method WorkSpans(hours: seq<WorkingHours>, dow: int) returns (spans: seq<Span>)
    ensures Minutes(spans) == WorkMinutes(hours, dow)
  {
    spans := [];
    for n := 0 to |hours|
      invariant Minutes(spans) == WorkMinutes(hours[..n], dow)
    {
      assert hours[..n + 1][..n] == hours[..n];
      var row := hours[n];
      var span := ClipToVisible(Span(row.startMin, row.endMin));
      ClipShows(Span(row.startMin, row.endMin));
      if row.dayOfWeek != dow || span.None? { continue; }
      MinutesAppend(spans, span.value);
      spans := spans + [span.value];
    }
    assert hours[..|hours|] == hours;
  }

  method Boxed(spans: seq<Span>) returns (r: seq<MinuteSpan>)
    ensures NonEmpty(r) && Values(r) == spans
  {
    r := [];
    for n := 0 to |spans|
      invariant NonEmpty(r) && Values(r) == spans[..n]
    {
      r := PushCopy(r, spans[n]);
      assert spans[..n + 1] == spans[..n] + [spans[n]];
    }
    assert spans[..|spans|] == spans;
  }

  /** What one column of the calendar must show. */
  ghost predicate DayShows(blocks: seq<Block>, bookings: seq<Interval>, open: seq<Interval>, hours: seq<WorkingHours>, day: int) {
    var booked, free, busy := SpansOf(blocks, Booked), SpansOf(blocks, Open), SpansOf(blocks, Busy);
    && Minutes(booked) == ShownMinutes(bookings, day)
    && Minutes(free) == ShownMinutes(open, day)
    && Minutes(busy) == WorkMinutes(hours, Weekday(day)) - Minutes(booked) - Minutes(free)
    && Canonical(busy)
  }

  /** 0 is Sunday; day 0 of the epoch was a Thursday. */
  function Weekday(day: int): int { (day + 4) % 7 }

  method BuildDay(bookings: seq<Interval>, open: seq<Interval>, hours: seq<WorkingHours>, day: int) returns (blocks: seq<Block>)
    ensures DayShows(blocks, bookings, open, hours, day)
  {
    var bookedSpans := ProjectAll(bookings, day);
    var openSpans := ProjectAll(open, day);
    var busy := BusySpans(hours, Weekday(day), openSpans + bookedSpans);
    MinutesConcat(openSpans, bookedSpans);
    blocks := Blocks(Booked, bookedSpans) + Blocks(Open, openSpans) + Blocks(Busy, busy);
    BlocksByKind(bookedSpans, openSpans, busy);
  }

  lemma BlocksByKind(booked: seq<Span>, open: seq<Span>, busy: seq<Span>)
    ensures var blocks := Blocks(Booked, booked) + Blocks(Open, open) + Blocks(Busy, busy);
      SpansOf(blocks, Booked) == booked && SpansOf(blocks, Open) == open && SpansOf(blocks, Busy) == busy
  {
    forall k: Kind ensures SpansOf(Blocks(Booked, booked) + Blocks(Open, open) + Blocks(Busy, busy), k) ==
      (if k == Booked then booked else []) + (if k == Open then open else []) + (if k == Busy then busy else [])
    {
      SpansConcat(Blocks(Booked, booked) + Blocks(Open, open), Blocks(Busy, busy), k);
      SpansConcat(Blocks(Booked, booked), Blocks(Open, open), k);
      BlocksOf(Booked, booked, k);
      BlocksOf(Open, open, k);
      BlocksOf(Busy, busy, k);
    }
  }

  method WithinHours(hours: seq<WorkingHours>, dow: int) returns (r: seq<MinuteSpan>)
    ensures NonEmpty(r) && Canonical(Values(r)) && Minutes(Values(r)) == WorkMinutes(hours, dow)
  {
    var work := WorkSpans(hours, dow);
    var workObjects := Boxed(work);
    r := MergeSpans(workObjects);
    MergeCanonical(work);
  }

  method RemoveTaken(base: seq<MinuteSpan>, taken: seq<Span>) returns (r: seq<Span>)
    requires NonEmpty(base) && Canonical(Values(base))
    ensures Minutes(r) == Minutes(Values(base)) - Minutes(taken)
    ensures Canonical(r)
  {
    var takenObjects := Boxed(taken);
    r := SubtractSpans(base, takenObjects);
  }

  /** Working time that is neither open nor booked. */
  method BusySpans(hours: seq<WorkingHours>, dow: int, taken: seq<Span>) returns (busy: seq<Span>)
    ensures Minutes(busy) == WorkMinutes(hours, dow) - Minutes(taken)
    ensures Canonical(busy)
  {
    var withinHours := WithinHours(hours, dow);
    busy := RemoveTaken(withinHours, taken);
  }

  /** The seven columns, from the local today on. */
  method BuildCalendarView(bookings: seq<Interval>, open: seq<Interval>, hours: seq<WorkingHours>, today: int) returns (days: seq<seq<Block>>)
    ensures |days| == 7
    ensures forall i :: 0 <= i < 7 ==> DayShows(days[i], bookings, open, hours, today + i)
  {
    days := [];
    for i := 0 to CAL_DAYS
      invariant |days| == i
      invariant forall k :: 0 <= k < i ==> DayShows(days[k], bookings, open, hours, today + k)
    {
      var blocks := BuildDay(bookings, open, hours, today + i);
      days := days + [blocks];
    }
  }

  /** Busy blocks meet neither open nor booked ones, the three together cover
      the visible working time, and the busy blocks are the only ones that
      could do so in canonical form. */
  lemma DayIsPartitioned(blocks: seq<Block>, blocks2: seq<Block>, bookings: seq<Interval>, open: seq<Interval>, hours: seq<WorkingHours>, day: int)
    requires DayShows(blocks, bookings, open, hours, day) && DayShows(blocks2, bookings, open, hours, day)
    ensures var booked, free, busy := Minutes(SpansOf(blocks, Booked)), Minutes(SpansOf(blocks, Open)), Minutes(SpansOf(blocks, Busy));
      busy !! (booked + free) && WorkMinutes(hours, Weekday(day)) <= busy + booked + free
    ensures SpansOf(blocks, Busy) == SpansOf(blocks2, Busy)
  {
    CanonicalUnique(SpansOf(blocks, Busy), SpansOf(blocks2, Busy));
  }

  // ---------------------------------------------------------------------
  // The same, minute by minute

  /** Some block of the kind covers the minute. */
  ghost predicate Covers(blocks: seq<Block>, kind: Kind, m: int) {
    exists b :: b in blocks && b.kind == kind && b.span.start <= m < b.span.end
  }

  lemma {:induction false} MinutesAre(ss: seq<Span>, m: int)
    ensures m in Minutes(ss) <==> exists s :: s in ss && s.start <= m < s.end
  {
    if ss == [] {
    } else {
      MinutesAre(ss[..|ss| - 1], m);
      assert ss == ss[..|ss| - 1] + [ss[|ss| - 1]];
    }
  }

  lemma {:induction false} SpansAre(blocks: seq<Block>, kind: Kind, s: Span)
    ensures s in SpansOf(blocks, kind) <==> Block(kind, s) in blocks
  {
    if blocks == [] {
    } else {
      SpansAre(blocks[..|blocks| - 1], kind, s);
      assert blocks == blocks[..|blocks| - 1] + [blocks[|blocks| - 1]];
    }
  }

  lemma CoversIff(blocks: seq<Block>, kind: Kind, m: int)
    ensures m in Minutes(SpansOf(blocks, kind)) <==> Covers(blocks, kind, m)
  {
    MinutesAre(SpansOf(blocks, kind), m);
    forall s: Span ensures s in SpansOf(blocks, kind) <==> Block(kind, s) in blocks { SpansAre(blocks, kind, s); }
    if b :| b in blocks && b.kind == kind && b.span.start <= m < b.span.end { assert Block(kind, b.span) in blocks; }
    if s :| s in SpansOf(blocks, kind) && s.start <= m < s.end { assert Block(kind, s) in blocks; }
  }

  /** Between eight and eighteen o'clock, and in the interval: the whole
      minutes from its start up to, but not at, its end. */
  ghost predicate Holds(interval: Interval, day: int, m: int) {
    && 480 <= m < 1080
    && exists s, e :: interval == Interval(Some(s), Some(e)) && s / 60000 <= day * 1440 + m < e / 60000
  }

  ghost predicate AtWork(row: WorkingHours, dow: int, m: int) {
    row.dayOfWeek == dow && row.startMin <= m < row.endMin && 480 <= m < 1080
  }

  lemma {:induction false} ShownAre(intervals: seq<Interval>, day: int, m: int)
    ensures m in ShownMinutes(intervals, day) <==> exists interval :: interval in intervals && Holds(interval, day, m)
  {
    if intervals == [] {
    } else {
      var init, last := intervals[..|intervals| - 1], intervals[|intervals| - 1];
      ShownAre(init, day, m);
      assert intervals == init + [last];
      if Shows(last, day, m) { assert last == Interval(Some(last.start.value), Some(last.end.value)); }
      assert Shows(last, day, m) <==> Holds(last, day, m);
    }
  }

  lemma {:induction false} WorkAre(hours: seq<WorkingHours>, dow: int, m: int)
    ensures m in WorkMinutes(hours, dow) <==> exists row :: row in hours && AtWork(row, dow, m)
  {
    if hours == [] {
    } else {
      WorkAre(hours[..|hours| - 1], dow, m);
      var last := hours[|hours| - 1];
      assert hours == hours[..|hours| - 1] + [last];
      assert m in WorkMinutes(hours, dow) <==> m in WorkMinutes(hours[..|hours| - 1], dow) || AtWork(last, dow, m) by {
        assert m in Range(last.startMin, last.endMin) * Range(CAL_START_MIN, CAL_END_MIN) <==>
          Between(last.startMin, m, last.endMin) && Between(CAL_START_MIN, m, CAL_END_MIN);
      }
    }
  }

  /** Day 0 was a Thursday, the weekdays follow one another, and there are
      seven. */
  lemma WeekdaysFollow(day: int)
    ensures Weekday(0) == 4 && 0 <= Weekday(day) < 7
    ensures Weekday(day + 1) == if Weekday(day) == 6 then 0 else Weekday(day) + 1
  {
  }

  /** A minute is shown as booked, or as open, exactly when one of the bookings,
      or of the open intervals, holds it; and as busy exactly when it is at
      work on that weekday and neither. */
  lemma DayMinuteByMinute(
    blocks: seq<Block>, bookings: seq<Interval>, open: seq<Interval>, hours: seq<WorkingHours>, day: int, m: int)
    requires DayShows(blocks, bookings, open, hours, day)
    ensures Covers(blocks, Booked, m) <==> exists interval :: interval in bookings && Holds(interval, day, m)
    ensures Covers(blocks, Open, m) <==> exists interval :: interval in open && Holds(interval, day, m)
    ensures Covers(blocks, Busy, m) <==>
      && (exists row :: row in hours && AtWork(row, Weekday(day), m))
      && !Covers(blocks, Booked, m) && !Covers(blocks, Open, m)
  {
    CoversIff(blocks, Booked, m);
    CoversIff(blocks, Open, m);
    CoversIff(blocks, Busy, m);
    ShownAre(bookings, day, m);
    ShownAre(open, day, m);
    WorkAre(hours, Weekday(day), m);
  }
}
