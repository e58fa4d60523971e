/** Slots grouped by calendar day, and the week pages of the guest picker.

    A zone gives the UTC offset in force at an instant. A day key stands for
    the formatted date; it is the number of the local day, which orders and
    identifies dates as their year-month-day strings do. */
module DayGroups {

  const DAY_MS := 86_400_000
  const PAGES := 54

  type Zone = int -> int

  datatype Slot = Slot(start: int, end: int)

  datatype Group = Group(key: int, slots: seq<Slot>)

  function DayKey(t: int, zone: Zone): int { (t + zone(t)) / DAY_MS }

  /** The local day: 86 400 000 milliseconds from its own start on. */
  lemma DayKeyIs(t: int, zone: Zone, day: int)
    ensures DayKey(t, zone) == day <==> day * 86400000 <= t + zone(t) < (day + 1) * 86400000
  {
  }

  // ---------------------------------------------------------------------
  // Grouping

  function Flatten(gs: seq<Group>): seq<Slot> {
    if gs == [] then [] else Flatten(gs[..|gs| - 1]) + gs[|gs| - 1].slots
  }

  /** Every slot once and in order, one non-empty group per run of equal keys. */
  ghost predicate Grouping(gs: seq<Group>, slots: seq<Slot>, zone: Zone) {
    && Flatten(gs) == slots
    && (forall i :: 0 <= i < |gs| ==> gs[i].slots != [] && SameDay(gs[i], zone))
    && (forall i :: 0 < i < |gs| ==> gs[i - 1].key != gs[i].key)
  }

  ghost predicate SameDay(g: Group, zone: Zone) {
    forall k :: 0 <= k < |g.slots| ==> DayKey(g.slots[k].start, zone) == g.key
  }

  /** One turn of the loop: join the last group or open a new one. */
  function Add(gs: seq<Group>, slot: Slot, zone: Zone): seq<Group> {
    var key := DayKey(slot.start, zone);
    if gs != [] && gs[|gs| - 1].key == key
    then gs[..|gs| - 1] + [Group(key, gs[|gs| - 1].slots + [slot])]
    else gs + [Group(key, [slot])]
  }

  lemma AddGroups(gs: seq<Group>, slots: seq<Slot>, slot: Slot, zone: Zone)
    requires Grouping(gs, slots, zone)
    ensures Grouping(Add(gs, slot, zone), slots + [slot], zone)
  {
    hide DayKey;
    var r, key := Add(gs, slot, zone), DayKey(slot.start, zone);
    if gs != [] && gs[|gs| - 1].key == key {
      assert r[..|r| - 1] == gs[..|gs| - 1];
      assert slots + [slot] == Flatten(gs[..|gs| - 1]) + (gs[|gs| - 1].slots + [slot]);
    } else {
      assert r[..|r| - 1] == gs;
    }
  }

  lemma NothingGrouped(zone: Zone)
    ensures Grouping([], [], zone)
  {
  }

  /** A grouping of slots + [slot] is the grouping of slots with slot added. */
  lemma GroupingOfMore(gs: seq<Group>, slots: seq<Slot>, slot: Slot, zone: Zone) returns (rest: seq<Group>)
    requires Grouping(gs, slots + [slot], zone)
    ensures Grouping(rest, slots, zone) && gs == Add(rest, slot, zone)
  {
    var init, last := gs[..|gs| - 1], gs[|gs| - 1];
    assert last.slots[|last.slots| - 1] == Flatten(gs)[|slots|] == slot;
    var fewer := last.slots[..|last.slots| - 1];
    assert last.slots == fewer + [slot];
    assert (Flatten(init) + fewer) + [slot] == slots + [slot];
    assert Flatten(init) + fewer == ((Flatten(init) + fewer) + [slot])[..|slots|] == slots;
    if fewer == [] {
      rest := init;
    } else {
      rest := init + [Group(last.key, fewer)];
      assert rest[..|rest| - 1] == init;
      assert SameDay(rest[|rest| - 1], zone);
    }
  }

  /** The grouping is unique. */
  lemma {:induction false} GroupingUnique(a: seq<Group>, b: seq<Group>, slots: seq<Slot>, zone: Zone)
    requires Grouping(a, slots, zone) && Grouping(b, slots, zone)
    ensures a == b
    decreases |slots|
  {
    if slots == [] {
      if a != [] { SomethingGrouped(a, slots, zone); }
      if b != [] { SomethingGrouped(b, slots, zone); }
    } else {
      var fewer, slot := slots[..|slots| - 1], slots[|slots| - 1];
      assert slots == fewer + [slot];
      var ra := GroupingOfMore(a, fewer, slot, zone);
      var rb := GroupingOfMore(b, fewer, slot, zone);
      GroupingUnique(ra, rb, fewer, zone);
    }
  }

  lemma SomethingGrouped(gs: seq<Group>, slots: seq<Slot>, zone: Zone)
    requires Grouping(gs, slots, zone) && gs != []
    ensures slots != []
  {
    assert |Flatten(gs)| >= |gs[|gs| - 1].slots|;
  }

  /** Day keys never step back from one slot to the next. */
  ghost predicate DaysInOrder(slots: seq<Slot>, zone: Zone) {
    forall i, j :: 0 <= i < j < |slots| ==> DayKey(slots[i].start, zone) <= DayKey(slots[j].start, zone)
  }

  /** Each day then has one group, and the groups are in day order. */
  lemma {:induction false} OneGroupPerDay(gs: seq<Group>, slots: seq<Slot>, zone: Zone)
    requires Grouping(gs, slots, zone) && DaysInOrder(slots, zone)
    ensures forall i, j :: 0 <= i < j < |gs| ==> gs[i].key < gs[j].key
    ensures gs != [] ==> slots != [] && gs[|gs| - 1].key == DayKey(slots[|slots| - 1].start, zone)
    decreases |slots|
  {
    if slots == [] {
      if gs != [] { SomethingGrouped(gs, slots, zone); }
    } else {
      var fewer, slot := slots[..|slots| - 1], slots[|slots| - 1];
      assert slots == fewer + [slot];
      var rest := GroupingOfMore(gs, fewer, slot, zone);
      OneGroupPerDay(rest, fewer, zone);
      if rest != [] && rest[|rest| - 1].key != DayKey(slot.start, zone) {
        assert DayKey(fewer[|fewer| - 1].start, zone) == DayKey(slots[|slots| - 2].start, zone) <= DayKey(slot.start, zone);
      }
    }
  }

  /** With one fixed offset, slots sorted by start have their days in order. */
  lemma FixedOffsetKeepsOrder(slots: seq<Slot>, zone: Zone, offset: int)
    requires forall t :: zone(t) == offset
    requires forall i, j :: 0 <= i < j < |slots| ==> slots[i].start <= slots[j].start
    ensures DaysInOrder(slots, zone)
  {
  }

  class DayGroup {
    const key: int
    var slots: seq<Slot>

    constructor (key: int, slots: seq<Slot>)
      ensures this.key == key && this.slots == slots
    {
      this.key, this.slots := key, slots;
    }
  }

  function Values(gs: seq<DayGroup>): (r: seq<Group>)
    reads gs
    ensures |r| == |gs|
    ensures forall i :: 0 <= i < |gs| ==> r[i] == Group(gs[i].key, gs[i].slots)
  {
    seq(|gs|, i requires 0 <= i < |gs| reads gs => Group(gs[i].key, gs[i].slots))
  }

  /** The loop body of groupSlotsByDay; `last.slots.push(slot)` is in place. */
  method AddSlot(groups: seq<DayGroup>, slot: Slot, zone: Zone) returns (r: seq<DayGroup>)
    requires forall i :: 0 <= i < |groups| - 1 ==> groups[i] != groups[|groups| - 1]
    modifies groups
    ensures Values(r) == Add(old(Values(groups)), slot, zone)
    ensures r == groups || (|r| == |groups| + 1 && r[..|groups|] == groups && fresh(r[|groups|]))
    ensures forall i :: 0 <= i < |r| - 1 ==> r[i] != r[|r| - 1]
  {
    var key := DayKey(slot.start, zone);
    if |groups| > 0 && groups[|groups| - 1].key == key {
      var last := groups[|groups| - 1];
      last.slots := last.slots + [slot];
      r := groups;
    } else {
      var group := new DayGroup(key, [slot]);
      r := groups + [group];
    }
  }

  method GroupSlotsByDay(slots: seq<Slot>, zone: Zone) returns (groups: seq<DayGroup>)
    ensures forall i :: 0 <= i < |groups| ==> fresh(groups[i])
    ensures Grouping(Values(groups), slots, zone)
  {
    hide Grouping, Add, DayKey;
    groups := [];
    ghost var gv: seq<Group> := [];
    NothingGrouped(zone);
    for n := 0 to |slots|
      invariant forall i :: 0 <= i < |groups| ==> fresh(groups[i])
      invariant forall i :: 0 <= i < |groups| - 1 ==> groups[i] != groups[|groups| - 1]
      invariant Values(groups) == gv && Grouping(gv, slots[..n], zone)
    {
      assert slots[..n + 1] == slots[..n] + [slots[n]];
      AddGroups(gv, slots[..n], slots[n], zone);
      gv := Add(gv, slots[n], zone);
      groups := AddSlot(groups, slots[n], zone);
    }
    assert slots[..|slots|] == slots;
  }

  // ---------------------------------------------------------------------
  // Week pages

  /** The i-th key of a page: stepping in whole 24-hour instants from now. */
  function PageKey(page: int, i: int, zone: Zone, now: int): int {
    DayKey(now + page * 7 * DAY_MS + i * DAY_MS, zone)
  }

  method WeekDayKeys(page: int, zone: Zone, now: int) returns (keys: seq<int>)
    ensures |keys| == 7 && forall i :: 0 <= i < 7 ==> keys[i] == PageKey(page, i, zone, now)
  {
    keys := [];
    var startMs := now + page * 7 * DAY_MS;
    for i := 0 to 7
      invariant |keys| == i && forall k :: 0 <= k < i ==> keys[k] == PageKey(page, k, zone, now)
    {
      keys := keys + [DayKey(startMs + i * DAY_MS, zone)];
    }
  }

  ghost predicate OnPage(day: int, page: int, zone: Zone, now: int) {
    exists i :: 0 <= i < 7 && PageKey(page, i, zone, now) == day
  }

  lemma PageKeyFixed(page: int, i: int, zone: Zone, now: int, offset: int)
    requires forall t :: zone(t) == offset
    ensures PageKey(page, i, zone, now) == DayKey(now, zone) + page * 7 + i
  {
    var n := page * 7 + i;
    assert now + page * 7 * DAY_MS + i * DAY_MS == now + n * DAY_MS;
    var t := now + offset;
    assert (t + n * DAY_MS) / DAY_MS == t / DAY_MS + n;
  }

  /** With a fixed offset the pages tile the days: day d is on page p exactly
      when p is the number of whole weeks from today to d. */
  lemma PagesTile(day: int, page: int, zone: Zone, now: int, offset: int)
    requires forall t :: zone(t) == offset
    ensures OnPage(day, page, zone, now) <==> page == (day - DayKey(now, zone)) / 7
  {
    var ahead := day - DayKey(now, zone);
    if page == ahead / 7 {
      PageKeyFixed(page, ahead % 7, zone, now, offset);
      assert PageKey(page, ahead % 7, zone, now) == day;
    }
    if OnPage(day, page, zone, now) {
      var i :| 0 <= i < 7 && PageKey(page, i, zone, now) == day;
      PageKeyFixed(page, i, zone, now, offset);
      assert ahead == page * 7 + i;
    }
  }

  /** The change of offset over the k-th 24-hour step leaves the time of day
      within the day. */
  ghost predicate StepFits(k: nat, zone: Zone, now: int) {
    var t := now + k * DAY_MS;
    0 <= (t + zone(t)) % DAY_MS + zone(t + DAY_MS) - zone(t) < DAY_MS
  }

  function KeyAfter(k: nat, zone: Zone, now: int): int { DayKey(now + k * DAY_MS, zone) }

  /** In any zone, one 24-hour step lands on the next local day exactly when
      the change of offset leaves the time of day within the day. */
  lemma StepIsNextDay(t: int, zone: Zone)
    ensures DayKey(t + DAY_MS, zone) == DayKey(t, zone) + 1 <==>
      0 <= (t + zone(t)) % DAY_MS + zone(t + DAY_MS) - zone(t) < DAY_MS
  {
    var local := t + zone(t);
    var shift := zone(t + DAY_MS) - zone(t);
    assert t + DAY_MS + zone(t + DAY_MS) == (local / DAY_MS + 1) * DAY_MS + (local % DAY_MS + shift);
  }

  lemma NextKey(k: nat, zone: Zone, now: int)
    ensures KeyAfter(k + 1, zone, now) == KeyAfter(k, zone, now) + 1 <==> StepFits(k, zone, now)
  {
    assert now + (k + 1) * DAY_MS == now + k * DAY_MS + DAY_MS;
    StepIsNextDay(now + k * DAY_MS, zone);
  }

  /** The first n days from now are consecutive exactly when every step
      between them fits. */
  lemma {:induction false} DaysFollowIff(n: nat, zone: Zone, now: int)
    ensures (forall k: nat :: k <= n ==> KeyAfter(k, zone, now) == KeyAfter(0, zone, now) + k) <==>
      (forall k: nat :: k < n ==> StepFits(k, zone, now))
  {
    if n == 0 {
    } else {
      DaysFollowIff(n - 1, zone, now);
      NextKey(n - 1, zone, now);
      assert (forall k: nat :: k <= n ==> KeyAfter(k, zone, now) == KeyAfter(0, zone, now) + k) ==>
        KeyAfter(n, zone, now) == KeyAfter(0, zone, now) + n && KeyAfter(n - 1, zone, now) == KeyAfter(0, zone, now) + n - 1;
    }
  }

  /** Page `page` lists the seven days from that many weeks after today. */
  ghost predicate ListsItsDays(page: nat, zone: Zone, now: int) {
    forall i :: 0 <= i < 7 ==> PageKey(page, i, zone, now) == DayKey(now, zone) + page * 7 + i
  }

  lemma PageIsKeyAfter(page: nat, i: nat, zone: Zone, now: int)
    ensures PageKey(page, i, zone, now) == KeyAfter(page * 7 + i, zone, now)
    ensures KeyAfter(0, zone, now) == DayKey(now, zone)
  {
    assert now + page * 7 * DAY_MS + i * DAY_MS == now + (page * 7 + i) * DAY_MS;
  }

  /** In any zone, the pages up to one list exactly their seven days each if
      and only if every 24-hour step from now to the last of them fits. */
  lemma PagesListTheirDaysIff(last: nat, zone: Zone, now: int)
    ensures (forall page: nat :: page <= last ==> ListsItsDays(page, zone, now)) <==>
      (forall k: nat :: k < last * 7 + 6 ==> StepFits(k, zone, now))
  {
    var n := last * 7 + 6;
    DaysFollowIff(n, zone, now);
    forall page: nat, i: nat ensures PageKey(page, i, zone, now) == KeyAfter(page * 7 + i, zone, now) {
      PageIsKeyAfter(page, i, zone, now);
    }
    PageIsKeyAfter(0, 0, zone, now);
    if forall page: nat :: page <= last ==> ListsItsDays(page, zone, now) {
      forall k: nat | k <= n ensures KeyAfter(k, zone, now) == KeyAfter(0, zone, now) + k {
        assert ListsItsDays(k / 7, zone, now);
        PageIsKeyAfter(k / 7, k % 7, zone, now);
      }
    }
  }

  /** Clocks going forward an hour at instant zero. */
  function SpringForward(): Zone { t => if t < 0 then 0 else 3_600_000 }

  /** Half an hour before midnight and that change, day 0 is on no page. */
  lemma PagesCanSkipADay(page: int)
    ensures !OnPage(0, page, SpringForward(), -1_800_000)
  {
    forall i | 0 <= i < 7 ensures PageKey(page, i, SpringForward(), -1_800_000) != 0 {
      var n := page * 7 + i;
      assert -1_800_000 + page * 7 * DAY_MS + i * DAY_MS == n * DAY_MS - 1_800_000;
    }
  }

  // ---------------------------------------------------------------------
  // The first page with a slot

  ghost predicate Reaches(page: int, day: int, zone: Zone, now: int) { PageKey(page, 6, zone, now) >= day }

  /** The first of the 54 pages whose last key reaches the day, or 0. */
  ghost predicate FirstReaching(page: int, day: int, zone: Zone, now: int) {
    || (0 <= page < PAGES && Reaches(page, day, zone, now) && forall q :: 0 <= q < page ==> !Reaches(q, day, zone, now))
    || (page == 0 && forall q :: 0 <= q < PAGES ==> !Reaches(q, day, zone, now))
  }

  method FirstPageWithSlot(slots: seq<Slot>, zone: Zone, now: int) returns (page: int)
    ensures slots == [] ==> page == 0
    ensures slots != [] ==> FirstReaching(page, DayKey(slots[0].start, zone), zone, now)
  {
    if |slots| == 0 { return 0; }
    var firstKey := DayKey(slots[0].start, zone);
    page := 0;
    while page < PAGES
      invariant 0 <= page <= PAGES
      invariant forall q :: 0 <= q < page ==> !Reaches(q, firstKey, zone, now)
    {
      var keys := WeekDayKeys(page, zone, now);
      if keys[|keys| - 1] >= firstKey { return; }
      page := page + 1;
    }
    page := 0;
  }

  /** With a fixed offset the page found shows the first slot's day if and
      only if that day is today or in the 54 weeks from today; no other page
      shows it then, and a later day is answered with page 0. */
  lemma FirstPageShowsFirstSlot(page: int, day: int, zone: Zone, now: int, offset: int)
    requires forall t :: zone(t) == offset
    requires FirstReaching(page, day, zone, now)
    ensures OnPage(day, page, zone, now) <==> DayKey(now, zone) <= day < DayKey(now, zone) + 378
    ensures day >= DayKey(now, zone) + 378 ==> page == 0
    ensures forall q :: OnPage(day, page, zone, now) && OnPage(day, q, zone, now) ==> q == page
  {
    var ahead := day - DayKey(now, zone);
    forall q ensures Reaches(q, day, zone, now) <==> ahead <= q * 7 + 6 {
      PageKeyFixed(q, 6, zone, now, offset);
    }
    forall q ensures OnPage(day, q, zone, now) <==> q == ahead / 7 {
      PagesTile(day, q, zone, now, offset);
    }
    if 0 <= ahead < PAGES * 7 {
      assert Reaches(ahead / 7, day, zone, now);
      assert page <= ahead / 7;
    } else if ahead >= PAGES * 7 {
      assert forall q :: 0 <= q < PAGES ==> !Reaches(q, day, zone, now);
    }
  }

  /** The same in any zone whose 24-hour steps all fit for those 54 weeks: the
      page found shows the first slot's day if and only if it is one of their
      days, and no other of the 54 pages shows it. */
  lemma FirstPageShowsInZone(page: int, day: int, zone: Zone, now: int)
    requires forall k: nat :: k < 377 ==> StepFits(k, zone, now)
    requires FirstReaching(page, day, zone, now)
    ensures OnPage(day, page, zone, now) <==> DayKey(now, zone) <= day < DayKey(now, zone) + 378
    ensures day >= DayKey(now, zone) + 378 ==> page == 0
    ensures forall q :: 0 <= q < 54 && OnPage(day, page, zone, now) && OnPage(day, q, zone, now) ==> q == page
  {
    hide PageKey, DayKey;
    var ahead := day - DayKey(now, zone);
    PagesListTheirDaysIff(PAGES - 1, zone, now);
    forall q | 0 <= q < PAGES ensures ListsItsDays(q, zone, now) && (Reaches(q, day, zone, now) <==> ahead <= q * 7 + 6) {
      var p: nat := q;
      assert ListsItsDays(p, zone, now);
    }
    forall q | 0 <= q < PAGES ensures OnPage(day, q, zone, now) <==> q == ahead / 7 {
      OnItsPage(day, q, zone, now);
    }
    if 0 <= ahead < PAGES * 7 {
      assert Reaches(ahead / 7, day, zone, now);
      assert page <= ahead / 7;
    } else if ahead >= PAGES * 7 {
      assert forall q :: 0 <= q < PAGES ==> !Reaches(q, day, zone, now);
    }
  }

  lemma OnItsPage(day: int, page: nat, zone: Zone, now: int)
    requires ListsItsDays(page, zone, now)
    ensures OnPage(day, page, zone, now) <==> page == (day - DayKey(now, zone)) / 7
  {
    hide PageKey, DayKey;
    var ahead := day - DayKey(now, zone);
    if page == ahead / 7 {
      assert PageKey(page, ahead % 7, zone, now) == day;
    }
  }
}
