/**
 * Testing windows and blackout periods of a policy: the instant until which an
 * already admitted request may run.
 *
 * Instants are microseconds since 1970-01-01T00:00:00Z, the resolution of the
 * timestamps the system stores. A zone gives its offset at every instant, and
 * resolves a local wall-clock reading to an instant once per fold.
 */
module TestingSchedule {
  import opened Common

  const MINUTE: int := 60_000_000
  const DAY: int := 86_400_000_000

  datatype Zone = Zone(offset: int -> int, resolve: (int, bool) -> int)

  /** `zone` is None when the zone name is not known to the host. */
  datatype Window = Window(days: set<int>, startMinute: int, endMinute: int, zone: Option<Zone>)

  datatype Blackout = Blackout(startsAt: int, endsAt: int)

  datatype Schedule = Schedule(windows: seq<Window>, blackouts: seq<Blackout>)

  /** Monday is 0; the epoch was a Thursday. */
  function WeekDay(local: int): int { (local / DAY + 3) % 7 }

  function MinuteOfDay(local: int): int { local % DAY / MINUTE }

  function LocalTime(zone: Zone, instant: int): int { instant + zone.offset(instant) }

  function LocalEnd(w: Window, local: int): int { local / DAY * DAY + w.endMinute * MINUTE }

  predicate InWindow(w: Window, zone: Zone, instant: int) {
    var local := LocalTime(zone, instant);
    WeekDay(local) in w.days && w.startMinute <= MinuteOfDay(local) < w.endMinute
  }

  /** The instant a fold stands for, when it really shows that wall-clock reading and lies ahead. */
  function FoldEnd(zone: Zone, localEnd: int, fold: bool, instant: int): Option<int> {
    var candidate := zone.resolve(localEnd, fold);
    if LocalTime(zone, candidate) == localEnd && candidate > instant then Some(candidate) else None
  }

  function Earlier(a: Option<int>, b: Option<int>): Option<int> {
    if a.None? then b else if b.None? then a else Some(Min(a.value, b.value))
  }

  function Later(a: Option<int>, b: Option<int>): Option<int> {
    if a.None? then b else if b.None? then a else Some(Max(a.value, b.value))
  }

  function WindowEndIn(w: Window, zone: Zone, instant: int): Option<int> {
    if !InWindow(w, zone, instant) then None
    else
      var localEnd := LocalEnd(w, LocalTime(zone, instant));
      Earlier(FoldEnd(zone, localEnd, false, instant), FoldEnd(zone, localEnd, true, instant))
  }

  predicate ZonesKnown(windows: seq<Window>) {
    forall i :: 0 <= i < |windows| ==> windows[i].zone.Some?
  }

  predicate BlackedOut(blackouts: seq<Blackout>, instant: int) {
    exists i :: 0 <= i < |blackouts| && blackouts[i].startsAt <= instant < blackouts[i].endsAt
  }

  function LatestEnd(windows: seq<Window>, instant: int): Option<int>
    requires ZonesKnown(windows)
  {
    if windows == [] then None
    else
      var last := |windows| - 1;
      Later(LatestEnd(windows[..last], instant), WindowEndIn(windows[last], windows[last].zone.value, instant))
  }

  function NextBlackout(blackouts: seq<Blackout>, instant: int): Option<int> {
    if blackouts == [] then None
    else
      var last := |blackouts| - 1;
      Earlier(NextBlackout(blackouts[..last], instant),
              if blackouts[last].startsAt > instant then Some(blackouts[last].startsAt) else None)
  }

  function Deadline(s: Schedule, instant: int): Option<int> {
    if BlackedOut(s.blackouts, instant) || !ZonesKnown(s.windows) then None
    else
      var latest := LatestEnd(s.windows, instant);
      if latest.None? then None else Earlier(latest, NextBlackout(s.blackouts, instant))
  }

  predicate Allows(s: Schedule, instant: int) { Deadline(s, instant).Some? }

  /** Iterates over both folds, keeping the candidates that read back correctly and lie ahead. */
  method WindowEnd(w: Window, zone: Zone, instant: int) returns (end: Option<int>)
    ensures end == WindowEndIn(w, zone, instant)
  {
    if !InWindow(w, zone, instant) { return None; }
    var localEnd := LocalEnd(w, LocalTime(zone, instant));
    var folds := [false, true];
    end := None;
    for i := 0 to |folds|
      invariant i == 0 ==> end == None
      invariant i == 1 ==> end == FoldEnd(zone, localEnd, false, instant)
      invariant i == 2 ==>
        end == Earlier(FoldEnd(zone, localEnd, false, instant), FoldEnd(zone, localEnd, true, instant))
    {
      var candidate := zone.resolve(localEnd, folds[i]);
      if LocalTime(zone, candidate) == localEnd && candidate > instant {
        end := Earlier(end, Some(candidate));
      }
    }
  }

  /** The start of the next blackout; the outer option is None inside one. */
  method NextBlackoutStart(blackouts: seq<Blackout>, instant: int) returns (r: Option<Option<int>>)
    ensures r.None? <==> BlackedOut(blackouts, instant)
    ensures r.Some? ==> r.value == NextBlackout(blackouts, instant) && (r.value.Some? ==> r.value.value > instant)
  {
    var nextStart: Option<int> := None;
    for i := 0 to |blackouts|
      invariant nextStart == NextBlackout(blackouts[..i], instant)
      invariant nextStart.Some? ==> nextStart.value > instant
      invariant !BlackedOut(blackouts[..i], instant)
    {
      var period := blackouts[i];
      if period.startsAt <= instant < period.endsAt { return None; }
      assert blackouts[..i + 1][..i] == blackouts[..i];
      if period.startsAt > instant { nextStart := Earlier(nextStart, Some(period.startsAt)); }
    }
    assert blackouts[..|blackouts|] == blackouts;
    return Some(nextStart);
  }

  /** The latest end of an open window; the outer option is None when a zone is not known. */
  method LatestWindowEnd(windows: seq<Window>, instant: int) returns (r: Option<Option<int>>)
    ensures r.Some? <==> ZonesKnown(windows)
    ensures r.Some? ==> r.value == LatestEnd(windows, instant) && (r.value.Some? ==> r.value.value > instant)
  {
    var latest: Option<int> := None;
    for i := 0 to |windows|
      invariant ZonesKnown(windows[..i])
      invariant latest == LatestEnd(windows[..i], instant)
      invariant latest.Some? ==> latest.value > instant
    {
      if windows[i].zone.None? { return None; }
      assert windows[..i + 1][..i] == windows[..i];
      var end := WindowEnd(windows[i], windows[i].zone.value, instant);
      latest := Later(latest, end);
    }
    assert windows[..|windows|] == windows;
    return Some(latest);
  }

  method TestingScheduleDeadline(s: Schedule, instant: int) returns (deadline: Option<int>)
    ensures deadline == Deadline(s, instant)
    ensures deadline.Some? ==> deadline.value > instant
  {
    var nextStart := NextBlackoutStart(s.blackouts, instant);
    if nextStart.None? { return None; }
    var latest := LatestWindowEnd(s.windows, instant);
    if latest.None? || latest.value.None? { return None; }
    deadline := Earlier(latest.value, nextStart.value);
    if deadline.Some? && deadline.value <= instant { deadline := None; }
  }

  // ---- What the deadline promises ----

  /** Each wall-clock reading of the zone occurs at most twice, and the folds name the occurrences. */
  ghost predicate Faithful(zone: Zone) {
    forall x {:trigger zone.offset(x)} ::
      x == zone.resolve(LocalTime(zone, x), false) || x == zone.resolve(LocalTime(zone, x), true)
  }

  ghost predicate FaithfulZones(s: Schedule) {
    forall i :: 0 <= i < |s.windows| && s.windows[i].zone.Some? ==> Faithful(s.windows[i].zone.value)
  }

  /** Every zone keeps one offset throughout [from, to). */
  ghost predicate SteadyZones(s: Schedule, from: int, to: int) {
    forall i :: 0 <= i < |s.windows| && s.windows[i].zone.Some? ==> Steady(s.windows[i].zone.value, from, to)
  }

  ghost predicate Steady(zone: Zone, from: int, to: int) {
    forall x {:trigger zone.offset(x)} :: from <= x < to ==> zone.offset(x) == zone.offset(from)
  }

  /** The latest end is attained by one of the windows, and bounds all of them. */
  lemma {:induction false} LatestEndAttained(windows: seq<Window>, instant: int)
    requires ZonesKnown(windows)
    ensures LatestEnd(windows, instant).Some? ==>
      (exists i :: 0 <= i < |windows| &&
         WindowEndIn(windows[i], windows[i].zone.value, instant) == LatestEnd(windows, instant))
    ensures forall i :: 0 <= i < |windows| ==>
        var end := WindowEndIn(windows[i], windows[i].zone.value, instant);
        end.Some? ==> LatestEnd(windows, instant).Some? && LatestEnd(windows, instant).value >= end.value
  {
    if windows != [] {
      var init := windows[..|windows| - 1];
      LatestEndAttained(init, instant);
      assert forall i :: 0 <= i < |init| ==> init[i] == windows[i];
    }
  }

  lemma {:induction false} NextBlackoutBounds(blackouts: seq<Blackout>, instant: int)
    ensures var next := NextBlackout(blackouts, instant);
      && (next.Some? ==> next.value > instant && exists i :: 0 <= i < |blackouts| && blackouts[i].startsAt == next.value)
      && (forall i :: 0 <= i < |blackouts| && blackouts[i].startsAt > instant ==>
            next.Some? && next.value <= blackouts[i].startsAt)
  {
    if blackouts != [] {
      var init := blackouts[..|blackouts| - 1];
      NextBlackoutBounds(init, instant);
      assert forall i :: 0 <= i < |init| ==> init[i] == blackouts[i];
    }
  }

  /** Days are counted from a Thursday, the third after Monday; each local day has one weekday. */
  lemma WeekDays(local: int, within: int)
    requires 0 <= within < DAY
    ensures DAY == 24 * 60 * MINUTE && MINUTE == 60 * 1_000_000
    ensures WeekDay(0) == 3 && 0 <= WeekDay(local) < 7 && WeekDay(local + DAY) == (WeekDay(local) + 1) % 7
    ensures local % DAY == 0 ==> WeekDay(local + within) == WeekDay(local)
  {
    assert (local + DAY) / DAY == local / DAY + 1;
    if local % DAY == 0 { assert (local + within) / DAY == local / DAY; }
  }

  /** A window is open on its weekdays from its first minute of the day up to, and not including, its last. */
  lemma WindowMeaning(w: Window, zone: Zone, instant: int, day: int, minute: int, rest: int)
    requires 0 <= minute < 24 * 60 && 0 <= rest < MINUTE
    requires LocalTime(zone, instant) == day * DAY + minute * MINUTE + rest
    ensures InWindow(w, zone, instant) <==> (day + 3) % 7 in w.days && w.startMinute <= minute < w.endMinute
    ensures LocalEnd(w, LocalTime(zone, instant)) == day * DAY + w.endMinute * MINUTE
  {
    var local := LocalTime(zone, instant);
    assert local / DAY == day;
    assert local % DAY == minute * MINUTE + rest;
    assert MinuteOfDay(local) == minute;
  }

  /** The end of an open window is the next instant at which the zone's clock shows it. */
  lemma EndMeaning(w: Window, zone: Zone, instant: int)
    requires Faithful(zone)
    ensures var end, reading := WindowEndIn(w, zone, instant), LocalEnd(w, LocalTime(zone, instant));
      && (end.Some? ==> InWindow(w, zone, instant) && end.value > instant && LocalTime(zone, end.value) == reading)
      && (forall x {:trigger zone.offset(x)} :: InWindow(w, zone, instant) && x > instant && LocalTime(zone, x) == reading ==>
            end.Some? && end.value <= x)
  {
    var end, reading := WindowEndIn(w, zone, instant), LocalEnd(w, LocalTime(zone, instant));
    forall x | InWindow(w, zone, instant) && x > instant && LocalTime(zone, x) == reading
      ensures end.Some? && end.value <= x
    {
      assert zone.offset(x) == reading - x;
      assert x == zone.resolve(LocalTime(zone, x), false) || x == zone.resolve(LocalTime(zone, x), true);
    }
  }

  /**
   * When there is a deadline, and what it is: the instant lies in no blackout and some window is open;
   * the deadline is the latest end of an open window or the start of the first blackout before that.
   */
  lemma DeadlineMeaning(s: Schedule, t: int)
    ensures Deadline(s, t).Some? <==>
      && ZonesKnown(s.windows)
      && (forall j :: 0 <= j < |s.blackouts| ==> !(s.blackouts[j].startsAt <= t < s.blackouts[j].endsAt))
      && (exists i :: 0 <= i < |s.windows| && WindowEndIn(s.windows[i], s.windows[i].zone.value, t).Some?)
    ensures Deadline(s, t).Some? ==> IsDeadlineAt(s, t, Deadline(s, t).value)
  {
    if ZonesKnown(s.windows) { LatestEndAttained(s.windows, t); }
    if Deadline(s, t).Some? { DeadlineValue(s, t); }
  }

  lemma DeadlineValue(s: Schedule, t: int)
    requires Deadline(s, t).Some?
    ensures IsDeadlineAt(s, t, Deadline(s, t).value)
  {
    var d, next := Deadline(s, t).value, NextBlackout(s.blackouts, t);
    NextBlackoutBounds(s.blackouts, t);
    LatestIsOpen(s, t, d);
    if next.Some? && next.value == d {
      var j :| 0 <= j < |s.blackouts| && s.blackouts[j].startsAt == d;
    } else {
      LatestIsLast(s, t, d);
    }
  }

  lemma LatestIsOpen(s: Schedule, t: int, d: int)
    requires ZonesKnown(s.windows) && LatestEnd(s.windows, t).Some? && d <= LatestEnd(s.windows, t).value
    ensures LatestEnd(s.windows, t).value > t && exists i :: 0 <= i < |s.windows| && EndsAtLeast(s.windows[i], t, d)
  {
    LatestEndAttained(s.windows, t);
    var i :| 0 <= i < |s.windows| && WindowEndIn(s.windows[i], s.windows[i].zone.value, t) == LatestEnd(s.windows, t);
    assert EndsAtLeast(s.windows[i], t, d);
  }

  lemma LatestIsLast(s: Schedule, t: int, d: int)
    requires ZonesKnown(s.windows) && LatestEnd(s.windows, t) == Some(d)
    ensures exists i :: 0 <= i < |s.windows| && WindowEndIn(s.windows[i], s.windows[i].zone.value, t) == Some(d)
    ensures forall i :: 0 <= i < |s.windows| && EndsAtLeast(s.windows[i], t, d) ==>
      WindowEndIn(s.windows[i], s.windows[i].zone.value, t) == Some(d)
  {
    LatestEndAttained(s.windows, t);
  }

  ghost predicate IsDeadlineAt(s: Schedule, t: int, d: int)
    requires ZonesKnown(s.windows)
  {
    && t < d
    && (forall j :: 0 <= j < |s.blackouts| && s.blackouts[j].startsAt > t ==> d <= s.blackouts[j].startsAt)
    && (exists i :: 0 <= i < |s.windows| && EndsAtLeast(s.windows[i], t, d))
    && ((exists j :: 0 <= j < |s.blackouts| && s.blackouts[j].startsAt == d)
        || (&& (exists i :: 0 <= i < |s.windows| && WindowEndIn(s.windows[i], s.windows[i].zone.value, t) == Some(d))
            && forall i :: 0 <= i < |s.windows| && EndsAtLeast(s.windows[i], t, d) ==>
                 WindowEndIn(s.windows[i], s.windows[i].zone.value, t) == Some(d)))
  }

  ghost predicate EndsAtLeast(w: Window, t: int, d: int)
    requires w.zone.Some?
  {
    WindowEndIn(w, w.zone.value, t).Some? && WindowEndIn(w, w.zone.value, t).value >= d
  }

  /** Within one local day, a later instant before the window's end is still inside the window. */
  lemma SameDay(a: int, b: int, endMinute: int)
    requires a <= b < a / DAY * DAY + endMinute * MINUTE
    requires endMinute <= 24 * 60
    ensures a / DAY == b / DAY
    ensures MinuteOfDay(a) <= MinuteOfDay(b) < endMinute
  {
    var day := a / DAY;
    assert day * DAY <= a;
    assert b < day * DAY + DAY;
    assert b / DAY == day;
    assert a % DAY == a - day * DAY && b % DAY == b - day * DAY;
    assert b % DAY < endMinute * MINUTE;
  }

  /** A window open at `t` keeps its end as long as the offset stays the same and the end lies ahead. */
  lemma WindowStaysOpen(w: Window, zone: Zone, t: int, later: int)
    requires Faithful(zone) && Steady(zone, t, later + 1)
    requires w.endMinute <= 24 * 60
    requires WindowEndIn(w, zone, t).Some? && t <= later < WindowEndIn(w, zone, t).value
    ensures WindowEndIn(w, zone, later) == WindowEndIn(w, zone, t)
  {
    var local := LocalTime(zone, t);
    var localEnd := LocalEnd(w, local);
    var end := WindowEndIn(w, zone, t).value;
    var offset := zone.offset(t);
    assert zone.offset(later) == offset;
    var x := localEnd - offset;
    assert t < x by { EndLiesAhead(w, local); }
    assert x <= later ==> zone.offset(x) == offset;
    assert x <= later ==> end <= x;
    SameDay(local, LocalTime(zone, later), w.endMinute);
    assert LocalEnd(w, LocalTime(zone, later)) == localEnd;
  }

  lemma EndLiesAhead(w: Window, local: int)
    requires MinuteOfDay(local) < w.endMinute
    ensures local < LocalEnd(w, local)
  {
    assert local == local / DAY * DAY + local % DAY;
    assert local % DAY < (MinuteOfDay(local) + 1) * MINUTE;
  }

  /** A schedule the contract admits: end times are wall-clock times of the day. */
  predicate WellFormed(s: Schedule) {
    forall i :: 0 <= i < |s.windows| ==> s.windows[i].endMinute <= 24 * 60
  }

  /** The schedule admits the instant, until at least `d`. */
  ghost predicate OpenUntil(s: Schedule, instant: int, d: int) {
    Deadline(s, instant).Some? && Deadline(s, instant).value >= d
  }

  /** Some zone of the schedule changes its offset at this instant. */
  ghost predicate ShiftsAt(s: Schedule, c: int) {
    exists i :: 0 <= i < |s.windows| && s.windows[i].zone.Some? && s.windows[i].zone.value.offset(c) != s.windows[i].zone.value.offset(c - 1)
  }

  /** While no zone changes its offset, a schedule open until `d` stays open until `d`. */
  lemma WindowSound(s: Schedule, t: int, d: int, later: int)
    requires WellFormed(s) && FaithfulZones(s) && OpenUntil(s, t, d) && SteadyZones(s, t, later + 1) && t <= later < d
    ensures OpenUntil(s, later, d)
  {
    LatestEndAttained(s.windows, t);
    LatestEndAttained(s.windows, later);
    NextBlackoutBounds(s.blackouts, t);
    NextBlackoutBounds(s.blackouts, later);
    var i :| 0 <= i < |s.windows| &&
      WindowEndIn(s.windows[i], s.windows[i].zone.value, t) == LatestEnd(s.windows, t);
    WindowStaysOpen(s.windows[i], s.windows[i].zone.value, t, later);
    forall j | 0 <= j < |s.blackouts|
      ensures !(s.blackouts[j].startsAt <= later < s.blackouts[j].endsAt)
    {
      assert s.blackouts[j].startsAt <= t ==> s.blackouts[j].endsAt <= t;
      assert s.blackouts[j].startsAt > t ==> s.blackouts[j].startsAt >= d;
    }
  }

  lemma OneInstantOn(s: Schedule, t: int, d: int)
    requires WellFormed(s) && FaithfulZones(s) && OpenUntil(s, t, d) && t + 1 < d && !ShiftsAt(s, t + 1)
    ensures OpenUntil(s, t + 1, d)
  {
    forall i | 0 <= i < |s.windows| && s.windows[i].zone.Some?
      ensures Steady(s.windows[i].zone.value, t, t + 2)
    {
      assert s.windows[i].zone.value.offset(t + 1) == s.windows[i].zone.value.offset(t + 1 - 1);
    }
    WindowSound(s, t, d, t + 1);
  }

  lemma {:induction false} OpenThroughout(s: Schedule, t: int, d: int, later: int)
    requires WellFormed(s) && FaithfulZones(s) && OpenUntil(s, t, d) && t <= later < d
    requires forall c {:trigger ShiftsAt(s, c)} :: t < c < d && ShiftsAt(s, c) ==> OpenUntil(s, c, d)
    ensures OpenUntil(s, later, d)
    decreases later - t
  {
    if t < later && !ShiftsAt(s, later) {
      OpenThroughout(s, t, d, later - 1);
      OneInstantOn(s, later - 1, d);
    }
  }

  /**
   * Deadline soundness, exactly: a schedule that admits `t` until `d` admits every instant of [t, d)
   * until `d` if and only if it does so at the instants at which one of its zones changes its offset.
   */
  lemma DeadlineSoundIff(s: Schedule, t: int, d: int)
    requires WellFormed(s) && FaithfulZones(s) && OpenUntil(s, t, d)
    ensures (forall later {:trigger OpenUntil(s, later, d)} :: t <= later < d ==> OpenUntil(s, later, d)) <==>
      (forall c {:trigger ShiftsAt(s, c)} :: t < c < d && ShiftsAt(s, c) ==> OpenUntil(s, c, d))
  {
    if forall c {:trigger ShiftsAt(s, c)} :: t < c < d && ShiftsAt(s, c) ==> OpenUntil(s, c, d) {
      forall later | t <= later < d
        ensures OpenUntil(s, later, d)
      {
        OpenThroughout(s, t, d, later);
      }
    }
  }

  /** In particular, with no change of offset on the way. */
  lemma DeadlineSound(s: Schedule, t: int)
    requires WellFormed(s) && FaithfulZones(s) && Deadline(s, t).Some?
    requires forall c {:trigger ShiftsAt(s, c)} :: t < c < Deadline(s, t).value ==> !ShiftsAt(s, c)
    ensures var d := Deadline(s, t).value;
      forall later :: t <= later < d ==> Deadline(s, later).Some? && Deadline(s, later).value >= d
  {
    var d := Deadline(s, t).value;
    forall later | t <= later < d
      ensures Deadline(s, later).Some? && Deadline(s, later).value >= d
    {
      OpenThroughout(s, t, d, later);
    }
  }

  /** The hour is repeated: the wall clock is set back from 02:00 to 01:00 at instant 0. */
  function SetBackZone(): Zone {
    Zone(x => if x < 0 then 120 * MINUTE else 60 * MINUTE,
         (reading: int, fold: bool) => if fold || reading >= 120 * MINUTE then reading - 60 * MINUTE else reading - 120 * MINUTE)
  }

  /** Open every day from the given minute until 03:00 in that zone. */
  function UntilThree(startMinute: int): Schedule { Schedule([Window({0, 1, 2, 3, 4, 5, 6}, startMinute, 180, Some(SetBackZone()))], []) }

  lemma SetBackFaithful(startMinute: int)
    ensures WellFormed(UntilThree(startMinute)) && FaithfulZones(UntilThree(startMinute)) && ShiftsAt(UntilThree(startMinute), 0)
  {
    var s, zone := UntilThree(startMinute), SetBackZone();
    forall x
      ensures x == zone.resolve(LocalTime(zone, x), false) || x == zone.resolve(LocalTime(zone, x), true)
    {
    }
    assert s.windows[0].zone.value.offset(0) != s.windows[0].zone.value.offset(0 - 1);
  }

  lemma OnlyWindow(startMinute: int, instant: int)
    ensures Deadline(UntilThree(startMinute), instant) == WindowEndIn(UntilThree(startMinute).windows[0], SetBackZone(), instant)
  {
    var s := UntilThree(startMinute);
    assert s.windows[..0] == [];
    assert LatestEnd(s.windows, instant) == Later(LatestEnd(s.windows[..0], instant), WindowEndIn(s.windows[0], SetBackZone(), instant));
  }

  lemma BeforeSetBack(startMinute: int)
    requires startMinute <= 119
    ensures Deadline(UntilThree(startMinute), -MINUTE) == Some(120 * MINUTE)
  {
    var zone, w := SetBackZone(), UntilThree(startMinute).windows[0];
    OnlyWindow(startMinute, -MINUTE);
    assert LocalTime(zone, -MINUTE) == 119 * MINUTE;
    assert LocalEnd(w, 119 * MINUTE) == 180 * MINUTE;
  }

  /**
   * The condition can fail: a window from 01:30 admits the instant one minute before the clock is set
   * back until 03:00, yet is closed when the repeated hour begins.
   */
  lemma SetBackClosesWindow()
    ensures var s := UntilThree(90);
      && WellFormed(s) && FaithfulZones(s) && ShiftsAt(s, 0)
      && OpenUntil(s, -MINUTE, 120 * MINUTE) && !Allows(s, 0)
  {
    SetBackFaithful(90);
    BeforeSetBack(90);
    OnlyWindow(90, 0);
    assert LocalTime(SetBackZone(), 0) == 60 * MINUTE;
    assert MinuteOfDay(60 * MINUTE) == 60;
  }

  /** And it can hold across a change: a window from 00:30 stays open all the way. */
  lemma SetBackKeepsWindow(later: int)
    requires -MINUTE <= later < 120 * MINUTE
    ensures ShiftsAt(UntilThree(30), 0) && OpenUntil(UntilThree(30), later, 120 * MINUTE)
  {
    var s, zone := UntilThree(30), SetBackZone();
    SetBackFaithful(30);
    BeforeSetBack(30);
    OnlyWindow(30, 0);
    assert LocalTime(zone, 0) == 60 * MINUTE;
    assert MinuteOfDay(60 * MINUTE) == 60;
    assert LocalEnd(s.windows[0], 60 * MINUTE) == 180 * MINUTE;
    forall c | -MINUTE < c < 120 * MINUTE && ShiftsAt(s, c) ensures OpenUntil(s, c, 120 * MINUTE) { assert c == 0; }
    OpenThroughout(s, -MINUTE, 120 * MINUTE, later);
  }
}
