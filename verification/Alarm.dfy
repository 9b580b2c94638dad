/**
 The alarm clock (player/alarm.go): when one alarm rings over whole runs of checks
 and edits, and the list that holds many of them.
 Time is civil: a date number and the nanoseconds since its midnight.
 */
module Alarm {
  import opened Prelude

  const SECOND := 1_000_000_000
  const DAY := 86400 * SECOND
  const CATCH_UP := 300 * SECOND

  datatype Instant = Instant(day: int, ns: int)

  /** `firedOn` is the date the alarm is done for; None is the empty string. */
  datatype Entry = Entry(id: int, hour: int, minute: int, name: string, enabled: bool,
                         firedOn: Option<int>, rangOn: Option<int>)

  function Total(t: Instant): int { t.day * DAY + t.ns }

  predicate Civil(t: Instant) { 0 <= t.ns < DAY }

  /** The alarm's time of day, as an offset from midnight. */
  function Offset(a: Entry): int { (a.hour * 3600 + a.minute * 60) * SECOND }

  predicate OnTheClock(a: Entry) { 0 <= a.hour < 24 && 0 <= a.minute < 60 }

  /** alarmDue: enabled, not done for today, and inside the catch-up window of today's time. */
  predicate Due(a: Entry, now: Instant) {
    a.enabled && a.firedOn != Some(now.day) && 0 <= now.ns - Offset(a) < CATCH_UP
  }

  /** alarmArmFrom: a time already past today starts tomorrow. */
  function ArmFrom(a: Entry, now: Instant): Entry {
    a.(firedOn := if now.ns < Offset(a) then None else Some(now.day))
  }

  /** One alarm's share of alarmCheck. */
  function Checked(a: Entry, now: Instant): Entry {
    if Due(a, now) then a.(firedOn := Some(now.day), rangOn := Some(now.day)) else a
  }

  // ----- an armed alarm that is left alone -----

  function AfterTicks(a: Entry, ticks: seq<Instant>): Entry {
    if ticks == [] then a else Checked(AfterTicks(a, ticks[..|ticks| - 1]), ticks[|ticks| - 1])
  }

  /** How often the alarm rings on date d during the checks. */
  function Rings(a: Entry, ticks: seq<Instant>, d: int): nat {
    if ticks == [] then 0
    else
      var front, now := ticks[..|ticks| - 1], ticks[|ticks| - 1];
      Rings(a, front, d) + if Due(AfterTicks(a, front), now) && now.day == d then 1 else 0
  }

  function LastOf(start: Instant, ticks: seq<Instant>): Instant {
    if ticks == [] then start else ticks[|ticks| - 1]
  }

  /** Checks follow the start and one another on a clock that never goes back, at most `gap` apart. */
  predicate Regular(start: Instant, ticks: seq<Instant>, gap: int) {
    Civil(start) &&
    (ticks == [] ||
     var front, now := ticks[..|ticks| - 1], ticks[|ticks| - 1];
     Regular(start, front, gap) && Civil(now) && 0 <= Total(now) - Total(LastOf(start, front)) <= gap)
  }

  /** The alarm's time on date d has come up since it was armed. */
  predicate CameUp(a: Entry, start: Instant, last: Instant, d: int) {
    Total(start) < d * DAY + Offset(a) <= Total(last)
  }

  predicate Tolerates(a: Entry, gap: int) { gap <= CATCH_UP && gap <= DAY - Offset(a) }

  ghost predicate Tracks(a: Entry, start: Instant, ticks: seq<Instant>) {
    var now, last := AfterTicks(a, ticks), LastOf(start, ticks);
    && now.enabled && Offset(now) == Offset(a)
    && (now.firedOn == Some(last.day) <==> Offset(a) <= last.ns)
    && (now.firedOn.Some? ==> now.firedOn.value <= last.day)
    && (forall d :: Rings(a, ticks, d) == if CameUp(a, start, last, d) then 1 else 0)
  }

  /** The next check rings exactly when the alarm's time comes up at it or since the last one. */
  lemma DueWhenItComesUp(a: Entry, last: Instant, now: Instant, gap: int)
    requires a.enabled && OnTheClock(a) && Tolerates(a, gap) && Civil(last) && Civil(now)
    requires 0 <= Total(now) - Total(last) <= gap
    requires a.firedOn == Some(last.day) <==> Offset(a) <= last.ns
    requires a.firedOn.Some? ==> a.firedOn.value <= last.day
    ensures now.day == last.day || (now.day == last.day + 1 && Offset(a) <= last.ns)
    ensures Due(a, now) <==> Total(last) < now.day * DAY + Offset(a) <= Total(now)
    ensures Checked(a, now).firedOn == Some(now.day) <==> Offset(a) <= now.ns
    ensures Checked(a, now).firedOn.Some? ==> Checked(a, now).firedOn.value <= now.day
  {
    SameDayOrNext(last, now, gap);
  }

  lemma TickTracks(a: Entry, start: Instant, ticks: seq<Instant>, gap: int)
    requires ticks != [] && Regular(start, ticks, gap) && OnTheClock(a) && Tolerates(a, gap)
    requires Tracks(a, start, ticks[..|ticks| - 1])
    ensures Tracks(a, start, ticks)
  {
    var front, now := ticks[..|ticks| - 1], ticks[|ticks| - 1];
    var last, before := LastOf(start, front), AfterTicks(a, front);
    RegularIsCivil(start, front, gap);
    RegularStarts(start, front, gap);
    AfterTicksKeeps(a, front);
    DueWhenItComesUp(before, last, now, gap);
    forall d ensures Rings(a, ticks, d) == if CameUp(a, start, now, d) then 1 else 0 {
      assert Rings(a, front, d) == if CameUp(a, start, last, d) then 1 else 0;
      if d != now.day { OtherDay(a, last, now, d); }
    }
  }

  lemma {:induction false} AfterTicksKeeps(a: Entry, ticks: seq<Instant>)
    ensures var b := AfterTicks(a, ticks); b.hour == a.hour && b.minute == a.minute && b.enabled == a.enabled
  {
    if ticks != [] { AfterTicksKeeps(a, ticks[..|ticks| - 1]); }
  }

  lemma {:induction false} RegularIsCivil(start: Instant, ticks: seq<Instant>, gap: int)
    requires Regular(start, ticks, gap)
    ensures Civil(LastOf(start, ticks))
  {}

  lemma {:induction false} RegularStarts(start: Instant, ticks: seq<Instant>, gap: int)
    requires Regular(start, ticks, gap)
    ensures Total(start) <= Total(LastOf(start, ticks))
  {
    if ticks != [] { RegularStarts(start, ticks[..|ticks| - 1], gap); }
  }

  lemma SameDayOrNext(last: Instant, now: Instant, gap: int)
    requires Civil(last) && Civil(now) && 0 <= Total(now) - Total(last) <= gap <= CATCH_UP
    ensures now.day == last.day || now.day == last.day + 1
  {}

  /** Between two consecutive checks no other date's alarm time passes unless it is today's. */
  lemma OtherDay(a: Entry, last: Instant, now: Instant, d: int)
    requires OnTheClock(a) && Civil(last) && Civil(now) && Total(last) <= Total(now) && d != now.day
    requires now.day == last.day || (now.day == last.day + 1 && Offset(a) <= last.ns)
    ensures d * DAY + Offset(a) <= Total(now) <==> d * DAY + Offset(a) <= Total(last)
  {
    if d < now.day { assert (d + 1) * DAY <= now.day * DAY; } else { assert (now.day + 1) * DAY <= d * DAY; }
  }

  /** With checks close enough together, a date's ring count is 1 if its time came up after arming and 0 if not. */
  lemma {:induction false} RingsExactlyOnce(a: Entry, start: Instant, ticks: seq<Instant>, gap: int)
    requires a.enabled && OnTheClock(a) && Tolerates(a, gap) && Regular(start, ticks, gap)
    requires a.firedOn == ArmFrom(a, start).firedOn
    ensures Tracks(a, start, ticks)
  {
    if ticks != [] {
      RingsExactlyOnce(a, start, ticks[..|ticks| - 1], gap);
      TickTracks(a, start, ticks, gap);
    }
  }

  /** The same by calendar: every later date once, the arming date once exactly if it was armed before its time. */
  lemma RingsByDate(a: Entry, start: Instant, ticks: seq<Instant>, d: int)
    requires a.enabled && OnTheClock(a) && Regular(start, ticks, 60 * SECOND)
    requires a.firedOn == ArmFrom(a, start).firedOn
    requires d * DAY + Offset(a) <= Total(LastOf(start, ticks))     // the run reaches that date's time
    ensures d > start.day ==> Rings(a, ticks, d) == 1
    ensures d == start.day ==> Rings(a, ticks, d) == if start.ns < Offset(a) then 1 else 0
    ensures d < start.day ==> Rings(a, ticks, d) == 0
  {
    assert Rings(a, ticks, d) == if CameUp(a, start, LastOf(start, ticks), d) then 1 else 0 by {
      RingsExactlyOnce(a, start, ticks, 60 * SECOND);
    }
    RegularCivilStart(start, ticks, 60 * SECOND);
    DateOrder(a, start, d);
  }

  lemma DateOrder(a: Entry, start: Instant, d: int)
    requires OnTheClock(a) && Civil(start)
    ensures d > start.day ==> Total(start) < d * DAY + Offset(a)
    ensures d == start.day ==> (Total(start) < d * DAY + Offset(a) <==> start.ns < Offset(a))
    ensures d < start.day ==> d * DAY + Offset(a) <= Total(start)
  {
    if d > start.day {
      assert (start.day + 1) * DAY <= d * DAY;
    } else if d < start.day {
      assert (d + 1) * DAY <= start.day * DAY;
    }
  }

  lemma {:induction false} RegularCivilStart(start: Instant, ticks: seq<Instant>, gap: int)
    requires Regular(start, ticks, gap)
    ensures Civil(start)
  {}

  /** The count is right for every moment of arming and every schedule of checks. */
  ghost predicate Reliable(a: Entry, gap: int) {
    forall start: Instant, ticks: seq<Instant>, d: int ::
      Regular(start, ticks, gap) ==>
        Rings(ArmFrom(a, start), ticks, d) == if CameUp(a, start, LastOf(start, ticks), d) then 1 else 0
  }

  /** That is so exactly when the gap fits both the catch-up window and what is left of the day. */
  lemma ReliableIff(a: Entry, gap: int)
    requires a.enabled && OnTheClock(a) && gap >= 0
    ensures Reliable(a, gap) <==> Tolerates(a, gap)
  {
    if Tolerates(a, gap) {
      forall start: Instant, ticks: seq<Instant>, d: int | Regular(start, ticks, gap)
        ensures Rings(ArmFrom(a, start), ticks, d) == if CameUp(a, start, LastOf(start, ticks), d) then 1 else 0
      {
        RingsExactlyOnce(ArmFrom(a, start), start, ticks, gap);
      }
    } else {
      MissedRing(a, gap);
    }
  }

  function Civilian(total: int): Instant { Instant(total / DAY, total % DAY) }

  /** Armed one nanosecond before its time and next checked a whole gap later: the window is over, or the date is. */
  lemma MissedRing(a: Entry, gap: int)
    requires a.enabled && OnTheClock(a) && gap >= 0 && !Tolerates(a, gap)
    ensures !Reliable(a, gap)
  {
    var start, now := Civilian(DAY + Offset(a) - 1), Civilian(DAY + Offset(a) - 1 + gap);
    assert Total(start) == DAY + Offset(a) - 1 && Total(now) == Total(start) + gap;
    var armed, ticks := ArmFrom(a, start), [now];
    assert ticks[..0] == [];
    assert Regular(start, [], gap);
    assert Regular(start, ticks, gap);
    assert CameUp(a, start, now, 1);
    assert AfterTicks(armed, ticks[..0]) == armed && Rings(armed, ticks[..0], 1) == 0;
    assert Rings(armed, ticks, 1) == 0;
  }

  /** Sixty seconds is the widest spacing of checks that is safe for every alarm the editor can set. */
  lemma MinuteIsTheBound(gap: int)
    requires gap >= 0
    ensures (forall a: Entry :: OnTheClock(a) ==> Tolerates(a, gap)) <==> gap <= 60 * SECOND
  {
    var late := Entry(1, 23, 59, "", true, None, None);
    assert OnTheClock(late) && DAY - Offset(late) == 60 * SECOND;
  }

  /** Up to five minutes late a check still rings, for every alarm not within five minutes of midnight. */
  lemma FiveMinutesLate(a: Entry, gap: int)
    requires OnTheClock(a) && (a.hour < 23 || a.minute <= 55) && gap >= 0 && a.enabled
    ensures Reliable(a, gap) <==> gap <= 5 * 60 * 1_000_000_000
  {
    ReliableIff(a, gap);
  }

  /** Nothing rang yet on a date after the last check. */
  lemma {:induction false} NoRingAhead(a: Entry, start: Instant, ticks: seq<Instant>, gap: int, d: int)
    requires Regular(start, ticks, gap) && d > LastOf(start, ticks).day
    ensures Rings(a, ticks, d) == 0
  {
    if ticks != [] {
      var front := ticks[..|ticks| - 1];
      RegularIsCivil(start, front, gap);
      NoRingAhead(a, start, front, gap, d);
    }
  }

  /** What the list marks as having rung today is what did ring today. */
  lemma {:induction false} MarkIsTodaysRing(a: Entry, start: Instant, ticks: seq<Instant>, gap: int)
    requires Regular(start, ticks, gap) && (a.rangOn.Some? ==> a.rangOn.value <= start.day)
    ensures var today := LastOf(start, ticks).day;
            && (AfterTicks(a, ticks).rangOn.Some? ==> AfterTicks(a, ticks).rangOn.value <= today)
            && (AfterTicks(a, ticks).rangOn == Some(today) <==> Rings(a, ticks, today) > 0 || a.rangOn == Some(today))
  {
    if ticks != [] {
      var front := ticks[..|ticks| - 1];
      var last, now := LastOf(start, front), ticks[|ticks| - 1];
      MarkIsTodaysRing(a, start, front, gap);
      RegularIsCivil(start, front, gap);
      RegularStarts(start, front, gap);
      assert last.day <= now.day && start.day <= last.day;
      if last.day < now.day { NoRingAhead(a, start, front, gap, now.day); }
    }
  }

  // ----- an alarm that is edited and toggled as well -----

  datatype Event =
    | Tick(now: Instant)
    | Toggle(now: Instant)
    | Edit(now: Instant, hour: int, minute: int, name: string)

  function React(a: Entry, e: Event): Entry {
    match e
    case Tick(now) => Checked(a, now)
    case Toggle(now) => if a.enabled then a.(enabled := false) else ArmFrom(a.(enabled := true), now)
    case Edit(now, h, m, name) => ArmFrom(a.(hour := h, minute := m, name := name), now)
  }

  function History(a: Entry, es: seq<Event>): Entry {
    if es == [] then a else React(History(a, es[..|es| - 1]), es[|es| - 1])
  }

  predicate RingsAt(a: Entry, es: seq<Event>, i: nat)
    requires i < |es|
  {
    es[i].Tick? && Due(History(a, es[..i]), es[i].now)
  }

  /** Event k re-armed the alarm before its (new) time of that day. */
  predicate RearmsAhead(a: Entry, es: seq<Event>, k: nat)
    requires k < |es|
  {
    var b := React(History(a, es[..k]), es[k]);
    && (es[k].Edit? || (es[k].Toggle? && b.enabled))
    && es[k].now.ns < Offset(b)
  }

  ghost predicate Forward(es: seq<Event>) {
    forall i, j :: 0 <= i <= j < |es| ==> es[i].now.day <= es[j].now.day
  }

  lemma HistoryStep(a: Entry, es: seq<Event>, k: nat)
    requires k < |es|
    ensures History(a, es[..k + 1]) == React(History(a, es[..k]), es[k])
  {
    assert es[..k + 1][..k] == es[..k];
  }

  lemma {:induction false} DoneForToday(a: Entry, es: seq<Event>, i: nat, j: nat)
    requires Forward(es) && i < j < |es| && RingsAt(a, es, i) && es[i].now.day == es[j].now.day
    requires forall k :: i < k < j ==> !RearmsAhead(a, es, k)
    ensures History(a, es[..j]).firedOn == Some(es[j].now.day)
    decreases j
  {
    HistoryStep(a, es, j - 1);
    if j - 1 > i {
      assert es[i].now.day <= es[j - 1].now.day <= es[j].now.day;
      DoneForToday(a, es, i, j - 1);
      assert !RearmsAhead(a, es, j - 1);
    }
  }

  /** Two rings on one date are always separated by a re-arm made on that date before the new time. */
  lemma TwoRingsNeedRearm(a: Entry, es: seq<Event>, i: nat, j: nat)
    requires Forward(es) && i < j < |es|
    requires RingsAt(a, es, i) && RingsAt(a, es, j) && es[i].now.day == es[j].now.day
    ensures exists k :: i < k < j && RearmsAhead(a, es, k) && es[k].now.day == es[i].now.day
  {
    if forall k :: i < k < j ==> !RearmsAhead(a, es, k) {
      DoneForToday(a, es, i, j);
    } else {
      var k :| i < k < j && RearmsAhead(a, es, k);
      assert es[i].now.day <= es[k].now.day <= es[j].now.day;
    }
  }

  /** The clock time h:m of date d has come up after `start` and no later than `last`. */
  predicate TimeCameUp(h: int, m: int, start: Instant, last: Instant, d: int) {
    Total(start) < d * DAY + (h * 3600 + m * 60) * SECOND <= Total(last)
  }

  /** An alarm that some event has just armed rings once for each time its clock time comes up from then on. */
  lemma ArmedRings(a: Entry, start: Instant, ticks: seq<Instant>, d: int)
    requires a.enabled && OnTheClock(a) && Regular(start, ticks, 60 * SECOND)
    requires a.firedOn == ArmFrom(a, start).firedOn
    ensures Rings(a, ticks, d) == if TimeCameUp(a.hour, a.minute, start, LastOf(start, ticks), d) then 1 else 0
  {
    RingsExactlyOnce(a, start, ticks, 60 * SECOND);
  }

  /** Switched on, an alarm rings at its own time from that moment on; a time already past that day waits for the next. */
  lemma ToggleRings(a: Entry, start: Instant, ticks: seq<Instant>, d: int)
    requires !a.enabled && OnTheClock(a) && Regular(start, ticks, 60 * SECOND)
    ensures Rings(React(a, Toggle(start)), ticks, d)
            == if TimeCameUp(a.hour, a.minute, start, LastOf(start, ticks), d) then 1 else 0
  {
    ArmedRings(React(a, Toggle(start)), start, ticks, d);
  }

  /** Edited while on, it rings at the new time from that moment on, and no longer at the old one. */
  lemma EditRings(a: Entry, start: Instant, h: int, m: int, name: string, ticks: seq<Instant>, d: int)
    requires a.enabled && 0 <= h < 24 && 0 <= m < 60 && Regular(start, ticks, 60 * SECOND)
    ensures Rings(React(a, Edit(start, h, m, name)), ticks, d)
            == if TimeCameUp(h, m, start, LastOf(start, ticks), d) then 1 else 0
    ensures var b := React(a, Edit(start, h, m, name)); b.id == a.id && b.name == name && b.rangOn == a.rangOn
  {
    ArmedRings(React(a, Edit(start, h, m, name)), start, ticks, d);
  }

  /** A new alarm is on, and rings at its time from the moment it was saved. */
  lemma NewRings(id: int, h: int, m: int, name: string, start: Instant, ticks: seq<Instant>, d: int)
    requires 0 <= h < 24 && 0 <= m < 60 && Regular(start, ticks, 60 * SECOND)
    ensures Rings(NewAlarm(id, h, m, name, start), ticks, d)
            == if TimeCameUp(h, m, start, LastOf(start, ticks), d) then 1 else 0
    ensures var b := NewAlarm(id, h, m, name, start); b.id == id && b.name == name && b.rangOn == None
  {
    ArmedRings(NewAlarm(id, h, m, name, start), start, ticks, d);
  }

  /** Switched off, an alarm keeps its time and never rings, however it is edited, until it is switched on again. */
  lemma {:induction false} OffStaysSilent(a: Entry, now: Instant, es: seq<Event>, i: nat)
    requires a.enabled && i < |es| && forall k :: 0 <= k < |es| ==> !es[k].Toggle?
    ensures var off := React(a, Toggle(now));
            !History(off, es[..i]).enabled && !RingsAt(off, es, i) && off.hour == a.hour && off.minute == a.minute
  {
    if i > 0 {
      OffStaysSilent(a, now, es, i - 1);
      HistoryStep(React(a, Toggle(now)), es, i - 1);
    }
  }

  /** A disabled alarm never rings, and editing it does not switch it on. */
  lemma DisabledStaysSilent(a: Entry, e: Event)
    requires !a.enabled
    ensures React(a, e).rangOn == a.rangOn
    ensures React(a, e).enabled <==> e.Toggle?
  {}

  // ----- the list -----

  ghost predicate DistinctIds(s: seq<Entry>) {
    forall i, j :: 0 <= i < j < |s| ==> s[i].id != s[j].id
  }

  function Lookup(s: seq<Entry>, id: int): Option<Entry> {
    if s == [] then None else if s[0].id == id then Some(s[0]) else Lookup(s[1..], id)
  }

  lemma {:induction false} LookupFinds(s: seq<Entry>, id: int)
    ensures Lookup(s, id).Some? <==> exists i :: 0 <= i < |s| && s[i].id == id
    ensures Lookup(s, id).Some? ==> Lookup(s, id).value in s && Lookup(s, id).value.id == id
  {
    if s != [] && s[0].id != id {
      LookupFinds(s[1..], id);
      if i :| 0 <= i < |s| && s[i].id == id { assert s[1..][i - 1].id == id; }
    }
  }

  lemma {:induction false} LookupAt(s: seq<Entry>, i: nat)
    requires DistinctIds(s) && i < |s|
    ensures Lookup(s, s[i].id) == Some(s[i])
  {
    if i > 0 {
      assert DistinctIds(s[1..]);
      LookupAt(s[1..], i - 1);
    }
  }

  /** Lookup of every id determines a list with distinct ids up to order. */
  lemma SameLookup(s: seq<Entry>, t: seq<Entry>, id: int)
    requires DistinctIds(s) && DistinctIds(t) && forall e :: e in s <==> e in t
    ensures Lookup(s, id) == Lookup(t, id)
  {
    LookupFinds(s, id);
    LookupFinds(t, id);
    if Lookup(s, id).Some? {
      var e := Lookup(s, id).value;
      var i :| 0 <= i < |t| && t[i] == e;
      LookupAt(t, i);
    }
  }

  predicate NotLater(a: Entry, b: Entry) { a.hour < b.hour || (a.hour == b.hour && a.minute <= b.minute) }

  /** The order is that of the minutes of the day. */
  lemma NotLaterIs(a: Entry, b: Entry)
    requires OnTheClock(a) && OnTheClock(b)
    ensures NotLater(a, b) <==> a.hour * 60 + a.minute <= b.hour * 60 + b.minute
  {}

  ghost predicate Sorted(s: seq<Entry>) { forall i, j :: 0 <= i < j < |s| ==> NotLater(s[i], s[j]) }

  lemma {:induction false} DistinctMultiplicity(s: seq<Entry>, e: Entry)
    requires DistinctIds(s)
    ensures multiset(s)[e] <= 1
  {
    if s != [] {
      var front, last := s[..|s| - 1], s[|s| - 1];
      assert s == front + [last];
      DistinctMultiplicity(front, e);
      assert last !in front;
    }
  }

  lemma SinglyOccurring(t: seq<Entry>, i: nat, j: nat)
    requires i < j < |t| && multiset(t)[t[i]] <= 1
    ensures t[i] != t[j]
  {
    assert t == t[..i] + [t[i]] + t[i + 1..j] + [t[j]] + t[j + 1..];
  }

  /** Any rearrangement keeps ids distinct and finds the same alarm under each. */
  lemma PermutedLookup(s: seq<Entry>, t: seq<Entry>)
    requires DistinctIds(s) && multiset(s) == multiset(t)
    ensures DistinctIds(t) && forall id :: Lookup(t, id) == Lookup(s, id)
  {
    forall e ensures e in s <==> e in t {
      assert e in s <==> e in multiset(s);
      assert e in t <==> e in multiset(t);
    }
    forall i, j | 0 <= i < j < |t| ensures t[i].id != t[j].id {
      assert t[i] in s && t[j] in s;
      var k :| 0 <= k < |s| && s[k] == t[i];
      var l :| 0 <= l < |s| && s[l] == t[j];
      DistinctMultiplicity(s, t[i]);
      SinglyOccurring(t, i, j);
    }
    forall id ensures Lookup(t, id) == Lookup(s, id) { SameLookup(s, t, id); }
  }

  lemma SortedConcat(a: seq<Entry>, b: seq<Entry>)
    requires Sorted(a) && Sorted(b)
    requires forall i, j :: 0 <= i < |a| && 0 <= j < |b| ==> NotLater(a[i], b[j])
    ensures Sorted(a + b)
  {}

  lemma InsertKeepsSorted(front: seq<Entry>, x: Entry, back: seq<Entry>)
    requires Sorted(front + back)
    requires forall j :: 0 <= j < |front| ==> NotLater(front[j], x)
    requires back != [] ==> NotLater(x, back[0])
    ensures Sorted(front + [x] + back)
  {
    var r := front + back;
    assert forall j :: 0 <= j < |front| ==> r[j] == front[j];
    assert forall j :: 0 <= j < |back| ==> r[|front| + j] == back[j];
    assert Sorted(front) && Sorted(back);
    forall j | 0 <= j < |back| ensures NotLater(x, back[j]) {
      assert j > 0 ==> NotLater(back[0], back[j]);
    }
    SortedConcat(front, [x]);
    forall i, j | 0 <= i < |front + [x]| && 0 <= j < |back| ensures NotLater((front + [x])[i], back[j]) {
      if i < |front| { assert NotLater(r[i], r[|front| + j]); }
    }
    SortedConcat(front + [x], back);
  }

  /** Sort by time of day; how ties are broken is left open, as sort.Slice leaves it. */
  method SortByTime(s: seq<Entry>) returns (r: seq<Entry>)
    ensures Sorted(r) && multiset(r) == multiset(s)
  {
    r := [];
    var i := 0;
    while i < |s|
      invariant 0 <= i <= |s|
      invariant Sorted(r) && multiset(r) == multiset(s[..i])
    {
      var k := 0;
      while k < |r| && NotLater(r[k], s[i])
        invariant 0 <= k <= |r|
        invariant forall j :: 0 <= j < k ==> NotLater(r[j], s[i])
      {
        k := k + 1;
      }
      assert r == r[..k] + r[k..];
      InsertKeepsSorted(r[..k], s[i], r[k..]);
      assert s[..i + 1] == s[..i] + [s[i]];
      r := r[..k] + [s[i]] + r[k..];
      i := i + 1;
    }
    assert s[..i] == s;
  }

  class Store {
    var alarms: seq<Entry>
    var nextId: int
    var cursor: int
    var tab: int

    ghost predicate Valid() reads this {
      DistinctIds(alarms) && forall i :: 0 <= i < |alarms| ==> alarms[i].id <= nextId
    }

    /** alarmLoad: ids handed out later are above everything in the file. */
    method Load(saved: seq<Entry>)
      modifies this
      ensures alarms == saved && nextId >= old(nextId) && cursor == old(cursor) && tab == old(tab)
      ensures forall i :: 0 <= i < |saved| ==> saved[i].id < nextId
      ensures DistinctIds(saved) ==> Valid()
    {
      alarms := saved;
      var i := 0;
      while i < |saved|
        invariant 0 <= i <= |saved| && alarms == saved && nextId >= old(nextId)
        invariant cursor == old(cursor) && tab == old(tab)
        invariant forall j :: 0 <= j < i ==> saved[j].id < nextId
      {
        if saved[i].id >= nextId { nextId := saved[i].id + 1; }
        i := i + 1;
      }
    }

    /** alarmCheck: every alarm is checked once, the due ones ring, and no other alarm changes. */
    method Check(now: Instant) returns (rang: seq<int>)
      requires Valid()
      modifies this
      ensures Valid() && nextId == old(nextId) && cursor == old(cursor) && tab == old(tab)
      ensures |alarms| == |old(alarms)|
      ensures forall i :: 0 <= i < |alarms| ==> alarms[i] == Checked(old(alarms)[i], now)
      ensures forall id :: id in rang <==> exists i :: 0 <= i < |alarms| && old(alarms)[i].id == id && Due(old(alarms)[i], now)
    {
      rang := [];
      var i := 0;
      while i < |alarms|
        invariant 0 <= i <= |alarms| == |old(alarms)|
        invariant nextId == old(nextId) && cursor == old(cursor) && tab == old(tab)
        invariant forall j :: 0 <= j < i ==> alarms[j] == Checked(old(alarms)[j], now)
        invariant forall j :: i <= j < |alarms| ==> alarms[j] == old(alarms)[j]
        invariant forall id :: id in rang <==> exists j :: 0 <= j < i && old(alarms)[j].id == id && Due(old(alarms)[j], now)
      {
        ghost var before := rang;
        if Due(alarms[i], now) {
          rang := rang + [alarms[i].id];
          alarms := alarms[i := alarms[i].(firedOn := Some(now.day), rangOn := Some(now.day))];
        }
        i := i + 1;
      }
    }

    method ToggleFocused(now: Instant)
      requires Valid()
      modifies this
      ensures Valid() && nextId == old(nextId) && cursor == old(cursor) && tab == old(tab)
      ensures if tab == 0 && 0 <= cursor < |old(alarms)|
              then alarms == old(alarms)[cursor := React(old(alarms)[cursor], Toggle(now))]
              else alarms == old(alarms)
    {
      if tab == 0 && cursor >= 0 && cursor < |alarms| {
        var a := alarms[cursor];
        a := a.(enabled := !a.enabled);
        if a.enabled { a := ArmFrom(a, now); }
        alarms := alarms[cursor := a];
      }
    }

    /** The focused alarm goes, all others stay in order, and the cursor stays on the list. */
    method DeleteFocused()
      requires Valid()
      modifies this
      ensures Valid() && nextId == old(nextId) && tab == old(tab)
      ensures if 0 <= old(cursor) < |old(alarms)|
              then alarms == old(alarms)[..old(cursor)] + old(alarms)[old(cursor) + 1..]
                   && 0 <= cursor && (alarms == [] || cursor < |alarms|)
              else alarms == old(alarms) && cursor == old(cursor)
    {
      if cursor >= 0 && cursor < |alarms| {
        alarms := alarms[..cursor] + alarms[cursor + 1..];
        if cursor >= |alarms| && cursor > 0 { cursor := cursor - 1; }
      }
    }

    /**
     alarmSaveAlarm: the edited alarm, found by id, is changed and re-armed, or a new
     one with an unused id is added; nothing else changes but the order.
     */
    method SaveAlarm(editId: int, hour: int, minute: int, name: string, now: Instant)
      requires Valid()
      modifies this
      ensures Valid() && Sorted(alarms) && cursor == old(cursor) && tab == old(tab)
      ensures editId >= 0 ==> nextId == old(nextId)
      ensures editId >= 0 ==> forall id ::
                Lookup(alarms, id) == EditedLookup(old(alarms), editId, Edit(now, hour, minute, name), id)
      ensures editId < 0 ==> nextId == old(nextId) + 1 && Lookup(old(alarms), nextId).None?
      ensures editId < 0 ==> forall id ::
                Lookup(alarms, id) == if id == nextId
                                      then Some(NewAlarm(nextId, hour, minute, name, now))
                                      else Lookup(old(alarms), id)
    {
      ghost var before := alarms;
      if editId >= 0 {
        var i := 0;
        while i < |alarms| && alarms[i].id != editId
          invariant 0 <= i <= |alarms| && alarms == before
          invariant nextId == old(nextId) && cursor == old(cursor) && tab == old(tab)
          invariant forall j :: 0 <= j < i ==> alarms[j].id != editId
        {
          i := i + 1;
        }
        if i < |alarms| {
          alarms := alarms[i := ArmFrom(alarms[i].(hour := hour, minute := minute, name := name), now)];
        }
        UpdateLookup(before, alarms, editId, Edit(now, hour, minute, name), i);
      } else {
        nextId := nextId + 1;
        var e := NewAlarm(nextId, hour, minute, name, now);
        alarms := alarms + [e];
        AppendLookup(before, e);
      }
      Resort();
    }

    /** The sort at the end of a save. */
    method Resort()
      requires Valid()
      modifies this`alarms
      ensures Valid() && Sorted(alarms) && forall id :: Lookup(alarms, id) == Lookup(old(alarms), id)
    {
      var r := SortByTime(alarms);
      PermutedLookup(alarms, r);
      forall i | 0 <= i < |r| ensures r[i].id <= nextId {
        assert r[i] in multiset(alarms);
      }
      alarms := r;
    }
  }

  function NewAlarm(id: int, hour: int, minute: int, name: string, now: Instant): Entry {
    ArmFrom(Entry(id, hour, minute, name, true, None, None), now)
  }

  /** What a lookup finds after the alarm `editId` reacted to e. */
  function EditedLookup(s: seq<Entry>, editId: int, e: Event, id: int): Option<Entry> {
    match Lookup(s, id)
    case None => None
    case Some(a) => Some(if id == editId then React(a, e) else a)
  }

  lemma UpdateLookup(s: seq<Entry>, t: seq<Entry>, editId: int, e: Event, i: nat)
    requires DistinctIds(s) && i <= |s| && e.Edit?
    requires forall j :: 0 <= j < i ==> s[j].id != editId
    requires i < |s| ==> s[i].id == editId
    requires t == if i < |s| then s[i := React(s[i], e)] else s
    ensures forall id :: Lookup(t, id) == EditedLookup(s, editId, e, id)
  {
    forall id ensures Lookup(t, id) == EditedLookup(s, editId, e, id) {
      LookupFinds(s, id);
      LookupFinds(t, id);
      assert forall j :: 0 <= j < |t| ==> t[j].id == s[j].id;
      if Lookup(s, id).Some? {
        var j :| 0 <= j < |s| && s[j].id == id;
        LookupAt(s, j);
        LookupAt(t, j);
      }
    }
  }

  lemma AppendLookup(s: seq<Entry>, e: Entry)
    requires forall i :: 0 <= i < |s| ==> s[i].id < e.id
    ensures forall id :: Lookup(s + [e], id) == if id == e.id then Some(e) else Lookup(s, id)
    ensures Lookup(s, e.id).None?
  {
    LookupFinds(s, e.id);
    forall id ensures Lookup(s + [e], id) == if id == e.id then Some(e) else Lookup(s, id) {
      AppendLookupOne(s, e, id);
    }
  }

  lemma {:induction false} AppendLookupOne(s: seq<Entry>, e: Entry, id: int)
    requires forall i :: 0 <= i < |s| ==> s[i].id != e.id
    ensures Lookup(s + [e], id) == if id == e.id then Some(e) else Lookup(s, id)
  {
    if s == [] {
      assert s + [e] == [e] && [e][1..] == [];
    } else {
      assert (s + [e])[1..] == s[1..] + [e];
      AppendLookupOne(s[1..], e, id);
    }
  }
}
