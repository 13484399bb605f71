/**
 * The client-side calendar store: event mutations, recurring-occurrence
 * generation, and the day / week / month views.
 *
 * An instant is an integer number of milliseconds since the epoch, read in a
 * time zone without offset or daylight-saving changes, so a calendar day is
 * exactly `DayMs` long and 1970-01-01 (a Thursday) is day 0.
 */
module Calendar {
  import opened Base
  import opened RecordList

  const DayMs: int := 86_400_000

  datatype Event = Event(
    id: string,
    title: string,
    description: string,
    category: string,
    startDate: int,
    endDate: int,
    recurrence: string)

  function EventId(e: Event): string { e.id }

  // ---------------------------------------------------------------------------
  // Calendar arithmetic (`Date.prototype.getDay`, `setDate`, `getFullYear`, ...)

  /** `getDay()`: 0 for Sunday, 1 for Monday, ..., 6 for Saturday. */
  function Weekday(t: int): (w: int)
    ensures 0 <= w < 7
  {
    (t / DayMs + 4) % 7
  }

  /** Moving an instant by whole days moves its weekday by as many places and keeps its time of day. */
  lemma ShiftDays(t: int, c: int)
    ensures (t + c * DayMs) / DayMs == t / DayMs + c
    ensures (t + c * DayMs) % DayMs == t % DayMs
    ensures Weekday(t + c * DayMs) == (Weekday(t) + c) % 7
  {
    var q, r := t / DayMs, t % DayMs;
    assert t + c * DayMs == (q + c) * DayMs + r;
    assert 0 <= r < DayMs;
  }

  /** getStartOfWeek: `setDate(getDate() - day + (day === 0 ? -6 : 1))`. */
  function StartOfWeek(t: int): (r: int)
    ensures r <= t < r + 7 * DayMs
    ensures (t - r) % DayMs == 0
  {
    var day := Weekday(t);
    t + (-day + (if day == 0 then -6 else 1)) * DayMs
  }

  /** getEndOfWeek: `setDate(getDate() - day + 7)`. */
  function EndOfWeek(t: int): (r: int)
    ensures t < r <= t + 7 * DayMs
    ensures (r - t) % DayMs == 0
  {
    t + (-Weekday(t) + 7) * DayMs
  }

  /**
   * The week starts on the Monday of the instant's week (the previous Monday
   * for a Sunday), at the same time of day, and never after the instant.
   */
  lemma StartOfWeekIsMonday(t: int)
    ensures Weekday(StartOfWeek(t)) == 1
    ensures StartOfWeek(t) <= t < StartOfWeek(t) + 7 * DayMs
    ensures StartOfWeek(t) % DayMs == t % DayMs
  {
    var day := Weekday(t);
    ShiftDays(t, -day + (if day == 0 then -6 else 1));
  }

  /**
   * The week ends on a Sunday: the same Sunday for Monday to Saturday, six
   * days after the start, but the FOLLOWING Sunday when the instant is itself
   * a Sunday, thirteen days after the start.
   */
  lemma EndOfWeekIsSunday(t: int)
    ensures Weekday(EndOfWeek(t)) == 0
    ensures t < EndOfWeek(t)
    ensures EndOfWeek(t) - StartOfWeek(t) == (if Weekday(t) == 0 then 13 else 6) * DayMs
  {
    ShiftDays(t, -Weekday(t) + 7);
  }

  /** A calendar date as `getFullYear()`, `getMonth()` (0 to 11) and `getDate()` give it. */
  datatype CivilDate = CivilDate(year: int, month: int, day: int)

  /** The proleptic Gregorian date of a day number (days since 1970-01-01). */
  function CivilFromDays(days: int): CivilDate
  {
    var z := days + 719468;
    var era := z / 146097;
    var doe := z - era * 146097;
    var yoe := (doe - doe / 1460 + doe / 36524 - doe / 146096) / 365;
    var doy := doe - (365 * yoe + yoe / 4 - yoe / 100);
    var mp := (5 * doy + 2) / 153;
    var month := if mp < 10 then mp + 2 else mp - 10;
    CivilDate(yoe + era * 400 + (if month <= 1 then 1 else 0), month, doy - (153 * mp + 2) / 5 + 1)
  }

  /**
   * The day number of `new Date(year, month, day)`: a month outside 0..11
   * carries into the year and day 0 is the last day of the previous month.
   */
  function DaysFromCivil(year: int, month: int, day: int): int
  {
    var y := year + month / 12;
    var m := month % 12;
    var y' := if m <= 1 then y - 1 else y;
    var era := y' / 400;
    var yoe := y' - era * 400;
    var mp := if m >= 2 then m - 2 else m + 10;
    var doy := (153 * mp + 2) / 5;
    era * 146097 + yoe * 365 + yoe / 4 - yoe / 100 + doy - 719468 + day - 1
  }

  function DateOf(t: int): CivilDate { CivilFromDays(t / DayMs) }

  /** isSameDay: equal year, month and day of the month. */
  predicate IsSameDay(a: int, b: int): (r: bool)
    ensures a / DayMs == b / DayMs ==> r
  {
    DateOf(a).year == DateOf(b).year && DateOf(a).month == DateOf(b).month && DateOf(a).day == DateOf(b).day
  }

  /** `new Date(y, m, 1)`: midnight of the first day of the instant's month. */
  function MonthStart(t: int): (r: int)
    ensures r % DayMs == 0
  {
    var days := DaysFromCivil(DateOf(t).year, DateOf(t).month, 1);
    WholeDays(days);
    days * DayMs
  }

  /** `new Date(y, m + 1, 0)`: midnight (not the end) of the last day of the instant's month. */
  function MonthEnd(t: int): (r: int)
    ensures r % DayMs == 0
  {
    var days := DaysFromCivil(DateOf(t).year, DateOf(t).month + 1, 0);
    WholeDays(days);
    days * DayMs
  }

  lemma WholeDays(days: int)
    ensures (days * DayMs) % DayMs == 0
  {
  }

  /**
   * The month view's upper bound is inclusive but sits at midnight: an event
   * later on the month's last day falls on that same day yet is left out.
   */
  lemma LaterOnLastDayExcluded(t: int, start: int)
    requires MonthEnd(t) < start < MonthEnd(t) + DayMs
    ensures IsSameDay(start, MonthEnd(t))
    ensures !(MonthStart(t) <= start <= MonthEnd(t))
  {
    var n := DaysFromCivil(DateOf(t).year, DateOf(t).month + 1, 0);
    WithinDay(n, start);
    WithinDay(n, MonthEnd(t));
  }

  lemma WithinDay(n: int, u: int)
    requires n * DayMs <= u < n * DayMs + DayMs
    ensures u / DayMs == n
  {
    ShiftDays(u - n * DayMs, n);
  }

  // ---------------------------------------------------------------------------
  // Recurring events

  /**
   * `setMonth(getMonth() + 1)` and `setFullYear(getFullYear() + 1)`, whose
   * month-length and leap-year normalisation is not modelled; the model only
   * relies on both moving strictly forward.
   */
  datatype CalendarSteps = CalendarSteps(nextMonth: int -> int, nextYear: int -> int)

  ghost predicate MovesForward(cal: CalendarSteps)
  {
    forall t :: cal.nextMonth(t) > t && cal.nextYear(t) > t
  }

  /** The recurrence values the `switch` of generateRecurringEvents recognises. */
  predicate Recognised(recurrence: string)
  {
    recurrence == "daily" || recurrence == "weekly" || recurrence == "monthly" || recurrence == "yearly"
  }

  /** One pass of the `switch`: the next occurrence's start; with no matching case it stays put. */
  function Step(recurrence: string, t: int, cal: CalendarSteps): (r: int)
    requires MovesForward(cal)
    ensures Recognised(recurrence) <==> r > t
    ensures !Recognised(recurrence) ==> r == t
    ensures recurrence == "daily" ==> r == t + DayMs
    ensures recurrence == "weekly" ==> r == t + 7 * DayMs
    ensures recurrence == "monthly" ==> r == cal.nextMonth(t)
    ensures recurrence == "yearly" ==> r == cal.nextYear(t)
  {
    if recurrence == "daily" then t + DayMs
    else if recurrence == "weekly" then t + 7 * DayMs
    else if recurrence == "monthly" then cal.nextMonth(t)
    else if recurrence == "yearly" then cal.nextYear(t)
    else t
  }

  /** `{...event, id, startDate, endDate}`: a copy of the event moved to start at `t`, same duration. */
  function Occurrence(ev: Event, t: int, id: string): (r: Event)
    ensures r.startDate == t && r.id == id
    ensures r.endDate - r.startDate == ev.endDate - ev.startDate
    ensures r.(id := ev.id, startDate := ev.startDate, endDate := ev.endDate) == ev
  {
    ev.(id := id, startDate := t, endDate := t + (ev.endDate - ev.startDate))
  }

  /**
   * The occurrences the loop emits from the current date `t` on, the `k`-th
   * taking id `ids(k)`: one per step while `t` is before the horizon.
   */
  function OccurrencesFrom(ev: Event, t: int, k: nat, horizon: int, ids: nat -> string, cal: CalendarSteps): (r: seq<Event>)
    requires MovesForward(cal)
    requires Recognised(ev.recurrence) || t >= horizon
    ensures (|r| > 0) == (t < horizon)
    ensures |r| > 0 ==> r[0].startDate == t
    ensures forall j :: 0 <= j < |r| ==> r[j] == Occurrence(ev, r[j].startDate, ids(k + j)) && r[j].startDate < horizon
    decreases if t < horizon then horizon - t else 0
  {
    if t >= horizon then []
    else [Occurrence(ev, t, ids(k))] + OccurrencesFrom(ev, Step(ev.recurrence, t, cal), k + 1, horizon, ids, cal)
  }

  /** Consecutive starts are one `Step` apart, and the step after the last reaches the horizon. */
  predicate StepsApart(r: seq<Event>, recurrence: string, horizon: int, cal: CalendarSteps)
    requires MovesForward(cal)
  {
    (forall j :: 0 <= j < |r| - 1 ==> r[j + 1].startDate == Step(recurrence, r[j].startDate, cal))
    && (|r| > 0 ==> Step(recurrence, r[|r| - 1].startDate, cal) >= horizon)
  }

  lemma {:induction false} OccurrencesStepApart(ev: Event, t: int, k: nat, horizon: int, ids: nat -> string, cal: CalendarSteps)
    requires MovesForward(cal)
    requires Recognised(ev.recurrence) || t >= horizon
    ensures StepsApart(OccurrencesFrom(ev, t, k, horizon, ids, cal), ev.recurrence, horizon, cal)
    decreases if t < horizon then horizon - t else 0
  {
    if t < horizon {
      var next := Step(ev.recurrence, t, cal);
      var r := OccurrencesFrom(ev, t, k, horizon, ids, cal);
      var rest := OccurrencesFrom(ev, next, k + 1, horizon, ids, cal);
      OccurrencesStepApart(ev, next, k + 1, horizon, ids, cal);
      assert r == [r[0]] + rest;
      forall j | 0 <= j < |r| - 1 ensures r[j + 1].startDate == Step(ev.recurrence, r[j].startDate, cal) {
        if j > 0 {
          assert r[j] == rest[j - 1] && r[j + 1] == rest[j];
        }
      }
      if rest != [] {
        assert r[|r| - 1] == rest[|rest| - 1];
      }
    }
  }

  /** generateRecurringEvents, with `sixMonthsFromNow` as the horizon and `ids` as the fresh ids. */
  function Occurrences(ev: Event, horizon: int, ids: nat -> string, cal: CalendarSteps): (r: seq<Event>)
    requires MovesForward(cal)
    requires Recognised(ev.recurrence) || ev.startDate >= horizon
    ensures (r == []) == (ev.startDate >= horizon)
  {
    OccurrencesFrom(ev, ev.startDate, 0, horizon, ids, cal)
  }

  /**
   * No occurrence when the event starts at or after the horizon; otherwise the
   * first is the event's own start, and every one keeps its duration and lies
   * before the horizon.
   */
  lemma OccurrencesStartAtEvent(ev: Event, horizon: int, ids: nat -> string, cal: CalendarSteps)
    requires MovesForward(cal)
    requires Recognised(ev.recurrence) || ev.startDate >= horizon
    ensures ev.startDate >= horizon ==> Occurrences(ev, horizon, ids, cal) == []
    ensures ev.startDate < horizon ==> Occurrences(ev, horizon, ids, cal)[0].startDate == ev.startDate
    ensures forall e :: e in Occurrences(ev, horizon, ids, cal) ==>
      e.endDate - e.startDate == ev.endDate - ev.startDate && e.startDate < horizon
  {
  }

  /** Daily and weekly occurrences are exactly one and seven days apart, every one before the horizon. */
  lemma DailyWeeklySpacing(ev: Event, horizon: int, ids: nat -> string, cal: CalendarSteps)
    requires MovesForward(cal)
    requires ev.recurrence == "daily" || ev.recurrence == "weekly"
    ensures var r := Occurrences(ev, horizon, ids, cal);
      forall j :: 0 <= j < |r| - 1 ==>
        r[j + 1].startDate - r[j].startDate == (if ev.recurrence == "daily" then 1 else 7) * DayMs
  {
    OccurrencesStepApart(ev, ev.startDate, 0, horizon, ids, cal);
  }

  predicate StartsIncreasingFrom(r: seq<Event>, t: int)
  {
    (forall i :: 0 <= i < |r| ==> t <= r[i].startDate)
    && forall i, j :: 0 <= i < j < |r| ==> r[i].startDate < r[j].startDate
  }

  /**
   * Occurrence starts strictly increase from the event's own start, so no two
   * occurrences coincide.
   */
  lemma {:induction false} OccurrencesIncrease(ev: Event, t: int, k: nat, horizon: int, ids: nat -> string, cal: CalendarSteps)
    requires MovesForward(cal)
    requires Recognised(ev.recurrence) || t >= horizon
    ensures StartsIncreasingFrom(OccurrencesFrom(ev, t, k, horizon, ids, cal), t)
    decreases if t < horizon then horizon - t else 0
  {
    if t < horizon {
      var next := Step(ev.recurrence, t, cal);
      var r := OccurrencesFrom(ev, t, k, horizon, ids, cal);
      var rest := OccurrencesFrom(ev, next, k + 1, horizon, ids, cal);
      OccurrencesIncrease(ev, next, k + 1, horizon, ids, cal);
      assert r == [r[0]] + rest;
      assert next > t;
      forall i | 0 < i < |r| ensures next <= r[i].startDate {
        assert r[i] == rest[i - 1];
      }
      forall i, j | 0 <= i < j < |r| ensures r[i].startDate < r[j].startDate {
        assert r[j] == rest[j - 1];
        if i > 0 {
          assert r[i] == rest[i - 1];
        }
      }
    }
  }

  lemma OccurrencesFromStep(ev: Event, t: int, k: nat, horizon: int, ids: nat -> string, cal: CalendarSteps)
    requires MovesForward(cal) && Recognised(ev.recurrence) && t < horizon
    ensures OccurrencesFrom(ev, t, k, horizon, ids, cal)
      == [Occurrence(ev, t, ids(k))] + OccurrencesFrom(ev, Step(ev.recurrence, t, cal), k + 1, horizon, ids, cal)
  {
  }

  /** One pass of the loop: emitting the occurrence at `t` and stepping on leaves the total unchanged. */
  lemma EmitOccurrence(ev: Event, done: seq<Event>, t: int, horizon: int, ids: nat -> string, cal: CalendarSteps)
    requires MovesForward(cal) && Recognised(ev.recurrence) && t < horizon
    ensures (done + [Occurrence(ev, t, ids(|done|))]) + OccurrencesFrom(ev, Step(ev.recurrence, t, cal), |done| + 1, horizon, ids, cal)
      == done + OccurrencesFrom(ev, t, |done|, horizon, ids, cal)
  {
    OccurrencesFromStep(ev, t, |done|, horizon, ids, cal);
  }

  /** The while loop of generateRecurringEvents. */
  method GenerateRecurring(ev: Event, horizon: int, ids: nat -> string, cal: CalendarSteps) returns (events: seq<Event>)
    requires MovesForward(cal)
    requires Recognised(ev.recurrence) || ev.startDate >= horizon
    ensures events == Occurrences(ev, horizon, ids, cal)
  {
    events := [];
    var currentDate := ev.startDate;
    while currentDate < horizon
      invariant Recognised(ev.recurrence) || currentDate >= horizon
      invariant events + OccurrencesFrom(ev, currentDate, |events|, horizon, ids, cal) == Occurrences(ev, horizon, ids, cal)
      decreases horizon - currentDate
    {
      ghost var next := Step(ev.recurrence, currentDate, cal);
      var occurrence := Occurrence(ev, currentDate, ids(|events|));
      EmitOccurrence(ev, events, currentDate, horizon, ids, cal);
      events := events + [occurrence];
      if ev.recurrence == "daily" {
        currentDate := currentDate + DayMs;
      } else if ev.recurrence == "weekly" {
        currentDate := currentDate + 7 * DayMs;
      } else if ev.recurrence == "monthly" {
        currentDate := cal.nextMonth(currentDate);
      } else if ev.recurrence == "yearly" {
        currentDate := cal.nextYear(currentDate);
      }
      assert currentDate == next;
    }
  }

  class EventStore {
    var events: seq<Event>

    constructor ()
      ensures events == []
    {
      events := [];
    }

    /** SET_EVENTS. */
    method SetEvents(list: seq<Event>)
      modifies this
      ensures events == list
    {
      events := list;
    }

    /** ADD_EVENT: `push` onto the end. */
    method AddEventMutation(ev: Event)
      modifies this
      ensures events == old(events) + [ev]
    {
      events := events + [ev];
    }

    /** UPDATE_EVENT: the first event with the same id is replaced; otherwise nothing changes. */
    method UpdateEvent(updated: Event)
      modifies this
      ensures events == ReplaceFirst(old(events), EventId, updated)
    {
      var index := FindIndex(events, EventId, updated.id);
      if index.Some? {
        events := events[index.value := updated];
      }
    }

    /** DELETE_EVENT: every event with the id is filtered out, the rest keep their order. */
    method DeleteEvent(id: string)
      modifies this
      ensures events == RemoveId(old(events), EventId, id)
    {
      events := RemoveId(events, EventId, id);
    }

    /**
     * The addEvent action: with a (truthy) recurrence, every generated
     * occurrence is committed in order; otherwise the event itself.
     * An unrecognised recurrence starting before the horizon never leaves the
     * generating loop, so callers must not pass one.
     */
    method AddEvent(ev: Event, horizon: int, ids: nat -> string, cal: CalendarSteps)
      requires MovesForward(cal)
      requires ev.recurrence == "" || Recognised(ev.recurrence) || ev.startDate >= horizon
      modifies this
      ensures ev.recurrence == "" ==> events == old(events) + [ev]
      ensures ev.recurrence != "" ==> events == old(events) + Occurrences(ev, horizon, ids, cal)
    {
      if ev.recurrence != "" {
        var recurring := GenerateRecurring(ev, horizon, ids, cal);
        var i := 0;
        while i < |recurring|
          invariant 0 <= i <= |recurring|
          invariant events == old(events) + recurring[..i]
        {
          AddEventMutation(recurring[i]);
          assert recurring[..i + 1] == recurring[..i] + [recurring[i]];
          i := i + 1;
        }
        assert recurring[..|recurring|] == recurring;
      } else {
        AddEventMutation(ev);
      }
    }

    /** Getter eventsForDay: the events starting on the same calendar day as `date`. */
    function EventsForDay(date: int): (r: seq<Event>)
      reads this
      ensures forall j :: 0 <= j < |r| ==> IsSameDay(r[j].startDate, date) && r[j] in events
      ensures forall j :: 0 <= j < |events| && IsSameDay(events[j].startDate, date) ==> events[j] in r
    {
      Keep(events, (e: Event) => IsSameDay(e.startDate, date))
    }

    /** Getter eventsForWeek: events starting between the week's start and end, both inclusive. */
    function EventsForWeek(date: int): (r: seq<Event>)
      reads this
      ensures forall j :: 0 <= j < |r| ==>
        StartOfWeek(date) <= r[j].startDate <= EndOfWeek(date) && r[j] in events
      ensures forall j :: 0 <= j < |events| && StartOfWeek(date) <= events[j].startDate <= EndOfWeek(date) ==>
        events[j] in r
    {
      var start, end := StartOfWeek(date), EndOfWeek(date);
      Keep(events, (e: Event) => start <= e.startDate <= end)
    }

    /** Getter eventsForMonth: events starting between the month's first midnight and its last midnight. */
    function EventsForMonth(date: int): (r: seq<Event>)
      reads this
      ensures forall j :: 0 <= j < |r| ==>
        MonthStart(date) <= r[j].startDate <= MonthEnd(date) && r[j] in events
      ensures forall j :: 0 <= j < |events| && MonthStart(date) <= events[j].startDate <= MonthEnd(date) ==>
        events[j] in r
    {
      var start, end := MonthStart(date), MonthEnd(date);
      Keep(events, (e: Event) => start <= e.startDate <= end)
    }
  }
}
