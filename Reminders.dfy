/**
 * NotificationService: a periodic check that raises a browser notification
 * one hour and ten minutes before an event starts or a task is due, at most
 * once per item and lead time, remembering what it raised in a set of
 * `id-timing` keys.
 */
module Reminders {
  import opened Base

  const CheckIntervalMs: int := 60_000
  const HourMs: int := 3_600_000
  const TenMinutesMs: int := 600_000

  /** The two lead times, tagged "1h" and "10m" in the de-duplication keys. */
  datatype Timing = OneHour | TenMinutes

  function Tag(timing: Timing): string
  {
    match timing
    case OneHour => "1h"
    case TenMinutes => "10m"
  }

  function Threshold(timing: Timing): int
  {
    match timing
    case OneHour => HourMs
    case TenMinutes => TenMinutesMs
  }

  /** The de-duplication key `${id}-${timing}`; it does not say whether the id is an event's or a task's. */
  function Key(id: string, timing: Timing): (k: string)
    ensures |k| == |id| + 1 + |Tag(timing)|
    ensures k[..|id|] == id && k[|id|] == '-' && k[|id| + 1..] == Tag(timing)
  {
    id + "-" + Tag(timing)
  }

  /** Distinct (id, timing) pairs never share a key: the two tags end in different letters. */
  lemma KeyInjective(a: string, ta: Timing, b: string, tb: Timing)
    requires Key(a, ta) == Key(b, tb)
    ensures a == b && ta == tb
  {
    var k := Key(a, ta);
    assert k[|k| - 1] == Tag(ta)[|Tag(ta)| - 1];
    assert Key(b, tb)[|k| - 1] == Tag(tb)[|Tag(tb)| - 1];
    assert ta == tb;
    assert a == k[..|a|];
    assert b == Key(b, tb)[..|b|];
  }

  datatype ItemKind = EventItem | TaskItem

  /**
   * An event or task read from storage. `due` is the event's `start` or the
   * task's `dueDate` as an instant in milliseconds, `None` when the field is
   * missing or is not a date (then every comparison with it is false).
   */
  datatype Item = Item(id: string, title: string, description: string, due: Option<int>)

  /** What one call of showNotification raises. */
  datatype Reminder = Reminder(heading: string, kind: ItemKind, id: string, timing: Timing, title: string, description: string)

  function Heading(kind: ItemKind): string
  {
    match kind
    case EventItem => "Eveniment în curând"
    case TaskItem => "Task în curând"
  }

  /** `timeUntil > 0 && timeUntil <= threshold`. */
  predicate Due(item: Item, now: int, timing: Timing)
  {
    item.due.Some? && 0 < item.due.value - now <= Threshold(timing)
  }

  /** One lead-time test on one item: raise and record the key when due and not yet recorded. */
  function CheckOne(notified: set<string>, kind: ItemKind, item: Item, now: int, timing: Timing): (r: (set<string>, seq<Reminder>))
    ensures r.1 != [] <==> Due(item, now, timing) && Key(item.id, timing) !in notified
    ensures r.1 != [] ==> r.1 == [Reminder(Heading(kind), kind, item.id, timing, item.title, item.description)]
    ensures r.0 == notified + KeysOf(r.1)
  {
    if Due(item, now, timing) && Key(item.id, timing) !in notified then
      var reminder := Reminder(Heading(kind), kind, item.id, timing, item.title, item.description);
      assert KeysOf([reminder]) == {Key(item.id, timing)};
      (notified + {Key(item.id, timing)}, [reminder])
    else
      (notified, [])
  }

  /** The keys of the reminders raised. */
  function KeysOf(fired: seq<Reminder>): set<string>
  {
    if fired == [] then {} else KeysOf(fired[..|fired| - 1]) + {Key(fired[|fired| - 1].id, fired[|fired| - 1].timing)}
  }

  lemma {:induction false} KeysOfAppend(a: seq<Reminder>, b: seq<Reminder>)
    ensures KeysOf(a + b) == KeysOf(a) + KeysOf(b)
    decreases |b|
  {
    if b != [] {
      assert (a + b)[..|a + b| - 1] == a + b[..|b| - 1];
      KeysOfAppend(a, b[..|b| - 1]);
    } else {
      assert a + b == a;
    }
  }

  /** Every key of a raised reminder is among the recorded keys. */
  lemma {:induction false} KeysOfContains(fired: seq<Reminder>)
    ensures forall j :: 0 <= j < |fired| ==> Key(fired[j].id, fired[j].timing) in KeysOf(fired)
    decreases |fired|
  {
    if fired != [] {
      var front := fired[..|fired| - 1];
      KeysOfContains(front);
      assert forall j :: 0 <= j < |front| ==> fired[j] == front[j];
    }
  }

  /**
   * What the source promises of the reminders a check raises: each is of the
   * kind being checked, for a lead time at which one of the items is due and
   * whose key was not yet recorded, and no key is raised twice.
   */
  ghost predicate Warranted(notified: set<string>, kind: ItemKind, items: seq<Item>, now: int, fired: seq<Reminder>)
  {
    (forall j :: 0 <= j < |fired| ==>
       fired[j].kind == kind && Key(fired[j].id, fired[j].timing) !in notified
       && exists i :: 0 <= i < |items| && items[i].id == fired[j].id && Due(items[i], now, fired[j].timing))
    && forall i, j :: 0 <= i < j < |fired| ==> Key(fired[i].id, fired[i].timing) != Key(fired[j].id, fired[j].timing)
  }

  /** Both lead-time tests for one item, the hour first. */
  function CheckItem(notified: set<string>, kind: ItemKind, item: Item, now: int): (r: (set<string>, seq<Reminder>))
    ensures r.0 == notified + KeysOf(r.1)
    ensures Recorded(r.0, item, now)
    ensures Recorded(notified, item, now) ==> r == (notified, [])
  {
    var (n1, f1) := CheckOne(notified, kind, item, now, OneHour);
    var (n2, f2) := CheckOne(n1, kind, item, now, TenMinutes);
    KeysOfAppend(f1, f2);
    (n2, f1 + f2)
  }

  /**
   * The reminders for one item are warranted: each for a lead time at which it
   * is due and whose key was unrecorded, the two keys distinct.
   */
  lemma CheckItemWarranted(notified: set<string>, kind: ItemKind, item: Item, now: int)
    ensures Warranted(notified, kind, [item], now, CheckItem(notified, kind, item, now).1)
  {
    var f := CheckItem(notified, kind, item, now).1;
    CheckItemEach(notified, kind, item, now);
    CheckItemKeysDistinct(notified, kind, item, now);
    assert [item][0] == item;
  }

  /** Each reminder raised for an item is of its kind, for a lead time at which it is due, with an unrecorded key. */
  lemma CheckItemEach(notified: set<string>, kind: ItemKind, item: Item, now: int)
    ensures var f := CheckItem(notified, kind, item, now).1;
      forall j :: 0 <= j < |f| ==>
        f[j].kind == kind && f[j].id == item.id && Key(item.id, f[j].timing) !in notified && Due(item, now, f[j].timing)
  {
    var (n1, f1) := CheckOne(notified, kind, item, now, OneHour);
    var (n2, f2) := CheckOne(n1, kind, item, now, TenMinutes);
    var f := f1 + f2;
    assert CheckItem(notified, kind, item, now).1 == f;
    forall j | 0 <= j < |f|
      ensures f[j].kind == kind && f[j].id == item.id && Key(item.id, f[j].timing) !in notified && Due(item, now, f[j].timing)
    {
      if j < |f1| {
        assert f[j] == f1[j];
      } else {
        assert f[j] == f2[j - |f1|];
      }
    }
  }

  /** The hour key and the ten-minute key of one item are never raised twice. */
  lemma CheckItemKeysDistinct(notified: set<string>, kind: ItemKind, item: Item, now: int)
    ensures var f := CheckItem(notified, kind, item, now).1;
      forall i, j :: 0 <= i < j < |f| ==> Key(f[i].id, f[i].timing) != Key(f[j].id, f[j].timing)
  {
    var (n1, f1) := CheckOne(notified, kind, item, now, OneHour);
    var (n2, f2) := CheckOne(n1, kind, item, now, TenMinutes);
    assert CheckItem(notified, kind, item, now).1 == f1 + f2;
    TimingKeysDiffer(item.id);
  }

  lemma TimingKeysDiffer(id: string)
    ensures Key(id, OneHour) != Key(id, TenMinutes)
  {
    if Key(id, OneHour) == Key(id, TenMinutes) {
      KeyInjective(id, OneHour, id, TenMinutes);
    }
  }

  /** The item recorded for every lead time at which it is due. */
  ghost predicate Recorded(notified: set<string>, item: Item, now: int)
  {
    forall timing :: Due(item, now, timing) ==> Key(item.id, timing) in notified
  }

  /** Every item recorded for every lead time at which it is due. */
  ghost predicate AllRecorded(notified: set<string>, items: seq<Item>, now: int)
  {
    forall j, timing :: 0 <= j < |items| && Due(items[j], now, timing) ==> Key(items[j].id, timing) in notified
  }

  lemma AllRecordedExtend(n: set<string>, n': set<string>, items: seq<Item>, now: int)
    requires |items| > 0 && n <= n'
    requires AllRecorded(n, items[..|items| - 1], now)
    requires Recorded(n', items[|items| - 1], now)
    ensures AllRecorded(n', items, now)
  {
    forall j, timing | 0 <= j < |items| && Due(items[j], now, timing)
      ensures Key(items[j].id, timing) in n'
    {
      if j < |items| - 1 {
        assert items[j] == items[..|items| - 1][j];
      }
    }
  }

  lemma AllRecordedPrefix(n: set<string>, items: seq<Item>, now: int)
    requires |items| > 0
    ensures AllRecorded(n, items, now) ==> AllRecorded(n, items[..|items| - 1], now)
    ensures AllRecorded(n, items, now) ==> Recorded(n, items[|items| - 1], now)
  {
    assert forall j :: 0 <= j < |items| - 1 ==> items[..|items| - 1][j] == items[j];
  }

  /** The `forEach` over a list of items of one kind, in order. */
  function CheckAll(notified: set<string>, kind: ItemKind, items: seq<Item>, now: int): (r: (set<string>, seq<Reminder>))
    ensures r.0 == notified + KeysOf(r.1)
    ensures AllRecorded(r.0, items, now)
    ensures AllRecorded(notified, items, now) ==> r == (notified, [])
    decreases |items|
  {
    if items == [] then (notified, [])
    else
      var last := items[|items| - 1];
      var (n1, f1) := CheckAll(notified, kind, items[..|items| - 1], now);
      var (n2, f2) := CheckItem(n1, kind, last, now);
      KeysOfAppend(f1, f2);
      AllRecordedExtend(n1, n2, items, now);
      AllRecordedPrefix(notified, items, now);
      (n2, f1 + f2)
  }

  /** A pass over a prefix one item longer is the shorter pass, then that item. */
  lemma CheckAllLast(notified: set<string>, kind: ItemKind, items: seq<Item>, i: int, now: int)
    requires 0 <= i < |items|
    ensures var before := CheckAll(notified, kind, items[..i], now);
      var step := CheckItem(before.0, kind, items[i], now);
      CheckAll(notified, kind, items[..i + 1], now) == (step.0, before.1 + step.1)
  {
    assert items[..i + 1][..i] == items[..i];
  }

  /** Checking one item is the hour test, then the ten-minute test on the grown set. */
  lemma CheckItemSteps(notified: set<string>, kind: ItemKind, item: Item, now: int)
    ensures var hour := CheckOne(notified, kind, item, now, OneHour);
      var tenMinutes := CheckOne(hour.0, kind, item, now, TenMinutes);
      CheckItem(notified, kind, item, now) == (tenMinutes.0, hour.1 + tenMinutes.1)
  {
  }

  /**
   * Every reminder a pass over one kind of item raises is warranted: due,
   * not yet recorded, and raised once.
   */
  lemma {:induction false} CheckAllWarranted(notified: set<string>, kind: ItemKind, items: seq<Item>, now: int)
    ensures Warranted(notified, kind, items, now, CheckAll(notified, kind, items, now).1)
    decreases |items|
  {
    if items != [] {
      var last := items[|items| - 1];
      var (n1, f1) := CheckAll(notified, kind, items[..|items| - 1], now);
      var (n2, f2) := CheckItem(n1, kind, last, now);
      CheckAllWarranted(notified, kind, items[..|items| - 1], now);
      CheckItemWarranted(n1, kind, last, now);
      WarrantedAppend(notified, n1, kind, items, now, f1, f2);
    }
  }

  /** The reminders of the earlier items, then those of the last item, are warranted for the whole list. */
  lemma WarrantedAppend(notified: set<string>, n1: set<string>, kind: ItemKind, items: seq<Item>, now: int,
                        f1: seq<Reminder>, f2: seq<Reminder>)
    requires |items| > 0 && n1 == notified + KeysOf(f1)
    requires Warranted(notified, kind, items[..|items| - 1], now, f1)
    requires Warranted(n1, kind, [items[|items| - 1]], now, f2)
    ensures Warranted(notified, kind, items, now, f1 + f2)
  {
    KeysOfContains(f1);
    var f := f1 + f2;
    forall j | 0 <= j < |f|
      ensures exists i :: 0 <= i < |items| && items[i].id == f[j].id && Due(items[i], now, f[j].timing)
    {
      if j < |f1| {
        var i :| 0 <= i < |items| - 1 && items[..|items| - 1][i].id == f1[j].id && Due(items[..|items| - 1][i], now, f1[j].timing);
        assert items[i] == items[..|items| - 1][i];
      } else {
        assert f[j] == f2[j - |f1|];
        assert items[|items| - 1] == [items[|items| - 1]][0];
      }
    }
    forall i, j | 0 <= i < j < |f|
      ensures Key(f[i].id, f[i].timing) != Key(f[j].id, f[j].timing)
    {
      if j >= |f1| && i < |f1| {
        assert f[j] == f2[j - |f1|] && f[i] == f1[i];
      } else if i >= |f1| {
        assert f[j] == f2[j - |f1|] && f[i] == f2[i - |f1|];
      }
    }
  }

  /** One checkUpcoming pass with permission granted: the events, then the tasks. */
  function CheckPass(notified: set<string>, events: seq<Item>, tasks: seq<Item>, now: int): (r: (set<string>, seq<Reminder>))
    ensures r.0 == notified + KeysOf(r.1)
    ensures AllRecorded(r.0, events, now) && AllRecorded(r.0, tasks, now)
    ensures AllRecorded(notified, events, now) && AllRecorded(notified, tasks, now) ==> r == (notified, [])
  {
    var (n1, f1) := CheckAll(notified, EventItem, events, now);
    var (n2, f2) := CheckAll(n1, TaskItem, tasks, now);
    KeysOfAppend(f1, f2);
    (n2, f1 + f2)
  }

  /**
   * Keys do not say whether the id is an event's or a task's: a task sharing
   * an event's id and time is silenced once that event has been notified.
   */
  lemma SharedIdSilencesTask(notified: set<string>, event: Item, task: Item, now: int)
    requires task.id == event.id && task.due == event.due
    ensures var n := CheckItem(notified, EventItem, event, now).0;
      CheckItem(n, TaskItem, task, now) == (n, [])
  {
    var n := CheckItem(notified, EventItem, event, now).0;
    assert Recorded(n, event, now);
    assert forall timing :: Due(task, now, timing) == Due(event, now, timing);
  }

  /** An item due within ten minutes with neither key recorded raises both reminders in the same pass. */
  lemma BothFireWithinTenMinutes(notified: set<string>, kind: ItemKind, item: Item, now: int)
    requires Due(item, now, TenMinutes)
    requires Key(item.id, OneHour) !in notified && Key(item.id, TenMinutes) !in notified
    ensures |CheckItem(notified, kind, item, now).1| == 2
    ensures CheckItem(notified, kind, item, now).1[0].timing == OneHour
    ensures CheckItem(notified, kind, item, now).1[1].timing == TenMinutes
  {
    if Key(item.id, TenMinutes) == Key(item.id, OneHour) {
      KeyInjective(item.id, TenMinutes, item.id, OneHour);
    }
  }

  /** An item at or past its time, or without a date, never raises anything. */
  lemma NothingForPastItems(notified: set<string>, kind: ItemKind, item: Item, now: int)
    requires item.due.None? || item.due.value <= now
    ensures CheckItem(notified, kind, item, now) == (notified, [])
  {
    assert !Due(item, now, OneHour) && !Due(item, now, TenMinutes);
  }

  /** A second pass over the same items at the same instant raises nothing new and records nothing new. */
  lemma PassIsIdempotent(notified: set<string>, events: seq<Item>, tasks: seq<Item>, now: int)
    ensures var (n, _) := CheckPass(notified, events, tasks, now);
      CheckPass(n, events, tasks, now) == (n, [])
  {
    var (n1, f1) := CheckAll(notified, EventItem, events, now);
    var (n2, f2) := CheckAll(n1, TaskItem, tasks, now);
    assert AllRecorded(n2, events, now);
    assert AllRecorded(n2, tasks, now);
  }

  class NotificationService {
    const checkInterval: int
    var intervalId: Option<nat>
    var notifiedEvents: set<string>

    constructor ()
      ensures checkInterval == CheckIntervalMs
      ensures intervalId == None && notifiedEvents == {}
    {
      checkInterval := CheckIntervalMs;
      intervalId := None;
      notifiedEvents := {};
    }

    /** hasBeenNotified. */
    function HasBeenNotified(id: string, timing: Timing): (r: bool)
      reads this
      ensures r <==> Key(id, timing) in notifiedEvents
    {
      Key(id, timing) in notifiedEvents
    }

    /** The marking step of showNotification: the key joins the set. */
    method MarkNotified(id: string, timing: Timing)
      modifies this`notifiedEvents
      ensures notifiedEvents == old(notifiedEvents) + {Key(id, timing)}
    {
      notifiedEvents := notifiedEvents + {Key(id, timing)};
    }

    /** The 24-hour timeout callback of showNotification: the key leaves the set. */
    method Forget(id: string, timing: Timing)
      modifies this`notifiedEvents
      ensures notifiedEvents == old(notifiedEvents) - {Key(id, timing)}
    {
      notifiedEvents := notifiedEvents - {Key(id, timing)};
    }

    /** One `if` block of checkUpcoming: the test and, when it passes, showNotification. */
    method CheckTiming(kind: ItemKind, item: Item, now: int, timing: Timing) returns (fired: seq<Reminder>)
      modifies this`notifiedEvents
      ensures (notifiedEvents, fired) == CheckOne(old(notifiedEvents), kind, item, now, timing)
    {
      fired := [];
      if item.due.Some? && item.due.value - now > 0 && item.due.value - now <= Threshold(timing)
        && !HasBeenNotified(item.id, timing)
      {
        fired := [Reminder(Heading(kind), kind, item.id, timing, item.title, item.description)];
        MarkNotified(item.id, timing);
      }
    }

    /** The `forEach` over one kind of item. */
    method CheckItems(kind: ItemKind, items: seq<Item>, now: int) returns (fired: seq<Reminder>)
      modifies this`notifiedEvents
      ensures (notifiedEvents, fired) == CheckAll(old(notifiedEvents), kind, items, now)
    {
      fired := [];
      var i := 0;
      while i < |items|
        invariant 0 <= i <= |items|
        invariant (notifiedEvents, fired) == CheckAll(old(notifiedEvents), kind, items[..i], now)
      {
        CheckAllLast(old(notifiedEvents), kind, items, i, now);
        CheckItemSteps(notifiedEvents, kind, items[i], now);
        var hour := CheckTiming(kind, items[i], now, OneHour);
        var tenMinutes := CheckTiming(kind, items[i], now, TenMinutes);
        fired := fired + (hour + tenMinutes);
        i := i + 1;
      }
      assert items[..|items|] == items;
    }

    /**
     * checkUpcoming: nothing at all without notification permission; otherwise
     * the events, then the tasks (tasks without a due date are skipped).
     */
    method CheckUpcoming(granted: bool, now: int, events: seq<Item>, tasks: seq<Item>) returns (fired: seq<Reminder>)
      modifies this`notifiedEvents
      ensures !granted ==> fired == [] && notifiedEvents == old(notifiedEvents)
      ensures granted ==> (notifiedEvents, fired) == CheckPass(old(notifiedEvents), events, tasks, now)
    {
      if !granted {
        return [];
      }
      var fromEvents := CheckItems(EventItem, events, now);
      var fromTasks := CheckItems(TaskItem, tasks, now);
      fired := fromEvents + fromTasks;
    }

    /**
     * start: only when no interval is running, register `handle` (the id
     * setInterval returns) and check at once; a second start does nothing.
     */
    method Start(handle: nat, granted: bool, now: int, events: seq<Item>, tasks: seq<Item>) returns (fired: seq<Reminder>)
      modifies this
      ensures old(intervalId).Some? ==>
        intervalId == old(intervalId) && notifiedEvents == old(notifiedEvents) && fired == []
      ensures old(intervalId).None? ==> intervalId == Some(handle)
      ensures old(intervalId).None? && !granted ==> notifiedEvents == old(notifiedEvents) && fired == []
      ensures old(intervalId).None? && granted ==>
        (notifiedEvents, fired) == CheckPass(old(notifiedEvents), events, tasks, now)
    {
      fired := [];
      if intervalId.None? {
        intervalId := Some(handle);
        fired := CheckUpcoming(granted, now, events, tasks);
      }
    }

    /** stop: clear the interval if one is running; stopping when stopped changes nothing. */
    method Stop()
      modifies this`intervalId
      ensures intervalId == None
    {
      if intervalId.Some? {
        intervalId := None;
      }
    }
  }
}
