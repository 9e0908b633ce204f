/**
 * The CalDAV reminder service: onCalendarObjectCreate materialises the reminder rows
 * of a calendar object, onCalendarObjectDelete drops them, and processReminders walks
 * the due rows, sends each one, removes it and rolls a recurring alarm forward by one
 * occurrence.
 */
module ReminderService {
  import opened Options
  import opened Calendar
  import opened ReminderStore

  /** The object data handed to onCalendarObjectCreate: calendarid, id and the parsed calendardata. */
  datatype CalendarObject = CalendarObject(calendarId: int, objectId: int, event: ParsedEvent)

  /**
   * What the service reads from its collaborators: the clock, the server's default
   * zone, each calendar's timezone property (getCalendarById), the action kinds that
   * have a notification provider, and the users known for each principal URI.
   */
  datatype Environment = Environment(
    now: int,
    serverZone: int,
    calendarZones: map<int, CalendarZone>,
    providers: set<Action>,
    directory: map<string, string>)

  /** One call of a provider's send: the action kind, DTSTART of the event view, the calendar name and the user. */
  datatype Send = Send(kind: Action, occurrence: int, displayName: string, recipient: string)

  /** A calendar that getCalendarById does not return has no timezone property. */
  function CalendarZoneOf(env: Environment, calendarId: int): CalendarZone
  {
    if calendarId in env.calendarZones then env.calendarZones[calendarId] else Unset
  }

  /**
   * The rows of alarm `a` for occurrence k: the base trigger and its REPEAT copies.
   * The occurrence is identified by its start with all-day dates read in the server
   * zone; the trigger is resolved against its start read in `referenceZone`.
   */
  function OccurrenceRows(calendarId: int, objectId: int, event: ParsedEvent, start: EventStart, eventHash: Digest,
                          a: Alarm, k: nat, referenceZone: int, serverZone: int): (rows: seq<Reminder>)
    ensures |rows| == a.repeat + 1
    ensures forall i :: 0 <= i < |rows| ==>
      && rows[i].calendarId == calendarId && rows[i].objectId == objectId && rows[i].uid == event.uid
      && rows[i].isRecurring == event.weekly && rows[i].recurrenceId == OccurrenceStart(start, serverZone, k)
      && !rows[i].isRecurrenceException && rows[i].eventHash == eventHash && rows[i].alarmHash == AlarmHash(a)
      && rows[i].notificationType == a.action && rows[i].isRelative == a.trigger.Relative?
      && rows[i].notificationDate == TriggerInstant(a.trigger, OccurrenceStart(start, referenceZone, k)) + i * a.interval
      && rows[i].isRepeatBased == (i > 0)
  {
    var dates := RepeatDates(TriggerInstant(a.trigger, OccurrenceStart(start, referenceZone, k)), a.interval, a.repeat + 1);
    seq(a.repeat + 1, i requires 0 <= i < a.repeat + 1 =>
      Reminder(calendarId, objectId, event.uid, event.weekly, OccurrenceStart(start, serverZone, k), false,
               eventHash, AlarmHash(a), a.action, a.trigger.Relative?, dates[i], i > 0))
  }

  /**
   * The occurrence an alarm is materialised for: the event itself when it does not
   * recur, else the earliest occurrence whose notification is not before `now`.
   */
  function ChosenOccurrence(event: ParsedEvent, start: EventStart, a: Alarm, now: int, referenceZone: int): Option<nat>
  {
    if event.weekly then NextOccurrence(a.trigger, StartInstant(start, referenceZone), now, 0) else Some(0)
  }

  /** The rows alarm `a` contributes: its copies for the occurrence chosen for it, if any. */
  function RowsOfAlarm(o: CalendarObject, start: EventStart, a: Alarm, now: int, referenceZone: int, serverZone: int): seq<Reminder>
  {
    match ChosenOccurrence(o.event, start, a, now, referenceZone)
    case None => []
    case Some(k) => OccurrenceRows(o.calendarId, o.objectId, o.event, start, EventHash(o.event, start), a, k, referenceZone, serverZone)
  }

  /** The rows of each alarm in turn, for the occurrence chosen for it. */
  function AlarmsRows(o: CalendarObject, start: EventStart, alarms: seq<Alarm>, now: int, referenceZone: int, serverZone: int): seq<Reminder>
  {
    if alarms == [] then []
    else RowsOfAlarm(o, start, alarms[0], now, referenceZone, serverZone) + AlarmsRows(o, start, alarms[1..], now, referenceZone, serverZone)
  }

  /** The rows onCalendarObjectCreate inserts: none without DTSTART, else those of every alarm. */
  function Materialize(o: CalendarObject, now: int, calendarZone: CalendarZone, serverZone: int): seq<Reminder>
  {
    match o.event.start
    case None => []
    case Some(start) => AlarmsRows(o, start, o.event.alarms, now, ReferenceZone(calendarZone, serverZone), serverZone)
  }

  /** How many rows the alarms yield when each is materialised once: REPEAT + 1 apiece. */
  function TotalRows(alarms: seq<Alarm>): nat
  {
    if alarms == [] then 0 else alarms[0].repeat + 1 + TotalRows(alarms[1..])
  }

  /**
   * The rows of the alarms are exactly the rows each alarm contributes: every row of
   * every alarm is among them, and each of them is a row of one of the alarms.
   */
  lemma {:induction false} AlarmsRowsExactly(o: CalendarObject, start: EventStart, alarms: seq<Alarm>, now: int, referenceZone: int, serverZone: int)
    ensures forall a, y :: a in alarms && y in RowsOfAlarm(o, start, a, now, referenceZone, serverZone) ==>
      y in AlarmsRows(o, start, alarms, now, referenceZone, serverZone)
    ensures forall x :: x in AlarmsRows(o, start, alarms, now, referenceZone, serverZone) ==>
      exists a :: a in alarms && x in RowsOfAlarm(o, start, a, now, referenceZone, serverZone)
  {
    if alarms != [] {
      AlarmsRowsExactly(o, start, alarms[1..], now, referenceZone, serverZone);
      var first := RowsOfAlarm(o, start, alarms[0], now, referenceZone, serverZone);
      var rest := AlarmsRows(o, start, alarms[1..], now, referenceZone, serverZone);
      assert AlarmsRows(o, start, alarms, now, referenceZone, serverZone) == first + rest;
      assert forall a :: a in alarms ==> a == alarms[0] || a in alarms[1..];
      forall x | x in first + rest
        ensures exists a :: a in alarms && x in RowsOfAlarm(o, start, a, now, referenceZone, serverZone)
      {
        if x !in first {
          var a :| a in alarms[1..] && x in RowsOfAlarm(o, start, a, now, referenceZone, serverZone);
          assert a in alarms;
        }
      }
    }
  }

  lemma NothingToScheduleWithoutStartOrAlarms(o: CalendarObject, now: int, calendarZone: CalendarZone, serverZone: int)
    requires o.event.start.None? || o.event.alarms == []
    ensures Materialize(o, now, calendarZone, serverZone) == []
  {
  }

  /**
   * A one-off event gets every alarm once, for the event itself: REPEAT + 1 rows per
   * alarm, none of them recurring, all identified by the event start.
   */
  lemma {:induction false} OneOffAlarmsRows(o: CalendarObject, start: EventStart, alarms: seq<Alarm>, now: int, referenceZone: int, serverZone: int)
    requires !o.event.weekly
    ensures |AlarmsRows(o, start, alarms, now, referenceZone, serverZone)| == TotalRows(alarms)
    ensures forall x :: x in AlarmsRows(o, start, alarms, now, referenceZone, serverZone) ==>
      !x.isRecurring && x.recurrenceId == StartInstant(start, serverZone) &&
      x.calendarId == o.calendarId && x.objectId == o.objectId && x.eventHash == EventHash(o.event, start)
  {
    if alarms != [] {
      OneOffAlarmsRows(o, start, alarms[1..], now, referenceZone, serverZone);
    }
  }

  lemma {:induction false} NoRepeatsOneRowEach(alarms: seq<Alarm>)
    requires forall a :: a in alarms ==> a.repeat == 0
    ensures TotalRows(alarms) == |alarms|
  {
    if alarms != [] {
      NoRepeatsOneRowEach(alarms[1..]);
    }
  }

  /**
   * A one-off event with DTSTART yields REPEAT + 1 rows in all per alarm (one per
   * alarm when nothing repeats), each not recurring and with recurrence_id the event
   * start; the rows are exactly each alarm's copies for the event itself.
   */
  lemma OneOffMaterialization(o: CalendarObject, now: int, calendarZone: CalendarZone, serverZone: int)
    requires o.event.start.Some? && !o.event.weekly
    ensures |Materialize(o, now, calendarZone, serverZone)| == TotalRows(o.event.alarms)
    ensures (forall a :: a in o.event.alarms ==> a.repeat == 0) ==>
      |Materialize(o, now, calendarZone, serverZone)| == |o.event.alarms|
    ensures forall x :: x in Materialize(o, now, calendarZone, serverZone) ==>
      !x.isRecurring && x.recurrenceId == StartInstant(o.event.start.value, serverZone)
    ensures var start, referenceZone := o.event.start.value, ReferenceZone(calendarZone, serverZone);
      forall a, y ::
        (a in o.event.alarms &&
         y in OccurrenceRows(o.calendarId, o.objectId, o.event, start, EventHash(o.event, start), a, 0, referenceZone, serverZone)) ==>
        y in Materialize(o, now, calendarZone, serverZone)
    ensures var start, referenceZone := o.event.start.value, ReferenceZone(calendarZone, serverZone);
      forall x :: x in Materialize(o, now, calendarZone, serverZone) ==>
        exists a :: (a in o.event.alarms &&
          x in OccurrenceRows(o.calendarId, o.objectId, o.event, start, EventHash(o.event, start), a, 0, referenceZone, serverZone))
  {
    OneOffAlarmsRows(o, o.event.start.value, o.event.alarms, now, ReferenceZone(calendarZone, serverZone), serverZone);
    AlarmsRowsExactly(o, o.event.start.value, o.event.alarms, now, ReferenceZone(calendarZone, serverZone), serverZone);
    if forall a :: a in o.event.alarms ==> a.repeat == 0 {
      NoRepeatsOneRowEach(o.event.alarms);
    }
  }

  /**
   * Every row of a weekly event is recurring, belongs to an occurrence of the series,
   * and its base row notifies no earlier than `now`.
   */
  lemma {:induction false} RecurringAlarmsRows(o: CalendarObject, start: EventStart, alarms: seq<Alarm>, now: int, referenceZone: int, serverZone: int)
    requires o.event.weekly && o.event.start == Some(start)
    ensures forall x :: x in AlarmsRows(o, start, alarms, now, referenceZone, serverZone) ==>
      && x.isRecurring
      && LocateOccurrence(o.event, x.recurrenceId, serverZone).Some?
      && (!x.isRepeatBased ==> x.notificationDate >= now)
  {
    if alarms != [] {
      RecurringAlarmsRows(o, start, alarms[1..], now, referenceZone, serverZone);
      var a := alarms[0];
      match NextOccurrence(a.trigger, StartInstant(start, referenceZone), now, 0)
      case None =>
      case Some(k) =>
        var rows := OccurrenceRows(o.calendarId, o.objectId, o.event, start, EventHash(o.event, start), a, k, referenceZone, serverZone);
        forall x | x in rows
          ensures LocateOccurrence(o.event, x.recurrenceId, serverZone).Some?
          ensures !x.isRepeatBased ==> x.notificationDate >= now
        {
          var i :| 0 <= i < |rows| && rows[i] == x;
          LocatesItsOwnOccurrence(o.event, start, serverZone, k);
          if i == 0 {
            assert x.notificationDate == OccurrenceNotification(a.trigger, StartInstant(start, referenceZone), k);
          }
        }
    }
  }

  /** The start of occurrence k of a weekly series is located as occurrence k. */
  lemma LocatesItsOwnOccurrence(event: ParsedEvent, start: EventStart, zone: int, k: nat)
    requires event.weekly && event.start == Some(start)
    ensures LocateOccurrence(event, OccurrenceStart(start, zone, k), zone) == Some(k)
  {
    var first := StartInstant(start, zone);
    assert OccurrenceStart(start, zone, k) - first == k * Week;
  }

  lemma RecurringMaterialization(o: CalendarObject, now: int, calendarZone: CalendarZone, serverZone: int)
    requires o.event.weekly && o.event.start.Some?
    ensures forall x :: x in Materialize(o, now, calendarZone, serverZone) ==>
      && x.isRecurring
      && LocateOccurrence(o.event, x.recurrenceId, serverZone).Some?
      && (!x.isRepeatBased ==> x.notificationDate >= now)
  {
    RecurringAlarmsRows(o, o.event.start.value, o.event.alarms, now, ReferenceZone(calendarZone, serverZone), serverZone);
  }

  /**
   * A relative alarm always has a next occurrence, so each alarm of a weekly event
   * contributes its REPEAT + 1 rows, and they are all among the event's rows.
   */
  lemma {:induction false} RelativeAlarmsAllScheduled(o: CalendarObject, start: EventStart, alarms: seq<Alarm>, now: int, referenceZone: int, serverZone: int)
    requires o.event.weekly
    requires forall a :: a in alarms ==> a.trigger.Relative?
    ensures |AlarmsRows(o, start, alarms, now, referenceZone, serverZone)| == TotalRows(alarms)
    ensures forall a :: a in alarms ==> |RowsOfAlarm(o, start, a, now, referenceZone, serverZone)| == a.repeat + 1
    ensures forall a, y :: a in alarms && y in RowsOfAlarm(o, start, a, now, referenceZone, serverZone) ==>
      y in AlarmsRows(o, start, alarms, now, referenceZone, serverZone)
  {
    AlarmsRowsExactly(o, start, alarms, now, referenceZone, serverZone);
    if alarms != [] {
      assert alarms[0] in alarms;
      assert forall a :: a in alarms[1..] ==> a in alarms;
      RelativeAlarmsAllScheduled(o, start, alarms[1..], now, referenceZone, serverZone);
    }
  }

  /**
   * Reading the all-day date in another zone moves every relative notification by
   * the difference of the zones and leaves absolute ones and every other field alone.
   */
  lemma {:induction false} ZoneShiftAlarmsRows(o: CalendarObject, start: EventStart, alarms: seq<Alarm>, now: int, zoneA: int, zoneB: int, serverZone: int)
    requires !o.event.weekly
    ensures |AlarmsRows(o, start, alarms, now, zoneA, serverZone)| == |AlarmsRows(o, start, alarms, now, zoneB, serverZone)|
    ensures forall j :: 0 <= j < |AlarmsRows(o, start, alarms, now, zoneA, serverZone)| ==>
      var x, y := AlarmsRows(o, start, alarms, now, zoneA, serverZone)[j], AlarmsRows(o, start, alarms, now, zoneB, serverZone)[j];
      && x.(notificationDate := y.notificationDate) == y
      && y.notificationDate - x.notificationDate == (if x.isRelative then StartInstant(start, zoneB) - StartInstant(start, zoneA) else 0)
  {
    if alarms != [] {
      ZoneShiftAlarmsRows(o, start, alarms[1..], now, zoneA, zoneB, serverZone);
      var h := EventHash(o.event, start);
      var xs := OccurrenceRows(o.calendarId, o.objectId, o.event, start, h, alarms[0], 0, zoneA, serverZone);
      var ys := OccurrenceRows(o.calendarId, o.objectId, o.event, start, h, alarms[0], 0, zoneB, serverZone);
      var restA := AlarmsRows(o, start, alarms[1..], now, zoneA, serverZone);
      var restB := AlarmsRows(o, start, alarms[1..], now, zoneB, serverZone);
      assert AlarmsRows(o, start, alarms, now, zoneA, serverZone) == xs + restA;
      assert AlarmsRows(o, start, alarms, now, zoneB, serverZone) == ys + restB;
    }
  }

  /**
   * An all-day one-off event: a calendar timezone moves each relative reminder by the
   * difference between the server zone and the calendar zone; null and blank leave it
   * at midnight in the server zone.
   */
  lemma AllDayZoneShift(o: CalendarObject, now: int, calendarZone: CalendarZone, serverZone: int)
    requires o.event.start.Some? && o.event.start.value.AllDay? && !o.event.weekly
    ensures |Materialize(o, now, calendarZone, serverZone)| == |Materialize(o, now, Unset, serverZone)|
    ensures forall j :: 0 <= j < |Materialize(o, now, Unset, serverZone)| ==>
      var x, y := Materialize(o, now, Unset, serverZone)[j], Materialize(o, now, calendarZone, serverZone)[j];
      && x.(notificationDate := y.notificationDate) == y
      && y.notificationDate - x.notificationDate ==
         (if x.isRelative then serverZone - ReferenceZone(calendarZone, serverZone) else 0)
  {
    ZoneShiftAlarmsRows(o, o.event.start.value, o.event.alarms, now, serverZone, ReferenceZone(calendarZone, serverZone), serverZone);
  }

  lemma BlankZoneIsUnset(o: CalendarObject, now: int, serverZone: int)
    ensures Materialize(o, now, Blank, serverZone) == Materialize(o, now, Unset, serverZone)
  {
  }

  /** A timed DTSTART carries its own zone: the calendar timezone changes nothing, recurring or not. */
  lemma {:induction false} TimedIgnoresCalendarZone(o: CalendarObject, start: EventStart, alarms: seq<Alarm>, now: int, zoneA: int, zoneB: int, serverZone: int)
    requires start.Timed?
    ensures AlarmsRows(o, start, alarms, now, zoneA, serverZone) == AlarmsRows(o, start, alarms, now, zoneB, serverZone)
  {
    if alarms != [] {
      TimedIgnoresCalendarZone(o, start, alarms[1..], now, zoneA, zoneB, serverZone);
      assert StartInstant(start, zoneA) == StartInstant(start, zoneB);
      assert ChosenOccurrence(o.event, start, alarms[0], now, zoneA) == ChosenOccurrence(o.event, start, alarms[0], now, zoneB);
      match ChosenOccurrence(o.event, start, alarms[0], now, zoneA)
      case None =>
      case Some(k) =>
        var h := EventHash(o.event, start);
        var xs := OccurrenceRows(o.calendarId, o.objectId, o.event, start, h, alarms[0], k, zoneA, serverZone);
        var ys := OccurrenceRows(o.calendarId, o.objectId, o.event, start, h, alarms[0], k, zoneB, serverZone);
        assert forall i :: 0 <= i < |xs| ==> xs[i] == ys[i];
        assert xs == ys;
    }
  }

  // ---------------------------------------------------------------------------------
  // Processing due reminders

  /** The first alarm of the event whose hash is `hash`. */
  function FindAlarm(alarms: seq<Alarm>, hash: Digest): (r: Option<Alarm>)
    ensures r.Some? ==> r.value in alarms && AlarmHash(r.value) == hash
    ensures r.None? ==> forall a :: a in alarms ==> AlarmHash(a) != hash
  {
    if alarms == [] then None
    else if AlarmHash(alarms[0]) == hash then Some(alarms[0])
    else FindAlarm(alarms[1..], hash)
  }

  /**
   * The send a due row causes: none when its occurrence is no longer in the event,
   * when no provider handles its action kind, or when the principal has no user.
   */
  function Delivery(d: DueReminder, env: Environment): Option<Send>
  {
    var r := d.reminder;
    if LocateOccurrence(d.context.event, r.recurrenceId, env.serverZone).None? then None
    else if r.notificationType !in env.providers then None
    else if d.context.principalUri !in env.directory then None
    else Some(Send(r.notificationType, r.recurrenceId, d.context.displayName, env.directory[d.context.principalUri]))
  }

  /**
   * The rows a fired row leaves behind: for the base row of a recurring relative
   * alarm, the rows of the same alarm for the next occurrence whose notification is
   * not before `now`; nothing otherwise. An absolute trigger names one instant for
   * the whole series, so once fired it has no later occurrence to roll to.
   */
  function FollowOn(d: DueReminder, env: Environment): seq<Reminder>
  {
    var r := d.reminder;
    var event := d.context.event;
    if !r.isRecurring || r.isRepeatBased || !r.isRelative || !event.weekly then []
    else
      match (LocateOccurrence(event, r.recurrenceId, env.serverZone), FindAlarm(event.alarms, r.alarmHash))
      case (Some(k), Some(a)) =>
        var start := event.start.value;
        var referenceZone := ReferenceZone(CalendarZoneOf(env, r.calendarId), env.serverZone);
        (match NextOccurrence(a.trigger, StartInstant(start, referenceZone), env.now, k + 1)
         case None => []
         case Some(next) =>
           OccurrenceRows(r.calendarId, r.objectId, event, start, r.eventHash, a, next, referenceZone, env.serverZone))
      case _ => []
  }

  lemma DeliveryIsTheRowsOccurrence(d: DueReminder, env: Environment)
    ensures Delivery(d, env).Some? <==>
      && LocateOccurrence(d.context.event, d.reminder.recurrenceId, env.serverZone).Some?
      && d.reminder.notificationType in env.providers
      && d.context.principalUri in env.directory
    ensures Delivery(d, env).Some? ==>
      && Delivery(d, env).value.kind == d.reminder.notificationType
      && Delivery(d, env).value.occurrence == d.reminder.recurrenceId
      && d.context.event.start.Some?
  {
  }

  /**
   * Only the base row of a recurring relative alarm rolls forward, and what it
   * inserts is the same alarm of the same object for a later occurrence of the series.
   */
  lemma FollowOnRollsForward(d: DueReminder, env: Environment)
    ensures FollowOn(d, env) != [] ==> d.reminder.isRecurring && !d.reminder.isRepeatBased && d.reminder.isRelative
    ensures forall x :: x in FollowOn(d, env) ==>
      && x.isRecurring
      && x.alarmHash == d.reminder.alarmHash && x.eventHash == d.reminder.eventHash
      && x.calendarId == d.reminder.calendarId && x.objectId == d.reminder.objectId
      && x.recurrenceId > d.reminder.recurrenceId
      && LocateOccurrence(d.context.event, x.recurrenceId, env.serverZone).Some?
  {
    var r := d.reminder;
    var event := d.context.event;
    if r.isRecurring && !r.isRepeatBased && r.isRelative && event.weekly {
      match (LocateOccurrence(event, r.recurrenceId, env.serverZone), FindAlarm(event.alarms, r.alarmHash))
      case (Some(k), Some(a)) =>
        var start := event.start.value;
        var referenceZone := ReferenceZone(CalendarZoneOf(env, r.calendarId), env.serverZone);
        match NextOccurrence(a.trigger, StartInstant(start, referenceZone), env.now, k + 1) {
          case None =>
          case Some(next) =>
            LocatesItsOwnOccurrence(event, start, env.serverZone, next);
        }
      case _ =>
    }
  }

  /**
   * When a relative alarm of the next week still lies ahead, the follow-on is exactly
   * that alarm's REPEAT + 1 rows one week after the fired occurrence.
   */
  lemma FollowOnNextWeek(d: DueReminder, env: Environment, k: nat, a: Alarm)
    requires d.reminder.isRecurring && !d.reminder.isRepeatBased && d.reminder.isRelative && d.context.event.weekly
    requires LocateOccurrence(d.context.event, d.reminder.recurrenceId, env.serverZone) == Some(k)
    requires FindAlarm(d.context.event.alarms, d.reminder.alarmHash) == Some(a) && a.trigger.Relative?
    requires OccurrenceNotification(a.trigger,
      StartInstant(d.context.event.start.value, ReferenceZone(CalendarZoneOf(env, d.reminder.calendarId), env.serverZone)),
      k + 1) >= env.now
    ensures |FollowOn(d, env)| == a.repeat + 1
    ensures forall x :: x in FollowOn(d, env) ==> x.recurrenceId == d.reminder.recurrenceId + Week
    ensures FollowOn(d, env) ==
      OccurrenceRows(d.reminder.calendarId, d.reminder.objectId, d.context.event, d.context.event.start.value,
                     d.reminder.eventHash, a, k + 1,
                     ReferenceZone(CalendarZoneOf(env, d.reminder.calendarId), env.serverZone), env.serverZone)
  {
  }

  /**
   * The roll-forward uses the choice rule of materialisation against the service
   * clock: the base row it inserts never notifies before `now`, and its copies follow
   * it DURATION apart.
   */
  lemma FollowOnNotBeforeNow(d: DueReminder, env: Environment)
    ensures forall x :: x in FollowOn(d, env) && !x.isRepeatBased ==> x.notificationDate >= env.now
    ensures FollowOn(d, env) != [] ==> !FollowOn(d, env)[0].isRepeatBased
    ensures forall i :: 0 <= i < |FollowOn(d, env)| ==>
      FollowOn(d, env)[i].notificationDate == FollowOn(d, env)[0].notificationDate + i * FindAlarm(d.context.event.alarms, d.reminder.alarmHash).value.interval
  {
    var r := d.reminder;
    var event := d.context.event;
    if r.isRecurring && !r.isRepeatBased && r.isRelative && event.weekly {
      match (LocateOccurrence(event, r.recurrenceId, env.serverZone), FindAlarm(event.alarms, r.alarmHash))
      case (Some(k), Some(a)) =>
        var start := event.start.value;
        var referenceZone := ReferenceZone(CalendarZoneOf(env, r.calendarId), env.serverZone);
        match NextOccurrence(a.trigger, StartInstant(start, referenceZone), env.now, k + 1) {
          case None =>
          case Some(next) =>
            var rows := OccurrenceRows(r.calendarId, r.objectId, event, start, r.eventHash, a, next, referenceZone, env.serverZone);
            assert FollowOn(d, env) == rows;
            assert rows[0].notificationDate == OccurrenceNotification(a.trigger, StartInstant(start, referenceZone), next);
        }
      case _ =>
    }
  }

  /** The send of each due row, as the function value the processing loop applies. */
  function Sender(env: Environment): DueReminder -> Option<Send>
  {
    d => Delivery(d, env)
  }

  /** The follow-on rows of each due row, as the function value the processing loop applies. */
  function Roller(env: Environment): DueReminder -> seq<Reminder>
  {
    d => FollowOn(d, env)
  }

  /** Every send of the due rows, in order. */
  function Deliveries(due: seq<DueReminder>, deliver: DueReminder -> Option<Send>): seq<Send>
    decreases |due|
  {
    if due == [] then []
    else
      var last := deliver(due[|due| - 1]);
      Deliveries(due[..|due| - 1], deliver) + (if last.Some? then [last.value] else [])
  }

  /** Every follow-on row of the due rows, in order. */
  function FollowOns(due: seq<DueReminder>, followOn: DueReminder -> seq<Reminder>): seq<Reminder>
    decreases |due|
  {
    if due == [] then [] else FollowOns(due[..|due| - 1], followOn) + followOn(due[|due| - 1])
  }

  /** The ids of the due rows. */
  function DueIds(due: seq<DueReminder>): set<nat>
    decreases |due|
  {
    if due == [] then {} else DueIds(due[..|due| - 1]) + {due[|due| - 1].id}
  }

  /** An id is among the due ids exactly when some due row carries it. */
  lemma {:induction false} DueIdsOfRows(due: seq<DueReminder>)
    ensures forall d :: d in due ==> d.id in DueIds(due)
    ensures forall id :: id in DueIds(due) ==> exists d :: d in due && d.id == id
  {
    if due != [] {
      var init := due[..|due| - 1];
      DueIdsOfRows(init);
      assert due == init + [due[|due| - 1]];
    }
  }

  /** Each due row is sent at most once. */
  lemma {:induction false} AtMostOneSendPerRow(due: seq<DueReminder>, env: Environment)
    ensures |Deliveries(due, Sender(env))| <= |due|
    ensures (forall d :: d in due ==> Delivery(d, env).Some?) ==> |Deliveries(due, Sender(env))| == |due|
  {
    if due != [] {
      var init := due[..|due| - 1];
      assert forall d :: d in init ==> d in due;
      AtMostOneSendPerRow(init, env);
    }
  }

  /** Rows that are not recurring, repeat-based or absolute never cause an insert. */
  lemma {:induction false} OnlyRecurringBaseRowsRollForward(due: seq<DueReminder>, env: Environment)
    requires forall d :: d in due ==> !d.reminder.isRecurring || d.reminder.isRepeatBased || !d.reminder.isRelative
    ensures FollowOns(due, Roller(env)) == []
  {
    if due != [] {
      var init := due[..|due| - 1];
      assert forall d :: d in init ==> d in due;
      OnlyRecurringBaseRowsRollForward(init, env);
    }
  }

  // ---------------------------------------------------------------------------------
  // The service's entry points, on a reminder store

  /** onCalendarObjectCreate: reads the clock and the calendar's timezone and inserts the materialised rows in order. */
  method OnCalendarObjectCreate(store: Store, o: CalendarObject, env: Environment)
    requires store.Valid()
    modifies store
    ensures store.Valid()
    ensures store.nextId == old(store.nextId) + |Materialize(o, env.now, CalendarZoneOf(env, o.calendarId), env.serverZone)|
    ensures store.rows ==
      old(store.rows) + Numbered(Materialize(o, env.now, CalendarZoneOf(env, o.calendarId), env.serverZone), old(store.nextId))
  {
    var now := env.now;
    var calendarZone := CalendarZoneOf(env, o.calendarId);
    var reminders := Materialize(o, now, calendarZone, env.serverZone);
    store.InsertAll(reminders);
  }

  /** onCalendarObjectDelete: cleanRemindersForEvent on the object's id. */
  method OnCalendarObjectDelete(store: Store, objectId: int)
    requires store.Valid()
    modifies store
    ensures store.Valid() && store.nextId == old(store.nextId)
    ensures store.rows == WithoutObject(old(store.rows), objectId)
    ensures forall x :: x in store.rows ==> x.reminder.objectId != objectId
  {
    store.CleanRemindersForEvent(objectId);
  }

  /** What due row i adds to the sends, the follow-ons and the fired ids of the rows before it. */
  lemma DueStep(due: seq<DueReminder>, i: nat, deliver: DueReminder -> Option<Send>, followOn: DueReminder -> seq<Reminder>)
    requires i < |due|
    ensures Deliveries(due[..i + 1], deliver) ==
      Deliveries(due[..i], deliver) + (if deliver(due[i]).Some? then [deliver(due[i]).value] else [])
    ensures FollowOns(due[..i + 1], followOn) == FollowOns(due[..i], followOn) + followOn(due[i])
    ensures DueIds(due[..i + 1]) == DueIds(due[..i]) + {due[i].id}
  {
    assert due[..i + 1][..i] == due[..i];
  }

  /** After processing, none of the due rows' ids is left: the others are older, the follow-ons newer. */
  lemma NoDueRowLeft(rows0: seq<Row>, next0: nat, due: seq<DueReminder>, inserted: seq<Reminder>)
    requires forall d :: d in due ==> d.id < next0
    ensures forall x :: x in WithoutIds(rows0, DueIds(due)) + Numbered(inserted, next0) ==> x.id !in DueIds(due)
  {
    DueIdsOfRows(due);
    NumberedFrom(inserted, next0);
    WithoutIdsKeeps(rows0, DueIds(due));
  }

  /**
   * One due row's removal by id and the insertion of the rows it leaves behind, on a
   * table that holds the original rows without the ids `fired` followed by the rows
   * `inserted` so far.
   */
  method RemoveThenInsert(store: Store, id: nat, more: seq<Reminder>,
                          ghost rows0: seq<Row>, ghost next0: nat, ghost fired: set<nat>, ghost inserted: seq<Reminder>)
    requires store.Valid() && id < next0
    requires store.rows == WithoutIds(rows0, fired) + Numbered(inserted, next0)
    requires store.nextId == next0 + |inserted|
    modifies store
    ensures store.Valid()
    ensures store.rows == WithoutIds(rows0, fired + {id}) + Numbered(inserted + more, next0)
    ensures store.nextId == next0 + |inserted + more|
  {
    RemoveThenNumber(rows0, next0, fired, inserted, id, more);
    store.RemoveReminder(id);
    store.InsertAll(more);
  }

  /**
   * The loop of processReminders over the due rows, in order: send each one, remove
   * it by id (`removed` lists the ids in that order) and insert the rows it leaves
   * behind. `deliver` and `followOn` are the service's handling of one row.
   */
  method ProcessDue(store: Store, due: seq<DueReminder>, deliver: DueReminder -> Option<Send>, followOn: DueReminder -> seq<Reminder>)
    returns (sent: seq<Send>, removed: seq<nat>)
    requires store.Valid()
    requires forall j :: 0 <= j < |due| ==> due[j].id < store.nextId
    modifies store
    ensures store.Valid()
    ensures |removed| == |due| && forall j :: 0 <= j < |due| ==> removed[j] == due[j].id
    ensures sent == Deliveries(due, deliver)
    ensures store.rows == WithoutIds(old(store.rows), DueIds(due)) + Numbered(FollowOns(due, followOn), old(store.nextId))
    ensures store.nextId == old(store.nextId) + |FollowOns(due, followOn)|
  {
    ghost var rows0, next0 := store.rows, store.nextId;
    WithoutAbsentIds(rows0, {});
    sent, removed := [], [];
    ghost var fired: set<nat> := {};
    ghost var inserted: seq<Reminder> := [];

    for i := 0 to |due|
      invariant store.Valid()
      invariant fired == DueIds(due[..i]) && inserted == FollowOns(due[..i], followOn)
      invariant store.nextId == next0 + |inserted|
      invariant sent == Deliveries(due[..i], deliver)
      invariant |removed| == i && forall j :: 0 <= j < i ==> removed[j] == due[j].id
      invariant store.rows == WithoutIds(rows0, fired) + Numbered(inserted, next0)
    {
      var d := due[i];
      var delivery := deliver(d);
      if delivery.Some? {
        sent := sent + [delivery.value];
      }
      var more := followOn(d);
      RemoveThenInsert(store, d.id, more, rows0, next0, fired, inserted);
      removed := removed + [d.id];
      DueStep(due, i, deliver, followOn);
      fired, inserted := fired + {d.id}, inserted + more;
    }
    assert due[..|due|] == due;
  }

  /**
   * processReminders: handles every row due at `dueBy` in stored order. Afterwards no
   * due row is left, and the rows that were not due are followed by the follow-ons
   * under fresh ids.
   */
  method ProcessReminders(store: Store, dueBy: int, objects: map<int, DueContext>, env: Environment)
    returns (sent: seq<Send>, removed: seq<nat>)
    requires store.Valid()
    modifies store
    ensures store.Valid()
    ensures var due := DueRows(old(store.rows), dueBy, objects);
      |removed| == |due| && forall j :: 0 <= j < |due| ==> removed[j] == due[j].id
    ensures sent == Deliveries(DueRows(old(store.rows), dueBy, objects), Sender(env))
    ensures store.rows ==
      WithoutIds(old(store.rows), DueIds(DueRows(old(store.rows), dueBy, objects))) +
      Numbered(FollowOns(DueRows(old(store.rows), dueBy, objects), Roller(env)), old(store.nextId))
    ensures store.nextId == old(store.nextId) + |FollowOns(DueRows(old(store.rows), dueBy, objects), Roller(env))|
    ensures forall x :: x in store.rows ==> x.id !in DueIds(DueRows(old(store.rows), dueBy, objects))
  {
    var due := store.GetRemindersToProcess(dueBy, objects);
    ghost var rows0, next0 := store.rows, store.nextId;
    DueIdsBelow(rows0, dueBy, objects, next0);
    assert forall j :: 0 <= j < |due| ==> due[j] in due;
    sent, removed := ProcessDue(store, due, Sender(env), Roller(env));
    NoDueRowLeft(rows0, next0, due, FollowOns(due, Roller(env)));
  }
}
