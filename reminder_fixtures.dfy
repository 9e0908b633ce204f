/**
 * The calendar objects and due rows of the reminder service's unit tests, and the
 * rows and sends the model computes for them. The server's default zone is UTC.
 */
module ReminderFixtures {
  import opened Options
  import opened Calendar
  import opened ReminderStore
  import opened ReminderService

  const Uid: string := "wej2z68l9h"

  /** TRIGGER:-PT15M, ACTION:EMAIL. */
  const EmailQuarterHour: Alarm := Alarm(Email, Relative(-900), 0, 0)
  /** TRIGGER;VALUE=DATE-TIME:20160608T000000Z, ACTION:DISPLAY. */
  const DisplayAtMidnight: Alarm := Alarm(Display, Absolute(1465344000), 0, 0)
  /** TRIGGER:-PT15M with REPEAT:4 and DURATION:PT2M. */
  const EmailRepeated: Alarm := Alarm(Email, Relative(-900), 4, 120)
  /** TRIGGER:-P8D. */
  const EmailEightDays: Alarm := Alarm(Email, Relative(-691200), 0, 0)

  /** DTSTART;TZID=Europe/Berlin;VALUE=DATE:20160609: a DATE value, whose TZID plays no part. */
  const June9: EventStart := AllDay(16961)

  const SingleEvent: ParsedEvent := ParsedEvent(Uid, Some(June9), false, [EmailQuarterHour, DisplayAtMidnight])
  const RepeatEvent: ParsedEvent := ParsedEvent(Uid, Some(June9), false, [EmailRepeated])
  const RecurringEvent: ParsedEvent := ParsedEvent(Uid, Some(June9), true, [EmailQuarterHour, EmailEightDays])
  const RecurringRepeatEvent: ParsedEvent := ParsedEvent(Uid, Some(June9), true, [EmailRepeated, EmailEightDays])
  const NoStartEvent: ParsedEvent := ParsedEvent(Uid, None, false, [EmailQuarterHour, DisplayAtMidnight])
  const NoAlarmEvent: ParsedEvent := ParsedEvent(Uid, Some(June9), false, [])

  /** DTSTART;VALUE=DATE:20230204 with TRIGGER;RELATED=START:-PT1H, ACTION:EMAIL. */
  const AllDayEvent: ParsedEvent :=
    ParsedEvent("a163a056-ba26-44a2-8080-955f19611a8f", Some(AllDay(19392)), false, [Alarm(Email, Relative(-3600), 0, 0)])
  /** DTSTART;TZID=Europe/Vienna:20230204T090000 with TRIGGER;RELATED=START:-PT1H, ACTION:DISPLAY. */
  const ViennaEvent: ParsedEvent :=
    ParsedEvent("f6a565b6-f9a8-4d1e-9d01-c8dcbe716b7e", Some(Timed(1675501200, 3600)), false, [Alarm(Display, Relative(-3600), 0, 0)])

  /** Pacific/Pago_Pago: UTC-11 all year. */
  const PagoPago: CalendarZone := Defined(-39600)

  /** 2016-06-08T00:00:00Z and 2016-06-29T00:00:00Z. */
  const June8: int := 1465344000
  const June29: int := 1467158400

  function Object(event: ParsedEvent): CalendarObject
  {
    CalendarObject(1337, 42, event)
  }

  /** The one row of an alarm without REPEAT, written out. */
  lemma SingleOccurrenceRow(o: CalendarObject, start: EventStart, a: Alarm, k: nat, referenceZone: int, serverZone: int)
    requires a.repeat == 0
    ensures OccurrenceRows(o.calendarId, o.objectId, o.event, start, EventHash(o.event, start), a, k, referenceZone, serverZone) ==
      [Reminder(o.calendarId, o.objectId, o.event.uid, o.event.weekly, OccurrenceStart(start, serverZone, k), false,
                EventHash(o.event, start), AlarmHash(a), a.action, a.trigger.Relative?,
                TriggerInstant(a.trigger, OccurrenceStart(start, referenceZone, k)), false)]
  {
  }

  lemma SingleEntryRows()
    ensures Materialize(Object(SingleEvent), June8, Unset, 0) == [
      Reminder(1337, 42, Uid, false, 1465430400, false, EventHash(SingleEvent, June9), AlarmHash(EmailQuarterHour),
               Email, true, 1465429500, false),
      Reminder(1337, 42, Uid, false, 1465430400, false, EventHash(SingleEvent, June9), AlarmHash(DisplayAtMidnight),
               Display, false, 1465344000, false)]
  {
    var o := Object(SingleEvent);
    SingleOccurrenceRow(o, June9, EmailQuarterHour, 0, 0, 0);
    SingleOccurrenceRow(o, June9, DisplayAtMidnight, 0, 0, 0);
    assert AlarmsRows(o, June9, [DisplayAtMidnight], June8, 0, 0) ==
      OccurrenceRows(1337, 42, SingleEvent, June9, EventHash(SingleEvent, June9), DisplayAtMidnight, 0, 0, 0);
  }

  lemma SingleEntryWithRepeatRows()
    ensures Materialize(Object(RepeatEvent), June8, Unset, 0) == [
      Reminder(1337, 42, Uid, false, 1465430400, false, EventHash(RepeatEvent, June9), AlarmHash(EmailRepeated), Email, true, 1465429500, false),
      Reminder(1337, 42, Uid, false, 1465430400, false, EventHash(RepeatEvent, June9), AlarmHash(EmailRepeated), Email, true, 1465429620, true),
      Reminder(1337, 42, Uid, false, 1465430400, false, EventHash(RepeatEvent, June9), AlarmHash(EmailRepeated), Email, true, 1465429740, true),
      Reminder(1337, 42, Uid, false, 1465430400, false, EventHash(RepeatEvent, June9), AlarmHash(EmailRepeated), Email, true, 1465429860, true),
      Reminder(1337, 42, Uid, false, 1465430400, false, EventHash(RepeatEvent, June9), AlarmHash(EmailRepeated), Email, true, 1465429980, true)]
  {
    var o := Object(RepeatEvent);
    assert AlarmsRows(o, June9, [EmailRepeated], June8, 0, 0) ==
      OccurrenceRows(1337, 42, RepeatEvent, June9, EventHash(RepeatEvent, June9), EmailRepeated, 0, 0, 0);
  }

  /**
   * A weekly event on 2016-06-29: the quarter-hour alarm first lies ahead for the
   * occurrence of 2016-06-30, the eight-day alarm (inclusively) for that of 2016-07-07.
   */
  lemma RecurringEntryRows()
    ensures Materialize(Object(RecurringEvent), June29, Unset, 0) == [
      Reminder(1337, 42, Uid, true, 1467244800, false, EventHash(RecurringEvent, June9), AlarmHash(EmailQuarterHour),
               Email, true, 1467243900, false),
      Reminder(1337, 42, Uid, true, 1467849600, false, EventHash(RecurringEvent, June9), AlarmHash(EmailEightDays),
               Email, true, 1467158400, false)]
  {
    var o := Object(RecurringEvent);
    assert NextOccurrence(EmailQuarterHour.trigger, 1465430400, June29, 0) == Some(3);
    assert NextOccurrence(EmailEightDays.trigger, 1465430400, June29, 0) == Some(4);
    SingleOccurrenceRow(o, June9, EmailQuarterHour, 3, 0, 0);
    SingleOccurrenceRow(o, June9, EmailEightDays, 4, 0, 0);
    assert AlarmsRows(o, June9, [EmailEightDays], June29, 0, 0) ==
      OccurrenceRows(1337, 42, RecurringEvent, June9, EventHash(RecurringEvent, June9), EmailEightDays, 4, 0, 0);
  }

  lemma RecurringEntryWithRepeatRows()
    ensures Materialize(Object(RecurringRepeatEvent), June29, Unset, 0) == [
      Reminder(1337, 42, Uid, true, 1467244800, false, EventHash(RecurringRepeatEvent, June9), AlarmHash(EmailRepeated), Email, true, 1467243900, false),
      Reminder(1337, 42, Uid, true, 1467244800, false, EventHash(RecurringRepeatEvent, June9), AlarmHash(EmailRepeated), Email, true, 1467244020, true),
      Reminder(1337, 42, Uid, true, 1467244800, false, EventHash(RecurringRepeatEvent, June9), AlarmHash(EmailRepeated), Email, true, 1467244140, true),
      Reminder(1337, 42, Uid, true, 1467244800, false, EventHash(RecurringRepeatEvent, June9), AlarmHash(EmailRepeated), Email, true, 1467244260, true),
      Reminder(1337, 42, Uid, true, 1467244800, false, EventHash(RecurringRepeatEvent, June9), AlarmHash(EmailRepeated), Email, true, 1467244380, true),
      Reminder(1337, 42, Uid, true, 1467849600, false, EventHash(RecurringRepeatEvent, June9), AlarmHash(EmailEightDays), Email, true, 1467158400, false)]
  {
    var o := Object(RecurringRepeatEvent);
    assert NextOccurrence(EmailRepeated.trigger, 1465430400, June29, 0) == Some(3);
    assert NextOccurrence(EmailEightDays.trigger, 1465430400, June29, 0) == Some(4);
    SingleOccurrenceRow(o, June9, EmailEightDays, 4, 0, 0);
    assert AlarmsRows(o, June9, [EmailEightDays], June29, 0, 0) ==
      OccurrenceRows(1337, 42, RecurringRepeatEvent, June9, EventHash(RecurringRepeatEvent, June9), EmailEightDays, 4, 0, 0);
    assert AlarmsRows(o, June9, [EmailRepeated, EmailEightDays], June29, 0, 0) ==
      OccurrenceRows(1337, 42, RecurringRepeatEvent, June9, EventHash(RecurringRepeatEvent, June9), EmailRepeated, 3, 0, 0) +
      AlarmsRows(o, June9, [EmailEightDays], June29, 0, 0);
  }

  /** Without DTSTART, or without VALARM, nothing is inserted. */
  lemma NoDtstartOrNoAlarmNoRows(now: int, calendarZone: CalendarZone)
    ensures Materialize(Object(NoStartEvent), now, calendarZone, 0) == []
    ensures Materialize(Object(NoAlarmEvent), now, calendarZone, 0) == []
  {
  }

  /**
   * An all-day event on 2023-02-04 with a one-hour alarm: 23:00 UTC the day before
   * when the calendar has no timezone (null or blank), 23:00 in Pago Pago when it has.
   */
  lemma AllDayRows()
    ensures Materialize(Object(AllDayEvent), 1675430880, Unset, 0) == [
      Reminder(1337, 42, AllDayEvent.uid, false, 1675468800, false, EventHash(AllDayEvent, AllDay(19392)),
               AlarmHash(AllDayEvent.alarms[0]), Email, true, 1675465200, false)]
    ensures Materialize(Object(AllDayEvent), 1675430880, Blank, 0) == Materialize(Object(AllDayEvent), 1675430880, Unset, 0)
    ensures Materialize(Object(AllDayEvent), 1675430880, PagoPago, 0) == [
      Reminder(1337, 42, AllDayEvent.uid, false, 1675468800, false, EventHash(AllDayEvent, AllDay(19392)),
               AlarmHash(AllDayEvent.alarms[0]), Email, true, 1675504800, false)]
  {
    var o := Object(AllDayEvent);
    SingleOccurrenceRow(o, AllDay(19392), AllDayEvent.alarms[0], 0, 0, 0);
    SingleOccurrenceRow(o, AllDay(19392), AllDayEvent.alarms[0], 0, -39600, 0);
  }

  /** A Vienna DTSTART in a Pago Pago calendar: the alarm is 08:00 Vienna time on the day. */
  lemma EventZoneOverCalendarZoneRows()
    ensures Materialize(Object(ViennaEvent), 1675430880, PagoPago, 0) == [
      Reminder(1337, 42, ViennaEvent.uid, false, 1675497600, false, EventHash(ViennaEvent, Timed(1675501200, 3600)),
               AlarmHash(ViennaEvent.alarms[0]), Display, true, 1675494000, false)]
  {
    SingleOccurrenceRow(Object(ViennaEvent), Timed(1675501200, 3600), ViennaEvent.alarms[0], 0, -39600, 0);
  }

  // ---------------------------------------------------------------------------------
  // processReminders on five due rows of one calendar object

  const Principal: string := "principals/users/user001"

  function Due(id: nat, event: ParsedEvent, recurring: bool, recurrenceId: int, alarm: Alarm, date: int, repeatBased: bool): DueReminder
  {
    DueReminder(id,
      Reminder(1337, 42, Uid, recurring, recurrenceId, false, EventHash(event, June9), AlarmHash(alarm),
               alarm.action, alarm.trigger.Relative?, date, repeatBased),
      DueContext(event, "Displayname 123", Principal))
  }

  const DueFive: seq<DueReminder> := [
    Due(1, SingleEvent, false, 1465430400, EmailQuarterHour, 1465429500, false),
    Due(2, RepeatEvent, false, 1465430400, EmailRepeated, 1465429740, true),
    Due(3, SingleEvent, false, 1465430400, DisplayAtMidnight, 1465344000, false),
    Due(4, RecurringRepeatEvent, true, 1467244800, EmailRepeated, 1467243900, false),
    Due(5, RecurringEvent, true, 1467849600, EmailEightDays, 1467158400, false)]

  /** Both kinds have a provider, the principal has a user, the clock reads 2016-06-08. */
  const TestEnvironment: Environment :=
    Environment(June8, 0, map[], {Email, Display}, map[Principal := "user001"])

  /** Every row is sent, for the occurrence it stands for. */
  lemma ProcessFiveSends()
    ensures Deliveries(DueFive, Sender(TestEnvironment)) == [
      Send(Email, 1465430400, "Displayname 123", "user001"),
      Send(Email, 1465430400, "Displayname 123", "user001"),
      Send(Display, 1465430400, "Displayname 123", "user001"),
      Send(Email, 1467244800, "Displayname 123", "user001"),
      Send(Email, 1467849600, "Displayname 123", "user001")]
  {
    var env := TestEnvironment;
    assert LocateOccurrence(RecurringRepeatEvent, 1467244800, 0) == Some(3);
    assert LocateOccurrence(RecurringEvent, 1467849600, 0) == Some(4);
    assert Delivery(DueFive[0], env) == Some(Send(Email, 1465430400, "Displayname 123", "user001"));
    assert Delivery(DueFive[1], env) == Some(Send(Email, 1465430400, "Displayname 123", "user001"));
    assert Delivery(DueFive[2], env) == Some(Send(Display, 1465430400, "Displayname 123", "user001"));
    assert Delivery(DueFive[3], env) == Some(Send(Email, 1467244800, "Displayname 123", "user001"));
    assert Delivery(DueFive[4], env) == Some(Send(Email, 1467849600, "Displayname 123", "user001"));
    PrefixSteps();
    var s0, s3, s4 := Send(Email, 1465430400, "Displayname 123", "user001"),
      Send(Email, 1467244800, "Displayname 123", "user001"), Send(Email, 1467849600, "Displayname 123", "user001");
    var s2 := Send(Display, 1465430400, "Displayname 123", "user001");
    assert Deliveries(DueFive[..1], Sender(env)) == [s0];
    assert Deliveries(DueFive[..2], Sender(env)) == [s0, s0];
    assert Deliveries(DueFive[..3], Sender(env)) == [s0, s0, s2];
    assert Deliveries(DueFive[..4], Sender(env)) == [s0, s0, s2, s3];
  }

  /** The base row of the repeated alarm rolls forward to the occurrence of 2016-07-07, with its four copies. */
  lemma RepeatedAlarmRollsForward()
    ensures FollowOn(DueFive[3], TestEnvironment) == [
      Reminder(1337, 42, Uid, true, 1467849600, false, EventHash(RecurringEvent, June9), AlarmHash(EmailRepeated), Email, true, 1467848700, false),
      Reminder(1337, 42, Uid, true, 1467849600, false, EventHash(RecurringEvent, June9), AlarmHash(EmailRepeated), Email, true, 1467848820, true),
      Reminder(1337, 42, Uid, true, 1467849600, false, EventHash(RecurringEvent, June9), AlarmHash(EmailRepeated), Email, true, 1467848940, true),
      Reminder(1337, 42, Uid, true, 1467849600, false, EventHash(RecurringEvent, June9), AlarmHash(EmailRepeated), Email, true, 1467849060, true),
      Reminder(1337, 42, Uid, true, 1467849600, false, EventHash(RecurringEvent, June9), AlarmHash(EmailRepeated), Email, true, 1467849180, true)]
  {
    assert LocateOccurrence(RecurringRepeatEvent, 1467244800, 0) == Some(3);
    assert FindAlarm(RecurringRepeatEvent.alarms, AlarmHash(EmailRepeated)) == Some(EmailRepeated);
    assert NextOccurrence(EmailRepeated.trigger, 1465430400, June8, 4) == Some(4);
    assert FollowOn(DueFive[3], TestEnvironment) ==
      OccurrenceRows(1337, 42, RecurringRepeatEvent, June9, EventHash(RecurringRepeatEvent, June9), EmailRepeated, 4, 0, 0);
  }

  /** The base row of the eight-day alarm rolls forward to the occurrence of 2016-07-14. */
  lemma EightDayAlarmRollsForward()
    ensures FollowOn(DueFive[4], TestEnvironment) == [
      Reminder(1337, 42, Uid, true, 1468454400, false, EventHash(RecurringEvent, June9), AlarmHash(EmailEightDays), Email, true, 1467763200, false)]
  {
    assert LocateOccurrence(RecurringEvent, 1467849600, 0) == Some(4);
    assert FindAlarm(RecurringEvent.alarms, AlarmHash(EmailEightDays)) == Some(EmailEightDays);
    assert NextOccurrence(EmailEightDays.trigger, 1465430400, June8, 5) == Some(5);
    SingleOccurrenceRow(Object(RecurringEvent), June9, EmailEightDays, 5, 0, 0);
  }

  /**
   * Only the two recurring base rows roll forward: the repeated alarm to the
   * occurrence of 2016-07-07 with its four copies, the eight-day alarm to that of
   * 2016-07-14.
   */
  lemma ProcessFiveFollowOns()
    ensures FollowOns(DueFive, Roller(TestEnvironment)) == [
      Reminder(1337, 42, Uid, true, 1467849600, false, EventHash(RecurringEvent, June9), AlarmHash(EmailRepeated), Email, true, 1467848700, false),
      Reminder(1337, 42, Uid, true, 1467849600, false, EventHash(RecurringEvent, June9), AlarmHash(EmailRepeated), Email, true, 1467848820, true),
      Reminder(1337, 42, Uid, true, 1467849600, false, EventHash(RecurringEvent, June9), AlarmHash(EmailRepeated), Email, true, 1467848940, true),
      Reminder(1337, 42, Uid, true, 1467849600, false, EventHash(RecurringEvent, June9), AlarmHash(EmailRepeated), Email, true, 1467849060, true),
      Reminder(1337, 42, Uid, true, 1467849600, false, EventHash(RecurringEvent, June9), AlarmHash(EmailRepeated), Email, true, 1467849180, true),
      Reminder(1337, 42, Uid, true, 1468454400, false, EventHash(RecurringEvent, June9), AlarmHash(EmailEightDays), Email, true, 1467763200, false)]
  {
    var roll := Roller(TestEnvironment);
    assert roll(DueFive[0]) == [] && roll(DueFive[1]) == [] && roll(DueFive[2]) == [];
    RepeatedAlarmRollsForward();
    EightDayAlarmRollsForward();
    PrefixSteps();
    assert FollowOns(DueFive[..1], roll) == [];
    assert FollowOns(DueFive[..2], roll) == [];
    assert FollowOns(DueFive[..3], roll) == [];
    assert FollowOns(DueFive[..4], roll) == roll(DueFive[3]);
  }

  lemma PrefixSteps()
    ensures DueFive[..4][..3] == DueFive[..3] && DueFive[..3][..2] == DueFive[..2]
    ensures DueFive[..2][..1] == DueFive[..1] && DueFive[..1][..0] == []
    ensures DueFive[..4][3] == DueFive[3] && DueFive[..3][2] == DueFive[2]
    ensures DueFive[..2][1] == DueFive[1] && DueFive[..1][0] == DueFive[0]
  {
  }
}
