/**
 * The parsed view of a calendar object that the reminder service works on, and the
 * instant arithmetic of RFC 5545 it needs: the TRIGGER of an alarm (section 3.8.6.3),
 * REPEAT and DURATION (section 3.8.6.2), durations as signed seconds (section 3.3.6)
 * and a FREQ=WEEKLY recurrence rule (section 3.8.5.3).
 *
 * Instants are integer Unix seconds. A time zone is a fixed offset in seconds east
 * of UTC (no daylight-saving transitions).
 */
module Calendar {
  import opened Options

  const Day: int := 86400
  /** The period of FREQ=WEEKLY. */
  const Week: int := 604800

  /** The ACTION of a VALARM. */
  datatype Action = Email | Display | Audio

  /** TRIGGER: a signed duration from the occurrence start, or a DATE-TIME used verbatim. */
  datatype Trigger = Relative(offset: int) | Absolute(instant: int)

  /**
   * A VALARM: its ACTION, its TRIGGER, REPEAT (0 when absent) and the DURATION
   * between repetitions (in seconds; irrelevant when REPEAT is 0).
   */
  datatype Alarm = Alarm(action: Action, trigger: Trigger, repeat: nat, interval: int)

  /**
   * DTSTART: an all-day DATE (days since 1970-01-01), or a DATE-TIME given as the
   * wall-clock reading (seconds since 1970-01-01T00:00 on that clock) in its own zone.
   */
  datatype EventStart = AllDay(day: int) | Timed(wallClock: int, zone: int)

  /**
   * The first VEVENT of a calendar object: UID, DTSTART (which may be missing),
   * whether it carries RRULE:FREQ=WEEKLY, and its VALARMs in order.
   */
  datatype ParsedEvent = ParsedEvent(uid: string, start: Option<EventStart>, weekly: bool, alarms: seq<Alarm>)

  /**
   * The calendar-timezone property of a calendar: null, the empty string, or a
   * VTIMEZONE definition (reduced here to its fixed offset).
   */
  datatype CalendarZone = Unset | Blank | Defined(offset: int)

  /** The zone in which an all-day date starts: the calendar's own, else the server default. */
  function ReferenceZone(calendarZone: CalendarZone, serverZone: int): int
  {
    match calendarZone
    case Defined(offset) => offset
    case _ => serverZone
  }

  /** The instant at which the event starts when its all-day date is read in `zone`. */
  function StartInstant(start: EventStart, zone: int): int
  {
    match start
    case AllDay(day) => day * Day - zone
    case Timed(wallClock, ownZone) => wallClock - ownZone
  }

  /** The start of occurrence k of a weekly series (occurrence 0 is DTSTART). */
  function OccurrenceStart(start: EventStart, zone: int, k: int): int
  {
    StartInstant(start, zone) + k * Week
  }

  /** The instant an alarm notifies for an occurrence starting at `reference`. */
  function TriggerInstant(trigger: Trigger, reference: int): int
  {
    match trigger
    case Relative(offset) => reference + offset
    case Absolute(instant) => instant
  }

  lemma RelativeTriggerShiftsWithStart(offset: int, reference: int, delta: int)
    ensures TriggerInstant(Relative(offset), reference + delta) == TriggerInstant(Relative(offset), reference) + delta
  {
  }

  lemma AbsoluteTriggerIgnoresStart(instant: int, reference: int, other: int)
    ensures TriggerInstant(Absolute(instant), reference) == TriggerInstant(Absolute(instant), other) == instant
  {
  }

  /** The base notification of an alarm for occurrence k, whose series starts at `firstReference`. */
  function OccurrenceNotification(trigger: Trigger, firstReference: int, k: int): int
  {
    TriggerInstant(trigger, firstReference + k * Week)
  }

  /**
   * The notification instants of an alarm that first fires at `first` and then
   * repeats every `interval` seconds: `count` instants in all.
   */
  function RepeatDates(first: int, interval: int, count: nat): (dates: seq<int>)
    ensures |dates| == count
    ensures forall k :: 0 <= k < count ==> dates[k] == first + k * interval
    decreases count
  {
    if count == 0 then [] else [first] + RepeatDates(first + interval, interval, count - 1)
  }

  /** The smallest number of whole weeks that covers `span` seconds. */
  function WeeksToCover(span: int): (w: int)
    ensures w * Week >= span
    ensures (w - 1) * Week < span
  {
    -((-span) / Week)
  }

  /**
   * The earliest occurrence k >= from whose base notification is not before `now`,
   * if there is one. A relative trigger moves with the series and always has one;
   * an absolute trigger has the same instant for every occurrence.
   */
  function NextOccurrence(trigger: Trigger, firstReference: int, now: int, from: nat): (r: Option<nat>)
    ensures r.Some? ==> from <= r.value && OccurrenceNotification(trigger, firstReference, r.value) >= now
    ensures r.None? ==> trigger.Absolute?
  {
    match trigger
    case Absolute(instant) => if instant >= now then Some(from) else None
    case Relative(offset) => Some(Max(from, WeeksToCover(now - firstReference - offset)))
  }

  /** No occurrence from `from` on before the chosen one notifies at or after `now`, and without a choice none does. */
  lemma NextOccurrenceIsEarliest(trigger: Trigger, firstReference: int, now: int, from: nat)
    ensures var r := NextOccurrence(trigger, firstReference, now, from);
      r.Some? ==> forall j :: from <= j < r.value ==> OccurrenceNotification(trigger, firstReference, j) < now
    ensures NextOccurrence(trigger, firstReference, now, from).None? ==>
      forall j :: from <= j ==> OccurrenceNotification(trigger, firstReference, j) < now
  {
    if trigger.Relative? {
      var w := WeeksToCover(now - firstReference - trigger.offset);
      assert forall j :: j <= w - 1 ==> j * Week <= (w - 1) * Week;
    }
  }

  /**
   * Which occurrence of the event starts at `instant` (all-day dates read in
   * `zone`): occurrence 0 only for a one-off event, any of the series for a weekly one.
   */
  function LocateOccurrence(event: ParsedEvent, instant: int, zone: int): (r: Option<nat>)
    ensures r.Some? ==> event.start.Some? && OccurrenceStart(event.start.value, zone, r.value) == instant
    ensures r.Some? && !event.weekly ==> r.value == 0
    ensures r.None? && event.start.Some? && event.weekly ==>
      forall k: nat :: OccurrenceStart(event.start.value, zone, k) != instant
    ensures r.None? && event.start.Some? && !event.weekly ==> StartInstant(event.start.value, zone) != instant
  {
    match event.start
    case None => None
    case Some(start) =>
      var first := StartInstant(start, zone);
      if !event.weekly then
        (if instant == first then Some(0) else None)
      else if instant >= first && (instant - first) % Week == 0 then
        Some((instant - first) / Week)
      else
        None
  }

  /**
   * Fingerprints. The service stores digests of canonical field sets; here a digest
   * is the field set itself, which makes it deterministic and collision-free.
   */
  datatype Digest = EventDigest(uid: string, start: EventStart, weekly: bool) | AlarmDigest(alarm: Alarm)

  /** The event hash: the fields that fix the occurrence schedule (not the alarms). */
  function EventHash(event: ParsedEvent, start: EventStart): Digest
  {
    EventDigest(event.uid, start, event.weekly)
  }

  /** The alarm hash: the alarm definition alone, whatever event it belongs to. */
  function AlarmHash(alarm: Alarm): Digest
  {
    AlarmDigest(alarm)
  }

  lemma AlarmHashIdentifiesAlarm(a: Alarm, b: Alarm)
    ensures AlarmHash(a) == AlarmHash(b) <==> a == b
  {
  }

  lemma EventHashIgnoresAlarms(e: ParsedEvent, alarms: seq<Alarm>, start: EventStart)
    ensures EventHash(e, start) == EventHash(e.(alarms := alarms), start)
  {
  }

  lemma EventHashSeesRecurrence(e: ParsedEvent, start: EventStart)
    ensures EventHash(e, start) != EventHash(e.(weekly := !e.weekly), start)
  {
  }
}
