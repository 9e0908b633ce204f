# CalDAV reminders and secure-view downloads

This project models two behaviours of the cloud server. Both are known through the unit tests that pin them
down, and the implementation classes are not part of this model.

- **The CalDAV reminder service** (`apps/dav`). `onCalendarObjectCreate` turns the VALARMs of a calendar object
  into rows of the reminder table. A relative TRIGGER resolves against the occurrence start, and an absolute
  TRIGGER is used verbatim. REPEAT/DURATION copies follow the base row. A weekly series gets one occurrence per
  alarm. `onCalendarObjectDelete` drops the object's rows. `processReminders` works through the due rows in
  order: it sends each one through the provider of its action kind, removes it by id, and for a recurring
  alarm inserts the rows of the same alarm for a later occurrence. All arithmetic follows RFC 5545: TRIGGER
  (section 3.8.6.3), REPEAT and DURATION (section 3.8.6.2), the DURATION value (section 3.3.6), and weekly
  recurrence (section 3.8.5.3). Instants are integer Unix seconds, and zones are fixed offsets.
- **The secure-view download check** (`apps/files_sharing`). `BeforeDirectFileDownloadListener` and
  `BeforeZipCreatedListener` refuse a download when the logged-in user asks for a node that lies, or has
  anything below it that lies, on a received share whose `permissions/download` attribute is false. A refused
  event gets `successful = false` and an error message. Without a logged-in user the request passes.

Modules:

- `Options`: Option and a max.
- `Calendar`: parsed event, alarm, trigger, zone, occurrences and hashes.
- `ReminderStore`: the reminder table, as the class `Store` with its row sequence and next id.
- `ReminderService`: materialisation, the per-row sending and roll-forward, and the three entry points as
  methods on a `Store`.
- `ReminderFixtures`: the test's calendar objects and due rows.
- `ViewOnly`: the recursive check over a folder tree.
- `DownloadListeners`: the event objects and the two listeners, as classes.
- `DownloadFixtures`: the test's folder trees.

Choices the tests fix, and choices where they say nothing:

- **Which occurrence a recurring alarm gets.** Each alarm is materialised for the earliest occurrence whose
  *notification* is not before now. ReminderServiceTest.php:383-397 sets now to 2016-06-29 and expects the
  `-P8D` alarm on the 07-07 occurrence, whose notification is exactly now. The 06-30 occurrence is skipped,
  even though its start still lies ahead. So the choice goes by notification, and the bound is inclusive.
- **The reference zone of an all-day event.** The notification of an all-day event is computed from midnight
  in the calendar's timezone when the calendar has one, and in the server zone otherwise. Its `recurrence_id`
  is always midnight in the server zone. The tests fix only the case without a calendar timezone.
- **Missing recipient or provider.** A due row whose principal has no user, or whose action kind has no
  provider, is not sent. It is still removed. The tests do not cover either case.
- **Which rows roll forward.** Only the base row (not repeat-based) of a recurring weekly alarm with a
  relative trigger rolls forward. Its follow-on starts from the next occurrence, and uses the same choice rule
  against the service clock. An absolute trigger names one instant for the whole series, so once its row has
  fired there is nothing to roll to. In the test, only the relative rows 4 and 5 insert
  (ReminderServiceTest.php:756-770).
- **Two clocks.** `processReminders` uses two instants: the cut-off the store selects due rows by (`dueBy`),
  and the service clock (`env.now`) that the roll-forward compares against. In the processing test, four of
  the five rows are due after the service clock, 2016-06-08T00:00Z (ReminderServiceTest.php:572-663, :773).
  Row 3 notifies exactly at that clock. The store's cut-off must reach 2016-07-07.

## Model

| member | source | states |
|---|---|---|
| Calendar.RepeatDates | apps/dav/tests/unit/CalDAV/Reminder/ReminderServiceTest.php:78-83 | REPEAT R with DURATION d gives exactly R+1 instants, the k-th being the first plus k·d |
| Calendar.WeeksToCover | apps/dav/tests/unit/CalDAV/Reminder/ReminderServiceTest.php:383-397 | the week count is the least w with w·604800 covering the span: w weeks cover it and w−1 do not |
| Calendar.NextOccurrence | apps/dav/tests/unit/CalDAV/Reminder/ReminderServiceTest.php:383-397 | the chosen occurrence is at or after the starting index and its notification is not before now (inclusive); only an absolute trigger can have no occurrence |
| Calendar.NextOccurrenceIsEarliest | apps/dav/tests/unit/CalDAV/Reminder/ReminderServiceTest.php:383-397 | every occurrence before the chosen one notifies before now, and when none is chosen every occurrence does |
| Calendar.LocateOccurrence | apps/dav/tests/unit/CalDAV/Reminder/ReminderServiceTest.php:700-739 | a found index is an occurrence starting at that instant (0 for a one-off event); not found means no occurrence starts there |
| Calendar.RelativeTriggerShiftsWithStart | apps/dav/tests/unit/CalDAV/Reminder/ReminderServiceTest.php:53-56 | a relative trigger moves with the occurrence start by the same amount |
| Calendar.AbsoluteTriggerIgnoresStart | apps/dav/tests/unit/CalDAV/Reminder/ReminderServiceTest.php:57-60 | an absolute DATE-TIME trigger yields its instant whatever the start |
| Calendar.AlarmHashIdentifiesAlarm | apps/dav/tests/unit/CalDAV/Reminder/ReminderServiceTest.php:288-289 | two alarms share an alarm hash exactly when their definitions are equal, so adding REPEAT changes it |
| Calendar.EventHashIgnoresAlarms | apps/dav/tests/unit/CalDAV/Reminder/ReminderServiceTest.php:352-358 | the event hash does not depend on the alarms, so it is constant over an object's rows |
| Calendar.EventHashSeesRecurrence | apps/dav/tests/unit/CalDAV/Reminder/ReminderServiceTest.php:383-386 | adding or removing the weekly rule changes the event hash |
| ReminderStore.WithoutIdsKeeps | apps/dav/tests/unit/CalDAV/Reminder/ReminderServiceTest.php:741-753 | a row survives removal by ids exactly when its id is not among them |
| ReminderStore.WithoutIdsIncreasing | apps/dav/tests/unit/CalDAV/Reminder/ReminderServiceTest.php:741-753 | removal keeps the ids in increasing order |
| ReminderStore.WithoutObject | apps/dav/tests/unit/CalDAV/Reminder/ReminderServiceTest.php:266-277 | the rows kept are exactly those of other objects, in increasing id order |
| ReminderStore.DueRowsSelects | apps/dav/tests/unit/CalDAV/Reminder/ReminderServiceTest.php:572-663 | a row is returned as due, joined with its object's context, exactly when it is stored, notifies by the cut-off and its object is known |
| ReminderStore.NumberedAppend | apps/dav/tests/unit/CalDAV/Reminder/ReminderServiceTest.php:756-770 | numbering two batches one after the other equals numbering their concatenation |
| ReminderStore.RemoveThenNumber | apps/dav/tests/unit/CalDAV/Reminder/ReminderServiceTest.php:741-770 | removing an old id after some inserts, then inserting more, equals removing it first and inserting everything after |
| ReminderStore.Store.InsertReminder | apps/dav/tests/unit/CalDAV/Reminder/ReminderServiceTest.php:287-290 | appends the row under the next id, returns that id and advances the counter |
| ReminderStore.Store.InsertAll | apps/dav/tests/unit/CalDAV/Reminder/ReminderServiceTest.php:352-358 | inserts a batch in order under consecutive fresh ids, keeping the ids increasing |
| ReminderStore.Store.RemoveReminder | apps/dav/tests/unit/CalDAV/Reminder/ReminderServiceTest.php:741-753 | drops exactly the row with that id and keeps the table's invariant |
| ReminderStore.Store.CleanRemindersForEvent | apps/dav/tests/unit/CalDAV/Reminder/ReminderServiceTest.php:266-277 | leaves exactly the other objects' rows, so none of the object's rows remain |
| ReminderStore.Store.GetRemindersToProcess | apps/dav/tests/unit/CalDAV/Reminder/ReminderServiceTest.php:572-663 | returns the due rows in stored order, changing nothing |
| ReminderService.OccurrenceRows | apps/dav/tests/unit/CalDAV/Reminder/ReminderServiceTest.php:352-358 | an alarm's rows for one occurrence: R+1 rows sharing every field but the notification, which steps by DURATION from the trigger instant; only the first is not repeat-based |
| ReminderService.NothingToScheduleWithoutStartOrAlarms | apps/dav/tests/unit/CalDAV/Reminder/ReminderServiceTest.php:307-342 | an event without DTSTART or without VALARM yields no rows |
| ReminderService.OneOffMaterialization | apps/dav/tests/unit/CalDAV/Reminder/ReminderServiceTest.php:279-305 | a one-off event yields R+1 rows in all per alarm (one per alarm without repeats), none recurring, all with recurrence_id the event start; the rows are exactly the alarms' `OccurrenceRows` for occurrence 0, in both directions, so each row carries its alarm's hash, action, relative flag and trigger instant plus k·DURATION |
| ReminderService.RecurringMaterialization | apps/dav/tests/unit/CalDAV/Reminder/ReminderServiceTest.php:375-400 | every row of a weekly event is recurring, belongs to an occurrence of the series, and its base row notifies no earlier than now |
| ReminderService.RelativeAlarmsAllScheduled | apps/dav/tests/unit/CalDAV/Reminder/ReminderServiceTest.php:497-533 | a weekly event with relative alarms gets R+1 rows in all per alarm: every alarm contributes exactly R+1 rows, and all of them are among the event's rows |
| ReminderService.AlarmsRowsExactly | apps/dav/tests/unit/CalDAV/Reminder/ReminderServiceTest.php:279-533 | the rows of the alarms are exactly the rows each alarm contributes: every alarm's rows are among them, and each of them comes from one alarm |
| ReminderService.Materialize | apps/dav/tests/unit/CalDAV/Reminder/ReminderServiceTest.php:279-566 | the rows onCalendarObjectCreate inserts: none without DTSTART, else each alarm's rows in order; its properties are the lemmas above and the fixture lemmas below |
| ReminderService.AllDayZoneShift | apps/dav/tests/unit/CalDAV/Reminder/ReminderServiceTest.php:416-496 | a calendar timezone moves each relative row of a one-off all-day event by the difference from the server zone and changes nothing else |
| ReminderService.BlankZoneIsUnset | apps/dav/tests/unit/CalDAV/Reminder/ReminderServiceTest.php:443-469 | a blank calendar timezone gives the same rows as none at all |
| ReminderService.TimedIgnoresCalendarZone | apps/dav/tests/unit/CalDAV/Reminder/ReminderServiceTest.php:535-566 | a DTSTART with its own TZID gives the same rows whatever the calendar timezone |
| ReminderService.FindAlarm | apps/dav/tests/unit/CalDAV/Reminder/ReminderServiceTest.php:756-770 | a found alarm is in the event and has the row's alarm hash; not found means no alarm of the event has it |
| ReminderService.Delivery | apps/dav/tests/unit/CalDAV/Reminder/ReminderServiceTest.php:665-739 | the send of one due row, with the row's action kind, occurrence, calendar name and user; `DeliveryIsTheRowsOccurrence` states when it exists |
| ReminderService.FollowOn | apps/dav/tests/unit/CalDAV/Reminder/ReminderServiceTest.php:756-770 | the rows one fired row leaves behind; `FollowOnRollsForward`, `FollowOnNotBeforeNow` and `FollowOnNextWeek` state what they are |
| ReminderService.DeliveryIsTheRowsOccurrence | apps/dav/tests/unit/CalDAV/Reminder/ReminderServiceTest.php:665-739 | a row is sent exactly when its occurrence exists, its kind has a provider and its principal a user; the send has the row's kind and DTSTART equal to its recurrence_id |
| ReminderService.FollowOnRollsForward | apps/dav/tests/unit/CalDAV/Reminder/ReminderServiceTest.php:756-770 | only a recurring, relative base row leaves rows behind; they are the same alarm and object for a later occurrence of the series |
| ReminderService.FollowOnNotBeforeNow | apps/dav/tests/unit/CalDAV/Reminder/ReminderServiceTest.php:756-770 | the base follow-on row never notifies before the service clock, it comes first, and the copies follow it DURATION apart |
| ReminderService.FollowOnNextWeek | apps/dav/tests/unit/CalDAV/Reminder/ReminderServiceTest.php:756-770 | when next week's notification still lies ahead, the follow-on is the alarm's R+1 `OccurrenceRows` for the next occurrence, at recurrence_id + 604800, with their notification dates |
| ReminderService.AtMostOneSendPerRow | apps/dav/tests/unit/CalDAV/Reminder/ReminderServiceTest.php:700-739 | there are no more sends than due rows, and exactly as many when every row can be delivered |
| ReminderService.OnlyRecurringBaseRowsRollForward | apps/dav/tests/unit/CalDAV/Reminder/ReminderServiceTest.php:756-770 | due rows that are all non-recurring, repeat-based or absolute cause no insert |
| ReminderService.OnCalendarObjectCreate | apps/dav/tests/unit/CalDAV/Reminder/ReminderServiceTest.php:279-305 | appends the object's materialised rows (for the environment's clock and the calendar's timezone) in order under fresh ids, advancing the next id by their number |
| ReminderService.OnCalendarObjectDelete | apps/dav/tests/unit/CalDAV/Reminder/ReminderServiceTest.php:266-277 | leaves no row of the object and keeps every other row |
| ReminderService.ProcessDue | apps/dav/tests/unit/CalDAV/Reminder/ReminderServiceTest.php:741-770 | removes every due row by id in order, sends each one's delivery, and appends all follow-ons under fresh ids, advancing the next id by their number |
| ReminderService.ProcessReminders | apps/dav/tests/unit/CalDAV/Reminder/ReminderServiceTest.php:568-776 | processes exactly the due rows: their ids removed in stored order, one send per deliverable row, the follow-ons appended, the next id advanced by their number, and no due id left |
| ReminderFixtures.SingleEntryRows | apps/dav/tests/unit/CalDAV/Reminder/ReminderServiceTest.php:279-305 | the single event yields the two rows the test expects (1465429500 relative, 1465344000 absolute) |
| ReminderFixtures.SingleEntryWithRepeatRows | apps/dav/tests/unit/CalDAV/Reminder/ReminderServiceTest.php:344-373 | REPEAT:4 PT2M yields the five expected rows, 120 s apart |
| ReminderFixtures.RecurringEntryRows | apps/dav/tests/unit/CalDAV/Reminder/ReminderServiceTest.php:375-400 | the weekly event yields the 06-30 row for -PT15M and the 07-07 row for -P8D at exactly now |
| ReminderFixtures.RecurringEntryWithRepeatRows | apps/dav/tests/unit/CalDAV/Reminder/ReminderServiceTest.php:497-533 | the weekly event with a repeated alarm yields its five 06-30 rows and the 07-07 row |
| ReminderFixtures.NoDtstartOrNoAlarmNoRows | apps/dav/tests/unit/CalDAV/Reminder/ReminderServiceTest.php:307-342 | no DTSTART and no VALARM both insert nothing |
| ReminderFixtures.AllDayRows | apps/dav/tests/unit/CalDAV/Reminder/ReminderServiceTest.php:416-496 | the all-day alarm is 1675465200 with a null or blank calendar timezone and 1675504800 with Pago Pago |
| ReminderFixtures.EventZoneOverCalendarZoneRows | apps/dav/tests/unit/CalDAV/Reminder/ReminderServiceTest.php:535-566 | the Vienna event in a Pago Pago calendar notifies at 1675494000 |
| ReminderFixtures.ProcessFiveSends | apps/dav/tests/unit/CalDAV/Reminder/ReminderServiceTest.php:700-739 | the five due rows send five times, with DTSTART 06-09 three times, then 06-30 and 07-07 |
| ReminderFixtures.RepeatedAlarmRollsForward | apps/dav/tests/unit/CalDAV/Reminder/ReminderServiceTest.php:756-761 | row 4 rolls to the 07-07 occurrence with its four repeats |
| ReminderFixtures.EightDayAlarmRollsForward | apps/dav/tests/unit/CalDAV/Reminder/ReminderServiceTest.php:762 | row 5 rolls to the 07-14 occurrence |
| ReminderFixtures.ProcessFiveFollowOns | apps/dav/tests/unit/CalDAV/Reminder/ReminderServiceTest.php:756-770 | only rows 4 and 5 insert: six rows in all, in that order |
| ViewOnly.CanDownload | apps/files_sharing/tests/ApplicationTest.php:109-167 | a node can be downloaded when its own storage allows it and, for a folder, every listed entry can; `CanDownloadIffWholeSubtree` states it over the whole subtree |
| ViewOnly.CanDownloadIffWholeSubtree | apps/files_sharing/tests/ApplicationTest.php:109-167 | a node can be downloaded exactly when no node of its subtree lies on a share denying download |
| ViewOnly.SecureDescendantBlocks | apps/files_sharing/tests/ApplicationTest.php:139-153 | one secure node anywhere below blocks the whole folder, whatever its siblings |
| ViewOnly.NonSharedTreeAllowed | apps/files_sharing/tests/ApplicationTest.php:123-137 | a tree touching no share can always be downloaded |
| ViewOnly.CheckPaths | apps/files_sharing/tests/ApplicationTest.php:169-189 | the request passes exactly when every path's node can be downloaded |
| DownloadListeners.Permitted | apps/files_sharing/tests/ApplicationTest.php:169-205 | a request passes without a logged-in user, and otherwise when every path's node can be downloaded |
| DownloadListeners.NoUserAlwaysPermitted | apps/files_sharing/tests/ApplicationTest.php:191-205 | without a logged-in user every request is permitted |
| DownloadListeners.ZipPermittedIffNoSecureNode | apps/files_sharing/tests/ApplicationTest.php:169-189 | a user's zip passes exactly when no node below any listed entry lies on a share denying download |
| DownloadListeners.BeforeZipCreatedListener.Handle | apps/files_sharing/tests/ApplicationTest.php:169-205 | successful is set to whether the zip is permitted; a refusal sets the error message; from a fresh event, successful holds exactly when the message is null |
| DownloadListeners.BeforeDirectFileDownloadListener.Handle | apps/files_sharing/tests/ApplicationTest.php:90-107 | successful is set to whether the one file is permitted; a refusal sets the error message |
| DownloadFixtures.FixtureTrees | apps/files_sharing/tests/ApplicationTest.php:109-167 | the plain tree can be downloaded; the trees with a secure file or a secure folder cannot |
| DownloadFixtures.ZipCases | apps/files_sharing/tests/ApplicationTest.php:109-189 | the four zip cases give true, true, false, false |
| DownloadFixtures.ZipWithoutUser | apps/files_sharing/tests/ApplicationTest.php:191-205 | without a user the zip passes and the message stays null |
| DownloadFixtures.DirectCases | apps/files_sharing/tests/ApplicationTest.php:44-107 | the three direct cases give true, true, false |

## Left out

- iCalendar parsing: the model starts from a parsed event (UID, DTSTART, a weekly flag, the alarms in seconds).
  The parser is an external library.
- Recurrence rules other than FREQ=WEEKLY without an end (COUNT, UNTIL, EXDATE, other frequencies) are not
  modelled, because the tests use only an unbounded weekly rule.
- RECURRENCE-ID overrides are not modelled: `is_recurrence_exception` is always false, as in every row of the
  tests.
- TRIGGER;RELATED=END is not modelled: triggers are relative to the start, as in the tests.
- Time zones are fixed offsets, with no daylight-saving time and no tz database. The tests' zones are UTC,
  Europe/Vienna in February and Pacific/Pago_Pago.
- A TZID on a DATE-valued DTSTART is ignored: the tests' `TZID=Europe/Berlin;VALUE=DATE` start is midnight in
  the server zone (1465430400 at ReminderServiceTest.php:288), so the Berlin zone is not modelled.
- Calendar.EventHash, Calendar.AlarmHash: the MD5 digests are replaced by the hashed field sets themselves.
  These are deterministic and collision-free, which is stronger than MD5; the hex strings are not reproduced.
- Insert-or-ignore uniqueness, idempotent re-materialisation, concurrent writers and caching across passes are
  not modelled. Every insert appends a row, and no test asserts more.
- Ids are unbounded naturals. The 64-bit ids and the string-to-integer conversion of the object id are not
  modelled.
- The principal directory is keyed by the full principal URI. Stripping the principal prefix is not modelled.
- Share and group recipients (`getShares`, group members) are not modelled: they are out of this model's
  scope, so a row goes to the owner's user only.
- The event view handed to a provider is reduced to its DTSTART. The providers' send formatting, the
  calendar name's rendering and the message wording are not modelled; `DeniedMessage` is a placeholder.
- The clock and the calendar's timezone are values of Environment. How often the service reads them (the
  tests' mock call counts) is not modelled.
- The logger is not modelled.
- The download check's root folder and user session are functions from (user, path) to a node. A path that
  does not exist is not modelled, and neither is a share without a download attribute.
- The implementation classes (the reminder service, its backend and the two listeners) are not part of this
  model. The behaviour is that fixed by the tests.
