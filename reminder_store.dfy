/**
 * The reminder table of the CalDAV reminder backend: rows keyed by an id assigned
 * at insert, with insertReminder, removeReminder, cleanRemindersForEvent and
 * getRemindersToProcess.
 */
module ReminderStore {
  import opened Options
  import opened Calendar

  /** The twelve values passed to insertReminder, in its argument order. */
  datatype Reminder = Reminder(
    calendarId: int,
    objectId: int,
    uid: string,
    isRecurring: bool,
    recurrenceId: int,
    isRecurrenceException: bool,
    eventHash: Digest,
    alarmHash: Digest,
    notificationType: Action,
    isRelative: bool,
    notificationDate: int,
    isRepeatBased: bool)

  /** A stored row: the id the store assigned and the inserted values. */
  datatype Row = Row(id: nat, reminder: Reminder)

  /**
   * What getRemindersToProcess joins to each due row: the object's calendar data,
   * the calendar's display name and the owner's principal URI.
   */
  datatype DueContext = DueContext(event: ParsedEvent, displayName: string, principalUri: string)

  /** One entry of getRemindersToProcess: a due row with its joined context. */
  datatype DueReminder = DueReminder(id: nat, reminder: Reminder, context: DueContext)

  ghost predicate IdsIncreasing(rows: seq<Row>)
  {
    forall i, j :: 0 <= i < j < |rows| ==> rows[i].id < rows[j].id
  }

  /** The rows whose id is not in `ids`, in their stored order. */
  function WithoutIds(rows: seq<Row>, ids: set<nat>): (r: seq<Row>)
    ensures |r| <= |rows|
  {
    if rows == [] then []
    else if rows[0].id in ids then WithoutIds(rows[1..], ids)
    else [rows[0]] + WithoutIds(rows[1..], ids)
  }

  /** A row survives the removal exactly when its id is not among those removed. */
  lemma {:induction false} WithoutIdsKeeps(rows: seq<Row>, ids: set<nat>)
    ensures forall x :: x in WithoutIds(rows, ids) <==> x in rows && x.id !in ids
  {
    if rows != [] {
      WithoutIdsKeeps(rows[1..], ids);
      assert rows == [rows[0]] + rows[1..];
    }
  }

  /** Removal keeps the stored order of ids. */
  lemma {:induction false} WithoutIdsIncreasing(rows: seq<Row>, ids: set<nat>)
    requires IdsIncreasing(rows)
    ensures IdsIncreasing(WithoutIds(rows, ids))
  {
    if rows != [] {
      var rest := WithoutIds(rows[1..], ids);
      WithoutIdsIncreasing(rows[1..], ids);
      WithoutIdsKeeps(rows[1..], ids);
      if rows[0].id !in ids {
        forall j | 0 < j < |rest| + 1
          ensures rows[0].id < ([rows[0]] + rest)[j].id
        {
          assert rest[j - 1] in rows[1..];
        }
      }
    }
  }

  /** The rows that belong to another calendar object than `objectId`, in their stored order. */
  function WithoutObject(rows: seq<Row>, objectId: int): (r: seq<Row>)
    ensures forall x :: x in r <==> x in rows && x.reminder.objectId != objectId
    ensures IdsIncreasing(rows) ==> IdsIncreasing(r)
  {
    if rows == [] then []
    else if rows[0].reminder.objectId == objectId then WithoutObject(rows[1..], objectId)
    else
      var rest := WithoutObject(rows[1..], objectId);
      assert forall x :: x in rest ==> x in rows[1..];
      [rows[0]] + rest
  }

  /**
   * The rows due at `dueBy` whose calendar object is known, in stored order, each
   * joined with its object's context.
   */
  function DueRows(rows: seq<Row>, dueBy: int, objects: map<int, DueContext>): (due: seq<DueReminder>)
    ensures |due| <= |rows|
  {
    if rows == [] then []
    else
      var x := rows[0];
      var rest := DueRows(rows[1..], dueBy, objects);
      if x.reminder.notificationDate <= dueBy && x.reminder.objectId in objects then
        [DueReminder(x.id, x.reminder, objects[x.reminder.objectId])] + rest
      else rest
  }

  /** A row is due exactly when it is stored, notifies by `dueBy` and its object is known. */
  lemma {:induction false} DueRowsSelects(rows: seq<Row>, dueBy: int, objects: map<int, DueContext>)
    ensures forall d :: d in DueRows(rows, dueBy, objects) ==>
      Row(d.id, d.reminder) in rows && d.reminder.notificationDate <= dueBy &&
      d.reminder.objectId in objects && d.context == objects[d.reminder.objectId]
    ensures forall x :: x in rows && x.reminder.notificationDate <= dueBy && x.reminder.objectId in objects ==>
      DueReminder(x.id, x.reminder, objects[x.reminder.objectId]) in DueRows(rows, dueBy, objects)
  {
    if rows != [] {
      DueRowsSelects(rows[1..], dueBy, objects);
      assert rows == [rows[0]] + rows[1..];
    }
  }

  /** Every due row carries an id the store already holds, so below `next`. */
  lemma DueIdsBelow(rows: seq<Row>, dueBy: int, objects: map<int, DueContext>, next: nat)
    requires forall x :: x in rows ==> x.id < next
    ensures forall d :: d in DueRows(rows, dueBy, objects) ==> d.id < next
  {
    DueRowsSelects(rows, dueBy, objects);
  }

  /** The rows inserted for `reminders` in order, given ids from `first` on. */
  function Numbered(reminders: seq<Reminder>, first: nat): (rows: seq<Row>)
    ensures |rows| == |reminders|
  {
    if reminders == [] then [] else [Row(first, reminders[0])] + Numbered(reminders[1..], first + 1)
  }

  /** Numbering two batches one after the other numbers their concatenation. */
  lemma {:induction false} NumberedAppend(a: seq<Reminder>, b: seq<Reminder>, first: nat)
    ensures Numbered(a, first) + Numbered(b, first + |a|) == Numbered(a + b, first)
  {
    if a == [] {
      assert a + b == b;
    } else {
      NumberedAppend(a[1..], b, first + 1);
      assert (a + b)[0] == a[0] && (a + b)[1..] == a[1..] + b;
    }
  }

  /** Removing ids from a concatenation removes them from each part. */
  lemma {:induction false} WithoutIdsAppend(a: seq<Row>, b: seq<Row>, ids: set<nat>)
    ensures WithoutIds(a + b, ids) == WithoutIds(a, ids) + WithoutIds(b, ids)
  {
    if a == [] {
      assert a + b == b;
    } else {
      var ab := a + b;
      assert ab[0] == a[0] && ab[1..] == a[1..] + b;
      WithoutIdsAppend(a[1..], b, ids);
      if a[0].id in ids {
        assert WithoutIds(ab, ids) == WithoutIds(a[1..] + b, ids);
      } else {
        assert WithoutIds(ab, ids) == [a[0]] + WithoutIds(a[1..] + b, ids);
      }
    }
  }

  /** Removing two id sets one after the other removes their union. */
  lemma {:induction false} WithoutIdsTwice(rows: seq<Row>, ids: set<nat>, more: set<nat>)
    ensures WithoutIds(WithoutIds(rows, ids), more) == WithoutIds(rows, ids + more)
  {
    if rows != [] {
      WithoutIdsTwice(rows[1..], ids, more);
    }
  }

  /** Removing ids that no row carries changes nothing. */
  lemma {:induction false} WithoutAbsentIds(rows: seq<Row>, ids: set<nat>)
    requires forall x :: x in rows ==> x.id !in ids
    ensures WithoutIds(rows, ids) == rows
  {
    if rows != [] {
      assert rows == [rows[0]] + rows[1..];
      WithoutAbsentIds(rows[1..], ids);
    }
  }

  /**
   * Removing an old id from old rows followed by numbered new rows, then numbering
   * more rows after them, is the same as removing it from the old rows alone.
   */
  lemma RemoveThenNumber(rows: seq<Row>, first: nat, ids: set<nat>, added: seq<Reminder>, id: nat, more: seq<Reminder>)
    requires id < first
    ensures WithoutIds(WithoutIds(rows, ids) + Numbered(added, first), {id}) + Numbered(more, first + |added|) ==
      WithoutIds(rows, ids + {id}) + Numbered(added + more, first)
  {
    var kept, numbered := WithoutIds(rows, ids), Numbered(added, first);
    NumberedFrom(added, first);
    calc {
      WithoutIds(kept + numbered, {id}) + Numbered(more, first + |added|);
      { WithoutIdsAppend(kept, numbered, {id}); }
      WithoutIds(kept, {id}) + WithoutIds(numbered, {id}) + Numbered(more, first + |added|);
      { WithoutIdsTwice(rows, ids, {id}); WithoutAbsentIds(numbered, {id}); }
      WithoutIds(rows, ids + {id}) + numbered + Numbered(more, first + |added|);
      { NumberedAppend(added, more, first); }
      WithoutIds(rows, ids + {id}) + Numbered(added + more, first);
    }
  }

  /** Numbered rows carry ids from `first` on. */
  lemma {:induction false} NumberedFrom(reminders: seq<Reminder>, first: nat)
    ensures forall x :: x in Numbered(reminders, first) ==> first <= x.id
  {
    if reminders != [] {
      NumberedFrom(reminders[1..], first + 1);
    }
  }

  /** The reminder backend's table. */
  class Store {
    var rows: seq<Row>
    var nextId: nat

    /** Ids are assigned in increasing order and every stored id is below the next one. */
    ghost predicate Valid()
      reads this
    {
      IdsIncreasing(rows) && forall x :: x in rows ==> x.id < nextId
    }

    constructor ()
      ensures Valid() && rows == [] && nextId == 1
    {
      rows := [];
      nextId := 1;
    }

    /** insertReminder: stores the row and returns its new id. */
    method InsertReminder(reminder: Reminder) returns (id: nat)
      requires Valid()
      modifies this
      ensures Valid()
      ensures id == old(nextId) && nextId == id + 1
      ensures rows == old(rows) + [Row(id, reminder)]
    {
      id := nextId;
      rows := rows + [Row(id, reminder)];
      nextId := nextId + 1;
    }

    /** Inserts the reminders one after the other, as the service writes a batch. */
    method InsertAll(reminders: seq<Reminder>)
      requires Valid()
      modifies this
      ensures Valid()
      ensures nextId == old(nextId) + |reminders|
      ensures rows == old(rows) + Numbered(reminders, old(nextId))
    {
      var j := 0;
      while j < |reminders|
        invariant 0 <= j <= |reminders|
        invariant Valid()
        invariant nextId == old(nextId) + j
        invariant rows == old(rows) + Numbered(reminders[..j], old(nextId))
      {
        var id := InsertReminder(reminders[j]);
        NumberedAppend(reminders[..j], [reminders[j]], old(nextId));
        assert reminders[..j + 1] == reminders[..j] + [reminders[j]];
        j := j + 1;
      }
      assert reminders[..j] == reminders;
    }

    /** removeReminder: drops the row with that id, if any. */
    method RemoveReminder(id: nat)
      requires Valid()
      modifies this
      ensures Valid() && nextId == old(nextId)
      ensures rows == WithoutIds(old(rows), {id})
    {
      WithoutIdsKeeps(rows, {id});
      WithoutIdsIncreasing(rows, {id});
      rows := WithoutIds(rows, {id});
    }

    /** cleanRemindersForEvent: drops every row of the calendar object. */
    method CleanRemindersForEvent(objectId: int)
      requires Valid()
      modifies this
      ensures Valid() && nextId == old(nextId)
      ensures rows == WithoutObject(old(rows), objectId)
      ensures forall x :: x in rows ==> x.reminder.objectId != objectId
    {
      rows := WithoutObject(rows, objectId);
    }

    /** getRemindersToProcess: the due rows, joined with their objects' context. */
    method GetRemindersToProcess(dueBy: int, objects: map<int, DueContext>) returns (due: seq<DueReminder>)
      ensures due == DueRows(rows, dueBy, objects)
    {
      due := DueRows(rows, dueBy, objects);
    }
  }
}
