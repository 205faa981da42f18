/**
 * The task store: the `schedules` and `reminders` tables and the queries and
 * updates the bot runs on them. Rows keep their instants as `Instant`s; the
 * stored column text is `Stamps.StoredText` of the instant, and
 * `Stamps.StoredTextOrder` shows that SQLite's text comparison of those
 * columns (in `ORDER BY` and in `reminder_datetime <= now`) is the order of the
 * instants, which is what the queries below use.
 */
module Schedule {
  import opened Wrappers
  import opened Civil
  import opened Query

  /** One `schedules` row. `is_weekly` defaults to 0 and `is_active` to 1 in the table. */
  datatype Row = Row(
    id: nat,
    chatId: string,
    userPhone: string,
    name: string,
    teacherCode: string,
    room: string,
    dateTime: Instant,
    dayOfWeek: string,
    isWeekly: bool,
    isActive: bool)

  /** One `reminders` row; `at` is `reminder_datetime`, `is_sent` defaults to 0. */
  datatype Reminder = Reminder(id: nat, scheduleId: nat, at: int, isSent: bool)

  /** The `scheduleData` object that callers hand to `create`. */
  datatype NewSchedule = NewSchedule(
    chatId: string,
    userPhone: string,
    name: string,
    teacherCode: string,
    room: string,
    dateTime: Instant,
    isWeekly: bool)

  /**
   * One element of `findUpcomingReminders`. `reminderId` is `row.id` of the
   * joined `SELECT r.*, s.*` row; the driver keeps the last of the two `id`
   * columns, so it is the SCHEDULE's id (see `UpcomingReminders`).
   */
  datatype Due = Due(reminderId: nat, schedule: Row)

  datatype Tables = Tables(schedules: seq<Row>, reminders: seq<Reminder>)

  // ---------------------------------------------------------------------
  // The constructor's defaults

  /** `data.is_weekly || data.isWeekly || false`, with the column as 0/1 and the property as a boolean. */
  function IsWeeklyOf(column: Option<int>, property: Option<bool>): (weekly: bool)
    ensures column == None && property == None ==> !weekly
    ensures column == Some(1) ==> weekly
    ensures column == Some(0) ==> (weekly <==> property == Some(true))
  {
    (column.Some? && column.value != 0) || property == Some(true)
  }

  /** `is_active` if present, else `isActive` if present, else true. */
  function IsActiveOf(column: Option<int>, property: Option<bool>): (active: bool)
    ensures column == None && property == None ==> active
    ensures column.Some? ==> (active <==> column.value != 0)
    ensures column == None && property.Some? ==> active == property.value
  {
    match column
    case Some(c) => c != 0
    case None => property.GetOr(true)
  }

  /**
   * A text field of a row read back through `new Schedule(row)`, as a
   * template prints it: `data.schedule_name || data.scheduleName` (and the
   * same for `teacher_code`) finds an empty column falsy and the camel-case
   * property absent, so the field is `undefined`, and a template literal
   * prints that word.
   */
  function ShownText(column: string): (shown: string)
    ensures shown != []
    ensures column != [] ==> shown == column
    ensures column == [] ==> shown == "undefined"
  {
    if column == [] then "undefined" else column
  }

  /** Every text the template prints reads back as itself: the fallback applies once. */
  lemma ShownTextStable(column: string)
    ensures ShownText(ShownText(column)) == ShownText(column)
    ensures ShownText(column) == column <==> column != []
  {
  }

  // ---------------------------------------------------------------------
  // Consistency of the two tables

  /** How long before its deadline a reminder fires. */
  const LeadMinutes: int := 15

  /**
   * Both tables only grow (deletion is by flag), ids are AUTOINCREMENT, and
   * every insert into `schedules` is followed by the insert of its reminder.
   * So row i of both tables has id i + 1, reminder i belongs to schedule i,
   * and it fires 15 minutes before that schedule's deadline.
   */
  predicate Consistent(t: Tables) {
    && |t.reminders| == |t.schedules|
    && (forall i :: 0 <= i < |t.schedules| ==> t.schedules[i].id == i + 1)
    && (forall i :: 0 <= i < |t.reminders| ==>
          t.reminders[i].id == i + 1
          && t.reminders[i].scheduleId == i + 1
          && t.reminders[i].at == t.schedules[i].dateTime - LeadMinutes)
  }

  // ---------------------------------------------------------------------
  // create and createReminder

  /** The row `create` inserts: the weekday of the UTC date, active. */
  function NewRow(id: nat, d: NewSchedule): Row {
    Row(id, d.chatId, d.userPhone, d.name, d.teacherCode, d.room, d.dateTime,
        WeekdayName(Weekday(d.dateTime / 1440)), d.isWeekly, true)
  }

  /** `create` on the table contents: one schedule row, then its reminder. */
  function CreateT(t: Tables, d: NewSchedule): Tables {
    var id := |t.schedules| + 1;
    Tables(t.schedules + [NewRow(id, d)],
           t.reminders + [Reminder(|t.reminders| + 1, id, d.dateTime - LeadMinutes, false)])
  }

  /** `create` keeps the two tables consistent. */
  lemma CreateConsistent(t: Tables, d: NewSchedule)
    requires Consistent(t)
    ensures Consistent(CreateT(t, d))
  {
    var t' := CreateT(t, d);
    assert forall i :: 0 <= i < |t.schedules| ==> t'.schedules[i] == t.schedules[i];
    assert forall i :: 0 <= i < |t.reminders| ==> t'.reminders[i] == t.reminders[i];
  }

  /**
   * `create` adds exactly one active schedule with the given fields and the
   * weekday of its UTC date, and exactly one unsent reminder for that id 15
   * minutes earlier; old rows are untouched and `findById` finds the new one.
   */
  lemma CreateAddsOne(t: Tables, d: NewSchedule)
    requires Consistent(t)
    ensures var t' := CreateT(t, d); var id := |t.schedules| + 1;
      && Consistent(t')
      && |t'.schedules| == |t.schedules| + 1 && t'.schedules[..|t.schedules|] == t.schedules
      && |t'.reminders| == |t.reminders| + 1 && t'.reminders[..|t.reminders|] == t.reminders
      && var s := t'.schedules[|t.schedules|];
      && s.id == id && s.chatId == d.chatId && s.userPhone == d.userPhone && s.name == d.name
      && s.teacherCode == d.teacherCode && s.room == d.room && s.dateTime == d.dateTime
      && s.isWeekly == d.isWeekly && s.isActive
      && s.dayOfWeek == WeekdayName(Weekday(d.dateTime / 1440))
      && t'.reminders[|t.reminders|] == Reminder(id, id, d.dateTime - 15, false)
      && FindById(t'.schedules, id) == Some(s)
  {
    var t' := CreateT(t, d);
    CreateConsistent(t, d);
    FindByIdConsistent(t'.schedules, |t.schedules| + 1);
  }

  // ---------------------------------------------------------------------
  // The finders

  /** `findById`: the row with that id, or none. */
  function FindById(rows: seq<Row>, id: nat): (r: Option<Row>)
    ensures r.None? <==> forall k :: 0 <= k < |rows| ==> rows[k].id != id
    ensures r.Some? ==> r.value in rows && r.value.id == id
  {
    if rows == [] then None
    else if rows[0].id == id then Some(rows[0])
    else
      var r := FindById(rows[1..], id);
      assert forall k :: 1 <= k < |rows| ==> rows[k] == rows[1..][k - 1];
      r
  }

  /** In consistent tables the row with id k is row k - 1. */
  lemma FindByIdConsistent(rows: seq<Row>, id: nat)
    requires forall i :: 0 <= i < |rows| ==> rows[i].id == i + 1
    ensures FindById(rows, id) == if 1 <= id <= |rows| then Some(rows[id - 1]) else None
  {
    FindByIdShifted(rows, id, 1);
  }

  lemma {:induction false} FindByIdShifted(rows: seq<Row>, id: nat, base: nat)
    requires forall i :: 0 <= i < |rows| ==> rows[i].id == i + base
    ensures FindById(rows, id) == if base <= id < base + |rows| then Some(rows[id - base]) else None
    decreases |rows|
  {
    if rows != [] && rows[0].id != id {
      FindByIdShifted(rows[1..], id, base + 1);
      if base + 1 <= id < base + |rows| {
        assert rows[1..][id - (base + 1)] == rows[id - base];
      }
    }
  }

  predicate Listed(r: Row, chatId: string) {
    r.chatId == chatId && r.isActive
  }

  /** The rows of `WHERE chat_id = ? AND is_active = 1`, in table order. */
  function ActiveOf(rows: seq<Row>, chatId: string): (r: seq<Row>)
    ensures forall x :: x in r <==> x in rows && Listed(x, chatId)
  {
    if rows == [] then []
    else
      assert forall x :: x in rows <==> x == rows[0] || x in rows[1..];
      (if Listed(rows[0], chatId) then [rows[0]] else []) + ActiveOf(rows[1..], chatId)
  }

  function RowTime(r: Row): int {
    r.dateTime
  }

  /**
   * `findByUser`: exactly the active schedules of the chat, each once, in
   * ascending deadline order (rows with equal deadlines in table order; SQLite
   * does not promise an order among them).
   */
  function FindByUser(rows: seq<Row>, chatId: string): (r: seq<Row>)
    ensures forall x :: x in r <==> x in rows && x.chatId == chatId && x.isActive
    ensures multiset(r) == multiset(ActiveOf(rows, chatId))
    ensures forall i, j :: 0 <= i < j < |r| ==> r[i].dateTime <= r[j].dateTime
  {
    var active := ActiveOf(rows, chatId);
    var r := SortBy(active, RowTime);
    assert forall x :: x in r <==> x in active by {
      forall x ensures x in r <==> x in active {
        SortByMembers(active, RowTime, x);
      }
    }
    assert forall i, j :: 0 <= i < j < |r| ==> RowTime(r[i]) <= RowTime(r[j]);
    r
  }

  predicate Named(r: Row, name: string, chatId: string) {
    r.name == name && r.chatId == chatId && r.isActive
  }

  function FirstNamed(rows: seq<Row>, name: string, chatId: string): (k: nat)
    ensures k <= |rows|
    ensures k < |rows| ==> Named(rows[k], name, chatId)
    ensures forall j :: 0 <= j < k ==> !Named(rows[j], name, chatId)
  {
    if rows == [] then 0
    else if Named(rows[0], name, chatId) then 0
    else
      var k := FirstNamed(rows[1..], name, chatId);
      assert forall j :: 1 <= j < 1 + k ==> rows[j] == rows[1..][j - 1];
      1 + k
  }

  /**
   * `findByName`: the first active schedule of the chat with exactly that
   * name, in table order, or none when there is none.
   */
  function FindByName(rows: seq<Row>, name: string, chatId: string): (r: Option<Row>)
    ensures r.None? <==> forall j :: 0 <= j < |rows| ==> !Named(rows[j], name, chatId)
    ensures r.Some? ==> exists k :: 0 <= k < |rows| && rows[k] == r.value && Named(rows[k], name, chatId)
                          && forall j :: 0 <= j < k ==> !Named(rows[j], name, chatId)
  {
    var k := FirstNamed(rows, name, chatId);
    if k < |rows| then Some(rows[k]) else None
  }

  // ---------------------------------------------------------------------
  // findUpcomingReminders

  /** `reminders r JOIN schedules s ON r.schedule_id = s.id`, in reminder order. */
  function Joined(reminders: seq<Reminder>, schedules: seq<Row>): seq<(Reminder, Row)> {
    if reminders == [] then []
    else
      var rest := Joined(reminders[1..], schedules);
      match FindById(schedules, reminders[0].scheduleId)
      case Some(s) => [(reminders[0], s)] + rest
      case None => rest
  }

  predicate DueAt(p: (Reminder, Row), now: Instant) {
    p.0.at <= now && !p.0.isSent && p.1.isActive
  }

  /** `WHERE r.reminder_datetime <= now AND r.is_sent = 0 AND s.is_active = 1`. */
  function DueOf(pairs: seq<(Reminder, Row)>, now: Instant): (r: seq<(Reminder, Row)>)
    ensures forall p :: p in r <==> p in pairs && DueAt(p, now)
    ensures Distinct(pairs) ==> Distinct(r)
  {
    if pairs == [] then []
    else
      var rest := DueOf(pairs[1..], now);
      assert forall p :: p in pairs <==> p == pairs[0] || p in pairs[1..];
      var r := (if DueAt(pairs[0], now) then [pairs[0]] else []) + rest;
      assert Distinct(pairs) ==> Distinct(r) by {
        if Distinct(pairs) {
          assert Distinct(pairs[1..]);
          assert pairs[0] !in pairs[1..];
        }
      }
      r
  }

  function PairTime(p: (Reminder, Row)): int {
    p.0.at
  }

  /** The due (reminder, schedule) rows ordered by `reminder_datetime`. */
  function DuePairs(t: Tables, now: Instant): seq<(Reminder, Row)> {
    SortBy(DueOf(Joined(t.reminders, t.schedules), now), PairTime)
  }

  /** `findUpcomingReminders`, with `reminderId` taken from the joined row's `id` as the driver delivers it. */
  function FindUpcomingReminders(t: Tables, now: Instant): seq<Due> {
    var pairs := DuePairs(t, now);
    seq(|pairs|, k requires 0 <= k < |pairs| => Due(pairs[k].1.id, pairs[k].1))
  }

  /** In consistent tables the join pairs reminder i with schedule i. */
  lemma JoinedConsistent(t: Tables)
    requires Consistent(t)
    ensures var j := Joined(t.reminders, t.schedules);
      |j| == |t.reminders| && forall i :: 0 <= i < |j| ==> j[i] == (t.reminders[i], t.schedules[i])
  {
    JoinedAll(t.reminders, t.schedules);
  }

  lemma {:induction false} JoinedAll(rs: seq<Reminder>, schedules: seq<Row>)
    requires forall i :: 0 <= i < |schedules| ==> schedules[i].id == i + 1
    requires forall i :: 0 <= i < |rs| ==> 1 <= rs[i].scheduleId <= |schedules|
    ensures var j := Joined(rs, schedules);
      |j| == |rs| && forall i :: 0 <= i < |j| ==> j[i] == (rs[i], schedules[rs[i].scheduleId - 1])
  {
    if rs != [] {
      JoinedAll(rs[1..], schedules);
      FindByIdConsistent(schedules, rs[0].scheduleId);
      var rest := Joined(rs[1..], schedules);
      var j := Joined(rs, schedules);
      assert j == [(rs[0], schedules[rs[0].scheduleId - 1])] + rest;
      forall i | 0 <= i < |j| ensures j[i] == (rs[i], schedules[rs[i].scheduleId - 1]) {
        if i > 0 {
          assert j[i] == rest[i - 1];
          assert rs[1..][i - 1] == rs[i];
        }
      }
    }
  }

  predicate ReminderDue(t: Tables, i: nat, now: Instant)
    requires Consistent(t) && i < |t.reminders|
  {
    t.reminders[i].at <= now && !t.reminders[i].isSent && t.schedules[i].isActive
  }

  /** No due pair is listed twice, and they come in reminder-time order. */
  lemma DuePairsDistinct(t: Tables, now: Instant)
    requires Consistent(t)
    ensures Distinct(DuePairs(t, now)) && SortedBy(DuePairs(t, now), PairTime)
  {
    var joined := Joined(t.reminders, t.schedules);
    JoinedConsistent(t);
    assert Distinct(joined) by {
      forall i, j | 0 <= i < j < |joined| ensures joined[i] != joined[j] {
        assert joined[i].0.id == i + 1 && joined[j].0.id == j + 1;
      }
    }
    SortByDistinct(DueOf(joined, now), PairTime);
  }

  /** The due pairs of consistent tables: reminder i with schedule i for each due i, each once, by reminder time. */
  lemma DuePairsConsistent(t: Tables, now: Instant)
    requires Consistent(t)
    ensures var pairs := DuePairs(t, now);
      && Distinct(pairs)
      && SortedBy(pairs, PairTime)
      && (forall p :: p in pairs ==>
            (1 <= p.0.id <= |t.reminders|
             && p == (t.reminders[p.0.id - 1], t.schedules[p.0.id - 1]) && ReminderDue(t, p.0.id - 1, now)))
      && (forall i :: 0 <= i < |t.reminders| && ReminderDue(t, i, now) ==> (t.reminders[i], t.schedules[i]) in pairs)
  {
    var joined := Joined(t.reminders, t.schedules);
    JoinedConsistent(t);
    DuePairsDistinct(t, now);
    var filtered := DueOf(joined, now);
    var pairs := DuePairs(t, now);
    forall p | p in pairs
      ensures 1 <= p.0.id <= |t.reminders|
      ensures p == (t.reminders[p.0.id - 1], t.schedules[p.0.id - 1]) && ReminderDue(t, p.0.id - 1, now)
    {
      SortByMembers(filtered, PairTime, p);
      var i :| 0 <= i < |joined| && joined[i] == p;
    }
    forall i | 0 <= i < |t.reminders| && ReminderDue(t, i, now) ensures (t.reminders[i], t.schedules[i]) in pairs {
      assert joined[i] in joined;
      SortByMembers(filtered, PairTime, joined[i]);
    }
  }

  lemma UpcomingAt(t: Tables, now: Instant, k: nat)
    requires Consistent(t) && k < |FindUpcomingReminders(t, now)|
    ensures var d := FindUpcomingReminders(t, now)[k]; var pairs := DuePairs(t, now);
      && |pairs| == |FindUpcomingReminders(t, now)|
      && 1 <= d.reminderId <= |t.reminders|
      && pairs[k] == (t.reminders[d.reminderId - 1], t.schedules[d.reminderId - 1])
      && t.reminders[d.reminderId - 1].id == d.reminderId
      && t.schedules[d.reminderId - 1] == d.schedule
      && ReminderDue(t, d.reminderId - 1, now)
  {
    var pairs := DuePairs(t, now);
    DuePairsConsistent(t, now);
    assert pairs[k] in pairs;
  }

  lemma DuePairComplete(t: Tables, now: Instant, i: nat)
    requires Consistent(t) && i < |t.reminders| && ReminderDue(t, i, now)
    ensures (t.reminders[i], t.schedules[i]) in DuePairs(t, now)
  {
    DuePairsConsistent(t, now);
  }

  lemma UpcomingComplete(t: Tables, now: Instant, i: nat)
    requires Consistent(t) && i < |t.reminders| && ReminderDue(t, i, now)
    ensures Due(i + 1, t.schedules[i]) in FindUpcomingReminders(t, now)
  {
    var due := FindUpcomingReminders(t, now);
    var pairs := DuePairs(t, now);
    DuePairComplete(t, now, i);
    var k :| 0 <= k < |pairs| && pairs[k] == (t.reminders[i], t.schedules[i]);
    assert due[k] == Due(pairs[k].1.id, pairs[k].1);
  }

  lemma UpcomingMembers(t: Tables, now: Instant, d: Due)
    requires Consistent(t)
    ensures d in FindUpcomingReminders(t, now) <==>
            exists i :: 0 <= i < |t.reminders| && ReminderDue(t, i, now) && d == Due(i + 1, t.schedules[i])
  {
    var due := FindUpcomingReminders(t, now);
    if d in due {
      var k :| 0 <= k < |due| && due[k] == d;
      UpcomingAt(t, now, k);
      var i := d.reminderId - 1;
      assert ReminderDue(t, i, now) && d == Due(i + 1, t.schedules[i]);
    }
    if i :| 0 <= i < |t.reminders| && ReminderDue(t, i, now) && d == Due(i + 1, t.schedules[i]) {
      UpcomingComplete(t, now, i);
    }
  }

  lemma UpcomingOrder(t: Tables, now: Instant, j: nat, k: nat)
    requires Consistent(t) && j < k < |FindUpcomingReminders(t, now)|
    ensures var due := FindUpcomingReminders(t, now);
      due[j].schedule.dateTime <= due[k].schedule.dateTime && due[j].reminderId != due[k].reminderId
  {
    var pairs := DuePairs(t, now);
    UpcomingAt(t, now, j);
    UpcomingAt(t, now, k);
    DuePairsDistinct(t, now);
    assert PairTime(pairs[j]) <= PairTime(pairs[k]);
    assert pairs[j] != pairs[k];
  }

  /**
   * `findUpcomingReminders` on consistent tables: exactly the reminders that
   * are due by `now`, unsent and of an active schedule, each once and in
   * ascending `reminder_datetime` order. The reported `reminderId` is the
   * schedule's id, and it equals the id of the reminder that is due, because
   * reminder i and schedule i share id i + 1.
   */
  lemma UpcomingReminders(t: Tables, now: Instant)
    requires Consistent(t)
    ensures var due := FindUpcomingReminders(t, now);
      && (forall d :: d in due <==>
            exists i :: 0 <= i < |t.reminders| && ReminderDue(t, i, now) && d == Due(i + 1, t.schedules[i]))
      && (forall j, k :: 0 <= j < k < |due| ==> due[j].schedule.dateTime <= due[k].schedule.dateTime)
      && (forall j, k :: 0 <= j < k < |due| ==> due[j].reminderId != due[k].reminderId)
      && (forall k :: 0 <= k < |due| ==>
            (1 <= due[k].reminderId <= |t.reminders|
             && t.reminders[due[k].reminderId - 1].id == due[k].reminderId
             && t.schedules[due[k].reminderId - 1] == due[k].schedule
             && ReminderDue(t, due[k].reminderId - 1, now)))
  {
    var due := FindUpcomingReminders(t, now);
    forall k | 0 <= k < |due|
      ensures 1 <= due[k].reminderId <= |t.reminders|
      ensures t.reminders[due[k].reminderId - 1].id == due[k].reminderId
      ensures t.schedules[due[k].reminderId - 1] == due[k].schedule
      ensures ReminderDue(t, due[k].reminderId - 1, now)
    {
      UpcomingAt(t, now, k);
    }
    forall d ensures d in due <==> exists i :: 0 <= i < |t.reminders| && ReminderDue(t, i, now) && d == Due(i + 1, t.schedules[i]) {
      UpcomingMembers(t, now, d);
    }
    forall j, k | 0 <= j < k < |due|
      ensures due[j].schedule.dateTime <= due[k].schedule.dateTime && due[j].reminderId != due[k].reminderId
    {
      UpcomingOrder(t, now, j, k);
    }
  }

  // ---------------------------------------------------------------------
  // delete and markReminderSent

  predicate Matches(r: Row, id: nat, chatId: string) {
    r.id == id && r.chatId == chatId
  }

  /**
   * `delete(id, chatId)`: `UPDATE schedules SET is_active = 0 WHERE id = ? AND
   * chat_id = ?`, reporting whether a row matched. There is no `is_active`
   * condition, so deleting an already deleted task still reports success.
   */
  function DeleteT(t: Tables, id: nat, chatId: string): (bool, Tables) {
    var rows := t.schedules;
    (exists k :: 0 <= k < |rows| && Matches(rows[k], id, chatId),
     Tables(seq(|rows|, k requires 0 <= k < |rows| =>
              if Matches(rows[k], id, chatId) then rows[k].(isActive := false) else rows[k]),
            t.reminders))
  }

  /**
   * Delete succeeds exactly when the chat owns a row with that id, whatever its
   * active flag; only that row changes, and afterwards it is listed nowhere.
   */
  lemma DeleteSpec(t: Tables, id: nat, chatId: string)
    requires Consistent(t)
    ensures var (ok, t') := DeleteT(t, id, chatId);
      && Consistent(t')
      && (ok <==> 1 <= id <= |t.schedules| && t.schedules[id - 1].chatId == chatId)
      && t'.reminders == t.reminders && |t'.schedules| == |t.schedules|
      && (forall k :: 0 <= k < |t.schedules| && k != id - 1 ==> t'.schedules[k] == t.schedules[k])
      && (ok ==> t'.schedules[id - 1] == t.schedules[id - 1].(isActive := false))
      && (!ok ==> t' == t)
      && (ok ==> (t.schedules[id - 1] !in FindByUser(t'.schedules, chatId)
                 && t'.schedules[id - 1] !in FindByUser(t'.schedules, chatId)))
  {
    var (ok, t') := DeleteT(t, id, chatId);
    if ok {
      var k :| 0 <= k < |t.schedules| && Matches(t.schedules[k], id, chatId);
      assert k == id - 1;
      if t.schedules[id - 1] in t'.schedules {
        var j :| 0 <= j < |t'.schedules| && t'.schedules[j] == t.schedules[id - 1];
        assert t'.schedules[j].id == j + 1;
      }
    } else {
      assert t'.schedules == t.schedules;
    }
  }

  /** `markReminderSent(id)`: `UPDATE reminders SET is_sent = 1 WHERE id = ?`. */
  function MarkSentT(t: Tables, reminderId: nat): Tables {
    var rs := t.reminders;
    Tables(t.schedules,
           seq(|rs|, k requires 0 <= k < |rs| => if rs[k].id == reminderId then rs[k].(isSent := true) else rs[k]))
  }

  /** In consistent tables, marking touches the reminder at position `reminderId - 1` only. */
  lemma MarkSentRows(t: Tables, reminderId: nat)
    requires Consistent(t)
    ensures var t' := MarkSentT(t, reminderId);
      && Consistent(t')
      && t'.schedules == t.schedules && |t'.reminders| == |t.reminders|
      && forall k :: 0 <= k < |t.reminders| ==>
           t'.reminders[k] == if k + 1 == reminderId then t.reminders[k].(isSent := true) else t.reminders[k]
  {
  }

  /**
   * Marking sets the flag of that reminder only and nothing else, is
   * idempotent, and afterwards the reminder is no longer among the upcoming
   * ones, at any time.
   */
  lemma MarkSentSpec(t: Tables, reminderId: nat, now: Instant)
    requires Consistent(t)
    ensures var t' := MarkSentT(t, reminderId);
      && Consistent(t')
      && t'.schedules == t.schedules && |t'.reminders| == |t.reminders|
      && (forall k :: 0 <= k < |t.reminders| && t.reminders[k].id != reminderId ==> t'.reminders[k] == t.reminders[k])
      && (forall k :: 0 <= k < |t.reminders| && t.reminders[k].id == reminderId ==> t'.reminders[k] == t.reminders[k].(isSent := true))
      && MarkSentT(t', reminderId) == t'
      && (forall d :: d in FindUpcomingReminders(t', now) ==> d.reminderId != reminderId)
  {
    var t' := MarkSentT(t, reminderId);
    UpcomingReminders(t', now);
    assert MarkSentT(t', reminderId).reminders == t'.reminders;
  }

  // ---------------------------------------------------------------------
  // The tables as the bot holds them

  class ScheduleStore {
    var schedules: seq<Row>
    var reminders: seq<Reminder>

    function Contents(): Tables
      reads this
    {
      Tables(schedules, reminders)
    }

    predicate Valid()
      reads this
    {
      Consistent(Contents())
    }

    constructor ()
      ensures Contents() == Tables([], []) && Valid()
    {
      schedules := [];
      reminders := [];
    }

    /** `create`: insert the schedule, read it back with `findById`, add its reminder. */
    method Create(data: NewSchedule) returns (created: Option<Row>)
      requires Valid()
      modifies this
      ensures Valid()
      ensures Contents() == CreateT(old(Contents()), data)
      ensures created == Some(NewRow(|old(schedules)| + 1, data))
    {
      ghost var t0 := Contents();
      CreateConsistent(t0, data);
      var dayOfWeek := WeekdayName(Weekday(data.dateTime / 1440));
      var insertId := |schedules| + 1;
      var row := Row(insertId, data.chatId, data.userPhone, data.name, data.teacherCode,
                     data.room, data.dateTime, dayOfWeek, data.isWeekly, true);
      assert row == NewRow(insertId, data);
      schedules := schedules + [row];
      assert schedules == CreateT(t0, data).schedules;
      FindByIdConsistent(schedules, insertId);
      created := FindById(schedules, insertId);
      CreateReminder(insertId, data.dateTime);
      assert Contents() == CreateT(t0, data);
    }

    /** `createReminder`: one unsent reminder 15 minutes before the deadline. */
    method CreateReminder(scheduleId: nat, dateTime: Instant)
      modifies this
      ensures schedules == old(schedules)
      ensures reminders == old(reminders) + [Reminder(|old(reminders)| + 1, scheduleId, dateTime - LeadMinutes, false)]
    {
      var reminderTime := dateTime - LeadMinutes;
      reminders := reminders + [Reminder(|reminders| + 1, scheduleId, reminderTime, false)];
    }

    method Delete(id: nat, chatId: string) returns (deleted: bool)
      requires Valid()
      modifies this
      ensures Valid()
      ensures (deleted, Contents()) == DeleteT(old(Contents()), id, chatId)
    {
      DeleteSpec(Contents(), id, chatId);
      var rows := schedules;
      deleted := exists k :: 0 <= k < |rows| && Matches(rows[k], id, chatId);
      schedules := seq(|rows|, k requires 0 <= k < |rows| =>
                     if Matches(rows[k], id, chatId) then rows[k].(isActive := false) else rows[k]);
    }

    method MarkReminderSent(reminderId: nat)
      requires Valid()
      modifies this
      ensures Valid()
      ensures Contents() == MarkSentT(old(Contents()), reminderId)
    {
      MarkSentSpec(Contents(), reminderId, 0);
      var rs := reminders;
      reminders := seq(|rs|, k requires 0 <= k < |rs| =>
                     if rs[k].id == reminderId then rs[k].(isSent := true) else rs[k]);
    }
  }
}
