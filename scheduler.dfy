/**
 * The reminder scheduler: a service that is started and stopped, and its
 * once-a-minute tick. A tick reads the due reminders, and for each of them in
 * turn formats the reminder text, hands it to the WhatsApp gateway, marks the
 * reminder sent and, for a weekly task, creates next week's copy. Every error
 * inside one reminder's processing is caught and logged, so it neither undoes
 * what already happened nor stops the remaining reminders.
 *
 * The gateway and the storage calls that can fail are inputs: `Attempt` says,
 * for the k-th due reminder of a tick, whether the zone lookups of the
 * formatting, the send, the mark and the weekly insert succeed, and which
 * relative-time phrase the clock library produced for it.
 */
module Scheduler {
  import opened Wrappers
  import opened Text
  import opened Civil
  import opened Stamps
  import opened GroupSettings
  import opened Schedule

  // ---------------------------------------------------------------------
  // start and stop

  /** `isRunning`, and whether `cronJob` holds a scheduled job. */
  datatype Switch = Switch(isRunning: bool, hasJob: bool)

  /** A service that runs has its job, and one that does not has none. */
  predicate Coherent(s: Switch) {
    s.isRunning == s.hasJob
  }

  /** `start`: a running service is left alone; otherwise the job is created and started. */
  function StartT(s: Switch): Switch {
    if s.isRunning then s else Switch(true, true)
  }

  /** `stop`: the job, if any, is stopped and dropped, and the service no longer runs. */
  function StopT(s: Switch): Switch {
    Switch(false, false)
  }

  /**
   * After `start` the service runs; `start` on a running service changes
   * nothing, so a second `start` is a no-op; `stop` always ends in the stopped
   * state, so it is idempotent too; and both keep `Coherent`.
   */
  lemma StartStop(s: Switch)
    ensures StartT(s).isRunning
    ensures s.isRunning ==> StartT(s) == s
    ensures StartT(StartT(s)) == StartT(s)
    ensures !StopT(s).isRunning && !StopT(s).hasJob
    ensures StopT(StopT(s)) == StopT(s)
    ensures Coherent(s) ==> Coherent(StartT(s)) && Coherent(StopT(s))
  {
  }

  /** The object `getStatus` returns. */
  datatype Status = Status(isRunning: bool, cronExpression: string, description: string, nextRun: string)

  const EveryMinute: string := "* * * * *"
  const EveryMinuteDescription: string := "Checks for reminders every minute"

  /**
   * `getStatus`: the fixed schedule and its description, and the next run
   * announced exactly when a job is scheduled.
   */
  function StatusOf(s: Switch): (r: Status)
    ensures r.isRunning == s.isRunning
    ensures r.cronExpression == EveryMinute && r.description == EveryMinuteDescription
    ensures r.nextRun == "Next minute" <==> s.hasJob
  {
    Status(s.isRunning, EveryMinute, EveryMinuteDescription, if s.hasJob then "Next minute" else "Not scheduled")
  }

  class SchedulerService {
    var isRunning: bool
    var hasJob: bool

    function State(): Switch
      reads this
    {
      Switch(isRunning, hasJob)
    }

    constructor ()
      ensures State() == Switch(false, false) && Coherent(State())
    {
      isRunning := false;
      hasJob := false;
    }

    method Start()
      modifies this
      ensures State() == StartT(old(State()))
    {
      if isRunning {
        return;
      }
      hasJob := true;
      isRunning := true;
    }

    method Stop()
      modifies this
      ensures State() == StopT(old(State()))
    {
      if hasJob {
        hasJob := false;
      }
      isRunning := false;
    }

    // -------------------------------------------------------------------
    // The tick

    /**
     * `checkAndSendReminders`: one pass over the due reminders, in the order
     * the scan returns them. A failed scan is caught and changes nothing.
     */
    method CheckAndSendReminders(store: ScheduleStore, settings: SettingsTable, now: Instant,
                                 scanOk: bool, attempts: seq<Attempt>)
      returns (sends: seq<(string, string)>)
      requires store.Valid()
      modifies store
      ensures store.Valid()
      ensures TickResult(store.Contents(), sends) == Tick(old(store.Contents()), settings.rows, now, scanOk, attempts)
    {
      sends := [];
      if !scanOk {
        return;
      }
      var reminders := FindUpcomingReminders(store.Contents(), now);
      if |reminders| == 0 {
        return;
      }
      sends := ProcessReminders(store, settings, reminders, attempts);
    }

    /** The `for` loop of `checkAndSendReminders`: each reminder in turn, whatever became of the previous ones. */
    method ProcessReminders(store: ScheduleStore, settings: SettingsTable, reminders: seq<Due>, attempts: seq<Attempt>)
      returns (sends: seq<(string, string)>)
      requires store.Valid()
      modifies store
      ensures store.Valid()
      ensures store.Contents() == ProcessAll(old(store.Contents()), reminders, attempts)
      ensures sends == Formatted(Notices(settings.rows, reminders, attempts), attempts)
    {
      ghost var t0 := store.Contents();
      ghost var all := Notices(settings.rows, reminders, attempts);
      sends := [];
      var i := 0;
      while i < |reminders|
        invariant 0 <= i <= |reminders|
        invariant store.Valid() && all == Notices(settings.rows, reminders, attempts)
        invariant store.Contents() == ProcessAll(t0, reminders[..i], attempts)
        invariant sends == Formatted(all[..i], attempts)
      {
        PrefixOfPrefix(reminders, i);
        var notice := ProcessReminder(store, settings, reminders[i], AttemptAt(attempts, i));
        FormattedStep(all, attempts, i);
        if notice.Some? {
          assert notice.value == all[i];
          sends := sends + [notice.value];
        }
        i := i + 1;
      }
      assert reminders[..i] == reminders && all[..i] == all;
    }

    /**
     * `processReminder`: format, send, mark, then clone a weekly task. The
     * returned chat and text are what is handed to the gateway, whatever
     * happens next, and nothing when the formatting's zone lookup fails; a
     * failed lookup, send or mark ends the processing of this reminder with
     * nothing changed.
     */
    method ProcessReminder(store: ScheduleStore, settings: SettingsTable, reminder: Due, attempt: Attempt)
      returns (notice: Option<(string, string)>)
      requires store.Valid()
      modifies store
      ensures store.Valid()
      ensures store.Contents() == ProcessT(old(store.Contents()), reminder, attempt)
      ensures notice == if attempt.formatOk then Some(Notice(settings.rows, reminder, attempt)) else None
    {
      if !attempt.formatOk {
        // getTimezone or getOffset threw inside formatReminderMessage: caught and logged
        return None;
      }
      var reminderMessage := ReminderMessage(settings.rows, reminder.schedule, attempt.phrase);
      notice := Some((reminder.schedule.chatId, reminderMessage));
      if !attempt.sendOk {
        // the gateway threw: caught and logged
        return;
      }
      if !attempt.markOk {
        // the UPDATE threw: caught and logged
        return;
      }
      store.MarkReminderSent(reminder.reminderId);
      if reminder.schedule.isWeekly {
        CreateNextWeeklyReminder(store, reminder.schedule, attempt.cloneOk);
      }
    }

    /**
     * `createNextWeeklyReminder`: insert next week's copy; a failed insert is
     * caught and changes nothing. A copy of a task with an empty text field
     * always fails: the field reads back as `undefined`, which its NOT NULL
     * column does not take.
     */
    method CreateNextWeeklyReminder(store: ScheduleStore, schedule: Row, cloneOk: bool)
      requires store.Valid()
      modifies store
      ensures store.Valid()
      ensures store.Contents() == if cloneOk && ReadsBackWhole(schedule) then CreateT(old(store.Contents()), NextWeek(schedule))
                                  else old(store.Contents())
    {
      if !cloneOk || !ReadsBackWhole(schedule) {
        return;
      }
      var nextWeekScheduleData := NextWeek(schedule);
      var _ := store.Create(nextWeekScheduleData);
    }
  }

  // ---------------------------------------------------------------------
  // The reminder text

  const Heading: string := "🔔 *Pengingat Tenggat!*\n\n📚 *"
  const SubjectLabel: string := "*\n📖 Pelajaran: "
  const TimeLabel: string := "\n📅 Waktu: "
  const DueLabel: string := "\n\n⏰ *Tenggat "

  /** The due time as the group's wall clock shows it, `DD/MM/YYYY HH:mm`. */
  function LocalTime(zones: map<string, string>, s: Row): string {
    DisplayText(LocalReading(s.dateTime, GetOffset(zones, s.chatId)))
  }

  /**
   * `formatReminderMessage`: the task name, the subject (teacher code), the
   * due time at the group's offset followed by the group's zone label, and
   * the relative phrase. Name and subject are printed as the row reads back.
   */
  function ReminderMessage(zones: map<string, string>, s: Row, phrase: string): string {
    Heading + ShownText(s.name) + SubjectLabel + ShownText(s.teacherCode) + TimeLabel + LocalTime(zones, s) + " "
    + GetTimezone(zones, s.chatId) + DueLabel + phrase + "*"
  }

  lemma InMiddle(a: string, b: string, c: string)
    ensures Contains(a + b + c, b)
  {
    assert (a + b + c)[|a|..|a| + |b|] == b;
    ContainsAt(a + b + c, b, |a|);
  }

  /** Where the four fields sit in the layout of the reminder text. */
  lemma LayoutFields(heading: string, name: string, subjectLabel: string, subject: string, timeLabel: string,
                     time: string, tz: string, tail: string)
    ensures var m := heading + name + subjectLabel + subject + timeLabel + time + " " + tz + tail;
      && Contains(m, name) && Contains(m, subject) && Contains(m, time) && Contains(m, tz)
  {
    var m := heading + name + subjectLabel + subject + timeLabel + time + " " + tz + tail;
    assert m == heading + name + (subjectLabel + subject + timeLabel + time + " " + tz + tail);
    InMiddle(heading, name, subjectLabel + subject + timeLabel + time + " " + tz + tail);
    assert m == (heading + name + subjectLabel) + subject + (timeLabel + time + " " + tz + tail);
    InMiddle(heading + name + subjectLabel, subject, timeLabel + time + " " + tz + tail);
    assert m == (heading + name + subjectLabel + subject + timeLabel) + time + (" " + tz + tail);
    InMiddle(heading + name + subjectLabel + subject + timeLabel, time, " " + tz + tail);
    InMiddle(heading + name + subjectLabel + subject + timeLabel + time + " ", tz, tail);
  }

  /**
   * The reminder names the task, its subject (each as the row reads back,
   * `undefined` when empty), the due time read on the group's clock and the
   * group's zone label; that reading, taken back by the group's offset, is
   * the due instant itself.
   */
  lemma ReminderMessageFields(zones: map<string, string>, s: Row, phrase: string)
    ensures var m := ReminderMessage(zones, s, phrase);
      && Contains(m, ShownText(s.name))
      && Contains(m, ShownText(s.teacherCode))
      && Contains(m, LocalTime(zones, s))
      && Contains(m, GetTimezone(zones, s.chatId))
    ensures var offset := GetOffset(zones, s.chatId);
      ToInstant(LocalReading(s.dateTime, offset)) == s.dateTime + offset
  {
    var tail := DueLabel + phrase + "*";
    LayoutFields(Heading, ShownText(s.name), SubjectLabel, ShownText(s.teacherCode), TimeLabel, LocalTime(zones, s),
                 GetTimezone(zones, s.chatId), tail);
    assert ReminderMessage(zones, s, phrase)
        == Heading + ShownText(s.name) + SubjectLabel + ShownText(s.teacherCode) + TimeLabel + LocalTime(zones, s) + " "
           + GetTimezone(zones, s.chatId) + tail;
    ToFromInstant(s.dateTime + GetOffset(zones, s.chatId));
  }

  // ---------------------------------------------------------------------
  // One reminder, and the whole tick, on the table contents

  /**
   * What happens to the k-th due reminder of a tick: whether the zone
   * lookups that format its text succeed, whether the gateway accepts the
   * message, whether marking it sent succeeds, whether the weekly insert
   * succeeds, and the relative phrase of its text.
   */
  datatype Attempt = Attempt(phrase: string, formatOk: bool, sendOk: bool, markOk: bool, cloneOk: bool)

  /** The attempt of the k-th due reminder; past the end of `attempts` everything succeeds. */
  function AttemptAt(attempts: seq<Attempt>, k: nat): Attempt {
    if k < |attempts| then attempts[k] else Attempt("", true, true, true, true)
  }

  /** The reminder was formatted, sent and then marked sent. */
  predicate Completes(a: Attempt) {
    a.formatOk && a.sendOk && a.markOk
  }

  /**
   * Every NOT NULL text column the weekly copy takes from the task is
   * non-empty, so none of them reads back as `undefined`.
   */
  predicate ReadsBackWhole(s: Row) {
    s.chatId != [] && s.userPhone != [] && s.name != [] && s.teacherCode != []
  }

  /** The weekly copy is inserted: the task is weekly, the insert does not fail, and the copy can be stored. */
  predicate Clones(d: Due, a: Attempt) {
    d.schedule.isWeekly && a.cloneOk && ReadsBackWhole(d.schedule)
  }

  /** The `nextWeekScheduleData` of a weekly task: the same task one week later, weekly. */
  function NextWeek(s: Row): NewSchedule {
    NewSchedule(s.chatId, s.userPhone, s.name, s.teacherCode, s.room, s.dateTime + MinutesPerWeek, true)
  }

  /** `processReminder` on the tables. */
  function ProcessT(t: Tables, d: Due, a: Attempt): Tables {
    if !Completes(a) then t
    else
      var marked := MarkSentT(t, d.reminderId);
      if Clones(d, a) then CreateT(marked, NextWeek(d.schedule)) else marked
  }

  /** The due reminders processed one after another, the k-th with attempt k. */
  function ProcessAll(t: Tables, due: seq<Due>, attempts: seq<Attempt>): Tables
    decreases |due|
  {
    if due == [] then t
    else
      var n := |due| - 1;
      ProcessT(ProcessAll(t, due[..n], attempts), due[n], AttemptAt(attempts, n))
  }

  /** The (chat, text) pair `processReminder` formats for one due reminder. */
  function Notice(zones: map<string, string>, d: Due, a: Attempt): (string, string) {
    (d.schedule.chatId, ReminderMessage(zones, d.schedule, a.phrase))
  }

  /** The pairs formatted for the due reminders, one per reminder, in the order of the scan. */
  function Notices(zones: map<string, string>, due: seq<Due>, attempts: seq<Attempt>): (notices: seq<(string, string)>)
    ensures |notices| == |due|
  {
    seq(|due|, k requires 0 <= k < |due| => Notice(zones, due[k], AttemptAt(attempts, k)))
  }

  /**
   * The elements of `xs` whose attempt formatted its text, in their order:
   * of the notices, those that reach the gateway.
   */
  function Formatted<T>(xs: seq<T>, attempts: seq<Attempt>): seq<T>
    decreases |xs|
  {
    if xs == [] then []
    else
      var n := |xs| - 1;
      Formatted(xs[..n], attempts) + (if AttemptAt(attempts, n).formatOk then [xs[n]] else [])
  }

  /** The positions below n whose attempt formatted its text, in increasing order. */
  function FormattedAt(n: nat, attempts: seq<Attempt>): seq<nat> {
    if n == 0 then [] else FormattedAt(n - 1, attempts) + (if AttemptAt(attempts, n - 1).formatOk then [n - 1] else [])
  }

  /** Every one of the first n attempts formats its text. */
  predicate AllFormatted(n: nat, attempts: seq<Attempt>) {
    forall k: nat :: k < n ==> AttemptAt(attempts, k).formatOk
  }

  lemma FormattedStep<T>(xs: seq<T>, attempts: seq<Attempt>, i: nat)
    requires i < |xs|
    ensures Formatted(xs[..i + 1], attempts)
         == Formatted(xs[..i], attempts) + (if AttemptAt(attempts, i).formatOk then [xs[i]] else [])
  {
    PrefixOfPrefix(xs, i);
  }

  /**
   * The positions of the formatted attempts are increasing, each is a
   * formatted one, and none is missing.
   */
  lemma {:induction false} FormattedAtSpec(n: nat, attempts: seq<Attempt>)
    ensures var ks := FormattedAt(n, attempts);
      && (forall j :: 0 <= j < |ks| ==> ks[j] < n && AttemptAt(attempts, ks[j]).formatOk)
      && (forall i, j :: 0 <= i < j < |ks| ==> ks[i] < ks[j])
      && (forall k :: 0 <= k < n && AttemptAt(attempts, k).formatOk ==> k in ks)
  {
    if n > 0 {
      FormattedAtSpec(n - 1, attempts);
    }
  }

  /** `Formatted` picks, in order, exactly the elements at the formatted positions. */
  lemma {:induction false} FormattedPicks<T>(xs: seq<T>, attempts: seq<Attempt>)
    ensures var ks := FormattedAt(|xs|, attempts); var r := Formatted(xs, attempts);
      && |r| == |ks|
      && forall j :: 0 <= j < |ks| ==> ks[j] < |xs| && r[j] == xs[ks[j]]
  {
    if xs != [] {
      var n := |xs| - 1;
      FormattedPicks(xs[..n], attempts);
      FormattedAtSpec(n, attempts);
    }
  }

  /** When every attempt formats its text, every element is kept. */
  lemma {:induction false} FormattedAll<T>(xs: seq<T>, attempts: seq<Attempt>)
    requires AllFormatted(|xs|, attempts)
    ensures Formatted(xs, attempts) == xs
  {
    if xs != [] {
      var n := |xs| - 1;
      FormattedAll(xs[..n], attempts);
      assert xs == xs[..n] + [xs[n]];
    }
  }

  /** Taking one more element of a sequence appends that element. */
  lemma TakeOneMore<T>(s: seq<T>, i: nat)
    requires i < |s|
    ensures s[..i + 1] == s[..i] + [s[i]]
  {
  }

  /** The first i elements of the first i + 1 are the first i. */
  lemma PrefixOfPrefix<T>(s: seq<T>, i: nat)
    requires i < |s|
    ensures s[..i + 1][..i] == s[..i]
  {
  }

  datatype TickResult = TickResult(tables: Tables, sends: seq<(string, string)>)

  /** `checkAndSendReminders` on the tables. */
  function Tick(t: Tables, zones: map<string, string>, now: Instant, scanOk: bool, attempts: seq<Attempt>): TickResult {
    if !scanOk then TickResult(t, [])
    else
      var due := FindUpcomingReminders(t, now);
      TickResult(ProcessAll(t, due, attempts), Formatted(Notices(zones, due, attempts), attempts))
  }

  // ---------------------------------------------------------------------
  // Properties of one reminder

  /**
   * Processing one reminder keeps the tables consistent and never changes an
   * existing task. A reminder whose formatting, send or mark fails changes
   * nothing at all, so no weekly copy is made. Otherwise exactly the reminder
   * with that id is marked sent, and only a weekly task whose insert succeeds
   * gains a copy.
   */
  lemma ProcessSpec(t: Tables, d: Due, a: Attempt)
    requires Consistent(t)
    ensures var t' := ProcessT(t, d, a);
      && Consistent(t')
      && |t.schedules| <= |t'.schedules| && t'.schedules[..|t.schedules|] == t.schedules
      && (!Completes(a) ==> t' == t)
      && (Completes(a) ==> forall i :: 0 <= i < |t.reminders| ==>
            t'.reminders[i] == if i + 1 == d.reminderId then t.reminders[i].(isSent := true) else t.reminders[i])
      && |t'.schedules| == |t.schedules| + (if Completes(a) && Clones(d, a) then 1 else 0)
  {
    if Completes(a) {
      var marked := MarkSentT(t, d.reminderId);
      MarkSentRows(t, d.reminderId);
      if Clones(d, a) {
        CreateAddsOne(marked, NextWeek(d.schedule));
      }
    }
  }

  /**
   * After the send and the mark of a weekly task succeed and the insert
   * succeeds, there is exactly one new task: same chat, phone, name, subject
   * and room, weekly, active, due one week later on the same weekday, with an
   * unsent reminder 15 minutes before that. The original task is unchanged
   * and stays active.
   */
  lemma WeeklyClone(t: Tables, d: Due, a: Attempt)
    requires Consistent(t) && Completes(a) && Clones(d, a)
    ensures var t' := ProcessT(t, d, a); var n := |t.schedules|;
      && |t'.schedules| == n + 1 && t'.schedules[..n] == t.schedules
      && WeekLaterCopy(t'.schedules[n], d.schedule, n + 1)
      && |t'.reminders| == n + 1
      && t'.reminders[n] == Reminder(n + 1, n + 1, d.schedule.dateTime + MinutesPerWeek - LeadMinutes, false)
  {
    var marked := MarkSentT(t, d.reminderId);
    MarkSentRows(t, d.reminderId);
    NextWeekCopy(marked, d.schedule);
  }

  /** Row c, with id `id`, is the active weekly copy of s one week later, on the same weekday. */
  predicate WeekLaterCopy(c: Row, s: Row, id: nat) {
    && c.id == id && c.chatId == s.chatId && c.userPhone == s.userPhone && c.name == s.name
    && c.teacherCode == s.teacherCode && c.room == s.room
    && c.dateTime == s.dateTime + MinutesPerWeek && c.isWeekly && c.isActive
    && c.dayOfWeek == WeekdayName(Weekday(s.dateTime / MinutesPerDay))
  }

  /** `create` of next week's data appends the week-later copy and its reminder. */
  lemma NextWeekCopy(t: Tables, s: Row)
    requires Consistent(t)
    ensures var t' := CreateT(t, NextWeek(s)); var n := |t.schedules|;
      && |t'.schedules| == n + 1 && t'.schedules[..n] == t.schedules
      && WeekLaterCopy(t'.schedules[n], s, n + 1)
      && |t'.reminders| == n + 1
      && t'.reminders[n] == Reminder(n + 1, n + 1, s.dateTime + MinutesPerWeek - LeadMinutes, false)
  {
    var t' := CreateT(t, NextWeek(s));
    AppendOne(t.schedules, t'.schedules[|t.schedules|]);
    WeekLaterSameWeekday(s.dateTime);
  }

  /** The part of `a + [x]` before x is a. */
  lemma AppendOne<T>(a: seq<T>, x: T)
    ensures (a + [x])[..|a|] == a
  {
  }

  /**
   * A weekly copy that is not inserted (the insert fails, or the task has an
   * empty text field that cannot be stored again) is swallowed: the
   * reminder stays marked sent, no task is added, and the reminder is no
   * longer due at any time.
   */
  lemma CloneFailureKeepsMark(t: Tables, d: Due, a: Attempt, later: Instant)
    requires Consistent(t) && Completes(a) && !Clones(d, a) && 1 <= d.reminderId <= |t.reminders|
    ensures var t' := ProcessT(t, d, a);
      && t'.schedules == t.schedules && |t'.reminders| == |t.reminders|
      && t'.reminders[d.reminderId - 1].isSent
      && forall e :: e in FindUpcomingReminders(t', later) ==> e.reminderId != d.reminderId
  {
    MarkSentSpec(t, d.reminderId, later);
  }

  // ---------------------------------------------------------------------
  // Properties of the tick

  /** Some due reminder with this id was processed with a send and a mark that succeeded. */
  predicate MarkedBy(due: seq<Due>, attempts: seq<Attempt>, id: nat) {
    exists j :: 0 <= j < |due| && due[j].reminderId == id && Completes(AttemptAt(attempts, j))
  }

  lemma MarkedByLast(due: seq<Due>, attempts: seq<Attempt>, id: nat)
    requires due != []
    ensures var n := |due| - 1;
      MarkedBy(due, attempts, id) <==>
      MarkedBy(due[..n], attempts, id) || (due[n].reminderId == id && Completes(AttemptAt(attempts, n)))
  {
    var n := |due| - 1;
    if j :| 0 <= j < |due| && due[j].reminderId == id && Completes(AttemptAt(attempts, j)) {
      if j < n {
        assert due[..n][j] == due[j];
      }
    }
    if j :| 0 <= j < n && due[..n][j].reminderId == id && Completes(AttemptAt(attempts, j)) {
      assert due[j] == due[..n][j];
    }
  }

  /**
   * Processing a list of due reminders keeps the tables consistent and keeps
   * every existing task as it was; an existing reminder ends up sent exactly
   * when it was sent already or some item with its id completed, and is
   * otherwise unchanged. So a failure on one item does not keep a later item
   * from being processed.
   */
  lemma {:induction false} ProcessAllRows(t: Tables, due: seq<Due>, attempts: seq<Attempt>, i: nat)
    requires Consistent(t) && i < |t.reminders|
    ensures var t' := ProcessAll(t, due, attempts);
      && Consistent(t')
      && |t.schedules| <= |t'.schedules| && t'.schedules[..|t.schedules|] == t.schedules
      && t'.reminders[i] == t.reminders[i].(isSent := t.reminders[i].isSent || MarkedBy(due, attempts, i + 1))
    decreases |due|
  {
    if due != [] {
      var n := |due| - 1;
      var before := ProcessAll(t, due[..n], attempts);
      ProcessAllRows(t, due[..n], attempts, i);
      ProcessSpec(before, due[n], AttemptAt(attempts, n));
      MarkedByLast(due, attempts, i + 1);
      var after := ProcessAll(t, due, attempts);
      assert after.schedules[..|t.schedules|] == before.schedules[..|before.schedules|][..|t.schedules|];
    }
  }

  /** With nothing due, or when the scan fails, a tick sends nothing and changes nothing. */
  lemma TickNothingDue(t: Tables, zones: map<string, string>, now: Instant, scanOk: bool, attempts: seq<Attempt>)
    requires !scanOk || FindUpcomingReminders(t, now) == []
    ensures Tick(t, zones, now, scanOk, attempts) == TickResult(t, [])
  {
  }

  /**
   * A tick hands the gateway one message per due reminder whose text could
   * be formatted, in the order of the scan, so in order of reminder time: the
   * j-th goes to the chat of the ks[j]-th due reminder and names its task,
   * the positions ks increase, and no formatted reminder is skipped. When
   * every formatting succeeds, the k-th message is the k-th reminder's.
   */
  lemma TickSendsInOrder(t: Tables, zones: map<string, string>, now: Instant, attempts: seq<Attempt>)
    requires Consistent(t)
    ensures var due := FindUpcomingReminders(t, now); var sends := Tick(t, zones, now, true, attempts).sends;
      var ks := FormattedAt(|due|, attempts);
      && |sends| == |ks|
      && (forall j :: 0 <= j < |ks| ==>
            && ks[j] < |due| && AttemptAt(attempts, ks[j]).formatOk
            && sends[j].0 == due[ks[j]].schedule.chatId
            && Contains(sends[j].1, ShownText(due[ks[j]].schedule.name)))
      && (forall i, j :: 0 <= i < j < |ks| ==> ks[i] < ks[j])
      && (forall k :: 0 <= k < |due| && AttemptAt(attempts, k).formatOk ==> k in ks)
      && (AllFormatted(|due|, attempts) ==>
            sends == Notices(zones, due, attempts))
      && (forall j, k :: 0 <= j < k < |due| ==> due[j].schedule.dateTime <= due[k].schedule.dateTime)
  {
    var due := FindUpcomingReminders(t, now);
    var all := Notices(zones, due, attempts);
    UpcomingReminders(t, now);
    forall k | 0 <= k < |due|
      ensures all[k].0 == due[k].schedule.chatId && Contains(all[k].1, ShownText(due[k].schedule.name))
    {
      ReminderMessageFields(zones, due[k].schedule, AttemptAt(attempts, k).phrase);
    }
    FormattedNotices(due, all, attempts);
  }

  /**
   * The formatted ones of a list of notices, one per due reminder, each keep
   * the address and the task name of their reminder, in the reminders' order.
   */
  lemma FormattedNotices(due: seq<Due>, notices: seq<(string, string)>, attempts: seq<Attempt>)
    requires |notices| == |due|
    requires forall k :: 0 <= k < |due| ==>
      notices[k].0 == due[k].schedule.chatId && Contains(notices[k].1, ShownText(due[k].schedule.name))
    ensures var sends := Formatted(notices, attempts); var ks := FormattedAt(|due|, attempts);
      && |sends| == |ks|
      && (forall j :: 0 <= j < |ks| ==>
            && ks[j] < |due| && AttemptAt(attempts, ks[j]).formatOk
            && sends[j].0 == due[ks[j]].schedule.chatId
            && Contains(sends[j].1, ShownText(due[ks[j]].schedule.name)))
      && (forall i, j :: 0 <= i < j < |ks| ==> ks[i] < ks[j])
      && (forall k :: 0 <= k < |due| && AttemptAt(attempts, k).formatOk ==> k in ks)
      && (AllFormatted(|due|, attempts) ==> sends == notices)
  {
    FormattedAtSpec(|due|, attempts);
    FormattedPicks(notices, attempts);
    if AllFormatted(|due|, attempts) {
      FormattedAll(notices, attempts);
    }
  }


  /**
   * A due reminder whose send (or mark) fails stays unmarked, so it is due
   * again at the next tick, and at any later one.
   */
  lemma TickFailedSendStaysDue(t: Tables, zones: map<string, string>, now: Instant, attempts: seq<Attempt>,
                               k: nat, later: Instant)
    requires Consistent(t) && now <= later
    requires k < |FindUpcomingReminders(t, now)| && !Completes(AttemptAt(attempts, k))
    ensures FindUpcomingReminders(t, now)[k] in FindUpcomingReminders(Tick(t, zones, now, true, attempts).tables, later)
  {
    var due := FindUpcomingReminders(t, now);
    UpcomingAt(t, now, k);
    var id := due[k].reminderId;
    var i := id - 1;
    forall j | 0 <= j < |due| && j != k ensures due[j].reminderId != id {
      if j < k {
        UpcomingOrder(t, now, j, k);
      } else {
        UpcomingOrder(t, now, k, j);
      }
    }
    assert !MarkedBy(due, attempts, id);
    ProcessAllRows(t, due, attempts, i);
    var t' := ProcessAll(t, due, attempts);
    assert t'.schedules[i] == t.schedules[..|t.schedules|][i];
    UpcomingComplete(t', later, i);
  }

  /**
   * A due reminder whose send and mark succeed is marked sent after the tick,
   * whatever happened to the other reminders, and is not due again.
   */
  lemma TickMarksCompleted(t: Tables, zones: map<string, string>, now: Instant, attempts: seq<Attempt>,
                           k: nat, later: Instant)
    requires Consistent(t)
    requires k < |FindUpcomingReminders(t, now)| && Completes(AttemptAt(attempts, k))
    ensures var d := FindUpcomingReminders(t, now)[k]; var t' := Tick(t, zones, now, true, attempts).tables;
      && 1 <= d.reminderId <= |t'.reminders| && t'.reminders[d.reminderId - 1].isSent
      && d !in FindUpcomingReminders(t', later)
  {
    var due := FindUpcomingReminders(t, now);
    UpcomingAt(t, now, k);
    var id := due[k].reminderId;
    assert MarkedBy(due, attempts, id);
    ProcessAllRows(t, due, attempts, id - 1);
    SentIsNotDue(ProcessAll(t, due, attempts), later, due[k]);
  }

  /** A reminder already marked sent is not among the upcoming ones. */
  lemma SentIsNotDue(t: Tables, later: Instant, d: Due)
    requires Consistent(t) && 1 <= d.reminderId <= |t.reminders| && t.reminders[d.reminderId - 1].isSent
    ensures d !in FindUpcomingReminders(t, later)
  {
    UpcomingMembers(t, later, d);
  }
}
