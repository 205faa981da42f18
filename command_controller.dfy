/**
 * The command handlers. Each handler is given as a function on the stored
 * state (`World`: the two task tables and the settings map), which specifies
 * it, and as a method on the store objects that does what the handler does,
 * step by step, and is proved to agree with that function.
 *
 * Storage failures: `fault` is the storage error (if any) the handler
 * meets, and where (`Fault`). `start`, `commands` and `timezone-edit` let it
 * propagate (`Thrown`); the three task handlers catch it and answer with
 * their own apology.
 */
module CommandController {
  import opened Wrappers
  import opened Text
  import opened Civil
  import opened Stamps
  import opened Query
  import opened Schedule
  import opened GroupSettings

  /** Who wrote the command: the chat id (`message.from`) and the phone derived from it. */
  datatype Sender = Sender(chatId: string, phone: string)

  /**
   * The replies the handlers compose, one constructor per template of the
   * controller; `Render` gives the text each stands for.
   */
  datatype Message =
    | Welcome
    | Help(tz: string)
    | FormatError
    | TimeError(timeStr: string)
    | PastTime(local: DateTime, nowMillis: nat, offset: nat, tz: string)
    | Added(name: string, teacherCode: string, local: DateTime, tz: string)
    | AddFailed
    | NoTasks
    | Listing(rows: seq<Row>, tz: string, offset: nat)
    | ListFailed
    | EmptyName
    | NotFound(name: string)
    | Deleted(name: string, dateTime: Instant, offset: nat, tz: string)
    | DeleteFailed
    | DeleteError
    | TugasHint
    | TimezoneHint
    | TimezoneFormatError
    | TimezoneSaveFailed
    | TimezoneSet(tz: string)

  /** What a handler gives back: a reply (`null` is `None`), or an error thrown to the caller. */
  datatype Outcome = Reply(reply: Option<Message>) | Thrown(message: string)

  /** The stored state the handlers read and change. */
  datatype World = World(tables: Tables, zones: map<string, string>)

  /**
   * A storage error met while handling one command line: `message` is the
   * error's message, and `afterWrite` says where it strikes: at the
   * handler's first storage access, or at the first one after the handler's
   * write succeeded. Only `tugas-hapus` reads the store after its write (the
   * offset and zone of its reply), so a late error changes nothing in the
   * other handlers.
   */
  datatype Fault = Fault(message: string, afterWrite: bool)

  /** The message of an error that strikes the handler's first storage access, if there is one. */
  function Early(fault: Option<Fault>): (e: Option<string>)
    ensures e.Some? <==> fault.Some? && !fault.value.afterWrite
    ensures e.Some? ==> e.value == fault.value.message
  {
    if fault.Some? && !fault.value.afterWrite then Some(fault.value.message) else None
  }

  /** An error strikes after the handler's write. */
  predicate Late(fault: Option<Fault>) {
    fault.Some? && fault.value.afterWrite
  }

  // ---------------------------------------------------------------------
  // Reply texts

  /**
   * The emoji every reply text opens with: ✅ for a change made, ❌ for a
   * refusal or a failure, ❓ for an unknown command, and the topic's icon
   * for the welcome, the help and the task list.
   */
  function Mark(m: Message): char {
    if m.Welcome? then '🤖'
    else if m.Help? then '📚'
    else if m.NoTasks? || m.Listing? then '📅'
    else if m.Added? || m.Deleted? || m.TimezoneSet? then '✅'
    else if m.TugasHint? || m.TimezoneHint? then '❓'
    else '❌'
  }

  /** The text of a reply: the task list, or the mark followed by the template. */
  function Render(m: Message): string {
    if m.Listing? then ListingText(m.rows, m.tz, m.offset) else [Mark(m)] + Body(m)
  }

  /** The text after the mark, for every reply but the list. */
  function Body(m: Message): string
    requires !m.Listing?
  {
    match m
    case Welcome =>
      " *Deadline Buddy*\n\nHi! I'm your Deadline Buddy. I'll help you keep track of your tasks and deadlines so you never miss one!\n"
      + "Use `!commands` to see all the commands provide by this bot\n"
    case Help(tz) =>
      " *Daftar Perintah*\n\n"
      + "• `!tugas-tambah [nama], [pelajaran], [waktu]` — Tambah tugas baru\n"
      + "• `!tugas-hapus [nama]` — Hapus tugas berdasarkan nama\n"
      + "• `!tugas` — Tampilkan semua tugas\n"
      + "• `!timezone-edit (WIB/WITA/WIT)` — Atur zona waktu grup\n"
      + "• `!commands` — Tampilkan pesan bantuan ini\n\n"
      + "Format waktu: DD-MM-YYYY HH:mm (" + tz + ")\n"
      + "Contoh: `!tugas-tambah PR Matematika, Bab 1, 25-11-2025 10:00`\n\n"
      + "Catatan: Bot bekerja per grup secara terpisah."
    case FormatError =>
      " *Format Salah!*\n\nGunakan: `!tugas-tambah [nama], [pelajaran], [waktu]`\n\n*Contoh:*\n"
      + "`!tugas-tambah PR Matematika, Bab 1, 25-11-2025 10:00`\n\n📝 *Catatan:*\n"
      + "• Gunakan koma untuk memisahkan\n• Format waktu: DD-MM-YYYY HH:mm (24 jam)"
    case TimeError(timeStr) =>
      " *Format Waktu Salah!*\n\nGunakan format: `DD-MM-YYYY HH:mm`\n*Contoh:* `25-11-2025 10:00`\n\nInput kamu: `"
      + timeStr + "`"
    case PastTime(local, nowMillis, offset, tz) =>
      " *Waktu harus di masa depan!*\n\nWaktu input: " + DisplayText(local) + " " + tz
      + "\nWaktu sekarang: " + DisplayText(LocalReading(nowMillis / 60000, offset)) + " " + tz
    case Added(name, teacherCode, local, tz) =>
      " *Tugas Berhasil Ditambahkan!*\n\n📚 *" + name + "*\n📖 Pelajaran: " + teacherCode
      + "\n📅 Deadline: " + DisplayText(local) + " " + tz
      + "\n\n🔔 Pengingat akan dikirim 15 menit sebelum deadline."
    case AddFailed => " *Maaf, terjadi kesalahan saat menambahkan tugas.*\n\nSilakan coba lagi nanti."
    case NoTasks =>
      " *Tidak ada tugas saat ini*\n\nUntuk menambah tugas baru, gunakan:\n`!tugas-tambah [nama], [pelajaran], [waktu]`"
    case ListFailed => " *Maaf, terjadi kesalahan saat mengambil data tugas.*"
    case EmptyName =>
      " *Nama tugas tidak boleh kosong!*\n\nGunakan: `!tugas-hapus [nama]`\n*Contoh:* `!tugas-hapus PR Matematika`"
    case NotFound(name) =>
      " *Tugas tidak ditemukan!*\n\nTidak ada tugas dengan nama: \"" + name + "\"\nCek daftar tugas dengan `!tugas`"
    case Deleted(name, dateTime, offset, tz) =>
      " *Tugas berhasil dihapus!*\n\nTugas: *" + name + "*\nDeadline: " + DisplayText(LocalReading(dateTime, offset)) + " " + tz
    case DeleteFailed => " *Gagal menghapus tugas.*\n\nSilakan coba lagi nanti."
    case DeleteError => " *Maaf, terjadi kesalahan saat menghapus tugas.*"
    case TugasHint => " *Perintah tidak dikenal*\n\nCoba gunakan:\n• `!tugas-tambah`\n• `!tugas-hapus`\n• `!tugas`"
    case TimezoneHint => " *Perintah tidak dikenal*\n\nGunakan: `!timezone-edit (WIB/WITA/WIT)`"
    case TimezoneFormatError => " Format salah\n\nGunakan: `!timezone-edit (WIB/WITA/WIT)`"
    case TimezoneSaveFailed => " Gagal menyimpan timezone"
    case TimezoneSet(tz) => " Timezone grup disetel ke *" + tz + "*"
  }


  /** No reply is the empty text, so `if (response)` keeps every reply a handler returns. */
  lemma RenderNonEmpty(m: Message)
    ensures Render(m) != []
  {
    if m.Listing? {
      assert |ListingText(m.rows, m.tz, m.offset)| >= |ListTips|;
    }
  }

  /** Heading, day, item and closing pieces of the task list. */
  function ListHeader(tz: string): string {
    "📅 *Daftar Tugas (" + tz + ")*\n\n"
  }

  function DateHeading(dateKey: string): string {
    "🗓️ *" + dateKey + "*\n"
  }

  function ItemLine(time: string, tz: string, name: string, teacherCode: string): string {
    "• [" + time + " " + tz + "] " + name + " (" + teacherCode + ")\n"
  }

  const ListTips: string := "💡 *Tips:*\n• Gunakan `!tugas-hapus [nama]` untuk menghapus tugas"

  // ---------------------------------------------------------------------
  // start, commands, unknown commands

  /** `handleStart`: the timezone is read (and may fail) but the welcome text does not use it. */
  function Start(zones: map<string, string>, sender: Sender, fault: Option<Fault>): (o: Outcome)
    ensures Early(fault).Some? <==> o.Thrown?
    ensures Early(fault).Some? ==> o == Thrown(fault.value.message)
    ensures Early(fault).None? ==> o == Reply(Some(Welcome))
  {
    if Early(fault).Some? then Thrown(fault.value.message) else Reply(Some(Welcome))
  }

  /** `handleCommands`: the help text, with the chat's zone in the time format line. */
  function Commands(zones: map<string, string>, sender: Sender, fault: Option<Fault>): (o: Outcome)
    ensures Early(fault).Some? <==> o.Thrown?
    ensures Early(fault).Some? ==> o == Thrown(fault.value.message)
    ensures Early(fault).None? ==> o == Reply(Some(Help(GetTimezone(zones, sender.chatId)))) && IsZone(o.reply.value.tz)
  {
    if Early(fault).Some? then Thrown(fault.value.message) else Reply(Some(Help(GetTimezone(zones, sender.chatId))))
  }

  /**
   * `handleUnknownCommand`: a hint for keywords that start with `tugas`, a
   * hint for keywords that contain `timezone` or are `tz`, and no reply for
   * anything else.
   */
  function UnknownCommand(command: string): (r: Option<Message>)
    ensures StartsWith(command, "tugas") <==> r == Some(TugasHint)
    ensures r == Some(TimezoneHint) <==> !StartsWith(command, "tugas") && (Contains(command, "timezone") || command == "tz")
    ensures r.None? <==> !StartsWith(command, "tugas") && !Contains(command, "timezone") && command != "tz"
  {
    if StartsWith(command, "tugas") then Some(TugasHint)
    else if Contains(command, "timezone") || command == "tz" then Some(TimezoneHint)
    else None
  }

  // ---------------------------------------------------------------------
  // tugas-tambah

  /** `args.join(' ').split(',').map(part => part.trim())`. */
  function CommaFields(args: seq<string>): (parts: seq<string>)
    ensures |parts| == |Split(Join(args, " "), ',')|
  {
    var pieces := Split(Join(args, " "), ',');
    seq(|pieces|, k requires 0 <= k < |pieces| => Trim(pieces[k]))
  }

  /** The UTC minute of a wall-clock reading at `offset` minutes ahead of UTC (`utcOffset(offset, true)`). */
  function UtcOf(local: DateTime, offset: nat): int
    requires ValidDateTime(local)
  {
    ToInstant(local) - offset
  }

  /** `scheduleUtc.isBefore(moment.utc())`: the deadline minute starts before the present millisecond. */
  predicate IsPast(utc: int, nowMillis: nat) {
    utc * 60000 < nowMillis
  }

  /** A deadline that is not past lies at or after the epoch. */
  lemma NotPastIsInstant(utc: int, nowMillis: nat)
    requires !IsPast(utc, nowMillis)
    ensures utc >= 0
  {
  }

  /** The schedule `tugas-tambah` asks the store to create. */
  function TaskData(sender: Sender, name: string, subject: string, utc: Instant): NewSchedule {
    NewSchedule(sender.chatId, sender.phone, name, subject, "-", utc, false)
  }

  /**
   * `handleTugasTambah`: exactly three comma fields, a strict
   * `DD-MM-YYYY HH:mm` time, not before the clock (`nowMillis`, milliseconds
   * on the same epoch as `Instant`); then one task is created.
   */
  function AddTask(w: World, sender: Sender, args: seq<string>, nowMillis: nat, fault: Option<Fault>): (World, Outcome) {
    var parts := CommaFields(args);
    if |parts| != 3 then (w, Reply(Some(FormatError)))
    else if Early(fault).Some? then (w, Reply(Some(AddFailed)))
    else
      match ParseEntered(parts[2])
      case None => (w, Reply(Some(TimeError(parts[2]))))
      case Some(local) => AddAt(w, sender, parts[0], parts[1], local, nowMillis)
  }

  /** The last step of `handleTugasTambah`: the clock check on a parsed reading, then the insert. */
  function AddAt(w: World, sender: Sender, name: string, subject: string, local: DateTime, nowMillis: nat): (World, Outcome)
    requires ValidDateTime(local)
  {
    var offset := GetOffset(w.zones, sender.chatId);
    var tz := GetTimezone(w.zones, sender.chatId);
    var utc := UtcOf(local, offset);
    if IsPast(utc, nowMillis) then (w, Reply(Some(PastTime(local, nowMillis, offset, tz))))
    else
      (World(CreateT(w.tables, TaskData(sender, name, subject, utc)), w.zones),
       Reply(Some(Added(ShownText(name), ShownText(subject), local, tz))))
  }

  /** Anything but three comma fields (four fields, say) is answered with the format error and stores nothing. */
  lemma AddTaskArity(w: World, sender: Sender, args: seq<string>, nowMillis: nat, fault: Option<Fault>)
    requires |Split(Join(args, " "), ',')| != 3
    ensures AddTask(w, sender, args, nowMillis, fault) == (w, Reply(Some(FormatError)))
  {
  }

  /** A third field that is not a strict, calendar-valid `DD-MM-YYYY HH:mm` gives the time error and stores nothing. */
  lemma AddTaskBadTime(w: World, sender: Sender, args: seq<string>, nowMillis: nat)
    requires |CommaFields(args)| == 3 && ParseEntered(CommaFields(args)[2]).None?
    ensures AddTask(w, sender, args, nowMillis, None) == (w, Reply(Some(TimeError(CommaFields(args)[2]))))
  {
  }

  /** With three fields and a valid time, the outcome is decided by the clock check on the parsed reading. */
  lemma AddTaskParsed(w: World, sender: Sender, args: seq<string>, nowMillis: nat)
    requires |CommaFields(args)| == 3 && ParseEntered(CommaFields(args)[2]).Some?
    ensures AddTask(w, sender, args, nowMillis, None)
         == AddAt(w, sender, CommaFields(args)[0], CommaFields(args)[1], ParseEntered(CommaFields(args)[2]).value, nowMillis)
  {
  }

  /**
   * The clock check: a deadline before the present millisecond is refused
   * and nothing is stored; one at or after it is
   * stored as exactly one new active task of the sender's chat, with the
   * given name and subject, at the entered reading minus the chat's offset
   * (which `EnteredTimeIsShown` reads back as the entered wall clock). The
   * reply shows the name and subject as the new row reads back, so an empty
   * one shows as `undefined`.
   */
  lemma AddAtClock(w: World, sender: Sender, name: string, subject: string, local: DateTime, nowMillis: nat)
    requires ValidDateTime(local) && Consistent(w.tables)
    ensures var offset := GetOffset(w.zones, sender.chatId);
      var utc := ToInstant(local) - offset;
      var (w', o) := AddAt(w, sender, name, subject, local, nowMillis);
      && (IsPast(utc, nowMillis) ==>
            w' == w && o == Reply(Some(PastTime(local, nowMillis, offset, GetTimezone(w.zones, sender.chatId)))))
      && (!IsPast(utc, nowMillis) ==>
            (utc >= 0 && w'.zones == w.zones && Consistent(w'.tables)
             && |w'.tables.schedules| == |w.tables.schedules| + 1
             && w'.tables.schedules[..|w.tables.schedules|] == w.tables.schedules
             && var row := w'.tables.schedules[|w.tables.schedules|];
             && row.chatId == sender.chatId && row.userPhone == sender.phone
             && row.name == name && row.teacherCode == subject && row.isActive && !row.isWeekly
             && row.dateTime == utc
             && o == Reply(Some(Added(ShownText(name), ShownText(subject), local, GetTimezone(w.zones, sender.chatId))))))
  {
    var offset := GetOffset(w.zones, sender.chatId);
    var utc := ToInstant(local) - offset;
    if !IsPast(utc, nowMillis) {
      CreateAddsOne(w.tables, TaskData(sender, name, subject, utc));
    }
  }

  /**
   * The deadline is the start of its minute and the clock counts
   * milliseconds: a deadline in the present minute is refused as soon as any
   * of that minute has gone by, and any later minute is accepted.
   */
  lemma PastWithinMinute(utc: Instant, nowMillis: nat)
    ensures nowMillis == utc * 60000 ==> !IsPast(utc, nowMillis)
    ensures nowMillis / 60000 == utc && nowMillis % 60000 != 0 ==> IsPast(utc, nowMillis)
    ensures nowMillis / 60000 < utc ==> !IsPast(utc, nowMillis)
  {
    assert nowMillis == 60000 * (nowMillis / 60000) + nowMillis % 60000;
  }

  /**
   * The wall clock a stored task is shown at, under the same zone, is the one
   * that was entered: converting to UTC and back by the same offset is the
   * identity, so the list's day heading and `HH:mm` are those typed in.
   */
  lemma EnteredTimeIsShown(local: DateTime, offset: nat)
    requires ValidDateTime(local) && ToInstant(local) >= offset
    ensures LocalReading(ToInstant(local) - offset, offset) == local
    ensures DateKey(LocalReading(ToInstant(local) - offset, offset).date) == DateKey(local.date)
    ensures ClockText(LocalReading(ToInstant(local) - offset, offset)) == ClockText(local)
  {
    FromToInstant(local);
  }

  // ---------------------------------------------------------------------
  // tugas (the list)

  /** The local reading of each row's deadline at `offset`, and the `DD/MM/YYYY` heading it falls under. */
  function LocalOf(offset: nat): Row -> DateTime {
    (r: Row) => LocalReading(r.dateTime, offset)
  }

  function DayOf(offset: nat): Row -> string {
    (r: Row) => DateKey(LocalOf(offset)(r).date)
  }

  /** The headings in the order the rows first produce them (`Object.keys` order of `groupedSchedules`). */
  function KeysOf(rows: seq<Row>, day: Row -> string): seq<string> {
    if rows == [] then []
    else
      var ks := KeysOf(rows[..|rows| - 1], day);
      var k := day(rows[|rows| - 1]);
      if k in ks then ks else ks + [k]
  }

  lemma {:induction false} KeysOfSpec(rows: seq<Row>, day: Row -> string)
    ensures Distinct(KeysOf(rows, day))
    ensures forall k :: k in KeysOf(rows, day) <==> exists r :: r in rows && day(r) == k
  {
    if rows != [] {
      var prev := rows[..|rows| - 1];
      var last := rows[|rows| - 1];
      KeysOfSpec(prev, day);
      assert rows == prev + [last];
      forall k ensures k in KeysOf(rows, day) <==> exists r :: r in rows && day(r) == k {
        if k in KeysOf(rows, day) && k != day(last) {
          assert k in KeysOf(prev, day);
          var r :| r in prev && day(r) == k;
          assert r in rows;
        }
        if exists r :: r in rows && day(r) == k {
          var r :| r in rows && day(r) == k;
          if r != last {
            assert r in prev;
          }
        }
      }
    }
  }

  /** The group of one heading: the rows under it, in row order, each with its local reading. */
  function GroupOf(rows: seq<Row>, day: Row -> string, local: Row -> DateTime, key: string): seq<(Row, DateTime)> {
    if rows == [] then []
    else
      var last := rows[|rows| - 1];
      GroupOf(rows[..|rows| - 1], day, local, key) + (if day(last) == key then [(last, local(last))] else [])
  }

  lemma {:induction false} GroupOfMembers(rows: seq<Row>, day: Row -> string, local: Row -> DateTime, key: string)
    ensures forall p :: p in GroupOf(rows, day, local, key) <==> p.0 in rows && day(p.0) == key && p.1 == local(p.0)
  {
    if rows != [] {
      var prev := rows[..|rows| - 1];
      assert rows == prev + [rows[|rows| - 1]];
      GroupOfMembers(prev, day, local, key);
    }
  }

  lemma KeysOfStep(rows: seq<Row>, x: Row, day: Row -> string)
    ensures KeysOf(rows + [x], day) == if day(x) in KeysOf(rows, day) then KeysOf(rows, day) else KeysOf(rows, day) + [day(x)]
  {
    assert (rows + [x])[..|rows|] == rows;
  }

  lemma GroupOfStep(rows: seq<Row>, x: Row, day: Row -> string, local: Row -> DateTime, key: string)
    ensures GroupOf(rows + [x], day, local, key)
         == GroupOf(rows, day, local, key) + (if day(x) == key then [(x, local(x))] else [])
  {
    assert (rows + [x])[..|rows|] == rows;
  }

  /** A heading that no row produces has an empty group. */
  lemma GroupOfAbsent(rows: seq<Row>, day: Row -> string, local: Row -> DateTime, key: string)
    requires key !in KeysOf(rows, day)
    ensures GroupOf(rows, day, local, key) == []
  {
    KeysOfSpec(rows, day);
    GroupOfMembers(rows, day, local, key);
  }

  /**
   * `groupedSchedules` after the rows: each row's reading is appended to the
   * list of its heading, which starts empty the first time the heading occurs.
   */
  function GroupMap(rows: seq<Row>, day: Row -> string, local: Row -> DateTime): map<string, seq<(Row, DateTime)>> {
    if rows == [] then map[]
    else
      var last := rows[|rows| - 1];
      var m := GroupMap(rows[..|rows| - 1], day, local);
      var k := day(last);
      var m1 := if k in m then m else m[k := []];
      m1[k := m1[k] + [(last, local(last))]]
  }

  lemma GroupMapStep(rows: seq<Row>, x: Row, day: Row -> string, local: Row -> DateTime)
    ensures GroupMap(rows + [x], day, local)
         == var m := GroupMap(rows, day, local);
            var m1 := if day(x) in m then m else m[day(x) := []];
            m1[day(x) := m1[day(x)] + [(x, local(x))]]
  {
    assert (rows + [x])[..|rows|] == rows;
  }

  /** The map has exactly the headings of the rows, and under each the group of that heading. */
  lemma {:induction false} GroupMapSpec(rows: seq<Row>, day: Row -> string, local: Row -> DateTime)
    ensures forall k :: k in GroupMap(rows, day, local) <==> k in KeysOf(rows, day)
    ensures forall k :: k in GroupMap(rows, day, local) ==> GroupMap(rows, day, local)[k] == GroupOf(rows, day, local, k)
  {
    if rows != [] {
      var prev, last := rows[..|rows| - 1], rows[|rows| - 1];
      GroupMapSpec(prev, day, local);
      assert rows == prev + [last];
      GroupMapStep(prev, last, day, local);
      KeysOfStep(prev, last, day);
      forall k {
        GroupOfStep(prev, last, day, local, k);
      }
      if day(last) !in KeysOf(prev, day) {
        GroupOfAbsent(prev, day, local, day(last));
      }
    }
  }

  /** Appending the item lines of one group to `acc`, in group order: the inner `forEach` of the message loop. */
  function ItemsFrom(acc: string, items: seq<(Row, DateTime)>, tz: string): string
    decreases |items|
  {
    if items == [] then acc
    else ItemsFrom(acc + ItemLine(ClockText(items[0].1), tz, ShownText(items[0].0.name), ShownText(items[0].0.teacherCode)),
                   items[1..], tz)
  }

  /** Appending one heading, its group's lines and a blank line per date to `acc`, in the given date order. */
  function DatesFrom(acc: string, dates: seq<string>, rows: seq<Row>, offset: nat, tz: string): string
    decreases |dates|
  {
    if dates == [] then acc
    else
      var group := GroupOf(rows, DayOf(offset), LocalOf(offset), dates[0]);
      DatesFrom(ItemsFrom(acc + DateHeading(dates[0]), group, tz) + "\n", dates[1..], rows, offset, tz)
  }

  /** The headings sorted by the date they denote (`moment(key, 'DD/MM/YYYY')`). */
  function SortedDates(rows: seq<Row>, offset: nat): seq<string> {
    SortBy(KeysOf(rows, DayOf(offset)), KeyDay)
  }

  /** The list text for a non-empty result of `findByUser`. */
  function ListingText(rows: seq<Row>, tz: string, offset: nat): string {
    DatesFrom(ListHeader(tz), SortedDates(rows, offset), rows, offset, tz) + ListTips
  }

  /** `handleTugas`: reads only; replies with the list of the chat's active tasks. */
  function ListTasks(w: World, sender: Sender, fault: Option<Fault>): Outcome {
    if Early(fault).Some? then Reply(Some(ListFailed))
    else
      var rows := FindByUser(w.tables.schedules, sender.chatId);
      if rows == [] then Reply(Some(NoTasks))
      else Reply(Some(Listing(rows, GetTimezone(w.zones, sender.chatId), GetOffset(w.zones, sender.chatId))))
  }

  /** A chat without active tasks gets the no-task reply, and a chat with some gets the list. */
  lemma ListEmpty(w: World, sender: Sender)
    ensures ListTasks(w, sender, None) == Reply(Some(NoTasks)) <==>
      forall r :: r in w.tables.schedules ==> !(r.chatId == sender.chatId && r.isActive)
  {
    var rows := FindByUser(w.tables.schedules, sender.chatId);
    if rows != [] {
      assert rows[0] in rows;
    }
  }

  lemma KeyDayOfKey(r: Row, offset: nat)
    requires LocalOf(offset)(r).date.year < 10000
    ensures KeyDay(DayOf(offset)(r)) == DayNumber(LocalOf(offset)(r).date)
  {
    KeyDayOfDateKey(LocalReading(r.dateTime, offset).date);
  }

  /**
   * The day groups of the list appear in strictly increasing date order,
   * every task of the chat is under the heading of its own local date, and a
   * group holds exactly the tasks of that date with their local readings.
   */
  lemma ListGroupsChronological(rows: seq<Row>, offset: nat)
    requires forall r :: r in rows ==> LocalOf(offset)(r).date.year < 10000
    ensures var dates := SortedDates(rows, offset);
      && (forall i, j :: 0 <= i < j < |dates| ==> KeyDay(dates[i]) < KeyDay(dates[j]))
      && (forall r :: r in rows ==> DayOf(offset)(r) in dates)
      && (forall d, p :: d in dates ==> (p in GroupOf(rows, DayOf(offset), LocalOf(offset), d) <==>
            p.0 in rows && DayOf(offset)(p.0) == d && p.1 == LocalOf(offset)(p.0)))
  {
    var day := DayOf(offset);
    var keys := KeysOf(rows, day);
    var dates := SortedDates(rows, offset);
    KeysOfSpec(rows, day);
    SortByDistinct(keys, KeyDay);
    forall k ensures k in dates <==> k in keys {
      SortByMembers(keys, KeyDay, k);
    }
    forall d {
      GroupOfMembers(rows, day, LocalOf(offset), d);
    }
    forall i, j | 0 <= i < j < |dates| ensures KeyDay(dates[i]) < KeyDay(dates[j]) {
      assert dates[i] in keys && dates[j] in keys;
      var ri :| ri in rows && day(ri) == dates[i];
      var rj :| rj in rows && day(rj) == dates[j];
      KeyDayOfKey(ri, offset);
      KeyDayOfKey(rj, offset);
      if KeyDay(dates[i]) == KeyDay(dates[j]) {
        DayNumberInjective(LocalReading(ri.dateTime, offset).date, LocalReading(rj.dateTime, offset).date);
      }
    }
  }

  // ---------------------------------------------------------------------
  // tugas-hapus

  /**
   * `handleTugasHapus`: a non-empty name, the first active task of that name
   * in the chat, soft-deleted. The offset and zone of the reply are read
   * after the delete, inside the same `try`: an error there leaves the task
   * deleted and answers with the apology.
   */
  function DeleteTask(w: World, sender: Sender, args: seq<string>, fault: Option<Fault>): (World, Outcome) {
    var input := Trim(Join(args, " "));
    if input == [] then (w, Reply(Some(EmptyName)))
    else if Early(fault).Some? then (w, Reply(Some(DeleteError)))
    else
      match FindByName(w.tables.schedules, input, sender.chatId)
      case None => (w, Reply(Some(NotFound(input))))
      case Some(s) =>
        var deletion := DeleteT(w.tables, s.id, sender.chatId);
        if deletion.0 && Late(fault) then (World(deletion.1, w.zones), Reply(Some(DeleteError)))
        else if deletion.0 then
          (World(deletion.1, w.zones),
           Reply(Some(Deleted(s.name, s.dateTime, GetOffset(w.zones, sender.chatId),
                              GetTimezone(w.zones, sender.chatId)))))
        else (World(deletion.1, w.zones), Reply(Some(DeleteFailed)))
  }

  /**
   * An empty name is refused before any lookup; a name with no active task
   * in the chat changes nothing; otherwise exactly the task `findByName`
   * returns is deactivated, and the delete cannot miss it.
   */
  lemma DeleteTaskSpec(w: World, sender: Sender, args: seq<string>)
    requires Consistent(w.tables)
    ensures var input := Trim(Join(args, " "));
      var (w', o) := DeleteTask(w, sender, args, None);
      && (input == [] ==> w' == w && o == Reply(Some(EmptyName)))
      && (input != [] && FindByName(w.tables.schedules, input, sender.chatId).None? ==>
            w' == w && o == Reply(Some(NotFound(input))))
      && (input != [] && FindByName(w.tables.schedules, input, sender.chatId).Some? ==>
            var s := FindByName(w.tables.schedules, input, sender.chatId).value;
            && w'.zones == w.zones
            && 1 <= s.id <= |w.tables.schedules| && w.tables.schedules[s.id - 1] == s
            && w'.tables.reminders == w.tables.reminders
            && |w'.tables.schedules| == |w.tables.schedules|
            && w'.tables.schedules[s.id - 1] == s.(isActive := false)
            && (forall k :: 0 <= k < |w.tables.schedules| && k != s.id - 1 ==> w'.tables.schedules[k] == w.tables.schedules[k])
            && o.reply.value.Deleted? && o.reply.value.name == input)
  {
    var input := Trim(Join(args, " "));
    assert Early(None).None? && !Late(None);
    if input != [] {
      var found := FindByName(w.tables.schedules, input, sender.chatId);
      if found.Some? {
        var s := found.value;
        var k :| 0 <= k < |w.tables.schedules| && w.tables.schedules[k] == s && Named(w.tables.schedules[k], input, sender.chatId);
        assert s.id == k + 1;
        DeleteSpec(w.tables, s.id, sender.chatId);
      }
    }
  }

  /**
   * An error after the delete, when the reply's offset is read, does not
   * undo the delete: the stored state is the one a clean run leaves, the
   * task found is no longer active, and the reply is the apology. When
   * nothing was deleted, a late error changes nothing.
   */
  lemma DeleteTaskLateFault(w: World, sender: Sender, args: seq<string>, message: string)
    requires Consistent(w.tables)
    ensures var input := Trim(Join(args, " "));
      var found := FindByName(w.tables.schedules, input, sender.chatId);
      var (w', o) := DeleteTask(w, sender, args, Some(Fault(message, true)));
      && w' == DeleteTask(w, sender, args, None).0
      && (input != [] && found.Some? ==>
            && o == Reply(Some(DeleteError))
            && 1 <= found.value.id <= |w'.tables.schedules|
            && w.tables.schedules[found.value.id - 1].isActive
            && !w'.tables.schedules[found.value.id - 1].isActive)
      && (input == [] || found.None? ==> (w', o) == DeleteTask(w, sender, args, None))
  {
    DeleteTaskSpec(w, sender, args);
    var input := Trim(Join(args, " "));
    var found := FindByName(w.tables.schedules, input, sender.chatId);
    if input != [] && found.Some? {
      var k :| 0 <= k < |w.tables.schedules| && w.tables.schedules[k] == found.value
               && Named(w.tables.schedules[k], input, sender.chatId);
    }
  }

  // ---------------------------------------------------------------------
  // timezone-edit

  /** `(args[0] || '').toUpperCase()`. */
  function ZoneArgument(args: seq<string>): string {
    ToUpper(if |args| > 0 then args[0] else "")
  }

  /** `handleTimezoneEdit`: only WIB, WITA or WIT (any case) is passed on to `setTimezone`. */
  function EditTimezone(zones: map<string, string>, sender: Sender, args: seq<string>, fault: Option<Fault>): (map<string, string>, Outcome) {
    var input := ZoneArgument(args);
    if !IsZone(input) then (zones, Reply(Some(TimezoneFormatError)))
    else if Early(fault).Some? then (zones, Thrown(fault.value.message))
    else
      var saved := SetTimezoneRows(zones, sender.chatId, input);
      if !saved.0 then (saved.1, Reply(Some(TimezoneSaveFailed)))
      else (saved.1, Reply(Some(TimezoneSet(input))))
  }

  lemma {:induction false} ToUpperIdempotent(s: string)
    ensures ToUpper(ToUpper(s)) == ToUpper(s)
  {
    assert forall i :: 0 <= i < |s| ==> ToUpperChar(ToUpperChar(s[i])) == ToUpperChar(s[i]);
  }

  /**
   * A first argument that does not upper-case to a zone gets the format
   * error and the settings are not touched; one that does becomes the chat's
   * zone, which every later lookup returns, and saving it cannot fail.
   */
  lemma EditTimezoneSpec(zones: map<string, string>, sender: Sender, args: seq<string>)
    ensures var input := ZoneArgument(args);
      var (zones', o) := EditTimezone(zones, sender, args, None);
      && (!IsZone(input) ==> zones' == zones && o == Reply(Some(TimezoneFormatError)))
      && (IsZone(input) ==>
            (zones' == zones[sender.chatId := input]
             && GetTimezone(zones', sender.chatId) == input
             && o == Reply(Some(TimezoneSet(input)))))
  {
    ToUpperIdempotent(if |args| > 0 then args[0] else "");
  }

  // ---------------------------------------------------------------------
  // The handlers on the store objects

  method HandleStart(settings: SettingsTable, sender: Sender, args: seq<string>, fault: Option<Fault>)
    returns (outcome: Outcome)
    ensures outcome == Start(settings.rows, sender, fault)
  {
    if Early(fault).Some? {
      return Thrown(fault.value.message);
    }
    var tz := GetTimezone(settings.rows, sender.chatId);
    return Reply(Some(Welcome));
  }

  method HandleCommands(settings: SettingsTable, sender: Sender, args: seq<string>, fault: Option<Fault>)
    returns (outcome: Outcome)
    ensures outcome == Commands(settings.rows, sender, fault)
  {
    if Early(fault).Some? {
      return Thrown(fault.value.message);
    }
    var tz := GetTimezone(settings.rows, sender.chatId);
    return Reply(Some(Help(tz)));
  }

  method HandleTugasTambah(store: ScheduleStore, settings: SettingsTable, sender: Sender, args: seq<string>,
                           nowMillis: nat, fault: Option<Fault>)
    returns (outcome: Outcome)
    requires store.Valid()
    modifies store
    ensures store.Valid()
    ensures (World(store.Contents(), settings.rows), outcome)
         == AddTask(World(old(store.Contents()), settings.rows), sender, args, nowMillis, fault)
  {
    var parts := CommaFields(args);
    if |parts| != 3 {
      return Reply(Some(FormatError));
    }
    if Early(fault).Some? {
      // getOffset threw inside the handler's try block
      return Reply(Some(AddFailed));
    }
    var taskName, subject, timeStr := parts[0], parts[1], parts[2];
    var offset := GetOffset(settings.rows, sender.chatId);
    var tz := GetTimezone(settings.rows, sender.chatId);
    var parsed := ParseEntered(timeStr);
    if parsed.None? {
      return Reply(Some(TimeError(timeStr)));
    }
    var local := parsed.value;
    outcome := AddParsed(store, settings, sender, taskName, subject, local, nowMillis);
  }

  /** The rest of `handleTugasTambah` once the time has parsed: the clock check, then `create`. */
  method AddParsed(store: ScheduleStore, settings: SettingsTable, sender: Sender, taskName: string,
                   subject: string, local: DateTime, nowMillis: nat)
    returns (outcome: Outcome)
    requires store.Valid() && ValidDateTime(local)
    modifies store
    ensures store.Valid()
    ensures (World(store.Contents(), settings.rows), outcome)
         == AddAt(World(old(store.Contents()), settings.rows), sender, taskName, subject, local, nowMillis)
  {
    var offset := GetOffset(settings.rows, sender.chatId);
    var tz := GetTimezone(settings.rows, sender.chatId);
    var scheduleUtc := UtcOf(local, offset);
    if IsPast(scheduleUtc, nowMillis) {
      return Reply(Some(PastTime(local, nowMillis, offset, tz)));
    }
    NotPastIsInstant(scheduleUtc, nowMillis);
    var newSchedule := store.Create(TaskData(sender, taskName, subject, scheduleUtc));
    match newSchedule
    case Some(created) =>
      // `newSchedule` is the row read back through `new Schedule(row)`
      outcome := Reply(Some(Added(ShownText(created.name), ShownText(created.teacherCode), local, tz)));
    case None =>
      // reading `scheduleName` of null throws inside the try block
      outcome := Reply(Some(AddFailed));
  }

  method HandleTugas(store: ScheduleStore, settings: SettingsTable, sender: Sender, args: seq<string>,
                     fault: Option<Fault>)
    returns (outcome: Outcome)
    ensures outcome == ListTasks(World(store.Contents(), settings.rows), sender, fault)
  {
    if Early(fault).Some? {
      return Reply(Some(ListFailed));
    }
    var schedules := FindByUser(store.schedules, sender.chatId);
    var tz := GetTimezone(settings.rows, sender.chatId);
    var offset := GetOffset(settings.rows, sender.chatId);
    if |schedules| == 0 {
      return Reply(Some(NoTasks));
    }
    return Reply(Some(Listing(schedules, tz, offset)));
  }

  /**
   * The text of the list reply as `handleTugas` builds it: the rows grouped
   * by local date, then the headings, items and tips appended in date order.
   */
  method ListingMessage(schedules: seq<Row>, tz: string, offset: nat) returns (message: string)
    ensures message == Render(Listing(schedules, tz, offset))
  {
    var grouped, keys := GroupByDate(schedules, DayOf(offset), LocalOf(offset));
    message := RenderListing(schedules, grouped, keys, tz, offset);
  }

  /** The message-building loops of `handleTugas`, over the groups `GroupByDate` filled. */
  method RenderListing(schedules: seq<Row>, grouped: map<string, seq<(Row, DateTime)>>, keys: seq<string>,
                       tz: string, offset: nat)
    returns (message: string)
    requires keys == KeysOf(schedules, DayOf(offset))
    requires forall k :: k in grouped <==> k in keys
    requires forall k :: k in grouped ==> grouped[k] == GroupOf(schedules, DayOf(offset), LocalOf(offset), k)
    ensures message == ListingText(schedules, tz, offset)
  {
    message := ListHeader(tz);
    var sortedDates := SortBy(keys, KeyDay);
    var d := 0;
    while d < |sortedDates|
      invariant 0 <= d <= |sortedDates|
      invariant DatesFrom(message, sortedDates[d..], schedules, offset, tz)
             == DatesFrom(ListHeader(tz), sortedDates, schedules, offset, tz)
    {
      var date := sortedDates[d];
      SortByMembers(keys, KeyDay, date);
      message := message + DateHeading(date);
      message := AppendItems(message, grouped[date], tz);
      message := message + "\n";
      assert sortedDates[d..][1..] == sortedDates[d + 1..];
      d := d + 1;
    }
    message := message + ListTips;
  }

  /** The inner `forEach` of the message loop: one line per task of a date group. */
  method AppendItems(message: string, items: seq<(Row, DateTime)>, tz: string) returns (result: string)
    ensures result == ItemsFrom(message, items, tz)
  {
    result := message;
    var j := 0;
    while j < |items|
      invariant 0 <= j <= |items|
      invariant ItemsFrom(result, items[j..], tz) == ItemsFrom(message, items, tz)
    {
      assert items[j..][1..] == items[j + 1..];
      var schedule := items[j].0;
      result := result + ItemLine(ClockText(items[j].1), tz, ShownText(schedule.name), ShownText(schedule.teacherCode));
      j := j + 1;
    }
  }

  /**
   * The `forEach` of `handleTugas` that fills `groupedSchedules`; `keys` is its
   * `Object.keys` order. `local` is the local reading of a row and `day` the
   * `DD/MM/YYYY` text of that reading.
   */
  method GroupByDate(schedules: seq<Row>, day: Row -> string, local: Row -> DateTime)
    returns (grouped: map<string, seq<(Row, DateTime)>>, keys: seq<string>)
    requires forall r :: day(r) == DateKey(local(r).date)
    ensures keys == KeysOf(schedules, day)
    ensures forall k :: k in grouped <==> k in keys
    ensures forall k :: k in grouped ==> grouped[k] == GroupOf(schedules, day, local, k)
  {
    grouped := map[];
    keys := [];
    var i := 0;
    while i < |schedules|
      invariant 0 <= i <= |schedules|
      invariant keys == KeysOf(schedules[..i], day)
      invariant grouped == GroupMap(schedules[..i], day, local)
    {
      var reading := local(schedules[i]);
      var dateKey := DateKey(reading.date);
      assert dateKey == day(schedules[i]);
      ghost var prev := schedules[..i];
      assert schedules[..i + 1] == prev + [schedules[i]];
      KeysOfStep(prev, schedules[i], day);
      GroupMapStep(prev, schedules[i], day, local);
      GroupMapSpec(prev, day, local);
      if dateKey !in grouped {
        grouped := grouped[dateKey := []];
        keys := keys + [dateKey];
      }
      grouped := grouped[dateKey := grouped[dateKey] + [(schedules[i], reading)]];
      i := i + 1;
    }
    assert schedules[..i] == schedules;
    GroupMapSpec(schedules, day, local);
  }

  method HandleTugasHapus(store: ScheduleStore, settings: SettingsTable, sender: Sender, args: seq<string>,
                          fault: Option<Fault>)
    returns (outcome: Outcome)
    requires store.Valid()
    modifies store
    ensures store.Valid()
    ensures (World(store.Contents(), settings.rows), outcome)
         == DeleteTask(World(old(store.Contents()), settings.rows), sender, args, fault)
  {
    var input := Trim(Join(args, " "));
    if input == [] {
      return Reply(Some(EmptyName));
    }
    if Early(fault).Some? {
      // findByName threw inside the handler's try block
      return Reply(Some(DeleteError));
    }
    var taskName := input;
    var schedule := FindByName(store.schedules, taskName, sender.chatId);
    if schedule.None? {
      return Reply(Some(NotFound(taskName)));
    }
    var s := schedule.value;
    var deleted := store.Delete(s.id, sender.chatId);
    if deleted {
      if Late(fault) {
        // getOffset threw after the delete, still inside the try block
        return Reply(Some(DeleteError));
      }
      outcome := Reply(Some(Deleted(s.name, s.dateTime, GetOffset(settings.rows, sender.chatId),
                                    GetTimezone(settings.rows, sender.chatId))));
    } else {
      outcome := Reply(Some(DeleteFailed));
    }
  }

  method HandleTimezoneEdit(settings: SettingsTable, sender: Sender, args: seq<string>, fault: Option<Fault>)
    returns (outcome: Outcome)
    modifies settings
    ensures (settings.rows, outcome) == EditTimezone(old(settings.rows), sender, args, fault)
  {
    var input := ToUpper(if |args| > 0 then args[0] else "");
    if !IsZone(input) {
      return Reply(Some(TimezoneFormatError));
    }
    if Early(fault).Some? {
      // setTimezone is awaited outside any try block: the error propagates
      return Thrown(fault.value.message);
    }
    var ok := settings.SetTimezone(sender.chatId, input);
    if !ok {
      return Reply(Some(TimezoneSaveFailed));
    }
    return Reply(Some(TimezoneSet(input)));
  }
}
