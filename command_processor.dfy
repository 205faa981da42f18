/**
 * The webhook middleware. A WhatsApp message event carries a text whose
 * lines may each hold one command (`!keyword args`); each prefixed line is
 * parsed, dispatched to its handler against the stored state, and the
 * non-empty replies are sent back to the chat as one message, joined by a
 * divider. A line whose handler throws contributes an error text instead and
 * does not stop the lines after it.
 *
 * `ParseLine` is the parsing half of `processSingleLine`, `Dispatch` its
 * switch, `SingleLine` both together; `RunLines` is the line loop, over
 * any per-line `handle` (`Handler` is `SingleLine` as one), and `Webhook`
 * the whole middleware, all on values. `ProcessSingleLine`,
 * `MessageLoop` and `HandleWebhook` do the same on the store objects, step by
 * step, and are proved to agree with them.
 *
 * Oracles: `faults[i]` is the storage error (if any) that line i meets,
 * with where it strikes (`CommandController.Fault`; no error past the end
 * of `faults`), and
 * `sendOk` says whether the gateway accepts the joined reply.
 */
module CommandProcessor {
  import opened Wrappers
  import opened Text
  import opened Schedule
  import opened GroupSettings
  import opened CommandController

  // ---------------------------------------------------------------------
  // COMMANDS and the prefix

  const StartKeyword: string := "start"
  const CommandsKeyword: string := "commands"
  const TugasTambahKeyword: string := "tugas-tambah"
  const TugasHapusKeyword: string := "tugas-hapus"
  const TugasKeyword: string := "tugas"
  const TimezoneEditKeyword: string := "timezone-edit"

  /** The six keywords the switch knows. */
  predicate IsKeyword(k: string) {
    k == StartKeyword || k == CommandsKeyword || k == TugasTambahKeyword
    || k == TugasHapusKeyword || k == TugasKeyword || k == TimezoneEditKeyword
  }

  /** `process.env.BOT_PREFIX || '!'`: an unset or empty variable means `!`. */
  function Prefix(env: Option<string>): (p: string)
    ensures p != []
    ensures env.Some? && env.value != [] ==> p == env.value
    ensures env.None? || env.value == [] ==> p == "!"
  {
    if env.Some? && env.value != [] then env.value else "!"
  }

  // ---------------------------------------------------------------------
  // Parsing one line

  /** The characters of `/[‐‑‒–—−]/`: hyphens, dashes and the minus sign. */
  predicate IsDash(c: char) {
    c == '\U{2010}' || c == '\U{2011}' || c == '\U{2012}' || c == '\U{2013}' || c == '\U{2014}' || c == '\U{2212}'
  }

  function NormalizeDash(c: char): char {
    if IsDash(c) then '-' else c
  }

  /**
   * The global `replace` of those characters by `-`: the length is kept,
   * each of them becomes `-`, every other character stays, and none of them
   * is left.
   */
  function NormalizeDashes(s: string): (r: string)
    ensures |r| == |s|
    ensures forall k {:trigger r[k]} :: 0 <= k < |s| ==> r[k] == NormalizeDash(s[k])
    ensures forall k {:trigger r[k]} :: 0 <= k < |r| ==> !IsDash(r[k])
  {
    if s == [] then [] else [NormalizeDash(s[0])] + NormalizeDashes(s[1..])
  }

  /** The aliases: `timezone` and `tz` stand for `timezone-edit`; every other keyword is itself. */
  function Resolve(raw: string): (resolved: string)
    ensures raw == "timezone" || raw == "tz" ==> resolved == TimezoneEditKeyword
    ensures raw != "timezone" && raw != "tz" ==> resolved == raw
  {
    if raw == "timezone" || raw == "tz" then TimezoneEditKeyword else raw
  }

  /** A parsed line: the resolved keyword, the lower-cased keyword as typed, and the arguments. */
  datatype Command = Command(keyword: string, raw: string, args: seq<string>)

  /** The text after the prefix, trimmed, with the dashes normalised. */
  function CommandText(line: string, prefix: string): string
    requires StartsWith(Trim(line), prefix)
  {
    NormalizeDashes(Trim(Trim(line)[|prefix|..]))
  }

  /** Lines 51-54: split the normalised text on single spaces, lower-case the keyword, resolve the aliases. */
  function ParseText(text: string): Command {
    var commandParts := Split(text, ' ');
    var rawCommand := ToLower(commandParts[0]);
    Command(Resolve(rawCommand), rawCommand, commandParts[1..])
  }

  /** Lines 45-54 of `processSingleLine`: `None` is its early `return null`. */
  function ParseLine(line: string, prefix: string): (c: Option<Command>)
    ensures c.None? <==> !StartsWith(Trim(line), prefix)
  {
    var lineTrimmed := Trim(line);
    if !StartsWith(lineTrimmed, prefix) then None
    else Some(ParseText(CommandText(line, prefix)))
  }

  /**
   * The keyword is the lower-cased text before the first space (all of the
   * text when there is none), and the arguments joined by single spaces are
   * exactly the text after that space, empty tokens of repeated spaces
   * included. No argument contains a space.
   */
  lemma ParseTextTokens(text: string)
    ensures var i := IndexOf(text, ' ');
      var c := ParseText(text);
      && c.raw == ToLower(text[..i])
      && (forall k :: 0 <= k < |c.raw| ==> !('A' <= c.raw[k] <= 'Z'))
      && (c.args == [] <==> i == |text|)
      && (i < |text| ==> Join(c.args, " ") == text[i + 1..])
      && (forall k :: 0 <= k < |c.args| ==> ' ' !in c.args[k])
  {
    var i := IndexOf(text, ' ');
    SplitTail(text, ' ');
    if i < |text| {
      JoinSplit(text[i + 1..], ' ');
    }
    var parts := Split(text, ' ');
    assert forall k :: 0 <= k < |parts| - 1 ==> parts[1..][k] == parts[k + 1];
  }

  /** The same, for a prefixed line: the tokens are those of its normalised command text. */
  lemma ParseLineTokens(line: string, prefix: string)
    requires StartsWith(Trim(line), prefix)
    ensures var text := CommandText(line, prefix);
      var i := IndexOf(text, ' ');
      var c := ParseLine(line, prefix).value;
      && c.raw == ToLower(text[..i])
      && (c.args == [] <==> i == |text|)
      && (i < |text| ==> Join(c.args, " ") == text[i + 1..])
      && (forall k :: 0 <= k < |text| ==> !IsDash(text[k]))
  {
    ParseTextTokens(CommandText(line, prefix));
  }

  /** `timezone`, `tz` and `timezone-edit`, in any letter case, all resolve to `timezone-edit`; nothing else does. */
  lemma TimezoneAliases(line: string, prefix: string)
    requires StartsWith(Trim(line), prefix)
    ensures var c := ParseLine(line, prefix).value;
      c.keyword == TimezoneEditKeyword <==> c.raw == "timezone" || c.raw == "tz" || c.raw == TimezoneEditKeyword
  {
  }

  // ---------------------------------------------------------------------
  // The switch

  /** The `switch` of `processSingleLine`: each keyword to its handler, anything else to `handleUnknownCommand`. */
  function Dispatch(w: World, sender: Sender, c: Command, nowMillis: nat, fault: Option<Fault>): (World, Outcome) {
    if c.keyword == StartKeyword then (w, Start(w.zones, sender, fault))
    else if c.keyword == CommandsKeyword then (w, Commands(w.zones, sender, fault))
    else if c.keyword == TugasTambahKeyword then AddTask(w, sender, c.args, nowMillis, fault)
    else if c.keyword == TugasKeyword then (w, ListTasks(w, sender, fault))
    else if c.keyword == TugasHapusKeyword then DeleteTask(w, sender, c.args, fault)
    else if c.keyword == TimezoneEditKeyword then
      var edited := EditTimezone(w.zones, sender, c.args, fault);
      (World(w.tables, edited.0), edited.1)
    else (w, Reply(UnknownCommand(c.raw)))
  }

  /** `processSingleLine`: a line without the prefix gives `null`, any other is parsed and dispatched. */
  function SingleLine(w: World, sender: Sender, line: string, prefix: string, nowMillis: nat, fault: Option<Fault>): (World, Outcome) {
    match ParseLine(line, prefix)
    case None => (w, Reply(None))
    case Some(c) => Dispatch(w, sender, c, nowMillis, fault)
  }

  /**
   * A keyword the switch does not know reaches `handleUnknownCommand` as typed
   * (lower-cased), changes nothing, and is never `tz` or `timezone`: those
   * were resolved before the switch, so that handler's own `tz` test never
   * fires on this path.
   */
  lemma UnknownKeyword(w: World, sender: Sender, line: string, prefix: string, nowMillis: nat, fault: Option<Fault>)
    requires ParseLine(line, prefix).Some? && !IsKeyword(ParseLine(line, prefix).value.keyword)
    ensures var c := ParseLine(line, prefix).value;
      && SingleLine(w, sender, line, prefix, nowMillis, fault) == (w, Reply(UnknownCommand(c.raw)))
      && c.raw == c.keyword && c.raw != "tz" && c.raw != "timezone"
      && (UnknownCommand(c.raw) == Some(TimezoneHint) <==> !StartsWith(c.raw, "tugas") && Contains(c.raw, "timezone"))
  {
  }

  /** Each of the six keywords reaches its own handler, with the arguments of the line. */
  lemma KeywordRoutes(w: World, sender: Sender, line: string, prefix: string, nowMillis: nat, fault: Option<Fault>)
    requires ParseLine(line, prefix).Some?
    ensures var c := ParseLine(line, prefix).value;
      var r := SingleLine(w, sender, line, prefix, nowMillis, fault);
      && (c.keyword == StartKeyword ==> r == (w, Start(w.zones, sender, fault)))
      && (c.keyword == CommandsKeyword ==> r == (w, Commands(w.zones, sender, fault)))
      && (c.keyword == TugasTambahKeyword ==> r == AddTask(w, sender, c.args, nowMillis, fault))
      && (c.keyword == TugasKeyword ==> r == (w, ListTasks(w, sender, fault)))
      && (c.keyword == TugasHapusKeyword ==> r == DeleteTask(w, sender, c.args, fault))
      && (c.keyword == TimezoneEditKeyword ==>
            r == (World(w.tables, EditTimezone(w.zones, sender, c.args, fault).0), EditTimezone(w.zones, sender, c.args, fault).1))
  {
  }

  // ---------------------------------------------------------------------
  // The line loop

  /**
   * An entry of `responses`: the reply of a line, or the error text of a line
   * whose handler threw. Replies are kept as the message they stand for;
   * `ResponseText` is the text pushed.
   */
  datatype Response = Text(message: Message) | LineError(line: string, reason: string)

  function ResponseText(r: Response): string {
    match r
    case Text(m) => Render(m)
    case LineError(line, reason) => "❌ Gagal memproses: " + line + "\nReason: " + reason
  }

  /** Every entry of `responses` is a non-empty text. */
  lemma ResponseTextNonEmpty(r: Response)
    ensures ResponseText(r) != []
  {
    if r.Text? {
      RenderNonEmpty(r.message);
    }
  }

  /**
   * What a prefixed line adds to `responses` and to `processedCount`: a thrown
   * error becomes the error entry and is not counted; a returned value is
   * counted, and kept when it is a reply (`if (response)`: no reply text is
   * empty, see `ResponseTextNonEmpty`).
   */
  function Collect(line: string, outcome: Outcome): (r: (seq<Response>, nat))
    ensures r.1 <= 1 && |r.0| <= 1
    ensures outcome.Thrown? <==> r.1 == 0
    ensures outcome.Thrown? ==> r.0 == [LineError(line, outcome.message)]
    ensures outcome.Reply? ==> (r.0 == if outcome.reply.Some? then [Text(outcome.reply.value)] else [])
  {
    match outcome
    case Thrown(reason) => ([LineError(line, reason)], 0)
    case Reply(reply) => (if reply.Some? then [Text(reply.value)] else [], 1)
  }

  /**
   * What the loop calls on each command line: `processSingleLine`, from a
   * stored state, a line and the storage fault the line meets, to the new
   * state and the outcome.
   */
  type LineHandler = (World, string, Option<Fault>) -> (World, Outcome)

  /** `processSingleLine` of one sender, prefix and clock. */
  function Handler(sender: Sender, prefix: string, nowMillis: nat): LineHandler {
    (w, line, fault) => SingleLine(w, sender, line, prefix, nowMillis, fault)
  }

  /** `handle` does what `processSingleLine` does, on every state, line and fault. */
  ghost predicate Handles(handle: LineHandler, sender: Sender, prefix: string, nowMillis: nat) {
    forall w, line, fault {:trigger SingleLine(w, sender, line, prefix, nowMillis, fault)} ::
      handle(w, line, fault) == SingleLine(w, sender, line, prefix, nowMillis, fault)
  }

  lemma HandlerHandles(sender: Sender, prefix: string, nowMillis: nat)
    ensures Handles(Handler(sender, prefix, nowMillis), sender, prefix, nowMillis)
  {
  }

  /**
   * Where the loop stands: the stored state, the entries of `responses` and
   * `processedCount`.
   */
  datatype Run = Run(world: World, responses: seq<Response>, count: nat)

  /** Nothing has run yet from state w. */
  function Idle(w: World): Run {
    Run(w, [], 0)
  }

  /** The run r followed by the run s that starts where r ended. */
  function Then(r: Run, s: Run): Run {
    Run(s.world, r.responses + s.responses, r.count + s.count)
  }

  /**
   * One pass of the loop body (lines 95-106) from state w: a line that is not
   * a command is skipped; a command line is handled and its result
   * collected, at most one entry and one count.
   */
  function LineStep(handle: LineHandler, w: World, line: string, prefix: string, fault: Option<Fault>): (r: Run)
    ensures r.count <= 1 && |r.responses| <= 1
    ensures !StartsWith(Trim(line), prefix) ==> r == Idle(w)
  {
    if !StartsWith(Trim(line), prefix) then Idle(w)
    else
      var handled := handle(w, line, fault);
      var collected := Collect(line, handled.1);
      Run(handled.0, collected.0, collected.1)
  }

  /** The loop after `lines`, from state w, line i meeting the storage fault `FaultAt(faults, i)`. */
  function RunLines(handle: LineHandler, w: World, lines: seq<string>, prefix: string,
                    faults: seq<Option<Fault>>): Run
  {
    if lines == [] then Idle(w)
    else
      var n := |lines| - 1;
      var before := RunLines(handle, w, lines[..n], prefix, faults);
      Then(before, LineStep(handle, before.world, lines[n], prefix, FaultAt(faults, n)))
  }

  /** One more line: the loop over `lines[..i + 1]` is the loop over `lines[..i]` and then line i. */
  lemma {:induction false} RunLinesStep(handle: LineHandler, w: World, lines: seq<string>, prefix: string,
                                        faults: seq<Option<Fault>>, i: nat)
    requires i < |lines|
    ensures var before := RunLines(handle, w, lines[..i], prefix, faults);
      RunLines(handle, w, lines[..i + 1], prefix, faults)
      == Then(before, LineStep(handle, before.world, lines[i], prefix, FaultAt(faults, i)))
  {
    assert lines[..i + 1][..i] == lines[..i];
  }

  lemma ThenAssociative(r: Run, s: Run, t: Run)
    ensures Then(Then(r, s), t) == Then(r, Then(s, t))
  {
    assert (r.responses + s.responses) + t.responses == r.responses + (s.responses + t.responses);
  }

  /** The faults as seen from line k on. */
  function ShiftFaults(faults: seq<Option<Fault>>, k: nat): (r: seq<Option<Fault>>)
    ensures forall i: nat :: FaultAt(r, i) == FaultAt(faults, k + i)
  {
    if k <= |faults| then faults[k..] else []
  }

  /** The storage error line i meets; lines past the end of the oracle meet none. */
  function FaultAt(faults: seq<Option<Fault>>, i: nat): Option<Fault> {
    if i < |faults| then faults[i] else None
  }

  /**
   * The lines of a message are handled one after the other: the loop over
   * `a + b` is the loop over `a`, then the loop over `b` from the state `a`
   * left. Whatever happened on the lines of `a`, a thrown error included, the
   * lines of `b` are processed all the same and their replies follow.
   */
  lemma {:induction false} RunLinesAppend(handle: LineHandler, w: World, a: seq<string>, b: seq<string>, prefix: string,
                                          faults: seq<Option<Fault>>)
    ensures var first := RunLines(handle, w, a, prefix, faults);
      RunLines(handle, w, a + b, prefix, faults)
      == Then(first, RunLines(handle, first.world, b, prefix, ShiftFaults(faults, |a|)))
    decreases |b|
  {
    var first := RunLines(handle, w, a, prefix, faults);
    if b == [] {
      assert a + b == a && first.responses + [] == first.responses;
    } else {
      var n := |b| - 1;
      var shifted := ShiftFaults(faults, |a|);
      RunLinesAppend(handle, w, a, b[..n], prefix, faults);
      LastOfAppend(a, b);
      var before := RunLines(handle, first.world, b[..n], prefix, shifted);
      var after := LineStep(handle, before.world, b[n], prefix, FaultAt(shifted, n));
      ThenAssociative(first, before, after);
    }
  }

  lemma LastOfAppend<T>(a: seq<T>, b: seq<T>)
    requires b != []
    ensures (a + b)[..|a + b| - 1] == a + b[..|b| - 1]
    ensures (a + b)[|a + b| - 1] == b[|b| - 1]
  {
  }

  /** At most one entry and one count per line. */
  lemma {:induction false} RunLinesBounds(handle: LineHandler, w: World, lines: seq<string>, prefix: string,
                                          faults: seq<Option<Fault>>)
    ensures var run := RunLines(handle, w, lines, prefix, faults);
      run.count <= |lines| && |run.responses| <= |lines|
    decreases |lines|
  {
    if lines != [] {
      RunLinesBounds(handle, w, lines[..|lines| - 1], prefix, faults);
    }
  }

  /** A message none of whose lines starts with the prefix changes nothing and answers nothing. */
  lemma {:induction false} RunLinesNoCommand(handle: LineHandler, w: World, lines: seq<string>, prefix: string,
                                             faults: seq<Option<Fault>>)
    requires forall k :: 0 <= k < |lines| ==> !StartsWith(Trim(lines[k]), prefix)
    ensures RunLines(handle, w, lines, prefix, faults) == Idle(w)
    decreases |lines|
  {
    if lines != [] {
      var n := |lines| - 1;
      RunLinesNoCommand(handle, w, lines[..n], prefix, faults);
      assert !StartsWith(Trim(lines[n]), prefix);
      var none: seq<Response> := [];
      assert none + none == none;
    }
  }

  // ---------------------------------------------------------------------
  // The sender and the webhook

  /** `s.replace(pattern, '')` with a string pattern: the first occurrence is removed. */
  function RemoveFirst(s: string, pattern: string): string
    decreases |s|
  {
    if StartsWith(s, pattern) then s[|pattern|..]
    else if s == [] then s
    else [s[0]] + RemoveFirst(s[1..], pattern)
  }

  /** A personal chat id `<number>@c.us` gives the number as the phone. */
  lemma {:induction false} PhoneOfPersonalChat(number: string)
    requires '@' !in number
    ensures RemoveFirst(number + "@c.us", "@c.us") == number
  {
    if number != [] {
      assert (number + "@c.us")[0] == number[0];
      assert !StartsWith(number + "@c.us", "@c.us");
      assert (number + "@c.us")[1..] == number[1..] + "@c.us";
      PhoneOfPersonalChat(number[1..]);
    }
  }

  /** Without an occurrence the id is kept whole: a group id `...@g.us` is its own "phone". */
  lemma {:induction false} RemoveAbsent(s: string, pattern: string)
    requires !Contains(s, pattern)
    ensures RemoveFirst(s, pattern) == s
    decreases |s|
  {
    if s != [] {
      RemoveAbsent(s[1..], pattern);
    }
  }

  /** `message` of the payload: `from` and `body`, each possibly absent. */
  datatype Payload = Payload(from: Option<string>, body: Option<string>)

  /** The request body: `event` and `payload`, each possibly absent. */
  datatype Request = Request(event: Option<string>, payload: Option<Payload>)

  /**
   * The HTTP answer. `Processed` is 200 with `count` and the sender's phone,
   * `Failed` is 500; the others are 200 with their fixed message.
   */
  datatype Status = NoEventData | EventIgnored | NoTextMessage | NotACommand | Processed(count: nat, phone: string) | Failed

  const Divider: string := "\n\n─────────────────────\n\n"

  const Apology: string := "❌ Maaf, terjadi kesalahan saat memproses permintaan kamu."

  /** The texts of the entries, in order. */
  function Texts(responses: seq<Response>): seq<string> {
    seq(|responses|, k requires 0 <= k < |responses| => ResponseText(responses[k]))
  }

  /** `senderOf`: the chat id, and the phone taken from it. */
  function SenderOf(from: string): Sender {
    Sender(from, RemoveFirst(from, "@c.us"))
  }

  /**
   * Lines 109-126 and the `catch` of the middleware, after the loop: the
   * HTTP answer and the gateway calls (chat id, text), in order. When the send
   * throws, the apology goes to a truthy `payload.from` and the answer is 500.
   */
  function Finish(from: string, responses: seq<Response>, processedCount: nat, sendOk: bool): (Status, seq<(string, string)>) {
    if processedCount == 0 then (NotACommand, [])
    else if responses == [] then (Processed(processedCount, SenderOf(from).phone), [])
    else
      var reply := (from, Join(Texts(responses), Divider));
      if sendOk then (Processed(processedCount, SenderOf(from).phone), [reply])
      else (Failed, [reply] + (if from != [] then [(from, Apology)] else []))
  }

  /** The answer to a message event with text, from a known sender: run the lines, then send the joined replies. */
  function Answer(w: World, from: string, body: string, prefix: string, nowMillis: nat,
                  faults: seq<Option<Fault>>, sendOk: bool): (World, Status, seq<(string, string)>)
  {
    var run := RunLines(Handler(SenderOf(from), prefix, nowMillis), w, Split(Trim(body), '\n'), prefix, faults);
    var finished := Finish(from, run.responses, run.count, sendOk);
    (run.world, finished.0, finished.1)
  }

  /**
   * `commandProcessor`: the new stored state, the HTTP answer, and the
   * messages handed to the gateway (chat id, text), in order. A payload
   * without `from` fails when the sender is built and, `from` being falsy,
   * gets no apology.
   */
  function Webhook(w: World, req: Option<Request>, env: Option<string>, nowMillis: nat,
                   faults: seq<Option<Fault>>, sendOk: bool): (World, Status, seq<(string, string)>)
  {
    if req.None? || req.value.event.None? || req.value.event.value == [] then (w, NoEventData, [])
    else if req.value.event.value != "message" then (w, EventIgnored, [])
    else if req.value.payload.None? || req.value.payload.value.body.None? || Trim(req.value.payload.value.body.value) == []
    then (w, NoTextMessage, [])
    else if req.value.payload.value.from.None? then (w, Failed, [])
    else Answer(w, req.value.payload.value.from.value, req.value.payload.value.body.value, Prefix(env),
                nowMillis, faults, sendOk)
  }

  /**
   * What reaches the chat: nothing when no line was counted (even if error
   * texts were collected) or when there is nothing to say; otherwise exactly
   * one message with all replies joined by the divider, followed by the
   * apology only when the gateway refused it.
   */
  lemma FinishSends(from: string, responses: seq<Response>, count: nat, sendOk: bool)
    ensures var (status, sends) := Finish(from, responses, count, sendOk);
      && (count == 0 ==> status == NotACommand && sends == [])
      && (count > 0 && responses == [] ==> status.Processed? && sends == [])
      && (count > 0 && responses != [] ==>
            && 1 <= |sends| <= 2
            && sends[0] == (from, Join(Texts(responses), Divider))
            && (sendOk <==> status.Processed?)
            && (sendOk ==> |sends| == 1)
            && (!sendOk ==> status == Failed && (|sends| == 2 <==> from != []) && (|sends| == 2 ==> sends[1] == (from, Apology))))
      && (status.Processed? ==> status.count == count && status.phone == RemoveFirst(from, "@c.us"))
  {
  }

  /** Events that are not a text message answer 200 without touching anything or sending anything. */
  lemma WebhookIgnores(w: World, req: Option<Request>, env: Option<string>, nowMillis: nat,
                       faults: seq<Option<Fault>>, sendOk: bool)
    requires req.Some? && req.value.event.Some? && req.value.event.value != "message"
    ensures Webhook(w, req, env, nowMillis, faults, sendOk) == (w, if req.value.event.value == [] then NoEventData else EventIgnored, [])
  {
  }

  // ---------------------------------------------------------------------
  // The middleware on the store objects

  /** `processSingleLine` on the store objects. */
  method ProcessSingleLine(store: ScheduleStore, settings: SettingsTable, line: string, sender: Sender,
                           prefix: string, nowMillis: nat, fault: Option<Fault>)
    returns (outcome: Outcome)
    requires store.Valid()
    modifies store, settings
    ensures store.Valid()
    ensures (World(store.Contents(), settings.rows), outcome)
         == SingleLine(World(old(store.Contents()), old(settings.rows)), sender, line, prefix, nowMillis, fault)
  {
    var parsed := ParseLine(line, prefix);
    if parsed.None? {
      return Reply(None);
    }
    var c := parsed.value;
    var resolvedCommand, rawCommand, args := c.keyword, c.raw, c.args;
    if resolvedCommand == StartKeyword {
      outcome := HandleStart(settings, sender, args, fault);
    } else if resolvedCommand == CommandsKeyword {
      outcome := HandleCommands(settings, sender, args, fault);
    } else if resolvedCommand == TugasTambahKeyword {
      outcome := HandleTugasTambah(store, settings, sender, args, nowMillis, fault);
    } else if resolvedCommand == TugasKeyword {
      outcome := HandleTugas(store, settings, sender, args, fault);
    } else if resolvedCommand == TugasHapusKeyword {
      outcome := HandleTugasHapus(store, settings, sender, args, fault);
    } else if resolvedCommand == TimezoneEditKeyword {
      outcome := HandleTimezoneEdit(settings, sender, args, fault);
    } else {
      outcome := Reply(UnknownCommand(rawCommand));
    }
  }

  /**
   * One pass of the loop body (lines 95-106): a line without the prefix is
   * skipped; otherwise its reply, if any, is collected and the line counted,
   * or the error text is collected and the line not counted.
   */
  method RunLine(store: ScheduleStore, settings: SettingsTable, sender: Sender, line: string,
                 prefix: string, nowMillis: nat, fault: Option<Fault>, ghost handle: LineHandler)
    returns (added: seq<Response>, counted: nat)
    requires store.Valid()
    requires Handles(handle, sender, prefix, nowMillis)
    modifies store, settings
    ensures store.Valid()
    ensures Run(World(store.Contents(), settings.rows), added, counted)
         == LineStep(handle, World(old(store.Contents()), old(settings.rows)), line, prefix, fault)
  {
    added, counted := [], 0;
    if !StartsWith(Trim(line), prefix) {
      return;
    }
    var outcome := ProcessSingleLine(store, settings, line, sender, prefix, nowMillis, fault);
    match outcome {
      case Thrown(reason) =>
        added := [LineError(line, reason)];
      case Reply(response) =>
        if response.Some? {
          added := [Text(response.value)];
        }
        counted := 1;
    }
  }

  /**
   * The `for` loop over the lines, with `responses` and `processedCount`;
   * `handle` stands for `processSingleLine` of this sender, prefix and clock.
   */
  method MessageLoop(store: ScheduleStore, settings: SettingsTable, sender: Sender, lines: seq<string>,
                     prefix: string, nowMillis: nat, faults: seq<Option<Fault>>, ghost handle: LineHandler)
    returns (responses: seq<Response>, processedCount: nat)
    requires store.Valid()
    requires Handles(handle, sender, prefix, nowMillis)
    modifies store, settings
    ensures store.Valid()
    ensures Run(World(store.Contents(), settings.rows), responses, processedCount)
         == RunLines(handle, World(old(store.Contents()), old(settings.rows)), lines, prefix, faults)
  {
    ghost var w0 := World(store.Contents(), settings.rows);
    responses := [];
    processedCount := 0;
    var i := 0;
    while i < |lines|
      invariant 0 <= i <= |lines|
      invariant store.Valid()
      invariant Run(World(store.Contents(), settings.rows), responses, processedCount)
             == RunLines(handle, w0, lines[..i], prefix, faults)
    {
      RunLinesStep(handle, w0, lines, prefix, faults, i);
      var added, counted := RunLine(store, settings, sender, lines[i], prefix, nowMillis, FaultAt(faults, i), handle);
      responses := responses + added;
      processedCount := processedCount + counted;
      i := i + 1;
    }
    assert lines[..i] == lines;
  }

  method HandleWebhook(store: ScheduleStore, settings: SettingsTable, req: Option<Request>, env: Option<string>,
                       nowMillis: nat, faults: seq<Option<Fault>>, sendOk: bool)
    returns (status: Status, sends: seq<(string, string)>)
    requires store.Valid()
    modifies store, settings
    ensures store.Valid()
    ensures (World(store.Contents(), settings.rows), status, sends)
         == Webhook(World(old(store.Contents()), old(settings.rows)), req, env, nowMillis, faults, sendOk)
  {
    sends := [];
    if req.None? || req.value.event.None? || req.value.event.value == [] {
      return NoEventData, sends;
    }
    if req.value.event.value != "message" {
      return EventIgnored, sends;
    }
    var message := req.value.payload;
    if message.None? || message.value.body.None? || Trim(message.value.body.value) == [] {
      return NoTextMessage, sends;
    }
    var messageBody := Trim(message.value.body.value);
    var prefix := Prefix(env);
    if message.value.from.None? {
      // `message.from.replace` throws; `payload.from` is falsy, so no apology
      return Failed, sends;
    }
    var from := message.value.from.value;
    var sender := SenderOf(from);
    var lines := Split(messageBody, '\n');
    HandlerHandles(sender, prefix, nowMillis);
    var responses, processedCount := MessageLoop(store, settings, sender, lines, prefix, nowMillis, faults,
                                                 Handler(sender, prefix, nowMillis));
    status, sends := SendReplies(from, responses, processedCount, sendOk);
  }

  /** Lines 109-126 and the `catch`: the answer and the gateway calls once the loop is done. */
  method SendReplies(from: string, responses: seq<Response>, processedCount: nat, sendOk: bool)
    returns (status: Status, sends: seq<(string, string)>)
    ensures (status, sends) == Finish(from, responses, processedCount, sendOk)
  {
    sends := [];
    var sender := SenderOf(from);
    if processedCount == 0 {
      return NotACommand, sends;
    }
    if |responses| > 0 {
      var finalResponse := Join(Texts(responses), Divider);
      sends := [(sender.chatId, finalResponse)];
      if !sendOk {
        // the send threw: the `catch` apologises to a truthy `payload.from`
        var apology: seq<(string, string)> := if from != [] then [(from, Apology)] else [];
        sends := sends + apology;
        return Failed, sends;
      }
    }
    return Processed(processedCount, sender.phone), sends;
  }
}
