/**
 * The three timestamp texts the bot reads and writes, each a fixed layout of
 * zero-padded decimal fields:
 *   - the stored form `YYYY-MM-DD HH:mm:ss` of the `schedule_datetime` and
 *     `reminder_datetime` columns (always UTC, seconds always `00`);
 *   - the entered form `DD-MM-YYYY HH:mm`, parsed strictly;
 *   - the displayed forms `DD/MM/YYYY HH:mm`, `DD/MM/YYYY` and `HH:mm`.
 * The stored form comes with its parser, a round trip, and the fact that
 * SQLite's text comparison on it is chronological order.
 */
module Stamps {
  import opened Wrappers
  import opened Text
  import opened Civil

  predicate IsDigit(c: char) {
    '0' <= c <= '9'
  }

  predicate AllDigits(s: string) {
    forall k :: 0 <= k < |s| ==> IsDigit(s[k])
  }

  function DigitChar(d: nat): (c: char)
    requires d < 10
    ensures IsDigit(c) && c as int - 48 == d
  {
    (48 + d) as char
  }

  function Pow10(w: nat): (p: nat)
    ensures p >= 1
  {
    if w == 0 then 1 else 10 * Pow10(w - 1)
  }

  /** The last w decimal digits of n, most significant first. */
  function Digits(n: nat, w: nat): (s: string)
    ensures |s| == w && AllDigits(s)
  {
    if w == 0 then "" else Digits(n / 10, w - 1) + [DigitChar(n % 10)]
  }

  /** The number of decimal digits of n (0 has one). */
  function DigitCount(n: nat): (k: nat)
    ensures k >= 1 && n < Pow10(k)
  {
    if n < 10 then 1 else 1 + DigitCount(n / 10)
  }

  /** moment's zero fill: at least w digits, more when n needs them, never truncated. */
  function ZeroPad(n: nat, w: nat): string {
    Digits(n, if DigitCount(n) > w then DigitCount(n) else w)
  }

  /** The number a string of decimal digits denotes. */
  function DigitsValue(s: string): nat
    requires AllDigits(s)
  {
    if s == [] then 0 else DigitsValue(s[..|s| - 1]) * 10 + (s[|s| - 1] as int - 48)
  }

  lemma {:induction false} DigitsValueOfDigits(n: nat, w: nat)
    requires n < Pow10(w)
    ensures DigitsValue(Digits(n, w)) == n
  {
    if w > 0 {
      var s := Digits(n, w);
      assert s[..|s| - 1] == Digits(n / 10, w - 1);
      DigitsValueOfDigits(n / 10, w - 1);
    }
  }

  lemma {:induction false} DigitsOfValue(s: string)
    requires AllDigits(s)
    ensures DigitsValue(s) < Pow10(|s|)
    ensures Digits(DigitsValue(s), |s|) == s
  {
    if s != [] {
      var p := s[..|s| - 1];
      DigitsOfValue(p);
      var v := DigitsValue(s);
      assert v / 10 == DigitsValue(p) && v % 10 == s[|s| - 1] as int - 48;
      assert s == p + [s[|s| - 1]];
    }
  }

  lemma {:induction false} DigitCountFits(n: nat, w: nat)
    requires w >= 1 && n < Pow10(w)
    ensures DigitCount(n) <= w
  {
    if n >= 10 {
      assert w > 1 && Pow10(w) == 10 * Pow10(w - 1);
      assert n / 10 < Pow10(w - 1);
      DigitCountFits(n / 10, w - 1);
    }
  }

  /** A number below 10^w is zero-filled to exactly w digits, and reading them back gives the number. */
  lemma ZeroPadExact(n: nat, w: nat)
    requires w >= 1 && n < Pow10(w)
    ensures ZeroPad(n, w) == Digits(n, w)
    ensures DigitsValue(ZeroPad(n, w)) == n
  {
    DigitCountFits(n, w);
    DigitsValueOfDigits(n, w);
  }

  /** Equal-length digit strings compare in text order exactly as their values compare. */
  lemma {:induction false} DigitsLexOrder(s: string, t: string)
    requires AllDigits(s) && AllDigits(t) && |s| == |t|
    ensures LexLess(s, t) <==> DigitsValue(s) < DigitsValue(t)
    ensures s == t <==> DigitsValue(s) == DigitsValue(t)
    decreases |s|
  {
    if s != [] {
      var p, q := s[..|s| - 1], t[..|t| - 1];
      DigitsLexOrder(p, q);
      assert s == p + [s[|s| - 1]] && t == q + [t[|t| - 1]];
      LexConcat(p, [s[|s| - 1]], q, [t[|t| - 1]]);
      if p == q && s != t {
        assert s[|s| - 1] != t[|t| - 1];
      }
    }
  }

  lemma DigitsOrder(a: nat, b: nat, w: nat)
    requires a < Pow10(w) && b < Pow10(w)
    ensures LexLess(Digits(a, w), Digits(b, w)) <==> a < b
    ensures Digits(a, w) == Digits(b, w) <==> a == b
  {
    DigitsValueOfDigits(a, w);
    DigitsValueOfDigits(b, w);
    DigitsLexOrder(Digits(a, w), Digits(b, w));
  }

  /** One layer of a fixed layout: an equal-width prefix, a common separator, an equal-width field. */
  lemma LayoutStep(p1: string, f1: string, p2: string, f2: string, sep: string)
    requires |p1| == |p2| && |f1| == |f2|
    ensures LexLess(p1 + sep + f1, p2 + sep + f2) <==> LexLess(p1, p2) || (p1 == p2 && LexLess(f1, f2))
    ensures p1 + sep + f1 == p2 + sep + f2 <==> p1 == p2 && f1 == f2
  {
    LexConcat(p1 + sep, f1, p2 + sep, f2);
    LexConcat(p1, sep, p2, sep);
    LexLessIrreflexive(sep);
    if p1 + sep == p2 + sep {
      assert p1 == (p1 + sep)[..|p1|] && p2 == (p2 + sep)[..|p2|];
    }
    LayoutEqual(p1, f1, p2, f2, sep);
  }

  lemma LayoutEqual(p1: string, f1: string, p2: string, f2: string, sep: string)
    requires |p1| == |p2| && |f1| == |f2|
    ensures p1 + sep + f1 == p2 + sep + f2 <==> p1 == p2 && f1 == f2
  {
    var x, y := p1 + sep + f1, p2 + sep + f2;
    if x == y {
      assert p1 == x[..|p1|] && p2 == y[..|p2|];
      assert f1 == x[|p1| + |sep|..] && f2 == y[|p2| + |sep|..];
    }
  }

  /** A prefix of a string is a shorter prefix followed by the slice between them. */
  lemma TakeStep(s: string, i: nat, j: nat)
    requires i <= j <= |s|
    ensures s[..j] == s[..i] + s[i..j]
  {
  }

  // ---------------------------------------------------------------------
  // The stored form YYYY-MM-DD HH:mm:ss

  /** The stored layout with its five fields given as texts. */
  function StoredLayout(y: string, mo: string, d: string, h: string, mi: string): string {
    y + "-" + mo + "-" + d + " " + h + ":" + mi + ":00"
  }

  /** Where each field of the stored layout sits, for fields of widths 4, 2, 2, 2, 2. */
  lemma StoredLayoutFields(y: string, mo: string, d: string, h: string, mi: string)
    requires |y| == 4 && |mo| == 2 && |d| == 2 && |h| == 2 && |mi| == 2
    ensures var s := StoredLayout(y, mo, d, h, mi);
      && |s| == 19
      && s[..4] == y && s[4] == '-' && s[5..7] == mo && s[7] == '-' && s[8..10] == d && s[10] == ' '
      && s[11..13] == h && s[13] == ':' && s[14..16] == mi && s[16] == ':' && s[17..] == "00"
  {
    var p1 := y + "-";
    var p2 := p1 + mo;
    var p3 := p2 + "-";
    var p4 := p3 + d;
    var p5 := p4 + " ";
    var p6 := p5 + h;
    var p7 := p6 + ":";
    var p8 := p7 + mi;
    var s := p8 + ":00";
    assert s[..16] == p8 && p8[..14] == p7 && p7[..13] == p6 && p6[..11] == p5;
    assert p5[..10] == p4 && p4[..8] == p3 && p3[..7] == p2 && p2[..5] == p1 && p1[..4] == y;
    assert s[14..16] == p8[14..] == mi;
    assert s[11..13] == p6[11..] == h;
    assert s[8..10] == p4[8..] == d;
    assert s[5..7] == p2[5..] == mo;
  }

  /** A text with the separators of the stored layout is that layout of its own fields. */
  lemma StoredLayoutOfText(s: string)
    requires |s| == 19 && s[4] == '-' && s[7] == '-' && s[10] == ' ' && s[13] == ':' && s[16] == ':'
    requires s[17..] == "00"
    ensures s == StoredLayout(s[..4], s[5..7], s[8..10], s[11..13], s[14..16])
  {
    TakeStep(s, 4, 5);   assert s[4..5] == "-";
    TakeStep(s, 5, 7);
    TakeStep(s, 7, 8);   assert s[7..8] == "-";
    TakeStep(s, 8, 10);
    TakeStep(s, 10, 11); assert s[10..11] == " ";
    TakeStep(s, 11, 13);
    TakeStep(s, 13, 14); assert s[13..14] == ":";
    TakeStep(s, 14, 16);
    TakeStep(s, 16, 19); assert s[16..19] == ":00";
    assert s == s[..19];
  }

  /** Two stored layouts compare field by field, most significant first. */
  lemma StoredLayoutOrder(y1: string, mo1: string, d1: string, h1: string, mi1: string,
                          y2: string, mo2: string, d2: string, h2: string, mi2: string)
    requires |y1| == |y2| && |mo1| == |mo2| && |d1| == |d2| && |h1| == |h2| && |mi1| == |mi2|
    ensures LexLess(StoredLayout(y1, mo1, d1, h1, mi1), StoredLayout(y2, mo2, d2, h2, mi2)) <==>
      LexLess(y1, y2)
      || (y1 == y2 && LexLess(mo1, mo2))
      || (y1 == y2 && mo1 == mo2 && LexLess(d1, d2))
      || (y1 == y2 && mo1 == mo2 && d1 == d2 && LexLess(h1, h2))
      || (y1 == y2 && mo1 == mo2 && d1 == d2 && h1 == h2 && LexLess(mi1, mi2))
  {
    var p1, p2 := y1 + "-" + mo1, y2 + "-" + mo2;
    LayoutStep(y1, mo1, y2, mo2, "-");
    var q1, q2 := p1 + "-" + d1, p2 + "-" + d2;
    LayoutStep(p1, d1, p2, d2, "-");
    var r1, r2 := q1 + " " + h1, q2 + " " + h2;
    LayoutStep(q1, h1, q2, h2, " ");
    var u1, u2 := r1 + ":" + mi1, r2 + ":" + mi2;
    LayoutStep(r1, mi1, r2, mi2, ":");
    LexConcat(u1, ":00", u2, ":00");
    LexLessIrreflexive(":00");
  }

  /** `format('YYYY-MM-DD HH:mm:ss')` of a wall-clock reading at minute precision. */
  function RenderStored(t: DateTime): string {
    StoredLayout(ZeroPad(t.date.year, 4), ZeroPad(t.date.month, 2), ZeroPad(t.date.day, 2),
                 ZeroPad(t.hour, 2), ZeroPad(t.minute, 2))
  }

  /** The column text of a UTC instant. */
  function StoredText(t: Instant): string {
    RenderStored(FromInstant(t))
  }

  /** Reads a column text back; `None` for anything that is not the stored layout of a real instant. */
  function ParseStored(s: string): Option<Instant> {
    if |s| == 19 && s[4] == '-' && s[7] == '-' && s[10] == ' ' && s[13] == ':' && s[16] == ':'
       && AllDigits(s[..4]) && AllDigits(s[5..7]) && AllDigits(s[8..10])
       && AllDigits(s[11..13]) && AllDigits(s[14..16]) && s[17..] == "00"
    then
      var t := DateTime(Date(DigitsValue(s[..4]), DigitsValue(s[5..7]), DigitsValue(s[8..10])),
                        DigitsValue(s[11..13]), DigitsValue(s[14..16]));
      if ValidDateTime(t) then Some(ToInstant(t)) else None
    else None
  }

  predicate FourDigitYear(t: DateTime) {
    t.date.year < 10000
  }

  /** Within years 0000-9999 no field overflows its width: the stored text is the layout of the plain digits. */
  lemma RenderStoredDigits(t: DateTime)
    requires ValidDateTime(t) && FourDigitYear(t)
    ensures RenderStored(t) == StoredLayout(Digits(t.date.year, 4), Digits(t.date.month, 2), Digits(t.date.day, 2),
                                            Digits(t.hour, 2), Digits(t.minute, 2))
  {
    ZeroPadExact(t.date.year, 4);
    ZeroPadExact(t.date.month, 2);
    ZeroPadExact(t.date.day, 2);
    ZeroPadExact(t.hour, 2);
    ZeroPadExact(t.minute, 2);
  }

  lemma RenderStoredFields(t: DateTime)
    requires ValidDateTime(t) && FourDigitYear(t)
    ensures var s := RenderStored(t);
      && |s| == 19
      && s[..4] == Digits(t.date.year, 4) && s[4] == '-'
      && s[5..7] == Digits(t.date.month, 2) && s[7] == '-'
      && s[8..10] == Digits(t.date.day, 2) && s[10] == ' '
      && s[11..13] == Digits(t.hour, 2) && s[13] == ':'
      && s[14..16] == Digits(t.minute, 2) && s[16] == ':'
      && s[17..] == "00"
  {
    RenderStoredDigits(t);
    StoredLayoutFields(Digits(t.date.year, 4), Digits(t.date.month, 2), Digits(t.date.day, 2),
                       Digits(t.hour, 2), Digits(t.minute, 2));
  }

  /** The parser reads a rendered reading back as the instant it denotes. */
  lemma ParseRenderStored(dt: DateTime)
    requires ValidDateTime(dt) && FourDigitYear(dt)
    ensures ParseStored(RenderStored(dt)) == Some(ToInstant(dt))
  {
    RenderStoredFields(dt);
    DigitsValueOfDigits(dt.date.year, 4);
    DigitsValueOfDigits(dt.date.month, 2);
    DigitsValueOfDigits(dt.date.day, 2);
    DigitsValueOfDigits(dt.hour, 2);
    DigitsValueOfDigits(dt.minute, 2);
  }

  /** Reading the stored text of an instant in years 0000-9999 gives the instant back. */
  lemma ParseStoredText(t: Instant)
    requires t < EndOfYear9999
    ensures ParseStored(StoredText(t)) == Some(t)
  {
    FourDigitYears(t);
    ParseRenderStored(FromInstant(t));
    ToFromInstant(t);
  }

  /** A field of digits, zero-filled to its own width, is itself. */
  lemma ZeroPadOfValue(s: string)
    requires AllDigits(s) && |s| >= 1
    ensures ZeroPad(DigitsValue(s), |s|) == s
  {
    DigitsOfValue(s);
    ZeroPadExact(DigitsValue(s), |s|);
  }

  /** Whatever the parser accepts is exactly the stored text of the instant it returns. */
  lemma StoredTextOfParsed(s: string)
    requires ParseStored(s).Some?
    ensures ParseStored(s).value < EndOfYear9999
    ensures StoredText(ParseStored(s).value) == s
  {
    var dt := DateTime(Date(DigitsValue(s[..4]), DigitsValue(s[5..7]), DigitsValue(s[8..10])),
                       DigitsValue(s[11..13]), DigitsValue(s[14..16]));
    DigitsOfValue(s[..4]);
    FromToInstant(dt);
    FourDigitYears(ToInstant(dt));
    ZeroPadOfValue(s[..4]);
    ZeroPadOfValue(s[5..7]);
    ZeroPadOfValue(s[8..10]);
    ZeroPadOfValue(s[11..13]);
    ZeroPadOfValue(s[14..16]);
    StoredLayoutOfText(s);
  }

  /** On stored texts, SQLite's `<` is calendar order of the readings. */
  lemma RenderStoredOrder(a: DateTime, b: DateTime)
    requires ValidDateTime(a) && ValidDateTime(b) && FourDigitYear(a) && FourDigitYear(b)
    ensures LexLess(RenderStored(a), RenderStored(b)) <==> DateTimeBefore(a, b)
  {
    RenderStoredDigits(a);
    RenderStoredDigits(b);
    DigitsOrder(a.date.year, b.date.year, 4);
    DigitsOrder(a.date.month, b.date.month, 2);
    DigitsOrder(a.date.day, b.date.day, 2);
    DigitsOrder(a.hour, b.hour, 2);
    DigitsOrder(a.minute, b.minute, 2);
    StoredLayoutOrder(Digits(a.date.year, 4), Digits(a.date.month, 2), Digits(a.date.day, 2),
                      Digits(a.hour, 2), Digits(a.minute, 2),
                      Digits(b.date.year, 4), Digits(b.date.month, 2), Digits(b.date.day, 2),
                      Digits(b.hour, 2), Digits(b.minute, 2));
  }

  /** Different instants of years 0000-9999 have different column texts. */
  lemma StoredTextInjective(t1: Instant, t2: Instant)
    requires t1 < EndOfYear9999 && t2 < EndOfYear9999
    ensures StoredText(t1) == StoredText(t2) <==> t1 == t2
  {
    ParseStoredText(t1);
    ParseStoredText(t2);
  }

  /** Text order of column texts is order of the instants. */
  lemma StoredTextLess(t1: Instant, t2: Instant)
    requires t1 < EndOfYear9999 && t2 < EndOfYear9999
    ensures LexLess(StoredText(t1), StoredText(t2)) <==> t1 < t2
  {
    var a, b := FromInstant(t1), FromInstant(t2);
    FourDigitYears(t1);
    FourDigitYears(t2);
    RenderStoredOrder(a, b);
    DateTimeOrderIsInstantOrder(a, b);
    ToFromInstant(t1);
    ToFromInstant(t2);
  }

  /**
   * For instants in years 0000-9999, comparing their column texts with
   * SQLite's `<` and `<=` is comparing the instants: `ORDER BY` on the column
   * is chronological and `reminder_datetime <= now` means "not later than now".
   */
  lemma StoredTextOrder(t1: Instant, t2: Instant)
    requires t1 < EndOfYear9999 && t2 < EndOfYear9999
    ensures LexLess(StoredText(t1), StoredText(t2)) <==> t1 < t2
    ensures (LexLess(StoredText(t1), StoredText(t2)) || StoredText(t1) == StoredText(t2)) <==> t1 <= t2
  {
    StoredTextLess(t1, t2);
    StoredTextInjective(t1, t2);
  }

  // ---------------------------------------------------------------------
  // The entered form DD-MM-YYYY HH:mm

  /** The entered layout with its five fields given as texts. */
  function EnteredLayout(d: string, mo: string, y: string, h: string, mi: string): string {
    d + "-" + mo + "-" + y + " " + h + ":" + mi
  }

  /** Where each field of the entered layout sits, for fields of widths 2, 2, 4, 2, 2. */
  lemma EnteredLayoutFields(d: string, mo: string, y: string, h: string, mi: string)
    requires |d| == 2 && |mo| == 2 && |y| == 4 && |h| == 2 && |mi| == 2
    ensures var s := EnteredLayout(d, mo, y, h, mi);
      && |s| == 16
      && s[..2] == d && s[2] == '-' && s[3..5] == mo && s[5] == '-' && s[6..10] == y && s[10] == ' '
      && s[11..13] == h && s[13] == ':' && s[14..] == mi
  {
    var p1 := d + "-";
    var p2 := p1 + mo;
    var p3 := p2 + "-";
    var p4 := p3 + y;
    var p5 := p4 + " ";
    var p6 := p5 + h;
    var p7 := p6 + ":";
    var s := p7 + mi;
    assert s[..14] == p7 && p7[..13] == p6 && p6[..11] == p5;
    assert p5[..10] == p4 && p4[..6] == p3 && p3[..5] == p2 && p2[..3] == p1 && p1[..2] == d;
    assert s[11..13] == p6[11..] == h;
    assert s[6..10] == p4[6..] == y;
    assert s[3..5] == p2[3..] == mo;
  }

  /** A text with the separators of the entered layout is that layout of its own fields. */
  lemma EnteredLayoutOfText(s: string)
    requires |s| == 16 && s[2] == '-' && s[5] == '-' && s[10] == ' ' && s[13] == ':'
    ensures s == EnteredLayout(s[..2], s[3..5], s[6..10], s[11..13], s[14..])
  {
    TakeStep(s, 2, 3);   assert s[2..3] == "-";
    TakeStep(s, 3, 5);
    TakeStep(s, 5, 6);   assert s[5..6] == "-";
    TakeStep(s, 6, 10);
    TakeStep(s, 10, 11); assert s[10..11] == " ";
    TakeStep(s, 11, 13);
    TakeStep(s, 13, 14); assert s[13..14] == ":";
    TakeStep(s, 14, 16);
    assert s == s[..16] && s[14..] == s[14..16];
  }

  /** `format('DD-MM-YYYY HH:mm')`: the layout users type. */
  function RenderEntered(t: DateTime): string {
    EnteredLayout(ZeroPad(t.date.day, 2), ZeroPad(t.date.month, 2), ZeroPad(t.date.year, 4),
                  ZeroPad(t.hour, 2), ZeroPad(t.minute, 2))
  }

  /**
   * `moment(s, 'DD-MM-YYYY HH:mm', true)`: strict parsing. Exactly 16
   * characters, 2/2/4/2/2 ASCII digits with the separators in place, a month
   * of 1-12, a day within that month, hour below 24 and minute below 60.
   */
  function ParseEntered(s: string): (r: Option<DateTime>)
    ensures r.Some? ==> ValidDateTime(r.value)
  {
    if |s| == 16 && s[2] == '-' && s[5] == '-' && s[10] == ' ' && s[13] == ':'
       && AllDigits(s[..2]) && AllDigits(s[3..5]) && AllDigits(s[6..10])
       && AllDigits(s[11..13]) && AllDigits(s[14..])
    then
      var t := DateTime(Date(DigitsValue(s[6..10]), DigitsValue(s[3..5]), DigitsValue(s[..2])),
                        DigitsValue(s[11..13]), DigitsValue(s[14..]));
      if ValidDateTime(t) then Some(t) else None
    else None
  }

  lemma RenderEnteredFields(t: DateTime)
    requires ValidDateTime(t) && FourDigitYear(t)
    ensures var s := RenderEntered(t);
      && |s| == 16
      && s[..2] == Digits(t.date.day, 2) && s[2] == '-'
      && s[3..5] == Digits(t.date.month, 2) && s[5] == '-'
      && s[6..10] == Digits(t.date.year, 4) && s[10] == ' '
      && s[11..13] == Digits(t.hour, 2) && s[13] == ':'
      && s[14..] == Digits(t.minute, 2)
  {
    ZeroPadExact(t.date.year, 4);
    ZeroPadExact(t.date.month, 2);
    ZeroPadExact(t.date.day, 2);
    ZeroPadExact(t.hour, 2);
    ZeroPadExact(t.minute, 2);
    EnteredLayoutFields(Digits(t.date.day, 2), Digits(t.date.month, 2), Digits(t.date.year, 4),
                        Digits(t.hour, 2), Digits(t.minute, 2));
  }

  /** Every valid reading with a four-digit year is accepted in its own layout. */
  lemma ParseEnteredComplete(t: DateTime)
    requires ValidDateTime(t) && FourDigitYear(t)
    ensures ParseEntered(RenderEntered(t)) == Some(t)
  {
    RenderEnteredFields(t);
    ZeroPadExact(t.date.year, 4);
    ZeroPadExact(t.date.month, 2);
    ZeroPadExact(t.date.day, 2);
    ZeroPadExact(t.hour, 2);
    ZeroPadExact(t.minute, 2);
  }

  /** The strict parser accepts nothing but the exact layout of the reading it returns. */
  lemma ParseEnteredSound(s: string)
    requires ParseEntered(s).Some?
    ensures ValidDateTime(ParseEntered(s).value) && FourDigitYear(ParseEntered(s).value)
    ensures RenderEntered(ParseEntered(s).value) == s
  {
    DigitsOfValue(s[6..10]);
    ZeroPadOfValue(s[..2]);
    ZeroPadOfValue(s[3..5]);
    ZeroPadOfValue(s[6..10]);
    ZeroPadOfValue(s[11..13]);
    ZeroPadOfValue(s[14..]);
    EnteredLayoutOfText(s);
  }

  // ---------------------------------------------------------------------
  // The displayed forms

  /** `format('DD/MM/YYYY')`: the day heading of the task list. */
  function DateKey(d: Date): string {
    ZeroPad(d.day, 2) + "/" + ZeroPad(d.month, 2) + "/" + ZeroPad(d.year, 4)
  }

  /** `format('HH:mm')`. */
  function ClockText(t: DateTime): string {
    ZeroPad(t.hour, 2) + ":" + ZeroPad(t.minute, 2)
  }

  /** `format('DD/MM/YYYY HH:mm')`. */
  function DisplayText(t: DateTime): string {
    DateKey(t.date) + " " + ClockText(t)
  }

  /** A UTC instant seen on a wall clock that is `offset` minutes ahead of UTC. */
  function LocalReading(utc: Instant, offset: nat): DateTime {
    FromInstant(utc + offset)
  }

  /** `moment(key, 'DD/MM/YYYY')` as the list's date comparator uses it: the day number of a heading. */
  function KeyDay(key: string): int {
    if |key| == 10 && AllDigits(key[..2]) && AllDigits(key[3..5]) && AllDigits(key[6..]) then
      var d := Date(DigitsValue(key[6..]), DigitsValue(key[3..5]), DigitsValue(key[..2]));
      if ValidDate(d) then DayNumber(d) else -1
    else -1
  }

  /** Reading back a heading gives the day number of its date. */
  lemma KeyDayOfDateKey(d: Date)
    requires ValidDate(d) && d.year < 10000
    ensures KeyDay(DateKey(d)) == DayNumber(d)
  {
    ZeroPadExact(d.year, 4);
    ZeroPadExact(d.month, 2);
    ZeroPadExact(d.day, 2);
    var k := DateKey(d);
    assert k[..2] == Digits(d.day, 2);
    assert k[3..5] == Digits(d.month, 2);
    assert k[6..] == Digits(d.year, 4);
  }

  /** Distinct dates have distinct headings. */
  lemma DateKeyInjective(a: Date, b: Date)
    requires ValidDate(a) && ValidDate(b) && a.year < 10000 && b.year < 10000
    requires DateKey(a) == DateKey(b)
    ensures a == b
  {
    KeyDayOfDateKey(a);
    KeyDayOfDateKey(b);
    DayNumberInjective(a, b);
  }
}
