/**
 * `parse` of the timezone-parsing check script: a stand-alone copy of the
 * parsing half of `processSingleLine`, written as one chain of string
 * expressions. It is proved to agree with `ParseLine` on every input, and
 * the script's five sample lines are proved to resolve to `timezone-edit`.
 */
module TimezoneParsing {
  import opened Wrappers
  import opened Text
  import opened CommandProcessor

  /** The object `{ resolved, args }` that `parse` returns. */
  datatype Parsed = Parsed(resolved: string, args: seq<string>)

  /** The default parameter `prefix = '!'`: only an absent argument is replaced, an empty one is kept. */
  function PrefixArgument(prefix: Option<string>): string {
    if prefix.None? then "!" else prefix.value
  }

  /**
   * `parse(text, prefix)`: `None` is its `return null`. The result is `None`
   * exactly when the trimmed text does not start with the prefix.
   */
  function Parse(text: string, prefix: Option<string>): (r: Option<Parsed>)
    ensures r.None? <==> !StartsWith(Trim(text), PrefixArgument(prefix))
  {
    var p := PrefixArgument(prefix);
    var messageText := Trim(text);
    if !StartsWith(messageText, p) then None
    else
      var commandText := Trim(messageText[|p|..]);
      var normalizedText := NormalizeDashes(commandText);
      var parts := Split(normalizedText, ' ');
      var raw := ToLower(parts[0]);
      var args := parts[1..];
      var resolved := if raw == "timezone" || raw == "tz" then "timezone-edit" else raw;
      Some(Parsed(resolved, args))
  }

  /**
   * On every input and prefix, `parse` returns `null` exactly when
   * `processSingleLine` returns early, and otherwise the keyword and the
   * arguments that `processSingleLine` dispatches on.
   */
  lemma ParseAgrees(text: string, prefix: Option<string>)
    ensures var p := PrefixArgument(prefix);
      match ParseLine(text, p)
      case None => Parse(text, prefix).None?
      case Some(c) => Parse(text, prefix) == Some(Parsed(c.keyword, c.args))
  {
  }

  /**
   * `resolved` is `timezone-edit` exactly when the lower-cased first token is
   * `timezone`, `tz` or `timezone-edit`; otherwise it is that token. The
   * arguments joined by single spaces are the normalised text after the
   * first space, and none of them holds one of the dash characters.
   */
  lemma ParseFields(text: string, prefix: Option<string>)
    requires Parse(text, prefix).Some?
    ensures var p := PrefixArgument(prefix);
      var r := Parse(text, prefix).value;
      var c := ParseLine(text, p).value;
      var normalized := CommandText(text, p);
      var i := IndexOf(normalized, ' ');
      && c.raw == ToLower(normalized[..i])
      && (r.resolved == "timezone-edit" <==> c.raw == "timezone" || c.raw == "tz" || c.raw == "timezone-edit")
      && (r.resolved != "timezone-edit" ==> r.resolved == c.raw)
      && (i < |normalized| ==> Join(r.args, " ") == normalized[i + 1..])
      && (r.args == [] <==> i == |normalized|)
      && (forall k, j :: 0 <= k < |r.args| && 0 <= j < |r.args[k]| ==> !IsDash(r.args[k][j]))
  {
    var p := PrefixArgument(prefix);
    ParseAgrees(text, prefix);
    ParseLineTokens(text, p);
    var normalized := CommandText(text, p);
    var parts := Split(normalized, ' ');
    var r := Parse(text, prefix).value;
    assert r.args == parts[1..];
    forall k, j | 0 <= k < |r.args| && 0 <= j < |r.args[k]| ensures !IsDash(r.args[k][j]) {
      SplitPiecesFrom(normalized, ' ', k + 1, j);
    }
  }

  /** A character of a piece of a split is a character of the split text. */
  lemma {:induction false} SplitPiecesFrom(s: string, c: char, k: nat, j: nat)
    requires k < |Split(s, c)| && j < |Split(s, c)[k]|
    ensures Split(s, c)[k][j] in s
    decreases |s|
  {
    var i := IndexOf(s, c);
    if k > 0 {
      SplitPiecesFrom(s[i + 1..], c, k - 1, j);
      var x := Split(s[i + 1..], c)[k - 1][j];
      assert x in s[i + 1..];
    } else {
      assert s[..i][j] == s[j];
    }
  }

  /** The line `!timezone-edit WIB`. */
  lemma SampleTimezoneEdit(line: string)
    requires line == "!timezone-edit WIB"
    ensures Parse(line, None) == Some(Parsed("timezone-edit", ["WIB"]))
  {
    WordLine(line, "timezone-edit", "WIB");
  }

  /** The line `!timezone WIB`. */
  lemma SampleTimezone(line: string)
    requires line == "!timezone WIB"
    ensures Parse(line, None) == Some(Parsed("timezone-edit", ["WIB"]))
  {
    WordLine(line, "timezone", "WIB");
  }

  /** The line `!tz WITA`. */
  lemma SampleTz(line: string)
    requires line == "!tz WITA"
    ensures Parse(line, None) == Some(Parsed("timezone-edit", ["WITA"]))
  {
    WordLine(line, "tz", "WITA");
  }

  /** The line `!timezone–edit WIT`, with an en dash (U+2013). */
  lemma SampleEnDash(line: string)
    requires line == "!timezone–edit WIT"
    ensures Parse(line, None) == Some(Parsed("timezone-edit", ["WIT"]))
  {
    DashLine(line, "timezone", '–', "edit", "timezone-edit", "WIT");
  }

  /** The line `!timezone—edit WIB`, with an em dash (U+2014). */
  lemma SampleEmDash(line: string)
    requires line == "!timezone—edit WIB"
    ensures Parse(line, None) == Some(Parsed("timezone-edit", ["WIB"]))
  {
    DashLine(line, "timezone", '—', "edit", "timezone-edit", "WIB");
  }

  /** A line `!<keyword> <zone>` whose keyword is already lower-case letters and `-`. */
  lemma WordLine(line: string, keyword: string, zone: string)
    requires line == "!" + keyword + " " + zone
    requires keyword != [] && 'a' <= keyword[0] <= 'z' && KeyWord(keyword)
    requires ZoneWord(zone)
    ensures Parse(line, None) == Some(Parsed(Resolve(keyword), [zone]))
  {
    AsciiUnchanged(keyword);
    SampleLine(line, keyword, keyword, zone);
  }

  /** A line `!<a><dash><c> <zone>`: the keyword resolved is `key`, that is `<a>-<c>`. */
  lemma DashLine(line: string, a: string, d: char, c: string, key: string, zone: string)
    requires line == "!" + (a + [d] + c) + " " + zone
    requires a != [] && 'a' <= a[0] <= 'z' && KeyWord(a) && KeyWord(c) && IsDash(d)
    requires key == a + "-" + c
    requires ZoneWord(zone)
    ensures Parse(line, None) == Some(Parsed(Resolve(key), [zone]))
  {
    DashBetween(a, d, c);
    assert KeyWord(key) by {
      forall k | 0 <= k < |key| ensures key[k] == '-' || 'a' <= key[k] <= 'z' {
        if k < |a| {
          assert key[k] == a[k];
        } else if k > |a| {
          assert key[k] == c[k - |a| - 1];
        }
      }
    }
    SampleLine(line, a + [d] + c, key, zone);
  }

  /** Lower-case letters and `-` hold no dash character, so normalising leaves it as it is. */
  lemma AsciiUnchanged(s: string)
    requires KeyWord(s)
    ensures NormalizeDashes(s) == s
  {
  }

  /** Normalisation works character by character, so it distributes over concatenation. */
  lemma {:induction false} NormalizeAppend(x: string, y: string)
    ensures NormalizeDashes(x + y) == NormalizeDashes(x) + NormalizeDashes(y)
    decreases |x|
  {
    if x != [] {
      NormalizeAppend(x[1..], y);
      assert (x + y)[1..] == x[1..] + y;
    }
  }

  /** One dash between two ASCII words becomes `-`. */
  lemma DashBetween(a: string, d: char, c: string)
    requires KeyWord(a) && KeyWord(c)
    requires IsDash(d)
    ensures NormalizeDashes(a + [d] + c) == a + "-" + c
  {
    AsciiUnchanged(a);
    AsciiUnchanged(c);
    var nd := NormalizeDashes([d]);
    assert nd[0] == '-';
    assert nd == "-";
    NormalizeAppend(a, [d]);
    NormalizeAppend(a + [d], c);
  }

  /** Lower-case ASCII letters and `-`: what a keyword normalises to. */
  predicate KeyWord(s: string) {
    forall k :: 0 <= k < |s| ==> s[k] == '-' || 'a' <= s[k] <= 'z'
  }

  /** Upper-case ASCII letters: a zone abbreviation such as `WIB`. */
  predicate ZoneWord(s: string) {
    s != [] && forall k :: 0 <= k < |s| ==> 'A' <= s[k] <= 'Z'
  }

  /**
   * A line `!<keyword> <zone>`: a keyword that does not start with a space
   * and normalises to lower-case letters and `-`, and an upper-case zone.
   * The keyword is resolved after its dashes are normalised, and the zone is
   * the one argument.
   */
  lemma SampleLine(line: string, keyword: string, key: string, zone: string)
    requires line == "!" + keyword + " " + zone
    requires keyword != [] && !IsSpace(keyword[0])
    requires NormalizeDashes(keyword) == key && KeyWord(key)
    requires ZoneWord(zone)
    ensures Parse(line, None) == Some(Parsed(Resolve(key), [zone]))
  {
    var rest := keyword + " " + zone;
    ZoneFacts(zone);
    KeyFacts(key);
    SampleTrimmed(line, keyword, zone);
    NormalizeSample(keyword, zone);
    SplitSample(key, zone);
    ParseOfPieces(line, rest, key, zone);
  }

  lemma ZoneFacts(zone: string)
    requires ZoneWord(zone)
    ensures ' ' !in zone && !IsSpace(zone[|zone| - 1])
    ensures forall k :: 0 <= k < |zone| ==> !IsDash(zone[k])
  {
    assert 'A' <= zone[|zone| - 1] <= 'Z';
  }

  lemma KeyFacts(key: string)
    requires KeyWord(key)
    ensures ' ' !in key && ToLower(key) == key
  {
  }

  /** `parse` of a line, given what each of its steps yields on it. */
  lemma ParseOfPieces(line: string, rest: string, key: string, zone: string)
    requires Trim(line) == line && StartsWith(line, "!") && line[1..] == rest && Trim(rest) == rest
    requires NormalizeDashes(rest) == key + " " + zone
    requires Split(key + " " + zone, ' ') == [key, zone] && ToLower(key) == key
    ensures Parse(line, None) == Some(Parsed(Resolve(key), [zone]))
  {
  }

  lemma SampleTrimmed(line: string, keyword: string, zone: string)
    requires line == "!" + keyword + " " + zone && keyword != [] && zone != []
    requires !IsSpace(keyword[0]) && !IsSpace(zone[|zone| - 1])
    ensures var rest := keyword + " " + zone;
      Trim(line) == line && StartsWith(line, "!") && line[1..] == rest && Trim(rest) == rest
  {
    var rest := keyword + " " + zone;
    assert line == "!" + rest;
    assert line[..1] == "!";
    assert rest[0] == keyword[0] && rest[|rest| - 1] == zone[|zone| - 1];
    TrimOfTrimmed(line);
    TrimOfTrimmed(rest);
  }

  lemma NormalizeSample(keyword: string, zone: string)
    requires forall k :: 0 <= k < |zone| ==> !IsDash(zone[k])
    ensures NormalizeDashes(keyword + " " + zone) == NormalizeDashes(keyword) + " " + zone
  {
    var rest := keyword + " " + zone;
    var normalized := NormalizeDashes(rest);
    var key := NormalizeDashes(keyword);
    forall k | 0 <= k < |normalized| ensures normalized[k] == (key + " " + zone)[k] {
      if k < |keyword| {
        assert rest[k] == keyword[k];
      } else if k > |keyword| {
        assert rest[k] == zone[k - |keyword| - 1];
      }
    }
  }

  lemma SplitSample(key: string, zone: string)
    requires ' ' !in key && ' ' !in zone
    ensures Split(key + " " + zone, ' ') == [key, zone]
  {
    SplitJoin([key, zone], ' ');
    assert Join([key, zone], " ") == key + " " + zone;
  }
}
