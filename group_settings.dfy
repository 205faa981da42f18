/**
 * Per-chat timezone settings: the `group_settings` table, keyed by the unique
 * `chat_id`, holding one of the three Indonesian zone labels. A chat without a
 * row, or with a label the bot does not know, is on WIB (UTC+7).
 */
module GroupSettings {
  import opened Text

  /** The labels the bot accepts. */
  predicate IsZone(tz: string) {
    tz == "WIB" || tz == "WITA" || tz == "WIT"
  }

  /**
   * The property names every plain object inherits from `Object.prototype`.
   * Looking one of them up in an object literal finds the inherited member,
   * not `undefined`.
   */
  predicate InheritedName(key: string) {
    key in {"constructor", "__proto__", "toString", "toLocaleString", "valueOf", "hasOwnProperty",
            "isPrototypeOf", "propertyIsEnumerable", "__defineGetter__", "__defineSetter__",
            "__lookupGetter__", "__lookupSetter__"}
  }

  /**
   * `TZ_OFFSETS[tz] || 420`: minutes ahead of UTC, WIB for any other label
   * that is not an inherited property name.
   */
  function TzToOffset(tz: string): (offset: nat)
    ensures offset == 420 || offset == 480 || offset == 540
    ensures !IsZone(tz) && !InheritedName(tz) ==> offset == 420
  {
    if tz == "WITA" then 480 else if tz == "WIT" then 540 else 420
  }

  /** The three zones have three different offsets: the offset identifies the zone. */
  lemma OffsetIdentifiesZone(a: string, b: string)
    requires IsZone(a) && IsZone(b) && TzToOffset(a) == TzToOffset(b)
    ensures a == b
  {
  }

  /** The zone of each label: WIB UTC+7, WITA UTC+8, WIT UTC+9. */
  lemma ZoneOffsets()
    ensures TzToOffset("WIB") == 7 * 60
    ensures TzToOffset("WITA") == 8 * 60
    ensures TzToOffset("WIT") == 9 * 60
  {
  }

  /** `getTimezone`: the stored label when there is a row with a known label, otherwise WIB. */
  function GetTimezone(rows: map<string, string>, chatId: string): (tz: string)
    ensures IsZone(tz)
    ensures chatId !in rows ==> tz == "WIB"
    ensures chatId in rows && !IsZone(rows[chatId]) ==> tz == "WIB"
    ensures chatId in rows && IsZone(rows[chatId]) ==> tz == rows[chatId]
  {
    if chatId in rows && IsZone(rows[chatId]) then rows[chatId] else "WIB"
  }

  /** `getOffset`: the offset of the resolved zone. */
  function GetOffset(rows: map<string, string>, chatId: string): (offset: nat)
    ensures offset == 420 || offset == 480 || offset == 540
    ensures offset == TzToOffset(GetTimezone(rows, chatId))
  {
    TzToOffset(GetTimezone(rows, chatId))
  }

  /**
   * `setTimezone` on the table contents: the label is upper-cased; an unknown
   * label is refused and nothing changes, a known one updates the chat's row
   * or inserts it. Both SQL paths report success for a valid label: an UPDATE
   * of an existing row affects it, an INSERT gets a fresh id.
   */
  function SetTimezoneRows(rows: map<string, string>, chatId: string, timezone: string): (bool, map<string, string>) {
    var tz := ToUpper(timezone);
    if !IsZone(tz) then (false, rows) else (true, rows[chatId := tz])
  }

  /** The upsert succeeds exactly for labels that upper-case to a zone, and then that zone is the chat's. */
  lemma SetTimezoneResolves(rows: map<string, string>, chatId: string, timezone: string)
    ensures var (ok, rows') := SetTimezoneRows(rows, chatId, timezone);
      && (ok <==> IsZone(ToUpper(timezone)))
      && (!ok ==> rows' == rows)
      && (ok ==> GetTimezone(rows', chatId) == ToUpper(timezone))
      && (forall other :: other != chatId ==> GetTimezone(rows', other) == GetTimezone(rows, other))
      && rows'.Keys == (if ok then rows.Keys + {chatId} else rows.Keys)
  {
  }

  /** The settings table; a map has at most one row per chat, as `chat_id UNIQUE` demands. */
  class SettingsTable {
    var rows: map<string, string>

    constructor ()
      ensures rows == map[]
    {
      rows := map[];
    }

    method SetTimezone(chatId: string, timezone: string) returns (ok: bool)
      modifies this
      ensures (ok, rows) == SetTimezoneRows(old(rows), chatId, timezone)
      ensures ok ==> GetTimezone(rows, chatId) == ToUpper(timezone)
    {
      var tz := ToUpper(timezone);
      if !IsZone(tz) {
        return false;
      }
      if chatId in rows {
        // UPDATE of the existing row: exactly one row is affected
        rows := rows[chatId := tz];
        ok := true;
      } else {
        // INSERT: the new row always receives an id
        rows := rows[chatId := tz];
        ok := true;
      }
    }
  }
}
