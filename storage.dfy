/** The preference store of storage.js: a thin layer over the page's `localStorage`
    table that stores JSON texts under the script's own keys, with default-on-absent
    reads and theme helpers. A storage exception is a `fails` argument of the call it
    interrupts. */
module Storage {
  import opened Common

  // ---------------------------------------------------------------------------
  // The script's keys (storage.js:10-14)
  // ---------------------------------------------------------------------------

  const ThemeColorKey := "piv_theme_color"
  const ThemeTypeKey := "piv_theme_type"
  const FullscreenModeKey := "piv_fullscreen_mode"

  /** `Object.values(this.KEYS)`, in declaration order. */
  const Keys: seq<string> := [ThemeColorKey, ThemeTypeKey, FullscreenModeKey]

  /** The keys `clear` has removed when the removal at position `failAt` throws (all
      of them when `failAt` is past the end). */
  function RemovedBefore(failAt: nat): seq<string>
  {
    if failAt < |Keys| then Keys[..failAt] else Keys
  }

  // ---------------------------------------------------------------------------
  // JSON text of the stored values
  // ---------------------------------------------------------------------------

  /** The escape `JSON.stringify` writes for a quote or a backslash inside a string. */
  function EscapeChar(c: char): string
  {
    if c == '"' then "\\\"" else if c == '\\' then "\\\\" else [c]
  }

  function Escape(s: string): string
  {
    if s == [] then [] else EscapeChar(s[0]) + Escape(s[1..])
  }

  /** The body of a JSON string literal read back; `None` for a bare quote or a
      dangling or unknown escape, on which `JSON.parse` throws. */
  function Unescape(t: string): Option<string>
  {
    if t == [] then Some([])
    else if t[0] == '"' then None
    else if t[0] == '\\' then
      if |t| >= 2 && (t[1] == '"' || t[1] == '\\') then
        var rest := Unescape(t[2..]);
        if rest.Some? then Some([t[1]] + rest.value) else None
      else None
    else
      var rest := Unescape(t[1..]);
      if rest.Some? then Some([t[0]] + rest.value) else None
  }

  /** `JSON.stringify(value)`. */
  function Encode(v: Value): (text: string)
    ensures |text| > 0
  {
    match v
    case Null => "null"
    case Bool(b) => if b then "true" else "false"
    case Str(s) => "\"" + Escape(s) + "\""
  }

  /** `JSON.parse(text)`, `None` when it throws. */
  function Decode(text: string): Option<Value>
  {
    if text == "null" then Some(Null)
    else if text == "true" then Some(Bool(true))
    else if text == "false" then Some(Bool(false))
    else if |text| >= 2 && text[0] == '"' && text[|text| - 1] == '"' then
      var body := Unescape(text[1..|text| - 1]);
      if body.Some? then Some(Str(body.value)) else None
    else None
  }

  // ---------------------------------------------------------------------------
  // The reads, as functions of the table
  // ---------------------------------------------------------------------------

  /** `get(key, defaultValue)` on a table that does not throw: an absent key and an
      empty text (both falsy) give the default, so does a text `JSON.parse` rejects. */
  function ReadFrom(table: map<string, string>, key: string, default: Value): Value
  {
    if key !in table || table[key] == "" then default
    else
      var parsed := Decode(table[key]);
      if parsed.Some? then parsed.value else default
  }

  /** The object `getTheme` returns; `kind` is its `type` property. */
  datatype ThemeRecord = ThemeRecord(color: Value, kind: Value)

  /** The `type` stored when `saveTheme` is called without one. */
  const DefaultKind := Str("preset")

  /** `getTheme()` on a table that does not throw. */
  function ThemeFrom(table: map<string, string>): ThemeRecord
  {
    ThemeRecord(ReadFrom(table, ThemeColorKey, Null), ReadFrom(table, ThemeTypeKey, DefaultKind))
  }

  /** `getTheme()` on a table whose reads of the colour or of the type may throw. */
  function ThemeRead(table: map<string, string>, colorFails: bool, kindFails: bool): (theme: ThemeRecord)
    ensures !colorFails && !kindFails ==> theme == ThemeFrom(table)
    ensures !colorFails ==> theme.color == ThemeFrom(table).color
    ensures !kindFails ==> theme.kind == ThemeFrom(table).kind
    ensures colorFails ==> theme.color == Null
    ensures kindFails ==> theme.kind == DefaultKind
  {
    ThemeRecord(if colorFails then Null else ReadFrom(table, ThemeColorKey, Null),
                if kindFails then DefaultKind else ReadFrom(table, ThemeTypeKey, DefaultKind))
  }

  /** The table after `saveTheme(color, kind)` when neither write throws; an omitted
      `kind` is stored as "preset". */
  function SavedTheme(table: map<string, string>, color: Value, kind: Option<Value>): map<string, string>
  {
    table[ThemeColorKey := Encode(color)][ThemeTypeKey := Encode(if kind.Some? then kind.value else DefaultKind)]
  }

  // ---------------------------------------------------------------------------
  // PIVStorage (storage.js:8-102)
  // ---------------------------------------------------------------------------

  class PivStorage {
    /** The `localStorage` table: key to stored text. */
    var table: map<string, string>

    constructor (initial: map<string, string>)
      ensures table == initial
    {
      table := initial;
    }

    /** `set(key, value)` (storage.js:21-29): stores the JSON text and answers true, or,
        when `setItem` throws, leaves the table as it was and answers false. */
    method Set(key: string, value: Value, fails: bool) returns (ok: bool)
      modifies this
      ensures ok == !fails
      ensures table == if fails then old(table) else old(table)[key := Encode(value)]
    {
      if fails {
        ok := false;
      } else {
        table := table[key := Encode(value)];
        ok := true;
      }
    }

    /** `get(key, defaultValue)` (storage.js:37-45): the stored value, or the default
        when the key is absent, its text is empty or unparsable, or `getItem` throws. */
    method Get(key: string, default: Value, fails: bool) returns (v: Value)
      ensures fails ==> v == default
      ensures !fails ==> v == ReadFrom(table, key, default)
      ensures key !in table ==> v == default
    {
      if fails {
        v := default;
      } else if key !in table || table[key] == "" {
        v := default;
      } else {
        var parsed := Decode(table[key]);
        v := if parsed.Some? then parsed.value else default;
      }
    }

    /** `remove(key)` (storage.js:51-59). */
    method Remove(key: string, fails: bool) returns (ok: bool)
      modifies this
      ensures ok == !fails
      ensures table == if fails then old(table) else old(table) - {key}
    {
      if fails {
        ok := false;
      } else {
        table := table - {key};
        ok := true;
      }
    }

    /** `clear()` (storage.js:64-74): removes the script's keys one by one; when the
        removal at position `failAt` throws, the keys before it are already gone, the
        rest stay, and the answer is false. */
    method Clear(failAt: nat) returns (ok: bool)
      modifies this
      ensures ok == (failAt >= |Keys|)
      ensures table == old(table) - set k | k in RemovedBefore(failAt)
    {
      var i := 0;
      while i < |Keys|
        invariant 0 <= i <= |Keys| && i <= failAt
        invariant table == old(table) - set k | k in Keys[..i]
      {
        if i == failAt {
          return false;
        }
        table := table - {Keys[i]};
        i := i + 1;
        assert Keys[..i] == Keys[..i - 1] + [Keys[i - 1]];
      }
      assert Keys[..i] == Keys;
      ok := true;
    }

    /** `has(key)` (storage.js:81-83): `getItem` answers something other than null. */
    predicate Has(key: string)
      reads this
    {
      key in table
    }

    /** `saveTheme(color, type)` (storage.js:86-89): two independent writes whose
        answers are dropped, so either may fail while the other succeeds. */
    method SaveTheme(color: Value, kind: Option<Value>, colorFails: bool, kindFails: bool)
      modifies this
      ensures !colorFails && !kindFails ==> table == SavedTheme(old(table), color, kind)
      ensures table == (
        var t := if colorFails then old(table) else old(table)[ThemeColorKey := Encode(color)];
        if kindFails then t else t[ThemeTypeKey := Encode(if kind.Some? then kind.value else DefaultKind)])
    {
      var _ := Set(ThemeColorKey, color, colorFails);
      var _ := Set(ThemeTypeKey, if kind.Some? then kind.value else DefaultKind, kindFails);
    }

    /** `getTheme()` (storage.js:91-96): always an object, whatever the table holds. */
    method GetTheme(colorFails: bool, kindFails: bool) returns (theme: ThemeRecord)
      ensures theme == ThemeRead(table, colorFails, kindFails)
    {
      var color := Get(ThemeColorKey, Null, colorFails);
      var kind := Get(ThemeTypeKey, DefaultKind, kindFails);
      theme := ThemeRecord(color, kind);
    }

    /** `clearTheme()` (storage.js:98-101). */
    method ClearTheme(colorFails: bool, kindFails: bool)
      modifies this
      ensures table == (
        var t := if colorFails then old(table) else old(table) - {ThemeColorKey};
        if kindFails then t else t - {ThemeTypeKey})
    {
      var _ := Remove(ThemeColorKey, colorFails);
      var _ := Remove(ThemeTypeKey, kindFails);
    }
  }

  // ---------------------------------------------------------------------------
  // Properties
  // ---------------------------------------------------------------------------

  lemma {:induction false} UnescapeEscape(s: string)
    ensures Unescape(Escape(s)) == Some(s)
  {
    if s != [] {
      UnescapeEscape(s[1..]);
      var c := s[0];
      var rest := Escape(s[1..]);
      assert Escape(s) == EscapeChar(c) + rest;
      if c == '"' || c == '\\' {
        assert (EscapeChar(c) + rest)[2..] == rest;
      } else {
        assert (EscapeChar(c) + rest)[1..] == rest;
      }
      assert [c] + s[1..] == s;
    }
  }

  /** Decoding the JSON text of a value gives the value back. */
  lemma DecodeEncode(v: Value)
    ensures Decode(Encode(v)) == Some(v)
  {
    if v.Str? {
      var text := Encode(v);
      assert text[0] == '"';
      assert text[1..|text| - 1] == Escape(v.s);
      UnescapeEscape(v.s);
    }
  }

  /** Distinct values are stored as distinct texts. */
  lemma EncodeInjective(v: Value, w: Value)
    requires Encode(v) == Encode(w)
    ensures v == w
  {
    DecodeEncode(v);
    DecodeEncode(w);
  }

  /** `set(k, v)` followed by `get(k, d)` gives `v`, whatever the default; other keys
      read as before. */
  lemma ReadAfterWrite(table: map<string, string>, key: string, v: Value, default: Value, other: string)
    requires other != key
    ensures ReadFrom(table[key := Encode(v)], key, default) == v
    ensures ReadFrom(table[key := Encode(v)], other, default) == ReadFrom(table, other, default)
  {
    DecodeEncode(v);
  }

  /** `get(k, d)` on an absent key, or after `remove(k)`, gives `d`. */
  lemma ReadAbsent(table: map<string, string>, key: string, default: Value)
    ensures key !in table ==> ReadFrom(table, key, default) == default
    ensures ReadFrom(table - {key}, key, default) == default
  {
  }

  /** `saveTheme(c, t)` then `getTheme()` gives `{color: c, type: t}`, with "preset"
      for an omitted `t`. */
  lemma ThemeRoundTrip(table: map<string, string>, color: Value, kind: Option<Value>)
    ensures ThemeFrom(SavedTheme(table, color, kind)) ==
              ThemeRecord(color, if kind.Some? then kind.value else DefaultKind)
  {
    var k := if kind.Some? then kind.value else DefaultKind;
    ReadAfterWrite(table[ThemeColorKey := Encode(color)], ThemeTypeKey, k, DefaultKind, ThemeColorKey);
    ReadAfterWrite(table, ThemeColorKey, color, Null, ThemeTypeKey);
  }

  /** With nothing saved, `getTheme()` is `{color: null, type: "preset"}`. */
  lemma EmptyTheme(table: map<string, string>)
    requires ThemeColorKey !in table && ThemeTypeKey !in table
    ensures ThemeFrom(table) == ThemeRecord(Null, DefaultKind)
  {
  }

  /** A `clear` that does not throw removes exactly the script's three keys and leaves
      every other entry as it was. */
  lemma ClearExactlyOwnKeys(table: map<string, string>, key: string)
    ensures var cleared := table - set k | k in RemovedBefore(|Keys|);
            (key in cleared <==> key in table && key !in Keys)
            && (key in cleared ==> cleared[key] == table[key])
  {
  }

  /** After `clearTheme()` with no storage exception, `getTheme()` reads the defaults
      again, and the full-screen preference is kept. */
  lemma ClearThemeResets(table: map<string, string>)
    ensures var cleared := table - {ThemeColorKey} - {ThemeTypeKey};
            ThemeFrom(cleared) == ThemeRecord(Null, DefaultKind)
            && (FullscreenModeKey in table ==> FullscreenModeKey in cleared
                                               && cleared[FullscreenModeKey] == table[FullscreenModeKey])
  {
  }
}
