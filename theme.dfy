/** The pure half of ui.js's theming: `isColorDark` with the parts of JavaScript's
    `replace`, `substr` and `parseInt` it relies on, the text colour it selects, and the
    style text `applyPIBackgroundColor` writes. */
module Theme {
  import opened Common

  // ---------------------------------------------------------------------------
  // The string built-ins isColorDark calls
  // ---------------------------------------------------------------------------

  /** `s.replace("#", "")`: a string pattern replaces its first occurrence only. */
  function RemoveFirstHash(s: string): (r: string)
    ensures '#' !in s ==> r == s
    ensures |s| > 0 && s[0] == '#' ==> r == s[1..]
    ensures '#' in s ==> |r| == |s| - 1
    ensures '#' in s ==> r == s[..FirstHash(s)] + s[FirstHash(s) + 1..]
  {
    if s == [] then []
    else if s[0] == '#' then s[1..]
    else
      var rest := RemoveFirstHash(s[1..]);
      assert '#' in s ==> '#' in s[1..] && FirstHash(s) == FirstHash(s[1..]) + 1;
      [s[0]] + rest
  }

  /** The position of the first `#` in `s`. */
  function FirstHash(s: string): (i: nat)
    requires '#' in s
    ensures i < |s| && s[i] == '#' && '#' !in s[..i]
  {
    if s[0] == '#' then 0
    else
      assert '#' in s[1..];
      var i := FirstHash(s[1..]) + 1;
      assert s[..i] == [s[0]] + s[1..][..i - 1];
      i
  }

  /** `s.substr(start, length)` for a non-negative start and length: the characters from
      `start` on, at most `length` of them, and none when `start` is past the end. */
  function Substr(s: string, start: nat, length: nat): (r: string)
    ensures start + length <= |s| ==> r == s[start..start + length]
    ensures start >= |s| ==> r == []
    ensures start < |s| < start + length ==> r == s[start..]
  {
    if start >= |s| then []
    else if start + length <= |s| then s[start..start + length]
    else s[start..]
  }

  /** The characters `parseInt` skips before a number: the white space and line
      terminators of section 7.2 and 7.3 of ECMA-262. */
  predicate IsJsWhitespace(c: char)
  {
    c == '\t' || c == '\n' || c == '\U{000B}' || c == '\U{000C}' || c == '\r' || c == ' '
    || c == '\U{00A0}' || c == '\U{1680}' || ('\U{2000}' <= c <= '\U{200A}')
    || c == '\U{2028}' || c == '\U{2029}' || c == '\U{202F}' || c == '\U{205F}'
    || c == '\U{3000}' || c == '\U{FEFF}'
  }

  function TrimStart(s: string): (r: string)
    ensures |r| <= |s| && r == s[|s| - |r|..]
    ensures r == [] || !IsJsWhitespace(r[0])
    ensures forall i :: 0 <= i < |s| - |r| ==> IsJsWhitespace(s[i])
  {
    if s != [] && IsJsWhitespace(s[0]) then TrimStart(s[1..]) else s
  }

  /** The value of a base-16 digit, or `None` for any other character. */
  function HexDigit(c: char): (d: Option<nat>)
    ensures d.Some? ==> d.value < 16
  {
    if '0' <= c <= '9' then Some(c as int - '0' as int)
    else if 'a' <= c <= 'f' then Some(c as int - 'a' as int + 10)
    else if 'A' <= c <= 'F' then Some(c as int - 'A' as int + 10)
    else None
  }

  predicate AllHexDigits(s: string)
  {
    forall i :: 0 <= i < |s| ==> HexDigit(s[i]).Some?
  }

  /** The length of the longest prefix of `s` made of base-16 digits. */
  function HexRun(s: string): (n: nat)
    ensures n <= |s| && AllHexDigits(s[..n])
    ensures n < |s| ==> HexDigit(s[n]).None?
  {
    if s != [] && HexDigit(s[0]).Some? then
      var n := 1 + HexRun(s[1..]);
      assert forall i :: 1 <= i < n ==> s[..n][i] == s[1..][..n - 1][i - 1];
      n
    else 0
  }

  /** The number a string of base-16 digits denotes, most significant digit first. */
  function HexValue(digits: string): nat
    requires AllHexDigits(digits)
  {
    if digits == [] then 0
    else 16 * HexValue(digits[..|digits| - 1]) + HexDigit(digits[|digits| - 1]).value
  }

  /** `parseInt(s, 16)`: leading white space, an optional sign, an optional `0x` or `0X`,
      then the longest run of base-16 digits; `None` stands for `NaN`, the result when
      that run is empty. Characters after the run are ignored. */
  function ParseIntHex(s: string): (r: Option<int>)
  {
    var t := TrimStart(s);
    var negative := |t| > 0 && t[0] == '-';
    var unsigned := if |t| > 0 && (t[0] == '-' || t[0] == '+') then t[1..] else t;
    var body := if |unsigned| >= 2 && unsigned[0] == '0' && (unsigned[1] == 'x' || unsigned[1] == 'X')
                then unsigned[2..] else unsigned;
    var n := HexRun(body);
    var magnitude: int := if n == 0 then 0 else HexValue(body[..n]);
    if n == 0 then None
    else if negative then Some(-magnitude)
    else Some(magnitude)
  }

  // ---------------------------------------------------------------------------
  // isColorDark (ui.js:114-123)
  // ---------------------------------------------------------------------------

  /** The perceived luminance in thousandths: `0.299r + 0.587g + 0.114b` scaled by 1000. */
  function LuminanceMillis(r: int, g: int, b: int): int
  {
    299 * r + 587 * g + 114 * b
  }

  /** The luminance of a colour, `None` when a channel is `NaN` (and so is the sum). */
  function Luminance(hex: string): Option<int>
  {
    ChannelLuminance(RemoveFirstHash(hex))
  }

  /** The luminance of the digits left once the `#` is removed: two digits per channel. */
  function ChannelLuminance(c: string): Option<int>
  {
    var r := ParseIntHex(Substr(c, 0, 2));
    var g := ParseIntHex(Substr(c, 2, 2));
    var b := ParseIntHex(Substr(c, 4, 2));
    if r.Some? && g.Some? && b.Some? then Some(LuminanceMillis(r.value, g.value, b.value)) else None
  }

  /** `isColorDark(hex)`: the luminance is below 140; `NaN < 140` is false. */
  predicate IsColorDark(hex: string)
  {
    var l := Luminance(hex);
    l.Some? && l.value < 140000
  }

  /** The overlay text colour `applyPIBackgroundColor` picks for a background. */
  function TextColor(hex: string): (t: string)
    ensures t == "#ffffffcc" <==> IsColorDark(hex)
    ensures t == "#000000cc" <==> !IsColorDark(hex)
    ensures |hex| == 7 && hex[0] == '#' && AllHexDigits(hex[1..]) ==>
              var d := hex[1..];
              (t == "#ffffffcc" <==>
                 LuminanceMillis(Channel(d[0], d[1]), Channel(d[2], d[3]), Channel(d[4], d[5])) < 140000)
  {
    if |hex| == 7 && hex[0] == '#' && AllHexDigits(hex[1..]) then
      DarkIffLuminance(hex[1..]);
      assert hex == "#" + hex[1..];
      if IsColorDark(hex) then "#ffffffcc" else "#000000cc"
    else if IsColorDark(hex) then "#ffffffcc" else "#000000cc"
  }

  // ---------------------------------------------------------------------------
  // The style text of applyPIBackgroundColor (ui.js:199-217)
  // ---------------------------------------------------------------------------

  function StyleParts(color: string, textColor: string): seq<string>
  {
    [ Line(4, "/* PIV Custom Background Override */") +
        Line(4, "#viewport,") +
        Line(4, "#piv-custom-header,") +
        Line(4, "#timebar-pane,") +
        Line(4, "#shell-splitter-container>.k-pane,") +
        Line(4, ".header-pane,") +
        Line(4, ".t-header-gradient,") +
        Line(4, ".t-header,") +
        Line(4, ".k-splitbar,") +
        Line(4, "#shell-splitter-container .c-splitter-disabled,") +
        Line(4, ".t-display-header,") +
        Line(4, ".c-splitter-disabled,") +
        Line(4, ".t-pane-header-color,") +
        Line(4, ".tool-tabs {") +
        Line(6, ""),
      "background: " +
        color +
        " !important;",
      Line(6, ""),
      "color: " +
        textColor +
        " !important;",
      Line(4, "}") +
        Line(2, "") ]
  }

  /** The whole text of the override style element for a background colour. */
  function StyleText(color: string): string
  {
    Concat(StyleParts(color, TextColor(color)))
  }

  // ---------------------------------------------------------------------------
  // Properties
  // ---------------------------------------------------------------------------

  /** The value of the channel written with the digits `high` and `low`. */
  function Channel(high: char, low: char): nat
    requires HexDigit(high).Some? && HexDigit(low).Some?
  {
    16 * HexDigit(high).value + HexDigit(low).value
  }

  /** Two base-16 digits denote `16 * high + low`. */
  lemma ParseTwoHexDigits(s: string)
    requires |s| == 2 && AllHexDigits(s)
    ensures ParseIntHex(s) == Some(Channel(s[0], s[1]))
    ensures ParseIntHex(s) == Some(HexValue(s))
  {
    assert s == [s[0], s[1]];
    assert !IsJsWhitespace(s[0]);
    assert TrimStart(s) == s;
    assert HexRun(s[1..]) == 1;
    assert s[..2] == s;
    assert s[..2][..1] == [s[0]];
    assert HexValue([s[0]]) == HexDigit(s[0]).value by {
      assert [s[0]][..0] == [];
    }
  }

  /** For a six-digit colour, with or without its leading `#`, darkness is exactly the
      luminance test on the three two-digit channels. */
  lemma DarkIffLuminance(digits: string)
    requires |digits| == 6 && AllHexDigits(digits)
    ensures IsColorDark(digits) <==>
              LuminanceMillis(Channel(digits[0], digits[1]), Channel(digits[2], digits[3]),
                              Channel(digits[4], digits[5])) < 140000
    ensures IsColorDark("#" + digits) == IsColorDark(digits)
  {
    HashStripped(digits);
    ChannelsOfDigits(digits);
    assert Luminance(digits) == ChannelLuminance(digits);
    assert Luminance("#" + digits) == ChannelLuminance(digits);
  }

  /** The three channels of six digits give the luminance of their values. */
  lemma ChannelsOfDigits(digits: string)
    requires |digits| == 6 && AllHexDigits(digits)
    ensures ChannelLuminance(digits)
              == Some(LuminanceMillis(Channel(digits[0], digits[1]), Channel(digits[2], digits[3]),
                                      Channel(digits[4], digits[5])))
  {
    var red, green, blue := Channel(digits[0], digits[1]), Channel(digits[2], digits[3]), Channel(digits[4], digits[5]);
    ChannelValue(digits, 0);
    assert ParseIntHex(Substr(digits, 0, 2)) == Some(red);
    ChannelValue(digits, 2);
    assert ParseIntHex(Substr(digits, 2, 2)) == Some(green);
    ChannelValue(digits, 4);
    assert ParseIntHex(Substr(digits, 4, 2)) == Some(blue);
    ChannelsFromValues(digits, red, green, blue);
  }

  lemma ChannelsFromValues(c: string, r: int, g: int, b: int)
    requires ParseIntHex(Substr(c, 0, 2)) == Some(r)
    requires ParseIntHex(Substr(c, 2, 2)) == Some(g)
    requires ParseIntHex(Substr(c, 4, 2)) == Some(b)
    ensures ChannelLuminance(c) == Some(LuminanceMillis(r, g, b))
  {
  }

  /** Hex digits hold no `#`, so `replace` strips exactly the leading one. */
  lemma HashStripped(digits: string)
    requires AllHexDigits(digits)
    ensures RemoveFirstHash(digits) == digits
    ensures RemoveFirstHash("#" + digits) == digits
  {
    assert '#' !in digits by {
      forall i | 0 <= i < |digits| ensures digits[i] != '#' {
        assert HexDigit(digits[i]).Some?;
      }
    }
    assert ("#" + digits)[1..] == digits;
  }

  lemma ChannelValue(digits: string, k: nat)
    requires k + 2 <= |digits| && AllHexDigits(digits)
    ensures ParseIntHex(Substr(digits, k, 2)) == Some(Channel(digits[k], digits[k + 1]))
  {
    var s := digits[k..k + 2];
    assert AllHexDigits(s) && s[0] == digits[k] && s[1] == digits[k + 1];
    ParseTwoHexDigits(s);
    calc {
      ParseIntHex(Substr(digits, k, 2));
      ParseIntHex(s);
      Some(Channel(s[0], s[1]));
    }
  }

  /** A grey `#vvvvvv` is dark exactly when its channel value `vv` is below 140. */
  lemma GreyDarkIffBelow140(high: char, low: char)
    requires HexDigit(high).Some? && HexDigit(low).Some?
    ensures IsColorDark(['#', high, low, high, low, high, low]) <==> Channel(high, low) < 140
  {
    var digits := [high, low, high, low, high, low];
    assert AllHexDigits(digits);
    assert ['#', high, low, high, low, high, low] == "#" + digits;
    DarkIffLuminance(digits);
  }

  /** Black is dark and white is not. */
  lemma BlackIsDarkWhiteIsNot()
    ensures IsColorDark("#000000")
    ensures !IsColorDark("#ffffff")
  {
    GreyDarkIffBelow140('0', '0');
    GreyDarkIffBelow140('f', 'f');
  }

  /** The threshold: grey `#8b8b8b` (luminance 139) is dark, grey `#8c8c8c` (exactly 140)
      is not. */
  lemma GreyThreshold()
    ensures IsColorDark("#8b8b8b")
    ensures !IsColorDark("#8c8c8c")
  {
    GreyDarkIffBelow140('8', 'b');
    GreyDarkIffBelow140('8', 'c');
  }

  /** A three-digit shorthand leaves the blue channel empty, so its luminance is `NaN`
      and the colour is never dark, whatever its digits. */
  lemma ShorthandNeverDark(digits: string)
    requires |digits| == 3 && '#' !in digits
    ensures !IsColorDark("#" + digits)
  {
    assert RemoveFirstHash("#" + digits) == digits;
    assert Substr(digits, 4, 2) == [];
    assert ParseIntHex([]) == None;
  }

  /** The colour and the text colour are inserted verbatim into the style text. */
  lemma StyleCarriesColors(color: string)
    ensures Contains(StyleText(color), "background: " + color + " !important;")
    ensures Contains(StyleText(color), "color: " + TextColor(color) + " !important;")
  {
    var parts := StyleParts(color, TextColor(color));
    ConcatContains(parts, 1);
    ConcatContains(parts, 3);
  }
}
