/**
 * The theme manager of the browser UI: parsing a hex colour, brightening or
 * darkening it, the list of custom colours and the current theme. The
 * server's /api/theme answers and the browser's localStorage are inputs
 * and fields of the manager; the DOM updates are not modelled.
 */
module Theme {
  import opened Common

  // ---------------------------------------------------------------------
  // hexToRgb
  // ---------------------------------------------------------------------

  datatype Rgb = Rgb(r: nat, g: nat, b: nat)

  predicate IsByte(n: int) { 0 <= n <= 255 }

  predicate InRange(c: Rgb) { IsByte(c.r) && IsByte(c.g) && IsByte(c.b) }

  /** `[a-f\d]` under the `i` flag: an ASCII hex digit of either case. */
  predicate IsHexDigit(c: char)
  {
    '0' <= c <= '9' || 'a' <= c <= 'f' || 'A' <= c <= 'F'
  }

  function HexDigitValue(c: char): (v: nat)
    requires IsHexDigit(c)
    ensures v < 16
  {
    if '0' <= c <= '9' then c as int - '0' as int
    else if 'a' <= c <= 'f' then c as int - 'a' as int + 10
    else c as int - 'A' as int + 10
  }

  /** `parseInt(pair, 16)` for two hex digits. */
  function ByteOf(hi: char, lo: char): (v: nat)
    requires IsHexDigit(hi) && IsHexDigit(lo)
    ensures IsByte(v)
  {
    16 * HexDigitValue(hi) + HexDigitValue(lo)
  }

  /** The six digits after an optional '#', when the text is exactly that. */
  function HexDigits(hex: string): (d: Option<string>)
    ensures d.Some? ==> |d.value| == 6 && forall i :: 0 <= i < 6 ==> IsHexDigit(d.value[i])
  {
    var body := if hex != [] && hex[0] == '#' then hex[1..] else hex;
    if |body| == 6 && forall i :: 0 <= i < 6 ==> IsHexDigit(body[i]) then Some(body) else None
  }

  /** `/^#?([a-f\d]{2})([a-f\d]{2})([a-f\d]{2})$/i`, with black for anything else. */
  function HexToRgb(hex: string): (c: Rgb)
    ensures InRange(c)
    ensures HexDigits(hex).None? ==> c == Rgb(0, 0, 0)
  {
    match HexDigits(hex)
    case None => Rgb(0, 0, 0)
    case Some(d) => Rgb(ByteOf(d[0], d[1]), ByteOf(d[2], d[3]), ByteOf(d[4], d[5]))
  }

  // ---------------------------------------------------------------------
  // adjustBrightness
  // ---------------------------------------------------------------------

  /** `Math.round(x)` on the exact rational num / den (den > 0): half rounds up. */
  function Round(num: int, den: int): int
    requires den > 0
  {
    (2 * num + den) / (2 * den)
  }

  function Clamp(v: int): (c: int)
    ensures IsByte(c)
    ensures IsByte(v) ==> c == v
  {
    if v < 0 then 0 else if v > 255 then 255 else v
  }

  /** `Math.max(0, Math.min(255, Math.round(value + value * percent / 100)))` */
  function Adjust(value: nat, percent: int): (c: nat)
    ensures IsByte(c)
  {
    Clamp(Round(value * (100 + percent), 100))
  }

  function HexChar(d: nat): (c: char)
    requires d < 16
    ensures IsHexDigit(c) && !('A' <= c <= 'F') && HexDigitValue(c) == d
  {
    if d < 10 then ('0' as int + d) as char else ('a' as int + d - 10) as char
  }

  /** `v.toString(16).padStart(2, '0')` for a byte. */
  function Hex2(v: nat): (s: string)
    requires IsByte(v)
    ensures |s| == 2 && IsHexDigit(s[0]) && IsHexDigit(s[1]) && ByteOf(s[0], s[1]) == v
  {
    [HexChar(v / 16), HexChar(v % 16)]
  }

  /** `#rrggbb` in lower case. */
  function RgbToHex(c: Rgb): (s: string)
    requires InRange(c)
    ensures |s| == 7 && s[0] == '#'
    ensures forall i :: 1 <= i < 7 ==> IsHexDigit(s[i]) && !('A' <= s[i] <= 'F')
  {
    "#" + Hex2(c.r) + Hex2(c.g) + Hex2(c.b)
  }

  function AdjustBrightness(hex: string, percent: int): (s: string)
    ensures |s| == 7 && s[0] == '#'
    ensures forall i :: 1 <= i < 7 ==> IsHexDigit(s[i]) && !('A' <= s[i] <= 'F')
  {
    var c := HexToRgb(hex);
    RgbToHex(Rgb(Adjust(c.r, percent), Adjust(c.g, percent), Adjust(c.b, percent)))
  }

  /** Reading back a written colour gives the colour. */
  lemma HexRoundTrip(c: Rgb)
    requires InRange(c)
    ensures HexToRgb(RgbToHex(c)) == c
  {
    var s := RgbToHex(c);
    assert s[1..] == Hex2(c.r) + Hex2(c.g) + Hex2(c.b);
    assert HexDigits(s) == Some(s[1..]);
  }

  /** The adjusted colour read back has each channel scaled, rounded and clamped. */
  lemma AdjustReadsBack(hex: string, percent: int)
    ensures var c := HexToRgb(hex);
            HexToRgb(AdjustBrightness(hex, percent))
              == Rgb(Adjust(c.r, percent), Adjust(c.g, percent), Adjust(c.b, percent))
  {
    var c := HexToRgb(hex);
    HexRoundTrip(Rgb(Adjust(c.r, percent), Adjust(c.g, percent), Adjust(c.b, percent)));
  }

  /** Zero percent leaves every byte as it is. */
  lemma AdjustZero(value: nat)
    requires IsByte(value)
    ensures Adjust(value, 0) == value
  {
    assert Round(value * 100, 100) == (200 * value + 100) / 200;
  }

  lemma HalfUpMonotone(a: int, b: int)
    requires a <= b
    ensures a / 200 <= b / 200
  {
  }

  /** A negative percent never brightens a channel and a positive one never darkens it. */
  lemma AdjustDirection(value: nat, percent: int)
    requires IsByte(value)
    ensures percent <= 0 ==> Adjust(value, percent) <= value
    ensures percent >= 0 ==> Adjust(value, percent) >= value
  {
    var n := 2 * (value * (100 + percent)) + 100;
    var m := 200 * value + 100;
    assert n == m + 2 * (value * percent);
    assert m / 200 == value;
    if percent <= 0 {
      assert value * percent <= 0;
      HalfUpMonotone(n, m);
    } else {
      assert value * percent >= 0;
      HalfUpMonotone(m, n);
    }
  }

  /** Lower-casing of hex digits. */
  function LowerHex(s: string): (r: string)
    ensures |r| == |s|
  {
    seq(|s|, i requires 0 <= i < |s| => if 'A' <= s[i] <= 'F' then (s[i] as int + 32) as char else s[i])
  }

  lemma Hex2OfByte(hi: char, lo: char)
    requires IsHexDigit(hi) && IsHexDigit(lo)
    ensures Hex2(ByteOf(hi, lo)) == LowerHex([hi, lo])
  {
    var v := ByteOf(hi, lo);
    assert v / 16 == HexDigitValue(hi) && v % 16 == HexDigitValue(lo);
  }

  lemma LowerHexConcat(a: string, b: string)
    ensures LowerHex(a + b) == LowerHex(a) + LowerHex(b)
  {
  }

  /** The text of a valid colour, read back as bytes and written again, is its lower-case form. */
  lemma RgbToHexOfDigits(hex: string)
    requires HexDigits(hex).Some?
    ensures RgbToHex(HexToRgb(hex)) == "#" + LowerHex(HexDigits(hex).value)
  {
    var d := HexDigits(hex).value;
    Hex2OfByte(d[0], d[1]);
    Hex2OfByte(d[2], d[3]);
    Hex2OfByte(d[4], d[5]);
    assert d == [d[0], d[1]] + [d[2], d[3]] + [d[4], d[5]];
    LowerHexConcat([d[0], d[1]], [d[2], d[3]]);
    LowerHexConcat([d[0], d[1]] + [d[2], d[3]], [d[4], d[5]]);
  }

  /** With percent 0 a valid colour comes back as itself, lower-cased and with its '#'. */
  lemma AdjustZeroIsLowerCase(hex: string)
    requires HexDigits(hex).Some?
    ensures AdjustBrightness(hex, 0) == "#" + LowerHex(HexDigits(hex).value)
  {
    var c := HexToRgb(hex);
    AdjustZero(c.r);
    AdjustZero(c.g);
    AdjustZero(c.b);
    assert Rgb(Adjust(c.r, 0), Adjust(c.g, 0), Adjust(c.b, 0)) == c;
    RgbToHexOfDigits(hex);
  }

  // ---------------------------------------------------------------------
  // ThemeManager
  // ---------------------------------------------------------------------

  const DefaultTheme: string := "#25D366"

  /** The answer of GET /api/theme: the stored theme (possibly empty), or a failed request. */
  datatype ThemeAnswer = Answered(theme: Option<string>) | RequestFailed

  predicate Distinct(colors: seq<string>)
  {
    forall i, j :: 0 <= i < j < |colors| ==> colors[i] != colors[j]
  }

  /**
   * `if (!this.colors.includes(color)) this.colors.push(color)`: every colour
   * and the order are kept, the colour is added once at the end when it is
   * new (so adding it again changes nothing), and a duplicate-free list
   * stays duplicate-free.
   */
  function AddColor(colors: seq<string>, color: string): (r: seq<string>)
    ensures |r| == |colors| + (if color in colors then 0 else 1)
    ensures r[..|colors|] == colors && color in r
    ensures Distinct(colors) ==> Distinct(r)
  {
    if color in colors then colors else colors + [color]
  }

  class ThemeManager {
    /** this.currentTheme: null until the theme is loaded or saved. */
    var currentTheme: Option<string>
    /** this.colors */
    var colors: seq<string>
    /** localStorage 'customThemeColors' */
    var stored: Option<seq<string>>

    constructor(stored: Option<seq<string>>)
      ensures currentTheme == None && colors == [] && this.stored == stored
    {
      currentTheme := None;
      colors := [];
      this.stored := stored;
    }

    /** loadTheme: the server's theme, or the default when it is empty or the request fails. */
    method LoadTheme(answer: ThemeAnswer)
      modifies this
      ensures currentTheme == Some(
                if answer.Answered? && answer.theme.Some? && answer.theme.value != "" then answer.theme.value
                else DefaultTheme)
      ensures colors == old(colors) && stored == old(stored)
    {
      if answer.Answered? && answer.theme.Some? && answer.theme.value != "" {
        currentTheme := Some(answer.theme.value);
      } else {
        currentTheme := Some(DefaultTheme);
      }
    }

    /** loadCustomColors: the stored list replaces the list when there is one. */
    method LoadCustomColors()
      modifies this
      ensures colors == if stored.Some? then stored.value else old(colors)
      ensures currentTheme == old(currentTheme) && stored == old(stored)
    {
      if stored.Some? {
        colors := stored.value;
      }
    }

    /** saveTheme: the theme changes only when the server reports success. */
    method SaveTheme(color: string, serverSuccess: bool)
      modifies this
      ensures currentTheme == if serverSuccess then Some(color) else old(currentTheme)
      ensures colors == old(colors) && stored == old(stored)
    {
      if serverSuccess {
        currentTheme := Some(color);
      }
    }

    /** addCustomColor: a new colour is appended and stored; the theme is then saved in every case. */
    method AddCustomColor(color: string, serverSuccess: bool)
      modifies this
      ensures colors == AddColor(old(colors), color)
      ensures stored == if color in old(colors) then old(stored) else Some(colors)
      ensures currentTheme == if serverSuccess then Some(color) else old(currentTheme)
    {
      if color !in colors {
        colors := colors + [color];
        stored := Some(colors);
      }
      SaveTheme(color, serverSuccess);
    }
  }
}
