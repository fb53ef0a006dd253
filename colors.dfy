/** The colour helpers of the visualisation layer: `hex_to_rgb` and `interpolate_colors`
    (poc_solsat_data_layer.py, its copy under main/function/compute_color/, and the
    definitions of `EnhancedSolarRooftopSystem`, which are the same code). */
module Colors {
  import opened Wrappers
  import opened Numeric

  datatype Rgb = Rgb(r: int, g: int, b: int)

  /** A colour argument: a hex string or an RGB tuple (which is passed through). */
  datatype Color = HexColor(hex: string) | RgbColor(rgb: Rgb)

  // ---------------------------------------------------------------- int(text, 16)

  /** The characters `str.strip()` and `int()` treat as white space. */
  predicate IsSpace(c: char)
  {
    || c == ' ' || '\t' <= c <= '\r' || '\U{1c}' <= c <= '\U{1f}' || c == '\U{85}' || c == '\U{a0}'
    || c == '\U{1680}' || '\U{2000}' <= c <= '\U{200a}' || c == '\U{2028}' || c == '\U{2029}'
    || c == '\U{202f}' || c == '\U{205f}' || c == '\U{3000}'
  }

  predicate IsHexDigit(c: char)
  {
    '0' <= c <= '9' || 'a' <= c <= 'f' || 'A' <= c <= 'F'
  }

  function HexDigitValue(c: char): (v: int)
    requires IsHexDigit(c)
    ensures 0 <= v < 16
  {
    if '0' <= c <= '9' then c as int - '0' as int
    else if 'a' <= c <= 'f' then c as int - 'a' as int + 10
    else c as int - 'A' as int + 10
  }

  /** The upper-case digit of a value below 16. */
  function HexDigitChar(v: int): (c: char)
    requires 0 <= v < 16
    ensures IsHexDigit(c) && HexDigitValue(c) == v
  {
    if v < 10 then ('0' as int + v) as char else ('A' as int + v - 10) as char
  }

  /** The value of a string of hex digits, most significant first. */
  function HexValue(s: string): (v: int)
    requires forall i :: 0 <= i < |s| ==> IsHexDigit(s[i])
    ensures 0 <= v
  {
    if s == [] then 0 else HexValue(s[..|s| - 1]) * 16 + HexDigitValue(s[|s| - 1])
  }

  function StripLeft(s: string): (r: string)
    ensures |r| <= |s|
  {
    if s != [] && IsSpace(s[0]) then StripLeft(s[1..]) else s
  }

  function StripRight(s: string): (r: string)
    ensures |r| <= |s|
  {
    if s != [] && IsSpace(s[|s| - 1]) then StripRight(s[..|s| - 1]) else s
  }

  /** `int(text, 16)` for a text of at most two characters: surrounding white space, an
      optional sign and one or two hex digits (a `0x` prefix or an underscore needs at least
      three characters). Anything else, the empty text included, is a ValueError. */
  function ParseHex(text: string): (r: Result<int>)
    requires |text| <= 2
    ensures r.Err? ==> r.error == ValueError
    ensures text == [] ==> r.Err?
    ensures |text| == 2 && IsHexDigit(text[0]) && IsHexDigit(text[1]) ==>
      r == Ok(HexDigitValue(text[0]) * 16 + HexDigitValue(text[1]))
  {
    var t := StripRight(StripLeft(text));
    assert |text| == 2 && IsHexDigit(text[0]) && IsHexDigit(text[1]) ==> t == text by {
      if |text| == 2 && IsHexDigit(text[0]) && IsHexDigit(text[1]) {
        assert StripLeft(text) == text;
      }
    }
    var negative := t != [] && t[0] == '-';
    var digits := if t != [] && (t[0] == '+' || t[0] == '-') then t[1..] else t;
    if digits != [] && forall i :: 0 <= i < |digits| ==> IsHexDigit(digits[i]) then
      assert |digits| == 2 ==> HexValue(digits) == HexDigitValue(digits[0]) * 16 + HexDigitValue(digits[1]) by {
        if |digits| == 2 { assert HexValue(digits[..1]) == HexDigitValue(digits[0]); }
      }
      Ok(if negative then -HexValue(digits) else HexValue(digits))
    else Err(ValueError)
  }

  // ---------------------------------------------------------------- hex_to_rgb

  /** `s.lstrip('#')` */
  function StripHashes(s: string): (r: string)
    ensures |r| <= |s| && (r != [] ==> r[0] != '#')
  {
    if s != [] && s[0] == '#' then StripHashes(s[1..]) else s
  }

  /** Python's `s[i:j]` for 0 <= i <= j: clipped at the end of the string. */
  function Slice(s: string, i: nat, j: nat): (r: string)
    requires i <= j
    ensures |r| <= j - i
  {
    if i >= |s| then [] else s[i..Min(j as real, |s| as real).Floor]
  }

  /** `hex_to_rgb`: three two-character slices at 0, 2 and 4 of the text after its leading
      '#'s, each read as a base-16 integer; the first slice that does not parse raises. */
  function HexToRgb(hex: string): (r: Result<Rgb>)
    ensures r.Err? ==> r.error == ValueError
    ensures |StripHashes(hex)| <= 4 ==> r.Err?
    ensures (|StripHashes(hex)| >= 6 && forall i :: 0 <= i < 6 ==> IsHexDigit(StripHashes(hex)[i])) ==>
      r.Ok? && 0 <= r.value.r <= 255 && 0 <= r.value.g <= 255 && 0 <= r.value.b <= 255
  {
    var s := StripHashes(hex);
    var red := ParseHex(Slice(s, 0, 2));
    var green := ParseHex(Slice(s, 2, 4));
    var blue := ParseHex(Slice(s, 4, 6));
    if red.Err? then Err(red.error)
    else if green.Err? then Err(green.error)
    else if blue.Err? then Err(blue.error)
    else
      assert |s| >= 6 && (forall i :: 0 <= i < 6 ==> IsHexDigit(s[i])) ==>
        0 <= red.value <= 255 && 0 <= green.value <= 255 && 0 <= blue.value <= 255 by {
        if |s| >= 6 && forall i :: 0 <= i < 6 ==> IsHexDigit(s[i]) {
          assert Slice(s, 0, 2) == s[0..2] && Slice(s, 2, 4) == s[2..4] && Slice(s, 4, 6) == s[4..6];
        }
      }
      Ok(Rgb(red.value, green.value, blue.value))
  }

  /** The two upper-case hex digits of a byte. */
  function HexByte(v: int): (s: string)
    requires 0 <= v <= 255
    ensures |s| == 2 && IsHexDigit(s[0]) && IsHexDigit(s[1])
  {
    [HexDigitChar(v / 16), HexDigitChar(v % 16)]
  }

  /** `#RRGGBB` */
  function RgbToHex(c: Rgb): (s: string)
    requires 0 <= c.r <= 255 && 0 <= c.g <= 255 && 0 <= c.b <= 255
    ensures |s| == 7 && s[0] == '#'
  {
    "#" + HexByte(c.r) + HexByte(c.g) + HexByte(c.b)
  }

  /** Reading the two hex digits of a byte gives the byte back. */
  lemma HexByteRoundTrip(v: int)
    requires 0 <= v <= 255
    ensures ParseHex(HexByte(v)) == Ok(v)
  {
    assert v / 16 * 16 + v % 16 == v;
  }

  /** Parsing the `#RRGGBB` form of a colour gives the colour back. */
  lemma HexToRgbRoundTrip(c: Rgb)
    requires 0 <= c.r <= 255 && 0 <= c.g <= 255 && 0 <= c.b <= 255
    ensures HexToRgb(RgbToHex(c)) == Ok(c)
  {
    var hex := RgbToHex(c);
    var s := hex[1..];
    assert s == HexByte(c.r) + HexByte(c.g) + HexByte(c.b);
    assert StripHashes(hex) == s by {
      assert s[0] != '#' by { assert IsHexDigit(s[0]); }
    }
    assert Slice(s, 0, 2) == HexByte(c.r) && Slice(s, 2, 4) == HexByte(c.g) && Slice(s, 4, 6) == HexByte(c.b);
    HexByteRoundTrip(c.r);
    HexByteRoundTrip(c.g);
    HexByteRoundTrip(c.b);
  }

  // ---------------------------------------------------------------- interpolate_colors

  /** `np.linspace(0, 1, n)[k]`: k / (n - 1), and 0 for a single sample. */
  function Ratio(n: nat, k: nat): (t: real)
    requires k < n
    ensures 0.0 <= t <= 1.0 && (k == 0 ==> t == 0.0) && (n >= 2 && k == n - 1 ==> t == 1.0)
  {
    if n == 1 then 0.0
    else
      var t := k as real / (n - 1) as real;
      assert t * (n - 1) as real == k as real;
      assert t <= 1.0 by { if t > 1.0 { MulLt(1.0, t, (n - 1) as real); } }
      t
  }

  /** `.astype(np.uint8)` of a float: truncation toward zero, reduced modulo 256 (the x86
      behaviour for values out of range). */
  function CastUint8(x: real): (v: int)
    ensures 0 <= v < 256
    ensures 0.0 <= x < 256.0 ==> v == Trunc(x)
  {
    Trunc(x) % 256
  }

  /** One channel at ratio t: `start * (1 - t) + end * t`, cast to uint8. */
  function BlendChannel(a: int, b: int, t: real): int
  {
    CastUint8(a as real * (1.0 - t) + b as real * t)
  }

  function Blend(start: Rgb, end: Rgb, t: real): Rgb
  {
    Rgb(BlendChannel(start.r, end.r, t), BlendChannel(start.g, end.g, t), BlendChannel(start.b, end.b, t))
  }

  predicate IsByteColor(c: Rgb)
  {
    0 <= c.r <= 255 && 0 <= c.g <= 255 && 0 <= c.b <= 255
  }

  /** A colour argument as a tuple. */
  function ToRgb(c: Color): Result<Rgb>
  {
    match c
    case HexColor(hex) => HexToRgb(hex)
    case RgbColor(rgb) => Ok(rgb)
  }

  /** `interpolate_colors`: n rows blending from the start colour to the end colour. A hex
      argument that does not parse, or a negative n (in `np.linspace`), raises ValueError. */
  function InterpolateColors(start: Color, end: Color, n: int): (r: Result<seq<Rgb>>)
    ensures r.Err? <==> ToRgb(start).Err? || ToRgb(end).Err? || n < 0
    ensures r.Err? ==> r.error == ValueError
    ensures r.Ok? ==> |r.value| == n
  {
    var s := ToRgb(start);
    if s.Err? then Err(s.error)
    else
      var e := ToRgb(end);
      if e.Err? then Err(e.error)
      else if n < 0 then Err(ValueError)
      else Ok(seq(n, k requires 0 <= k < n => Blend(s.value, e.value, Ratio(n, k))))
  }

  /** v lies between a and b, in either order. */
  predicate Between(v: int, a: int, b: int)
  {
    a <= v <= b || b <= v <= a
  }

  /** a + (b - a) t, for t in [0, 1], lies between a and b. */
  lemma LerpBetween(a: real, b: real, t: real, x: real)
    requires 0.0 <= t <= 1.0 && x == a * (1.0 - t) + b * t
    ensures a <= b ==> a <= x <= b
    ensures b < a ==> b <= x <= a
  {
    var d := b - a;
    var td := t * d;
    assert x == a + td;
    if a <= b {
      MulLe(0.0, t, d);
      MulLe(t, 1.0, d);
      assert 0.0 <= td <= d;
    } else {
      MulLe(0.0, t, -d);
      MulLe(t, 1.0, -d);
      assert d <= td <= 0.0;
    }
  }

  /** A blended channel lies between the two end channels. */
  lemma BlendChannelBetween(a: int, b: int, t: real)
    requires 0 <= a <= 255 && 0 <= b <= 255 && 0.0 <= t <= 1.0
    ensures Between(BlendChannel(a, b, t), a, b)
  {
    var x := a as real * (1.0 - t) + b as real * t;
    LerpBetween(a as real, b as real, t, x);
    var v := Trunc(x);
    assert BlendChannel(a, b, t) == CastUint8(x) == v;
    assert v as real <= x < v as real + 1.0;
  }

  /** At ratio 0 a channel is the start channel, at ratio 1 the end channel. */
  lemma BlendChannelEnds(a: int, b: int)
    requires 0 <= a <= 255 && 0 <= b <= 255
    ensures BlendChannel(a, b, 0.0) == a && BlendChannel(a, b, 1.0) == b
  {
    assert a as real * (1.0 - 0.0) + b as real * 0.0 == a as real;
    assert a as real * (1.0 - 1.0) + b as real * 1.0 == b as real;
  }

  /** For byte colours, the first row is the start colour, the last row (n >= 2) is the end
      colour, and every channel of every row lies between the two end channels. */
  lemma InterpolateColorsRows(start: Color, end: Color, n: int)
    requires InterpolateColors(start, end, n).Ok?
    requires IsByteColor(ToRgb(start).value) && IsByteColor(ToRgb(end).value)
    ensures var rows := InterpolateColors(start, end, n).value;
      var s, e := ToRgb(start).value, ToRgb(end).value;
      && (n >= 1 ==> rows[0] == s)
      && (n >= 2 ==> rows[n - 1] == e)
      && forall k :: 0 <= k < n ==> Between(rows[k].r, s.r, e.r) && Between(rows[k].g, s.g, e.g) && Between(rows[k].b, s.b, e.b)
  {
    var rows := InterpolateColors(start, end, n).value;
    var s, e := ToRgb(start).value, ToRgb(end).value;
    assert forall k :: 0 <= k < n ==> rows[k] == Blend(s, e, Ratio(n, k));
    BlendChannelEnds(s.r, e.r);
    BlendChannelEnds(s.g, e.g);
    BlendChannelEnds(s.b, e.b);
    forall k | 0 <= k < n
      ensures Between(rows[k].r, s.r, e.r) && Between(rows[k].g, s.g, e.g) && Between(rows[k].b, s.b, e.b)
    {
      BlendChannelBetween(s.r, e.r, Ratio(n, k));
      BlendChannelBetween(s.g, e.g, Ratio(n, k));
      BlendChannelBetween(s.b, e.b, Ratio(n, k));
    }
  }
}
