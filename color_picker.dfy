/**
 * The colour picker's hex side: the hex text field with its validation
 * gate, the RGB read-out and the quick-colour palette. The picker reports
 * colours through `onChange`; the model records those calls in order.
 */
module ColorPicker {
  import opened JsPrelude

  // ------------------------------------------------------------ hex digits and parseInt

  predicate IsHexDigit(c: char)
  {
    '0' <= c <= '9' || 'a' <= c <= 'f' || 'A' <= c <= 'F'
  }

  function HexDigitValue(c: char): (d: int)
    requires IsHexDigit(c)
    ensures 0 <= d < 16
  {
    if '0' <= c <= '9' then c as int - '0' as int
    else if 'a' <= c <= 'f' then c as int - 'a' as int + 10
    else c as int - 'A' as int + 10
  }

  /** The length of the run of hex digits at the head of `s`. */
  function HexRun(s: string): (n: nat)
    ensures n <= |s|
    ensures forall i :: 0 <= i < n ==> IsHexDigit(s[i])
    ensures n < |s| ==> !IsHexDigit(s[n])
  {
    if s != [] && IsHexDigit(s[0]) then 1 + HexRun(s[1..]) else 0
  }

  /** The value of a string of hex digits, most significant first. */
  function HexValue(s: string): (v: nat)
    requires forall i :: 0 <= i < |s| ==> IsHexDigit(s[i])
  {
    if s == [] then 0 else HexValue(s[..|s| - 1]) * 16 + HexDigitValue(s[|s| - 1])
  }

  /**
   * `parseInt(s, 16)`: leading white space, an optional sign and an optional
   * `0x`/`0X` are skipped, then the longest run of hex digits is read; with no
   * digit the result is NaN (`None`).
   */
  function ParseIntHex(s: string): (r: Option<int>)
    ensures r.Some? ==> exists i :: 0 <= i < |s| && IsHexDigit(s[i])
  {
    var t := s[SpaceRun(s)..];
    var negative := t != [] && t[0] == '-';
    var u := if t != [] && (t[0] == '-' || t[0] == '+') then t[1..] else t;
    var w := if |u| >= 2 && u[0] == '0' && (u[1] == 'x' || u[1] == 'X') then u[2..] else u;
    var n := HexRun(w);
    if n == 0 then None
    else
      assert w[0] == s[|s| - |w|];
      var v: int := HexValue(w[..n]);
      Some(if negative then -v else v)
  }

  /** `s.slice(a, b)` for non-negative bounds: both are clipped to the length. */
  function Slice(s: string, a: nat, b: nat): (r: string)
    ensures a <= b <= |s| ==> r == s[a..b]
  {
    var start := if a <= |s| then a else |s|;
    var end := if b <= |s| then b else |s|;
    if start >= end then "" else s[start..end]
  }

  /** Two hex digits read by `parseInt(…, 16)`: the byte they spell. */
  lemma ParsePair(s: string)
    requires |s| == 2 && IsHexDigit(s[0]) && IsHexDigit(s[1])
    ensures ParseIntHex(s) == Some(16 * HexDigitValue(s[0]) + HexDigitValue(s[1]))
    ensures 0 <= 16 * HexDigitValue(s[0]) + HexDigitValue(s[1]) <= 255
  {
    assert !IsJsSpace(s[0]);
    assert SpaceRun(s) == 0;
    assert s[0..] == s;
    assert HexRun(s) == 2 by {
      assert HexRun(s[1..]) == 1 by { assert s[1..][1..] == []; }
    }
    assert s[..2] == s;
    assert s[..1][..0] == [];
    assert HexValue(s[..1]) == HexDigitValue(s[0]);
    assert HexValue(s) == 16 * HexDigitValue(s[0]) + HexDigitValue(s[1]);
  }

  // ------------------------------------------------------------ hexToRgb

  /** `/^#[0-9A-Fa-f]{6}$/`: a '#' and exactly six hex digits. */
  predicate IsHexColor(s: string)
  {
    |s| == 7 && s[0] == '#' && forall i :: 1 <= i < 7 ==> IsHexDigit(s[i])
  }

  /** The RGB read-out; a component is NaN (`None`) when its slice holds no hex digit. */
  datatype Rgb = Rgb(r: Option<int>, g: Option<int>, b: Option<int>)

  /** `hexToRgb`: each component is `parseInt` of its two-character slice. */
  function HexToRgb(hex: string): Rgb
  {
    Rgb(ParseIntHex(Slice(hex, 1, 3)), ParseIntHex(Slice(hex, 3, 5)), ParseIntHex(Slice(hex, 5, 7)))
  }

  /** A byte from the pair of hex digits at `i` and `i + 1`. */
  function PairValue(s: string, i: int): int
    requires 0 <= i && i + 1 < |s| && IsHexDigit(s[i]) && IsHexDigit(s[i + 1])
  {
    16 * HexDigitValue(s[i]) + HexDigitValue(s[i + 1])
  }

  /** The two-character slice at `k` of any string with hex digits there parses to the byte they spell. */
  lemma ParseSliceAt(hex: string, k: nat)
    requires k + 1 < |hex| && IsHexDigit(hex[k]) && IsHexDigit(hex[k + 1])
    ensures ParseIntHex(Slice(hex, k, k + 2)) == Some(PairValue(hex, k))
    ensures 0 <= PairValue(hex, k) <= 255
  {
    var pair := Slice(hex, k, k + 2);
    assert pair == hex[k..k + 2];
    assert pair[0] == hex[k] && pair[1] == hex[k + 1];
    ParsePair(pair);
  }

  /** The slice of a valid colour at `k` is the digit pair there, and parses to the byte it spells. */
  lemma ParseSliceOfValid(hex: string, k: int)
    requires IsHexColor(hex) && (k == 1 || k == 3 || k == 5)
    ensures ParseIntHex(Slice(hex, k, k + 2)) == Some(PairValue(hex, k))
    ensures 0 <= PairValue(hex, k) <= 255
  {
    assert IsHexDigit(hex[k]) && IsHexDigit(hex[k + 1]);
    ParseSliceAt(hex, k);
  }

  /** For a valid colour each component is the byte its digit pair spells, each in 0..255. */
  lemma HexToRgbOfValid(hex: string)
    requires IsHexColor(hex)
    ensures HexToRgb(hex) == Rgb(Some(PairValue(hex, 1)), Some(PairValue(hex, 3)), Some(PairValue(hex, 5)))
    ensures 0 <= PairValue(hex, 1) <= 255 && 0 <= PairValue(hex, 3) <= 255 && 0 <= PairValue(hex, 5) <= 255
  {
    ParseSliceOfValid(hex, 1);
    ParseSliceOfValid(hex, 3);
    ParseSliceOfValid(hex, 5);
  }

  /** The upper-case hex digit of a value 0..15. */
  function UpperHexDigit(d: int): (c: char)
    requires 0 <= d < 16
    ensures IsHexDigit(c) && HexDigitValue(c) == d
  {
    if d < 10 then ('0' as int + d) as char else ('A' as int + d - 10) as char
  }

  /** A colour as "#RRGGBB" with upper-case digits, the palette's spelling. */
  function RgbToHex(r: int, g: int, b: int): (s: string)
    requires 0 <= r < 256 && 0 <= g < 256 && 0 <= b < 256
    ensures IsHexColor(s)
  {
    ['#', UpperHexDigit(r / 16), UpperHexDigit(r % 16), UpperHexDigit(g / 16),
     UpperHexDigit(g % 16), UpperHexDigit(b / 16), UpperHexDigit(b % 16)]
  }

  /** Reading back a written colour gives the components it was written from. */
  lemma RgbRoundTrip(r: int, g: int, b: int)
    requires 0 <= r < 256 && 0 <= g < 256 && 0 <= b < 256
    ensures HexToRgb(RgbToHex(r, g, b)) == Rgb(Some(r), Some(g), Some(b))
  {
    var s := RgbToHex(r, g, b);
    HexToRgbOfValid(s);
    assert PairValue(s, 1) == r && PairValue(s, 3) == g && PairValue(s, 5) == b;
  }

  // ------------------------------------------------------------ the quick palette

  /** The quick colours: four rows of five. */
  const QuickColors: seq<seq<string>> := [
    ["#FF6B6B", "#4ECDC4", "#45B7D1", "#96CEB4", "#FFEAA7"],
    ["#DDA0DD", "#98D8E8", "#F7DC6F", "#BB8FCE", "#F8C471"],
    ["#85C1E9", "#8E44AD", "#27AE60", "#E91E63", "#FF9800"],
    ["#000000", "#424242", "#9E9E9E", "#BDBDBD", "#FFFFFF"]]

  /** The palette is four rows of five, each colour a valid six-digit hex string. */
  lemma QuickPaletteIsValid(row: int, col: int)
    requires 0 <= row < 4 && 0 <= col < 5
    ensures |QuickColors| == 4 && |QuickColors[row]| == 5
    ensures IsHexColor(QuickColors[row][col])
  {
    var c := QuickColors[row][col];
    assert |c| == 7 && c[0] == '#';
    forall i | 1 <= i < 7 ensures IsHexDigit(c[i]) { }
  }

  // ------------------------------------------------------------ the hex field

  class HexField {
    /** The text shown in the hex input. */
    var hexInput: string
    /** The colours passed to `onChange`, oldest first. */
    var reported: seq<string>

    /** Every colour the hex field and the palette report is a valid hex colour. */
    predicate Valid()
      reads this
    {
      forall i :: 0 <= i < |reported| ==> IsHexColor(reported[i])
    }

    /** `useState(value)`. */
    constructor (value: string)
      ensures hexInput == value && reported == [] && Valid()
    {
      hexInput := value;
      reported := [];
    }

    /** `handleHexChange`: the text is always kept; it is reported only when it is a complete hex colour. */
    method HexChange(newHex: string)
      requires Valid()
      modifies this
      ensures Valid() && hexInput == newHex
      ensures reported == old(reported) + (if IsHexColor(newHex) then [newHex] else [])
    {
      hexInput := newHex;
      if IsHexColor(newHex) {
        reported := reported + [newHex];
      }
    }

    /** A quick-colour click: reports the colour and shows it in the field. */
    method QuickColorClick(row: int, col: int)
      requires Valid() && 0 <= row < 4 && 0 <= col < 5
      modifies this
      ensures Valid() && hexInput == QuickColors[row][col]
      ensures reported == old(reported) + [QuickColors[row][col]]
    {
      QuickPaletteIsValid(row, col);
      hexInput := QuickColors[row][col];
      reported := reported + [hexInput];
    }

    /** The effect on a changed `value` prop: the field shows the new value; nothing is reported. */
    method ValueChanged(value: string)
      modifies this
      ensures hexInput == value && reported == old(reported)
    {
      hexInput := value;
    }
  }

  /** Partial text such as "#12" stays in the field but is not reported; the completed text is. */
  method TypingExample() returns (field: HexField)
    ensures field.hexInput == "#12AB3F" && field.reported == ["#12AB3F"]
  {
    field := new HexField("#000000");
    field.HexChange("#12");
    assert !IsHexColor("#12");
    field.HexChange("#12AB3F");
    assert IsHexColor("#12AB3F") by {
      var s := "#12AB3F";
      forall i | 1 <= i < 7 ensures IsHexDigit(s[i]) { }
    }
  }
}
