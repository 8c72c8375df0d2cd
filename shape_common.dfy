/**
 * What both `Shape` classes share: the mutable `{ x, y, z }` objects that hold a
 * shape's origin and rotation, the colour record with its hex setter and the shading
 * of its channels, and the line-level reading of `.obj` text.
 */
module ShapeCommon {
  import opened Wrappers
  import opened JsNumber
  import opened JsString

  /** A `{ x, y, z }` object; shapes hold these by reference, so they can be shared and updated in place. */
  class Coords {
    var x: real
    var y: real
    var z: real

    constructor(x: real, y: real, z: real)
      ensures this.x == x && this.y == y && this.z == z
    {
      this.x := x;
      this.y := y;
      this.z := z;
    }
  }

  /**
   * A shape's colour: the hex string and its red, green and blue values. A channel that
   * `parseInt` cannot read is NaN in the source and `None` here.
   */
  datatype Color = Color(hex: string, r: Option<int>, g: Option<int>, b: Option<int>)

  /** The colour every new shape starts with. */
  const White: Color := Color("#FFFFFF", Some(255), Some(255), Some(255))

  /** The message `setColor` logs for a string that is not 7 characters long. */
  const HexError := "Not proper hex string was provided"

  /** What `console.error(HexError, hex)` prints: its two arguments separated by a space. */
  function HexErrorLog(hex: string): string
  {
    HexError + " " + hex
  }

  /** A fill or stroke style: an `rgb(r g b)` string or a colour name. */
  datatype Paint = Rgb(r: Option<int>, g: Option<int>, b: Option<int>) | Named(name: string)

  /** `Math.floor(channel * factor)`, as both renderers shade a colour channel; a NaN channel stays NaN. */
  function ShadeChannel(c: Option<int>, f: real): Option<int>
  {
    FloorOf(if c.Some? then Some(c.value as real * f) else None)
  }

  // ---------------------------------------------------------------------------
  // Number.parseInt(s, 16)

  /** The value of a hexadecimal digit, either case. */
  function HexDigit(c: char): (d: Option<int>)
    ensures d.Some? ==> 0 <= d.value < 16
    ensures d.Some? <==> ('0' <= c <= '9' || 'a' <= c <= 'f' || 'A' <= c <= 'F')
  {
    if '0' <= c <= '9' then Some(c as int - '0' as int)
    else if 'a' <= c <= 'f' then Some(c as int - 'a' as int + 10)
    else if 'A' <= c <= 'F' then Some(c as int - 'A' as int + 10)
    else None
  }

  /**
   * The white-space and line-terminator characters `parseInt` skips before the number: tab,
   * vertical tab, form feed, the byte-order mark, line feed, carriage return, the line and
   * paragraph separators, and every space separator of Unicode (space, no-break space, Ogham
   * space mark, the spaces U+2000 to U+200A, narrow no-break, medium mathematical and
   * ideographic space).
   */
  predicate IsSpace(c: char)
  {
    || c in {'\t', '\U{000B}', '\U{000C}', '\U{FEFF}', '\n', '\r', '\U{2028}', '\U{2029}'}
    || c in {' ', '\U{00A0}', '\U{1680}', '\U{202F}', '\U{205F}', '\U{3000}'}
    || '\U{2000}' <= c <= '\U{200A}'
  }

  /** `s` without its leading white space. */
  function TrimStart(s: string): (r: string)
    ensures |r| <= |s|
    ensures |r| > 0 ==> !IsSpace(r[0])
    decreases |s|
  {
    if |s| > 0 && IsSpace(s[0]) then TrimStart(s[1..]) else s
  }

  /** What `TrimStart` leaves is a suffix of `s`, and everything it cuts off is white space. */
  lemma {:induction false} TrimStartSuffix(s: string)
    ensures TrimStart(s) == s[|s| - |TrimStart(s)|..]
    ensures forall i | 0 <= i < |s| - |TrimStart(s)| :: IsSpace(s[i])
    decreases |s|
  {
    if |s| > 0 && IsSpace(s[0]) {
      TrimStartSuffix(s[1..]);
    }
  }

  /** The length of the longest prefix of `s` made of hex digits. */
  function HexRun(s: string): (n: nat)
    ensures n <= |s|
    ensures forall i | 0 <= i < n :: HexDigit(s[i]).Some?
    ensures n < |s| ==> HexDigit(s[n]).None?
    decreases |s|
  {
    if |s| > 0 && HexDigit(s[0]).Some? then 1 + HexRun(s[1..]) else 0
  }

  /** The value of a string of hex digits, most significant first. */
  function HexValue(s: string): (v: nat)
    requires forall i | 0 <= i < |s| :: HexDigit(s[i]).Some?
    decreases |s|
  {
    if |s| == 0 then 0 else 16 * HexValue(s[..|s| - 1]) + HexDigit(s[|s| - 1]).value
  }

  /** The digits `parseInt(_, 16)` reads once an optional sign has been taken off: a `0x` or `0X` prefix is skipped. */
  function AfterPrefix(s: string): string
  {
    if |s| >= 2 && s[0] == '0' && (s[1] == 'x' || s[1] == 'X') then s[2..] else s
  }

  /**
   * `Number.parseInt(s, 16)`: after leading white space, an optional sign and an optional `0x`,
   * the longest run of hex digits is read; with no digit at all the result is NaN (`None`).
   */
  function ParseHex(s: string): (r: Option<int>)
  {
    ParseSigned(TrimStart(s))
  }

  /** What `parseInt(_, 16)` reads once the leading white space is gone. */
  function ParseSigned(t: string): (r: Option<int>)
  {
    var negative := |t| > 0 && t[0] == '-';
    var unsigned := if |t| > 0 && (t[0] == '-' || t[0] == '+') then t[1..] else t;
    var digits := AfterPrefix(unsigned);
    var n := HexRun(digits);
    if n == 0 then None
    else
      var v: int := HexValue(digits[..n]);
      Some(if negative then -v else v)
  }

  /** A white-space character in front of the text changes nothing that `parseInt` reads. */
  lemma SpaceSkipped(c: char, s: string)
    requires IsSpace(c)
    ensures ParseHex([c] + s) == ParseHex(s)
  {
    assert ([c] + s)[1..] == s;
  }

  /** A single hex digit reads as its own value. */
  lemma SingleDigit(d: char)
    requires HexDigit(d).Some?
    ensures ParseHex([d]) == Some(HexDigit(d).value)
  {
    var s := [d];
    assert !IsSpace(d);
    assert TrimStart(s) == s;
    assert AfterPrefix(s) == s;
    assert HexRun(s) == 1 by {
      assert HexRun(s[1..]) == 0;
    }
    assert s[..1] == s;
    assert HexValue(s) == HexDigit(d).value by {
      assert s[..0] == [];
    }
  }

  /** The ideographic space is skipped: `parseInt("\u3000F", 16)` is 15. */
  lemma IdeographicSpaceSkipped()
    ensures ParseHex("\U{3000}F") == Some(15)
  {
    var f: string := ['F'];
    SingleDigit('F');
    SpaceSkipped('\U{3000}', f);
    assert ['\U{3000}'] + f == "\U{3000}F";
  }

  /** Two hex digits read as `16 * first + second`, a value in 0..255. */
  lemma HexPair(a: char, b: char)
    requires HexDigit(a).Some? && HexDigit(b).Some?
    ensures ParseHex([a, b]) == Some(16 * HexDigit(a).value + HexDigit(b).value)
    ensures 0 <= ParseHex([a, b]).value <= 255
  {
    var s := [a, b];
    assert !IsSpace(a);
    assert TrimStart(s) == s;
    assert AfterPrefix(s) == s by {
      if s[0] == '0' { assert !(s[1] == 'x' || s[1] == 'X'); }
    }
    assert HexRun(s[1..]) == 1 by {
      assert s[1..] == [b];
      assert HexRun([b][1..]) == 0;
    }
    assert s[..2] == s;
    assert s[..2][..1] == [a];
    assert HexValue([a]) == HexDigit(a).value by {
      assert [a][..0] == [];
    }
  }

  /** The lower-case hex digit of `d`. */
  function HexChar(d: nat): (c: char)
    requires d < 16
    ensures HexDigit(c) == Some(d)
  {
    if d < 10 then ('0' as int + d) as char else ('a' as int + d - 10) as char
  }

  /** A channel value written as two lower-case hex digits, as a `#rrggbb` string holds it. */
  function Hex2(v: nat): (s: string)
    requires v < 256
    ensures |s| == 2
  {
    [HexChar(v / 16), HexChar(v % 16)]
  }

  /** Reading back a two-digit hex string gives the value that was written. */
  lemma Hex2RoundTrip(v: nat)
    requires v < 256
    ensures ParseHex(Hex2(v)) == Some(v)
  {
    HexPair(HexChar(v / 16), HexChar(v % 16));
  }

  // ---------------------------------------------------------------------------
  // setColor

  /**
   * The colour `setColor(hex)` leaves: the current one when `hex` is not 7 characters long,
   * otherwise `hex` with the channels read from characters 1-2, 3-4 and 5-6.
   */
  function ColorFromHex(current: Color, hex: string): (c: Color)
  {
    if |hex| != 7 then current
    else Color(hex, ParseHex(Substring(hex, 1, 3)), ParseHex(Substring(hex, 3, 5)), ParseHex(Substring(hex, 5, 7)))
  }

  /** A string of the wrong length is refused and the colour stays what it was. */
  lemma ColorRejectsLength(current: Color, hex: string)
    requires |hex| != 7
    ensures ColorFromHex(current, hex) == current
  {
  }

  /** Characters `i` and `i + 1` of a string, when both are hex digits, read as one channel. */
  lemma HexPairAt(hex: string, i: nat)
    requires i + 2 <= |hex| && HexDigit(hex[i]).Some? && HexDigit(hex[i + 1]).Some?
    ensures ParseHex(Substring(hex, i, i + 2)) == Some(16 * HexDigit(hex[i]).value + HexDigit(hex[i + 1]).value)
    ensures 0 <= 16 * HexDigit(hex[i]).value + HexDigit(hex[i + 1]).value <= 255
  {
    assert Substring(hex, i, i + 2) == [hex[i], hex[i + 1]];
    HexPair(hex[i], hex[i + 1]);
  }

  /** The channel `setColor` reads from characters `i` and `i + 1` of a 7-character string. */
  function Channel(c: Color, i: nat): Option<int>
  {
    if i == 1 then c.r else if i == 3 then c.g else c.b
  }

  /**
   * A 7-character string whose characters `i` and `i + 1` (1, 3 or 5) are hex digits sets that
   * channel to their value, which lies in 0..255.
   */
  lemma ChannelAt(current: Color, hex: string, i: nat)
    requires |hex| == 7 && i in {1, 3, 5}
    requires HexDigit(hex[i]).Some? && HexDigit(hex[i + 1]).Some?
    ensures Channel(ColorFromHex(current, hex), i) == Some(16 * HexDigit(hex[i]).value + HexDigit(hex[i + 1]).value)
    ensures 0 <= 16 * HexDigit(hex[i]).value + HexDigit(hex[i + 1]).value <= 255
  {
    HexPairAt(hex, i);
  }

  /** Setting `#rrggbb` written from three channel values gives those values back. */
  lemma ColorRoundTrip(current: Color, r: nat, g: nat, b: nat)
    requires r < 256 && g < 256 && b < 256
    ensures var hex := "#" + Hex2(r) + Hex2(g) + Hex2(b);
      ColorFromHex(current, hex) == Color(hex, Some(r), Some(g), Some(b))
  {
    var hex := "#" + Hex2(r) + Hex2(g) + Hex2(b);
    assert Substring(hex, 1, 3) == Hex2(r);
    assert Substring(hex, 3, 5) == Hex2(g);
    assert Substring(hex, 5, 7) == Hex2(b);
    Hex2RoundTrip(r);
    Hex2RoundTrip(g);
    Hex2RoundTrip(b);
  }

  /** `points[i]` with a number index: an element only for a whole number inside the array, otherwise undefined. */
  function Indexed<T>(points: seq<T>, i: real): (p: Option<T>)
  {
    if i == i.Floor as real && 0 <= i.Floor < |points| then Some(points[i.Floor]) else None
  }

  // ---------------------------------------------------------------------------
  // .obj lines

  /** A line of `.obj` text cut at its first space: the keyword and the data after it. */
  datatype Head = Head(kind: string, data: string)

  /**
   * `line.substring(0, pivot)` and `line.substring(pivot + 1, line.length)` with `pivot = line.indexOf(' ')`.
   * A line without a space has an empty keyword and is all data.
   */
  function LineHead(line: string): (h: Head)
  {
    var pivot := IndexOf(line, ' ');
    Head(Substring(line, 0, pivot), Substring(line, pivot + 1, |line|))
  }

  /** A non-empty line whose keyword is exactly `kind`. */
  predicate IsKind(line: string, kind: string)
  {
    |line| > 0 && LineHead(line).kind == kind
  }

  /** The lines of `lines` whose keyword is `kind`, in order. */
  function KindLines(lines: seq<string>, kind: string): (r: seq<string>)
    ensures |r| <= |lines|
    ensures forall k | 0 <= k < |r| :: IsKind(r[k], kind)
  {
    if |lines| == 0 then []
    else
      var front := KindLines(lines[..|lines| - 1], kind);
      if IsKind(lines[|lines| - 1], kind) then front + [lines[|lines| - 1]] else front
  }

  /** The keyword is the text before the first space and the data the text after it; nothing is lost. */
  lemma LineHeadParts(line: string)
    ensures ' ' in line ==> line == LineHead(line).kind + " " + LineHead(line).data && ' ' !in LineHead(line).kind
    ensures ' ' !in line ==> LineHead(line) == Head("", line)
  {
    var pivot := IndexOf(line, ' ');
    if ' ' in line {
      assert line == line[..pivot] + " " + line[pivot + 1..];
    }
  }

  /** A face part's vertex index: the number before its first `/`, made zero-based. */
  function FaceIndex(num: string -> real, part: string): (i: real)
  {
    num(Split(part, '/')[0]) - 1.0
  }

  /** The errors `parseToShape` throws, with the zero-based line number the message names. */
  datatype ParseError =
    | BadVertex(line: nat, data: string)
    | BadFace(line: nat, parts: nat)
}
