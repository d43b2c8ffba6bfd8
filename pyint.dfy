/**
  Python's base-16 integer conversions on text: `int(s, 16)` and the format
  specifications `'X'` and `'02X'` used by f-strings such as `f'{r:02X}'`.
*/
module PyInt {
  import opened Wrappers
  import opened Text

  predicate IsHexDigit(c: char) {
    IsDigit(c) || ('a' <= c <= 'f') || ('A' <= c <= 'F')
  }

  predicate AllHex(s: string) {
    forall i :: 0 <= i < |s| ==> IsHexDigit(s[i])
  }

  /**
    The whitespace `int()` skips around its digits: the six ASCII blanks, and the
    characters beyond ASCII that `str.isspace` accepts. The separators U+001C to
    U+001F, which `str.isspace` also accepts, are not skipped.
  */
  predicate IntSpace(c: char) {
    ('\t' <= c <= '\r') || c == ' ' || c == '\U{85}' || c == '\U{A0}'
    || c == '\U{1680}' || ('\U{2000}' <= c <= '\U{200A}') || c == '\U{2028}' || c == '\U{2029}'
    || c == '\U{202F}' || c == '\U{205F}' || c == '\U{3000}'
  }

  /** The file, group, record and unit separators U+001C to U+001F. */
  predicate IsSeparator(c: char) {
    '\U{1C}' <= c <= '\U{1F}'
  }

  /** What `int()` skips is exactly the `str.isspace` set without the separators. */
  lemma IntSpaceIsSpace(c: char)
    ensures IntSpace(c) <==> IsSpace(c) && !IsSeparator(c)
  {
  }

  /** The blanks `int()` skips around the number. */
  function IntStrip(s: string): string {
    StripWhere(s, IntSpace)
  }

  /** No hex digit is whitespace. */
  lemma HexNotSpace(c: char)
    ensures IsHexDigit(c) ==> !IsSpace(c) && !IntSpace(c)
  {
  }

  /** Text with no skipped blank at either end is left as it is. */
  lemma IntStripNoEdge(s: string)
    requires |s| > 0 && !IntSpace(s[0]) && !IntSpace(s[|s| - 1])
    ensures IntStrip(s) == s
  {
    assert LStripWhere(s, IntSpace) == s;
  }

  /** A leading skipped blank makes no difference. */
  lemma LeadingIntSpace(c: char, t: string)
    requires IntSpace(c)
    ensures IntStrip([c] + t) == IntStrip(t)
  {
    assert ([c] + t)[1..] == t;
  }

  function HexDigitValue(c: char): (v: nat)
    requires IsHexDigit(c)
    ensures v < 16
  {
    if IsDigit(c) then c as int - '0' as int
    else if 'a' <= c <= 'f' then c as int - 'a' as int + 10
    else c as int - 'A' as int + 10
  }

  /** The value of a string of hex digits, most significant first. */
  function HexValue(s: string): nat
    requires AllHex(s)
    decreases |s|
  {
    if |s| == 0 then 0 else HexValue(s[..|s| - 1]) * 16 + HexDigitValue(s[|s| - 1])
  }

  /** The upper-case digit Python's `'X'` format writes for a value below 16. */
  function HexChar(d: nat): char
    requires d < 16
  {
    if d < 10 then ('0' as int + d) as char else ('A' as int + d - 10) as char
  }

  /** `format(n, 'X')` for a natural number. */
  function HexDigits(n: nat): (r: string)
    ensures |r| >= 1 && AllHex(r)
    decreases n
  {
    if n < 16 then [HexChar(n)] else HexDigits(n / 16) + [HexChar(n % 16)]
  }

  /** `format(n, '02X')`: at least two digits after an optional minus sign, zero padded. */
  function Format02X(n: int): string {
    if n < 0 then "-" + HexDigits(-n)
    else if n < 16 then "0" + HexDigits(n)
    else HexDigits(n)
  }

  /** The digits of a base-16 literal: hex digits, with single underscores only between digits. */
  predicate Grouped(v: string) {
    && |v| > 0 && IsHexDigit(v[0]) && IsHexDigit(v[|v| - 1])
    && forall i :: 0 <= i < |v| ==> IsHexDigit(v[i]) || (v[i] == '_' && i + 1 < |v| && IsHexDigit(v[i + 1]))
  }

  /**
    `int(s, 16)`: surrounding whitespace (`IntSpace`), an optional sign, an optional `0x`/`0X`
    prefix (which may be followed by one underscore) and underscore-grouped
    hex digits; `None` where Python raises `ValueError`.
  */
  function ParseInt16(s: string): Option<int> {
    ParseStripped(IntStrip(s))
  }

  /** `int(_, 16)` on text with no surrounding whitespace. */
  function ParseStripped(t: string): Option<int> {
    var negative := |t| > 0 && t[0] == '-';
    var u := if |t| > 0 && (t[0] == '+' || t[0] == '-') then t[1..] else t;
    var v := WithoutRadixPrefix(u);
    if Grouped(v) then
      var m: int := HexValue(Filter(v, IsHexDigit));
      Some(if negative then -m else m)
    else None
  }

  /** Drops a leading `0x`/`0X` and the one underscore allowed right after it. */
  function WithoutRadixPrefix(u: string): string {
    if |u| >= 2 && u[0] == '0' && (u[1] == 'x' || u[1] == 'X') then
      (if |u| >= 3 && u[2] == '_' then u[3..] else u[2..])
    else u
  }

  /**
    `int(s, 16)` for text of at most two characters: one or two hex digits, or
    one digit after a sign or a skipped blank, or before a skipped blank.
  */
  function ParseShort(s: string): Option<int>
    requires |s| <= 2
  {
    if |s| == 1 then
      (if IsHexDigit(s[0]) then Some(HexDigitValue(s[0]) as int) else None)
    else if |s| == 2 then
      if IsHexDigit(s[0]) && IsHexDigit(s[1]) then Some(HexDigitValue(s[0]) * 16 + HexDigitValue(s[1]))
      else if IsHexDigit(s[1]) && (s[0] == '+' || IntSpace(s[0])) then Some(HexDigitValue(s[1]) as int)
      else if IsHexDigit(s[1]) && s[0] == '-' then Some(-(HexDigitValue(s[1]) as int))
      else if IsHexDigit(s[0]) && IntSpace(s[1]) then Some(HexDigitValue(s[0]) as int)
      else None
    else None
  }

  /** On text of at most two characters the short form and the full `int(s, 16)` agree. */
  lemma {:induction false} ParseShortAgrees(s: string)
    requires |s| <= 2
    ensures ParseInt16(s) == ParseShort(s)
  {
    if |s| == 1 {
      OneChar(s);
    } else if |s| == 2 {
      if !IntSpace(s[0]) && !IntSpace(s[1]) {
        TwoNoSpace(s);
      } else if IntSpace(s[0]) && !IntSpace(s[1]) {
        TwoLeadSpace(s);
      } else if !IntSpace(s[0]) {
        TwoTrailSpace(s);
      } else {
        TwoSpaces(s);
      }
    }
  }

  lemma OneChar(s: string)
    requires |s| == 1
    ensures ParseInt16(s) == ParseShort(s)
  {
    if IntSpace(s[0]) {
      OneSpace(s);
    } else if IsHexDigit(s[0]) {
      ParseInt16Digits(s);
      assert s[..0] == [];
    } else {
      OneOther(s);
    }
  }

  lemma OneSpace(s: string)
    requires |s| == 1 && IntSpace(s[0])
    ensures ParseInt16(s) == None
  {
    assert IntStrip(s) == "";
  }

  lemma OneOther(s: string)
    requires |s| == 1 && !IntSpace(s[0]) && !IsHexDigit(s[0])
    ensures ParseInt16(s) == None
  {
    IntStripNoEdge(s);
  }

  lemma TwoNoSpace(s: string)
    requires |s| == 2 && !IntSpace(s[0]) && !IntSpace(s[1])
    ensures ParseInt16(s) == ParseShort(s)
  {
    IntStripNoEdge(s);
    assert ParseInt16(s) == ParseStripped(s);
    HexNotSpace(s[0]);
    if IsHexDigit(s[0]) && IsHexDigit(s[1]) {
      ParseInt16Digits(s);
      HexValuePair(s[0], s[1]);
      assert s == [s[0], s[1]];
    } else if s[0] == '+' || s[0] == '-' {
      SignThenChar(s);
    }
  }

  lemma SignThenChar(s: string)
    requires |s| == 2 && (s[0] == '+' || s[0] == '-')
    ensures ParseStripped(s) == ParseShort(s)
  {
    assert s[1..] == [s[1]];
    if IsHexDigit(s[1]) {
      FilterKeepsAll([s[1]], IsHexDigit);
      assert [s[1]][..0] == [];
      assert HexValue([s[1]]) == HexDigitValue(s[1]);
    }
  }

  lemma TwoLeadSpace(s: string)
    requires |s| == 2 && IntSpace(s[0]) && !IntSpace(s[1])
    ensures ParseInt16(s) == ParseShort(s)
  {
    HexNotSpace(s[0]);
    assert s == [s[0]] + [s[1]];
    LeadingIntSpace(s[0], [s[1]]);
    assert ParseInt16(s) == ParseInt16([s[1]]);
    OneChar([s[1]]);
    assert s[0] != '-' && s[0] != '+';
  }

  lemma TwoTrailSpace(s: string)
    requires |s| == 2 && !IntSpace(s[0]) && IntSpace(s[1])
    ensures ParseInt16(s) == ParseShort(s)
  {
    HexNotSpace(s[1]);
    assert RStripWhere(s[..1], IntSpace) == s[..1];
    assert IntStrip(s) == [s[0]];
    if IsHexDigit(s[0]) {
      ParseInt16Digits([s[0]]);
    }
  }

  lemma TwoSpaces(s: string)
    requires |s| == 2 && IntSpace(s[0]) && IntSpace(s[1])
    ensures ParseInt16(s) == ParseShort(s)
  {
    var tail := s[1..];
    assert tail[0] == s[1] && tail[1..] == [];
    assert LStripWhere(tail[1..], IntSpace) == [];
    assert LStripWhere(tail, IntSpace) == [];
    assert LStripWhere(s, IntSpace) == [];
    assert IntStrip(s) == [];
    HexNotSpace(s[0]);
    HexNotSpace(s[1]);
  }

  lemma HexCharIsHex(d: nat)
    requires d < 16
    ensures IsHexDigit(HexChar(d)) && HexDigitValue(HexChar(d)) == d
  {
  }

  /** Writing a digit's value back gives the digit in upper case. */
  lemma HexCharOfValue(c: char)
    requires IsHexDigit(c)
    ensures HexChar(HexDigitValue(c)) == ToUpper(c)
  {
  }

  lemma HexValuePair(a: char, b: char)
    requires IsHexDigit(a) && IsHexDigit(b)
    ensures AllHex([a, b]) && HexValue([a, b]) == HexDigitValue(a) * 16 + HexDigitValue(b)
  {
    assert [a, b][..1] == [a];
    assert [a][..0] == [];
    assert HexValue([a]) == HexDigitValue(a);
    assert HexValue([a, b]) == HexValue([a]) * 16 + HexDigitValue(b);
  }

  /** A byte is written as exactly two upper-case digits. */
  lemma Format02XByte(n: int)
    requires 0 <= n < 256
    ensures Format02X(n) == [HexChar(n / 16), HexChar(n % 16)]
  {
    if n >= 16 {
      assert HexDigits(n) == HexDigits(n / 16) + [HexChar(n % 16)];
    }
  }

  /** `int(s, 16)` of a non-empty string of plain hex digits is their value. */
  lemma {:induction false} ParseInt16Digits(p: string)
    requires |p| >= 1 && AllHex(p)
    ensures ParseInt16(p) == Some(HexValue(p))
  {
    HexNotSpace(p[0]);
    HexNotSpace(p[|p| - 1]);
    IntStripNoEdge(p);
    StrippedDigits(p);
  }

  lemma StrippedDigits(p: string)
    requires |p| >= 1 && AllHex(p)
    ensures ParseStripped(p) == Some(HexValue(p))
  {
    assert p[0] != '+' && p[0] != '-';
    if |p| >= 2 {
      assert p[1] != 'x' && p[1] != 'X';
    }
    assert WithoutRadixPrefix(p) == p;
    AllHexGrouped(p);
    FilterKeepsAll(p, IsHexDigit);
  }

  lemma AllHexGrouped(p: string)
    requires |p| >= 1 && AllHex(p)
    ensures Grouped(p)
  {
  }

  /** Whitespace around hex digits is skipped. */
  lemma {:induction false} ParseInt16StripsTo(s: string, p: string)
    requires IntStrip(s) == p && |p| >= 1 && AllHex(p)
    ensures ParseInt16(s) == Some(HexValue(p))
  {
    ParseInt16Digits(p);
    HexNotSpace(p[0]);
    HexNotSpace(p[|p| - 1]);
    IntStripNoEdge(p);
  }

  /** A whitespace character before hex digits is skipped. */
  lemma {:induction false} SpaceThenDigits(c: char, d: string)
    requires IntSpace(c) && |d| >= 1 && AllHex(d)
    ensures ParseInt16([c] + d) == Some(HexValue(d))
  {
    LeadingIntSpace(c, d);
    HexNotSpace(d[0]);
    HexNotSpace(d[|d| - 1]);
    IntStripNoEdge(d);
    ParseInt16StripsTo([c] + d, d);
  }

  /** A separator before hex digits is not skipped: `int(_, 16)` refuses the text, although `strip()` would drop it. */
  lemma {:induction false} SeparatorThenDigits(c: char, d: string)
    requires IsSeparator(c) && |d| >= 1 && AllHex(d)
    ensures IsSpace(c) && Strip([c] + d) == d
    ensures ParseInt16([c] + d) == None
  {
    SeparatorStrips(c, d);
    var t := [c] + d;
    assert t[0] == c && t[|t| - 1] == d[|d| - 1];
    SeparatorRefused(t);
  }

  lemma SeparatorStrips(c: char, d: string)
    requires IsSeparator(c) && |d| >= 1 && AllHex(d)
    ensures IsSpace(c) && Strip([c] + d) == d
  {
    LeadingSpaceStrip(c, d);
    HexNotSpace(d[0]);
    HexNotSpace(d[|d| - 1]);
    StripNoEdgeSpace(d);
  }

  lemma SeparatorRefused(t: string)
    requires |t| >= 2 && IsSeparator(t[0]) && IsHexDigit(t[|t| - 1])
    ensures ParseInt16(t) == None
  {
    HexNotSpace(t[|t| - 1]);
    IntStripNoEdge(t);
    assert WithoutRadixPrefix(t) == t;
    assert !Grouped(t);
  }

  /** A hex digit and a separator are not a number. */
  lemma SeparatorPair(a: char, c: char)
    requires IsHexDigit(a) && IsSeparator(c)
    ensures ParseShort([a, c]) == None
  {
    assert !IsHexDigit(c) && !IntSpace(c);
  }

  /** A `0x` or `0X` prefix before one hex digit is dropped: the value is the digit's. */
  lemma {:induction false} RadixPrefixParses(z: char, x: char, c: char)
    requires z == '0' && (x == 'x' || x == 'X') && IsHexDigit(c)
    ensures ParseInt16([z, x, c]) == Some(HexDigitValue(c) as int)
  {
    var h := [z, x, c];
    HexNotSpace(c);
    IntStripNoEdge(h);
    assert h[2..] == [c];
    assert WithoutRadixPrefix(h) == [c];
    assert Grouped([c]);
    FilterKeepsAll([c], IsHexDigit);
    assert [c][..0] == [];
    assert HexValue([c]) == HexDigitValue(c);
    assert ParseStripped(h) == Some(HexDigitValue(c) as int);
  }

  /** Formatting a byte with `'02X'` and parsing it with `int(_, 16)` gives the byte back. */
  lemma {:induction false} ByteRoundTrip(n: int)
    requires 0 <= n < 256
    ensures |Format02X(n)| == 2 && AllHex(Format02X(n))
    ensures ParseInt16(Format02X(n)) == Some(n)
  {
    var hi, lo := n / 16, n % 16;
    var f := Format02X(n);
    assert f == [HexChar(hi), HexChar(lo)] by { Format02XByte(n); }
    HexCharIsHex(hi);
    HexCharIsHex(lo);
    assert HexDigitValue(f[0]) * 16 + HexDigitValue(f[1]) == n;
    ParsePair(f);
  }

  /** Parsing two hex digits gives their value. */
  lemma ParsePair(p: string)
    requires |p| == 2 && AllHex(p)
    ensures ParseInt16(p) == Some(HexDigitValue(p[0]) * 16 + HexDigitValue(p[1]))
  {
    ParseInt16Digits(p);
    HexValueTwo(p);
  }

  lemma HexValueTwo(p: string)
    requires |p| == 2 && AllHex(p)
    ensures HexValue(p) == HexDigitValue(p[0]) * 16 + HexDigitValue(p[1])
  {
    var q := p[..1];
    assert q[..0] == [] && q[0] == p[0];
    assert HexValue(q) == HexDigitValue(p[0]);
  }

  /** Formatting the value of two hex digits with `'02X'` upper-cases them. */
  lemma FormatPair(a: char, b: char)
    requires IsHexDigit(a) && IsHexDigit(b)
    ensures Format02X(HexDigitValue(a) * 16 + HexDigitValue(b)) == [ToUpper(a), ToUpper(b)]
  {
    var n := HexDigitValue(a) * 16 + HexDigitValue(b);
    Format02XByte(n);
    assert n / 16 == HexDigitValue(a) && n % 16 == HexDigitValue(b);
    HexCharOfValue(a);
    HexCharOfValue(b);
  }
}
