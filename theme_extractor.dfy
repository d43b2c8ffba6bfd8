/**
  The pure helpers of theme extraction: turning CSS colour strings into
  `#RRGGBB`, deriving the secondary and accent colours from the primary,
  reducing a CSS `font-family` to one concrete font and mapping it to a
  PowerPoint-safe font, and merging several scraped themes.
*/
module ThemeExtractor {
  import opened Wrappers
  import opened Text
  import opened PyInt
  import opened ThemeModel

  // ---------------------------------------------------------------- colours

  /** The basic colour names understood, keyed by lower-case name. */
  function NamedColor(name: string): (r: Option<string>)
    ensures r.Some? ==> |r.value| == 7 && r.value[0] == '#'
    ensures r.Some? ==> 3 <= |name| <= 5 && forall i :: 0 <= i < |name| ==> 'a' <= name[i] <= 'z'
  {
    if name == "black" then Some("#000000")
    else if name == "white" then Some("#FFFFFF")
    else if name == "red" then Some("#FF0000")
    else if name == "green" then Some("#008000")
    else if name == "blue" then Some("#0000FF")
    else if name == "navy" then Some("#000080")
    else if name == "gray" then Some("#808080")
    else if name == "grey" then Some("#808080")
    else None
  }

  /** The length of the longest prefix of `s` whose characters satisfy `p`. */
  function Span(s: string, p: char -> bool): (n: nat)
    ensures n <= |s|
    ensures forall i :: 0 <= i < n ==> p(s[i])
    ensures n < |s| ==> !p(s[n])
    decreases |s|
  {
    if |s| > 0 && p(s[0]) then 1 + Span(s[1..], p) else 0
  }

  /** `\d+` at the start of `u`: the number and what follows it (greedy, and never needing to back off). */
  function Number(u: string): Option<(nat, string)> {
    var d := Span(u, IsDigit);
    if d == 0 then None else Some((DecValue(u[..d]), u[d..]))
  }

  /** `,\s*` at the start of `u`: what follows it. */
  function CommaSpaces(u: string): Option<string> {
    if |u| > 0 && u[0] == ',' then Some(u[1..][Span(u[1..], IsSpace)..]) else None
  }

  /** The pattern `(\d+),\s*(\d+),\s*(\d+)` matched at the start of `u`: the three numbers. */
  function MatchTriple(u: string): Option<(nat, nat, nat)> {
    match Number(u)
    case None => None
    case Some((r, u1)) =>
      match CommaSpaces(u1)
      case None => None
      case Some(u2) =>
        match Number(u2)
        case None => None
        case Some((g, u3)) =>
          match CommaSpaces(u3)
          case None => None
          case Some(u4) =>
            match Number(u4)
            case None => None
            case Some((b, _)) => Some((r, g, b))
  }

  /** The pattern `rgba?\((\d+),\s*(\d+),\s*(\d+)` matched at the start of `s`. */
  function MatchRgb(s: string): Option<(nat, nat, nat)> {
    if "rgba(" <= s then MatchTriple(s[5..])
    else if "rgb(" <= s then MatchTriple(s[4..])
    else None
  }

  /** `'#' + format(r, '02X') + format(g, '02X') + format(b, '02X')`. */
  function HexTriple(r: int, g: int, b: int): string {
    "#" + Format02X(r) + Format02X(g) + Format02X(b)
  }

  /**
    A CSS colour string as `#RRGGBB`: hex text upper-cased as it is, `rgb(...)`/`rgba(...)`
    written in hex (alpha ignored), the eight basic names looked up case-insensitively,
    and black for anything else.
  */
  function ParseColor(colorStr: string): (r: string)
    ensures |r| >= 1 && r[0] == '#'
  {
    if colorStr == "" || colorStr == "transparent" then "#000000"
    else
      var s := Strip(colorStr);
      if "#" <= s then
        assert Upper(s)[0] == ToUpper(s[0]);
        Upper(s)
      else match MatchRgb(s)
        case Some(t) => HexTriple(t.0, t.1, t.2)
        case None => NamedColor(Lower(s)).GetOr("#000000")
  }

  /** Empty input, exactly "transparent", and unrecognised text all give black. */
  lemma ParseColorBlack(s: string)
    ensures ParseColor("") == "#000000" && ParseColor("transparent") == "#000000"
    ensures s != "" && !("#" <= Strip(s)) && MatchRgb(Strip(s)).None? && NamedColor(Lower(Strip(s))).None?
            ==> ParseColor(s) == "#000000"
  {
  }

  /** Text starting with '#' (after stripping) is upper-cased, with no length or digit check. */
  lemma ParseColorHash(s: string)
    requires s != "transparent" && "#" <= Strip(s)
    ensures ParseColor(s) == Upper(Strip(s))
  {
  }

  lemma LowerLetter(c: char)
    requires IsLetter(ToLower(c))
    ensures IsLetter(c)
  {
  }

  /** The eight named colours are recognised in any mix of upper and lower case. */
  lemma {:induction false} ParseColorNamed(s: string)
    requires NamedColor(Lower(s)).Some?
    ensures ParseColor(s) == NamedColor(Lower(s)).value
  {
    var l := Lower(s);
    assert 3 <= |l| <= 5 && forall i :: 0 <= i < |l| ==> IsLetter(l[i]);
    forall i | 0 <= i < |s| ensures IsLetter(s[i]) {
      assert l[i] == ToLower(s[i]);
      LowerLetter(s[i]);
    }
    ParseColorLetters(s);
  }

  /** A word of three to five letters is looked up by name. */
  lemma {:induction false} ParseColorLetters(s: string)
    requires 3 <= |s| <= 5 && forall i :: 0 <= i < |s| ==> IsLetter(s[i])
    ensures ParseColor(s) == NamedColor(Lower(s)).GetOr("#000000")
  {
    assert s != "" && s != "transparent";
    LetterNotSpace(s[0]);
    LetterNotSpace(s[|s| - 1]);
    StripNoEdgeSpace(s);
    assert !("#" <= s);
    assert !("rgba(" <= s) by {
      if |s| == 5 { assert IsLetter(s[4]); }
    }
    assert !("rgb(" <= s) by {
      if |s| >= 4 { assert IsLetter(s[3]); }
    }
    assert MatchRgb(s) == None;
  }

  lemma DecValueDigits(n: nat)
    ensures DecValue(NatToString(n)) == n
    decreases n
  {
    if n >= 10 {
      var s := NatToString(n);
      DecValueDigits(n / 10);
      assert s[..|s| - 1] == NatToString(n / 10);
    }
  }

  /** A number written in decimal and followed by a non-digit is matched whole. */
  lemma NumberOf(n: nat, rest: string)
    requires |rest| == 0 || !IsDigit(rest[0])
    ensures Number(NatToString(n) + rest) == Some((n, rest))
  {
    var d := NatToString(n);
    var s := d + rest;
    assert forall i :: 0 <= i < |d| ==> s[i] == d[i];
    if |d| < |s| {
      assert s[|d|] == rest[0];
    }
    assert Span(s, IsDigit) == |d|;
    assert s[..|d|] == d && s[|d|..] == rest;
    DecValueDigits(n);
  }

  /** ", " before a non-space is matched by `,\s*`. */
  lemma CommaSpaceOf(rest: string)
    requires |rest| > 0 && !IsSpace(rest[0])
    ensures CommaSpaces(", " + rest) == Some(rest)
  {
    var u := (", " + rest)[1..];
    assert u == " " + rest;
    assert u[1..] == rest;
    assert Span(u, IsSpace) == 1;
  }

  /** The text `rgb(r, g, b)`, the form in which a browser reports a computed colour. */
  function RgbText(r: nat, g: nat, b: nat): string {
    "rgb(" + (NatToString(r) + (", " + (NatToString(g) + (", " + (NatToString(b) + ")")))))
  }

  /** Writing three numbers as `rgb(r, g, b)` and parsing it gives their hex form. */
  lemma {:induction false} ParseColorRgb(r: nat, g: nat, b: nat)
    ensures ParseColor(RgbText(r, g, b)) == HexTriple(r, g, b)
  {
    var s := RgbText(r, g, b);
    assert s[0] == 'r' && s[|s| - 1] == ')';
    assert s != "transparent" by { assert "transparent"[0] == 't'; }
    StripNoEdgeSpace(s);
    assert !("#" <= s);
    MatchRgbOf(r, g, b);
    assert ParseColor(s) == HexTriple(r, g, b) by {
      assert Strip(s) == s && MatchRgb(Strip(s)) == Some((r, g, b));
    }
  }

  lemma {:induction false} MatchRgbOf(r: nat, g: nat, b: nat)
    ensures MatchRgb(RgbText(r, g, b)) == Some((r, g, b))
  {
    var u := NatToString(r) + (", " + (NatToString(g) + (", " + (NatToString(b) + ")"))));
    var s := "rgb(" + u;
    assert s[..4] == "rgb(" && s[4..] == u;
    assert s[3] == '(';
    assert !("rgba(" <= s) by { assert "rgba("[3] == 'a'; }
    MatchTripleOf(r, g, b);
  }

  lemma {:induction false} MatchTripleOf(r: nat, g: nat, b: nat)
    ensures MatchTriple(NatToString(r) + (", " + (NatToString(g) + (", " + (NatToString(b) + ")"))))) == Some((r, g, b))
  {
    var sr, sg, sb := NatToString(r), NatToString(g), NatToString(b);
    var t3 := sb + ")";
    var t2 := sg + (", " + t3);
    NumberOf(r, ", " + t2);
    assert t2[0] == sg[0];
    CommaSpaceOf(t2);
    NumberOf(g, ", " + t3);
    assert t3[0] == sb[0];
    CommaSpaceOf(t3);
    NumberOf(b, ")");
    MatchTripleSteps(sr + (", " + t2), ", " + t2, t2, ", " + t3, t3, r, g, b);
  }

  /** The three numbers and two separators of the pattern, matched one after another. */
  lemma MatchTripleSteps(u: string, u1: string, u2: string, u3: string, u4: string, r: nat, g: nat, b: nat)
    requires Number(u) == Some((r, u1)) && CommaSpaces(u1) == Some(u2)
    requires Number(u2) == Some((g, u3)) && CommaSpaces(u3) == Some(u4)
    requires Number(u4).Some? && Number(u4).value.0 == b
    ensures MatchTriple(u) == Some((r, g, b))
  {
  }

  // ------------------------------------------------------- derived colours

  predicate IsHash(c: char) {
    c == '#'
  }

  /** Python's `s[i:j]` for `0 <= i <= j`: the bounds are clamped to the length. */
  function PySlice(s: string, i: nat, j: nat): (r: string)
    requires i <= j
    ensures |r| <= j - i
  {
    s[if i < |s| then i else |s|..if j < |s| then j else |s|]
  }

  /** `int(h[i:i+2], 16)` for `i` in 0, 2, 4 after stripping the leading '#' characters. */
  function Channels(primary: string): Option<(int, int, int)> {
    var h := LStripWhere(primary, IsHash);
    var r, g, b := Channel(h, 0), Channel(h, 2), Channel(h, 4);
    if r.Some? && g.Some? && b.Some? then Some((r.value, g.value, b.value)) else None
  }

  /** `int(h[i:i+2], 16)`, in the short form that agrees with `ParseInt16` on two characters (`ParseShortAgrees`). */
  function Channel(h: string, i: nat): Option<int> {
    ParseShort(PySlice(h, i, i + 2))
  }

  /** Integer division truncating toward zero, as `int()` of a quotient does. */
  function TruncDiv(a: int, d: nat): int
    requires d > 0
  {
    if a >= 0 then a / d else -((-a) / d)
  }

  /** `min(255, int(c * 1.3))`: for the values two hex characters can hold, `int(c * 1.3)` is `13c / 10` truncated. */
  function Lighten(c: int): (r: int)
    ensures r <= 255
  {
    var l := TruncDiv(13 * c, 10);
    if l < 255 then l else 255
  }

  const SecondaryFallback := "#0A77C0"
  const AccentFallback := "#FF5733"

  /** The primary colour lightened by 30% per channel; the fixed fallback when it does not parse. */
  function DeriveSecondaryColor(primary: string): (r: string)
    ensures Channels(primary).None? ==> r == SecondaryFallback
  {
    match Channels(primary)
    case None => SecondaryFallback
    case Some((red, green, blue)) => HexTriple(Lighten(red), Lighten(green), Lighten(blue))
  }

  /** The complement of the primary colour per channel; the fixed fallback when it does not parse. */
  function DeriveAccentColor(primary: string): (r: string)
    ensures Channels(primary).None? ==> r == AccentFallback
  {
    match Channels(primary)
    case None => AccentFallback
    case Some((red, green, blue)) => HexTriple(Complement(red), Complement(green), Complement(blue))
  }

  /** The complementary value of a colour channel. */
  function Complement(c: int): int
  {
    255 - c
  }

  /** A well-formed hex colour: '#' and six hex digits. */
  predicate IsSixHex(p: string) {
    |p| == 7 && p[0] == '#' && AllHex(p[1..])
  }

  lemma LStripOneHash(p: string)
    requires |p| >= 2 && p[0] == '#' && p[1] != '#'
    ensures LStripWhere(p, IsHash) == p[1..]
  {
    assert LStripWhere(p[1..], IsHash) == p[1..];
  }

  lemma TailSlice(p: string, i: nat, j: nat)
    requires 1 <= i <= j <= |p|
    ensures p[1..][i - 1..j - 1] == p[i..j]
  {
  }

  lemma ChannelOfPair(h: string, i: nat)
    requires i + 2 <= |h| && AllHex(h[i..i + 2])
    ensures Channel(h, i) == Some(HexValue(h[i..i + 2]))
  {
    var d := h[i..i + 2];
    assert PySlice(h, i, i + 2) == d;
    assert d == [d[0], d[1]];
    HexValuePair(d[0], d[1]);
  }

  /** The channels of a well-formed hex colour are the values of its three digit pairs. */
  lemma {:induction false} ChannelsOfSixHex(p: string)
    requires IsSixHex(p)
    ensures AllHex(p[1..3]) && AllHex(p[3..5]) && AllHex(p[5..7])
    ensures Channels(p) == Some((HexValue(p[1..3]), HexValue(p[3..5]), HexValue(p[5..7])))
  {
    var h := p[1..];
    assert IsHexDigit(h[0]);
    LStripOneHash(p);
    TailSlice(p, 1, 3);
    TailSlice(p, 3, 5);
    TailSlice(p, 5, 7);
    ChannelOfPair(h, 0);
    ChannelOfPair(h, 2);
    ChannelOfPair(h, 4);
  }

  /** Three bytes written as hex form a well-formed colour whose channels are those bytes. */
  lemma {:induction false} HexTripleBytes(r: int, g: int, b: int)
    requires 0 <= r < 256 && 0 <= g < 256 && 0 <= b < 256
    ensures IsSixHex(HexTriple(r, g, b))
    ensures HexTriple(r, g, b)[1..3] == Format02X(r) && HexTriple(r, g, b)[3..5] == Format02X(g)
    ensures HexTriple(r, g, b)[5..7] == Format02X(b)
    ensures Channels(HexTriple(r, g, b)) == Some((r, g, b))
  {
    HexDigitsValue(r);
    HexDigitsValue(g);
    HexDigitsValue(b);
    var p := HexTriple(r, g, b);
    assert p == "#" + Format02X(r) + Format02X(g) + Format02X(b);
    assert p[1..3] == Format02X(r) && p[3..5] == Format02X(g) && p[5..7] == Format02X(b);
    assert AllHex(p[1..]) by {
      assert p[1..] == Format02X(r) + Format02X(g) + Format02X(b);
    }
    ChannelsOfSixHex(p);
  }

  lemma HexDigitsValue(n: int)
    requires 0 <= n < 256
    ensures |Format02X(n)| == 2 && AllHex(Format02X(n)) && HexValue(Format02X(n)) == n
  {
    Format02XByte(n);
    HexCharIsHex(n / 16);
    HexCharIsHex(n % 16);
    HexValuePair(HexChar(n / 16), HexChar(n % 16));
  }

  /** When fewer than five characters follow the '#'s, the third pair is empty and both derivations fall back. */
  lemma ShortColorFallback(p: string)
    requires |LStripWhere(p, IsHash)| <= 4
    ensures DeriveSecondaryColor(p) == SecondaryFallback && DeriveAccentColor(p) == AccentFallback
  {
    var h := LStripWhere(p, IsHash);
    assert |PySlice(h, 4, 6)| == 0;
    assert Channel(h, 4) == None;
    assert Channels(p) == None;
  }

  /** A separator U+001C to U+001F inside the first pair makes it unreadable: both derivations fall back. */
  lemma {:induction false} SeparatorColorFallback(p: string)
    requires |p| == 7 && p[0] == '#' && IsHexDigit(p[1]) && IsSeparator(p[2])
    ensures DeriveSecondaryColor(p) == SecondaryFallback && DeriveAccentColor(p) == AccentFallback
  {
    LStripOneHash(p);
    var h := p[1..];
    assert PySlice(h, 0, 2) == [p[1], p[2]];
    assert Channel(h, 0) == None;
  }

  /** The three-digit shorthand "#ABC" is not understood: both derivations fall back. */
  lemma ShorthandFallback()
    ensures DeriveSecondaryColor("#ABC") == SecondaryFallback && DeriveAccentColor("#ABC") == AccentFallback
  {
    LStripOneHash("#ABC");
    ShortColorFallback("#ABC");
  }

  /** Lightening never darkens a channel and never leaves the byte range. */
  lemma LightenBounds(c: int)
    requires 0 <= c < 256
    ensures c <= Lighten(c) < 256
  {
  }

  /** For a well-formed colour, the secondary is a well-formed colour whose every channel is the lightened primary channel. */
  lemma {:induction false} SecondaryLightens(p: string)
    requires IsSixHex(p)
    ensures IsSixHex(DeriveSecondaryColor(p))
    ensures Channels(DeriveSecondaryColor(p)) == Some((Lighten(HexValue(p[1..3])), Lighten(HexValue(p[3..5])), Lighten(HexValue(p[5..7]))))
  {
    ChannelsOfSixHex(p);
    var r, g, b := HexValue(p[1..3]), HexValue(p[3..5]), HexValue(p[5..7]);
    HexValueBound(p[1..3]);
    HexValueBound(p[3..5]);
    HexValueBound(p[5..7]);
    LightenBounds(r);
    LightenBounds(g);
    LightenBounds(b);
    HexTripleBytes(Lighten(r), Lighten(g), Lighten(b));
  }

  lemma HexValueBound(s: string)
    requires |s| == 2 && AllHex(s)
    ensures HexValue(s) < 256
  {
    assert s == [s[0], s[1]];
    HexValuePair(s[0], s[1]);
  }

  /** Deriving the accent twice from a well-formed colour gives the colour back, upper-cased. */
  lemma {:induction false} AccentInvolution(p: string)
    requires IsSixHex(p)
    ensures DeriveAccentColor(DeriveAccentColor(p)) == Upper(p)
  {
    AccentTwice(p);
    UpperSixHex(p);
  }

  lemma {:induction false} AccentTwice(p: string)
    requires IsSixHex(p)
    ensures AllHex(p[1..3]) && AllHex(p[3..5]) && AllHex(p[5..7])
    ensures DeriveAccentColor(DeriveAccentColor(p)) == HexTriple(HexValue(p[1..3]), HexValue(p[3..5]), HexValue(p[5..7]))
  {
    ChannelsOfSixHex(p);
    var r, g, b := HexValue(p[1..3]), HexValue(p[3..5]), HexValue(p[5..7]);
    HexValueBound(p[1..3]);
    HexValueBound(p[3..5]);
    HexValueBound(p[5..7]);
    var cr, cg, cb := Complement(r), Complement(g), Complement(b);
    AccentOf(p, r, g, b);
    var q := DeriveAccentColor(p);
    HexTripleBytes(cr, cg, cb);
    assert Channels(q) == Some((cr, cg, cb));
    AccentOf(q, cr, cg, cb);
    assert Complement(cr) == r && Complement(cg) == g && Complement(cb) == b;
  }

  lemma AccentOf(p: string, r: int, g: int, b: int)
    requires Channels(p) == Some((r, g, b))
    ensures DeriveAccentColor(p) == HexTriple(Complement(r), Complement(g), Complement(b))
  {
  }

  /** Writing the digit pairs' values back in hex upper-cases a well-formed colour. */
  lemma {:induction false} UpperSixHex(p: string)
    requires IsSixHex(p)
    ensures AllHex(p[1..3]) && AllHex(p[3..5]) && AllHex(p[5..7])
    ensures HexTriple(HexValue(p[1..3]), HexValue(p[3..5]), HexValue(p[5..7])) == Upper(p)
  {
    assert p[1..][0..2] == p[1..3] && p[1..][2..4] == p[3..5] && p[1..][4..6] == p[5..7];
    UpperPair(p[1..3]);
    UpperPair(p[3..5]);
    UpperPair(p[5..7]);
    assert p == [p[0]] + p[1..3] + p[3..5] + p[5..7];
    assert Upper(p) == "#" + Upper(p[1..3]) + Upper(p[3..5]) + Upper(p[5..7]);
  }

  /** Formatting the value of two hex digits upper-cases them. */
  lemma UpperPair(s: string)
    requires |s| == 2 && AllHex(s)
    ensures Format02X(HexValue(s)) == Upper(s)
  {
    assert s == [s[0], s[1]];
    HexValuePair(s[0], s[1]);
    FormatPair(s[0], s[1]);
  }

  // ----------------------------------------------------------------- fonts

  predicate IsQuote(c: char) {
    c == '"' || c == '\''
  }

  /** One `font-family` entry: surrounding whitespace stripped, then surrounding quotes. */
  function CleanFont(f: string): string {
    StripWhere(Strip(f), IsQuote)
  }

  /** The cleaned entries of a `font-family` value, split at commas. */
  function FontEntries(fontFamily: string): (r: seq<string>)
    ensures |r| == |Split(fontFamily, ',')|
  {
    var parts := Split(fontFamily, ',');
    seq(|parts|, k requires 0 <= k < |parts| => CleanFont(parts[k]))
  }

  const GenericFamilies: set<string> := {"serif", "sans-serif", "monospace", "cursive", "fantasy"}

  predicate IsConcrete(f: string) {
    Lower(f) !in GenericFamilies
  }

  /** The font named by a `font-family` value: its first non-generic entry, else "Arial". */
  function FontName(fontFamily: string): string {
    if fontFamily == "" then "Arial" else FirstConcrete(FontEntries(fontFamily))
  }

  /** The first entry that is not a generic family, else "Arial". */
  function FirstConcrete(fonts: seq<string>): string {
    match FirstWhere(fonts, IsConcrete)
    case Some(k) => fonts[k]
    case None => "Arial"
  }

  /** Extracting the font name: "Arial" for an empty value, else the scan of the cleaned entries. */
  method ExtractFontName(fontFamily: string) returns (name: string)
    ensures name == FontName(fontFamily)
  {
    if fontFamily == "" {
      return "Arial";
    }
    name := ScanFonts(FontEntries(fontFamily));
  }

  /** Scanning entries in order and returning the first that is not a generic family. */
  method ScanFonts(fonts: seq<string>) returns (name: string)
    ensures name == FirstConcrete(fonts)
  {
    var k := 0;
    while k < |fonts|
      invariant 0 <= k <= |fonts|
      invariant forall j :: 0 <= j < k ==> !IsConcrete(fonts[j])
    {
      if IsConcrete(fonts[k]) {
        FirstWhereIs(fonts, IsConcrete, k);
        return fonts[k];
      }
      k := k + 1;
    }
    FirstWhereNone(fonts, IsConcrete);
    return "Arial";
  }

  /** The extracted font is "Arial" or an entry of the list that is not a generic family, and earlier entries are all generic. */
  lemma FontNameChoice(fontFamily: string)
    ensures var f := FontName(fontFamily); var e := FontEntries(fontFamily);
      f == "Arial" || exists k :: 0 <= k < |e| && e[k] == f && IsConcrete(f) && forall j :: 0 <= j < k ==> !IsConcrete(e[j])
  {
    if fontFamily != "" {
      var e := FontEntries(fontFamily);
      assert FontName(fontFamily) == FirstConcrete(e);
      match FirstWhere(e, IsConcrete)
      case Some(k) => assert e[k] == FontName(fontFamily);
      case None =>
    }
  }

  /** A list of generic families only gives "Arial". */
  lemma FontNameAllGeneric(fontFamily: string)
    requires forall k :: 0 <= k < |FontEntries(fontFamily)| ==> !IsConcrete(FontEntries(fontFamily)[k])
    ensures FontName(fontFamily) == "Arial"
  {
    if fontFamily != "" {
      FirstWhereNone(FontEntries(fontFamily), IsConcrete);
    }
  }

  const FontMappings: map<string, string> := map[
    "Montserrat" := "Calibri Light", "Roboto" := "Calibri", "Open Sans" := "Arial",
    "Lato" := "Calibri", "Poppins" := "Gill Sans MT", "Inter" := "Calibri",
    "Source Sans Pro" := "Arial", "Nunito" := "Calibri", "Raleway" := "Calibri Light",
    "Ubuntu" := "Arial", "Merriweather" := "Georgia", "Playfair Display" := "Times New Roman",
    "Oswald" := "Arial Black", "PT Sans" := "Arial", "Libre Baskerville" := "Georgia"]

  /** `FONT_MAPPINGS.get(font, default)`. */
  function MapFont(font: string, default: string): (r: string)
    ensures font in FontMappings ==> r == FontMappings[font]
    ensures font !in FontMappings ==> r == default
  {
    if font in FontMappings then FontMappings[font] else default
  }

  /**
    The font palette from the scraped `font-family` values: the heading font comes
    from the heading value (the body value when that is absent or empty), the body
    font from the paragraph value (likewise); each is mapped to a safe font, with
    "Calibri" and "Arial" as defaults, and the web font is recorded only where it differs.
  */
  function MapFonts(heading: Option<string>, body: Option<string>, bodyText: Option<string>): (p: FontPalette)
    ensures var h := FontName(if Truthy(heading) then heading.value else body.GetOr(""));
      p.heading == MapFont(h, "Calibri") && (p.headingWeb == None <==> h == p.heading)
      && (p.headingWeb.Some? ==> p.headingWeb.value == h)
    ensures var b := FontName(if Truthy(bodyText) then bodyText.value else body.GetOr(""));
      p.body == MapFont(b, "Arial") && (p.bodyWeb == None <==> b == p.body)
      && (p.bodyWeb.Some? ==> p.bodyWeb.value == b)
  {
    var h := FontName(if Truthy(heading) then heading.value else body.GetOr(""));
    var b := FontName(if Truthy(bodyText) then bodyText.value else body.GetOr(""));
    var hp, bp := MapFont(h, "Calibri"), MapFont(b, "Arial");
    FontPalette(hp, bp, if h != hp then Some(h) else None, if b != bp then Some(b) else None)
  }

  /** The safe heading and body fonts always come from the mapping table or its defaults. */
  lemma MappedFontsAreSafe(heading: Option<string>, body: Option<string>, bodyText: Option<string>)
    ensures var p := MapFonts(heading, body, bodyText);
      (p.heading in FontMappings.Values || p.heading == "Calibri")
      && (p.body in FontMappings.Values || p.body == "Arial")
  {
  }

  // ------------------------------------------------------------- merging

  /** All warnings of the themes, concatenated in order. */
  function AllWarnings(themes: seq<ScrapedTheme>): seq<string>
    decreases |themes|
  {
    if |themes| == 0 then [] else AllWarnings(themes[..|themes| - 1]) + themes[|themes| - 1].warnings
  }

  /** The warnings of two lists of themes concatenate. */
  lemma {:induction false} AllWarningsAppend(a: seq<ScrapedTheme>, b: seq<ScrapedTheme>)
    ensures AllWarnings(a + b) == AllWarnings(a) + AllWarnings(b)
    decreases |b|
  {
    if |b| > 0 {
      assert (a + b)[..|a + b| - 1] == a + b[..|b| - 1];
      AllWarningsAppend(a, b[..|b| - 1]);
    } else {
      assert a + b == a;
    }
  }

  /**
    Python's message when `str.join` meets a source URL: under pydantic 2 an
    `HttpUrl` is not a `str`, so joining the URLs raises `TypeError`.
  */
  const JoinUrlError := "sequence item 0: expected str instance, HttpUrl found"

  /**
    Merging themes: an error for an empty list, the theme itself for one, and
    otherwise, with "first" priority, the first theme's colours, fonts, logo and
    source URL with every theme's warnings in order. Any other priority gathers
    the warnings and then fails when it joins the source URLs.
  */
  method MergeThemes(themes: seq<ScrapedTheme>, priority: string) returns (r: Result<ScrapedTheme>)
    ensures |themes| == 0 ==> r == Err("No themes provided")
    ensures |themes| == 1 ==> r == Ok(themes[0])
    ensures |themes| >= 2 && priority == "first" ==>
      r == Ok(ScrapedTheme(themes[0].colors, themes[0].fonts, themes[0].logo, themes[0].sourceUrl, AllWarnings(themes)))
    ensures |themes| >= 2 && priority != "first" ==> r == Err(JoinUrlError)
  {
    if |themes| == 0 {
      return Err("No themes provided");
    }
    if |themes| == 1 {
      return Ok(themes[0]);
    }
    var warnings: seq<string> := [];
    var k := 0;
    while k < |themes|
      invariant 0 <= k <= |themes|
      invariant warnings == AllWarnings(themes[..k])
    {
      assert themes[..k + 1][..k] == themes[..k];
      warnings := warnings + themes[k].warnings;
      k := k + 1;
    }
    assert themes[..k] == themes;
    if priority != "first" {
      return Err(JoinUrlError);
    }
    var base := themes[0];
    return Ok(ScrapedTheme(base.colors, base.fonts, base.logo, base.sourceUrl, warnings));
  }
}
