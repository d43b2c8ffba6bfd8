/**
  The deck validator: a rule engine over a deck specification that gathers
  ordered errors, warnings and suggestions. The deck is valid exactly when there
  is no error; everything else is advice. File-system and HTTP observations come
  from the `Host` record.
*/
module Validator {
  import opened Wrappers
  import opened Text
  import opened PyInt
  import opened Host
  import opened ThemeModel
  import opened DeckModel
  import opened ThemeExtractor
  import opened Pptx
  import opened ThemeApplicator

  /** Warnings and suggestions gathered by one check, each in the order they are raised. */
  datatype Notes = Notes(warnings: seq<string>, suggestions: seq<string>) {
    function Add(other: Notes): Notes {
      Notes(warnings + other.warnings, suggestions + other.suggestions)
    }
  }

  const NoNotes := Notes([], [])

  predicate AllStartWith(msgs: seq<string>, head: string) {
    forall i :: 0 <= i < |msgs| ==> head <= msgs[i]
  }

  // ---------------------------------------------------------------- messages

  const EmptyTitleError := "Deck title cannot be empty"
  const NoSlidesError := "Deck must contain at least one slide"
  const InvalidThemeError := "Invalid theme specification"

  function TemplateNotFound(path: string): string { "Template file not found: " + path }
  function TemplateWrongSuffix(path: string): string { "Template file should be .potx or .pptx: " + path }
  const InvalidPrimary := "Invalid primary color format"
  function CachedLogoMissing(path: string): string { "Cached logo file not found: " + path }
  function LogoRefused(url: string): string { "Logo URL not accessible: " + url }
  function LogoUnknown(url: string): string { "Could not verify logo URL: " + url }

  const EmptySlide := "Slide appears to be empty"
  function CrowdedSlide(count: nat): string { "Consider splitting content across multiple slides (has " + NatToString(count) + " content elements)" }
  const TwoColAdvice := "TWO_COL layout works best with exactly 2 content elements"
  const ImageFocusAdvice := "IMAGE_FOCUS layout should contain an image"

  const EmptyText := "Text content is empty"
  const LongText := "Text is quite long, consider breaking into bullet points"
  const EmptyBullets := "Bullet list is empty"
  function TooManyBullets(count: nat): string { "Too many bullets (" + NatToString(count) + "), consider splitting" }
  const LongBullet := "Bullet point is quite long"
  const MissingImage := "Image content missing image specification"
  function BadImageUrl(url: string): string { "Invalid image URL format: " + url }
  function ImageRefused(url: string): string { "Image URL not accessible: " + url }
  function ImageUnknown(url: string): string { "Could not verify image URL: " + url }
  const MissingTable := "Table content missing table specification"
  const NoHeaders := "Table missing headers"
  const NoRows := "Table has no data rows"
  function ManyRows(count: nat): string { "Table has many rows (" + NatToString(count) + "), consider pagination" }
  const MissingChart := "Chart content missing chart specification"
  const NoChartData := "Chart missing data"
  function BadChartType(chartType: string): string { "Unsupported chart type: " + chartType }

  function UncreatableDir(dir: string): string { "Cannot create output directory: " + dir }
  function WrongExtension(format: string): string { "Output filename should end with ." + format }
  const InvalidFilename := "Output filename contains invalid characters"

  function LongDeckAdvice(count: nat): string { "Presentation is quite long (" + NatToString(count) + " slides), consider breaking into sections" }
  const VarietyAdvice := "Consider using different layouts for visual variety"
  const TitleSlideAdvice := "Consider adding a title slide at the beginning"
  const SectionAdvice := "Consider adding section slides to break up long presentations"

  // ---------------------------------------------------------------- colours

  /**
    `_is_valid_hex_color`: a non-empty text starting with '#' whose remaining three
    or six characters `int(_, 16)` accepts.
  */
  function IsValidHexColor(color: string): (r: bool)
    ensures r ==> (|color| == 4 || |color| == 7) && color[0] == '#'
  {
    if color == "" || !("#" <= color) then false
    else
      var hexPart := color[1..];
      if |hexPart| != 3 && |hexPart| != 6 then false
      else ParseInt16(hexPart).Some?
  }

  /** A '#' followed by three or six hex digits is a valid colour. */
  lemma {:induction false} HexDigitsAreValid(h: string)
    requires (|h| == 3 || |h| == 6) && AllHex(h)
    ensures IsValidHexColor("#" + h)
  {
    assert ("#" + h)[1..] == h;
    ParseInt16Digits(h);
  }

  /** A '#' and six hex digits is a valid colour. */
  lemma SixHexValid(s: string)
    requires IsSixHex(s)
    ensures IsValidHexColor(s)
  {
    assert s == "#" + s[1..];
    HexDigitsAreValid(s[1..]);
  }

  /** Every colour the theme extractor writes as `#RRGGBB` from bytes passes the check. */
  lemma {:induction false} WrittenColorsValid(r: int, g: int, b: int)
    requires 0 <= r < 256 && 0 <= g < 256 && 0 <= b < 256
    ensures IsValidHexColor(HexTriple(r, g, b))
  {
    var p := HexTriple(r, g, b);
    HexTripleBytes(r, g, b);
    assert p == "#" + p[1..];
    HexDigitsAreValid(p[1..]);
  }

  /** The secondary colour derived from a well-formed primary passes the check. */
  lemma {:induction false} SecondaryValid(p: string)
    requires IsSixHex(p)
    ensures IsValidHexColor(DeriveSecondaryColor(p))
  {
    SecondaryLightens(p);
    SixHexValid(DeriveSecondaryColor(p));
  }

  /** The accent colour derived from a well-formed primary passes the check. */
  lemma {:induction false} AccentValid(p: string)
    requires IsSixHex(p)
    ensures IsValidHexColor(DeriveAccentColor(p))
  {
    ChannelsOfSixHex(p);
    var r, g, b := HexValue(p[1..3]), HexValue(p[3..5]), HexValue(p[5..7]);
    HexValueBound(p[1..3]);
    HexValueBound(p[3..5]);
    HexValueBound(p[5..7]);
    AccentOf(p, r, g, b);
    WrittenColorsValid(Complement(r), Complement(g), Complement(b));
  }

  /** The fixed fallback secondary colour passes the check. */
  lemma {:induction false} SecondaryFallbackValid()
    ensures IsValidHexColor(SecondaryFallback)
  {
    var h := SecondaryFallback[1..];
    assert SecondaryFallback == "#" + h;
    assert forall i :: 0 <= i < |h| ==> IsHexDigit(h[i]);
    HexDigitsAreValid(h);
  }

  /** The fixed fallback accent colour passes the check. */
  lemma {:induction false} AccentFallbackValid()
    ensures IsValidHexColor(AccentFallback)
  {
    var h := AccentFallback[1..];
    assert AccentFallback == "#" + h;
    assert forall i :: 0 <= i < |h| ==> IsHexDigit(h[i]);
    HexDigitsAreValid(h);
  }

  /** A '#' followed by three or six characters that `int(_, 16)` reads is a valid colour. */
  lemma {:induction false} ParsedIsValid(h: string)
    requires (|h| == 3 || |h| == 6) && ParseInt16(h).Some?
    ensures IsValidHexColor("#" + h)
  {
    assert ("#" + h)[1..] == h;
  }

  /** `int(_, 16)` reads a minus sign followed by hex digits with no radix prefix. */
  lemma {:induction false} SignedHexParses(d: string)
    requires |d| > 0 && AllHex(d) && d[0] != '0'
    ensures ParseInt16("-" + d).Some?
  {
    var s := "-" + d;
    assert s[|s| - 1] == d[|d| - 1];
    HexNotSpace(d[|d| - 1]);
    IntStripNoEdge(s);
    assert s[1..] == d;
    assert WithoutRadixPrefix(d) == d;
  }

  /** The check is `int(_, 16)`, not a digit test: a minus sign after the '#' passes. */
  lemma {:induction false} SignedColorValid(d: string)
    requires |d| == 2 && AllHex(d) && d[0] != '0'
    ensures IsValidHexColor("#" + "-" + d)
  {
    SignedHexParses(d);
    AppendAssoc("#", "-", d);
    ParsedIsValid("-" + d);
  }

  /** `int(_, 16)` skips leading whitespace. */
  lemma {:induction false} SpacedHexParses(d: string)
    requires |d| == 2 && AllHex(d)
    ensures ParseInt16(" " + d).Some?
  {
    SpaceThenDigits(' ', d);
    assert " " + d == [' '] + d;
  }

  /** Whitespace after the '#' passes too. */
  lemma {:induction false} SpacedColorValid(d: string)
    requires |d| == 2 && AllHex(d)
    ensures IsValidHexColor("#" + " " + d)
  {
    SpacedHexParses(d);
    AppendAssoc("#", " ", d);
    ParsedIsValid(" " + d);
  }

  /** A separator U+001C to U+001F after the '#' is not whitespace to `int()`: the colour is refused. */
  lemma {:induction false} SeparatorColorInvalid(c: char, d: string)
    requires IsSeparator(c) && |d| == 2 && AllHex(d)
    ensures !IsValidHexColor("#" + [c] + d)
  {
    SeparatorThenDigits(c, d);
    assert ("#" + [c] + d)[1..] == [c] + d;
  }

  /** So does a radix prefix: "#0x" and one hex digit is that digit's value. */
  lemma {:induction false} PrefixedColorValid(c: char)
    requires IsHexDigit(c)
    ensures IsValidHexColor(['#', '0', 'x', c])
  {
    RadixPrefixParses('0', 'x', c);
    assert ['#', '0', 'x', c][1..] == ['0', 'x', c];
  }

  /** A missing '#', a wrong length or a letter past 'F' fail. */
  lemma {:induction false} RejectedColors()
    ensures !IsValidHexColor("123456") && !IsValidHexColor("#12345") && !IsValidHexColor("#GGG")
  {
    assert "123456"[0] != '#';
    assert |"#12345"[1..]| == 5;
    assert "#GGG"[1..] == "GGG";
    IntStripNoEdge("GGG");
    assert WithoutRadixPrefix("GGG") == "GGG";
    assert !IsHexDigit("GGG"[0]);
  }

  /** The run-colour conversion reads the first pair of "#-" and five hex digits as a negative channel, and gives black. */
  lemma {:induction false} NegativePairIsBlack(d: string)
    requires |d| == 5 && IsHexDigit(d[0]) && d[0] != '0'
    ensures HexToRgb("#" + "-" + d) == Black
  {
    var h := "-" + d;
    var p := "#" + h;
    AppendAssoc("#", "-", d);
    assert p[0] == '#' && p[1] == '-' && p[1..] == h;
    LStripOneHash(p);
    assert PySlice(h, 0, 2) == h[..2] == ['-', d[0]];
    assert Channel(h, 0) == Some(-(HexDigitValue(d[0]) as int));
    assert HexDigitValue(d[0]) > 0;
  }

  /**
    The check accepts colours the run-colour conversion cannot read: "#-" and five hex
    digits is one negative number to `int(_, 16)`, but its first pair is a negative channel.
  */
  lemma {:induction false} AcceptedButBlack(d: string)
    requires |d| == 5 && AllHex(d) && d[0] != '0'
    ensures IsValidHexColor("#" + "-" + d)
    ensures HexToRgb("#" + "-" + d) == Black
  {
    SignedHexParses(d);
    AppendAssoc("#", "-", d);
    ParsedIsValid("-" + d);
    NegativePairIsBlack(d);
  }

  // ---------------------------------------------------------------- paths

  predicate IsSlash(c: char) {
    c == '/'
  }

  /** `Path(p).name`: the last component, with trailing slashes dropped. */
  function BaseName(path: string): (r: string)
    ensures '/' !in r
  {
    var p := RStripWhere(path, IsSlash);
    match RFind(p, '/')
    case None => p
    case Some(i) => p[i + 1..]
  }

  /** `Path(p).suffix` of a name: from its last '.', unless that dot is first or last. */
  function Suffix(name: string): string {
    match RFind(name, '.')
    case Some(i) => if 0 < i < |name| - 1 then name[i..] else ""
    case None => ""
  }

  predicate IsTemplateSuffix(path: string) {
    var s := Lower(Suffix(BaseName(path)));
    s == ".potx" || s == ".pptx"
  }

  /** Both template extensions are a dot and four characters that are not dots. */
  lemma TemplateExtShape(e: string)
    requires e == ".potx" || e == ".pptx"
    ensures |e| == 5 && e[0] == '.' && forall j :: 1 <= j < 5 ==> e[j] != '.'
    ensures Lower(e) == e
  {
  }

  /** The suffix of a name whose last dot is `k` characters from its end, neither first nor last. */
  lemma SuffixAt(name: string, k: nat)
    requires 1 < k < |name| && name[|name| - k] == '.'
    requires forall j :: |name| - k < j < |name| ==> name[j] != '.'
    ensures Suffix(name) == name[|name| - k..]
  {
    RFindIs(name, '.', |name| - k);
  }

  lemma LowerDot(c: char)
    ensures ToLower(c) == '.' <==> c == '.'
  {
  }

  lemma LowerFrom(s: string, a: nat)
    requires a <= |s|
    ensures Lower(s)[a..] == Lower(s[a..])
  {
  }

  /**
    The suffix test means: the file name is longer than five characters and ends
    in ".potx" or ".pptx", in any letter case. A name that is only ".pptx" fails.
  */
  lemma {:induction false} TemplateSuffixIff(name: string)
    requires '/' !in name
    ensures Lower(Suffix(name)) in {".potx", ".pptx"} <==>
      |name| > 5 && (EndsWith(Lower(name), ".potx") || EndsWith(Lower(name), ".pptx"))
  {
    var n := |name|;
    var low := Lower(name);
    if |name| > 5 && (EndsWith(low, ".potx") || EndsWith(low, ".pptx")) {
      var e := low[n - 5..];
      TemplateExtShape(e);
      assert low[n - 5] == e[0];
      LowerDot(name[n - 5]);
      forall j | n - 5 < j < n ensures name[j] != '.' {
        assert low[j] == e[j - (n - 5)];
        LowerDot(name[j]);
      }
      SuffixAt(name, 5);
      LowerFrom(name, n - 5);
    }
    if Lower(Suffix(name)) in {".potx", ".pptx"} {
      var e := Lower(Suffix(name));
      TemplateExtShape(e);
      var i := RFind(name, '.').value;
      assert 0 < i < n - 1 && Suffix(name) == name[i..];
      assert i == n - 5;
      LowerFrom(name, i);
      assert EndsWith(low, e);
    }
  }

  lemma RFindIs(s: string, c: char, k: nat)
    requires k < |s| && s[k] == c && forall j :: k < j < |s| ==> s[j] != c
    ensures RFind(s, c) == Some(k)
    decreases |s|
  {
    if k < |s| - 1 {
      RFindIs(s[..|s| - 1], c, k);
    }
  }

  /** The last component of "dir/name" is the name. */
  lemma {:induction false} BaseNameOfJoin(dir: string, name: string)
    requires '/' !in name && name != ""
    ensures BaseName(dir + "/" + name) == name
  {
    var path := dir + "/" + name;
    assert path[|path| - 1] == name[|name| - 1];
    assert RStripWhere(path, IsSlash) == path;
    forall j | |dir| < j < |path| ensures path[j] != '/' {
      assert path[j] == name[j - |dir| - 1];
    }
    RFindIs(path, '/', |dir|);
    assert path[|dir| + 1..] == name;
  }

  lemma LowerAppend(a: string, b: string)
    ensures Lower(a + b) == Lower(a) + Lower(b)
  {
  }

  /** A template file named in a directory with a ".pptx" or ".potx" extension passes. */
  lemma {:induction false} TemplateNameAccepted(dir: string, stem: string, ext: string)
    requires '/' !in stem && stem != "" && (ext == ".pptx" || ext == ".potx")
    ensures IsTemplateSuffix(dir + "/" + stem + ext)
  {
    var name := stem + ext;
    AppendAssoc(dir + "/", stem, ext);
    BaseNameOfJoin(dir, name);
    LowerAppend(stem, ext);
    TemplateExtShape(ext);
    var low := Lower(stem) + ext;
    assert low[|low| - 5..] == ext;
    TemplateSuffixIff(name);
  }

  // ---------------------------------------------------------------- theme

  /** The outcome of an HTTP HEAD request: a status below 400, one of 400 or more, or an exception. */
  datatype Reach = Reachable | Refused | Unknown

  function Head(host: Host, url: string): (r: Reach)
    ensures r == Unknown <==> url !in host.headStatus
  {
    if url !in host.headStatus then Unknown
    else if host.headStatus[url] >= 400 then Refused
    else Reachable
  }

  /** The warning for a resource that a HEAD request refuses or cannot reach. */
  function ReachWarnings(host: Host, url: string, refused: string, unknown: string): (r: seq<string>)
    ensures |r| <= 1
    ensures r == [] <==> Head(host, url) == Reachable
  {
    match Head(host, url)
    case Reachable => []
    case Refused => [refused]
    case Unknown => [unknown]
  }

  function TemplateWarnings(template: Option<string>, host: Host): (r: seq<string>)
    ensures |r| <= 1
    ensures !Truthy(template) ==> r == []
  {
    if !Truthy(template) then []
    else
      var t := template.value;
      if !Exists(host, t) then [TemplateNotFound(t)]
      else if !IsTemplateSuffix(t) then [TemplateWrongSuffix(t)]
      else []
  }

  function LogoNotes(logo: Option<LogoSpec>, host: Host): (r: seq<string>)
    ensures |r| <= 1
  {
    match logo
    case None => []
    case Some(l) =>
      if Truthy(l.cachedPath) then
        (if !Exists(host, l.cachedPath.value) then [CachedLogoMissing(l.cachedPath.value)] else [])
      else
        ReachWarnings(host, l.url, LogoRefused(l.url), LogoUnknown(l.url))
  }

  /** The warnings about a scraped theme: its primary colour, then its logo. */
  function ScrapedWarnings(scraped: Option<ScrapedTheme>, host: Host): (r: seq<string>)
    ensures |r| <= 2
    ensures scraped.None? ==> r == []
  {
    match scraped
    case None => []
    case Some(s) => PrimaryWarnings(s.colors.primary) + LogoNotes(s.logo, host)
  }

  function PrimaryWarnings(primary: string): (r: seq<string>)
    ensures r == [] <==> IsValidHexColor(primary)
  {
    if !IsValidHexColor(primary) then [InvalidPrimary] else []
  }

  /**
    The warnings about a theme: the template file (missing or not a presentation),
    then the scraped primary colour, then the logo (its cached file, or its URL).
  */
  function ThemeWarnings(theme: ThemeSpec, host: Host): (r: seq<string>)
    ensures |r| <= 3
  {
    TemplateWarnings(theme.template, host) + ScrapedWarnings(theme.scraped, host)
  }

  /** A scraped theme with a well-formed primary colour and no logo, and no template, raises no warning. */
  lemma {:induction false} ScrapedThemeQuiet(s: ScrapedTheme, host: Host)
    requires IsSixHex(s.colors.primary) && s.logo.None?
    ensures ThemeWarnings(ThemeSpec(Some(s), None), host) == []
  {
    var p := s.colors.primary;
    assert p == "#" + p[1..];
    HexDigitsAreValid(p[1..]);
  }

  /** The template part of `_validate_theme`: appends the template warning, if any. */
  method CheckTemplate(template: Option<string>, host: Host, warnings: seq<string>) returns (w: seq<string>)
    ensures w == warnings + TemplateWarnings(template, host)
  {
    w := warnings;
    if Truthy(template) {
      var t := template.value;
      if !Exists(host, t) {
        w := w + [TemplateNotFound(t)];
      } else if !IsTemplateSuffix(t) {
        w := w + [TemplateWrongSuffix(t)];
      }
    }
  }

  /** The colour part of `_validate_theme`: the primary colour must be a hex colour. */
  method CheckPrimary(primary: string, warnings: seq<string>) returns (w: seq<string>)
    ensures w == warnings + PrimaryWarnings(primary)
  {
    w := warnings;
    if !IsValidHexColor(primary) {
      w := w + [InvalidPrimary];
    }
  }

  /** The logo part of `_validate_theme`: its cached file when it has one, else its URL. */
  method CheckLogo(logo: Option<LogoSpec>, host: Host, warnings: seq<string>) returns (w: seq<string>)
    ensures w == warnings + LogoNotes(logo, host)
  {
    w := warnings;
    if logo.Some? {
      var l := logo.value;
      if Truthy(l.cachedPath) {
        if !Exists(host, l.cachedPath.value) {
          w := w + [CachedLogoMissing(l.cachedPath.value)];
        }
      } else {
        var reach := Head(host, l.url);
        if reach == Refused {
          w := w + [LogoRefused(l.url)];
        } else if reach == Unknown {
          w := w + [LogoUnknown(l.url)];
        }
      }
    }
  }

  /**
    `_validate_theme`: appends the theme warnings to `warnings` and reports whether
    the theme names a source, a template or a scraped theme.
  */
  method ValidateTheme(theme: ThemeSpec, host: Host, warnings: seq<string>) returns (valid: bool, w: seq<string>)
    ensures valid <==> HasSource(theme)
    ensures w == warnings + ThemeWarnings(theme, host)
  {
    w := CheckTemplate(theme.template, host, warnings);
    ghost var w1 := w;
    if theme.scraped.Some? {
      var s := theme.scraped.value;
      w := CheckPrimary(s.colors.primary, w);
      w := CheckLogo(s.logo, host, w);
      AppendAssoc(w1, PrimaryWarnings(s.colors.primary), LogoNotes(s.logo, host));
    } else {
      assert w == w1 + [];
    }
    AppendAssoc(warnings, TemplateWarnings(theme.template, host), ScrapedWarnings(theme.scraped, host));
    if !Truthy(theme.template) && theme.scraped.None? {
      return false, w;
    }
    return true, w;
  }

  // ---------------------------------------------------------------- content

  /** "Slide n", the start of every note about slide n or one of its elements. */
  function SlideTag(n: nat): string {
    "Slide " + NatToString(n)
  }

  /** "Slide n, content m: ", the start of every note about one content element (both 1-based). */
  function ContentPrefix(slideNum: nat, contentNum: nat): (r: string)
    ensures SlideTag(slideNum) <= r
  {
    SlideTag(slideNum) + ", content " + NatToString(contentNum) + ": "
  }

  const ChartTypes: seq<string> := ["bar", "line", "pie", "column", "area"]

  /** One suggestion per bullet longer than 100 characters, in bullet order. */
  function LongBullets(prefix: string, bullets: seq<string>): (r: seq<string>)
    ensures |r| <= |bullets|
    ensures forall i :: 0 <= i < |r| ==> r[i] == prefix + LongBullet
    ensures r == [] <==> forall i :: 0 <= i < |bullets| ==> |bullets[i]| <= 100
    decreases |bullets|
  {
    if |bullets| == 0 then []
    else
      var init := bullets[..|bullets| - 1];
      var r := LongBullets(prefix, init) + (if |bullets[|bullets| - 1]| > 100 then [prefix + LongBullet] else []);
      assert forall i :: 0 <= i < |init| ==> bullets[i] == init[i];
      r
  }

  /** A note: the prefix naming the slide or element it is about, then the message. */
  function Note(p: string, message: string): (r: string)
    ensures p <= r && r[|p|..] == message
  {
    p + message
  }

  function TextNotes(p: string, text: Option<string>): (r: Notes)
    ensures AllStartWith(r.warnings, p) && AllStartWith(r.suggestions, p)
  {
    var blank := !Truthy(text) || Strip(text.value) == "";
    var warning := Note(p, EmptyText);
    var suggestion := Note(p, LongText);
    if blank then Notes([warning], [])
    else if |text.value| > 500 then Notes([], [suggestion])
    else NoNotes
  }

  function BulletNotes(p: string, bullets: Option<seq<string>>): (r: Notes)
    ensures AllStartWith(r.warnings, p) && AllStartWith(r.suggestions, p)
  {
    if bullets.None? || bullets.value == [] then Notes([Note(p, EmptyBullets)], [])
    else if |bullets.value| > 7 then Notes([], [Note(p, TooManyBullets(|bullets.value|))])
    else Notes([], LongBullets(p, bullets.value))
  }

  function ImageNotes(p: string, image: Option<ImageSpec>, host: Host): (r: Notes)
    ensures AllStartWith(r.warnings, p) && AllStartWith(r.suggestions, p)
  {
    match image
    case None => Notes([Note(p, MissingImage)], [])
    case Some(i) =>
      var url := i.url;
      var format := if !("http://" <= url || "https://" <= url || "/" <= url) then [Note(p, BadImageUrl(url))] else [];
      var reach := if "http" <= url then ReachWarnings(host, url, Note(p, ImageRefused(url)), Note(p, ImageUnknown(url))) else [];
      Notes(format + reach, [])
  }

  function TableNotes(p: string, table: Option<TableSpec>): (r: Notes)
    ensures AllStartWith(r.warnings, p) && AllStartWith(r.suggestions, p)
  {
    match table
    case None => Notes([Note(p, MissingTable)], [])
    case Some(t) =>
      Notes(
        (if t.headers == [] then [Note(p, NoHeaders)] else []) + (if t.rows == [] then [Note(p, NoRows)] else []),
        if t.rows != [] && |t.rows| > 10 then [Note(p, ManyRows(|t.rows|))] else [])
  }

  function ChartNotes(p: string, chart: Option<ChartSpec>): (r: Notes)
    ensures AllStartWith(r.warnings, p) && AllStartWith(r.suggestions, p)
  {
    match chart
    case None => Notes([Note(p, MissingChart)], [])
    case Some(c) =>
      Notes(
        (if |c.data| == 0 then [Note(p, NoChartData)] else []) + (if c.chartType !in ChartTypes then [Note(p, BadChartType(c.chartType))] else []),
        [])
  }

  /**
    The notes about content element `contentNum` of slide `slideNum`, by content type;
    every note starts with the element's prefix.
  */
  function ContentNotes(c: SlideContent, slideNum: nat, contentNum: nat, host: Host): (r: Notes)
    ensures AllStartWith(r.warnings, ContentPrefix(slideNum, contentNum))
    ensures AllStartWith(r.suggestions, ContentPrefix(slideNum, contentNum))
  {
    var p := ContentPrefix(slideNum, contentNum);
    match c.contentType
    case Text => TextNotes(p, c.text)
    case Bullets => BulletNotes(p, c.bullets)
    case Image => ImageNotes(p, c.image, host)
    case Table => TableNotes(p, c.table)
    case Chart => ChartNotes(p, c.chart)
  }

  /** A content element that carries no payload draws exactly one warning, whatever its type. */
  lemma PayloadlessContentWarns(t: ContentType, slideNum: nat, contentNum: nat, host: Host)
    ensures |ContentNotes(NewSlideContent(t), slideNum, contentNum, host).warnings| == 1
    ensures ContentNotes(NewSlideContent(t), slideNum, contentNum, host).suggestions == []
  {
  }

  /**
    Up to seven bullets draw one suggestion per bullet over 100 characters; more than
    seven draw a single suggestion however long they are.
  */
  lemma BulletSuggestions(p: string, bullets: seq<string>)
    requires |bullets| > 0
    ensures |bullets| <= 7 ==> BulletNotes(p, Some(bullets)).suggestions == LongBullets(p, bullets)
    ensures |bullets| > 7 ==> |BulletNotes(p, Some(bullets)).suggestions| == 1
    ensures BulletNotes(p, Some(bullets)).warnings == []
  {
  }

  /** The bullet rule: none, too many, or one suggestion per long bullet, walking them in order. */
  method CheckBullets(p: string, bullets: Option<seq<string>>, warnings: seq<string>, suggestions: seq<string>)
    returns (w: seq<string>, s: seq<string>)
    ensures w == warnings + BulletNotes(p, bullets).warnings
    ensures s == suggestions + BulletNotes(p, bullets).suggestions
  {
    w, s := warnings, suggestions;
    if bullets.None? || bullets.value == [] {
      w := w + [Note(p, EmptyBullets)];
    } else if |bullets.value| > 7 {
      s := s + [Note(p, TooManyBullets(|bullets.value|))];
      assert w == warnings + [];
    } else {
      s := CollectLongBullets(p, bullets.value, s);
      assert w == warnings + [];
    }
  }

  lemma LongBulletsSnoc(p: string, bs: seq<string>, i: nat)
    requires i < |bs|
    ensures LongBullets(p, bs[..i + 1]) == LongBullets(p, bs[..i]) + (if |bs[i]| > 100 then [p + LongBullet] else [])
  {
    var t := bs[..i + 1];
    assert t[..|t| - 1] == bs[..i] && t[|t| - 1] == bs[i];
  }

  /** One suggestion per bullet over 100 characters, in bullet order. */
  method CollectLongBullets(p: string, bs: seq<string>, suggestions: seq<string>) returns (s: seq<string>)
    ensures s == suggestions + LongBullets(p, bs)
  {
    s := suggestions;
    var i := 0;
    assert bs[..0] == [] && s == suggestions + [];
    while i < |bs|
      invariant 0 <= i <= |bs|
      invariant s == suggestions + LongBullets(p, bs[..i])
    {
      ghost var before := LongBullets(p, bs[..i]);
      ghost var added := if |bs[i]| > 100 then [p + LongBullet] else [];
      LongBulletsSnoc(p, bs, i);
      if |bs[i]| > 100 {
        s := s + [p + LongBullet];
      } else {
        assert s == s + [];
      }
      AppendAssoc(suggestions, before, added);
      i := i + 1;
    }
    assert bs[..i] == bs;
  }

  /**
    `_validate_content`: appends the notes about one content element; the bullet
    rule walks the bullets in order.
  */
  method ValidateContent(c: SlideContent, slideNum: nat, contentNum: nat, host: Host, warnings: seq<string>, suggestions: seq<string>)
    returns (w: seq<string>, s: seq<string>)
    ensures w == warnings + ContentNotes(c, slideNum, contentNum, host).warnings
    ensures s == suggestions + ContentNotes(c, slideNum, contentNum, host).suggestions
  {
    var p := ContentPrefix(slideNum, contentNum);
    w, s := warnings, suggestions;
    match c.contentType {
      case Text =>
        var n := TextNotes(p, c.text);
        w, s := w + n.warnings, s + n.suggestions;
      case Bullets =>
        w, s := CheckBullets(p, c.bullets, w, s);
      case Image =>
        var n := ImageNotes(p, c.image, host);
        w := w + n.warnings;
      case Table =>
        var n := TableNotes(p, c.table);
        w, s := w + n.warnings, s + n.suggestions;
      case Chart =>
        var n := ChartNotes(p, c.chart);
        w := w + n.warnings;
    }
  }

  // ---------------------------------------------------------------- slides

  /** "Slide n: ", the start of every note about a slide as a whole. */
  function SlideHead(n: nat): (r: string)
    ensures SlideTag(n) <= r
  {
    SlideTag(n) + ": "
  }

  predicate HasImage(content: seq<SlideContent>) {
    exists i :: 0 <= i < |content| && content[i].contentType == Image
  }

  /** The notes about the content elements of slide `n`, numbered from 1. */
  function ContentsNotes(content: seq<SlideContent>, n: nat, host: Host): Notes
    decreases |content|
  {
    if |content| == 0 then NoNotes
    else ContentsNotes(content[..|content| - 1], n, host).Add(ContentNotes(content[|content| - 1], n, |content|, host))
  }

  /**
    The notes about slide `n`: warnings for an empty slide, then those of its content;
    suggestions for crowded content, then those of its content, then the layout advice.
  */
  function SlideNotes(slide: SlideSpec, n: nat, host: Host): Notes {
    var count := |slide.content|;
    var items := ContentsNotes(slide.content, n, host);
    var warnings := AppendIf([], count == 0 && !Truthy(slide.title), Note(SlideHead(n), EmptySlide));
    var suggestions := AppendIf([], count > 5, Note(SlideHead(n), CrowdedSlide(count)));
    Notes(
      warnings + items.warnings,
      AppendIf(
        AppendIf(suggestions + items.suggestions, slide.layout == TWO_COL && count != 2, Note(SlideHead(n), TwoColAdvice)),
        slide.layout == IMAGE_FOCUS && !HasImage(slide.content), Note(SlideHead(n), ImageFocusAdvice)))
  }

  lemma AllStartWithAppend(a: seq<string>, b: seq<string>, head: string)
    requires AllStartWith(a, head) && AllStartWith(b, head)
    ensures AllStartWith(a + b, head)
  {
  }

  lemma AllStartWithAppendIf(a: seq<string>, c: bool, m: string, head: string)
    requires AllStartWith(a, head) && head <= m
    ensures AllStartWith(AppendIf(a, c, m), head)
  {
  }

  /** Messages that start with a text start with every prefix of it. */
  lemma AllStartWithWeaken(msgs: seq<string>, head: string, p: string)
    requires head <= p && AllStartWith(msgs, p)
    ensures AllStartWith(msgs, head)
  {
    forall i | 0 <= i < |msgs| ensures head <= msgs[i] {
      PrefixOfPrefix(head, p, msgs[i]);
    }
  }

  lemma PrefixOfPrefix(a: string, b: string, c: string)
    requires a <= b && b <= c
    ensures a <= c
  {
    assert c[..|a|] == b[..|a|];
  }

  /** Every note about the content of slide n starts "Slide n". */
  lemma {:induction false} ContentsNotesPrefixed(content: seq<SlideContent>, n: nat, host: Host)
    ensures AllStartWith(ContentsNotes(content, n, host).warnings, SlideTag(n))
    ensures AllStartWith(ContentsNotes(content, n, host).suggestions, SlideTag(n))
    decreases |content|
  {
    if |content| > 0 {
      var init := ContentsNotes(content[..|content| - 1], n, host);
      ContentsNotesPrefixed(content[..|content| - 1], n, host);
      var last := ContentNotes(content[|content| - 1], n, |content|, host);
      var p := ContentPrefix(n, |content|);
      AllStartWithWeaken(last.warnings, SlideTag(n), p);
      AllStartWithWeaken(last.suggestions, SlideTag(n), p);
      AllStartWithAppend(init.warnings, last.warnings, SlideTag(n));
      AllStartWithAppend(init.suggestions, last.suggestions, SlideTag(n));
    }
  }

  /** Every note about slide n, whether about the slide or one of its elements, starts "Slide n". */
  lemma {:induction false} SlideNotesPrefixed(slide: SlideSpec, n: nat, host: Host)
    ensures AllStartWith(SlideNotes(slide, n, host).warnings, SlideTag(n))
    ensures AllStartWith(SlideNotes(slide, n, host).suggestions, SlideTag(n))
  {
    var head := SlideTag(n);
    var h := SlideHead(n);
    var count := |slide.content|;
    var items := ContentsNotes(slide.content, n, host);
    ContentsNotesPrefixed(slide.content, n, host);
    var m1 := Note(h, EmptySlide);
    var m2 := Note(h, CrowdedSlide(count));
    var m3 := Note(h, TwoColAdvice);
    var m4 := Note(h, ImageFocusAdvice);
    PrefixOfPrefix(head, h, m1);
    PrefixOfPrefix(head, h, m2);
    PrefixOfPrefix(head, h, m3);
    PrefixOfPrefix(head, h, m4);
    var w := AppendIf([], count == 0 && !Truthy(slide.title), m1);
    var s := AppendIf([], count > 5, m2);
    AllStartWithAppendIf([], count == 0 && !Truthy(slide.title), m1, head);
    AllStartWithAppendIf([], count > 5, m2, head);
    AllStartWithAppend(w, items.warnings, head);
    AllStartWithAppend(s, items.suggestions, head);
    var s3 := AppendIf(s + items.suggestions, slide.layout == TWO_COL && count != 2, m3);
    AllStartWithAppendIf(s + items.suggestions, slide.layout == TWO_COL && count != 2, m3, head);
    AllStartWithAppendIf(s3, slide.layout == IMAGE_FOCUS && !HasImage(slide.content), m4, head);
  }

  /** A slide built with no arguments is reported empty, and nothing else is said about it. */
  lemma DefaultSlideIsEmpty(n: nat, host: Host)
    ensures SlideNotes(NewSlideSpec(), n, host) == Notes([Note(SlideHead(n), EmptySlide)], [])
  {
  }

  /** The content loop of `_validate_slide`: each element's notes, numbered from 1, appended in order. */
  method ValidateContents(content: seq<SlideContent>, n: nat, host: Host, warnings: seq<string>, suggestions: seq<string>)
    returns (w: seq<string>, s: seq<string>)
    ensures w == warnings + ContentsNotes(content, n, host).warnings
    ensures s == suggestions + ContentsNotes(content, n, host).suggestions
  {
    w, s := warnings, suggestions;
    var j := 0;
    while j < |content|
      invariant 0 <= j <= |content|
      invariant w == warnings + ContentsNotes(content[..j], n, host).warnings
      invariant s == suggestions + ContentsNotes(content[..j], n, host).suggestions
    {
      var before := ContentsNotes(content[..j], n, host);
      var item := ContentNotes(content[j], n, j + 1, host);
      assert content[..j + 1][..j] == content[..j];
      w, s := ValidateContent(content[j], n, j + 1, host, w, s);
      AppendAssoc(warnings, before.warnings, item.warnings);
      AppendAssoc(suggestions, before.suggestions, item.suggestions);
      j := j + 1;
    }
    assert content[..j] == content;
  }

  /** `_validate_slide`: the notes about slide `n`, gathered in fresh lists. */
  method ValidateSlide(slide: SlideSpec, n: nat, host: Host) returns (notes: Notes)
    ensures notes == SlideNotes(slide, n, host)
  {
    var warnings: seq<string> := [];
    var suggestions: seq<string> := [];
    var count := |slide.content|;
    var empty := Note(SlideHead(n), EmptySlide);
    var crowded := Note(SlideHead(n), CrowdedSlide(count));
    var twoCol := Note(SlideHead(n), TwoColAdvice);
    var imageFocus := Note(SlideHead(n), ImageFocusAdvice);
    if count == 0 && !Truthy(slide.title) {
      warnings := warnings + [empty];
    }
    assert warnings == AppendIf([], count == 0 && !Truthy(slide.title), empty);
    if count > 5 {
      suggestions := suggestions + [crowded];
    }
    assert suggestions == AppendIf([], count > 5, crowded);
    warnings, suggestions := ValidateContents(slide.content, n, host, warnings, suggestions);
    ghost var items := suggestions;
    if slide.layout == TWO_COL && count != 2 {
      suggestions := suggestions + [twoCol];
    }
    assert suggestions == AppendIf(items, slide.layout == TWO_COL && count != 2, twoCol);
    ghost var paired := suggestions;
    if slide.layout == IMAGE_FOCUS && !HasImage(slide.content) {
      suggestions := suggestions + [imageFocus];
    }
    assert suggestions == AppendIf(paired, slide.layout == IMAGE_FOCUS && !HasImage(slide.content), imageFocus);
    return Notes(warnings, suggestions);
  }

  // ---------------------------------------------------------------- output

  /** The characters an output file name must not contain. */
  const InvalidFilenameChars := "<>:\"/\\|?*"

  predicate HasInvalidChar(name: string) {
    exists i :: 0 <= i < |name| && name[i] in InvalidFilenameChars
  }

  /** The warnings about a named output file: the format's extension, then forbidden characters. */
  function FilenameWarnings(name: string, format: string): (r: seq<string>)
    ensures r == [] <==> EndsWith(name, "." + format) && !HasInvalidChar(name)
  {
    AppendIf(AppendIf([], !EndsWith(name, "." + format), WrongExtension(format)),
      HasInvalidChar(name), InvalidFilename)
  }

  /**
    The warnings about the output settings: a directory that is missing and cannot be
    created, then the named file's warnings.
  */
  function OutputWarnings(output: OutputSpec, host: Host): (r: seq<string>)
    ensures |r| <= 3
    ensures !Truthy(output.filename) ==> |r| <= 1
  {
    var dir := AppendIf([], !Exists(host, output.directory) && output.directory in host.uncreatableDirs, UncreatableDir(output.directory));
    if Truthy(output.filename) then dir + FilenameWarnings(output.filename.value, output.format) else dir
  }

  /** A plain file name with the format's extension, in a directory that exists, draws no warning. */
  lemma {:induction false} NamedOutputQuiet(stem: string, format: string, directory: string, host: Host)
    requires Exists(host, directory)
    requires !HasInvalidChar(stem) && !HasInvalidChar(format) && stem != ""
    ensures OutputWarnings(OutputSpec(Some(stem + "." + format), directory, format), host) == []
  {
    var name := stem + "." + format;
    assert name[|name| - |"." + format|..] == "." + format;
    assert !HasInvalidChar(".");
    InvalidFreeConcat(stem, ".");
    InvalidFreeConcat(stem + ".", format);
  }

  /** Two names free of forbidden characters make one. */
  lemma InvalidFreeConcat(a: string, b: string)
    requires !HasInvalidChar(a) && !HasInvalidChar(b)
    ensures !HasInvalidChar(a + b)
  {
    forall i | |a| <= i < |a + b| ensures (a + b)[i] !in InvalidFilenameChars {
      assert (a + b)[i] == b[i - |a|];
    }
  }

  /** `_validate_output`: appends the output warnings. */
  method ValidateOutput(output: OutputSpec, host: Host, warnings: seq<string>) returns (w: seq<string>)
    ensures w == warnings + OutputWarnings(output, host)
  {
    var found: seq<string> := [];
    if !Exists(host, output.directory) && output.directory in host.uncreatableDirs {
      found := found + [UncreatableDir(output.directory)];
    }
    if Truthy(output.filename) {
      var name := output.filename.value;
      var named: seq<string> := [];
      if !EndsWith(name, "." + output.format) {
        named := named + [WrongExtension(output.format)];
      }
      if HasInvalidChar(name) {
        named := named + [InvalidFilename];
      }
      found := found + named;
    }
    w := warnings + found;
  }

  // ---------------------------------------------------------------- improvements

  /** The set of layouts the slides use. */
  function LayoutsUsed(slides: seq<SlideSpec>): set<LayoutType> {
    set i | 0 <= i < |slides| :: slides[i].layout
  }

  predicate UsesLayout(slides: seq<SlideSpec>, t: LayoutType) {
    exists i :: 0 <= i < |slides| && slides[i].layout == t
  }

  /** The general suggestions about a deck's length and its choice of layouts. */
  function Improvements(slides: seq<SlideSpec>): (r: seq<string>)
    ensures |r| <= 4
  {
    var count := |slides|;
    var long := AppendIf([], count > 20, LongDeckAdvice(count));
    var variety := AppendIf(long, |LayoutsUsed(slides)| == 1 && count > 5, VarietyAdvice);
    var title := AppendIf(variety, !UsesLayout(slides, TITLE), TitleSlideAdvice);
    AppendIf(title, count > 10 && !UsesLayout(slides, SECTION), SectionAdvice)
  }

  /** The title-slide advice is given exactly when no slide has the TITLE layout. */
  lemma {:induction false} TitleAdviceIff(slides: seq<SlideSpec>)
    ensures TitleSlideAdvice in Improvements(slides) <==> !UsesLayout(slides, TITLE)
  {
    var count := |slides|;
    var m1 := LongDeckAdvice(count);
    assert |m1| > |TitleSlideAdvice|;
    var m2 := VarietyAdvice;
    var m4 := SectionAdvice;
    assert |m2| != |TitleSlideAdvice|;
    assert |m4| != |TitleSlideAdvice|;
  }

  /** "One layout used" means: there are slides, and all of them have the first one's layout. */
  lemma {:induction false} SingleLayoutIff(slides: seq<SlideSpec>)
    ensures |LayoutsUsed(slides)| == 1 <==> |slides| > 0 && forall i :: 0 <= i < |slides| ==> slides[i].layout == slides[0].layout
  {
    var used := LayoutsUsed(slides);
    if |slides| > 0 && forall i :: 0 <= i < |slides| ==> slides[i].layout == slides[0].layout {
      assert used == {slides[0].layout};
    }
    if |used| == 1 {
      assert |slides| > 0;
      forall i | 0 <= i < |slides| ensures slides[i].layout == slides[0].layout {
        if slides[i].layout != slides[0].layout {
          var pair := {slides[0].layout, slides[i].layout};
          assert pair <= used;
          assert |pair| == 2;
          SubsetCard(pair, used);
        }
      }
    }
  }

  lemma SubsetCard<T>(a: set<T>, b: set<T>)
    requires a <= b
    ensures |a| <= |b|
  {
    assert b == a + (b - a);
  }

  /** `_suggest_improvements`: appends the general suggestions. */
  method SuggestImprovements(deck: DeckSpec, suggestions: seq<string>) returns (s: seq<string>)
    ensures s == suggestions + Improvements(deck.slides)
  {
    var advice: seq<string> := [];
    var count := |deck.slides|;
    if count > 20 {
      advice := advice + [LongDeckAdvice(count)];
    }
    if |LayoutsUsed(deck.slides)| == 1 && count > 5 {
      advice := advice + [VarietyAdvice];
    }
    if !UsesLayout(deck.slides, TITLE) {
      advice := advice + [TitleSlideAdvice];
    }
    if count > 10 && !UsesLayout(deck.slides, SECTION) {
      advice := advice + [SectionAdvice];
    }
    s := suggestions + advice;
  }

  // ---------------------------------------------------------------- the deck

  /** The notes about the slides, numbered from 1, in slide order. */
  function SlidesNotes(slides: seq<SlideSpec>, host: Host): Notes
    decreases |slides|
  {
    if |slides| == 0 then NoNotes
    else SlidesNotes(slides[..|slides| - 1], host).Add(SlideNotes(slides[|slides| - 1], |slides|, host))
  }

  /** The structural errors of a deck, in the order `validate_deck` checks for them. */
  function DeckErrors(deck: DeckSpec): (r: seq<string>)
    ensures |r| <= 3
  {
    var title := AppendIf([], Strip(deck.title) == "", EmptyTitleError);
    var slides := AppendIf(title, |deck.slides| == 0, NoSlidesError);
    AppendIf(slides, !HasSource(deck.theme), InvalidThemeError)
  }

  /**
    The validation of a deck: the structural errors; theme, slide and output warnings in
    that order; slide suggestions, then general ones. Valid exactly when there is no error.
  */
  function Validation(deck: DeckSpec, host: Host): (r: ValidationResult)
    ensures r.errors == DeckErrors(deck)
    ensures r.valid <==> r.errors == []
  {
    var slides := SlidesNotes(deck.slides, host);
    var errors := DeckErrors(deck);
    ValidationResult(
      errors == [],
      errors,
      ThemeWarnings(deck.theme, host) + slides.warnings + OutputWarnings(deck.output, host),
      slides.suggestions + Improvements(deck.slides))
  }

  /** A deck is valid exactly when its title is not blank, it has slides and its theme names a source. */
  lemma ValidExactly(deck: DeckSpec, host: Host)
    ensures Validation(deck, host).valid <==> Strip(deck.title) != "" && |deck.slides| > 0 && HasSource(deck.theme)
  {
  }

  /**
    Each error is present exactly when its rule fails, a blank title is reported
    first and an invalid theme last.
  */
  lemma {:induction false} ErrorsInOrder(deck: DeckSpec)
    ensures EmptyTitleError in DeckErrors(deck) <==> Strip(deck.title) == ""
    ensures NoSlidesError in DeckErrors(deck) <==> |deck.slides| == 0
    ensures InvalidThemeError in DeckErrors(deck) <==> !HasSource(deck.theme)
    ensures Strip(deck.title) == "" ==> DeckErrors(deck)[0] == EmptyTitleError
    ensures !HasSource(deck.theme) ==> DeckErrors(deck)[|DeckErrors(deck)| - 1] == InvalidThemeError
  {
    var m1, m2, m3 := EmptyTitleError, NoSlidesError, InvalidThemeError;
    assert |m1| == 26 && |m2| == 36 && |m3| == 27;
    ThreeChecks(Strip(deck.title) == "", |deck.slides| == 0, !HasSource(deck.theme), m1, m2, m3);
  }

  /** Three checks appending three distinct messages: each message is there exactly when its check fails, in check order. */
  lemma ThreeChecks(c1: bool, c2: bool, c3: bool, m1: string, m2: string, m3: string)
    requires m1 != m2 && m1 != m3 && m2 != m3
    ensures var r := AppendIf(AppendIf(AppendIf([], c1, m1), c2, m2), c3, m3);
      && (m1 in r <==> c1) && (m2 in r <==> c2) && (m3 in r <==> c3)
      && (c1 ==> r[0] == m1) && (c3 ==> r[|r| - 1] == m3)
  {
  }

  /**
    For a deck that the deck and theme constructors accept, the only error the
    validator can raise is the blank title.
  */
  lemma {:induction false} ConstructedDeckErrors(title: string, scraped: Option<ScrapedTheme>, template: Option<string>, slides: seq<SlideSpec>, host: Host)
    requires NewThemeSpec(scraped, template).Ok?
    requires NewDeckSpec(title, NewThemeSpec(scraped, template).value, slides).Some?
    ensures Validation(NewDeckSpec(title, NewThemeSpec(scraped, template).value, slides).value, host).errors
      == if Strip(title) == "" then [EmptyTitleError] else []
  {
    var deck := NewDeckSpec(title, NewThemeSpec(scraped, template).value, slides).value;
    assert HasSource(deck.theme) && |deck.slides| > 0;
  }

  /** The slide loop of `validate_deck`: each slide's notes, numbered from 1, in slide order. */
  method ValidateSlides(slides: seq<SlideSpec>, host: Host) returns (notes: Notes)
    ensures notes == SlidesNotes(slides, host)
  {
    notes := NoNotes;
    var i := 0;
    while i < |slides|
      invariant 0 <= i <= |slides|
      invariant notes == SlidesNotes(slides[..i], host)
    {
      assert slides[..i + 1][..i] == slides[..i];
      var slideNotes := ValidateSlide(slides[i], i + 1, host);
      notes := notes.Add(slideNotes);
      i := i + 1;
    }
    assert slides[..i] == slides;
  }

  /** `validate_deck`: the errors, then the theme, the slides in order, the output and the general suggestions. */
  method ValidateDeck(deck: DeckSpec, host: Host) returns (r: ValidationResult)
    ensures r == Validation(deck, host)
  {
    var errors: seq<string> := [];
    if Strip(deck.title) == "" {
      errors := errors + [EmptyTitleError];
    }
    if |deck.slides| == 0 {
      errors := errors + [NoSlidesError];
    }
    var themeValid, warnings := ValidateTheme(deck.theme, host, []);
    if !themeValid {
      errors := errors + [InvalidThemeError];
    }
    assert errors == DeckErrors(deck);
    assert warnings == ThemeWarnings(deck.theme, host);
    var slides := ValidateSlides(deck.slides, host);
    warnings := warnings + slides.warnings;
    warnings := ValidateOutput(deck.output, host, warnings);
    var suggestions := SuggestImprovements(deck, slides.suggestions);
    return ValidationResult(errors == [], errors, warnings, suggestions);
  }
}
