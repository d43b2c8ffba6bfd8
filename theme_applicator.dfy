/**
  Applying a scraped theme while a deck is rendered: turning the theme's hex
  colour strings into RGB run colours, and placing the theme's cached logo on a
  slide at one of three positions.
*/
module ThemeApplicator {
  import opened Wrappers
  import opened Text
  import opened PyInt
  import opened Host
  import opened ThemeModel
  import opened Pptx
  import opened ThemeExtractor

  predicate IsByte(n: int) {
    0 <= n < 256
  }

  /**
    `apply_theme`: applying the colour scheme and the fonts only logs them, and
    any failure is logged too, so the presentation is left exactly as it was.
  */
  method ApplyTheme(prs: Presentation, theme: ScrapedTheme)
    ensures unchanged(prs)
  {
  }

  /**
    A hex colour as a run colour: leading '#' characters dropped, anything not six
    characters long read as "000000", then each pair read with `int(_, 16)`; a pair
    that does not parse, or a negative channel the colour type refuses, gives black.
  */
  function HexToRgb(hexColor: string): (c: Rgb)
    ensures |LStripWhere(hexColor, IsHash)| != 6 ==> c == Black
  {
    ZeroChannels();
    var h := LStripWhere(hexColor, IsHash);
    var six := if |h| == 6 then h else "000000";
    var r, g, b := Channel(six, 0), Channel(six, 2), Channel(six, 4);
    if r.Some? && g.Some? && b.Some? && IsByte(r.value) && IsByte(g.value) && IsByte(b.value) then
      Rgb(r.value, g.value, b.value)
    else
      Black
  }

  /** The stand-in text "000000" reads as three zero channels. */
  lemma ZeroChannels()
    ensures Channel("000000", 0) == Some(0) && Channel("000000", 2) == Some(0) && Channel("000000", 4) == Some(0)
  {
    assert PySlice("000000", 0, 2) == "00";
    assert PySlice("000000", 2, 4) == "00";
    assert PySlice("000000", 4, 6) == "00";
  }

  /** A well-formed `#RRGGBB` colour becomes the values of its three digit pairs. */
  lemma {:induction false} HexToRgbSixHex(p: string)
    requires IsSixHex(p)
    ensures AllHex(p[1..3]) && AllHex(p[3..5]) && AllHex(p[5..7])
    ensures HexValue(p[1..3]) < 256 && HexValue(p[3..5]) < 256 && HexValue(p[5..7]) < 256
    ensures HexToRgb(p) == Rgb(HexValue(p[1..3]), HexValue(p[3..5]), HexValue(p[5..7]))
  {
    assert IsHexDigit(p[1]);
    LStripOneHash(p);
    ChannelsOfSixHex(p);
    HexValueBound(p[1..3]);
    HexValueBound(p[3..5]);
    HexValueBound(p[5..7]);
  }

  /** Reading back a colour the extractor writes as `#RRGGBB` gives its three bytes. */
  lemma {:induction false} HexToRgbRoundTrip(r: int, g: int, b: int)
    requires IsByte(r) && IsByte(g) && IsByte(b)
    ensures HexToRgb(HexTriple(r, g, b)) == Rgb(r, g, b)
  {
    HexTripleBytes(r, g, b);
    HexDigitsValue(r);
    HexDigitsValue(g);
    HexDigitsValue(b);
    HexToRgbSixHex(HexTriple(r, g, b));
  }

  /** Any number of leading '#' characters is ignored. */
  lemma HexToRgbIgnoresHash(s: string)
    ensures HexToRgb("#" + s) == HexToRgb(s)
  {
    assert ("#" + s)[1..] == s;
  }

  /** Text of the right length whose pairs do not all parse is black. */
  lemma HexToRgbNotHex()
    ensures HexToRgb("#GG0000") == Black && HexToRgb("#-10000") == Black
  {
    assert PySlice("GG0000", 0, 2) == "GG";
    assert PySlice("-10000", 0, 2) == "-1";
  }

  /** A separator U+001C to U+001F in the first pair is not skipped by `int()`: the colour is black. */
  lemma {:induction false} SeparatorPairIsBlack(h: string)
    requires |h| == 6 && IsHexDigit(h[0]) && IsSeparator(h[1])
    ensures HexToRgb(h) == Black
  {
    assert LStripWhere(h, IsHash) == h;
    assert PySlice(h, 0, 2) == [h[0], h[1]];
    SeparatorPair(h[0], h[1]);
    assert Channel(h, 0) == None;
  }

  /** `int(_, 16)` also accepts a signed digit, so "+1+2+3" is a colour. */
  lemma HexToRgbSignedDigits()
    ensures HexToRgb("+1+2+3") == Rgb(1, 2, 3)
  {
    assert PySlice("+1+2+3", 0, 2) == "+1";
    assert PySlice("+1+2+3", 2, 4) == "+2";
    assert PySlice("+1+2+3", 4, 6) == "+3";
  }

  /** A logo's position on the slide and its width, in EMU. */
  datatype Placement = Placement(left: int, top: int, width: int)

  /**
    "top-right": 8.5in from the left, 0.5in down, 1.5in wide; "top-left": 0.5in, 0.5in,
    1.5in; any other position: 4.25in, 3.5in, 2in.
  */
  function LogoPlacement(position: string): (p: Placement)
    ensures p.top > 0 && p.left > 0 && p.width > 0
    ensures p.left + p.width <= 10 * EmuPerInch
    ensures position == "top-right" ==> p.left + p.width == 10 * EmuPerInch
  {
    if position == "top-right" then Placement(17 * EmuPerInch / 2, EmuPerInch / 2, 3 * EmuPerInch / 2)
    else if position == "top-left" then Placement(EmuPerInch / 2, EmuPerInch / 2, 3 * EmuPerInch / 2)
    else Placement(17 * EmuPerInch / 4, 7 * EmuPerInch / 2, 2 * EmuPerInch)
  }

  /** The placements are exact EMU values: the inch fractions involved have no rounding. */
  lemma LogoPlacementValues()
    ensures LogoPlacement("top-right") == Placement(7772400, 457200, 1371600)
    ensures LogoPlacement("top-left") == Placement(457200, 457200, 1371600)
    ensures LogoPlacement("center") == Placement(3886200, 3200400, 1828800)
    ensures LogoPlacement("bottom") == LogoPlacement("center")
  {
  }

  /** The cached logo file of a theme, when it has a logo with a non-empty cached path. */
  function LogoFile(theme: ScrapedTheme): (r: Option<string>)
    ensures r.Some? <==> theme.logo.Some? && Truthy(theme.logo.value.cachedPath)
    ensures r.Some? ==> r.value != "" && Some(r.value) == theme.logo.value.cachedPath
  {
    if theme.logo.Some? && Truthy(theme.logo.value.cachedPath) then theme.logo.value.cachedPath else None
  }

  /** Adding a picture from `path` succeeds when the path is a file that loads as an image. */
  predicate CanPlace(host: Host, path: string) {
    path in host.files && host.files[path] == Loadable
  }

  /**
    Placing the theme's logo on a slide. It is added, and true returned, exactly when
    the theme has a cached logo file that exists and loads; otherwise the slide is left
    as it was and false returned.
  */
  method ApplyLogoToSlide(slide: Slide, theme: ScrapedTheme, position: string, host: Host) returns (added: bool)
    modifies slide
    ensures added <==> LogoFile(theme).Some? && CanPlace(host, LogoFile(theme).value)
    ensures added ==> slide.pictures == old(slide.pictures) + [Picture(LogoFile(theme).value, LogoPlacement(position).left, LogoPlacement(position).top, LogoPlacement(position).width)]
    ensures !added ==> slide.pictures == old(slide.pictures)
    ensures slide.placeholders == old(slide.placeholders)
  {
    var file := LogoFile(theme);
    if file.None? {
      return false;
    }
    var path := file.value;
    if !Exists(host, path) {
      return false;
    }
    if !CanPlace(host, path) {
      // a directory, or a file that is not an image: adding the picture raises
      return false;
    }
    var at := LogoPlacement(position);
    slide.AddPicture(Picture(path, at.left, at.top, at.width));
    return true;
  }
}
