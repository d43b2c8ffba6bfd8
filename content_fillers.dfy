/**
  Filling a new slide from its specification: the title, the subtitle, each
  content element (text, bullets, and text stand-ins for images, tables and
  charts), then the theme's logo, collecting a warning for every step that
  could not be done.

  Each fill is specified twice: as a function on the slide's placeholders (what
  the placeholders become, or `None` when the fill reports failure and changes
  nothing) and as a method on a `Slide` that makes the same change in place.
*/
module ContentFillers {
  import opened Wrappers
  import opened Text
  import opened Host
  import opened ThemeModel
  import opened DeckModel
  import opened Pptx
  import opened ThemeApplicator

  // ------------------------------------------------------------ placeholders

  /** A placeholder the title goes into: it has text, and its lower-cased name contains "title". */
  predicate IsTitleCandidate(ph: Placeholder) {
    ph.hasTextFrame && Contains(Lower(ph.name), "title")
  }

  predicate IsSubtitleCandidate(ph: Placeholder) {
    ph.hasTextFrame && Contains(Lower(ph.name), "subtitle")
  }

  /** A placeholder body content goes into: it has text, and its name contains "content" or "body". */
  predicate IsContentCandidate(ph: Placeholder) {
    ph.hasTextFrame && (Contains(Lower(ph.name), "content") || Contains(Lower(ph.name), "body"))
  }

  /** Placeholder `k` is the first one with index `idx`: the one `slide.placeholders[idx]` returns. */
  predicate FirstWithIdx(phs: seq<Placeholder>, idx: nat, k: nat) {
    k < |phs| && phs[k].idx == idx && forall j :: 0 <= j < k ==> phs[j].idx != idx
  }

  /** `slide.placeholders[idx]`, kept only when it has text; a missing index raises and gives `None`. */
  function ByIdx(phs: seq<Placeholder>, idx: nat): (r: Option<nat>)
    ensures r.Some? ==> FirstWithIdx(phs, idx, r.value) && phs[r.value].hasTextFrame
    ensures r.None? ==> forall k: nat :: FirstWithIdx(phs, idx, k) ==> !phs[k].hasTextFrame
  {
    match FirstWhere(phs, IdxMatcher(idx))
    case None =>
      assert forall k: nat :: FirstWithIdx(phs, idx, k) ==> IdxMatcher(idx)(phs[k]);
      None
    case Some(k) =>
      assert FirstWithIdx(phs, idx, k) by {
        assert forall j :: 0 <= j < k ==> !IdxMatcher(idx)(phs[j]);
      }
      if phs[k].hasTextFrame then Some(k) else None
  }

  /** Where the title goes: the first title candidate, else the placeholder with index 0. */
  function TitleTarget(phs: seq<Placeholder>): (r: Option<nat>)
    ensures r.Some? ==> r.value < |phs| && phs[r.value].hasTextFrame
    ensures FirstWhere(phs, IsTitleCandidate).Some? ==> r == FirstWhere(phs, IsTitleCandidate)
    ensures FirstWhere(phs, IsTitleCandidate).None? && r.Some? ==> FirstWithIdx(phs, 0, r.value)
    ensures FirstWhere(phs, IsTitleCandidate).None? ==>
              (r.Some? <==> exists k: nat :: FirstWithIdx(phs, 0, k) && phs[k].hasTextFrame)
  {
    match FirstWhere(phs, IsTitleCandidate)
    case Some(k) => Some(k)
    case None => if |phs| > 0 then ByIdx(phs, 0) else None
  }

  /** Where the subtitle goes: the first subtitle candidate, else index 1 on a slide with two or more placeholders. */
  function SubtitleTarget(phs: seq<Placeholder>): (r: Option<nat>)
    ensures r.Some? ==> r.value < |phs| && phs[r.value].hasTextFrame
    ensures FirstWhere(phs, IsSubtitleCandidate).Some? ==> r == FirstWhere(phs, IsSubtitleCandidate)
    ensures FirstWhere(phs, IsSubtitleCandidate).None? && r.Some? ==> |phs| > 1 && FirstWithIdx(phs, 1, r.value)
    ensures FirstWhere(phs, IsSubtitleCandidate).None? ==>
              (r.Some? <==> |phs| > 1 && exists k: nat :: FirstWithIdx(phs, 1, k) && phs[k].hasTextFrame)
  {
    match FirstWhere(phs, IsSubtitleCandidate)
    case Some(k) => Some(k)
    case None => if |phs| > 1 then ByIdx(phs, 1) else None
  }

  /** Where body content goes: the first content candidate; there is no fallback. */
  function ContentTarget(phs: seq<Placeholder>): (r: Option<nat>)
    ensures r.Some? ==> r.value < |phs| && IsContentCandidate(phs[r.value])
    ensures r.Some? ==> forall j :: 0 <= j < r.value ==> !IsContentCandidate(phs[j])
    ensures r.None? ==> forall j :: 0 <= j < |phs| ==> !IsContentCandidate(phs[j])
  {
    FirstWhere(phs, IsContentCandidate)
  }

  /** A placeholder named "Subtitle" comes first among title candidates too: the title lands in it. */
  lemma {:induction false} TitleTakesSubtitlePlaceholder(phs: seq<Placeholder>)
    requires |phs| > 0 && IsSubtitleCandidate(phs[0])
    ensures TitleTarget(phs) == Some(0) && SubtitleTarget(phs) == Some(0)
  {
    SubtitleHasTitle(Lower(phs[0].name));
    FirstWhereIs(phs, IsTitleCandidate, 0);
    FirstWhereIs(phs, IsSubtitleCandidate, 0);
  }

  // ------------------------------------------------------------------ styles

  /** The title run: heading font, 32pt, primary colour. */
  function TitleStyle(theme: Option<ScrapedTheme>): (r: Option<RunStyle>)
    ensures r.Some? <==> theme.Some?
    ensures r.Some? ==> r.value.font == theme.value.fonts.heading && r.value.sizePt == 32
    ensures r.Some? ==> r.value.color == HexToRgb(theme.value.colors.primary)
  {
    if theme.Some? then Some(RunStyle(theme.value.fonts.heading, 32, HexToRgb(theme.value.colors.primary))) else None
  }

  /** The subtitle run: body font, 18pt, text colour. */
  function SubtitleStyle(theme: Option<ScrapedTheme>): (r: Option<RunStyle>)
    ensures r.Some? <==> theme.Some?
    ensures r.Some? ==> r.value.font == theme.value.fonts.body && r.value.sizePt == 18
    ensures r.Some? ==> r.value.color == HexToRgb(theme.value.colors.text)
  {
    if theme.Some? then Some(RunStyle(theme.value.fonts.body, 18, HexToRgb(theme.value.colors.text))) else None
  }

  /** Text and bullet runs: body font, 14pt, text colour. */
  function BodyStyle(theme: Option<ScrapedTheme>): (r: Option<RunStyle>)
    ensures r.Some? <==> theme.Some?
    ensures r.Some? ==> r.value.font == theme.value.fonts.body && r.value.sizePt == 14
    ensures r.Some? ==> r.value.color == HexToRgb(theme.value.colors.text)
  {
    if theme.Some? then Some(RunStyle(theme.value.fonts.body, 14, HexToRgb(theme.value.colors.text))) else None
  }

  /** Styling the first run of a paragraph, adding an empty run first when it has none. */
  function StyleFirstRun(p: Paragraph, style: RunStyle): (r: Paragraph)
    ensures r.text == p.text && r.level == p.level
    ensures |r.runs| == (if |p.runs| > 0 then |p.runs| else 1) && r.runs[0] == Some(style)
    ensures forall k :: 0 < k < |p.runs| ==> r.runs[k] == p.runs[k]
  {
    p.(runs := if |p.runs| > 0 then p.runs[0 := Some(style)] else [Some(style)])
  }

  /** `n` runs, all styled. */
  function AllStyled(n: nat, style: RunStyle): (r: seq<Option<RunStyle>>)
    ensures |r| == n && forall k :: 0 <= k < n ==> r[k] == Some(style)
  {
    seq(n, _ => Some(style))
  }

  /** Styling every run of a paragraph. */
  function StyleAllRuns(p: Paragraph, style: RunStyle): (r: Paragraph)
    ensures r.text == p.text && r.level == p.level && |r.runs| == |p.runs|
    ensures forall k :: 0 <= k < |r.runs| ==> r.runs[k] == Some(style)
  {
    p.(runs := AllStyled(|p.runs|, style))
  }

  /** Styling every run of every paragraph. */
  function StyleEach(ps: seq<Paragraph>, style: RunStyle): (r: seq<Paragraph>)
    ensures |r| == |ps| && Texts(r) == Texts(ps)
    ensures forall j :: 0 <= j < |r| ==> r[j] == StyleAllRuns(ps[j], style)
  {
    seq(|ps|, j requires 0 <= j < |ps| => StyleAllRuns(ps[j], style))
  }

  // ------------------------------------------------------- placeholder fills

  /** A title or subtitle placeholder after the fill: its text set, then its first run styled. */
  function WithHeading(ph: Placeholder, s: string, style: Option<RunStyle>): (r: Placeholder)
    ensures r.idx == ph.idx && r.name == ph.name && r.hasTextFrame == ph.hasTextFrame
    ensures FrameText(r.paragraphs) == s
    ensures style.Some? ==> |r.paragraphs| > 0 && |r.paragraphs[0].runs| > 0 && r.paragraphs[0].runs[0] == style
  {
    var w := WithText(ph, s);
    if style.None? then w
    else
      var ps := w.paragraphs[0 := StyleFirstRun(w.paragraphs[0], style.value)];
      assert Texts(ps) == Texts(w.paragraphs);
      w.(paragraphs := ps)
  }

  /** A text placeholder after the fill: its text set, then every run styled. */
  function WithBody(ph: Placeholder, s: string, style: Option<RunStyle>): (r: Placeholder)
    ensures r.idx == ph.idx && r.name == ph.name && r.hasTextFrame == ph.hasTextFrame
    ensures FrameText(r.paragraphs) == s
    ensures style.Some? ==> forall j, k :: 0 <= j < |r.paragraphs| && 0 <= k < |r.paragraphs[j].runs| ==> r.paragraphs[j].runs[k] == style
  {
    var w := WithText(ph, s);
    if style.None? then w else w.(paragraphs := StyleEach(w.paragraphs, style.value))
  }

  /** One bullet: a new level-0 paragraph holding it, every run styled. */
  function BulletParagraph(b: string, style: Option<RunStyle>): (p: Paragraph)
    ensures p.level == 0 && p.text == NewParagraph(b).text
  {
    if style.Some? then StyleAllRuns(NewParagraph(b), style.value) else NewParagraph(b)
  }

  /**
    The paragraphs of a cleared frame after the first `|bullets|` bullets are written:
    with no bullets, the one emptied paragraph `clear()` keeps (its level kept).
  */
  function BulletParagraphs(first: Paragraph, bullets: seq<string>, style: Option<RunStyle>): (ps: seq<Paragraph>)
    ensures |ps| == if |bullets| == 0 then 1 else |bullets|
  {
    if |bullets| == 0 then [Paragraph("", first.level, [])]
    else seq(|bullets|, j requires 0 <= j < |bullets| => BulletParagraph(bullets[j], style))
  }

  /** A placeholder after its frame is cleared and the bullets written. */
  function WithBullets(ph: Placeholder, bullets: seq<string>, style: Option<RunStyle>): (r: Placeholder)
    requires |ph.paragraphs| > 0
    ensures r.idx == ph.idx && r.name == ph.name && r.hasTextFrame == ph.hasTextFrame
  {
    ph.(paragraphs := BulletParagraphs(ph.paragraphs[0], bullets, style))
  }

  /** Written bullets read back joined by newlines, one level-0 paragraph each. */
  lemma {:induction false} BulletsReadBack(ph: Placeholder, bullets: seq<string>, style: Option<RunStyle>)
    requires |ph.paragraphs| > 0 && |bullets| > 0
    requires forall j :: 0 <= j < |bullets| ==> '\n' !in bullets[j]
    ensures |WithBullets(ph, bullets, style).paragraphs| == |bullets|
    ensures forall j :: 0 <= j < |bullets| ==> WithBullets(ph, bullets, style).paragraphs[j].level == 0
    ensures FrameText(WithBullets(ph, bullets, style).paragraphs) == Join("\n", bullets)
  {
    var ps := WithBullets(ph, bullets, style).paragraphs;
    forall j | 0 <= j < |bullets| ensures ps[j].text == bullets[j] {
      ReplaceAbsent(bullets[j], '\n', VerticalTab);
    }
    assert Texts(ps) == bullets;
  }

  /** Writing no bullets leaves a frame that reads back empty. */
  lemma NoBulletsReadBack(ph: Placeholder, style: Option<RunStyle>)
    requires |ph.paragraphs| > 0
    ensures FrameText(WithBullets(ph, [], style).paragraphs) == ""
    ensures WithBullets(ph, [], style).paragraphs[0].level == ph.paragraphs[0].level
  {
    assert Texts(WithBullets(ph, [], style).paragraphs) == [""];
  }

  // --------------------------------------------------------- the text builders

  /** The stand-in text for an image: its URL, then the alt text and caption when present. */
  function ImageText(img: ImageSpec): string {
    "[IMAGE: " + img.url + "]"
    + (if Truthy(img.altText) then "\nAlt text: " + img.altText.value else "")
    + (if Truthy(img.caption) then "\nCaption: " + img.caption.value else "")
  }

  /** The stand-in text for a table: its headers joined by ", ", then the number of rows. */
  function TableText(t: TableSpec): string {
    "[TABLE]\nHeaders: " + Join(", ", t.headers) + "\n" + "Rows: " + NatToString(|t.rows|) + " rows of data"
  }

  /** The stand-in text for a chart: its type, then its title when present. */
  function ChartText(c: ChartSpec): string {
    "[CHART: " + c.chartType + "]" + (if Truthy(c.title) then "\nTitle: " + c.title.value else "")
  }

  lemma SplitTwo(a: string, b: string)
    requires '\n' !in a && '\n' !in b
    ensures Split(a + "\n" + b, '\n') == [a, b]
  {
    SplitConcat(a, b, '\n');
    SplitNoSep(a, '\n');
    SplitNoSep(b, '\n');
  }

  lemma SplitThree(a: string, b: string, c: string)
    requires '\n' !in a && '\n' !in b && '\n' !in c
    ensures Split(a + "\n" + b + "\n" + c, '\n') == [a, b, c]
  {
    assert a + "\n" + b + "\n" + c == a + ['\n'] + (b + "\n" + c);
    SplitConcat(a, b + "\n" + c, '\n');
    SplitNoSep(a, '\n');
    SplitTwo(b, c);
  }

  /** Appending a newline and a line without newlines, when `c` holds, adds that one line. */
  lemma AppendOptionalLine(t: string, c: bool, line: string)
    requires '\n' !in line
    ensures Split(t + (if c then "\n" + line else ""), '\n') == Split(t, '\n') + (if c then [line] else [])
  {
    if c {
      assert t + ("\n" + line) == t + ['\n'] + line;
      SplitConcat(t, line, '\n');
      SplitNoSep(line, '\n');
    } else {
      assert t + "" == t;
    }
  }

  /** A prefix followed by a text without newlines has no newline, when the prefix has none. */
  lemma LabelledNoNewline(prefix: string, v: string, suffix: string)
    requires '\n' !in prefix && '\n' !in v && '\n' !in suffix
    ensures '\n' !in prefix + v + suffix
  {
  }

  /** The image labels hold no newline; the two that open a line are a newline followed by the label. */
  lemma ImageLabelsOneLine()
    ensures '\n' !in "[IMAGE: " && '\n' !in "]" && '\n' !in "Alt text: " && '\n' !in "Caption: " && '\n' !in ""
    ensures "\nAlt text: " == "\n" + "Alt text: " && "\nCaption: " == "\n" + "Caption: "
  {
  }

  /** The image text has one line for the URL and one for each of alt text and caption that is present. */
  lemma {:induction false} ImageTextLines(img: ImageSpec)
    requires '\n' !in img.url
    requires img.altText.Some? ==> '\n' !in img.altText.value
    requires img.caption.Some? ==> '\n' !in img.caption.value
    ensures Split(ImageText(img), '\n') ==
      ["[IMAGE: " + img.url + "]"]
      + (if Truthy(img.altText) then ["Alt text: " + img.altText.value] else [])
      + (if Truthy(img.caption) then ["Caption: " + img.caption.value] else [])
  {
    var head := "[IMAGE: " + img.url + "]";
    ImageLabelsOneLine();
    LabelledNoNewline("[IMAGE: ", img.url, "]");
    SplitNoSep(head, '\n');
    var hasAlt, hasCap := Truthy(img.altText), Truthy(img.caption);
    var alt := if hasAlt then "Alt text: " + img.altText.value else "";
    var cap := if hasCap then "Caption: " + img.caption.value else "";
    if hasAlt { LabelledNoNewline("Alt text: ", img.altText.value, ""); assert alt == "Alt text: " + img.altText.value + ""; }
    if hasCap { LabelledNoNewline("Caption: ", img.caption.value, ""); assert cap == "Caption: " + img.caption.value + ""; }
    var t1 := head + (if hasAlt then "\n" + alt else "");
    AppendOptionalLine(head, hasAlt, alt);
    var t2 := t1 + (if hasCap then "\n" + cap else "");
    AppendOptionalLine(t1, hasCap, cap);
    var altPart := if hasAlt then "\nAlt text: " + img.altText.value else "";
    var capPart := if hasCap then "\nCaption: " + img.caption.value else "";
    assert ImageText(img) == head + altPart + capPart;
    assert altPart == (if hasAlt then "\n" + alt else "") by {
      if hasAlt { AppendAssoc("\n", "Alt text: ", img.altText.value); }
    }
    assert capPart == (if hasCap then "\n" + cap else "") by {
      if hasCap { AppendAssoc("\n", "Caption: ", img.caption.value); }
    }
  }

  /** The table text has exactly three lines: the marker, the headers and the row count. */
  lemma {:induction false} TableTextLines(t: TableSpec)
    requires '\n' !in Join(", ", t.headers)
    ensures Split(TableText(t), '\n') == ["[TABLE]", "Headers: " + Join(", ", t.headers), "Rows: " + NatToString(|t.rows|) + " rows of data"]
  {
    var h := "Headers: " + Join(", ", t.headers);
    var n := NatToString(|t.rows|);
    var rows := "Rows: " + n + " rows of data";
    assert '\n' !in h by {
      assert forall i :: 9 <= i < |h| ==> h[i] == Join(", ", t.headers)[i - 9];
    }
    assert '\n' !in rows by {
      assert forall i :: 6 <= i < 6 + |n| ==> rows[i] == n[i - 6] && IsDigit(n[i - 6]);
    }
    assert TableText(t) == "[TABLE]" + "\n" + h + "\n" + rows;
    SplitThree("[TABLE]", h, rows);
  }

  /** The chart text is one line for the type, and one more for a title that is present. */
  lemma {:induction false} ChartTextLines(c: ChartSpec)
    requires '\n' !in c.chartType
    requires c.title.Some? ==> '\n' !in c.title.value
    ensures Split(ChartText(c), '\n') ==
      ["[CHART: " + c.chartType + "]"] + (if Truthy(c.title) then ["Title: " + c.title.value] else [])
  {
    var head := "[CHART: " + c.chartType + "]";
    assert '\n' !in head by {
      assert forall i :: 8 <= i < 8 + |c.chartType| ==> head[i] == c.chartType[i - 8];
    }
    if Truthy(c.title) {
      var title := "Title: " + c.title.value;
      assert '\n' !in title by {
        assert forall i :: 7 <= i < |title| ==> title[i] == c.title.value[i - 7];
      }
      assert ChartText(c) == head + "\n" + title;
      SplitTwo(head, title);
    } else {
      assert ChartText(c) == head;
      SplitNoSep(head, '\n');
    }
  }

  // ------------------------------------------------------------ slide fills

  /** The title fill: `None` (reported as failure, nothing changed) when there is no target. */
  function TitleFill(phs: seq<Placeholder>, title: string, theme: Option<ScrapedTheme>): Option<seq<Placeholder>> {
    match TitleTarget(phs)
    case None => None
    case Some(k) => Some(phs[k := WithHeading(phs[k], title, TitleStyle(theme))])
  }

  function SubtitleFill(phs: seq<Placeholder>, subtitle: string, theme: Option<ScrapedTheme>): Option<seq<Placeholder>> {
    match SubtitleTarget(phs)
    case None => None
    case Some(k) => Some(phs[k := WithHeading(phs[k], subtitle, SubtitleStyle(theme))])
  }

  function TextFill(phs: seq<Placeholder>, text: string, theme: Option<ScrapedTheme>): Option<seq<Placeholder>> {
    match ContentTarget(phs)
    case None => None
    case Some(k) => Some(phs[k := WithBody(phs[k], text, BodyStyle(theme))])
  }

  /** The bullets fill; clearing a frame that has no paragraph at all raises, which is a failure too. */
  function BulletsFill(phs: seq<Placeholder>, bullets: seq<string>, theme: Option<ScrapedTheme>): Option<seq<Placeholder>> {
    match ContentTarget(phs)
    case None => None
    case Some(k) =>
      if |phs[k].paragraphs| == 0 then None
      else Some(phs[k := WithBullets(phs[k], bullets, BodyStyle(theme))])
  }

  /** The image, table and chart fills: the stand-in text written unstyled into the content placeholder. */
  function PlainFill(phs: seq<Placeholder>, s: string): Option<seq<Placeholder>> {
    match ContentTarget(phs)
    case None => None
    case Some(k) => Some(phs[k := WithText(phs[k], s)])
  }

  /** The placeholders and warnings after one fill step. */
  function Outcome(phs: seq<Placeholder>, filled: Option<seq<Placeholder>>, warning: string): (r: (seq<Placeholder>, seq<string>))
    ensures r.1 == [] <==> filled.Some?
    ensures |r.1| <= 1 && (filled.None? ==> r == (phs, [warning]))
    ensures r.0 == filled.GetOr(phs)
  {
    if filled.Some? then (filled.value, []) else (phs, [warning])
  }

  /** One content element: dispatched on its type; an image, table or chart without its payload does nothing. */
  function ContentFill(phs: seq<Placeholder>, c: SlideContent, theme: Option<ScrapedTheme>): (r: (seq<Placeholder>, seq<string>))
    ensures |r.1| <= 1
  {
    match c.contentType
    case Text => Outcome(phs, TextFill(phs, c.text.GetOr(""), theme), "Could not add text content")
    case Bullets => Outcome(phs, BulletsFill(phs, c.bullets.GetOr([]), theme), "Could not add bullet points")
    case Image =>
      if c.image.Some? then Outcome(phs, PlainFill(phs, ImageText(c.image.value)), "Could not add image: " + c.image.value.url)
      else (phs, [])
    case Table =>
      if c.table.Some? then Outcome(phs, PlainFill(phs, TableText(c.table.value)), "Could not add table")
      else (phs, [])
    case Chart =>
      if c.chart.Some? then Outcome(phs, PlainFill(phs, ChartText(c.chart.value)), "Could not add chart")
      else (phs, [])
  }

  /** The content elements in order, each on the placeholders the previous ones left; warnings concatenated. */
  function ContentsFill(phs: seq<Placeholder>, cs: seq<SlideContent>, theme: Option<ScrapedTheme>): (seq<Placeholder>, seq<string>)
    decreases |cs|
  {
    if |cs| == 0 then (phs, [])
    else
      var before := ContentsFill(phs, cs[..|cs| - 1], theme);
      var last := ContentFill(before.0, cs[|cs| - 1], theme);
      (last.0, before.1 + last.1)
  }

  function TitleStep(phs: seq<Placeholder>, spec: SlideSpec, theme: Option<ScrapedTheme>): (seq<Placeholder>, seq<string>) {
    if Truthy(spec.title) then Outcome(phs, TitleFill(phs, spec.title.value, theme), "Could not set title: " + spec.title.value)
    else (phs, [])
  }

  function SubtitleStep(phs: seq<Placeholder>, spec: SlideSpec, theme: Option<ScrapedTheme>): (seq<Placeholder>, seq<string>) {
    if Truthy(spec.subtitle) then Outcome(phs, SubtitleFill(phs, spec.subtitle.value, theme), "Could not set subtitle: " + spec.subtitle.value)
    else (phs, [])
  }

  /** The title, then the subtitle, then the content elements; the warnings in that order. */
  function SlideFill(phs: seq<Placeholder>, spec: SlideSpec, theme: Option<ScrapedTheme>): (seq<Placeholder>, seq<string>) {
    var t := TitleStep(phs, spec, theme);
    var s := SubtitleStep(t.0, spec, theme);
    var c := ContentsFill(s.0, spec.content, theme);
    (c.0, t.1 + s.1 + c.1)
  }

  /** Whether the slide fill tries the logo (a theme with a logo), and whether it gets added. */
  predicate TriesLogo(theme: Option<ScrapedTheme>) {
    theme.Some? && theme.value.logo.Some?
  }

  predicate LogoAdded(theme: Option<ScrapedTheme>, host: Host) {
    TriesLogo(theme) && LogoFile(theme.value).Some? && CanPlace(host, LogoFile(theme.value).value)
  }

  function LogoWarnings(theme: Option<ScrapedTheme>, host: Host): seq<string> {
    if TriesLogo(theme) && !LogoAdded(theme, host) then ["Could not add logo to slide"] else []
  }

  /** The logo picture a slide fill adds, at the top right. */
  function LogoPicture(theme: ScrapedTheme): Picture
    requires LogoFile(theme).Some?
  {
    var at := LogoPlacement("top-right");
    Picture(LogoFile(theme).value, at.left, at.top, at.width)
  }

  // -------------------------------------------------------------- properties

  /**
    A fill only rewrites text frames: the placeholders keep their number, order,
    indices, names and kinds, and a placeholder without text is left as it was.
  */
  predicate Refills(before: seq<Placeholder>, after: seq<Placeholder>) {
    |after| == |before| &&
    forall i :: 0 <= i < |before| ==>
      after[i].idx == before[i].idx && after[i].name == before[i].name &&
      after[i].hasTextFrame == before[i].hasTextFrame &&
      (!before[i].hasTextFrame ==> after[i] == before[i])
  }

  lemma UpdateRefills(phs: seq<Placeholder>, k: nat, ph: Placeholder)
    requires k < |phs| && phs[k].hasTextFrame
    requires ph.idx == phs[k].idx && ph.name == phs[k].name && ph.hasTextFrame
    ensures Refills(phs, phs[k := ph])
  {
  }

  /** Filling one content element only rewrites the text frame of the content placeholder. */
  lemma ContentFillRefills(phs: seq<Placeholder>, c: SlideContent, theme: Option<ScrapedTheme>)
    ensures Refills(phs, ContentFill(phs, c, theme).0)
  {
    var k := ContentTarget(phs);
    if k.Some? {
      var i := k.value;
      match c.contentType
      case Text => UpdateRefills(phs, i, WithBody(phs[i], c.text.GetOr(""), BodyStyle(theme)));
      case Bullets =>
        if |phs[i].paragraphs| > 0 {
          UpdateRefills(phs, i, WithBullets(phs[i], c.bullets.GetOr([]), BodyStyle(theme)));
        }
      case Image =>
        if c.image.Some? { UpdateRefills(phs, i, WithText(phs[i], ImageText(c.image.value))); }
      case Table =>
        if c.table.Some? { UpdateRefills(phs, i, WithText(phs[i], TableText(c.table.value))); }
      case Chart =>
        if c.chart.Some? { UpdateRefills(phs, i, WithText(phs[i], ChartText(c.chart.value))); }
    }
  }

  /** Filling any number of content elements only rewrites text frames. */
  lemma {:induction false} ContentsFillRefills(phs: seq<Placeholder>, cs: seq<SlideContent>, theme: Option<ScrapedTheme>)
    ensures Refills(phs, ContentsFill(phs, cs, theme).0)
    decreases |cs|
  {
    if |cs| > 0 {
      ContentsFillRefills(phs, cs[..|cs| - 1], theme);
      var before := ContentsFill(phs, cs[..|cs| - 1], theme);
      ContentFillRefills(before.0, cs[|cs| - 1], theme);
    }
  }

  /** Each content element adds at most one warning. */
  lemma {:induction false} ContentsFillWarnings(phs: seq<Placeholder>, cs: seq<SlideContent>, theme: Option<ScrapedTheme>)
    ensures |ContentsFill(phs, cs, theme).1| <= |cs|
    decreases |cs|
  {
    if |cs| > 0 {
      ContentsFillWarnings(phs, cs[..|cs| - 1], theme);
    }
  }

  lemma RefillsTrans(a: seq<Placeholder>, b: seq<Placeholder>, c: seq<Placeholder>)
    requires Refills(a, b) && Refills(b, c)
    ensures Refills(a, c)
  {
  }

  lemma HeadingStepsRefill(phs: seq<Placeholder>, spec: SlideSpec, theme: Option<ScrapedTheme>)
    ensures Refills(phs, TitleStep(phs, spec, theme).0)
    ensures Refills(phs, SubtitleStep(phs, spec, theme).0)
  {
    var t := TitleTarget(phs);
    if Truthy(spec.title) && t.Some? {
      UpdateRefills(phs, t.value, WithHeading(phs[t.value], spec.title.value, TitleStyle(theme)));
    }
    var u := SubtitleTarget(phs);
    if Truthy(spec.subtitle) && u.Some? {
      UpdateRefills(phs, u.value, WithHeading(phs[u.value], spec.subtitle.value, SubtitleStyle(theme)));
    }
  }

  /** Filling a whole slide only rewrites text frames, and warns at most once per step. */
  lemma {:induction false} SlideFillFacts(phs: seq<Placeholder>, spec: SlideSpec, theme: Option<ScrapedTheme>)
    ensures Refills(phs, SlideFill(phs, spec, theme).0)
    ensures |SlideFill(phs, spec, theme).1| <= 2 + |spec.content|
  {
    var t := TitleStep(phs, spec, theme);
    var s := SubtitleStep(t.0, spec, theme);
    var c := ContentsFill(s.0, spec.content, theme);
    HeadingStepsRefill(phs, spec, theme);
    HeadingStepsRefill(t.0, spec, theme);
    ContentsFillRefills(s.0, spec.content, theme);
    ContentsFillWarnings(s.0, spec.content, theme);
    RefillsTrans(phs, t.0, s.0);
    RefillsTrans(phs, s.0, c.0);
    assert |t.1| <= 1 && |s.1| <= 1;
  }

  /** A filled title reads back from its placeholder; every other placeholder is untouched. */
  lemma TitleReadsBack(phs: seq<Placeholder>, title: string, theme: Option<ScrapedTheme>)
    requires TitleTarget(phs).Some?
    ensures TitleFill(phs, title, theme).Some?
    ensures FrameText(TitleFill(phs, title, theme).value[TitleTarget(phs).value].paragraphs) == title
    ensures forall i :: 0 <= i < |phs| && i != TitleTarget(phs).value ==> TitleFill(phs, title, theme).value[i] == phs[i]
  {
  }

  /** Title and subtitle on a slide whose first placeholder is its subtitle: both land there, the subtitle last. */
  lemma {:induction false} SubtitleOverwritesTitle(phs: seq<Placeholder>, spec: SlideSpec, theme: Option<ScrapedTheme>)
    requires |phs| > 0 && IsSubtitleCandidate(phs[0])
    requires Truthy(spec.title) && Truthy(spec.subtitle) && spec.content == []
    ensures SlideFill(phs, spec, theme).1 == []
    ensures FrameText(SlideFill(phs, spec, theme).0[0].paragraphs) == spec.subtitle.value
  {
    TitleTakesSubtitlePlaceholder(phs);
    var t := TitleStep(phs, spec, theme);
    assert t.0 == phs[0 := WithHeading(phs[0], spec.title.value, TitleStyle(theme))];
    assert t.0[0].name == phs[0].name && t.0[0].hasTextFrame;
    TitleTakesSubtitlePlaceholder(t.0);
  }

  /** An image, table or chart element without its payload changes nothing and warns nothing. */
  lemma AbsentPayloadIsSilent(phs: seq<Placeholder>, c: SlideContent, theme: Option<ScrapedTheme>)
    requires (c.contentType == Image && c.image.None?) || (c.contentType == Table && c.table.None?)
          || (c.contentType == Chart && c.chart.None?)
    ensures ContentFill(phs, c, theme) == (phs, [])
  {
  }

  /** Without a content placeholder every element that has something to write warns, and nothing changes. */
  lemma NoContentPlaceholder(phs: seq<Placeholder>, c: SlideContent, theme: Option<ScrapedTheme>)
    requires ContentTarget(phs).None?
    ensures ContentFill(phs, c, theme).0 == phs
    ensures c.contentType == Text ==> ContentFill(phs, c, theme).1 == ["Could not add text content"]
    ensures c.contentType == Bullets ==> ContentFill(phs, c, theme).1 == ["Could not add bullet points"]
    ensures c.contentType == Image && c.image.Some? ==> ContentFill(phs, c, theme).1 == ["Could not add image: " + c.image.value.url]
    ensures c.contentType == Table && c.table.Some? ==> ContentFill(phs, c, theme).1 == ["Could not add table"]
    ensures c.contentType == Chart && c.chart.Some? ==> ContentFill(phs, c, theme).1 == ["Could not add chart"]
  {
  }

  // ----------------------------------------------------------------- methods

  /** Styling every run of paragraph `j` of placeholder `i`, one run at a time. */
  method StyleRuns(slide: Slide, i: nat, j: nat, style: RunStyle)
    requires i < |slide.placeholders| && j < |slide.placeholders[i].paragraphs|
    modifies slide
    ensures slide.placeholders == WithParagraph(old(slide.placeholders), i, j, StyleAllRuns(old(slide.placeholders)[i].paragraphs[j], style))
    ensures slide.pictures == old(slide.pictures)
  {
    ghost var phs := slide.placeholders;
    ghost var p := phs[i].paragraphs[j];
    var count := |slide.placeholders[i].paragraphs[j].runs|;
    var m := 0;
    assert AllStyled(0, style) + p.runs[0..] == p.runs;
    assert phs[i].paragraphs[j := p] == phs[i].paragraphs;
    assert WithParagraph(phs, i, j, p) == phs;
    while m < count
      invariant 0 <= m <= count && count == |p.runs|
      invariant slide.placeholders == WithParagraph(phs, i, j, p.(runs := AllStyled(m, style) + p.runs[m..]))
      invariant slide.pictures == old(slide.pictures)
    {
      ghost var q := p.(runs := AllStyled(m, style) + p.runs[m..]);
      slide.SetRunStyle(i, j, m, style);
      WithParagraphTwice(phs, i, j, q, q.(runs := q.runs[m := Some(style)]));
      assert q.runs[m := Some(style)] == AllStyled(m + 1, style) + p.runs[m + 1..];
      m := m + 1;
    }
    assert AllStyled(m, style) + p.runs[m..] == AllStyled(m, style);
  }

  /** Writing a title or subtitle into placeholder `i`: the text, then the first run styled. */
  method FillHeading(slide: Slide, i: nat, s: string, style: Option<RunStyle>)
    requires i < |slide.placeholders|
    modifies slide
    ensures slide.placeholders == old(slide.placeholders)[i := WithHeading(old(slide.placeholders)[i], s, style)]
    ensures slide.pictures == old(slide.pictures)
  {
    ghost var phs := slide.placeholders;
    slide.SetText(i, s);
    ghost var w := WithText(phs[i], s);
    if style.Some? {
      ghost var p := w.paragraphs[0];
      if |slide.placeholders[i].paragraphs[0].runs| == 0 {
        slide.AddRun(i, 0);
        assert p.runs + [None] == [None];
        ghost var q := p.(runs := [None]);
        assert slide.placeholders == WithParagraph(phs[i := w], i, 0, q);
        slide.SetRunStyle(i, 0, 0, style.value);
        assert q.runs[0 := Some(style.value)] == [Some(style.value)];
        WithParagraphTwice(phs[i := w], i, 0, q, q.(runs := [Some(style.value)]));
        assert q.(runs := [Some(style.value)]) == StyleFirstRun(p, style.value);
      } else {
        slide.SetRunStyle(i, 0, 0, style.value);
        assert p.(runs := p.runs[0 := Some(style.value)]) == StyleFirstRun(p, style.value);
      }
      assert slide.placeholders == WithParagraph(phs[i := w], i, 0, StyleFirstRun(p, style.value));
      UpdateTwice(phs, i, w, w.(paragraphs := w.paragraphs[0 := StyleFirstRun(p, style.value)]));
      assert WithHeading(phs[i], s, style) == w.(paragraphs := w.paragraphs[0 := StyleFirstRun(p, style.value)]);
    }
  }

  /** Styling paragraph `j` extends the styled prefix by one paragraph. */
  lemma StyleEachStep(xs: seq<Paragraph>, j: nat, style: RunStyle)
    requires j < |xs|
    ensures (StyleEach(xs[..j], style) + xs[j..])[j := StyleAllRuns(xs[j], style)] == StyleEach(xs[..j + 1], style) + xs[j + 1..]
  {
    var a := (StyleEach(xs[..j], style) + xs[j..])[j := StyleAllRuns(xs[j], style)];
    var b := StyleEach(xs[..j + 1], style) + xs[j + 1..];
    assert |a| == |b|;
    forall k | 0 <= k < |a| ensures a[k] == b[k] {
      if k < j { assert a[k] == StyleEach(xs[..j], style)[k]; }
      else if k > j { assert a[k] == xs[k]; }
    }
  }

  /** Styling paragraph `j` of placeholder `i` when the paragraphs before it are styled already. */
  method StyleParagraph(slide: Slide, i: nat, ghost phs: seq<Placeholder>, ghost w: Placeholder, j: nat, style: RunStyle)
    requires i < |phs| && j < |w.paragraphs|
    requires slide.placeholders == phs[i := w.(paragraphs := StyleEach(w.paragraphs[..j], style) + w.paragraphs[j..])]
    modifies slide
    ensures slide.placeholders == phs[i := w.(paragraphs := StyleEach(w.paragraphs[..j + 1], style) + w.paragraphs[j + 1..])]
    ensures slide.pictures == old(slide.pictures)
  {
    ghost var ps := StyleEach(w.paragraphs[..j], style) + w.paragraphs[j..];
    StyleRuns(slide, i, j, style);
    UpdateTwice(phs, i, w.(paragraphs := ps), w.(paragraphs := ps[j := StyleAllRuns(ps[j], style)]));
    assert ps[j] == w.paragraphs[j];
    StyleEachStep(w.paragraphs, j, style);
  }

  /** Styling every run of every paragraph of placeholder `i`, one paragraph at a time. */
  method StyleFrame(slide: Slide, i: nat, style: RunStyle)
    requires i < |slide.placeholders|
    modifies slide
    ensures slide.placeholders == old(slide.placeholders)[i := old(slide.placeholders)[i].(paragraphs := StyleEach(old(slide.placeholders)[i].paragraphs, style))]
    ensures slide.pictures == old(slide.pictures)
  {
    ghost var phs := slide.placeholders;
    ghost var w := phs[i];
    var j := 0;
    assert StyleEach(w.paragraphs[..0], style) + w.paragraphs[0..] == w.paragraphs;
    assert phs[i := w] == phs;
    while j < |slide.placeholders[i].paragraphs|
      invariant i < |slide.placeholders| && |slide.placeholders[i].paragraphs| == |w.paragraphs|
      invariant 0 <= j <= |w.paragraphs|
      invariant slide.placeholders == phs[i := w.(paragraphs := StyleEach(w.paragraphs[..j], style) + w.paragraphs[j..])]
      invariant slide.pictures == old(slide.pictures)
    {
      StyleParagraph(slide, i, phs, w, j, style);
      j := j + 1;
    }
    assert w.paragraphs[..j] == w.paragraphs && w.paragraphs[j..] == [];
    assert StyleEach(w.paragraphs, style) + [] == StyleEach(w.paragraphs, style);
  }

  /** Writing body text into placeholder `i`: the text, then every run of every paragraph styled. */
  method FillBody(slide: Slide, i: nat, s: string, style: Option<RunStyle>)
    requires i < |slide.placeholders|
    modifies slide
    ensures slide.placeholders == old(slide.placeholders)[i := WithBody(old(slide.placeholders)[i], s, style)]
    ensures slide.pictures == old(slide.pictures)
  {
    ghost var phs := slide.placeholders;
    slide.SetText(i, s);
    if style.Some? {
      ghost var w := WithText(phs[i], s);
      StyleFrame(slide, i, style.value);
      UpdateTwice(phs, i, w, w.(paragraphs := StyleEach(w.paragraphs, style.value)));
    }
  }

  /** Writing bullet `b` into paragraph `n` of placeholder `i`: its text, level 0, then its runs styled. */
  method WriteBullet(slide: Slide, i: nat, n: nat, b: string, style: Option<RunStyle>)
    requires i < |slide.placeholders| && n < |slide.placeholders[i].paragraphs|
    modifies slide
    ensures slide.placeholders == WithParagraph(old(slide.placeholders), i, n, BulletParagraph(b, style))
    ensures slide.pictures == old(slide.pictures)
  {
    ghost var phs := slide.placeholders;
    slide.SetParagraphText(i, n, b);
    ghost var q := NewParagraph(b).(level := phs[i].paragraphs[n].level);
    slide.SetParagraphLevel(i, n, 0);
    WithParagraphTwice(phs, i, n, q, q.(level := 0));
    assert q.(level := 0) == NewParagraph(b);
    if style.Some? {
      StyleRuns(slide, i, n, style.value);
      WithParagraphTwice(phs, i, n, NewParagraph(b), StyleAllRuns(NewParagraph(b), style.value));
    }
  }

  /** One turn of the bullet loop: the next bullet's paragraph, in the slot after the written ones. */
  lemma BulletStep(ph: Placeholder, bullets: seq<string>, n: nat, style: Option<RunStyle>)
    requires |ph.paragraphs| > 0 && n < |bullets|
    ensures var ps := WithBullets(ph, bullets[..n], style).paragraphs;
      var slot := if n == 0 then ps else ps + [Paragraph("", 0, [])];
      n < |slot| && WithBullets(ph, bullets[..n + 1], style).paragraphs == slot[n := BulletParagraph(bullets[n], style)]
  {
    var ps := WithBullets(ph, bullets[..n], style).paragraphs;
    var slot := if n == 0 then ps else ps + [Paragraph("", 0, [])];
    var next := WithBullets(ph, bullets[..n + 1], style).paragraphs;
    assert |next| == n + 1;
    forall j | 0 <= j < n + 1 ensures next[j] == slot[n := BulletParagraph(bullets[n], style)][j] {
      if j < n {
        assert bullets[..n + 1][j] == bullets[..n][j];
      }
    }
  }

  /** Where the title goes, found as the source does: the scan, then the lookup of index 0. */
  method FindTitleTarget(slide: Slide) returns (k: Option<nat>)
    ensures k == TitleTarget(slide.placeholders)
  {
    k := slide.FindPlaceholder(IsTitleCandidate);
    if k.None? && |slide.placeholders| > 0 {
      // looking up index 0 raises when no placeholder has it
      k := slide.PlaceholderByIdx(0);
      if k.Some? && !slide.placeholders[k.value].hasTextFrame {
        k := None;
      }
    }
  }

  method FindSubtitleTarget(slide: Slide) returns (k: Option<nat>)
    ensures k == SubtitleTarget(slide.placeholders)
  {
    k := slide.FindPlaceholder(IsSubtitleCandidate);
    if k.None? && |slide.placeholders| > 1 {
      k := slide.PlaceholderByIdx(1);
      if k.Some? && !slide.placeholders[k.value].hasTextFrame {
        k := None;
      }
    }
  }

  /** Filling the title: the method form of `TitleFill`. */
  method FillTitle(slide: Slide, title: string, theme: Option<ScrapedTheme>) returns (ok: bool)
    modifies slide
    ensures ok <==> TitleFill(old(slide.placeholders), title, theme).Some?
    ensures slide.placeholders == TitleFill(old(slide.placeholders), title, theme).GetOr(old(slide.placeholders))
    ensures slide.pictures == old(slide.pictures)
  {
    var k := FindTitleTarget(slide);
    if k.None? {
      return false;
    }
    FillHeading(slide, k.value, title, TitleStyle(theme));
    return true;
  }

  /** Filling the subtitle: the method form of `SubtitleFill`. */
  method FillSubtitle(slide: Slide, subtitle: string, theme: Option<ScrapedTheme>) returns (ok: bool)
    modifies slide
    ensures ok <==> SubtitleFill(old(slide.placeholders), subtitle, theme).Some?
    ensures slide.placeholders == SubtitleFill(old(slide.placeholders), subtitle, theme).GetOr(old(slide.placeholders))
    ensures slide.pictures == old(slide.pictures)
  {
    var k := FindSubtitleTarget(slide);
    if k.None? {
      return false;
    }
    FillHeading(slide, k.value, subtitle, SubtitleStyle(theme));
    return true;
  }

  /** Filling body text: the method form of `TextFill`. */
  method FillText(slide: Slide, text: string, theme: Option<ScrapedTheme>) returns (ok: bool)
    modifies slide
    ensures ok <==> TextFill(old(slide.placeholders), text, theme).Some?
    ensures slide.placeholders == TextFill(old(slide.placeholders), text, theme).GetOr(old(slide.placeholders))
    ensures slide.pictures == old(slide.pictures)
  {
    var k := slide.FindPlaceholder(IsContentCandidate);
    if k.None? {
      return false;
    }
    FillBody(slide, k.value, text, BodyStyle(theme));
    return true;
  }

  /** Bullet `n`: a new paragraph after the first, then its text and style. */
  method AddBullet(slide: Slide, i: nat, ghost phs: seq<Placeholder>, ghost ph: Placeholder, bullets: seq<string>, n: nat, style: Option<RunStyle>)
    requires i < |phs| && |ph.paragraphs| > 0 && n < |bullets|
    requires slide.placeholders == phs[i := WithBullets(ph, bullets[..n], style)]
    modifies slide
    ensures slide.placeholders == phs[i := WithBullets(ph, bullets[..n + 1], style)]
    ensures slide.pictures == old(slide.pictures)
  {
    ghost var ps := WithBullets(ph, bullets[..n], style).paragraphs;
    ghost var slot := if n == 0 then ps else ps + [Paragraph("", 0, [])];
    BulletStep(ph, bullets, n, style);
    if n > 0 {
      slide.AddParagraph(i);
      UpdateTwice(phs, i, ph.(paragraphs := ps), ph.(paragraphs := slot));
    }
    assert slide.placeholders == phs[i := ph.(paragraphs := slot)];
    WriteBullet(slide, i, n, bullets[n], style);
    UpdateTwice(phs, i, ph.(paragraphs := slot), ph.(paragraphs := slot[n := BulletParagraph(bullets[n], style)]));
  }

  /** Writing the bullets, one paragraph each: the method form of `BulletsFill`. */
  method FillBullets(slide: Slide, bullets: seq<string>, theme: Option<ScrapedTheme>) returns (ok: bool)
    modifies slide
    ensures ok <==> BulletsFill(old(slide.placeholders), bullets, theme).Some?
    ensures slide.placeholders == BulletsFill(old(slide.placeholders), bullets, theme).GetOr(old(slide.placeholders))
    ensures slide.pictures == old(slide.pictures)
  {
    var k := slide.FindPlaceholder(IsContentCandidate);
    if k.None? {
      return false;
    }
    var i := k.value;
    if |slide.placeholders[i].paragraphs| == 0 {
      // clearing the frame reads its first paragraph, which raises
      return false;
    }
    ghost var phs := slide.placeholders;
    ghost var ph := phs[i];
    slide.ClearFrame(i);
    var style := BodyStyle(theme);
    assert bullets[..0] == [];
    assert WithBullets(ph, [], style) == ph.(paragraphs := [Paragraph("", ph.paragraphs[0].level, [])]);
    var n := 0;
    while n < |bullets|
      invariant 0 <= n <= |bullets| && i < |slide.placeholders|
      invariant slide.placeholders == phs[i := WithBullets(ph, bullets[..n], style)]
      invariant slide.pictures == old(slide.pictures)
    {
      AddBullet(slide, i, phs, ph, bullets, n, style);
      n := n + 1;
    }
    assert bullets[..n] == bullets;
    return true;
  }

  /** Writing stand-in text into the content placeholder: the method form of `PlainFill`. */
  method FillPlain(slide: Slide, s: string) returns (ok: bool)
    modifies slide
    ensures ok <==> PlainFill(old(slide.placeholders), s).Some?
    ensures slide.placeholders == PlainFill(old(slide.placeholders), s).GetOr(old(slide.placeholders))
    ensures slide.pictures == old(slide.pictures)
  {
    var k := slide.FindPlaceholder(IsContentCandidate);
    if k.None? {
      return false;
    }
    slide.SetText(k.value, s);
    return true;
  }

  /** Filling one content element: the method form of `ContentFill`. */
  method FillContent(slide: Slide, c: SlideContent, theme: Option<ScrapedTheme>) returns (warnings: seq<string>)
    modifies slide
    ensures slide.placeholders == ContentFill(old(slide.placeholders), c, theme).0
    ensures warnings == ContentFill(old(slide.placeholders), c, theme).1
    ensures slide.pictures == old(slide.pictures)
  {
    warnings := [];
    var ok := true;
    match c.contentType {
      case Text =>
        ok := FillText(slide, c.text.GetOr(""), theme);
        if !ok { warnings := ["Could not add text content"]; }
      case Bullets =>
        ok := FillBullets(slide, c.bullets.GetOr([]), theme);
        if !ok { warnings := ["Could not add bullet points"]; }
      case Image =>
        if c.image.Some? {
          ok := FillPlain(slide, ImageText(c.image.value));
          if !ok { warnings := ["Could not add image: " + c.image.value.url]; }
        }
      case Table =>
        if c.table.Some? {
          ok := FillPlain(slide, TableText(c.table.value));
          if !ok { warnings := ["Could not add table"]; }
        }
      case Chart =>
        if c.chart.Some? {
          ok := FillPlain(slide, ChartText(c.chart.value));
          if !ok { warnings := ["Could not add chart"]; }
        }
    }
  }

  /** The title, then the subtitle, each when present and non-empty. */
  method FillHeadings(slide: Slide, spec: SlideSpec, theme: Option<ScrapedTheme>) returns (warnings: seq<string>)
    modifies slide
    ensures slide.placeholders == SubtitleStep(TitleStep(old(slide.placeholders), spec, theme).0, spec, theme).0
    ensures warnings == TitleStep(old(slide.placeholders), spec, theme).1 + SubtitleStep(TitleStep(old(slide.placeholders), spec, theme).0, spec, theme).1
    ensures slide.pictures == old(slide.pictures)
  {
    warnings := [];
    if Truthy(spec.title) {
      var ok := FillTitle(slide, spec.title.value, theme);
      if !ok { warnings := ["Could not set title: " + spec.title.value]; }
    }
    ghost var afterTitle := slide.placeholders;
    ghost var titleWarnings := warnings;
    if Truthy(spec.subtitle) {
      var ok := FillSubtitle(slide, spec.subtitle.value, theme);
      if !ok { warnings := warnings + ["Could not set subtitle: " + spec.subtitle.value]; }
    }
    assert warnings == titleWarnings + SubtitleStep(afterTitle, spec, theme).1;
  }

  /** The content elements, in order. */
  method FillContents(slide: Slide, cs: seq<SlideContent>, theme: Option<ScrapedTheme>) returns (warnings: seq<string>)
    modifies slide
    ensures slide.placeholders == ContentsFill(old(slide.placeholders), cs, theme).0
    ensures warnings == ContentsFill(old(slide.placeholders), cs, theme).1
    ensures slide.pictures == old(slide.pictures)
  {
    ghost var phs := slide.placeholders;
    warnings := [];
    var k := 0;
    while k < |cs|
      invariant 0 <= k <= |cs|
      invariant slide.placeholders == ContentsFill(phs, cs[..k], theme).0
      invariant warnings == ContentsFill(phs, cs[..k], theme).1
      invariant slide.pictures == old(slide.pictures)
    {
      assert cs[..k + 1][..k] == cs[..k];
      var more := FillContent(slide, cs[k], theme);
      warnings := warnings + more;
      k := k + 1;
    }
    assert cs[..k] == cs;
  }

  /**
    Filling a slide: title, subtitle, each content element in order, then the logo at
    the top right when the theme has one; the method form of `SlideFill`, plus the logo.
  */
  method FillSlide(slide: Slide, spec: SlideSpec, theme: Option<ScrapedTheme>, host: Host) returns (warnings: seq<string>)
    modifies slide
    ensures slide.placeholders == SlideFill(old(slide.placeholders), spec, theme).0
    ensures warnings == SlideFill(old(slide.placeholders), spec, theme).1 + LogoWarnings(theme, host)
    ensures LogoAdded(theme, host) ==> slide.pictures == old(slide.pictures) + [LogoPicture(theme.value)]
    ensures !LogoAdded(theme, host) ==> slide.pictures == old(slide.pictures)
  {
    var headingWarnings := FillHeadings(slide, spec, theme);
    var contentWarnings := FillContents(slide, spec.content, theme);
    warnings := headingWarnings + contentWarnings;
    if theme.Some? && theme.value.logo.Some? {
      var added := ApplyLogoToSlide(slide, theme.value, "top-right", host);
      if !added { warnings := warnings + ["Could not add logo to slide"]; }
    }
  }
}
