/**
  The presentation renderer: listing the templates in the themes directory,
  naming the output file, and generating a presentation from a deck, slide by
  slide, with the layout retry, the per-slide failure message and the result
  envelope. The file system and the library's exception messages are parameters.
*/
module Renderer {
  import opened Wrappers
  import opened Text
  import opened ThemeModel
  import opened DeckModel
  import opened Host
  import opened Pptx
  import opened Layouts
  import opened ThemeApplicator
  import opened ContentFillers
  import opened Validator

  // ---------------------------------------------------------------- templates

  const ThemesDir := "themes"
  const PotxExt := ".potx"
  const DefaultStem := "default"

  /** What the listing says about one template. */
  datatype TemplateInfo = TemplateInfo(name: string, path: string, layouts: seq<string>, description: string)

  /** The values of every layout type, in declaration order. */
  function LayoutValues(): (r: seq<string>)
    ensures |r| == |AllLayoutTypes()|
    ensures forall t: LayoutType :: LayoutValue(t) in r
  {
    var all := AllLayoutTypes();
    var r := seq(|all|, i requires 0 <= i < |all| => LayoutValue(all[i]));
    forall t: LayoutType ensures LayoutValue(t) in r {
      AllLayoutTypesComplete(t);
      var i :| 0 <= i < |all| && all[i] == t;
      assert r[i] == LayoutValue(t);
    }
    r
  }

  /** The built-in entry, listed first. */
  function DefaultTemplate(): TemplateInfo {
    TemplateInfo(DefaultStem, ThemesDir + "/" + DefaultStem + PotxExt, LayoutValues(), "Built-in default template")
  }

  /** `Path(name).stem`: the name without its suffix. */
  function Stem(name: string): string {
    name[..|name| - |Suffix(name)|]
  }

  /** A directory entry that `glob("*.potx")` yields and that is not the default template. */
  predicate IsCustomTemplate(name: string) {
    EndsWith(name, PotxExt) && name != DefaultStem + PotxExt
  }

  function CustomTemplate(name: string): TemplateInfo {
    TemplateInfo(Stem(name), ThemesDir + "/" + name, LayoutValues(), "Custom template: " + Stem(name))
  }

  /** A name ending in ".potx" after at least one character has that suffix and the rest as stem. */
  lemma PotxStem(name: string)
    requires EndsWith(name, PotxExt) && |name| > 5
    ensures Suffix(name) == PotxExt && name == Stem(name) + PotxExt
  {
    var n := |name|;
    assert name[n - 5..] == PotxExt;
    forall j | n - 5 < j < n ensures name[j] != '.' {
      assert name[j] == PotxExt[j - (n - 5)];
    }
    SuffixAt(name, 5);
    assert name == name[..n - 5] + name[n - 5..];
  }

  /** The only ".potx" file whose stem is "default" is the default template itself. */
  lemma StemNotDefault(name: string)
    requires IsCustomTemplate(name)
    ensures Stem(name) != DefaultStem
  {
    if |name| > 5 {
      PotxStem(name);
    } else {
      assert name == PotxExt;
      RFindIs(name, '.', 0);
      assert Suffix(name) == "";
    }
  }

  /** The custom entries for the listed names, in listing order. */
  function CustomTemplates(entries: seq<string>): (r: seq<TemplateInfo>)
    ensures |r| <= |entries|
    ensures forall k :: 0 <= k < |r| ==> r[k].name != DefaultStem && r[k].layouts == LayoutValues()
    decreases |entries|
  {
    if |entries| == 0 then []
    else
      var init := entries[..|entries| - 1];
      var e := entries[|entries| - 1];
      var prev := CustomTemplates(init);
      assert entries == init + [e];
      if IsCustomTemplate(e) then
        StemNotDefault(e);
        prev + [CustomTemplate(e)]
      else prev
  }

  lemma CustomTemplatesSnoc(entries: seq<string>, i: nat)
    requires i < |entries|
    ensures CustomTemplates(entries[..i + 1]) == CustomTemplates(entries[..i]) + (if IsCustomTemplate(entries[i]) then [CustomTemplate(entries[i])] else [])
  {
    assert entries[..i + 1][..i] == entries[..i];
  }

  /** The custom entries are exactly those of the names `glob` yields other than "default.potx". */
  lemma {:induction false} CustomTemplatesExact(entries: seq<string>)
    ensures forall t :: t in CustomTemplates(entries) ==> exists e :: e in entries && IsCustomTemplate(e) && t == CustomTemplate(e)
    ensures forall e :: e in entries && IsCustomTemplate(e) ==> CustomTemplate(e) in CustomTemplates(entries)
    decreases |entries|
  {
    if |entries| > 0 {
      var init := entries[..|entries| - 1];
      var last := entries[|entries| - 1];
      CustomTemplatesExact(init);
      assert entries == init + [last];
      assert CustomTemplates(entries) == CustomTemplates(init) + (if IsCustomTemplate(last) then [CustomTemplate(last)] else []);
    }
  }

  /** A custom template listed from a name longer than ".potx" passes the validator's template-suffix test. */
  lemma CustomTemplatePathAccepted(name: string)
    requires IsCustomTemplate(name) && |name| > 5 && '/' !in name
    ensures CustomTemplate(name).name + PotxExt == name
    ensures IsTemplateSuffix(CustomTemplate(name).path)
  {
    PotxStem(name);
    var stem := Stem(name);
    assert '/' !in stem by {
      forall j | 0 <= j < |stem| ensures stem[j] != '/' {
        assert stem[j] == name[j];
      }
    }
    TemplateNameAccepted(ThemesDir, stem, PotxExt);
    AppendAssoc(ThemesDir + "/", stem, PotxExt);
  }

  /**
    `list_templates`: the built-in entry, then one entry per ".potx" file in the
    themes directory other than "default.potx", in the order the directory lists them.
  */
  method ListTemplates(host: Host, entries: seq<string>) returns (templates: seq<TemplateInfo>)
    ensures templates == [DefaultTemplate()] + (if Exists(host, ThemesDir) then CustomTemplates(entries) else [])
  {
    templates := [DefaultTemplate()];
    if Exists(host, ThemesDir) {
      var i := 0;
      while i < |entries|
        invariant 0 <= i <= |entries|
        invariant templates == [DefaultTemplate()] + CustomTemplates(entries[..i])
      {
        CustomTemplatesSnoc(entries, i);
        if IsCustomTemplate(entries[i]) {
          templates := templates + [CustomTemplate(entries[i])];
        }
        i := i + 1;
      }
      assert entries[..i] == entries;
    }
  }

  // ---------------------------------------------------------------- output path

  /** The characters a generated file name keeps from the deck title. */
  predicate KeptInSlug(c: char) {
    IsAlnum(c) || c == ' ' || c == '-' || c == '_'
  }

  /** The characters a slug is made of. */
  predicate IsSlugChar(c: char) {
    ('a' <= c <= 'z') || IsDigit(c) || c == '-' || c == '_'
  }

  /**
    The title part of a generated file name: the kept characters, without trailing
    whitespace, spaces turned into underscores, in lower case.
  */
  function Slug(title: string): (r: string)
    ensures |r| <= |title|
    ensures forall i :: 0 <= i < |r| ==> IsSlugChar(r[i])
  {
    var kept := Filter(title, KeptInSlug);
    var trimmed := RStripWhere(kept, IsSpace);
    var joined := ReplaceChar(trimmed, ' ', '_');
    assert forall i :: 0 <= i < |joined| ==> KeptInSlug(joined[i]) && joined[i] != ' ';
    Lower(joined)
  }

  lemma SlugCharFixed(c: char)
    requires IsSlugChar(c)
    ensures KeptInSlug(c) && !IsSpace(c) && ToLower(c) == c
  {
  }

  /** Text made of slug characters is its own slug. */
  lemma SlugOfSlugChars(s: string)
    requires forall i :: 0 <= i < |s| ==> IsSlugChar(s[i])
    ensures Slug(s) == s
  {
    forall i | 0 <= i < |s| ensures KeptInSlug(s[i]) && ToLower(s[i]) == s[i] {
      SlugCharFixed(s[i]);
    }
    FilterKeepsAll(s, KeptInSlug);
    if |s| > 0 {
      SlugCharFixed(s[|s| - 1]);
    }
    assert RStripWhere(s, IsSpace) == s;
    ReplaceAbsent(s, ' ', '_');
    assert Lower(s) == s;
  }

  /** Making a slug twice changes nothing. */
  lemma SlugIdempotent(title: string)
    ensures Slug(Slug(title)) == Slug(title)
  {
    SlugOfSlugChars(Slug(title));
  }

  /** `Path(directory) / name`: an absolute name replaces the directory; an empty or "." directory adds nothing. */
  function JoinPath(directory: string, name: string): (r: string)
    ensures EndsWith(r, name)
    ensures |name| > 0 && name[0] == '/' ==> r == name
  {
    if |name| > 0 && name[0] == '/' then name
    else if directory == "" || directory == "." then name
    else
      var head := RStripWhere(directory, IsSlash) + "/";
      assert (head + name)[|head|..] == name;
      head + name
  }

  /** `Path(p).parent`. */
  function ParentDir(path: string): string {
    var p := RStripWhere(path, IsSlash);
    match RFind(p, '/')
    case None => "."
    case Some(i) => if i == 0 then "/" else p[..i]
  }

  /** The name generated from the title, the timestamp and the format. */
  function GeneratedName(title: string, timestamp: string, format: string): string {
    Slug(title) + "_" + timestamp + "." + format
  }

  /** A generated name ends with "_", the timestamp, "." and the format. */
  lemma {:induction false} GeneratedNameEnds(title: string, timestamp: string, format: string)
    ensures EndsWith(GeneratedName(title, timestamp, format), "_" + timestamp + "." + format)
    ensures EndsWith(GeneratedName(title, timestamp, format), "." + format)
  {
    NameEnds(Slug(title), timestamp, format);
  }

  lemma {:induction false} NameEnds(slug: string, timestamp: string, format: string)
    ensures EndsWith(slug + "_" + timestamp + "." + format, "_" + timestamp + "." + format)
    ensures EndsWith(slug + "_" + timestamp + "." + format, "." + format)
  {
    var tail := "_" + timestamp + "." + format;
    var name := slug + "_" + timestamp + "." + format;
    assert name == slug + tail;
    assert name[|slug|..] == tail;
    assert tail[|tail| - |"." + format|..] == "." + format;
    EndsWithTrans(name, tail, "." + format);
  }

  /** A suffix of a suffix is a suffix. */
  lemma EndsWithTrans(s: string, t: string, u: string)
    requires EndsWith(s, t) && EndsWith(t, u)
    ensures EndsWith(s, u)
  {
    assert s[|s| - |u|..] == t[|t| - |u|..];
  }

  /** `_generate_output_path`: the given file name if it is non-empty, else a generated one, under the directory. */
  function OutputPath(output: OutputSpec, title: string, timestamp: string): (r: string)
    ensures Truthy(output.filename) ==> EndsWith(r, output.filename.value)
    ensures !Truthy(output.filename) ==> EndsWith(r, "." + output.format) && EndsWith(r, "_" + timestamp + "." + output.format)
  {
    var name := if Truthy(output.filename) then output.filename.value else GeneratedName(title, timestamp, output.format);
    var r := JoinPath(output.directory, name);
    if Truthy(output.filename) then r
    else
      GeneratedNameEnds(title, timestamp, output.format);
      EndsWithTrans(r, name, "_" + timestamp + "." + output.format);
      EndsWithTrans(r, name, "." + output.format);
      r
  }

  lemma SlugCharValid(c: char)
    requires IsSlugChar(c)
    ensures c !in InvalidFilenameChars
  {
  }

  /**
    A generated name draws no warning from the validator's file-name check,
    provided the timestamp and the format hold no forbidden character.
  */
  lemma {:induction false} GeneratedNameQuiet(title: string, timestamp: string, format: string)
    requires !HasInvalidChar(timestamp) && !HasInvalidChar(format)
    ensures FilenameWarnings(GeneratedName(title, timestamp, format), format) == []
  {
    var slug := Slug(title);
    var head := slug + "_" + timestamp;
    var name := GeneratedName(title, timestamp, format);
    AppendAssoc(head, ".", format);
    assert name == head + ("." + format);
    assert name[|name| - |"." + format|..] == "." + format;
    forall i | 0 <= i < |slug| ensures slug[i] !in InvalidFilenameChars {
      SlugCharValid(slug[i]);
    }
    assert !HasInvalidChar("_") && !HasInvalidChar(".");
    InvalidFreeConcat(slug, "_");
    InvalidFreeConcat(slug + "_", timestamp);
    InvalidFreeConcat(head, ".");
    InvalidFreeConcat(head + ".", format);
  }

  /** A plain name under a directory: the output file's name is that name, its parent the directory without trailing slashes. */
  lemma {:induction false} OutputPathParts(directory: string, name: string)
    requires '/' !in name && name != ""
    requires directory != "." && RStripWhere(directory, IsSlash) != ""
    ensures BaseName(JoinPath(directory, name)) == name
    ensures ParentDir(JoinPath(directory, name)) == RStripWhere(directory, IsSlash)
  {
    var d := RStripWhere(directory, IsSlash);
    var path := d + "/" + name;
    assert name[0] != '/';
    assert JoinPath(directory, name) == path;
    BaseNameOfJoin(d, name);
    assert path[|path| - 1] == name[|name| - 1];
    assert RStripWhere(path, IsSlash) == path;
    forall j | |d| < j < |path| ensures path[j] != '/' {
      assert path[j] == name[j - |d| - 1];
    }
    RFindIs(path, '/', |d|);
    assert d[|d| - 1] != '/';
    assert |d| != 0;
    assert path[..|d|] == d;
  }

  // ---------------------------------------------------------------- slides

  /** How an f-string shows a layout type. */
  function LayoutText(t: LayoutType): string {
    "LayoutType." + LayoutValue(t)
  }

  function LayoutNotFound(t: LayoutType): string {
    "Layout " + LayoutText(t) + " not found, using TITLE_CONTENT"
  }

  function FailedSlide(n: nat, reason: string): string {
    "Failed to generate slide " + NatToString(n) + ": " + reason
  }

  function TemplateNotFound(path: string): string {
    "Template " + path + " not found, using default"
  }

  /** The pictures a filled slide carries: the logo, when it could be placed. */
  function LogoPictures(theme: Option<ScrapedTheme>, host: Host): seq<Picture> {
    if LogoAdded(theme, host) then [LogoPicture(theme.value)] else []
  }

  /**
    The slide the chosen layout gives for `spec`, once filled: its placeholders and the
    warnings of the fill, the logo's last.
  */
  function FilledSlide(layouts: seq<Layout>, spec: SlideSpec, theme: Option<ScrapedTheme>, host: Host): (seq<Placeholder>, seq<string>)
    requires |layouts| > 0
  {
    var fill := SlideFill(layouts[GetLayout(layouts, spec.layout).value].slidePlaceholders, spec, theme);
    (fill.0, fill.1 + LogoWarnings(theme, host))
  }

  /**
    One pass of the slide loop: whether the slide was generated, and the warnings it
    adds. A layout resolves whenever the template has one, so the retry with
    TITLE_CONTENT only happens on a template without layouts, where it resolves to
    nothing too and adding the slide raises. `generated` counts the slides generated
    before; `reason` is the message of that exception.
  */
  function SlideOutcome(layouts: seq<Layout>, spec: SlideSpec, theme: Option<ScrapedTheme>, host: Host, generated: nat, reason: string): (bool, seq<string>) {
    if |layouts| == 0 then (false, [LayoutNotFound(spec.layout), FailedSlide(generated + 1, reason)])
    else (true, FilledSlide(layouts, spec, theme, host).1)
  }

  /** The slide loop over `specs`: how many slides it generates and the warnings it gathers, in order. */
  function SlidesOutcome(layouts: seq<Layout>, specs: seq<SlideSpec>, theme: Option<ScrapedTheme>, host: Host, reason: string): (r: (nat, seq<string>))
    ensures r.0 == if |layouts| > 0 then |specs| else 0
    decreases |specs|
  {
    if |specs| == 0 then (0, [])
    else
      var prev := SlidesOutcome(layouts, specs[..|specs| - 1], theme, host, reason);
      var step := SlideOutcome(layouts, specs[|specs| - 1], theme, host, prev.0, reason);
      (prev.0 + (if step.0 then 1 else 0), prev.1 + step.1)
  }

  lemma SlidesOutcomeSnoc(layouts: seq<Layout>, specs: seq<SlideSpec>, theme: Option<ScrapedTheme>, host: Host, reason: string, i: nat)
    requires i < |specs|
    ensures var prev := SlidesOutcome(layouts, specs[..i], theme, host, reason);
      var step := SlideOutcome(layouts, specs[i], theme, host, prev.0, reason);
      SlidesOutcome(layouts, specs[..i + 1], theme, host, reason).0 == prev.0 + (if step.0 then 1 else 0) &&
      SlidesOutcome(layouts, specs[..i + 1], theme, host, reason).1 == prev.1 + step.1
  {
    assert specs[..i + 1][..i] == specs[..i];
  }

  /**
    A template without layouts fails every slide, and as nothing is ever generated
    every failure message numbers the slide 1.
  */
  lemma {:induction false} NoLayoutsFailEverySlide(specs: seq<SlideSpec>, theme: Option<ScrapedTheme>, host: Host, reason: string)
    ensures var r := SlidesOutcome([], specs, theme, host, reason);
      |r.1| == 2 * |specs| &&
      forall i :: 0 <= i < |specs| ==> r.1[2 * i] == LayoutNotFound(specs[i].layout) && r.1[2 * i + 1] == FailedSlide(1, reason)
    decreases |specs|
  {
    if |specs| > 0 {
      var init := specs[..|specs| - 1];
      NoLayoutsFailEverySlide(init, theme, host, reason);
      var prev := SlidesOutcome([], init, theme, host, reason);
      var r := SlidesOutcome([], specs, theme, host, reason);
      assert r.1 == prev.1 + [LayoutNotFound(specs[|specs| - 1].layout), FailedSlide(1, reason)];
      forall i | 0 <= i < |specs| - 1
        ensures r.1[2 * i] == LayoutNotFound(specs[i].layout) && r.1[2 * i + 1] == FailedSlide(1, reason)
      {
        assert specs[i] == init[i];
      }
    }
  }

  /** One pass of the slide loop: pick the layout (retrying with TITLE_CONTENT), add the slide, fill it. */
  method RenderSlide(prs: Presentation, spec: SlideSpec, theme: Option<ScrapedTheme>, host: Host, generated: nat, reason: string,
                     ghost start: nat, ghost expected: seq<seq<Placeholder>>)
    returns (ok: bool, warnings: seq<string>, slide: Slide?)
    requires SlidesHold(prs, start, expected, theme, host)
    modifies prs
    ensures ok == SlideOutcome(prs.layouts, spec, theme, host, generated, reason).0
    ensures warnings == SlideOutcome(prs.layouts, spec, theme, host, generated, reason).1
    ensures !ok ==> prs.slides == old(prs.slides)
    ensures ok ==> slide != null && fresh(slide) && prs.slides == old(prs.slides) + [slide]
    ensures ok ==> slide.placeholders == FilledSlide(prs.layouts, spec, theme, host).0 && slide.pictures == LogoPictures(theme, host)
    ensures SlidesHold(prs, start, if ok then expected + [FilledSlide(prs.layouts, spec, theme, host).0] else expected, theme, host)
  {
    var k := GetLayout(prs.layouts, spec.layout);
    warnings := [];
    if k.None? {
      k := GetLayout(prs.layouts, TITLE_CONTENT);
      warnings := [LayoutNotFound(spec.layout)];
    }
    if k.None? {
      ok, slide := false, null;
      warnings := warnings + [FailedSlide(generated + 1, reason)];
      return;
    }
    assert |prs.layouts| > 0 && k == GetLayout(prs.layouts, spec.layout) && warnings == [];
    ghost var before := prs.slides;
    slide := prs.AddSlide(k.value);
    var filled := FillSlide(slide, spec, theme, host);
    HoldExtends(prs, start, expected, before, slide, theme, host);
    ok := true;
    warnings := filled;
  }

  /** The placeholders of the filled slides for `specs`, in order, on a template with layouts. */
  function FilledAll(layouts: seq<Layout>, specs: seq<SlideSpec>, theme: Option<ScrapedTheme>, host: Host): (r: seq<seq<Placeholder>>)
    requires |layouts| > 0
    ensures |r| == |specs|
    decreases |specs|
  {
    if |specs| == 0 then []
    else FilledAll(layouts, specs[..|specs| - 1], theme, host) + [FilledSlide(layouts, specs[|specs| - 1], theme, host).0]
  }

  /** Slide `j` of the list is the filled slide of `specs[j]`. */
  lemma {:induction false} FilledAllAt(layouts: seq<Layout>, specs: seq<SlideSpec>, theme: Option<ScrapedTheme>, host: Host, j: nat)
    requires |layouts| > 0 && j < |specs|
    ensures FilledAll(layouts, specs, theme, host)[j] == FilledSlide(layouts, specs[j], theme, host).0
    decreases |specs|
  {
    var init := specs[..|specs| - 1];
    var last := FilledSlide(layouts, specs[|specs| - 1], theme, host).0;
    assert FilledAll(layouts, specs, theme, host) == FilledAll(layouts, init, theme, host) + [last];
    if j < |specs| - 1 {
      FilledAllAt(layouts, init, theme, host, j);
      assert init[j] == specs[j];
    }
  }

  /** The slides from `start` on carry the placeholders `expected` and the logo pictures. */
  ghost predicate SlidesHold(prs: Presentation, start: nat, expected: seq<seq<Placeholder>>, theme: Option<ScrapedTheme>, host: Host)
    reads prs, prs.slides
  {
    && |prs.slides| == start + |expected|
    && forall j :: start <= j < |prs.slides| ==>
        prs.slides[j].placeholders == expected[j - start] && prs.slides[j].pictures == LogoPictures(theme, host)
  }

  /** What the slide loop has produced after `i` specifications. */
  function Produced(layouts: seq<Layout>, specs: seq<SlideSpec>, theme: Option<ScrapedTheme>, host: Host): seq<seq<Placeholder>> {
    if |layouts| > 0 then FilledAll(layouts, specs, theme, host) else []
  }

  lemma ProducedSnoc(layouts: seq<Layout>, specs: seq<SlideSpec>, theme: Option<ScrapedTheme>, host: Host, i: nat)
    requires i < |specs| && |layouts| > 0
    ensures Produced(layouts, specs[..i + 1], theme, host) == Produced(layouts, specs[..i], theme, host) + [FilledSlide(layouts, specs[i], theme, host).0]
  {
    assert specs[..i + 1][..i] == specs[..i];
  }

  /** Appending a fresh slide keeps the slides before it as they were. */
  lemma HoldExtends(prs: Presentation, start: nat, expected: seq<seq<Placeholder>>, before: seq<Slide>, slide: Slide, theme: Option<ScrapedTheme>, host: Host)
    requires |before| == start + |expected|
    requires forall j :: start <= j < |before| ==>
      before[j].placeholders == expected[j - start] && before[j].pictures == LogoPictures(theme, host)
    requires prs.slides == before + [slide]
    requires slide.pictures == LogoPictures(theme, host)
    ensures SlidesHold(prs, start, expected + [slide.placeholders], theme, host)
  {
    assert forall j :: start <= j < |before| ==> prs.slides[j] == before[j];
  }

  /** One iteration of the slide loop, with the loop's invariant as its contract. */
  method RenderNext(prs: Presentation, start: nat, specs: seq<SlideSpec>, i: nat, theme: Option<ScrapedTheme>, host: Host, reason: string,
                    generated: nat, warnings: seq<string>)
    returns (generated': nat, warnings': seq<string>)
    requires i < |specs| && start <= |prs.slides|
    requires generated == SlidesOutcome(prs.layouts, specs[..i], theme, host, reason).0
    requires warnings == SlidesOutcome(prs.layouts, specs[..i], theme, host, reason).1
    requires SlidesHold(prs, start, Produced(prs.layouts, specs[..i], theme, host), theme, host)
    modifies prs
    ensures generated' == SlidesOutcome(prs.layouts, specs[..i + 1], theme, host, reason).0
    ensures warnings' == SlidesOutcome(prs.layouts, specs[..i + 1], theme, host, reason).1
    ensures SlidesHold(prs, start, Produced(prs.layouts, specs[..i + 1], theme, host), theme, host)
    ensures prs.slides[..start] == old(prs.slides)[..start]
  {
    SlidesOutcomeSnoc(prs.layouts, specs, theme, host, reason, i);
    ghost var before := prs.slides;
    ghost var expected := Produced(prs.layouts, specs[..i], theme, host);
    var ok, w, slide := RenderSlide(prs, specs[i], theme, host, generated, reason, start, expected);
    generated', warnings' := generated, warnings + w;
    if ok {
      ProducedSnoc(prs.layouts, specs, theme, host, i);
      generated' := generated + 1;
    } else {
      assert |prs.layouts| == 0 && prs.slides == before;
    }
  }

  /** The slide loop of `generate_presentation`. */
  method RenderSlides(prs: Presentation, specs: seq<SlideSpec>, theme: Option<ScrapedTheme>, host: Host, reason: string)
    returns (generated: nat, warnings: seq<string>)
    modifies prs
    ensures generated == SlidesOutcome(prs.layouts, specs, theme, host, reason).0
    ensures warnings == SlidesOutcome(prs.layouts, specs, theme, host, reason).1
    ensures generated == if |prs.layouts| > 0 then |specs| else 0
    ensures SlidesHold(prs, |old(prs.slides)|, Produced(prs.layouts, specs, theme, host), theme, host)
    ensures prs.slides[..|old(prs.slides)|] == old(prs.slides)
  {
    var start := |prs.slides|;
    generated, warnings := 0, [];
    var i := 0;
    while i < |specs|
      invariant 0 <= i <= |specs| && start <= |prs.slides|
      invariant generated == SlidesOutcome(prs.layouts, specs[..i], theme, host, reason).0
      invariant warnings == SlidesOutcome(prs.layouts, specs[..i], theme, host, reason).1
      invariant prs.slides[..start] == old(prs.slides)
      invariant SlidesHold(prs, start, Produced(prs.layouts, specs[..i], theme, host), theme, host)
    {
      generated, warnings := RenderNext(prs, start, specs, i, theme, host, reason, generated, warnings);
      i := i + 1;
    }
    assert specs[..i] == specs;
  }

  // ---------------------------------------------------------------- generation

  /** The messages of the library exceptions that end a generation or a slide. */
  datatype LibraryErrors = LibraryErrors(load: string, addSlide: string, mkdir: string)

  /** The dictionary `generate_presentation` returns. */
  datatype RenderResult = RenderResult(
    ok: bool, output: Option<string>, slidesGenerated: nat, warnings: seq<string>,
    assetsDownloaded: seq<string>, error: Option<string>)

  /** The failure envelope: no output, nothing generated, the warnings gathered so far. */
  function Failure(reason: string, warnings: seq<string>): RenderResult {
    RenderResult(false, None, 0, warnings, [], Some(reason))
  }

  /**
    `mkdir(parents=True, exist_ok=True)` raises: the path is an existing file
    (`exist_ok` only excuses a directory), or a missing directory that cannot be created.
  */
  predicate MkdirFails(host: Host, dir: string) {
    dir !in host.dirs && (dir in host.files || dir in host.uncreatableDirs)
  }

  /** The template is named and exists, so it is opened instead of the default. */
  predicate UsesTemplate(deck: DeckSpec, host: Host) {
    Truthy(deck.theme.template) && Exists(host, deck.theme.template.value)
  }

  /** The layouts of the presentation a deck is rendered into. */
  function DeckLayouts(deck: DeckSpec, host: Host, templateLayouts: seq<Layout>, defaultLayouts: seq<Layout>): seq<Layout> {
    if UsesTemplate(deck, host) then templateLayouts else defaultLayouts
  }

  /**
    `generate_presentation`: `templateLayouts` are the layouts of the named template,
    `defaultLayouts` those of the library's default presentation, `timestamp` the
    formatted current time.
  */
  function Render(deck: DeckSpec, host: Host, templateLayouts: seq<Layout>, defaultLayouts: seq<Layout>, timestamp: string, errors: LibraryErrors): (r: RenderResult)
    ensures !r.ok ==> r.output.None? && r.slidesGenerated == 0 && r.error.Some?
    ensures r.ok ==> r.error.None? && r.output == Some(OutputPath(deck.output, deck.title, timestamp))
    ensures r.ok ==> r.slidesGenerated == if |DeckLayouts(deck, host, templateLayouts, defaultLayouts)| > 0 then |deck.slides| else 0
    ensures r.assetsDownloaded == []
  {
    if UsesTemplate(deck, host) && !Opens(host, deck.theme.template.value) then Failure(errors.load, [])
    else RenderOpened(deck, host, DeckLayouts(deck, host, templateLayouts, defaultLayouts), MissingTemplate(deck, host), timestamp, errors)
  }

  /** python-pptx can open the file at `path` as a presentation. */
  predicate Opens(host: Host, path: string) {
    path in host.files && host.files[path] == Loadable
  }

  /** The warning for a named template that does not exist, if any. */
  function MissingTemplate(deck: DeckSpec, host: Host): seq<string> {
    if Truthy(deck.theme.template) && !UsesTemplate(deck, host) then [TemplateNotFound(deck.theme.template.value)] else []
  }

  /** The rest of `generate_presentation` once a presentation with `layouts` is open and `warnings` gathered. */
  function RenderOpened(deck: DeckSpec, host: Host, layouts: seq<Layout>, warnings: seq<string>, timestamp: string, errors: LibraryErrors): RenderResult {
    var loop := SlidesOutcome(layouts, deck.slides, deck.theme.scraped, host, errors.addSlide);
    var path := OutputPath(deck.output, deck.title, timestamp);
    if MkdirFails(host, ParentDir(path)) then Failure(errors.mkdir, warnings + loop.1)
    else RenderResult(true, Some(path), loop.0, warnings + loop.1, [], None)
  }

  /** A named template that does not exist puts its warning first, whatever happens after. */
  lemma MissingTemplateWarnsFirst(deck: DeckSpec, host: Host, templateLayouts: seq<Layout>, defaultLayouts: seq<Layout>, timestamp: string, errors: LibraryErrors)
    requires Truthy(deck.theme.template) && !Exists(host, deck.theme.template.value)
    ensures var r := Render(deck, host, templateLayouts, defaultLayouts, timestamp, errors);
      |r.warnings| >= 1 && r.warnings[0] == TemplateNotFound(deck.theme.template.value)
  {
  }

  /** The footer settings have no effect on the result. */
  lemma FooterIgnored(deck: DeckSpec, footer: Option<FooterSpec>, host: Host, templateLayouts: seq<Layout>, defaultLayouts: seq<Layout>, timestamp: string, errors: LibraryErrors)
    ensures Render(deck.(footer := footer), host, templateLayouts, defaultLayouts, timestamp, errors)
      == Render(deck, host, templateLayouts, defaultLayouts, timestamp, errors)
  {
    assert OutputPath(deck.(footer := footer).output, deck.title, timestamp) == OutputPath(deck.output, deck.title, timestamp);
  }

  /**
    `generate_presentation`: opens the template (or the default presentation), runs
    the slide loop, names the output file and makes sure its directory exists.
    `prs` is the presentation that would be saved.
  */
  method GeneratePresentation(deck: DeckSpec, host: Host, templateLayouts: seq<Layout>, defaultLayouts: seq<Layout>, timestamp: string, errors: LibraryErrors)
    returns (result: RenderResult, prs: Presentation?)
    ensures result == Render(deck, host, templateLayouts, defaultLayouts, timestamp, errors)
    ensures result.ok ==> prs != null && fresh(prs) && prs.layouts == DeckLayouts(deck, host, templateLayouts, defaultLayouts)
    ensures result.ok ==> |prs.slides| == result.slidesGenerated
    ensures result.ok ==> SlidesHold(prs, 0, Produced(prs.layouts, deck.slides, deck.theme.scraped, host), deck.theme.scraped, host)
  {
    var warnings: seq<string> := [];
    var template := deck.theme.template;
    if Truthy(template) && Exists(host, template.value) {
      if !Opens(host, template.value) {
        return Failure(errors.load, warnings), null;
      }
      prs := new Presentation(templateLayouts);
    } else {
      prs := new Presentation(defaultLayouts);
      if Truthy(template) {
        warnings := warnings + [TemplateNotFound(template.value)];
      }
    }
    if deck.theme.scraped.Some? {
      ApplyTheme(prs, deck.theme.scraped.value);
    }
    assert prs.layouts == DeckLayouts(deck, host, templateLayouts, defaultLayouts) && warnings == MissingTemplate(deck, host);
    ghost var afterOpen := RenderOpened(deck, host, prs.layouts, warnings, timestamp, errors);
    assert Render(deck, host, templateLayouts, defaultLayouts, timestamp, errors) == afterOpen;
    var generated, slideWarnings := RenderSlides(prs, deck.slides, deck.theme.scraped, host, errors.addSlide);
    warnings := warnings + slideWarnings;
    var path := OutputPath(deck.output, deck.title, timestamp);
    if MkdirFails(host, ParentDir(path)) {
      return Failure(errors.mkdir, warnings), prs;
    }
    result := RenderResult(true, Some(path), generated, warnings, [], None);
  }
}
