# mcp-pptx core, modelled in Dafny

mcp-pptx is an MCP server that turns a JSON deck specification into a
PowerPoint file. A deck names a theme, which is a template file, a theme
scraped from a website, or both. It also lists slides, each with a layout
type, a title, a subtitle and content elements (text, bullets, image, table,
chart), and output settings. This project models the core of that pipeline:

- **Data model** (`deck_model.dfy`, `theme_model.dfy`): the deck and theme
  records, their defaults, and the construction-time rules. A deck needs at
  least one slide. A theme needs a scraped theme or a template.
- **Theme extraction** (`theme_extractor.dfy`):
  - CSS colour parsing, and the derived secondary and accent colours;
  - font-family cleaning and the mapping to PowerPoint-safe fonts;
  - merging several scraped themes.
- **Theme application** (`theme_applicator.dfy`):
  - `apply_theme`, which changes nothing;
  - hex-to-RGB conversion for run colours;
  - placing the logo on a slide.
- **Layouts** (`layouts.dfy`): choosing a slide layout by preferred index,
  then by name hints, then by fallback; listing the layouts.
- **Content filling** (`content_fillers.dfy`): writing the title, subtitle and
  content elements into a slide's placeholders, then the logo, with the
  warnings the source collects. Each fill is a function on placeholder values
  and a method on a `Slide` object, proved equal.
- **Validation** (`validator.dfy`): `validate_deck` and its helpers. It gives
  errors, warnings and suggestions, in the order the source produces them.
- **Rendering** (`renderer.dfy`):
  - listing templates;
  - the slide loop of `generate_presentation` and its result envelope;
  - the generated output path.

The supporting modules cover these:

- `text.dfy`: Python string operations (strip, split, join, rfind, lower).
- `pyint.dfy`: Python's `int(s, 16)`, including the whitespace it skips (the
  `str.isspace` set without the separators U+001C to U+001F), sign, `0x` prefix
  and underscores.
- `pptx.dfy`: the few python-pptx objects the core touches.
- `host.dfy`: what the program observes of the file system and the network,
  given as data.

## Model

| member | source | states |
|---|---|---|
| ThemeModel.NewColorPalette | src/mcp_pptx/models/theme_spec.py:7-14 | A palette keeps its five colours verbatim. |
| ThemeModel.NewFontPalette | src/mcp_pptx/models/theme_spec.py:17-23 | A font palette built from heading and body fonts has no web fonts. |
| ThemeModel.NewScrapedTheme | src/mcp_pptx/models/theme_spec.py:36-43 | A scraped theme built from its required fields has no logo and an empty warning list. |
| ThemeModel.NewThemeSpec | src/mcp_pptx/models/theme_spec.py:46-55 | Construction fails exactly when there is no scraped theme and no non-empty template, with the source's message. Otherwise both fields are kept. |
| DeckModel.AllLayoutTypes | src/mcp_pptx/models/deck_spec.py:10-20 | The eight layout types, distinct, in declaration order. |
| DeckModel.AllLayoutTypesComplete | src/mcp_pptx/models/deck_spec.py:10-20 | Every layout type is in the enumeration. |
| DeckModel.ParseLayoutType | src/mcp_pptx/models/deck_spec.py:10-20 | Lookup by value returns the type with that value, or None exactly when no type has it. |
| DeckModel.LayoutValueRoundTrip | src/mcp_pptx/models/deck_spec.py:10-20 | Every layout value parses back to its type; "CODE" is not a layout. |
| DeckModel.ParseContentType | src/mcp_pptx/models/deck_spec.py:23-30 | Lookup by value returns the content type with that value, or None exactly when none has it. |
| DeckModel.ContentValueRoundTrip | src/mcp_pptx/models/deck_spec.py:23-30 | Every content value parses back to its content type. |
| DeckModel.NewTableSpec | src/mcp_pptx/models/deck_spec.py:43-48 | A table keeps its headers and rows and gets style "default". |
| DeckModel.NewSlideContent | src/mcp_pptx/models/deck_spec.py:61-69 | A content element built from its type alone has no payload. |
| DeckModel.NewSlideSpec | src/mcp_pptx/models/deck_spec.py:72-79 | A default slide is TITLE_CONTENT with no content, title, subtitle or notes. |
| DeckModel.NewOutputSpec | src/mcp_pptx/models/deck_spec.py:82-87 | Default output: no file name, directory "/mnt/user-data/outputs", format "pptx". |
| DeckModel.NewFooterSpec | src/mcp_pptx/models/deck_spec.py:90-95 | Default footer: no text, slide numbers shown, date hidden. |
| DeckModel.NewDeckSpec | src/mcp_pptx/models/deck_spec.py:98-107 | A deck is rejected exactly when it has no slides. Otherwise title, theme and slides are kept, and output and footer take their defaults. |
| ThemeExtractor.NamedColor | src/mcp_pptx/extraction/theme_extractor.py:305-314 | A named colour is a seven-character '#' colour, and its name is three to five lower-case letters. |
| ThemeExtractor.ParseColor | src/mcp_pptx/extraction/theme_extractor.py:287-316 | Every parsed colour starts with '#'; the lemmas ParseColorBlack, ParseColorHash, ParseColorNamed and ParseColorRgb state what each branch gives. |
| ThemeExtractor.ParseColorBlack | src/mcp_pptx/extraction/theme_extractor.py:289-290 | Empty text, "transparent" and unrecognised text give "#000000". |
| ThemeExtractor.ParseColorHash | src/mcp_pptx/extraction/theme_extractor.py:292-296 | Text starting with '#' after stripping is upper-cased, with no length or digit check. |
| ThemeExtractor.ParseColorNamed | src/mcp_pptx/extraction/theme_extractor.py:305-316 | Named colours are recognised in any letter case. |
| ThemeExtractor.ParseColorRgb | src/mcp_pptx/extraction/theme_extractor.py:299-302 | `rgb(r, g, b)` parses to `#RRGGBB` with upper-case two-digit hex. |
| ThemeExtractor.MatchRgbOf | src/mcp_pptx/extraction/theme_extractor.py:299 | The `rgba?(\d+,\s*\d+,\s*\d+` pattern matches three written numbers and returns them. |
| ThemeExtractor.MatchTripleOf | src/mcp_pptx/extraction/theme_extractor.py:299 | The three-number part of the pattern returns the three numbers written. |
| ThemeExtractor.NumberOf | src/mcp_pptx/extraction/theme_extractor.py:299 | `\d+` followed by a non-digit matches the whole decimal number. |
| ThemeExtractor.CommaSpaceOf | src/mcp_pptx/extraction/theme_extractor.py:299 | `,\s*` consumes ", " before a non-space. |
| ThemeExtractor.DecValueDigits | src/mcp_pptx/extraction/theme_extractor.py:301 | `int` of a number written in decimal is that number. |
| ThemeExtractor.PySlice | src/mcp_pptx/extraction/theme_extractor.py:324 | Python's clamped slice is never longer than j - i. |
| ThemeExtractor.Lighten | src/mcp_pptx/extraction/theme_extractor.py:327-330 | `min(255, int(c * 1.3))` is at most 255. |
| ThemeExtractor.DeriveSecondaryColor | src/mcp_pptx/extraction/theme_extractor.py:318-334 | A primary whose pairs do not parse gives the fallback "#0A77C0". |
| ThemeExtractor.DeriveAccentColor | src/mcp_pptx/extraction/theme_extractor.py:336-351 | A primary whose pairs do not parse gives the fallback "#FF5733". |
| ThemeExtractor.ChannelsOfSixHex | src/mcp_pptx/extraction/theme_extractor.py:323-324 | The channels of `#RRGGBB` are the values of its three digit pairs. |
| ThemeExtractor.HexTripleBytes | src/mcp_pptx/extraction/theme_extractor.py:332 | Three bytes written as `#RRGGBB` form a well-formed colour whose channels are those bytes. |
| ThemeExtractor.ShortColorFallback | src/mcp_pptx/extraction/theme_extractor.py:323-334 | With four or fewer characters after the '#'s, the third pair is empty and both derivations fall back. |
| ThemeExtractor.SeparatorColorFallback | src/mcp_pptx/extraction/theme_extractor.py:318-351 | A separator U+001C to U+001F inside the first pair gives both fallbacks. |
| ThemeExtractor.ShorthandFallback | src/mcp_pptx/extraction/theme_extractor.py:318-351 | Shorthand "#ABC" is not understood: both derivations fall back. |
| ThemeExtractor.LightenBounds | src/mcp_pptx/extraction/theme_extractor.py:326-330 | Lightening never darkens a byte channel and stays below 256. |
| ThemeExtractor.SecondaryLightens | src/mcp_pptx/extraction/theme_extractor.py:318-332 | For a well-formed primary, the secondary is well-formed and each channel is the lightened primary channel. |
| ThemeExtractor.AccentInvolution | src/mcp_pptx/extraction/theme_extractor.py:336-349 | Deriving the accent twice gives the primary back, upper-cased. |
| ThemeExtractor.AccentTwice | src/mcp_pptx/extraction/theme_extractor.py:336-349 | The double accent is the primary's channels written back in hex. |
| ThemeExtractor.AccentOf | src/mcp_pptx/extraction/theme_extractor.py:344-349 | The accent is the per-channel complement 255 - c. |
| ThemeExtractor.UpperSixHex | src/mcp_pptx/extraction/theme_extractor.py:332 | Writing the pair values of a well-formed colour back in hex upper-cases it. |
| ThemeExtractor.FontEntries | src/mcp_pptx/extraction/theme_extractor.py:359 | There is one cleaned entry per comma-separated part. |
| ThemeExtractor.ExtractFontName | src/mcp_pptx/extraction/theme_extractor.py:353-368 | The loop returns the reference font name: "Arial" for an empty value, else the first non-generic entry. |
| ThemeExtractor.ScanFonts | src/mcp_pptx/extraction/theme_extractor.py:364-368 | The scan returns the first non-generic entry, else "Arial". |
| ThemeExtractor.FontNameChoice | src/mcp_pptx/extraction/theme_extractor.py:353-368 | The font is "Arial" or a non-generic entry preceded only by generic ones. |
| ThemeExtractor.FontNameAllGeneric | src/mcp_pptx/extraction/theme_extractor.py:362-368 | A list of generic families only gives "Arial". |
| ThemeExtractor.MapFont | src/mcp_pptx/extraction/theme_extractor.py:221-222 | `FONT_MAPPINGS.get(font, default)`: the mapped font when listed, else the default. |
| ThemeExtractor.MapFonts | src/mcp_pptx/extraction/theme_extractor.py:216-229 | The heading comes from the heading value (else the body value), the body from the paragraph value (else the body value). Both are mapped with "Calibri"/"Arial" defaults; a web font is kept only when it differs. |
| ThemeExtractor.MappedFontsAreSafe | src/mcp_pptx/extraction/theme_extractor.py:25-41 | The safe fonts are always values of the mapping table or its defaults. |
| ThemeExtractor.AllWarningsAppend | src/mcp_pptx/extraction/theme_extractor.py:381-383 | Gathered warnings concatenate over concatenated theme lists. |
| ThemeExtractor.MergeThemes | src/mcp_pptx/extraction/theme_extractor.py:370-405 | No themes: error. One theme: itself. "first": the first theme with every theme's warnings in order. Any other priority: the error raised when joining the source URLs. |
| PyInt.ParseInt16Digits | src/mcp_pptx/tools/validator.py:266 | `int(s, 16)` of a non-empty string of hex digits is their value. |
| PyInt.IntSpaceIsSpace | src/mcp_pptx/tools/validator.py:266 | The whitespace `int()` skips is exactly the `str.isspace` set without the separators U+001C to U+001F. |
| PyInt.ParseInt16StripsTo | src/mcp_pptx/tools/validator.py:266 | The whitespace `int()` skips around hex digits (`IntSpace`: `str.isspace` without U+001C to U+001F) is skipped. |
| PyInt.SeparatorThenDigits | src/mcp_pptx/tools/validator.py:266 | A separator U+001C to U+001F before hex digits is whitespace to `strip()` but makes `int(_, 16)` fail. |
| PyInt.SeparatorRefused | src/mcp_pptx/tools/validator.py:266 | `int(_, 16)` refuses text that starts with a separator U+001C to U+001F and ends in a hex digit. |
| PyInt.SeparatorPair | src/mcp_pptx/extraction/theme_extractor.py:324 | A hex digit followed by a separator U+001C to U+001F is not a two-character number. |
| PyInt.RadixPrefixParses | src/mcp_pptx/tools/validator.py:266 | A `0x`/`0X` prefix before a hex digit is accepted. |
| PyInt.ByteRoundTrip | src/mcp_pptx/extraction/theme_extractor.py:332 | Formatting a byte with `02X` and parsing it with `int(_, 16)` gives the byte back. |
| PyInt.ParsePair | src/mcp_pptx/rendering/theme_applicator.py:62-64 | Two hex digits parse to 16·first + second. |
| PyInt.FormatPair | src/mcp_pptx/extraction/theme_extractor.py:332 | Formatting the value of two hex digits upper-cases them. |
| ThemeApplicator.ApplyTheme | src/mcp_pptx/rendering/theme_applicator.py:19-53 | The presentation is left unchanged. |
| ThemeApplicator.HexToRgb | src/mcp_pptx/rendering/theme_applicator.py:55-67 | Text not six characters long after stripping '#'s is black. |
| ThemeApplicator.HexToRgbSixHex | src/mcp_pptx/rendering/theme_applicator.py:55-65 | `#RRGGBB` becomes the values of its three digit pairs. |
| ThemeApplicator.HexToRgbRoundTrip | src/mcp_pptx/rendering/theme_applicator.py:55-65 | Reading back a colour the extractor wrote from three bytes gives those bytes. |
| ThemeApplicator.HexToRgbIgnoresHash | src/mcp_pptx/rendering/theme_applicator.py:57 | A leading '#' makes no difference. |
| ThemeApplicator.HexToRgbNotHex | src/mcp_pptx/rendering/theme_applicator.py:61-67 | Six characters whose pairs do not parse, or parse negative, give black. |
| ThemeApplicator.SeparatorPairIsBlack | src/mcp_pptx/rendering/theme_applicator.py:61-67 | A separator U+001C to U+001F in the first pair gives black. |
| ThemeApplicator.HexToRgbSignedDigits | src/mcp_pptx/rendering/theme_applicator.py:62-65 | Signed single digits such as "+1+2+3" parse as channels. |
| ThemeApplicator.LogoPlacement | src/mcp_pptx/rendering/theme_applicator.py:81-92 | Every placement is positive, fits a 10-inch slide, and "top-right" ends at the right edge. |
| ThemeApplicator.LogoPlacementValues | src/mcp_pptx/rendering/theme_applicator.py:81-92 | The exact EMU values of the three placements; any other position is the centre one. |
| ThemeApplicator.LogoFile | src/mcp_pptx/rendering/theme_applicator.py:71-72 | There is a logo file exactly when the theme has a logo with a non-empty cached path. |
| ThemeApplicator.ApplyLogoToSlide | src/mcp_pptx/rendering/theme_applicator.py:69-105 | The logo picture is appended, at the position's placement, and true returned exactly when the cached file exists and loads. Otherwise the slide is unchanged. Placeholders are never touched. |
| Layouts.FindByName | src/mcp_pptx/rendering/layouts.py:47-52 | A found layout matches some hint; nothing is found exactly when no hint matches any layout. |
| Layouts.FindByNameFirst | src/mcp_pptx/rendering/layouts.py:47-52 | The layout found is the first layout matching the first hint that matches anything. |
| Layouts.FindByNameChooses | src/mcp_pptx/rendering/layouts.py:47-52 | Conversely, that first match of the first matching hint is what is found. |
| Layouts.GetLayout | src/mcp_pptx/rendering/layouts.py:29-68 | A layout is found exactly when there are layouts; the preferred index wins when it exists. |
| Layouts.GetLayoutFallback | src/mcp_pptx/rendering/layouts.py:38-64 | Past the preferred index: a name match, else layout 1, else layout 0. |
| Layouts.NamesMatterOnlyFor | src/mcp_pptx/rendering/layouts.py:18-27 | Only SECTION, TWO_COL and BLANK can be decided by names; other types get the index or layout 0. |
| Layouts.BlankByName | src/mcp_pptx/rendering/layouts.py:44-52 | With at most six layouts, a "Blank" layout is chosen for BLANK. |
| Layouts.RetryNeverResolves | src/mcp_pptx/rendering/layouts.py:29-64 | When a type resolves to nothing, so does TITLE_CONTENT. |
| Layouts.GetAvailableLayouts | src/mcp_pptx/rendering/layouts.py:70-92 | One entry per layout in order, numbered by position, with its name and each placeholder's index, type and name. |
| Pptx.FrameTextRoundTrip | src/mcp_pptx/rendering/content_fillers.py:83 | Text written into a text frame reads back unchanged. |
| Pptx.RunCountPositive | src/mcp_pptx/rendering/content_fillers.py:90 | A paragraph has a run exactly when its text has a character other than a line break. |
| Pptx.WithText | src/mcp_pptx/rendering/content_fillers.py:83 | Writing text keeps the placeholder's identity and reads back as that text. |
| Pptx.Slide.FindPlaceholder | src/mcp_pptx/rendering/content_fillers.py:72-75 | The scan returns the first placeholder satisfying the test. |
| Pptx.Slide.constructor | src/mcp_pptx/rendering/renderer.py:88 | A new slide has its layout's placeholders and no pictures. |
| Pptx.Slide.PlaceholderByIdx | src/mcp_pptx/rendering/content_fillers.py:80 | `placeholders[idx]` is the first placeholder with that idx, or None where it raises. |
| Pptx.Slide.SetText | src/mcp_pptx/rendering/content_fillers.py:83 | Only that placeholder changes, to the text written. |
| Pptx.Slide.ClearFrame | src/mcp_pptx/rendering/content_fillers.py:239 | `clear()` keeps one empty first paragraph with its level. |
| Pptx.Slide.AddParagraph | src/mcp_pptx/rendering/content_fillers.py:245 | An empty level-0 paragraph is appended. |
| Pptx.Slide.SetParagraphText | src/mcp_pptx/rendering/content_fillers.py:247 | The paragraph's runs are replaced by the text; its level is kept. |
| Pptx.Slide.SetParagraphLevel | src/mcp_pptx/rendering/content_fillers.py:248 | Only the paragraph's level changes. |
| Pptx.Slide.AddRun | src/mcp_pptx/rendering/content_fillers.py:90 | An unstyled run is appended to the paragraph. |
| Pptx.Slide.SetRunStyle | src/mcp_pptx/rendering/content_fillers.py:93-98 | Only that run's font, size and colour change. |
| Pptx.Slide.AddPicture | src/mcp_pptx/rendering/theme_applicator.py:94-99 | The picture is appended; placeholders are unchanged. |
| Pptx.Presentation.constructor | src/mcp_pptx/rendering/renderer.py:63-68 | An opened presentation has the given layouts and no slides. |
| Pptx.Presentation.AddSlide | src/mcp_pptx/rendering/renderer.py:88 | A fresh slide with the layout's placeholders and no pictures is appended. |
| ContentFillers.ByIdx | src/mcp_pptx/rendering/content_fillers.py:77-80 | `placeholders[idx]` is taken exactly when the first placeholder with that idx has a text frame. |
| ContentFillers.TitleTarget | src/mcp_pptx/rendering/content_fillers.py:70-82 | The title goes into the first title candidate. Failing that, it goes into the first placeholder with idx 0, exactly when that placeholder exists and has a text frame. |
| ContentFillers.SubtitleTarget | src/mcp_pptx/rendering/content_fillers.py:113-124 | The subtitle goes into the first subtitle candidate. Failing that, it goes into the first placeholder with idx 1, exactly when there are two or more placeholders and that one exists and has a text frame. |
| ContentFillers.ContentTarget | src/mcp_pptx/rendering/content_fillers.py:198-204 | Body content goes into the first content/body candidate; there is no fallback. |
| ContentFillers.TitleTakesSubtitlePlaceholder | src/mcp_pptx/rendering/content_fillers.py:72-75 | A first placeholder named "Subtitle" is also the title's target. |
| ContentFillers.TitleStyle | src/mcp_pptx/rendering/content_fillers.py:86-98 | With a theme, the title run gets the heading font, 32pt and the primary colour. |
| ContentFillers.SubtitleStyle | src/mcp_pptx/rendering/content_fillers.py:128-138 | With a theme, the subtitle run gets the body font, 18pt and the text colour. |
| ContentFillers.BodyStyle | src/mcp_pptx/rendering/content_fillers.py:208-216 | With a theme, text and bullet runs get the body font, 14pt and the text colour. |
| ContentFillers.StyleFirstRun | src/mcp_pptx/rendering/content_fillers.py:89-98 | The first run is styled, and an empty run is added first when there is none. |
| ContentFillers.StyleAllRuns | src/mcp_pptx/rendering/content_fillers.py:212-216 | Every run of the paragraph is styled; text and level are kept. |
| ContentFillers.StyleEach | src/mcp_pptx/rendering/content_fillers.py:211-216 | Every run of every paragraph is styled; texts are kept. |
| ContentFillers.WithHeading | src/mcp_pptx/rendering/content_fillers.py:82-98 | The heading reads back as the text, with its first run styled when there is a theme. |
| ContentFillers.WithBody | src/mcp_pptx/rendering/content_fillers.py:204-216 | The body reads back as the text, with every run styled when there is a theme. |
| ContentFillers.BulletParagraph | src/mcp_pptx/rendering/content_fillers.py:247-257 | A bullet is a level-0 paragraph holding its text. |
| ContentFillers.BulletParagraphs | src/mcp_pptx/rendering/content_fillers.py:239-257 | There is one paragraph per bullet, or the single cleared paragraph when there are none. |
| ContentFillers.WithBullets | src/mcp_pptx/rendering/content_fillers.py:237-257 | Writing bullets keeps the placeholder's identity. |
| ContentFillers.BulletsReadBack | src/mcp_pptx/rendering/content_fillers.py:239-257 | Bullets read back joined by newlines, one level-0 paragraph each. |
| ContentFillers.NoBulletsReadBack | src/mcp_pptx/rendering/content_fillers.py:239-245 | No bullets leave a frame that reads back empty, with the first paragraph's level kept. |
| ContentFillers.ImageTextLines | src/mcp_pptx/rendering/content_fillers.py:282-288 | The image stand-in has one line for the URL and one each for alt text and caption when present. |
| ContentFillers.TableTextLines | src/mcp_pptx/rendering/content_fillers.py:309-312 | The table stand-in is three lines: marker, headers, row count. |
| ContentFillers.ChartTextLines | src/mcp_pptx/rendering/content_fillers.py:333-337 | The chart stand-in is the type line plus a title line when present. |
| ContentFillers.Outcome | src/mcp_pptx/rendering/content_fillers.py:160-186 | A step warns exactly when it fails, and a failed step changes nothing. |
| ContentFillers.ContentFill | src/mcp_pptx/rendering/content_fillers.py:150-192 | One content element adds at most one warning. |
| ContentFillers.ContentFillRefills | src/mcp_pptx/rendering/content_fillers.py:150-192 | A content fill only rewrites text frames; it never adds, drops or renames placeholders. |
| ContentFillers.ContentsFillRefills | src/mcp_pptx/rendering/content_fillers.py:47-49 | The same holds for any number of content elements. |
| ContentFillers.ContentsFillWarnings | src/mcp_pptx/rendering/content_fillers.py:47-49 | Each content element adds at most one warning. |
| ContentFillers.SlideFillFacts | src/mcp_pptx/rendering/content_fillers.py:25-65 | Filling a slide only rewrites text frames and warns at most once per step. |
| ContentFillers.TitleReadsBack | src/mcp_pptx/rendering/content_fillers.py:67-108 | With a target, the title fill succeeds, the title reads back from it, and other placeholders are untouched. |
| ContentFillers.SubtitleOverwritesTitle | src/mcp_pptx/rendering/content_fillers.py:36-44 | When the first placeholder is the subtitle, title and subtitle both land there and the subtitle wins, with no warning. |
| ContentFillers.AbsentPayloadIsSilent | src/mcp_pptx/rendering/content_fillers.py:170-185 | An image, table or chart without its payload changes nothing and warns nothing. |
| ContentFillers.NoContentPlaceholder | src/mcp_pptx/rendering/content_fillers.py:160-186 | Without a content placeholder nothing changes, and each element with something to write gives its own warning. |
| ContentFillers.StyleRuns | src/mcp_pptx/rendering/content_fillers.py:253-257 | The run loop styles every run of the paragraph. |
| ContentFillers.FillHeading | src/mcp_pptx/rendering/content_fillers.py:83-98 | The placeholder becomes the heading value; nothing else changes. |
| ContentFillers.StyleFrame | src/mcp_pptx/rendering/content_fillers.py:210-216 | The nested loops style every run of every paragraph. |
| ContentFillers.FillBody | src/mcp_pptx/rendering/content_fillers.py:205-216 | The placeholder becomes the body value; nothing else changes. |
| ContentFillers.WriteBullet | src/mcp_pptx/rendering/content_fillers.py:247-257 | Paragraph n becomes the bullet's paragraph. |
| ContentFillers.AddBullet | src/mcp_pptx/rendering/content_fillers.py:241-257 | One loop turn extends the written bullets by the next one. |
| ContentFillers.FindTitleTarget | src/mcp_pptx/rendering/content_fillers.py:70-80 | The scan and fallback find the reference title target. |
| ContentFillers.FindSubtitleTarget | src/mcp_pptx/rendering/content_fillers.py:113-122 | The scan and fallback find the reference subtitle target. |
| ContentFillers.FillTitle | src/mcp_pptx/rendering/content_fillers.py:67-108 | Equals the title fill function: success and new placeholders; pictures unchanged. |
| ContentFillers.FillSubtitle | src/mcp_pptx/rendering/content_fillers.py:110-148 | Equals the subtitle fill function. |
| ContentFillers.FillText | src/mcp_pptx/rendering/content_fillers.py:194-225 | Equals the text fill function. |
| ContentFillers.FillBullets | src/mcp_pptx/rendering/content_fillers.py:227-266 | Equals the bullets fill function. |
| ContentFillers.FillPlain | src/mcp_pptx/rendering/content_fillers.py:268-343 | Writing an image, table or chart stand-in equals the stand-in fill function. |
| ContentFillers.FillContent | src/mcp_pptx/rendering/content_fillers.py:150-192 | Placeholders and warnings equal ContentFill. |
| ContentFillers.FillHeadings | src/mcp_pptx/rendering/content_fillers.py:36-44 | Title then subtitle, each when present and non-empty, with their warnings. |
| ContentFillers.FillContents | src/mcp_pptx/rendering/content_fillers.py:47-49 | The content elements in order, with their warnings. |
| ContentFillers.FillSlide | src/mcp_pptx/rendering/content_fillers.py:25-65 | Placeholders equal SlideFill. Warnings are the title, subtitle and content warnings, then the logo's. The logo picture is appended exactly when it is placed. |
| Validator.IsValidHexColor | src/mcp_pptx/tools/validator.py:256-269 | A valid colour is '#' and three or six more characters. |
| Validator.HexDigitsAreValid | src/mcp_pptx/tools/validator.py:256-269 | '#' and three or six hex digits is valid. |
| Validator.WrittenColorsValid | src/mcp_pptx/tools/validator.py:256-269 | Every colour the extractor writes from bytes is valid. |
| Validator.SecondaryValid | src/mcp_pptx/tools/validator.py:256-269 | The secondary derived from a well-formed primary is valid. |
| Validator.AccentValid | src/mcp_pptx/tools/validator.py:256-269 | The accent derived from a well-formed primary is valid. |
| Validator.SecondaryFallbackValid | src/mcp_pptx/extraction/theme_extractor.py:334 | The fallback secondary colour is valid. |
| Validator.AccentFallbackValid | src/mcp_pptx/extraction/theme_extractor.py:351 | The fallback accent colour is valid. |
| Validator.ParsedIsValid | src/mcp_pptx/tools/validator.py:261-267 | '#' and three or six characters that `int(_, 16)` reads is valid. |
| Validator.SignedColorValid | src/mcp_pptx/tools/validator.py:266 | A minus sign after the '#' passes, because the check is `int(_, 16)`. |
| Validator.SpacedColorValid | src/mcp_pptx/tools/validator.py:266 | Whitespace after the '#' passes. |
| Validator.SeparatorColorInvalid | src/mcp_pptx/tools/validator.py:261-267 | A separator U+001C to U+001F after the '#' fails, although `str.isspace` calls it whitespace. |
| Validator.PrefixedColorValid | src/mcp_pptx/tools/validator.py:266 | "#0x" and one hex digit passes. |
| Validator.RejectedColors | src/mcp_pptx/tools/validator.py:258-269 | A missing '#', a wrong length or a non-hex letter fails. |
| Validator.AcceptedButBlack | src/mcp_pptx/tools/validator.py:256-269 | The validator accepts "#-" and five hex digits, which the run-colour conversion turns into black. |
| Validator.NegativePairIsBlack | src/mcp_pptx/rendering/theme_applicator.py:61-67 | "#-" and five hex digits reads as a negative first channel, which the colour type refuses: black. |
| Validator.BaseName | src/mcp_pptx/tools/validator.py:74 | `Path(p).name` holds no slash. |
| Validator.TemplateSuffixIff | src/mcp_pptx/tools/validator.py:74 | The suffix test holds exactly when the name is longer than five characters and ends in ".potx" or ".pptx", in any case. |
| Validator.BaseNameOfJoin | src/mcp_pptx/tools/validator.py:71-74 | The last component of "dir/name" is name. |
| Validator.TemplateNameAccepted | src/mcp_pptx/tools/validator.py:74 | A template file with a ".pptx" or ".potx" extension in a directory passes. |
| Validator.ReachWarnings | src/mcp_pptx/tools/validator.py:90-97 | A HEAD request warns exactly when it is refused or cannot be made. |
| Validator.Head | src/mcp_pptx/tools/validator.py:91-97 | A HEAD request fails to be made exactly when the host has no answer for the URL. |
| Validator.TemplateWarnings | src/mcp_pptx/tools/validator.py:70-75 | At most one template warning, and none without a template. |
| Validator.LogoNotes | src/mcp_pptx/tools/validator.py:84-97 | At most one logo warning: the cached file is checked when there is one, else the URL. |
| Validator.ScrapedWarnings | src/mcp_pptx/tools/validator.py:78-97 | At most two warnings about a scraped theme, none without one. |
| Validator.PrimaryWarnings | src/mcp_pptx/tools/validator.py:80-81 | The primary-colour warning is given exactly when the colour is invalid. |
| Validator.ThemeWarnings | src/mcp_pptx/tools/validator.py:66-97 | At most three theme warnings. |
| Validator.ScrapedThemeQuiet | src/mcp_pptx/tools/validator.py:66-103 | A scraped theme with a valid primary and no logo, and no template, draws no warning. |
| Validator.CheckTemplate | src/mcp_pptx/tools/validator.py:70-75 | Appends exactly the template warnings. |
| Validator.CheckPrimary | src/mcp_pptx/tools/validator.py:80-81 | Appends exactly the primary-colour warning. |
| Validator.CheckLogo | src/mcp_pptx/tools/validator.py:84-97 | Appends exactly the logo warning: the cached file when there is one, else the URL. |
| Validator.ValidateTheme | src/mcp_pptx/tools/validator.py:66-107 | The theme is valid exactly when it names a source; appends exactly the theme warnings. |
| Validator.ContentPrefix | src/mcp_pptx/tools/validator.py:145 | The content prefix starts with "Slide n". |
| Validator.TextNotes | src/mcp_pptx/tools/validator.py:147-151 | Every text note starts with the content prefix. |
| Validator.BulletNotes | src/mcp_pptx/tools/validator.py:153-161 | Every bullet note starts with the content prefix. |
| Validator.ImageNotes | src/mcp_pptx/tools/validator.py:163-180 | Every image note starts with the content prefix. |
| Validator.TableNotes | src/mcp_pptx/tools/validator.py:182-191 | Every table note starts with the content prefix. |
| Validator.ChartNotes | src/mcp_pptx/tools/validator.py:193-200 | Every chart note starts with the content prefix. |
| Validator.LongBullets | src/mcp_pptx/tools/validator.py:159-161 | One suggestion per bullet over 100 characters, none exactly when every bullet is short. |
| Validator.ContentNotes | src/mcp_pptx/tools/validator.py:142-203 | Every note about a content element starts with "Slide n, content m:". |
| Validator.PayloadlessContentWarns | src/mcp_pptx/tools/validator.py:147-195 | A content element without payload draws exactly one warning and no suggestion. |
| Validator.BulletSuggestions | src/mcp_pptx/tools/validator.py:153-161 | Up to seven bullets: one suggestion per long bullet. More than seven: one suggestion. Never a warning when bullets are present. |
| Validator.CheckBullets | src/mcp_pptx/tools/validator.py:153-161 | Appends exactly the bullet notes. |
| Validator.CollectLongBullets | src/mcp_pptx/tools/validator.py:159-161 | The bullet loop appends exactly the long-bullet suggestions. |
| Validator.ValidateContent | src/mcp_pptx/tools/validator.py:142-203 | Appends exactly the content element's warnings and suggestions. |
| Validator.SlideHead | src/mcp_pptx/tools/validator.py:119 | The slide prefix starts with "Slide n". |
| Validator.ContentsNotesPrefixed | src/mcp_pptx/tools/validator.py:125-126 | Every note about the content of slide n starts "Slide n". |
| Validator.SlideNotesPrefixed | src/mcp_pptx/tools/validator.py:109-140 | Every note about slide n starts "Slide n". |
| Validator.DefaultSlideIsEmpty | src/mcp_pptx/tools/validator.py:118-119 | A default slide is reported empty and nothing else. |
| Validator.ValidateContents | src/mcp_pptx/tools/validator.py:125-126 | The content loop appends each element's notes, numbered from 1. |
| Validator.ValidateSlide | src/mcp_pptx/tools/validator.py:109-140 | The slide's notes equal the reference slide notes. |
| Validator.FilenameWarnings | src/mcp_pptx/tools/validator.py:217-224 | A named file draws no warning exactly when it ends with the format's extension and has no forbidden character. |
| Validator.OutputWarnings | src/mcp_pptx/tools/validator.py:205-227 | At most three output warnings, at most one without a file name. |
| Validator.NamedOutputQuiet | src/mcp_pptx/tools/validator.py:205-224 | A plain name with the right extension in an existing directory draws no warning. |
| Validator.ValidateOutput | src/mcp_pptx/tools/validator.py:205-227 | Appends exactly the output warnings. |
| Validator.Improvements | src/mcp_pptx/tools/validator.py:229-254 | At most four general suggestions. |
| Validator.TitleAdviceIff | src/mcp_pptx/tools/validator.py:243-245 | The title-slide advice is given exactly when no slide has the TITLE layout. |
| Validator.SingleLayoutIff | src/mcp_pptx/tools/validator.py:238-239 | One layout is used exactly when there are slides and all share the first one's layout. |
| Validator.SuggestImprovements | src/mcp_pptx/tools/validator.py:229-254 | Appends exactly the general suggestions. |
| Validator.DeckErrors | src/mcp_pptx/tools/validator.py:23-33 | At most three structural errors. |
| Validator.Validation | src/mcp_pptx/tools/validator.py:16-55 | The errors are the structural errors, and the deck is valid exactly when there are none. |
| Validator.ValidExactly | src/mcp_pptx/tools/validator.py:16-55 | Valid exactly when the title is not blank, there are slides and the theme names a source. |
| Validator.ErrorsInOrder | src/mcp_pptx/tools/validator.py:23-33 | Each error is present exactly when its rule fails; a blank title comes first, an invalid theme last. |
| Validator.ConstructedDeckErrors | src/mcp_pptx/tools/validator.py:23-33 | For a deck the constructors accept, the only possible error is the blank title. |
| Validator.ValidateSlides | src/mcp_pptx/tools/validator.py:36-39 | The slide loop gathers each slide's notes, numbered from 1, in order. |
| Validator.ValidateDeck | src/mcp_pptx/tools/validator.py:16-64 | The result equals the reference validation. |
| Renderer.LayoutValues | src/mcp_pptx/rendering/renderer.py:37 | Every layout value is listed. |
| Renderer.PotxStem | src/mcp_pptx/rendering/renderer.py:44-47 | A ".potx" name splits into its stem and the suffix. |
| Renderer.StemNotDefault | src/mcp_pptx/rendering/renderer.py:45 | The only ".potx" file with stem "default" is "default.potx". |
| Renderer.CustomTemplates | src/mcp_pptx/rendering/renderer.py:44-52 | At most one entry per name; none is named "default", and each lists every layout. |
| Renderer.CustomTemplatesExact | src/mcp_pptx/rendering/renderer.py:44-52 | The custom entries are exactly those of the listed ".potx" names other than "default.potx". |
| Renderer.CustomTemplatePathAccepted | src/mcp_pptx/rendering/renderer.py:44-52 | A listed custom template's path passes the validator's template-suffix test. |
| Renderer.ListTemplates | src/mcp_pptx/rendering/renderer.py:28-54 | The built-in entry, then the custom entries in listing order when the themes directory exists. |
| Renderer.Slug | src/mcp_pptx/rendering/renderer.py:144-145 | For ASCII titles, the slug is no longer than the title and holds only allowed characters. |
| Renderer.SlugOfSlugChars | src/mcp_pptx/rendering/renderer.py:144-145 | Text made of slug characters is its own slug. |
| Renderer.SlugIdempotent | src/mcp_pptx/rendering/renderer.py:144-145 | For ASCII titles, making a slug twice changes nothing. |
| Renderer.GeneratedNameQuiet | src/mcp_pptx/rendering/renderer.py:142-147 | A generated file name draws no warning from the validator's file-name check, given a clean timestamp and format. |
| Renderer.JoinPath | src/mcp_pptx/rendering/renderer.py:149 | `Path(directory) / name` ends with the name, and an absolute name is the whole path. |
| Renderer.GeneratedNameEnds | src/mcp_pptx/rendering/renderer.py:143-147 | A generated name ends with "_", the timestamp, "." and the format. |
| Renderer.OutputPath | src/mcp_pptx/rendering/renderer.py:136-149 | A given file name is kept verbatim at the end of the path; otherwise the path ends with "_", the timestamp and "." plus the format. |
| Renderer.OutputPathParts | src/mcp_pptx/rendering/renderer.py:136-149 | The output file's name is the plain name given, and its parent is the directory. |
| Renderer.SlidesOutcome | src/mcp_pptx/rendering/renderer.py:78-101 | The loop generates every slide when the presentation has layouts, and none otherwise. |
| Renderer.NoLayoutsFailEverySlide | src/mcp_pptx/rendering/renderer.py:99-101 | Without layouts every slide fails, and every failure message numbers the slide 1. |
| Renderer.RenderSlide | src/mcp_pptx/rendering/renderer.py:80-101 | One pass: success and warnings equal the reference. On success one slide is appended, filled as specified; on failure the slides are unchanged. |
| Renderer.FilledAll | src/mcp_pptx/rendering/renderer.py:78-96 | One filled slide per specification. |
| Renderer.FilledAllAt | src/mcp_pptx/rendering/renderer.py:78-96 | Slide j is the filled slide of specification j. |
| Renderer.RenderNext | src/mcp_pptx/rendering/renderer.py:79-101 | One iteration keeps the loop invariant: count, warnings and slides so far equal the reference. |
| Renderer.RenderSlides | src/mcp_pptx/rendering/renderer.py:78-101 | The loop's count and warnings equal the reference; the slides appended are the filled slides, in order. |
| Renderer.Render | src/mcp_pptx/rendering/renderer.py:56-134 | Failure has no output, zero slides and an error. Success has the output path and as many slides as specifications when layouts exist. No assets are downloaded. |
| Renderer.MissingTemplateWarnsFirst | src/mcp_pptx/rendering/renderer.py:63-70 | A named template that does not exist puts its warning first. |
| Renderer.FooterIgnored | src/mcp_pptx/rendering/renderer.py:104-105 | The footer settings have no effect on the result. |
| Renderer.GeneratePresentation | src/mcp_pptx/rendering/renderer.py:56-134 | The result equals Render. On success the presentation has the deck's layouts and one filled slide, with logo, per slide generated. |

## Left out

- Renderer.Slug: `str.isalnum` and `str.lower` are modelled for ASCII only. A title such as "Café" keeps "é" in the source but not in the model.
- ThemeExtractor.ParseColor: `str.upper`, `str.lower`, the regex `\d` and `int()` are modelled for ASCII only. "#é0000" gives "#É0000" in the source and "#é0000" in the model. "rgb(١,2,3)" (an Arabic-Indic digit) gives "#010203" in the source and "#000000" in the model.
- ThemeExtractor.ParseColorBlack: "unrecognised" is decided with ASCII digits only, so text the source parses through a non-ASCII `\d`, such as "rgb(١,2,3)", is black in the model.
- ThemeExtractor.ParseColorHash: the upper-casing is ASCII-only; Python's `str.upper` also maps non-ASCII letters, such as "é" to "É".
- Layouts.NameMatcher: lower-cases ASCII letters only. Python's `str.lower()` also maps other letters, such as U+212A KELVIN SIGN to 'k', so a layout named "BLAN\u212A" matches the hint "blank" in Python but not in the model.
- PyInt.ParseInt16: `int(_, 16)` reads ASCII digits only. Python also accepts other Unicode decimal digits. The same holds for Validator.IsValidHexColor and ThemeApplicator.HexToRgb, which use it.
- Renderer.JoinPath: `Path(directory) / name` is modelled without pathlib's normalisation of "." components and repeated slashes. For example, "./out" stays "./out/x.pptx" where pathlib gives "out/x.pptx". The same holds for Validator.BaseName and Validator.TemplateWarnings, and for the file-existence tests of the Host: template and logo paths are compared as raw strings. So "t/x.pptx/." has suffix ".pptx" in pathlib but none in the model, and the model warns where the source does not.
- Renderer.LayoutText: the "Layout … not found" warning writes the layout as "LayoutType.NAME", Python 3.11's format for a str-mixin Enum. Python 3.10 writes the value instead.
- Renderer.MkdirFails: which directories cannot be created is given as data (Host.uncreatableDirs). Permissions and the reasons behind them are not modelled.
- ThemeExtractor.MergeThemes: with two or more themes and a priority other than "first" (the default "balanced"), joining the `HttpUrl` source URLs raises TypeError. This is modelled as Err with that message, in the wording of pydantic 2.10 and later ("HttpUrl found"); pydantic 2.0 to 2.9 names the core `Url` type instead. The "merged:…" theme that the code means to build is not modelled.
- ContentFillers.FillSlide: the handlers "Error filling slide" (content_fillers.py:61-63) and "Error filling content" (content_fillers.py:187-189) are not modelled. Every callee catches its own exceptions, so these handlers cannot be reached.
- Validator.ValidateDeck: the "Validation failed" handler (validator.py:57-64) and the theme, per-slide, per-content and output handlers (validator.py:105-107, 137-138, 202-203, 226-227) are not modelled. The model assumes every `Path.exists()` answers. In Python up to 3.12, `exists()` re-raises an OSError other than ENOENT, ENOTDIR, EBADF or ELOOP, for example for a 300-character template name (ENAMETOOLONG) or a path under an unsearchable directory (EACCES). Such a raise is not modelled; the lines below name the members this affects. The other handlers cannot be reached from the modelled checks.
- Validator.ValidateTheme: assumes `Path(template).exists()` answers. A raise at validator.py:72, or at the cached-logo test at validator.py:87, would reach the handler at validator.py:105-107, which reports the theme invalid; the model calls a deck naming a template valid. The same holds for Validator.ValidExactly.
- Validator.ValidExactly: states validity under the same assumption as Validator.ValidateTheme.
- Validator.OutputWarnings: assumes `output_dir.exists()` answers. A raise at validator.py:210 would give "Output validation error: …" and skip the filename checks.
- Renderer.Render: assumes `Path(template).exists()` answers. A raise at renderer.py:63 would give the failure envelope of renderer.py:125-134 rather than the "Template … not found" warning.
- Validator.ValidateOutput: `_validate_output` creates a missing output directory as a side effect. The model's Host is data and stays unchanged; only the warning is modelled.
- Pptx.Slide: placeholders are kept in the order `slide.placeholders` yields them. How python-pptx orders them (by idx) is taken as given.
- Speaker notes (`_add_speaker_notes`, content_fillers.py:345-352) are not modelled. They write into the notes slide, which the model does not represent, and never warn.
- `prs.save`: writing the file, and any failure while saving, is not modelled.
- Library exception messages (loading a template, adding a slide without a layout, creating a directory), the current time and the order in which `glob` lists files are parameters.
- `_apply_footer` and `apply_theme` only log; both are modelled as doing nothing.
- Logo pictures keep their width only. The height python-pptx derives from the image's aspect ratio is not modelled.
- Charts, tables and images are written as text stand-ins, as the source does. Chart data is kept as opaque text.
- The Playwright-driven page scraping (`_extract_colors`, `_extract_fonts`, `_extract_logo`), the asset cache and the MCP server are not modelled. Their inputs, such as the CSS values, become parameters of the modelled functions.
- Logging is not modelled.
- `int(c * 1.3)` is computed as `13c / 10` truncated, not in floating point. For the channel values -15..255 that `int(_, 16)` of two characters can give, the two agree; TruncDiv rounds toward zero as `int()` does, so "#-F0000" gives -19 both ways.
