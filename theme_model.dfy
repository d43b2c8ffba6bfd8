/**
  The theme records: a colour palette, a font palette, a logo, the result of
  scraping a website, and the theme specification that needs either a scraped
  theme or a template.
*/
module ThemeModel {
  import opened Wrappers

  /** Five colour strings, stored as given (no format check). */
  datatype ColorPalette = ColorPalette(primary: string, secondary: string, accent: string, background: string, text: string)

  /** PowerPoint-safe fonts, with the original web fonts when they differ. */
  datatype FontPalette = FontPalette(heading: string, body: string, headingWeb: Option<string>, bodyWeb: Option<string>)

  /** A logo; the URL is kept as text (URL normalisation is not modelled). */
  datatype LogoSpec = LogoSpec(url: string, cachedPath: Option<string>, width: Option<int>, height: Option<int>, altText: Option<string>)

  datatype ScrapedTheme = ScrapedTheme(colors: ColorPalette, fonts: FontPalette, logo: Option<LogoSpec>, sourceUrl: string, warnings: seq<string>)

  datatype ThemeSpec = ThemeSpec(scraped: Option<ScrapedTheme>, template: Option<string>)

  const NoThemeSource := "Either scraped theme or template must be provided"

  /** A palette built from its five colours keeps each one verbatim. */
  function NewColorPalette(primary: string, secondary: string, accent: string, background: string, text: string): (p: ColorPalette)
    ensures [p.primary, p.secondary, p.accent, p.background, p.text] == [primary, secondary, accent, background, text]
  {
    ColorPalette(primary, secondary, accent, background, text)
  }

  /** A font palette built from the two required fonts has no web fonts. */
  function NewFontPalette(heading: string, body: string): (f: FontPalette)
    ensures f.heading == heading && f.body == body
    ensures f.headingWeb == None && f.bodyWeb == None
  {
    FontPalette(heading, body, None, None)
  }

  /** A scraped theme built from its required fields has no logo and no warnings. */
  function NewScrapedTheme(colors: ColorPalette, fonts: FontPalette, sourceUrl: string): (t: ScrapedTheme)
    ensures t.colors == colors && t.fonts == fonts && t.sourceUrl == sourceUrl
    ensures t.logo == None && t.warnings == []
  {
    ScrapedTheme(colors, fonts, None, sourceUrl, [])
  }

  /** The invariant every constructed theme keeps: a scraped theme or a non-empty template. */
  predicate HasSource(t: ThemeSpec) {
    t.scraped.Some? || Truthy(t.template)
  }

  /**
    Constructing a theme specification: rejected exactly when there is no scraped
    theme and no (non-empty) template; otherwise both fields are kept unchanged.
  */
  function NewThemeSpec(scraped: Option<ScrapedTheme>, template: Option<string>): (r: Result<ThemeSpec>)
    ensures r.Err? <==> scraped.None? && !Truthy(template)
    ensures r.Err? ==> r.message == NoThemeSource
    ensures r.Ok? ==> r.value.scraped == scraped && r.value.template == template && HasSource(r.value)
  {
    if scraped.None? && !Truthy(template) then Err(NoThemeSource)
    else Ok(ThemeSpec(scraped, template))
  }
}
