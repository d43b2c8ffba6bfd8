/**
  The deck specification: layout and content enumerations, the content
  payloads, slides, output and footer settings, the deck itself and the
  validation result.
*/
module DeckModel {
  import opened Wrappers
  import opened ThemeModel

  /** The eight slide layouts a deck may ask for. */
  datatype LayoutType = TITLE | TITLE_CONTENT | SECTION | TWO_COL | IMAGE_FOCUS | TABLE | CHART | BLANK

  /** The five kinds of slide content. */
  datatype ContentType = Text | Bullets | Image | Table | Chart

  /** Every layout type, in declaration order (iteration order of the enumeration). */
  function AllLayoutTypes(): (r: seq<LayoutType>)
    ensures |r| == 8
    ensures forall i, j :: 0 <= i < j < |r| ==> r[i] != r[j]
  {
    [TITLE, TITLE_CONTENT, SECTION, TWO_COL, IMAGE_FOCUS, TABLE, CHART, BLANK]
  }

  /** The enumeration lists every layout type. */
  lemma AllLayoutTypesComplete(t: LayoutType)
    ensures t in AllLayoutTypes()
  {
    match t
    case TITLE => assert AllLayoutTypes()[0] == t;
    case TITLE_CONTENT => assert AllLayoutTypes()[1] == t;
    case SECTION => assert AllLayoutTypes()[2] == t;
    case TWO_COL => assert AllLayoutTypes()[3] == t;
    case IMAGE_FOCUS => assert AllLayoutTypes()[4] == t;
    case TABLE => assert AllLayoutTypes()[5] == t;
    case CHART => assert AllLayoutTypes()[6] == t;
    case BLANK => assert AllLayoutTypes()[7] == t;
  }

  /** The string value of a layout type, which is also its member name. */
  function LayoutValue(t: LayoutType): string {
    match t
    case TITLE => "TITLE"
    case TITLE_CONTENT => "TITLE_CONTENT"
    case SECTION => "SECTION"
    case TWO_COL => "TWO_COL"
    case IMAGE_FOCUS => "IMAGE_FOCUS"
    case TABLE => "TABLE"
    case CHART => "CHART"
    case BLANK => "BLANK"
  }

  /** Looking a layout type up by value (`LayoutType(s)`); `None` where the enumeration raises. */
  function ParseLayoutType(s: string): (r: Option<LayoutType>)
    ensures r.Some? ==> LayoutValue(r.value) == s
    ensures r.None? ==> forall t: LayoutType :: LayoutValue(t) != s
  {
    if s == "TITLE" then Some(TITLE)
    else if s == "TITLE_CONTENT" then Some(TITLE_CONTENT)
    else if s == "SECTION" then Some(SECTION)
    else if s == "TWO_COL" then Some(TWO_COL)
    else if s == "IMAGE_FOCUS" then Some(IMAGE_FOCUS)
    else if s == "TABLE" then Some(TABLE)
    else if s == "CHART" then Some(CHART)
    else if s == "BLANK" then Some(BLANK)
    else None
  }

  /** Every layout value parses back to its layout type, and there is no `CODE` layout. */
  lemma LayoutValueRoundTrip(t: LayoutType)
    ensures ParseLayoutType(LayoutValue(t)) == Some(t)
    ensures ParseLayoutType("CODE") == None
  {
  }

  function ContentValue(c: ContentType): string {
    match c
    case Text => "text"
    case Bullets => "bullets"
    case Image => "image"
    case Table => "table"
    case Chart => "chart"
  }

  /** Looking a content type up by value (`ContentType(s)`). */
  function ParseContentType(s: string): (r: Option<ContentType>)
    ensures r.Some? ==> ContentValue(r.value) == s
    ensures r.None? ==> forall c: ContentType :: ContentValue(c) != s
  {
    if s == "text" then Some(Text)
    else if s == "bullets" then Some(Bullets)
    else if s == "image" then Some(Image)
    else if s == "table" then Some(Table)
    else if s == "chart" then Some(Chart)
    else None
  }

  /** Every content value parses back to its content type. */
  lemma ContentValueRoundTrip(c: ContentType)
    ensures ParseContentType(ContentValue(c)) == Some(c)
  {
  }

  datatype ImageSpec = ImageSpec(url: string, altText: Option<string>, caption: Option<string>, width: Option<int>, height: Option<int>)

  datatype TableSpec = TableSpec(headers: seq<string>, rows: seq<seq<string>>, style: Option<string>)

  /** A chart; its data values are kept as text (only whether there is any data matters). */
  datatype ChartSpec = ChartSpec(chartType: string, title: Option<string>, data: map<string, string>, xAxisLabel: Option<string>, yAxisLabel: Option<string>)

  /** One content element: only the type is required, and nothing ties the payload to the type. */
  datatype SlideContent = SlideContent(
    contentType: ContentType, text: Option<string>, bullets: Option<seq<string>>,
    image: Option<ImageSpec>, table: Option<TableSpec>, chart: Option<ChartSpec>)

  datatype SlideSpec = SlideSpec(title: Option<string>, subtitle: Option<string>, layout: LayoutType, content: seq<SlideContent>, speakerNotes: Option<string>)

  datatype OutputSpec = OutputSpec(filename: Option<string>, directory: string, format: string)

  datatype FooterSpec = FooterSpec(text: Option<string>, showSlideNumbers: bool, showDate: bool)

  datatype DeckSpec = DeckSpec(
    title: string, subtitle: Option<string>, author: Option<string>, theme: ThemeSpec,
    slides: seq<SlideSpec>, output: OutputSpec, footer: Option<FooterSpec>)

  datatype ValidationResult = ValidationResult(valid: bool, errors: seq<string>, warnings: seq<string>, suggestions: seq<string>)

  /** A table built from headers and rows gets the style "default". */
  function NewTableSpec(headers: seq<string>, rows: seq<seq<string>>): (t: TableSpec)
    ensures t.headers == headers && t.rows == rows && t.style == Some("default")
  {
    TableSpec(headers, rows, Some("default"))
  }

  /** A content element built from its type alone carries no payload, whatever the type. */
  function NewSlideContent(contentType: ContentType): (c: SlideContent)
    ensures c.contentType == contentType
    ensures c.text.None? && c.bullets.None? && c.image.None? && c.table.None? && c.chart.None?
  {
    SlideContent(contentType, None, None, None, None, None)
  }

  /** A slide built with no arguments: TITLE_CONTENT, no content, no title, subtitle or notes. */
  function NewSlideSpec(): (s: SlideSpec)
    ensures s.layout == TITLE_CONTENT && s.content == []
    ensures s.title.None? && s.subtitle.None? && s.speakerNotes.None?
  {
    SlideSpec(None, None, TITLE_CONTENT, [], None)
  }

  /** Output settings built with no arguments. */
  function NewOutputSpec(): (o: OutputSpec)
    ensures o.filename.None? && o.directory == "/mnt/user-data/outputs" && o.format == "pptx"
  {
    OutputSpec(None, "/mnt/user-data/outputs", "pptx")
  }

  /** Footer settings built with no arguments. */
  function NewFooterSpec(): (f: FooterSpec)
    ensures f.text.None? && f.showSlideNumbers && !f.showDate
  {
    FooterSpec(None, true, false)
  }

  /**
    A deck built from its required fields, with the optional ones at their
    defaults; `None` where validation rejects it, exactly when there are no slides.
  */
  function NewDeckSpec(title: string, theme: ThemeSpec, slides: seq<SlideSpec>): (r: Option<DeckSpec>)
    ensures r.None? <==> |slides| == 0
    ensures r.Some? ==> r.value.title == title && r.value.theme == theme && r.value.slides == slides
    ensures r.Some? ==> r.value.output == NewOutputSpec() && r.value.footer.None?
    ensures r.Some? ==> r.value.subtitle.None? && r.value.author.None?
  {
    if |slides| == 0 then None
    else Some(DeckSpec(title, None, None, theme, slides, NewOutputSpec(), None))
  }
}
