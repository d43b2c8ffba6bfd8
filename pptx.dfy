/**
  The part of the presentation library the renderer drives: slide layouts, the
  placeholders of a slide with their text frames, paragraphs and runs, pictures
  on a slide, and a presentation that adds slides from its layouts.
  Sizes are integer EMU (914400 per inch).
*/
module Pptx {
  import opened Wrappers
  import opened Text

  type Byte = x: int | 0 <= x < 256

  datatype Rgb = Rgb(r: Byte, g: Byte, b: Byte)

  const Black := Rgb(0, 0, 0)

  /** Explicit run formatting: font name, size in points, colour. */
  datatype RunStyle = RunStyle(font: string, sizePt: nat, color: Rgb)

  /**
    A paragraph: its text (line breaks read back as vertical tabs), its indentation level,
    and one entry per run, holding the run's explicit style if it has one.
  */
  datatype Paragraph = Paragraph(text: string, level: nat, runs: seq<Option<RunStyle>>)

  /** A placeholder on a slide; `paragraphs` is its text frame when `hasTextFrame`. */
  datatype Placeholder = Placeholder(idx: nat, name: string, hasTextFrame: bool, paragraphs: seq<Paragraph>)

  /** A placeholder as a layout declares it: index, placeholder type and name. */
  datatype LayoutPlaceholder = LayoutPlaceholder(idx: nat, kind: string, name: string)

  /**
    A slide layout: its name, its own placeholders, and the placeholders a slide
    added from it starts with. The last is an input of its own: python-pptx derives
    it from the layout's placeholders (leaving out date, footer and slide number),
    and the model does not tie the two together.
  */
  datatype Layout = Layout(name: string, placeholders: seq<LayoutPlaceholder>, slidePlaceholders: seq<Placeholder>)

  /** A picture shape: image file, position and width, in EMU. */
  datatype Picture = Picture(path: string, left: int, top: int, width: int)

  const EmuPerInch := 914400

  /** The vertical tab, which a paragraph reads back for a line break. */
  const VerticalTab := '\U{0B}'

  predicate IsBreak(c: char) {
    c == '\n' || c == VerticalTab
  }

  /** The number of runs writing `s` into a paragraph creates: one per non-empty stretch between line breaks. */
  function RunCount(s: string): nat
    decreases |s|
  {
    if |s| == 0 then 0
    else RunCount(s[..|s| - 1]) + (if !IsBreak(s[|s| - 1]) && (|s| == 1 || IsBreak(s[|s| - 2])) then 1 else 0)
  }

  /** A paragraph gets at least one run exactly when its text has a character that is not a line break. */
  lemma {:induction false} RunCountPositive(s: string)
    ensures RunCount(s) > 0 <==> exists i :: 0 <= i < |s| && !IsBreak(s[i])
    decreases |s|
  {
    if |s| > 0 {
      var t := s[..|s| - 1];
      RunCountPositive(t);
      if exists i :: 0 <= i < |t| && !IsBreak(t[i]) {
        var i :| 0 <= i < |t| && !IsBreak(t[i]);
        assert s[i] == t[i];
      } else if !IsBreak(s[|s| - 1]) {
        assert |s| == 1 || IsBreak(t[|t| - 1]);
      } else {
        forall i | 0 <= i < |s| ensures IsBreak(s[i]) {
          if i < |t| { assert s[i] == t[i]; }
        }
      }
    }
  }

  /** A fresh level-0 paragraph holding `s`, as the paragraph text setter leaves it. */
  function NewParagraph(s: string): (p: Paragraph)
    ensures |p.text| == |s| && p.level == 0
    ensures forall i :: 0 <= i < |p.runs| ==> p.runs[i].None?
  {
    Paragraph(ReplaceChar(s, '\n', VerticalTab), 0, seq(RunCount(s), _ => None))
  }

  /** The paragraphs the text-frame text setter creates: one new paragraph per line. */
  function FrameParagraphs(s: string): (ps: seq<Paragraph>)
    ensures |ps| == |Split(s, '\n')| && |ps| >= 1
    ensures forall k :: 0 <= k < |ps| ==> ps[k].level == 0
  {
    var lines := Split(s, '\n');
    seq(|lines|, k requires 0 <= k < |lines| => NewParagraph(lines[k]))
  }

  function Texts(ps: seq<Paragraph>): seq<string> {
    seq(|ps|, k requires 0 <= k < |ps| => ps[k].text)
  }

  /** The text-frame text getter: the paragraph texts joined with newlines. */
  function FrameText(ps: seq<Paragraph>): string {
    Join("\n", Texts(ps))
  }

  lemma ReplaceAbsent(s: string, from: char, to: char)
    requires from !in s
    ensures ReplaceChar(s, from, to) == s
  {
  }

  /** Reading back the text written into a text frame gives the same text. */
  lemma FrameTextRoundTrip(s: string)
    ensures FrameText(FrameParagraphs(s)) == s
  {
    var lines := Split(s, '\n');
    var ps := FrameParagraphs(s);
    forall k | 0 <= k < |lines| ensures ps[k].text == lines[k] {
      ReplaceAbsent(lines[k], '\n', VerticalTab);
    }
    assert Texts(ps) == lines;
    JoinSplit(s, '\n');
  }

  /** Writing `s` into a placeholder's text frame. */
  function WithText(ph: Placeholder, s: string): (r: Placeholder)
    ensures r.idx == ph.idx && r.name == ph.name && r.hasTextFrame == ph.hasTextFrame
    ensures FrameText(r.paragraphs) == s && |r.paragraphs| >= 1
  {
    FrameTextRoundTrip(s);
    ph.(paragraphs := FrameParagraphs(s))
  }

  predicate HasIdx(idx: nat, ph: Placeholder) {
    ph.idx == idx
  }

  /** The placeholders with paragraph `j` of placeholder `i` replaced by `q`. */
  function WithParagraph(phs: seq<Placeholder>, i: nat, j: nat, q: Paragraph): (r: seq<Placeholder>)
    requires i < |phs| && j < |phs[i].paragraphs|
    ensures |r| == |phs| && |r[i].paragraphs| == |phs[i].paragraphs| && r[i].paragraphs[j] == q
  {
    phs[i := phs[i].(paragraphs := phs[i].paragraphs[j := q])]
  }

  /** Replacing the same paragraph twice keeps only the second replacement. */
  lemma WithParagraphTwice(phs: seq<Placeholder>, i: nat, j: nat, q1: Paragraph, q2: Paragraph)
    requires i < |phs| && j < |phs[i].paragraphs|
    ensures WithParagraph(WithParagraph(phs, i, j, q1), i, j, q2) == WithParagraph(phs, i, j, q2)
  {
    var ph := phs[i];
    UpdateTwice(ph.paragraphs, j, q1, q2);
    UpdateTwice(phs, i, ph.(paragraphs := ph.paragraphs[j := q1]), ph.(paragraphs := ph.paragraphs[j := q2]));
  }

  /** The test `slide.placeholders[idx]` looks placeholders up by. */
  function IdxMatcher(idx: nat): Placeholder -> bool {
    (ph: Placeholder) => HasIdx(idx, ph)
  }

  /** A slide: its placeholders, in the order `slide.placeholders` yields them, and the pictures added to it. */
  class Slide {
    var placeholders: seq<Placeholder>
    var pictures: seq<Picture>

    /** A new slide starts with the placeholders its layout gives it and no pictures. */
    constructor (layout: Layout)
      ensures placeholders == layout.slidePlaceholders && pictures == []
    {
      placeholders := layout.slidePlaceholders;
      pictures := [];
    }

    /** Iterating the placeholders until the first one satisfying `p`. */
    method FindPlaceholder(p: Placeholder -> bool) returns (r: Option<nat>)
      ensures r == FirstWhere(placeholders, p)
    {
      var k := 0;
      while k < |placeholders|
        invariant 0 <= k <= |placeholders|
        invariant forall j :: 0 <= j < k ==> !p(placeholders[j])
      {
        if p(placeholders[k]) {
          FirstWhereIs(placeholders, p, k);
          return Some(k);
        }
        k := k + 1;
      }
      FirstWhereNone(placeholders, p);
      return None;
    }

    /** `slide.placeholders[idx]`: the placeholder with that index; `None` where the lookup raises. */
    method PlaceholderByIdx(idx: nat) returns (r: Option<nat>)
      ensures r == FirstWhere(placeholders, IdxMatcher(idx))
    {
      r := FindPlaceholder(IdxMatcher(idx));
    }

    /** Setting the text of placeholder `i`'s frame. */
    method SetText(i: nat, s: string)
      requires i < |placeholders|
      modifies this
      ensures placeholders == old(placeholders)[i := WithText(old(placeholders)[i], s)]
      ensures pictures == old(pictures)
    {
      placeholders := placeholders[i := WithText(placeholders[i], s)];
    }

    /** Clearing a text frame: only the first paragraph stays, emptied but keeping its level. */
    method ClearFrame(i: nat)
      requires i < |placeholders| && |placeholders[i].paragraphs| > 0
      modifies this
      ensures placeholders == old(placeholders)[i := old(placeholders)[i].(paragraphs := [Paragraph("", old(placeholders)[i].paragraphs[0].level, [])])]
      ensures pictures == old(pictures)
    {
      var ph := placeholders[i];
      placeholders := placeholders[i := ph.(paragraphs := [Paragraph("", ph.paragraphs[0].level, [])])];
    }

    /** Appending an empty level-0 paragraph to a text frame. */
    method AddParagraph(i: nat)
      requires i < |placeholders|
      modifies this
      ensures placeholders == old(placeholders)[i := old(placeholders)[i].(paragraphs := old(placeholders)[i].paragraphs + [Paragraph("", 0, [])])]
      ensures pictures == old(pictures)
    {
      var ph := placeholders[i];
      placeholders := placeholders[i := ph.(paragraphs := ph.paragraphs + [Paragraph("", 0, [])])];
    }

    /** Setting a paragraph's text: its runs are replaced, its level kept. */
    method SetParagraphText(i: nat, j: nat, s: string)
      requires i < |placeholders| && j < |placeholders[i].paragraphs|
      modifies this
      ensures placeholders == WithParagraph(old(placeholders), i, j, NewParagraph(s).(level := old(placeholders)[i].paragraphs[j].level))
      ensures pictures == old(pictures)
    {
      placeholders := WithParagraph(placeholders, i, j, NewParagraph(s).(level := placeholders[i].paragraphs[j].level));
    }

    method SetParagraphLevel(i: nat, j: nat, level: nat)
      requires i < |placeholders| && j < |placeholders[i].paragraphs|
      modifies this
      ensures placeholders == WithParagraph(old(placeholders), i, j, old(placeholders)[i].paragraphs[j].(level := level))
      ensures pictures == old(pictures)
    {
      placeholders := WithParagraph(placeholders, i, j, placeholders[i].paragraphs[j].(level := level));
    }

    /** Appending an empty, unstyled run to a paragraph. */
    method AddRun(i: nat, j: nat)
      requires i < |placeholders| && j < |placeholders[i].paragraphs|
      modifies this
      ensures placeholders == WithParagraph(old(placeholders), i, j, old(placeholders)[i].paragraphs[j].(runs := old(placeholders)[i].paragraphs[j].runs + [None]))
      ensures pictures == old(pictures)
    {
      var q := placeholders[i].paragraphs[j];
      placeholders := WithParagraph(placeholders, i, j, q.(runs := q.runs + [None]));
    }

    /** Setting the font name, size and colour of one run. */
    method SetRunStyle(i: nat, j: nat, k: nat, style: RunStyle)
      requires i < |placeholders| && j < |placeholders[i].paragraphs| && k < |placeholders[i].paragraphs[j].runs|
      modifies this
      ensures placeholders == WithParagraph(old(placeholders), i, j, old(placeholders)[i].paragraphs[j].(runs := old(placeholders)[i].paragraphs[j].runs[k := Some(style)]))
      ensures pictures == old(pictures)
    {
      var q := placeholders[i].paragraphs[j];
      placeholders := WithParagraph(placeholders, i, j, q.(runs := q.runs[k := Some(style)]));
    }

    /** Adding a picture shape. */
    method AddPicture(pic: Picture)
      modifies this
      ensures pictures == old(pictures) + [pic]
      ensures placeholders == old(placeholders)
    {
      pictures := pictures + [pic];
    }
  }

  /** A presentation: the slide layouts of its template and the slides added so far. */
  class Presentation {
    const layouts: seq<Layout>
    var slides: seq<Slide>

    constructor (layouts: seq<Layout>)
      ensures this.layouts == layouts && slides == []
    {
      this.layouts := layouts;
      slides := [];
    }

    /** Adding a slide from layout `k`: a new slide, placed last. */
    method AddSlide(k: nat) returns (s: Slide)
      requires k < |layouts|
      modifies this
      ensures fresh(s) && slides == old(slides) + [s]
      ensures s.placeholders == layouts[k].slidePlaceholders && s.pictures == []
    {
      s := new Slide(layouts[k]);
      slides := slides + [s];
    }
  }
}
