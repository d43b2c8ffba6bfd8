/**
  Choosing the slide layout for a layout type: a fixed layout index when the
  template has that many layouts, then a search by layout name, then layout 1,
  then layout 0. Also the listing of a template's layouts with their placeholders.
*/
module Layouts {
  import opened Wrappers
  import opened Text
  import opened DeckModel
  import opened Pptx

  /** The layout index each layout type prefers in a standard template. */
  function LayoutIndex(t: LayoutType): nat {
    match t
    case TITLE => 0
    case TITLE_CONTENT => 1
    case SECTION => 2
    case TWO_COL => 3
    case IMAGE_FOCUS => 1
    case TABLE => 1
    case CHART => 1
    case BLANK => 6
  }

  /** The layout names searched for, in order, when the preferred index is out of range. */
  function NameHints(t: LayoutType): seq<string> {
    match t
    case TITLE => ["Title Slide", "Title Only"]
    case TITLE_CONTENT => ["Title and Content", "Content with Caption"]
    case SECTION => ["Section Header", "Title Only"]
    case TWO_COL => ["Two Content", "Comparison"]
    case BLANK => ["Blank"]
    case _ => []
  }

  /** A layout matches a name when its lower-cased name contains the lower-cased name. */
  function NameMatcher(hint: string): Layout -> bool {
    (l: Layout) => Contains(Lower(l.name), Lower(hint))
  }

  /** The first name (in order) that some layout matches, and the first layout matching it. */
  function FindByName(layouts: seq<Layout>, hints: seq<string>): (r: Option<nat>)
    ensures r.Some? ==> r.value < |layouts|
    ensures r.Some? ==> exists i :: 0 <= i < |hints| && NameMatcher(hints[i])(layouts[r.value])
    ensures r.None? ==> forall i, k :: 0 <= i < |hints| && 0 <= k < |layouts| ==> !NameMatcher(hints[i])(layouts[k])
  {
    if |hints| == 0 then None
    else
      match FirstWhere(layouts, NameMatcher(hints[0]))
      case Some(k) => Some(k)
      case None =>
        var r := FindByName(layouts, hints[1..]);
        assert forall i :: 1 <= i < |hints| ==> hints[i] == hints[1..][i - 1];
        r
  }

  /**
    Name `hints[i]` picks layout `k` when the names are tried in order and, for each,
    the layouts in order: no earlier name matches any layout, and no earlier layout
    matches `hints[i]`.
  */
  ghost predicate FirstNameMatch(layouts: seq<Layout>, hints: seq<string>, i: nat, k: nat) {
    && i < |hints| && k < |layouts|
    && NameMatcher(hints[i])(layouts[k])
    && (forall i', k' :: 0 <= i' < i && 0 <= k' < |layouts| ==> !NameMatcher(hints[i'])(layouts[k']))
    && (forall k' :: 0 <= k' < k ==> !NameMatcher(hints[i])(layouts[k']))
  }

  /** The layout found by name is the first match of the first name that matches anything. */
  lemma {:induction false} FindByNameFirst(layouts: seq<Layout>, hints: seq<string>)
    ensures FindByName(layouts, hints).Some? ==> exists i: nat :: FirstNameMatch(layouts, hints, i, FindByName(layouts, hints).value)
    decreases |hints|
  {
    if |hints| > 0 {
      match FirstWhere(layouts, NameMatcher(hints[0]))
      case Some(k) =>
        assert FirstNameMatch(layouts, hints, 0, k);
      case None =>
        var r := FindByName(layouts, hints[1..]);
        FindByNameFirst(layouts, hints[1..]);
        if r.Some? {
          var i: nat :| FirstNameMatch(layouts, hints[1..], i, r.value);
          assert hints[i + 1] == hints[1..][i];
          forall i', k' | 0 <= i' < i + 1 && 0 <= k' < |layouts|
            ensures !NameMatcher(hints[i'])(layouts[k'])
          {
            if i' > 0 {
              assert hints[i'] == hints[1..][i' - 1];
            }
          }
          assert FirstNameMatch(layouts, hints, i + 1, r.value);
        }
    }
  }

  /** Conversely, the first match of the first matching name is the layout found. */
  lemma {:induction false} FindByNameChooses(layouts: seq<Layout>, hints: seq<string>, i: nat, k: nat)
    requires FirstNameMatch(layouts, hints, i, k)
    ensures FindByName(layouts, hints) == Some(k)
    decreases i
  {
    if i == 0 {
      FirstWhereIs(layouts, NameMatcher(hints[0]), k);
    } else {
      FirstWhereNone(layouts, NameMatcher(hints[0]));
      forall i', k' | 0 <= i' < i - 1 && 0 <= k' < |layouts|
        ensures !NameMatcher(hints[1..][i'])(layouts[k'])
      {
        assert hints[1..][i'] == hints[i' + 1];
      }
      assert hints[1..][i - 1] == hints[i];
      assert FirstNameMatch(layouts, hints[1..], i - 1, k);
      FindByNameChooses(layouts, hints[1..], i - 1, k);
    }
  }

  /**
    The layout chosen for `t` among a template's layouts: the preferred index if it
    exists, else the first layout found by name, else layout 1, else layout 0.
  */
  function GetLayout(layouts: seq<Layout>, t: LayoutType): (r: Option<nat>)
    ensures r.None? <==> |layouts| == 0
    ensures r.Some? ==> r.value < |layouts|
    ensures LayoutIndex(t) < |layouts| ==> r == Some(LayoutIndex(t))
  {
    var index := LayoutIndex(t);
    if index < |layouts| then Some(index)
    else
      match FindByName(layouts, NameHints(t))
      case Some(k) => Some(k)
      case None =>
        if |layouts| > 1 then Some(1)
        else if |layouts| > 0 then Some(0)
        else None
  }

  /** Past the preferred index, a layout found by name wins; without one, layout 1, then layout 0. */
  lemma GetLayoutFallback(layouts: seq<Layout>, t: LayoutType)
    requires |layouts| <= LayoutIndex(t)
    ensures FindByName(layouts, NameHints(t)).Some? ==> GetLayout(layouts, t) == FindByName(layouts, NameHints(t))
    ensures FindByName(layouts, NameHints(t)).None? && |layouts| > 1 ==> GetLayout(layouts, t) == Some(1)
    ensures FindByName(layouts, NameHints(t)).None? && |layouts| == 1 ==> GetLayout(layouts, t) == Some(0)
  {
  }

  /**
    Layout names only decide the outcome for SECTION, TWO_COL and BLANK: for every other
    type the preferred index is at most 1, so a search can only run over a template with
    at most one layout, where every tier gives layout 0.
  */
  lemma {:induction false} NamesMatterOnlyFor(layouts: seq<Layout>, t: LayoutType)
    requires t !in {SECTION, TWO_COL, BLANK}
    ensures GetLayout(layouts, t) == if LayoutIndex(t) < |layouts| then Some(LayoutIndex(t)) else if |layouts| > 0 then Some(0) else None
  {
    assert LayoutIndex(t) <= 1;
  }

  /** A template with too few layouts and a "Blank" one gets that one for BLANK, whatever comes before it. */
  lemma BlankByName(layouts: seq<Layout>, k: nat)
    requires |layouts| <= 6 && k < |layouts| && layouts[k].name == "Blank"
    requires forall j :: 0 <= j < k ==> !Contains(Lower(layouts[j].name), "blank")
    ensures GetLayout(layouts, BLANK) == Some(k)
  {
    var hint := "Blank";
    assert Lower(hint) == "blank";
    assert OccursAt(Lower(layouts[k].name), "blank", 0);
    assert NameMatcher(hint)(layouts[k]);
    FirstWhereIs(layouts, NameMatcher(hint), k);
  }

  /** Retrying with TITLE_CONTENT after a type resolves to nothing resolves to nothing as well. */
  lemma RetryNeverResolves(layouts: seq<Layout>, t: LayoutType)
    requires GetLayout(layouts, t).None?
    ensures GetLayout(layouts, TITLE_CONTENT).None?
  {
  }

  /** What the listing says about one placeholder of a layout. */
  datatype PlaceholderInfo = PlaceholderInfo(index: nat, kind: string, name: string)

  /** What the listing says about one layout: its position, its name and its placeholders. */
  datatype LayoutInfo = LayoutInfo(index: nat, name: string, placeholders: seq<PlaceholderInfo>)

  function InfoOf(ph: LayoutPlaceholder): PlaceholderInfo {
    PlaceholderInfo(ph.idx, ph.kind, ph.name)
  }

  /** Listing the layouts of a presentation: one entry per layout, in order, numbered by position. */
  method GetAvailableLayouts(prs: Presentation) returns (infos: seq<LayoutInfo>)
    ensures |infos| == |prs.layouts|
    ensures forall i :: 0 <= i < |infos| ==> infos[i].index == i && infos[i].name == prs.layouts[i].name
    ensures forall i :: 0 <= i < |infos| ==> |infos[i].placeholders| == |prs.layouts[i].placeholders|
    ensures forall i, j :: 0 <= i < |infos| && 0 <= j < |infos[i].placeholders| ==>
      infos[i].placeholders[j] == InfoOf(prs.layouts[i].placeholders[j])
  {
    infos := [];
    var i := 0;
    while i < |prs.layouts|
      invariant 0 <= i <= |prs.layouts| && |infos| == i
      invariant forall m :: 0 <= m < i ==> infos[m].index == m && infos[m].name == prs.layouts[m].name
      invariant forall m :: 0 <= m < i ==> |infos[m].placeholders| == |prs.layouts[m].placeholders|
      invariant forall m, j :: 0 <= m < i && 0 <= j < |infos[m].placeholders| ==>
        infos[m].placeholders[j] == InfoOf(prs.layouts[m].placeholders[j])
    {
      var layout := prs.layouts[i];
      var phs: seq<PlaceholderInfo> := [];
      var j := 0;
      while j < |layout.placeholders|
        invariant 0 <= j <= |layout.placeholders| && |phs| == j
        invariant forall n :: 0 <= n < j ==> phs[n] == InfoOf(layout.placeholders[n])
      {
        phs := phs + [InfoOf(layout.placeholders[j])];
        j := j + 1;
      }
      infos := infos + [LayoutInfo(i, layout.name, phs)];
      i := i + 1;
    }
  }
}
