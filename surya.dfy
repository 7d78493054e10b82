/**
 * The Surya pipeline: typing an OCR line by the first overlapping layout
 * region whose label names a type, the table and figure elements of the
 * layout, the reading order (the OCR line matched to each reading-order
 * box, or the lines sorted top to bottom when there is no reading order),
 * and the PyMuPDF fallback with its small-image filter.
 */
module Surya {

  import opened Wrappers
  import opened Text
  import opened Geometry
  import opened Elements
  import opened Blocks
  import opened Docling

  /** A region of the layout result: `zip(bboxes, labels)`. */
  datatype Region = Region(box: BBox, name: string)

  /** A region decides the type of a box when it overlaps the box and its
      label names a type. */
  predicate Decides(box: BBox, r: Region) {
    Overlap(box, r.box) && NamedKind(r.name).Some?
  }

  /** The type given by the first region that decides. */
  function FirstRegionKind(box: BBox, regions: seq<Region>): Option<string> {
    if regions == [] then None
    else if Decides(box, regions[0]) then NamedKind(regions[0].name)
    else FirstRegionKind(box, regions[1..])
  }

  /** No type comes out exactly when no region decides. */
  lemma {:induction false} FirstRegionKindNone(box: BBox, regions: seq<Region>)
    ensures FirstRegionKind(box, regions).None? <==> forall i :: 0 <= i < |regions| ==> !Decides(box, regions[i])
  {
    if regions != [] && !Decides(box, regions[0]) {
      FirstRegionKindNone(box, regions[1..]);
      assert forall i :: 1 <= i < |regions| ==> regions[i] == regions[1..][i - 1];
    }
  }

  /** The region that decides is the first one that can. */
  lemma {:induction false} FirstRegionKindSome(box: BBox, regions: seq<Region>)
    requires FirstRegionKind(box, regions).Some?
    ensures exists i :: (0 <= i < |regions| && Decides(box, regions[i]) && NamedKind(regions[i].name) == FirstRegionKind(box, regions)
                         && forall j :: 0 <= j < i ==> !Decides(box, regions[j]))
  {
    if !Decides(box, regions[0]) {
      var rest := regions[1..];
      FirstRegionKindSome(box, rest);
      var i :| 0 <= i < |rest| && Decides(box, rest[i]) && NamedKind(rest[i].name) == FirstRegionKind(box, rest)
        && forall j :: 0 <= j < i ==> !Decides(box, rest[j]);
      assert regions[i + 1] == rest[i];
      assert forall j :: 1 <= j <= i ==> regions[j] == rest[j - 1];
    } else {
      assert Decides(box, regions[0]);
    }
  }

  /** The type `_classify_from_layout` gives: text without a layout result
      (`None`), or when no region decides. */
  function LayoutKind(box: BBox, layout: Option<seq<Region>>): string {
    match layout
    case None => "text"
    case Some(regions) =>
      match FirstRegionKind(box, regions)
      case Some(k) => k
      case None => "text"
  }

  lemma {:induction false} FirstRegionKindRange(box: BBox, regions: seq<Region>)
    ensures FirstRegionKind(box, regions).Some? ==> FirstRegionKind(box, regions).value in {"title", "header", "table", "list", "image"}
  {
    if regions != [] {
      FirstRegionKindRange(box, regions[1..]);
    }
  }

  /** The layout type is one of the six element types. */
  lemma LayoutKindRange(box: BBox, layout: Option<seq<Region>>)
    ensures LayoutKind(box, layout) in {"title", "header", "table", "list", "image", "text"}
  {
    if layout.Some? {
      FirstRegionKindRange(box, layout.value);
    }
  }

  /** `_classify_from_layout`: the search loop with its early return. */
  method ClassifyFromLayout(box: BBox, layout: Option<seq<Region>>) returns (kind: string)
    ensures kind == LayoutKind(box, layout)
    ensures kind in {"title", "header", "table", "list", "image", "text"}
    ensures layout.None? ==> kind == "text"
  {
    LayoutKindRange(box, layout);
    if layout.None? {
      return "text";
    }
    var regions := layout.value;
    var i := 0;
    while i < |regions|
      invariant 0 <= i <= |regions|
      invariant FirstRegionKind(box, regions) == FirstRegionKind(box, regions[i..])
    {
      assert regions[i..][1..] == regions[i + 1..];
      if Overlap(box, regions[i].box) {
        var k := NamedKind(regions[i].name);
        if k.Some? {
          assert Decides(box, regions[i]);
          return k.value;
        }
      }
      i := i + 1;
    }
    return "text";
  }

  /** The element type of a layout label: `Table` is a table, `Figure` and
      `Chart` are images, and no other label yields a layout element. */
  function LabelElementKind(name: string): (r: Option<string>)
    ensures r == Some("table") <==> name == "Table"
    ensures r == Some("image") <==> name == "Figure" || name == "Chart"
    ensures r.None? <==> name !in {"Table", "Figure", "Chart"}
  {
    if name in ["Table", "Figure", "Chart"] then Some(if name == "Table" then "table" else "image") else None
  }

  function LayoutElement(n: nat, i: nat, r: Region): seq<Element> {
    match LabelElementKind(r.name)
    case None => []
    case Some(k) =>
      [Element("page_" + NatToString(n) + "_layout_" + NatToString(i), k, "[" + r.name + " detected at layout analysis]", r.box, n, 0.85)]
  }

  function LayoutElements(n: nat, regions: seq<Region>): seq<Element> {
    if regions == [] then []
    else LayoutElements(n, regions[..|regions| - 1]) + LayoutElement(n, |regions| - 1, regions[|regions| - 1])
  }

  /** Layout elements are tables and images only, one per table, figure or
      chart region at most. */
  lemma {:induction false} LayoutElementsKinds(n: nat, regions: seq<Region>)
    ensures forall e :: e in LayoutElements(n, regions) ==> e.kind in {"table", "image"} && e.page == n
    ensures |LayoutElements(n, regions)| <= |regions|
  {
    if regions != [] {
      LayoutElementsKinds(n, regions[..|regions| - 1]);
    }
  }

  /** The layout loop: one element per table, figure or chart region. */
  method CollectLayoutElements(n: nat, layout: Option<seq<Region>>) returns (elements: seq<Element>)
    ensures layout.None? ==> elements == []
    ensures layout.Some? ==> elements == LayoutElements(n, layout.value)
  {
    elements := [];
    if layout.None? {
      return;
    }
    var regions := layout.value;
    var i := 0;
    while i < |regions|
      invariant 0 <= i <= |regions|
      invariant elements == LayoutElements(n, regions[..i])
    {
      ghost var prefix := regions[..i + 1];
      assert prefix[..i] == regions[..i] && prefix[i] == regions[i];
      assert LayoutElements(n, prefix) == elements + LayoutElement(n, i, regions[i]);
      var k := LabelElementKind(regions[i].name);
      if k.Some? {
        elements := elements + [Element("page_" + NatToString(n) + "_layout_" + NatToString(i), k.value,
                                        "[" + regions[i].name + " detected at layout analysis]", regions[i].box, n, 0.85)];
      }
      i := i + 1;
    }
    assert regions[..i] == regions;
  }

  /** An OCR text line; `confidence` is `None` when the line has no
      `confidence` attribute. */
  datatype TextLine = TextLine(text: string, box: BBox, confidence: Option<real>)

  /** `getattr(text_line, 'confidence', 0.90)` */
  function LineConfidence(l: TextLine): (c: real)
    ensures l.confidence.Some? ==> c == l.confidence.value
    ensures l.confidence.None? ==> c == 0.90
  {
    match l.confidence
    case Some(c) => c
    case None => 0.90
  }

  /** A line with its position in the reading order (or in the OCR list). */
  datatype Ordered = Ordered(index: nat, line: TextLine)

  /** The first OCR line that overlaps a reading-order box. */
  function FirstOverlapping(box: BBox, lines: seq<TextLine>): (r: Option<TextLine>)
    ensures r.Some? ==> r.value in lines && Overlap(box, r.value.box)
    ensures r.None? ==> forall l :: l in lines ==> !Overlap(box, l.box)
  {
    if lines == [] then None
    else if Overlap(box, lines[0].box) then Some(lines[0])
    else FirstOverlapping(box, lines[1..])
  }

  /** The reading order: for the `i`-th reading-order box, the first OCR
      line overlapping it, tagged `i`. */
  function MatchOrder(orderBoxes: seq<BBox>, lines: seq<TextLine>): seq<Ordered> {
    if orderBoxes == [] then []
    else
      var i := |orderBoxes| - 1;
      MatchOrder(orderBoxes[..i], lines) + (match FirstOverlapping(orderBoxes[i], lines) case Some(l) => [Ordered(i, l)] case None => [])
  }

  /** Matched lines come in reading order, each overlapping its box, and
      each an OCR line; at most one line per box. */
  lemma {:induction false} MatchOrderSpec(orderBoxes: seq<BBox>, lines: seq<TextLine>)
    ensures |MatchOrder(orderBoxes, lines)| <= |orderBoxes|
    ensures forall k :: 0 <= k < |MatchOrder(orderBoxes, lines)| ==>
      var o := MatchOrder(orderBoxes, lines)[k];
      o.index < |orderBoxes| && o.line in lines && Overlap(orderBoxes[o.index], o.line.box)
    ensures forall j, k :: 0 <= j < k < |MatchOrder(orderBoxes, lines)| ==>
      MatchOrder(orderBoxes, lines)[j].index < MatchOrder(orderBoxes, lines)[k].index
  {
    if orderBoxes != [] {
      var i := |orderBoxes| - 1;
      MatchOrderSpec(orderBoxes[..i], lines);
      assert forall j :: 0 <= j < i ==> orderBoxes[..i][j] == orderBoxes[j];
    }
  }

  /** The inner loop with its `break`. */
  method FindOverlapping(box: BBox, lines: seq<TextLine>) returns (r: Option<TextLine>)
    ensures r == FirstOverlapping(box, lines)
  {
    var j := 0;
    while j < |lines|
      invariant 0 <= j <= |lines|
      invariant FirstOverlapping(box, lines) == FirstOverlapping(box, lines[j..])
    {
      assert lines[j..][1..] == lines[j + 1..];
      if Overlap(box, lines[j].box) {
        return Some(lines[j]);
      }
      j := j + 1;
    }
    return None;
  }

  /** The reading-order loop of the Surya branch. */
  method OrderByReading(orderBoxes: seq<BBox>, lines: seq<TextLine>) returns (ordered: seq<Ordered>)
    ensures ordered == MatchOrder(orderBoxes, lines)
  {
    ordered := [];
    var i := 0;
    while i < |orderBoxes|
      invariant 0 <= i <= |orderBoxes|
      invariant ordered == MatchOrder(orderBoxes[..i], lines)
    {
      assert orderBoxes[..i + 1][..i] == orderBoxes[..i];
      var found := FindOverlapping(orderBoxes[i], lines);
      if found.Some? {
        ordered := ordered + [Ordered(i, found.value)];
      }
      i := i + 1;
    }
    assert orderBoxes[..i] == orderBoxes;
  }

  /** `[(i, line) for i, line in enumerate(lines)]` */
  function Enumerate(lines: seq<TextLine>): (r: seq<Ordered>)
    ensures |r| == |lines|
    ensures forall k :: 0 <= k < |r| ==> r[k] == Ordered(k, lines[k])
  {
    if lines == [] then [] else Enumerate(lines[..|lines| - 1]) + [Ordered(|lines| - 1, lines[|lines| - 1])]
  }

  function Y(o: Ordered): real { o.line.box.y1 }

  predicate SortedByY(s: seq<Ordered>) {
    forall j, k :: 0 <= j < k < |s| ==> Y(s[j]) <= Y(s[k])
  }

  /** Sorted by y, and lines at the same height keep their original order. */
  predicate StablySorted(s: seq<Ordered>) {
    forall j, k :: 0 <= j < k < |s| ==> Y(s[j]) < Y(s[k]) || (Y(s[j]) == Y(s[k]) && s[j].index < s[k].index)
  }

  /** `x` placed before the first entry lying strictly lower. */
  function Insert(x: Ordered, s: seq<Ordered>): (r: seq<Ordered>)
    ensures multiset(r) == multiset(s) + multiset{x}
    ensures |r| == |s| + 1
  {
    if s == [] then [x]
    else if Y(x) < Y(s[0]) then [x] + s
    else
      assert s == [s[0]] + s[1..];
      [s[0]] + Insert(x, s[1..])
  }

  lemma {:induction false} InsertStable(x: Ordered, s: seq<Ordered>)
    requires StablySorted(s)
    requires forall k :: 0 <= k < |s| ==> s[k].index < x.index
    ensures StablySorted(Insert(x, s))
  {
    if s != [] && !(Y(x) < Y(s[0])) {
      InsertStable(x, s[1..]);
      var r := Insert(x, s);
      var t := Insert(x, s[1..]);
      assert r == [s[0]] + t;
      forall k | 0 < k < |r| ensures Y(r[0]) < Y(r[k]) || (Y(r[0]) == Y(r[k]) && r[0].index < r[k].index) {
        assert r[k] == t[k - 1];
        var m := FromInsert(x, s[1..], k - 1);
        if t[k - 1] != x {
          assert s[m + 1] == r[k];
        }
      }
    }
  }

  /** Each entry of `Insert(x, s)` is `x` or the entry `m` of `s`. */
  lemma FromInsert(x: Ordered, s: seq<Ordered>, k: nat) returns (m: nat)
    requires k < |Insert(x, s)|
    ensures Insert(x, s)[k] == x || (m < |s| && s[m] == Insert(x, s)[k])
  {
    var y := Insert(x, s)[k];
    assert y in multiset(Insert(x, s));
    m := 0;
    if y != x {
      assert y in multiset(s);
      m :| m < |s| && s[m] == y;
    }
  }

  /** `ordered_lines.sort(key=lambda x: x[1].bbox[1])`: Python's sort is
      stable, so this is the insertion of each entry after all entries not
      lower than it. */
  function SortByY(s: seq<Ordered>): (r: seq<Ordered>)
    ensures multiset(r) == multiset(s)
    ensures |r| == |s|
  {
    if s == [] then []
    else
      assert s == s[..|s| - 1] + [s[|s| - 1]];
      Insert(s[|s| - 1], SortByY(s[..|s| - 1]))
  }

  /** The sorted lines are a permutation of the input, ordered top to
      bottom, with ties in their original order. */
  lemma {:induction false} SortByYSpec(s: seq<Ordered>)
    requires forall j, k :: 0 <= j < k < |s| ==> s[j].index < s[k].index
    ensures StablySorted(SortByY(s))
    ensures SortedByY(SortByY(s))
    ensures multiset(SortByY(s)) == multiset(s)
  {
    if s != [] {
      var p := s[..|s| - 1];
      var x := s[|s| - 1];
      SortByYSpec(p);
      var sp := SortByY(p);
      forall k | 0 <= k < |sp| ensures sp[k].index < x.index {
        assert sp[k] in multiset(p);
        var m :| 0 <= m < |p| && p[m] == sp[k];
      }
      InsertStable(x, sp);
    }
  }

  /** Without a reading order, the OCR lines sorted by their top edge. */
  lemma YOrderFallback(lines: seq<TextLine>)
    ensures SortedByY(SortByY(Enumerate(lines)))
    ensures StablySorted(SortByY(Enumerate(lines)))
    ensures multiset(SortByY(Enumerate(lines))) == multiset(Enumerate(lines))
  {
    SortByYSpec(Enumerate(lines));
  }

  /** One page of the Surya results: its OCR lines, its layout regions
      (`None` when the layout result is missing or has no boxes) and its
      reading-order boxes (`None` likewise). */
  datatype SuryaPage = SuryaPage(lines: seq<TextLine>, layout: Option<seq<Region>>, order: Option<seq<BBox>>)

  /** The lines in the order they are processed. */
  function OrderedLines(p: SuryaPage): seq<Ordered> {
    match p.order
    case Some(boxes) => MatchOrder(boxes, p.lines)
    case None => SortByY(Enumerate(p.lines))
  }

  /** The markdown of a line of type `kind` with stripped text `t`. */
  function LineMarkdown(kind: string, t: string): string {
    if kind == "title" then "# " + t + "\n\n"
    else if kind == "header" then "## " + t + "\n\n"
    else if kind == "list" then "- " + t + "\n"
    else t + "\n\n"
  }

  function LineId(n: nat, i: nat): string {
    "page_" + NatToString(n) + "_line_" + NatToString(i)
  }

  /** A line whose text is not blank yields an element typed by the layout. */
  function LineElement(n: nat, o: Ordered, layout: Option<seq<Region>>): seq<Element> {
    var t := Strip(o.line.text);
    if t == [] then []
    else [Element(LineId(n, o.index), LayoutKind(o.line.box, layout), t, o.line.box, n, LineConfidence(o.line))]
  }

  function LineMd(o: Ordered, layout: Option<seq<Region>>): string {
    var t := Strip(o.line.text);
    if t == [] then "" else LineMarkdown(LayoutKind(o.line.box, layout), t)
  }

  function LineElements(n: nat, os: seq<Ordered>, layout: Option<seq<Region>>): seq<Element> {
    if os == [] then []
    else LineElements(n, os[..|os| - 1], layout) + LineElement(n, os[|os| - 1], layout)
  }

  function LinesMarkdown(os: seq<Ordered>, layout: Option<seq<Region>>): string {
    if os == [] then ""
    else LinesMarkdown(os[..|os| - 1], layout) + LineMd(os[|os| - 1], layout)
  }

  /** At most one element per processed line, and none when every line is
      blank. */
  lemma {:induction false} LineElementsBound(n: nat, os: seq<Ordered>, layout: Option<seq<Region>>)
    ensures |LineElements(n, os, layout)| <= |os|
    ensures (forall o :: o in os ==> Strip(o.line.text) == []) ==> LineElements(n, os, layout) == []
  {
    if os != [] {
      LineElementsBound(n, os[..|os| - 1], layout);
      assert forall o :: o in os[..|os| - 1] ==> o in os;
    }
  }

  /** Line elements carry the page index, a non-empty content and one of the
      six types. */
  lemma {:induction false} LineElementsKinds(n: nat, os: seq<Ordered>, layout: Option<seq<Region>>)
    ensures forall e :: e in LineElements(n, os, layout) ==>
      e.page == n && e.content != [] && e.kind in {"title", "header", "table", "list", "image", "text"}
  {
    if os != [] {
      LineElementsKinds(n, os[..|os| - 1], layout);
      LayoutKindRange(os[|os| - 1].line.box, layout);
    }
  }

  /** Each line element is the stripped text, box and index of a processed
      line. */
  lemma {:induction false} LineElementsOrigin(n: nat, os: seq<Ordered>, layout: Option<seq<Region>>)
    ensures forall e :: e in LineElements(n, os, layout) ==>
      exists o :: o in os && e.content == Strip(o.line.text) && e.box == o.line.box && e.id == LineId(n, o.index)
        && e.confidence == LineConfidence(o.line)
  {
    if os != [] {
      var p := os[..|os| - 1];
      LineElementsOrigin(n, p, layout);
      assert forall o :: o in p ==> o in os;
    }
  }

  /** Every line element lies at or below the box of some processed line,
      and none is above `y` when no processed line is. */
  lemma {:induction false} LineElementsBelow(n: nat, os: seq<Ordered>, layout: Option<seq<Region>>, y: real)
    requires forall k :: 0 <= k < |os| ==> Y(os[k]) <= y
    ensures forall e :: e in LineElements(n, os, layout) ==> e.box.y1 <= y
  {
    if os != [] {
      LineElementsBelow(n, os[..|os| - 1], layout, y);
    }
  }

  /** Without a reading order the elements of a page's lines come top to
      bottom: each element's top edge is at or above the next one's. */
  lemma {:induction false} LineElementsTopToBottom(n: nat, os: seq<Ordered>, layout: Option<seq<Region>>)
    requires SortedByY(os)
    ensures forall j, k :: 0 <= j < k < |LineElements(n, os, layout)| ==>
      LineElements(n, os, layout)[j].box.y1 <= LineElements(n, os, layout)[k].box.y1
  {
    if os != [] {
      var p := os[..|os| - 1];
      var last := os[|os| - 1];
      assert SortedByY(p);
      LineElementsTopToBottom(n, p, layout);
      LineElementsBelow(n, p, layout, Y(last));
      var r := LineElements(n, os, layout);
      var q := LineElements(n, p, layout);
      assert r == q + LineElement(n, last, layout);
      forall j, k | 0 <= j < k < |r| ensures r[j].box.y1 <= r[k].box.y1 {
        if k >= |q| {
          assert r[j] in q;
        } else {
          assert r[j] == q[j] && r[k] == q[k];
        }
      }
    }
  }

  lemma UnorderedPageTopToBottom(n: nat, p: SuryaPage)
    requires p.order.None?
    ensures forall j, k :: 0 <= j < k < |LineElements(n, OrderedLines(p), p.layout)| ==>
      LineElements(n, OrderedLines(p), p.layout)[j].box.y1 <= LineElements(n, OrderedLines(p), p.layout)[k].box.y1
  {
    YOrderFallback(p.lines);
    LineElementsTopToBottom(n, OrderedLines(p), p.layout);
  }

  /** The line loop of one page, with the layout type looked up line by line. */
  method ProcessLines(n: nat, os: seq<Ordered>, layout: Option<seq<Region>>) returns (elements: seq<Element>, md: string)
    ensures elements == LineElements(n, os, layout)
    ensures md == LinesMarkdown(os, layout)
  {
    elements := [];
    md := "";
    var k := 0;
    while k < |os|
      invariant 0 <= k <= |os|
      invariant elements == LineElements(n, os[..k], layout)
      invariant md == LinesMarkdown(os[..k], layout)
    {
      var o := os[k];
      ghost var prefix := os[..k + 1];
      assert prefix[..k] == os[..k] && prefix[k] == o;
      assert LineElements(n, prefix, layout) == elements + LineElement(n, o, layout);
      assert LinesMarkdown(prefix, layout) == md + LineMd(o, layout);
      var t := Strip(o.line.text);
      if t != [] {
        var kind := ClassifyFromLayout(o.line.box, layout);
        elements := elements + [Element(LineId(n, o.index), kind, t, o.line.box, n, LineConfidence(o.line))];
        if kind == "title" {
          md := md + ("# " + t + "\n\n");
        } else if kind == "header" {
          md := md + ("## " + t + "\n\n");
        } else if kind == "list" {
          md := md + ("- " + t + "\n");
        } else {
          md := md + (t + "\n\n");
        }
      }
      k := k + 1;
    }
    assert os[..k] == os;
  }

  function PageLayoutElements(n: nat, layout: Option<seq<Region>>): seq<Element> {
    match layout
    case Some(regions) => LayoutElements(n, regions)
    case None => []
  }

  /** A page gives its line elements, then its layout elements. */
  function SuryaPageElements(n: nat, p: SuryaPage): seq<Element> {
    LineElements(n, OrderedLines(p), p.layout) + PageLayoutElements(n, p.layout)
  }

  /** The layout elements add nothing to the markdown. */
  function SuryaPageMarkdown(n: nat, p: SuryaPage): string {
    PageHeading(n) + LinesMarkdown(OrderedLines(p), p.layout)
  }

  function SuryaDocElements(pages: seq<SuryaPage>): seq<Element> {
    if pages == [] then []
    else SuryaDocElements(pages[..|pages| - 1]) + SuryaPageElements(|pages| - 1, pages[|pages| - 1])
  }

  function SuryaDocMarkdown(pages: seq<SuryaPage>): string {
    if pages == [] then ""
    else SuryaDocMarkdown(pages[..|pages| - 1]) + SuryaPageMarkdown(|pages| - 1, pages[|pages| - 1])
  }

  /** One iteration of the page loop of `extract`. */
  method ProcessSuryaPage(n: nat, p: SuryaPage) returns (elements: seq<Element>, md: string)
    ensures elements == SuryaPageElements(n, p)
    ensures md == SuryaPageMarkdown(n, p)
  {
    var ordered: seq<Ordered>;
    if p.order.Some? {
      ordered := OrderByReading(p.order.value, p.lines);
    } else {
      ordered := SortByY(Enumerate(p.lines));
    }
    var lineElements, lineMd := ProcessLines(n, ordered, p.layout);
    var layoutElements := CollectLayoutElements(n, p.layout);
    elements := lineElements + layoutElements;
    md := PageHeading(n) + lineMd;
  }

  /** The Surya branch of `extract`: `None` stands for models that are not
      loaded or a run that raises, and then the PyMuPDF fallback's result
      `fallback` is returned.  Otherwise the elements and markdown are those
      of the pages in order and the metadata counts pages, elements and
      elements per type. */
  method Extract(results: Option<seq<SuryaPage>>, fallback: Extraction) returns (r: Extraction)
    ensures results.None? ==> r == fallback
    ensures results.Some? ==> (r.success && r.elements == SuryaDocElements(results.value)
                               && r.markdown == SuryaDocMarkdown(results.value))
    ensures results.Some? ==> r.metadata == Metadata(|results.value|, |r.elements|, Tally(Kinds(r.elements)), AverageConfidence(r.elements, 0.90))
  {
    if results.None? {
      return fallback;
    }
    var pages := results.value;
    var markdown := "";
    var elements: seq<Element> := [];
    var n := 0;
    while n < |pages|
      invariant 0 <= n <= |pages|
      invariant elements == SuryaDocElements(pages[..n])
      invariant markdown == SuryaDocMarkdown(pages[..n])
    {
      ghost var prefix := pages[..n + 1];
      assert prefix[..n] == pages[..n] && prefix[n] == pages[n];
      var pageElements, pageMd := ProcessSuryaPage(n, pages[n]);
      elements := elements + pageElements;
      markdown := markdown + pageMd;
      n := n + 1;
    }
    assert pages[..n] == pages;
    var counts := CountByType(elements);
    r := Extraction(markdown, elements, Metadata(|pages|, |elements|, counts, AverageConfidence(elements, 0.90)), true);
  }

  /** Every element of the Surya branch has one of the six types and the
      index of a page of the document. */
  lemma {:induction false} SuryaDocKinds(pages: seq<SuryaPage>)
    ensures forall e :: e in SuryaDocElements(pages) ==>
      e.kind in {"title", "header", "table", "list", "image", "text"} && 0 <= e.page < |pages|
  {
    if pages != [] {
      var n := |pages| - 1;
      SuryaDocKinds(pages[..n]);
      LineElementsKinds(n, OrderedLines(pages[n]), pages[n].layout);
      if pages[n].layout.Some? {
        LayoutElementsKinds(n, pages[n].layout.value);
      }
    }
  }
}
