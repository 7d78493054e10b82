/**
 * The enhanced app: its three classifiers (Docling style from font size,
 * Surya style from OCR text and box height, scientific from detectors and
 * section words), the block elements of its Docling- and MinerU-style
 * extractors, its OCR page with the text-extraction fallback, and the
 * per-model loop of its extraction endpoint.
 */
module Enhanced {

  import opened Wrappers
  import opened Text
  import opened Geometry
  import opened Elements
  import opened Blocks
  import opened Sections
  import opened Latex
  import Mineru
  import Docling
  import References
  import opened Api

  /** The prefixes `classify_element_docling_style` reads as a list item. */
  const ListMarkers: seq<string> := ["•", "-", "1.", "2.", "3.", "4.", "5."]

  /** `classify_element_docling_style` (its `text_lower` is not used): a
      large font on a short text is a title, any other font above 14 a
      header; then list markers, then a short text near the top is a
      header; all tests read the raw text. */
  function ClassifyDoclingStyle(text: string, fontSize: real, box: BBox): (kind: string)
    ensures kind in {"title", "header", "list", "text"}
    ensures kind == "title" <==> fontSize > 16.0 && |text| < 100
    ensures kind == "list" <==> fontSize <= 14.0 && StartsWithAny(text, ListMarkers)
    ensures kind == "header" <==> (!(fontSize > 16.0 && |text| < 100)
      && (fontSize > 14.0 || (!StartsWithAny(text, ListMarkers) && |text| < 50 && box.y1 < 100.0)))
  {
    if fontSize > 16.0 && |text| < 100 then "title"
    else if fontSize > 14.0 then "header"
    else if StartsWithAny(text, ListMarkers) then "list"
    else if |text| < 50 && box.y1 < 100.0 then "header"
    else "text"
  }

  /** Whatever the text and position, a font above 14 gives a title or a
      header and a font above 16 on a text of 100 characters or more a
      header. */
  lemma LargeFontIsHeading(text: string, fontSize: real, box: BBox)
    requires fontSize > 14.0
    ensures ClassifyDoclingStyle(text, fontSize, box) in {"title", "header"}
    ensures |text| >= 100 ==> ClassifyDoclingStyle(text, fontSize, box) == "header"
  {
  }

  /** `classify_element_surya_style`: a text under 10 characters is a label
      whatever its box, a box under 20 points high a caption, a short
      upper-case text a header. */
  function ClassifySuryaStyle(text: string, box: BBox): (kind: string)
    ensures kind in {"label", "caption", "header", "text"}
    ensures kind == "label" <==> |text| < 10
    ensures kind == "caption" <==> |text| >= 10 && box.y2 - box.y1 < 20.0
    ensures kind == "header" <==> |text| >= 10 && box.y2 - box.y1 >= 20.0 && IsUpper(text) && |text| < 50
  {
    if |text| < 10 then "label"
    else if box.y2 - box.y1 < 20.0 then "caption"
    else if IsUpper(text) && |text| < 50 then "header"
    else "text"
  }

  /** The caption prefixes of `classify_element_scientific`. */
  const CaptionPrefixes: seq<string> := ["fig", "figure", "table", "chart"]

  /** `classify_element_scientific`; `formula` and `citation` are the
      results of `contains_formula` and `contains_citation` on the text. */
  function ClassifyScientific(text: string, box: BBox, formula: bool, citation: bool): (kind: string)
    ensures kind in {"equation", "citation", "header", "caption", "title", "text"}
    ensures kind == "equation" <==> formula
    ensures kind == "citation" <==> !formula && citation
    ensures kind == "header" <==> !formula && !citation && AppAcademicSection(text)
    ensures kind == "caption" <==> (!formula && !citation && !AppAcademicSection(text)
      && StartsWithAny(Normalized(text), CaptionPrefixes))
    ensures kind == "title" <==> (!formula && !citation && !AppAcademicSection(text)
      && !StartsWithAny(Normalized(text), CaptionPrefixes) && |text| < 100 && box.y1 < 150.0)
  {
    if formula then "equation"
    else if citation then "citation"
    else if AppAcademicSection(text) then "header"
    else if StartsWithAny(Normalized(text), CaptionPrefixes) then "caption"
    else if |text| < 100 && box.y1 < 150.0 then "title"
    else "text"
  }

  /** With the same detector results, the app's scientific classifier and
      the MinerU pipeline's agree on equations and citations, every header
      of the app's is a header of the pipeline's, and every caption of the
      app's is a header or a caption there. */
  lemma ScientificAgrees(text: string, box: BBox, formula: bool, citation: bool)
    ensures var app := ClassifyScientific(text, box, formula, citation);
      var pipeline := Mineru.ClassifyScientificBlock(text, box, formula, citation);
      (app == "equation" <==> pipeline == "equation")
      && (app == "citation" <==> pipeline == "citation")
      && (app == "header" ==> pipeline == "header")
      && (app == "caption" ==> pipeline in {"header", "caption"})
  {
    AppAcademicIsAcademic(text);
    var tl := Normalized(text);
    if StartsWithAny(tl, CaptionPrefixes) {
      var i :| 0 <= i < |CaptionPrefixes| && StartsWith(tl, CaptionPrefixes[i]);
      assert StartsWith(tl, ["fig", "figure", "table", "chart"][i]);
    }
  }

  function Sum(xs: seq<real>): real {
    if xs == [] then 0.0 else Sum(xs[..|xs| - 1]) + xs[|xs| - 1]
  }

  /** `sum(font_sizes) / len(font_sizes) if font_sizes else 12` */
  function AverageFontSize(sizes: seq<real>): real {
    if sizes == [] then 12.0 else Sum(sizes) / |sizes| as real
  }

  lemma {:induction false} SumBetween(xs: seq<real>, lo: real, hi: real)
    requires forall i :: 0 <= i < |xs| ==> lo <= xs[i] <= hi
    ensures |xs| as real * lo <= Sum(xs) <= |xs| as real * hi
  {
    if xs != [] {
      SumBetween(xs[..|xs| - 1], lo, hi);
    }
  }

  /** The average lies between the smallest and the largest size: a block
      whose spans are all above 16 points averages above 16. */
  lemma AverageBetween(sizes: seq<real>, lo: real, hi: real)
    requires sizes != []
    requires forall i :: 0 <= i < |sizes| ==> lo <= sizes[i] <= hi
    ensures lo <= AverageFontSize(sizes) <= hi
  {
    SumBetween(sizes, lo, hi);
    DivideBetween(Sum(sizes), |sizes| as real, lo, hi);
  }

  /** The element of the `k`-th block of page `n` in
      `process_with_docling_enhanced`: a block with lines whose concatenated
      span text is not blank, typed from the average span size. */
  function DoclingStyleElement(n: nat, k: nat, b: Block): (r: seq<Element>)
    ensures |r| <= 1
    ensures |r| == 1 <==> b.TextBlock? && !Blank(LinesText(b.lines))
    ensures |r| == 1 ==> (r[0].kind in {"title", "header", "list", "text"} && r[0].page == n
      && r[0].content == Strip(LinesText(b.lines)) && r[0].box == b.box && r[0].confidence == 0.92)
  {
    match b
    case ImageBlock(_) => []
    case TextBlock(lines, box) =>
      var text := LinesText(lines);
      if Blank(text) then []
      else [Element(Docling.BlockId(n, k), ClassifyDoclingStyle(text, AverageFontSize(LineSizes(lines)), box), Strip(text), box, n, 0.92)]
  }

  /** Its markdown: `# ` for a title, `## ` for a header, the stripped text
      alone for a list item or text. */
  function DoclingStyleMarkdown(b: Block): string {
    match b
    case ImageBlock(_) => ""
    case TextBlock(lines, box) =>
      var text := LinesText(lines);
      if Blank(text) then ""
      else
        var kind := ClassifyDoclingStyle(text, AverageFontSize(LineSizes(lines)), box);
        (if kind == "title" then "# " else if kind == "header" then "## " else "") + Strip(text) + "\n\n"
  }

  /** An element of `process_with_mineru_enhanced` with the field its type
      adds: `latex` for an equation, `references` for a citation and
      `section_type` for a header (every header of the scientific
      classifier passes `is_academic_section`). */
  datatype SciBlockElement = SciBlockElement(element: Element, latex: Option<string>,
    references: Option<seq<string>>, sectionType: Option<string>)

  /** The element of a block in `process_with_mineru_enhanced`: as the
      Docling-style one, typed by the scientific classifier, confidence
      0.90.  `groups` are the bracket groups the citation regex finds in
      the text; `None` means `extract_references_simple` raised on them,
      which ends the whole extraction. */
  function ScientificElement(n: nat, k: nat, b: Block, formula: bool, citation: bool,
                             groups: seq<References.BracketGroup>): (r: Option<seq<SciBlockElement>>)
    ensures r.None? <==> b.TextBlock? && !Blank(LinesText(b.lines)) && !formula && citation
                         && References.ReferencesOf(groups, []).None?
    ensures r.Some? ==> |r.value| <= 1
    ensures r.Some? ==> (|r.value| == 1 <==> b.TextBlock? && !Blank(LinesText(b.lines)))
    ensures r.Some? && |r.value| == 1 ==> DescribesBlock(r.value[0], n, b, formula, citation, groups)
  {
    match b
    case ImageBlock(_) => Some([])
    case TextBlock(lines, box) =>
      var text := LinesText(lines);
      if Blank(text) then Some([])
      else
        var kind := ClassifyScientific(text, box, formula, citation);
        var e := Element(Docling.BlockId(n, k), kind, Strip(text), box, n, 0.90);
        if kind == "equation" then Some([SciBlockElement(e, Some(ReplacedAll(text, SimpleTable)), None, None)])
        else if kind == "citation" then
          match References.ReferencesOf(groups, [])
          case None => None
          case Some(refs) => Some([SciBlockElement(e, None, Some(refs), None)])
        else if kind == "header" then Some([SciBlockElement(e, None, None, Some(FirstSection(Normalized(text), AppSections)))])
        else Some([SciBlockElement(e, None, None, None)])
  }

  /** What the element of a text block holds: its type, stripped text, box,
      page and confidence, and exactly the one added field its type calls
      for, with that field's value. */
  predicate DescribesBlock(s: SciBlockElement, n: nat, b: Block, formula: bool, citation: bool,
                           groups: seq<References.BracketGroup>)
    requires b.TextBlock?
  {
    var text := LinesText(b.lines);
    var e := s.element;
    e.kind == ClassifyScientific(text, b.box, formula, citation)
    && e.content == Strip(text) && e.box == b.box && e.page == n && e.confidence == 0.90
    && (s.latex.Some? <==> e.kind == "equation")
    && (s.latex.Some? ==> s.latex.value == ReplacedAll(text, SimpleTable))
    && (s.references.Some? <==> e.kind == "citation")
    && (s.references.Some? ==> Some(s.references.value) == References.ReferencesOf(groups, []))
    && (s.sectionType.Some? <==> e.kind == "header")
    && (s.sectionType.Some? ==> s.sectionType.value == FirstSection(Normalized(text), AppSections))
  }

  /** The names the app's `get_section_type` can return. */
  const AppSectionNamesSet: set<string> :=
    {"abstract", "introduction", "methods", "results", "discussion", "conclusion", "references", "other"}

  /** The added fields keep their helpers' promises: an equation's LaTeX
      holds none of the eight rewritten symbols, a citation's references
      hold no duplicates, and a header's section is one of the app's
      section names. */
  lemma ScientificFields(n: nat, k: nat, b: Block, formula: bool, citation: bool,
                         groups: seq<References.BracketGroup>)
    requires ScientificElement(n, k, b, formula, citation, groups).Some?
    requires |ScientificElement(n, k, b, formula, citation, groups).value| == 1
    ensures var s := ScientificElement(n, k, b, formula, citation, groups).value[0];
      (s.latex.Some? ==> forall j :: 0 <= j < |SimpleTable| ==> SimpleTable[j].symbol !in s.latex.value)
      && (s.references.Some? ==> forall i, j :: 0 <= i < j < |s.references.value| ==> s.references.value[i] != s.references.value[j])
      && (s.sectionType.Some? ==> s.sectionType.value in AppSectionNamesSet)
  {
    var text := LinesText(b.lines);
    SimpleConversion(text);
    AppSectionNames(text);
  }

  /** Its markdown: an equation as a `$$` display of the symbol-rewritten
      raw text, a title `# `, a header `## `, a citation a `> ` quote. */
  function ScientificMarkdown(b: Block, formula: bool, citation: bool): (md: string)
    ensures b.TextBlock? && !Blank(LinesText(b.lines)) && formula ==>
      md == "$$\n" + ReplacedAll(LinesText(b.lines), SimpleTable) + "\n$$\n\n"
    ensures b.TextBlock? && !Blank(LinesText(b.lines)) && !formula && citation ==>
      md == "> " + Strip(LinesText(b.lines)) + "\n\n"
    ensures b.ImageBlock? || Blank(LinesText(b.lines)) ==> md == ""
  {
    match b
    case ImageBlock(_) => ""
    case TextBlock(lines, box) =>
      var text := LinesText(lines);
      if Blank(text) then ""
      else
        var kind := ClassifyScientific(text, box, formula, citation);
        if kind == "equation" then "$$\n" + ReplacedAll(text, SimpleTable) + "\n$$\n\n"
        else if kind == "title" then "# " + Strip(text) + "\n\n"
        else if kind == "header" then "## " + Strip(text) + "\n\n"
        else if kind == "citation" then "> " + Strip(text) + "\n\n"
        else Strip(text) + "\n\n"
  }

  /** One `(bbox, text, confidence)` result of `reader.readtext`: the
      corner points of its quadrilateral on the page rendered at twice its
      size, its text and its confidence. */
  datatype OcrHit = OcrHit(quad: seq<Point>, text: string, confidence: real)

  /** `if text.strip() and confidence > 0.5` */
  predicate KeptHit(h: OcrHit) {
    !Blank(h.text) && h.confidence > 0.5
  }

  /** A kept hit with no corner points makes `min()` raise. */
  predicate RaisingHit(h: OcrHit) {
    KeptHit(h) && h.quad == []
  }

  /** The number of the first raising hit, or `|hits|` when none raises. */
  function FirstRaising(hits: seq<OcrHit>): (k: nat)
    ensures k <= |hits|
    ensures k < |hits| ==> RaisingHit(hits[k])
    ensures forall i :: 0 <= i < k ==> !RaisingHit(hits[i])
  {
    if hits == [] then 0
    else if RaisingHit(hits[0]) then 0
    else 1 + FirstRaising(hits[1..])
  }

  function OcrId(n: nat, i: nat): string {
    "page_" + NatToString(n) + "_ocr_" + NatToString(i)
  }

  /** The element of the `i`-th hit of page `n`: the quadrilateral's box
      brought back to page points, typed in the Surya style from the raw
      text, its content stripped, the hit's own confidence. */
  function OcrElement(n: nat, i: nat, h: OcrHit): Element
    requires KeptHit(h) && !RaisingHit(h)
  {
    var box := QuadToBox(h.quad);
    Element(OcrId(n, i), ClassifySuryaStyle(h.text, box), Strip(h.text), box, n, h.confidence)
  }

  /** The markdown of a kept hit, prefixed `[XX] ` when the detected
      language `lang` is not English. */
  function OcrLine(h: OcrHit, lang: string): string {
    if lang != "en" then "[" + Upper(lang) + "] " + Strip(h.text) + "\n\n" else Strip(h.text) + "\n\n"
  }

  /** The elements of the first `k` hits, none of which raises. */
  function OcrElements(n: nat, hits: seq<OcrHit>, k: nat): seq<Element>
    requires k <= |hits|
    requires forall i :: 0 <= i < k ==> !RaisingHit(hits[i])
  {
    if k == 0 then []
    else OcrElements(n, hits, k - 1) + (if KeptHit(hits[k - 1]) then [OcrElement(n, k - 1, hits[k - 1])] else [])
  }

  /** Their markdown; `detect` stands for `detect_language_simple`. */
  function OcrMarkdown(hits: seq<OcrHit>, k: nat, detect: string -> string): string
    requires k <= |hits|
  {
    if k == 0 then ""
    else OcrMarkdown(hits, k - 1, detect) + (if KeptHit(hits[k - 1]) then OcrLine(hits[k - 1], detect(hits[k - 1].text)) else "")
  }

  /** The fallback element of a page whose OCR raised: the page's whole
      text, unstripped, on a full US-letter box. */
  function FallbackElement(n: nat, pageText: string): Element {
    Element("page_" + NatToString(n) + "_fallback", "text", pageText, BBox(0.0, 0.0, 612.0, 792.0), n, 0.75)
  }

  /** What `readtext` gives for a page: its hits, or `None` when it raised. */
  datatype OcrPageInput = OcrPageInput(read: Option<seq<OcrHit>>, pageText: string)

  /** The page raised somewhere inside its `try`. */
  predicate PageRaises(p: OcrPageInput) {
    p.read.None? || FirstRaising(p.read.value) < |p.read.value|
  }

  /** The elements page `n` appends: those of the hits before the raising
      one, which stay appended, then the fallback element when the page
      raised. */
  function OcrPageElements(n: nat, p: OcrPageInput): seq<Element> {
    match p.read
    case None => [FallbackElement(n, p.pageText)]
    case Some(hits) =>
      var k := FirstRaising(hits);
      OcrElements(n, hits, k) + (if k < |hits| then [FallbackElement(n, p.pageText)] else [])
  }

  /** The page's markdown: the heading, then either its hits' lines or,
      when it raised, the page's whole text. */
  function OcrPageMarkdown(n: nat, p: OcrPageInput, detect: string -> string): string {
    Docling.PageHeading(n) + (if PageRaises(p) then p.pageText else OcrMarkdown(p.read.value, |p.read.value|, detect))
  }

  /** The OCR step of one page of `process_with_surya_enhanced`: the loop
      over the hits, left at the first one that raises for the fallback. */
  method OcrPage(n: nat, p: OcrPageInput, detect: string -> string) returns (elements: seq<Element>, md: string)
    ensures elements == OcrPageElements(n, p)
    ensures md == OcrPageMarkdown(n, p, detect)
  {
    elements := [];
    if p.read.None? {
      elements := elements + [FallbackElement(n, p.pageText)];
      md := Docling.PageHeading(n) + p.pageText;
      return;
    }
    var hits := p.read.value;
    var content := Docling.PageHeading(n);
    var i := 0;
    while i < |hits|
      invariant 0 <= i <= |hits|
      invariant forall j :: 0 <= j < i ==> !RaisingHit(hits[j])
      invariant elements == OcrElements(n, hits, i)
      invariant content == Docling.PageHeading(n) + OcrMarkdown(hits, i, detect)
    {
      var h := hits[i];
      if RaisingHit(h) {
        RaisesAt(n, p, i, detect);
        elements := elements + [FallbackElement(n, p.pageText)];
        md := Docling.PageHeading(n) + p.pageText;
        return;
      }
      elements, content := OcrStep(n, hits, i, detect, elements, content);
      i := i + 1;
    }
    Completes(n, p, detect);
    md := content;
  }

  /** Hit `i`, which does not raise, added to the page. */
  method OcrStep(n: nat, hits: seq<OcrHit>, i: nat, detect: string -> string, elements: seq<Element>, content: string)
      returns (elements': seq<Element>, content': string)
    requires i < |hits| && forall j :: 0 <= j <= i ==> !RaisingHit(hits[j])
    requires elements == OcrElements(n, hits, i)
    requires content == Docling.PageHeading(n) + OcrMarkdown(hits, i, detect)
    ensures elements' == OcrElements(n, hits, i + 1)
    ensures content' == Docling.PageHeading(n) + OcrMarkdown(hits, i + 1, detect)
  {
    var h := hits[i];
    elements', content' := elements, content;
    if KeptHit(h) {
      elements' := elements' + [OcrElement(n, i, h)];
      content' := content' + OcrLine(h, detect(h.text));
    }
  }

  /** A page whose hit `i` is the first to raise. */
  lemma RaisesAt(n: nat, p: OcrPageInput, i: nat, detect: string -> string)
    requires p.read.Some? && i < |p.read.value| && RaisingHit(p.read.value[i])
    requires forall j :: 0 <= j < i ==> !RaisingHit(p.read.value[j])
    ensures OcrPageElements(n, p) == OcrElements(n, p.read.value, i) + [FallbackElement(n, p.pageText)]
    ensures OcrPageMarkdown(n, p, detect) == Docling.PageHeading(n) + p.pageText
  {
    FirstRaisingAt(p.read.value, i);
  }

  /** A page none of whose hits raises. */
  lemma Completes(n: nat, p: OcrPageInput, detect: string -> string)
    requires p.read.Some?
    requires forall j :: 0 <= j < |p.read.value| ==> !RaisingHit(p.read.value[j])
    ensures OcrPageElements(n, p) == OcrElements(n, p.read.value, |p.read.value|)
    ensures OcrPageMarkdown(n, p, detect) == Docling.PageHeading(n) + OcrMarkdown(p.read.value, |p.read.value|, detect)
  {
    FirstRaisingNone(p.read.value);
  }

  lemma {:induction false} FirstRaisingAt(hits: seq<OcrHit>, k: nat)
    requires k < |hits| && RaisingHit(hits[k])
    requires forall j :: 0 <= j < k ==> !RaisingHit(hits[j])
    ensures FirstRaising(hits) == k
  {
    if k > 0 {
      FirstRaisingAt(hits[1..], k - 1);
    }
  }

  lemma {:induction false} FirstRaisingNone(hits: seq<OcrHit>)
    requires forall j :: 0 <= j < |hits| ==> !RaisingHit(hits[j])
    ensures FirstRaising(hits) == |hits|
  {
    if hits != [] {
      FirstRaisingNone(hits[1..]);
    }
  }

  /** Exactly the kept hits among the first `k` become elements, each
      built from its own hit. */
  lemma {:induction false} OcrElementsKept(n: nat, hits: seq<OcrHit>, k: nat)
    requires k <= |hits|
    requires forall i :: 0 <= i < k ==> !RaisingHit(hits[i])
    ensures forall e :: e in OcrElements(n, hits, k) ==>
      (exists i :: 0 <= i < k && KeptHit(hits[i]) && e == OcrElement(n, i, hits[i]))
    ensures forall i :: 0 <= i < k && KeptHit(hits[i]) ==> OcrElement(n, i, hits[i]) in OcrElements(n, hits, k)
  {
    if k > 0 {
      OcrElementsKept(n, hits, k - 1);
    }
  }

  /** What an OCR element holds. */
  lemma OcrElementFacts(n: nat, i: nat, h: OcrHit)
    requires KeptHit(h) && !RaisingHit(h)
    ensures var e := OcrElement(n, i, h);
      e.page == n && e.content == Strip(h.text) && e.content != "" && e.confidence == h.confidence
      && e.confidence > 0.5 && WellFormed(e.box) && e.kind in {"label", "caption", "header", "text"}
      && e.id != "page_" + NatToString(n) + "_fallback"
  {
    BlankIsEmptyStrip(h.text);
    QuadToBoxSpec(h.quad);
    OcrIdIsNotFallback(n, i);
  }

  /** Every element of the hits lies on page `n`, has non-blank content and
      a confidence above 0.5, and is not a fallback element. */
  lemma {:induction false} OcrElementsShape(n: nat, hits: seq<OcrHit>, k: nat)
    requires k <= |hits|
    requires forall i :: 0 <= i < k ==> !RaisingHit(hits[i])
    ensures forall e :: e in OcrElements(n, hits, k) ==>
      (e.page == n && e.content != "" && e.confidence > 0.5 && e.id != "page_" + NatToString(n) + "_fallback")
  {
    if k > 0 {
      OcrElementsShape(n, hits, k - 1);
      if KeptHit(hits[k - 1]) {
        OcrElementFacts(n, k - 1, hits[k - 1]);
      }
    }
  }

  /** Every element a page appends is an OCR element of high confidence
      and non-blank content, or the fallback element, which is then last. */
  lemma OcrPageShape(n: nat, p: OcrPageInput)
    ensures forall e :: e in OcrPageElements(n, p) ==>
      e == FallbackElement(n, p.pageText) || (e.confidence > 0.5 && e.content != "" && e.page == n)
    ensures PageRaises(p) <==>
      OcrPageElements(n, p) != [] && OcrPageElements(n, p)[|OcrPageElements(n, p)| - 1] == FallbackElement(n, p.pageText)
  {
    if p.read.Some? {
      var hits := p.read.value;
      var k := FirstRaising(hits);
      OcrElementsShape(n, hits, k);
      var es := OcrPageElements(n, p);
      if !PageRaises(p) && es != [] {
        assert es[|es| - 1] in OcrElements(n, hits, k);
      }
    }
  }

  lemma OcrIdIsNotFallback(n: nat, i: nat)
    ensures OcrId(n, i) != "page_" + NatToString(n) + "_fallback"
  {
    var pre := "page_" + NatToString(n);
    var a := pre + "_ocr_" + NatToString(i);
    var b := pre + "_fallback";
    assert a[|pre| + 1] == 'o' && b[|pre| + 1] == 'f';
  }

  /** The elements of the document, page after page. */
  function OcrDocElements(pages: seq<OcrPageInput>): seq<Element> {
    if pages == [] then []
    else OcrDocElements(pages[..|pages| - 1]) + OcrPageElements(|pages| - 1, pages[|pages| - 1])
  }

  function OcrDocMarkdown(pages: seq<OcrPageInput>, detect: string -> string): string {
    if pages == [] then ""
    else OcrDocMarkdown(pages[..|pages| - 1], detect) + OcrPageMarkdown(|pages| - 1, pages[|pages| - 1], detect)
  }

  lemma OcrDocStep(pages: seq<OcrPageInput>, k: nat, detect: string -> string)
    requires k < |pages|
    ensures OcrDocElements(pages[..k + 1]) == OcrDocElements(pages[..k]) + OcrPageElements(k, pages[k])
    ensures OcrDocMarkdown(pages[..k + 1], detect) == OcrDocMarkdown(pages[..k], detect) + OcrPageMarkdown(k, pages[k], detect)
  {
    assert pages[..k + 1][..k] == pages[..k];
  }

  /** `process_with_surya_enhanced` once `readtext` has run on each page:
      every page's elements and markdown in page order, and the metadata
      counting pages, elements and elements per type. */
  method ProcessWithSuryaEnhanced(pages: seq<OcrPageInput>, detect: string -> string) returns (r: Docling.Extraction)
    ensures r.success
    ensures r.elements == OcrDocElements(pages) && r.markdown == OcrDocMarkdown(pages, detect)
    ensures r.metadata == Docling.Metadata(|pages|, |r.elements|, Tally(Kinds(r.elements)), AverageConfidence(r.elements, 0.88))
  {
    var content := "";
    var elements: seq<Element> := [];
    var k := 0;
    while k < |pages|
      invariant 0 <= k <= |pages|
      invariant elements == OcrDocElements(pages[..k])
      invariant content == OcrDocMarkdown(pages[..k], detect)
    {
      var pageElements, pageContent := OcrPage(k, pages[k], detect);
      OcrDocStep(pages, k, detect);
      elements := elements + pageElements;
      content := content + pageContent;
      k := k + 1;
    }
    assert pages[..k] == pages;
    var byType := CountByType(elements);
    r := Docling.Extraction(content, elements, Docling.Metadata(|pages|, |elements|, byType, AverageConfidence(elements, 0.88)), true);
  }

  /** Every element of the document lies on one of its pages; each is the
      fallback element of its page or an OCR element of confidence above
      0.5 with non-blank content. */
  lemma {:induction false} OcrDocShape(pages: seq<OcrPageInput>)
    ensures forall e :: e in OcrDocElements(pages) ==>
      (0 <= e.page < |pages| && (e == FallbackElement(e.page, pages[e.page].pageText) || (e.confidence > 0.5 && e.content != "")))
  {
    if pages != [] {
      var k := |pages| - 1;
      var p := pages[..k];
      OcrDocShape(p);
      OcrPageShape(k, pages[k]);
      assert forall i :: 0 <= i < k ==> p[i] == pages[i];
    }
  }

  /** The model names the per-model loop runs; any other is skipped. */
  const EnhancedModels: set<string> := {"docling", "surya", "mineru", "pymupdf_basic", "pymupdf_advanced"}

  /** The entry stored for a model: its extraction, or the empty failed
      result when it raised (`None`). */
  function Entry(outcome: Option<Docling.Extraction>): Docling.Extraction {
    match outcome
    case None => Docling.Failure
    case Some(x) => x
  }

  /** `results` after the loop has considered `models`; `run(m)` is what
      model `m`'s extractor gives on the stored file. */
  function ModelResults(models: seq<string>, run: string -> Option<Docling.Extraction>): map<string, Docling.Extraction> {
    if models == [] then map[]
    else
      var m := models[|models| - 1];
      var prior := ModelResults(models[..|models| - 1], run);
      if m in EnhancedModels then prior[m := Entry(run(m))] else prior
  }

  lemma ModelResultsStep(models: seq<string>, k: nat, run: string -> Option<Docling.Extraction>)
    requires k < |models|
    ensures ModelResults(models[..k + 1], run)
         == if models[k] in EnhancedModels then ModelResults(models[..k], run)[models[k] := Entry(run(models[k]))]
            else ModelResults(models[..k], run)
  {
    assert models[..k + 1][..k] == models[..k];
  }

  /** The per-model loop of `process_extraction`. */
  method RunModels(models: seq<string>, run: string -> Option<Docling.Extraction>) returns (results: map<string, Docling.Extraction>)
    ensures results == ModelResults(models, run)
  {
    results := map[];
    var k := 0;
    while k < |models|
      invariant 0 <= k <= |models|
      invariant results == ModelResults(models[..k], run)
    {
      var name := models[k];
      ModelResultsStep(models, k, run);
      if name in EnhancedModels {
        var outcome := run(name);
        match outcome {
          case None =>
            results := results[name := Docling.Failure];
          case Some(result) =>
            results := results[name := result];
        }
      }
      k := k + 1;
    }
    assert models[..k] == models;
  }

  /** The results hold one entry per known model named in the request,
      unknown names skipped, each entry that model's outcome: a repeated
      name leaves a single entry. */
  lemma {:induction false} ModelResultsSpec(models: seq<string>, run: string -> Option<Docling.Extraction>)
    ensures forall m :: m in ModelResults(models, run) <==> m in models && m in EnhancedModels
    ensures forall m :: m in ModelResults(models, run) ==> ModelResults(models, run)[m] == Entry(run(m))
  {
    if models != [] {
      var p := models[..|models| - 1];
      ModelResultsSpec(p, run);
      assert models == p + [models[|models| - 1]];
    }
  }

  /** A known model that raises leaves an entry with no markdown, no
      elements, zero totals and `success` false. */
  lemma FailedModelEntry(models: seq<string>, run: string -> Option<Docling.Extraction>, m: string)
    requires m in models && m in EnhancedModels && run(m).None?
    ensures m in ModelResults(models, run)
    ensures var e := ModelResults(models, run)[m];
      e.markdown == "" && e.elements == [] && !e.success
      && e.metadata.totalPages == 0 && e.metadata.totalElements == 0 && e.metadata.confidenceAvg == 0.0
  {
    ModelResultsSpec(models, run);
  }

  /** `data.get("models", ["docling"])` */
  function RequestedModels(models: Option<seq<string>>): seq<string> {
    if models.None? then ["docling"] else models.value
  }

  /** `process_extraction` with the status of each `HTTPException` kept: a
      missing or empty upload id is a 400, a missing file a 404; the
      per-model loop catches what each model raises. */
  function ProcessExtraction(uploadId: Option<string>, fileExists: bool, models: Option<seq<string>>,
                             run: string -> Option<Docling.Extraction>): Response<map<string, Docling.Extraction>> {
    if uploadId.None? || uploadId.value == "" then HttpError(400)
    else if !fileExists then HttpError(404)
    else Ok(ModelResults(RequestedModels(models), run))
  }

  /** `process_extraction` as written: both checks raise inside the `try`
      whose `except Exception` turns them into a 500. */
  function ProcessExtractionAsWritten(uploadId: Option<string>, fileExists: bool, models: Option<seq<string>>,
                                      run: string -> Option<Docling.Extraction>): Response<map<string, Docling.Extraction>> {
    CatchAll(ProcessExtraction(uploadId, fileExists, models, run))
  }

  /** A request without an upload id is answered 500 as written instead of
      400, and one for a file that does not exist 500 instead of 404. */
  lemma ProcessExtractionStatus(run: string -> Option<Docling.Extraction>)
    ensures ProcessExtractionAsWritten(None, true, None, run) == HttpError(500)
    ensures ProcessExtraction(None, true, None, run) == HttpError(400)
    ensures ProcessExtractionAsWritten(Some("u1"), false, None, run) == HttpError(500)
    ensures ProcessExtraction(Some("u1"), false, None, run) == HttpError(404)
  {
  }

  /** With the statuses kept, a request fails only on its two checks and
      otherwise always returns the per-model results. */
  lemma ProcessExtractionIntended(uploadId: Option<string>, fileExists: bool, models: Option<seq<string>>,
                                  run: string -> Option<Docling.Extraction>)
    ensures var r := ProcessExtraction(uploadId, fileExists, models, run);
      (r == HttpError(400) <==> uploadId.None? || uploadId.value == "")
      && (r == HttpError(404) <==> uploadId.Some? && uploadId.value != "" && !fileExists)
      && (r.Ok? ==> forall m :: m in r.value <==> m in RequestedModels(models) && m in EnhancedModels)
  {
    ModelResultsSpec(RequestedModels(models), run);
  }
}
