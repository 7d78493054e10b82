/**
 * The production app: its font-size classifier, the span-level extraction
 * of each page with the page records and the running element total, the
 * Docling-style concatenation of those pages, and its upload checks.
 */
module Production {

  import opened Wrappers
  import opened Text
  import opened Geometry
  import opened Elements
  import opened Blocks
  import opened Api
  import Docling

  /** `classify_element`: font size first (above 20, 16, 14), then the
      position of the block's top edge (top tenth, bottom tenth). */
  function ClassifyElement(fontSize: real, box: BBox, rect: PageRect): string {
    if fontSize > 20.0 then "title"
    else if fontSize > 16.0 then "header"
    else if fontSize > 14.0 then "subheader"
    else if box.y1 < rect.height * 0.1 then "header"
    else if box.y1 > rect.height * 0.9 then "footer"
    else "text"
  }

  /** The five types and the exact conditions for each. */
  lemma ClassifyElementSpec(fontSize: real, box: BBox, rect: PageRect)
    ensures ClassifyElement(fontSize, box, rect) in {"title", "header", "subheader", "footer", "text"}
    ensures ClassifyElement(fontSize, box, rect) == "title" <==> fontSize > 20.0
    ensures ClassifyElement(fontSize, box, rect) == "subheader" <==> 14.0 < fontSize <= 16.0
    ensures ClassifyElement(fontSize, box, rect) == "header" <==>
      (16.0 < fontSize <= 20.0) || (fontSize <= 14.0 && box.y1 < rect.height * 0.1)
    ensures ClassifyElement(fontSize, box, rect) == "footer" <==>
      fontSize <= 14.0 && !(box.y1 < rect.height * 0.1) && box.y1 > rect.height * 0.9
  {
  }

  /** Above 14 points the position plays no part. */
  lemma LargeFontIgnoresPosition(fontSize: real, a: BBox, b: BBox, r: PageRect, s: PageRect)
    requires fontSize > 14.0
    ensures ClassifyElement(fontSize, a, r) == ClassifyElement(fontSize, b, s)
    ensures ClassifyElement(fontSize, a, r) in {"title", "header", "subheader"}
  {
  }

  /** The element of a span whose stripped text is not empty: typed from
      the span's size and its block's box, on page `n` (0-based). */
  function SpanElement(n: nat, s: Span, blockBox: BBox, rect: PageRect): seq<Element> {
    if Strip(s.text) == "" then [] else [Info(ClassifyElement(s.size, blockBox, rect), Strip(s.text), s.box, n, 0.95)]
  }

  /** The elements of the first `j` spans of a line. */
  function SpanElements(n: nat, spans: seq<Span>, j: nat, blockBox: BBox, rect: PageRect): seq<Element>
    requires j <= |spans|
  {
    if j == 0 then [] else SpanElements(n, spans, j - 1, blockBox, rect) + SpanElement(n, spans[j - 1], blockBox, rect)
  }

  /** `line_text` after the first `j` spans: each non-empty stripped text
      followed by a space. */
  function LineAcc(spans: seq<Span>, j: nat): string
    requires j <= |spans|
  {
    if j == 0 then ""
    else LineAcc(spans, j - 1) + Word(spans[j - 1])
  }

  /** What a line adds to `block_text`. */
  function LinePiece(spans: seq<Span>): string {
    var t := Strip(LineAcc(spans, |spans|));
    if t == "" then "" else t + "\n"
  }

  /** The elements of the spans of the first `k` lines of a block. */
  function LinesElements(n: nat, lines: seq<Line>, k: nat, blockBox: BBox, rect: PageRect): seq<Element>
    requires k <= |lines|
  {
    if k == 0 then []
    else LinesElements(n, lines, k - 1, blockBox, rect) + SpanElements(n, lines[k - 1].spans, |lines[k - 1].spans|, blockBox, rect)
  }

  /** `block_text` after the first `k` lines. */
  function BlockText(lines: seq<Line>, k: nat): string
    requires k <= |lines|
  {
    if k == 0 then "" else BlockText(lines, k - 1) + LinePiece(lines[k - 1].spans)
  }

  function Larger(m: Option<real>, x: real): real {
    if m.Some? && m.value >= x then m.value else x
  }

  /** The largest size among the first `j` spans, `None` for none. */
  function SpansMax(spans: seq<Span>, j: nat): (r: Option<real>)
    requires j <= |spans|
    ensures r.Some? <==> j > 0
  {
    if j == 0 then None else Some(Larger(SpansMax(spans, j - 1), spans[j - 1].size))
  }

  /** `max(span["size"] for line in lines for span in line["spans"])` over
      the first `k` lines; `None` where Python's `max` would raise. */
  function LinesMax(lines: seq<Line>, k: nat): Option<real>
    requires k <= |lines|
  {
    if k == 0 then None
    else
      var a := LinesMax(lines, k - 1);
      var b := SpansMax(lines[k - 1].spans, |lines[k - 1].spans|);
      if a.None? then b else if b.None? then a else Some(Max(a.value, b.value))
  }

  /** `SpansMax` bounds every size it has seen and is one of them. */
  lemma {:induction false} SpansMaxSpec(spans: seq<Span>, j: nat)
    requires j <= |spans|
    ensures SpansMax(spans, j).Some? ==> forall i :: 0 <= i < j ==> spans[i].size <= SpansMax(spans, j).value
    ensures SpansMax(spans, j).Some? ==> exists i :: 0 <= i < j && spans[i].size == SpansMax(spans, j).value
  {
    if j > 0 {
      SpansMaxSpec(spans, j - 1);
    }
  }

  /** `LinesMax` is the largest span size of the first `k` lines: no span
      is larger and some span has it; it is `None` only without spans. */
  lemma {:induction false} LinesMaxSpec(lines: seq<Line>, k: nat)
    requires k <= |lines|
    ensures LinesMax(lines, k).None? <==> forall i :: 0 <= i < k ==> lines[i].spans == []
    ensures LinesMax(lines, k).Some? ==>
      forall i, j :: 0 <= i < k && 0 <= j < |lines[i].spans| ==> lines[i].spans[j].size <= LinesMax(lines, k).value
    ensures LinesMax(lines, k).Some? ==>
      exists i, j :: 0 <= i < k && 0 <= j < |lines[i].spans| && lines[i].spans[j].size == LinesMax(lines, k).value
  {
    if k > 0 {
      LinesMaxSpec(lines, k - 1);
      var spans := lines[k - 1].spans;
      SpansMaxSpec(spans, |spans|);
      var a := LinesMax(lines, k - 1);
      var b := SpansMax(spans, |spans|);
      if b.Some? {
        var j :| 0 <= j < |spans| && spans[j].size == b.value;
        assert lines[k - 1].spans[j].size == b.value;
      }
    }
  }

  /** A block without spans has empty text, so `max` is only reached on a
      block that has a span. */
  lemma {:induction false} NoSpanNoText(lines: seq<Line>, k: nat)
    requires k <= |lines|
    ensures LinesMax(lines, k).None? ==> BlockText(lines, k) == ""
  {
    if k > 0 {
      NoSpanNoText(lines, k - 1);
    }
  }

  /** The markdown prefix of a block's type. */
  function Prefix(kind: string): string {
    if kind == "title" then "# " else if kind == "header" then "## " else if kind == "subheader" then "### " else ""
  }

  /** The markdown part of a block: its stripped text after the prefix of
      the type its largest span gives it. */
  function BlockPart(b: Block, rect: PageRect): seq<string> {
    match b
    case ImageBlock(_) => []
    case TextBlock(lines, box) =>
      var t := Strip(BlockText(lines, |lines|));
      if t == "" then []
      else
        NoSpanNoText(lines, |lines|);
        [Prefix(ClassifyElement(LinesMax(lines, |lines|).value, box, rect)) + t]
  }

  function BlockElements(n: nat, b: Block, rect: PageRect): seq<Element> {
    match b
    case ImageBlock(_) => []
    case TextBlock(lines, box) => LinesElements(n, lines, |lines|, box, rect)
  }

  /** A table as `extract_tables_from_page` gives it: its cell elements and
      its markdown. */
  datatype TableResult = TableResult(elements: seq<Element>, markdown: string)

  /** An image as `extract_images_from_page` gives it: its element and id. */
  datatype ImageResult = ImageResult(element: Element, imageId: string)

  /** What PyMuPDF and the two helpers give for one page. */
  datatype ProdPage = ProdPage(blocks: seq<Block>, rect: PageRect, tables: seq<TableResult>, images: seq<ImageResult>)

  /** One entry of `results["pages"]`. */
  datatype PageResult = PageResult(pageNum: nat, elements: seq<Element>, markdown: string, elementCount: nat)

  /** `extract_text_with_positions`'s result; the document metadata is
      reduced to the page count. */
  datatype Extraction = Extraction(pages: seq<PageResult>, totalElements: nat, totalPages: nat)

  function BlocksElements(n: nat, p: ProdPage, k: nat): seq<Element>
    requires k <= |p.blocks|
  {
    if k == 0 then [] else BlocksElements(n, p, k - 1) + BlockElements(n, p.blocks[k - 1], p.rect)
  }

  function BlocksParts(p: ProdPage, k: nat): seq<string>
    requires k <= |p.blocks|
  {
    if k == 0 then [] else BlocksParts(p, k - 1) + BlockPart(p.blocks[k - 1], p.rect)
  }

  function TablesElements(tables: seq<TableResult>, k: nat): seq<Element>
    requires k <= |tables|
  {
    if k == 0 then [] else TablesElements(tables, k - 1) + tables[k - 1].elements
  }

  function TablesParts(tables: seq<TableResult>, k: nat): seq<string>
    requires k <= |tables|
  {
    if k == 0 then [] else TablesParts(tables, k - 1) + [tables[k - 1].markdown]
  }

  /** `f"![Image {id}](image_{id}.png)"` */
  function ImageLink(id: string): string {
    "![Image " + id + "](image_" + id + ".png)"
  }

  function ImagesElements(images: seq<ImageResult>, k: nat): seq<Element>
    requires k <= |images|
  {
    if k == 0 then [] else ImagesElements(images, k - 1) + [images[k - 1].element]
  }

  function ImagesParts(images: seq<ImageResult>, k: nat): seq<string>
    requires k <= |images|
  {
    if k == 0 then [] else ImagesParts(images, k - 1) + [ImageLink(images[k - 1].imageId)]
  }

  /** The page record of page `n`: span elements block by block, then the
      tables' cells, then the images; the parts joined by blank lines; the
      count of its elements. */
  function PageOf(n: nat, p: ProdPage): PageResult {
    var elements := BlocksElements(n, p, |p.blocks|) + TablesElements(p.tables, |p.tables|) + ImagesElements(p.images, |p.images|);
    var parts := BlocksParts(p, |p.blocks|) + TablesParts(p.tables, |p.tables|) + ImagesParts(p.images, |p.images|);
    PageResult(n, elements, Join("\n\n", parts), |elements|)
  }

  /** What one span adds to `line_text`. */
  function Word(s: Span): string {
    if Strip(s.text) == "" then "" else Strip(s.text) + " "
  }

  lemma SpansStep(n: nat, spans: seq<Span>, j: nat, blockBox: BBox, rect: PageRect)
    requires j < |spans|
    ensures SpanElements(n, spans, j + 1, blockBox, rect) == SpanElements(n, spans, j, blockBox, rect) + SpanElement(n, spans[j], blockBox, rect)
    ensures LineAcc(spans, j + 1) == LineAcc(spans, j) + Word(spans[j])
  {
  }

  /** The body of the span loop for one span. */
  method ProcessSpan(n: nat, s: Span, blockBox: BBox, rect: PageRect) returns (element: seq<Element>, word: string)
    ensures element == SpanElement(n, s, blockBox, rect)
    ensures word == Word(s)
  {
    element, word := [], "";
    var text := Strip(s.text);
    if text != "" {
      word := text + " ";
      var kind := ClassifyElement(s.size, blockBox, rect);
      element := [Info(kind, text, s.box, n, 0.95)];
    }
  }

  /** The span loop of one line, then what the line adds to the block's
      text. */
  method ProcessSpans(n: nat, spans: seq<Span>, blockBox: BBox, rect: PageRect) returns (elements: seq<Element>, piece: string)
    ensures elements == SpanElements(n, spans, |spans|, blockBox, rect)
    ensures piece == LinePiece(spans)
  {
    elements := [];
    var lineText := "";
    var j := 0;
    while j < |spans|
      invariant 0 <= j <= |spans|
      invariant elements == SpanElements(n, spans, j, blockBox, rect)
      invariant lineText == LineAcc(spans, j)
    {
      SpansStep(n, spans, j, blockBox, rect);
      var element, word := ProcessSpan(n, spans[j], blockBox, rect);
      lineText := lineText + word;
      elements := elements + element;
      j := j + 1;
    }
    var t := Strip(lineText);
    piece := if t != "" then t + "\n" else "";
  }

  /** The line loop of one text block: its span elements and its text. */
  method ProcessLines(n: nat, lines: seq<Line>, box: BBox, rect: PageRect) returns (elements: seq<Element>, blockText: string)
    ensures elements == LinesElements(n, lines, |lines|, box, rect)
    ensures blockText == BlockText(lines, |lines|)
  {
    elements, blockText := [], "";
    var k := 0;
    while k < |lines|
      invariant 0 <= k <= |lines|
      invariant elements == LinesElements(n, lines, k, box, rect)
      invariant blockText == BlockText(lines, k)
    {
      var lineElements, piece := ProcessSpans(n, lines[k].spans, box, rect);
      elements := elements + lineElements;
      BlockTextStep(lines, k);
      blockText := blockText + piece;
      k := k + 1;
    }
  }

  lemma BlockTextStep(lines: seq<Line>, k: nat)
    requires k < |lines|
    ensures BlockText(lines, k + 1) == BlockText(lines, k) + LinePiece(lines[k].spans)
  {
  }

  /** One block: the line loop, then its markdown part. */
  method ProcessBlock(n: nat, b: Block, rect: PageRect) returns (elements: seq<Element>, part: seq<string>)
    ensures elements == BlockElements(n, b, rect)
    ensures part == BlockPart(b, rect)
  {
    elements, part := [], [];
    if b.ImageBlock? {
      return;
    }
    var blockText;
    elements, blockText := ProcessLines(n, b.lines, b.box, rect);
    if Strip(blockText) != "" {
      NoSpanNoText(b.lines, |b.lines|);
      var fontSize := LinesMax(b.lines, |b.lines|).value;
      var kind := ClassifyElement(fontSize, b.box, rect);
      part := [Prefix(kind) + Strip(blockText)];
    }
  }

  lemma BlocksStep(n: nat, p: ProdPage, k: nat)
    requires k < |p.blocks|
    ensures BlocksElements(n, p, k + 1) == BlocksElements(n, p, k) + BlockElements(n, p.blocks[k], p.rect)
    ensures BlocksParts(p, k + 1) == BlocksParts(p, k) + BlockPart(p.blocks[k], p.rect)
  {
  }

  /** The block loop of one page. */
  method ProcessBlocks(n: nat, p: ProdPage) returns (elements: seq<Element>, parts: seq<string>)
    ensures elements == BlocksElements(n, p, |p.blocks|)
    ensures parts == BlocksParts(p, |p.blocks|)
  {
    elements, parts := [], [];
    var k := 0;
    while k < |p.blocks|
      invariant 0 <= k <= |p.blocks|
      invariant elements == BlocksElements(n, p, k)
      invariant parts == BlocksParts(p, k)
    {
      BlocksStep(n, p, k);
      var blockElements, part := ProcessBlock(n, p.blocks[k], p.rect);
      elements := elements + blockElements;
      parts := parts + part;
      k := k + 1;
    }
  }

  /** The table loop of one page. */
  method ProcessTables(tables: seq<TableResult>) returns (elements: seq<Element>, parts: seq<string>)
    ensures elements == TablesElements(tables, |tables|)
    ensures parts == TablesParts(tables, |tables|)
  {
    elements, parts := [], [];
    var k := 0;
    while k < |tables|
      invariant 0 <= k <= |tables|
      invariant elements == TablesElements(tables, k)
      invariant parts == TablesParts(tables, k)
    {
      elements := elements + tables[k].elements;
      parts := parts + [tables[k].markdown];
      k := k + 1;
    }
  }

  /** The image loop of one page. */
  method ProcessImages(images: seq<ImageResult>) returns (elements: seq<Element>, parts: seq<string>)
    ensures elements == ImagesElements(images, |images|)
    ensures parts == ImagesParts(images, |images|)
  {
    elements, parts := [], [];
    var k := 0;
    while k < |images|
      invariant 0 <= k <= |images|
      invariant elements == ImagesElements(images, k)
      invariant parts == ImagesParts(images, k)
    {
      elements := elements + [images[k].element];
      parts := parts + [ImageLink(images[k].imageId)];
      k := k + 1;
    }
  }

  /** `r` is the record `PageOf(n, p)`, numbered `n` and counting its
      elements.  The record is written under a quantifier whose trigger is
      `PageOf(m, p)`, so that it is only unfolded where some record of `p`
      is already in view (`IsPageOfIff` gives the plain equation). */
  ghost predicate IsPageOf(r: PageResult, n: nat, p: ProdPage) {
    r.pageNum == n && r.elementCount == |r.elements| &&
    forall m {:trigger PageOf(m, p)} :: Same(m) == n ==> r == PageOf(m, p)
  }

  /** The identity on page numbers; the solver does not eliminate an
      equation through it, so the quantifier above stays guarded. */
  function Same(m: nat): nat {
    m
  }

  lemma IsPageOfIff(r: PageResult, n: nat, p: ProdPage)
    ensures IsPageOf(r, n, p) <==> r == PageOf(n, p)
  {
    if IsPageOf(r, n, p) {
      assert Same(n) == n;
      assert r == PageOf(n, p);
    }
  }

  /** One page: its blocks, then its tables, then its images, the page
      record built from them. */
  method ProcessPage(n: nat, p: ProdPage) returns (r: PageResult)
    ensures IsPageOf(r, n, p)
  {
    var blockElements, blockParts := ProcessBlocks(n, p);
    var tableElements, tableParts := ProcessTables(p.tables);
    var imageElements, imageParts := ProcessImages(p.images);
    var elements := blockElements + tableElements + imageElements;
    var parts := blockParts + tableParts + imageParts;
    r := PageResult(n, elements, Join("\n\n", parts), |elements|);
  }

  /** The sum of the first `k` pages' `element_count`s. */
  function SumCounts(pages: seq<PageResult>, k: nat): nat
    requires k <= |pages|
  {
    if k == 0 then 0 else SumCounts(pages, k - 1) + pages[k - 1].elementCount
  }

  /** `extract_text_with_positions`: one page record appended per page, and
      `total_elements` bumped by that page's element count. */
  method ExtractTextWithPositions(pages: seq<ProdPage>) returns (r: Extraction)
    ensures |r.pages| == |pages| && r.totalPages == |pages|
    ensures forall i :: 0 <= i < |pages| ==> r.pages[i] == PageOf(i, pages[i])
    ensures forall i :: 0 <= i < |pages| ==> r.pages[i].elementCount == |r.pages[i].elements| && r.pages[i].pageNum == i
    ensures r.totalElements == SumCounts(r.pages, |r.pages|)
  {
    var results: seq<PageResult> := [];
    var total := 0;
    var k := 0;
    while k < |pages|
      invariant 0 <= k <= |pages|
      invariant |results| == k
      invariant forall i :: 0 <= i < k ==> IsPageOf(results[i], i, pages[i])
      invariant total == SumCounts(results, k)
    {
      var page := ProcessPage(k, pages[k]);
      SumCountsAppend(results, page, k);
      results := results + [page];
      total := total + |page.elements|;
      k := k + 1;
    }
    IsPageOfAll(pages, results);
    r := Extraction(results, total, |pages|);
  }

  lemma IsPageOfAll(pages: seq<ProdPage>, results: seq<PageResult>)
    requires |results| == |pages|
    requires forall i :: 0 <= i < |pages| ==> IsPageOf(results[i], i, pages[i])
    ensures forall i :: 0 <= i < |pages| ==> results[i] == PageOf(i, pages[i])
    ensures forall i :: 0 <= i < |pages| ==> results[i].elementCount == |results[i].elements| && results[i].pageNum == i
  {
    forall i | 0 <= i < |pages|
      ensures results[i] == PageOf(i, pages[i])
    {
      assert IsPageOf(results[i], i, pages[i]);
      assert Same(i) == i;
    }
  }

  /** A page appended after the first `k` leaves their sum alone. */
  lemma {:induction false} SumCountsAppend(pages: seq<PageResult>, x: PageResult, k: nat)
    requires k <= |pages|
    ensures SumCounts(pages + [x], k) == SumCounts(pages, k)
  {
    if k > 0 {
      SumCountsAppend(pages, x, k - 1);
    }
  }

  /** The elements of the first `k` page records, in page order. */
  function AllElements(pages: seq<PageResult>, k: nat): seq<Element>
    requires k <= |pages|
  {
    if k == 0 then [] else AllElements(pages, k - 1) + pages[k - 1].elements
  }

  /** `full_markdown` after the first `k` page records. */
  function AllMarkdown(pages: seq<PageResult>, k: nat): string
    requires k <= |pages|
  {
    if k == 0 then "" else AllMarkdown(pages, k - 1) + Docling.PageHeading(pages[k - 1].pageNum) + pages[k - 1].markdown
  }

  /** `process_with_docling`: each page's heading and markdown, the pages'
      elements extended in order, the markdown stripped at the end and
      `total_elements` the length of the concatenation. */
  method ProcessWithDocling(x: Extraction) returns (markdown: string, elements: seq<Element>, totalElements: nat)
    ensures elements == AllElements(x.pages, |x.pages|)
    ensures markdown == Strip(AllMarkdown(x.pages, |x.pages|))
    ensures totalElements == |elements|
  {
    var full := "";
    elements := [];
    var k := 0;
    while k < |x.pages|
      invariant 0 <= k <= |x.pages|
      invariant elements == AllElements(x.pages, k)
      invariant full == AllMarkdown(x.pages, k)
    {
      full := full + Docling.PageHeading(x.pages[k].pageNum);
      full := full + x.pages[k].markdown;
      elements := elements + x.pages[k].elements;
      k := k + 1;
    }
    markdown := Strip(full);
    totalElements := |elements|;
  }

  /** With every page's count equal to its list's length, the document
      total equals the length of the pages' concatenation. */
  lemma {:induction false} TotalIsConcatenation(pages: seq<PageResult>, k: nat)
    requires k <= |pages|
    requires forall i :: 0 <= i < k ==> pages[i].elementCount == |pages[i].elements|
    ensures |AllElements(pages, k)| == SumCounts(pages, k)
  {
    if k > 0 {
      TotalIsConcatenation(pages, k - 1);
    }
  }

  /** An element of the concatenation comes from some page, and every
      page's elements are in it. */
  lemma {:induction false} AllElementsMembers(pages: seq<PageResult>, k: nat)
    requires k <= |pages|
    ensures forall e :: e in AllElements(pages, k) <==> exists i :: 0 <= i < k && e in pages[i].elements
  {
    if k > 0 {
      AllElementsMembers(pages, k - 1);
    }
  }

  /** The Docling-style result of an extraction has as many elements as its
      `total_elements`. */
  lemma DoclingOfExtraction(r: Extraction)
    requires forall i :: 0 <= i < |r.pages| ==> r.pages[i].elementCount == |r.pages[i].elements|
    requires r.totalElements == SumCounts(r.pages, |r.pages|)
    ensures |AllElements(r.pages, |r.pages|)| == r.totalElements
  {
    TotalIsConcatenation(r.pages, |r.pages|);
  }

  /** Every element a span yields lies on its page, typed by the
      classifier, confidence 0.95. */
  lemma {:induction false} SpanElementsShape(n: nat, spans: seq<Span>, j: nat, blockBox: BBox, rect: PageRect)
    requires j <= |spans|
    ensures forall e :: e in SpanElements(n, spans, j, blockBox, rect) ==>
      (e.page == n && e.confidence == 0.95 && e.content != "" && e.kind in {"title", "header", "subheader", "footer", "text"})
  {
    if j > 0 {
      SpanElementsShape(n, spans, j - 1, blockBox, rect);
      ClassifyElementSpec(spans[j - 1].size, blockBox, rect);
    }
  }

  const MaxUploadBytes: nat := 50 * 1024 * 1024

  /** `upload_file`: a name not ending in `.pdf` (any case) is a 400, then
      content over 50 MiB is a 400, then a file PyMuPDF cannot open
      (`pageCount` `None`) is a 400; otherwise the page count. The
      `except HTTPException: raise` keeps these statuses. */
  function UploadOutcome(filename: string, size: nat, pageCount: Option<nat>): Response<nat> {
    if !PdfName(filename) then HttpError(400)
    else if size > MaxUploadBytes then HttpError(400)
    else if pageCount.None? then HttpError(400)
    else Ok(pageCount.value)
  }

  /** An upload is accepted exactly when its name ends in `.pdf`, it is at
      most 52428800 bytes and it opens as a PDF; every refusal is a 400. */
  lemma UploadOutcomeSpec(filename: string, size: nat, pageCount: Option<nat>)
    ensures UploadOutcome(filename, size, pageCount).Ok? <==>
      |filename| >= 4 && Lower(filename[|filename| - 4..]) == ".pdf" && size <= 52428800 && pageCount.Some?
    ensures UploadOutcome(filename, size, pageCount).HttpError? ==> UploadOutcome(filename, size, pageCount).status == 400
  {
    PdfNameIff(filename);
  }
}
