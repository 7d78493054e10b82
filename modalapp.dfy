/**
 * The basic app: its model registry and gate, its health count, and its
 * PyMuPDF extraction in two modes (`pymupdf_advanced`: text blocks, tables
 * and images; otherwise one element per page with the page's whole text),
 * with the running `element_count` and `total_confidence` it keeps.
 */
module ModalApp {

  import opened Wrappers
  import opened Text
  import opened Geometry
  import opened Elements
  import opened Blocks
  import opened Api

  /** `AVAILABLE_MODELS`: the two PyMuPDF modes are available, `docling`
      and `surya` are listed but switched off. */
  const ModalRegistry: Registry :=
    map["pymupdf_basic" := true, "pymupdf_advanced" := true, "docling" := false, "surya" := false]

  /** The health check reports two available models. */
  lemma HealthCount()
    ensures AvailableCount(ModalRegistry) == 2
  {
    assert (set m | m in ModalRegistry && ModalRegistry[m]) == {"pymupdf_basic", "pymupdf_advanced"};
  }

  /** A request is answered exactly when it names only the PyMuPDF modes
      and none of their extractions raises. */
  lemma ModalGate<R>(models: seq<string>, run: string -> Response<R>)
    ensures Extract(true, models, ModalRegistry, run).Ok? <==>
      forall i :: 0 <= i < |models| ==> models[i] in {"pymupdf_basic", "pymupdf_advanced"} && run(models[i]).Ok?
  {
    GateOkIff(models, ModalRegistry, run, map[]);
  }

  /** Asking for the listed but switched-off `docling` is meant to be a
      400; the blanket `except Exception` turns it into a 500. */
  lemma SwitchedOffModelStatus<R>(run: string -> Response<R>)
    ensures Extract(true, ["docling"], ModalRegistry, run) == HttpError(400)
    ensures ExtractAsWritten(true, ["docling"], ModalRegistry, run) == HttpError(500)
  {
    assert !Usable(ModalRegistry, "docling");
  }

  /** A table found on a page: its box and its markdown, `None` when
      `to_pandas` or `to_markdown` raised (the table is then skipped). */
  datatype TableOutcome = TableOutcome(box: BBox, markdown: Option<string>)

  /** What PyMuPDF gives for a page: the text blocks, the page size, the
      plain text, the tables (`None` when `find_tables` raised) and, per
      image, whether `extract_image` succeeded (`None` when `get_images`
      raised). */
  datatype ModalPage = ModalPage(
    blocks: seq<Block>, rect: PageRect, text: string,
    tables: Option<seq<TableOutcome>>, images: Option<seq<bool>>)

  /** The elements and the `full_text` parts one page adds. */
  datatype PageOut = PageOut(elements: seq<Element>, texts: seq<string>)

  /** `ExtractionResult` without timing: `confidence_avg` is kept exact
      (no rounding), `total_pages` is the page count. */
  datatype ModalResult = ModalResult(
    markdown: string, elements: seq<Element>, totalPages: nat, totalElements: nat, confidenceAvg: real)

  // ---- Advanced mode ------------------------------------------------------

  /** A text block with non-blank concatenated text gives one element, its
      stripped text, on the 1-based page. */
  function BlockElement(n: nat, b: Block): seq<Element> {
    if b.TextBlock? && Strip(LinesText(b.lines)) != "" then [Info("text", Strip(LinesText(b.lines)), b.box, n + 1, 0.95)] else []
  }

  function BlockTextPart(b: Block): seq<string> {
    if b.TextBlock? && Strip(LinesText(b.lines)) != "" then [Strip(LinesText(b.lines))] else []
  }

  function BlocksOut(n: nat, blocks: seq<Block>, k: nat): seq<Element>
    requires k <= |blocks|
  {
    if k == 0 then [] else BlocksOut(n, blocks, k - 1) + BlockElement(n, blocks[k - 1])
  }

  function BlocksTexts(blocks: seq<Block>, k: nat): seq<string>
    requires k <= |blocks|
  {
    if k == 0 then [] else BlocksTexts(blocks, k - 1) + BlockTextPart(blocks[k - 1])
  }

  function TableElement(n: nat, t: TableOutcome): seq<Element> {
    if t.markdown.Some? then [Info("table", t.markdown.value, t.box, n + 1, 0.85)] else []
  }

  /** `f"\n{table_markdown}\n"` */
  function TableTextPart(t: TableOutcome): seq<string> {
    if t.markdown.Some? then ["\n" + t.markdown.value + "\n"] else []
  }

  function TablesOut(n: nat, tables: seq<TableOutcome>, k: nat): seq<Element>
    requires k <= |tables|
  {
    if k == 0 then [] else TablesOut(n, tables, k - 1) + TableElement(n, tables[k - 1])
  }

  function TablesTexts(tables: seq<TableOutcome>, k: nat): seq<string>
    requires k <= |tables|
  {
    if k == 0 then [] else TablesTexts(tables, k - 1) + TableTextPart(tables[k - 1])
  }

  /** `f"[Image {img_index + 1} on page {page_num + 1}]"` */
  function ImageLabel(i: nat, n: nat): string {
    "[Image " + NatToString(i + 1) + " on page " + NatToString(n + 1) + "]"
  }

  /** The full-page box `[0, 0, width, height]`. */
  function FullPage(rect: PageRect): BBox {
    BBox(0.0, 0.0, rect.width, rect.height)
  }

  function ImageElement(n: nat, rect: PageRect, i: nat, extracted: bool): seq<Element> {
    if extracted then [Info("image", ImageLabel(i, n), FullPage(rect), n + 1, 0.90)] else []
  }

  function ImagesOut(n: nat, rect: PageRect, images: seq<bool>, k: nat): seq<Element>
    requires k <= |images|
  {
    if k == 0 then [] else ImagesOut(n, rect, images, k - 1) + ImageElement(n, rect, k - 1, images[k - 1])
  }

  /** An advanced-mode page: its text blocks, then its tables, then its
      images (which add no text); `None` when `find_tables` or
      `get_images` raises. */
  function AdvancedPageOf(n: nat, p: ModalPage): Option<PageOut> {
    if p.tables.None? || p.images.None? then None
    else Some(PageOut(
      BlocksOut(n, p.blocks, |p.blocks|) + TablesOut(n, p.tables.value, |p.tables.value|) + ImagesOut(n, p.rect, p.images.value, |p.images.value|),
      BlocksTexts(p.blocks, |p.blocks|) + TablesTexts(p.tables.value, |p.tables.value|)))
  }

  /** A basic-mode page: one full-page element with the stripped page text
      when it is not blank. */
  function BasicPageOf(n: nat, p: ModalPage): PageOut {
    if Strip(p.text) == "" then PageOut([], [])
    else PageOut([Info("text", Strip(p.text), FullPage(p.rect), n + 1, 0.90)], [Strip(p.text)])
  }

  function PageOutOf(n: nat, p: ModalPage, advanced: bool): Option<PageOut> {
    if advanced then AdvancedPageOf(n, p) else Some(BasicPageOf(n, p))
  }

  /** The elements and text parts of the first `k` pages, `None` once a
      page raises. */
  function DocOut(pages: seq<ModalPage>, k: nat, advanced: bool): Option<PageOut>
    requires k <= |pages|
  {
    if k == 0 then Some(PageOut([], []))
    else
      var a := DocOut(pages, k - 1, advanced);
      var b := PageOutOf(k - 1, pages[k - 1], advanced);
      if a.None? || b.None? then None else Some(PageOut(a.value.elements + b.value.elements, a.value.texts + b.value.texts))
  }

  lemma DocOutStep(pages: seq<ModalPage>, k: nat, advanced: bool)
    requires k < |pages|
    ensures DocOut(pages, k + 1, advanced) ==
      var a := DocOut(pages, k, advanced);
      var b := PageOutOf(k, pages[k], advanced);
      if a.None? || b.None? then None else Some(PageOut(a.value.elements + b.value.elements, a.value.texts + b.value.texts))
  {
  }

  /** One more page processed: its elements and text parts are appended,
      or, when it raises, the whole document does. */
  lemma DocOutAdvance(pages: seq<ModalPage>, k: nat, advanced: bool, ok: bool, out: PageOut)
    requires k < |pages| && DocOut(pages, k, advanced).Some?
    requires ok <==> PageOutOf(k, pages[k], advanced).Some?
    requires ok ==> out == PageOutOf(k, pages[k], advanced).value
    ensures !ok ==> DocOut(pages, |pages|, advanced).None?
    ensures ok ==> DocOut(pages, k + 1, advanced).Some?
    ensures ok ==> DocOut(pages, k + 1, advanced).value.elements == DocOut(pages, k, advanced).value.elements + out.elements
    ensures ok ==> DocOut(pages, k + 1, advanced).value.texts == DocOut(pages, k, advanced).value.texts + out.texts
  {
    DocOutStep(pages, k, advanced);
    if !ok {
      DocOutFails(pages, k + 1, advanced);
    }
  }

  /** Once a page raises, the whole document does. */
  lemma {:induction false} DocOutFails(pages: seq<ModalPage>, k: nat, advanced: bool)
    requires k <= |pages| && DocOut(pages, k, advanced).None?
    ensures DocOut(pages, |pages|, advanced).None?
    decreases |pages| - k
  {
    if k < |pages| {
      DocOutStep(pages, k, advanced);
      DocOutFails(pages, k + 1, advanced);
    }
  }

  /** `total_confidence / element_count if element_count > 0 else 0` */
  function Average(total: real, count: nat): real {
    if count > 0 then total / count as real else 0.0
  }

  /** `extract_text_with_positions(pdf_path, model)`: a document that does
      not open, or a page that raises, is a 500. */
  function ExtractPositions(doc: Option<seq<ModalPage>>, model: string): Response<ModalResult> {
    if doc.None? then HttpError(500)
    else
      var out := DocOut(doc.value, |doc.value|, model == "pymupdf_advanced");
      if out.None? then HttpError(500)
      else
        var es := out.value.elements;
        Ok(ModalResult(Join("\n\n", out.value.texts), es, |doc.value|, |es|, Average(ConfSum(es), |es|)))
  }

  // ---- The loops ------------------------------------------------------------

  lemma BlocksOutStep(n: nat, blocks: seq<Block>, k: nat)
    requires k < |blocks|
    ensures BlocksOut(n, blocks, k + 1) == BlocksOut(n, blocks, k) + BlockElement(n, blocks[k])
    ensures BlocksTexts(blocks, k + 1) == BlocksTexts(blocks, k) + BlockTextPart(blocks[k])
  {
  }

  lemma TablesOutStep(n: nat, tables: seq<TableOutcome>, k: nat)
    requires k < |tables|
    ensures TablesOut(n, tables, k + 1) == TablesOut(n, tables, k) + TableElement(n, tables[k])
    ensures TablesTexts(tables, k + 1) == TablesTexts(tables, k) + TableTextPart(tables[k])
  {
  }

  lemma ImagesOutStep(n: nat, rect: PageRect, images: seq<bool>, k: nat)
    requires k < |images|
    ensures ImagesOut(n, rect, images, k + 1) == ImagesOut(n, rect, images, k) + ImageElement(n, rect, k, images[k])
  {
  }

  /** One block of an advanced page: a non-blank text block is appended
      and bumps the counters. */
  method AdvancedBlock(n: nat, b: Block, total0: real, count0: nat)
    returns (element: seq<Element>, text: seq<string>, total: real, count: nat)
    ensures element == BlockElement(n, b) && text == BlockTextPart(b)
    ensures total == total0 + ConfSum(element) && count == count0 + |element|
  {
    element, text, total, count := [], [], total0, count0;
    if b.TextBlock? {
      var blockText := ConcatSpans(b.lines);
      if Strip(blockText) != "" {
        var e := Info("text", Strip(blockText), b.box, n + 1, 0.95);
        ConfSumPush([], e);
        assert [] + [e] == [e];
        element := [e];
        text := [Strip(blockText)];
        total := total + 0.95;
        count := count + 1;
      }
    }
  }

  /** The block loop of an advanced page. */
  method AdvancedBlocks(n: nat, blocks: seq<Block>, total0: real, count0: nat)
    returns (elements: seq<Element>, texts: seq<string>, total: real, count: nat)
    ensures elements == BlocksOut(n, blocks, |blocks|) && texts == BlocksTexts(blocks, |blocks|)
    ensures total == total0 + ConfSum(elements) && count == count0 + |elements|
  {
    elements, texts, total, count := [], [], total0, count0;
    var k := 0;
    while k < |blocks|
      invariant 0 <= k <= |blocks|
      invariant elements == BlocksOut(n, blocks, k) && texts == BlocksTexts(blocks, k)
      invariant total == total0 + ConfSum(elements) && count == count0 + |elements|
    {
      BlocksOutStep(n, blocks, k);
      var element, text;
      element, text, total, count := AdvancedBlock(n, blocks[k], total, count);
      ConfSumAppend(elements, element);
      elements := elements + element;
      texts := texts + text;
      k := k + 1;
    }
  }

  /** The table loop of an advanced page; a table whose conversion raises is
      skipped. */
  method AdvancedTables(n: nat, tables: seq<TableOutcome>, total0: real, count0: nat)
    returns (elements: seq<Element>, texts: seq<string>, total: real, count: nat)
    ensures elements == TablesOut(n, tables, |tables|) && texts == TablesTexts(tables, |tables|)
    ensures total == total0 + ConfSum(elements) && count == count0 + |elements|
  {
    elements, texts, total, count := [], [], total0, count0;
    var k := 0;
    while k < |tables|
      invariant 0 <= k <= |tables|
      invariant elements == TablesOut(n, tables, k) && texts == TablesTexts(tables, k)
      invariant total == total0 + ConfSum(elements) && count == count0 + |elements|
    {
      TablesOutStep(n, tables, k);
      var t := tables[k];
      if t.markdown.Some? {
        var e := Info("table", t.markdown.value, t.box, n + 1, 0.85);
        ConfSumPush(elements, e);
        elements := elements + [e];
        texts := texts + ["\n" + t.markdown.value + "\n"];
        total := total + 0.85;
        count := count + 1;
      }
      k := k + 1;
    }
  }

  /** The image loop of an advanced page; an image whose extraction raises
      is skipped. */
  method AdvancedImages(n: nat, rect: PageRect, images: seq<bool>, total0: real, count0: nat)
    returns (elements: seq<Element>, total: real, count: nat)
    ensures elements == ImagesOut(n, rect, images, |images|)
    ensures total == total0 + ConfSum(elements) && count == count0 + |elements|
  {
    elements, total, count := [], total0, count0;
    var k := 0;
    while k < |images|
      invariant 0 <= k <= |images|
      invariant elements == ImagesOut(n, rect, images, k)
      invariant total == total0 + ConfSum(elements) && count == count0 + |elements|
    {
      ImagesOutStep(n, rect, images, k);
      if images[k] {
        var e := Info("image", ImageLabel(k, n), FullPage(rect), n + 1, 0.90);
        ConfSumPush(elements, e);
        elements := elements + [e];
        total := total + 0.90;
        count := count + 1;
      }
      k := k + 1;
    }
  }

  /** One page in either mode; `ok` is false where the page raises. */
  method ProcessPage(n: nat, p: ModalPage, advanced: bool, total0: real, count0: nat)
    returns (ok: bool, out: PageOut, total: real, count: nat)
    ensures ok <==> PageOutOf(n, p, advanced).Some?
    ensures ok ==> out == PageOutOf(n, p, advanced).value
    ensures ok ==> total == total0 + ConfSum(out.elements) && count == count0 + |out.elements|
  {
    out, total, count := PageOut([], []), total0, count0;
    if !advanced {
      ok := true;
      if Strip(p.text) != "" {
        var e := Info("text", Strip(p.text), FullPage(p.rect), n + 1, 0.90);
        out := PageOut([e], [Strip(p.text)]);
        ConfSumPush([], e);
        assert [] + [e] == [e];
        total := total + 0.90;
        count := count + 1;
      }
      return;
    }
    var e1, t1, total1, count1 := AdvancedBlocks(n, p.blocks, total0, count0);
    if p.tables.None? {
      return false, out, total, count;
    }
    var e2, t2, total2, count2 := AdvancedTables(n, p.tables.value, total1, count1);
    if p.images.None? {
      return false, out, total, count;
    }
    var e3, total3, count3 := AdvancedImages(n, p.rect, p.images.value, total2, count2);
    ConfSumAppend(e1, e2);
    ConfSumAppend(e1 + e2, e3);
    ok, out, total, count := true, PageOut(e1 + e2 + e3, t1 + t2), total3, count3;
  }

  /** `extract_text_with_positions`: the page loop, the counters kept equal
      to the number and the confidence sum of the elements so far, and the
      average taken from them. */
  method ExtractTextWithPositions(doc: Option<seq<ModalPage>>, model: string) returns (r: Response<ModalResult>)
    ensures r == ExtractPositions(doc, model)
  {
    if doc.None? {
      return HttpError(500);
    }
    var pages := doc.value;
    var ok, elements, fullText, totalConfidence, elementCount := ProcessPages(pages, model == "pymupdf_advanced");
    if !ok {
      return HttpError(500);
    }
    var avg := if elementCount > 0 then totalConfidence / elementCount as real else 0.0;
    r := Ok(ModalResult(Join("\n\n", fullText), elements, |pages|, |elements|, avg));
  }

  /** The page loop of `extract_text_with_positions`; `ok` is false once a
      page raises. */
  method ProcessPages(pages: seq<ModalPage>, advanced: bool)
    returns (ok: bool, elements: seq<Element>, fullText: seq<string>, totalConfidence: real, elementCount: nat)
    ensures ok <==> DocOut(pages, |pages|, advanced).Some?
    ensures ok ==> DocOut(pages, |pages|, advanced).value.elements == elements
    ensures ok ==> DocOut(pages, |pages|, advanced).value.texts == fullText
    ensures ok ==> elementCount == |elements| && totalConfidence == ConfSum(elements)
  {
    elements, fullText, totalConfidence, elementCount := [], [], 0.0, 0;
    var k := 0;
    while k < |pages|
      invariant 0 <= k <= |pages|
      invariant DocOut(pages, k, advanced).Some?
      invariant DocOut(pages, k, advanced).value.elements == elements
      invariant DocOut(pages, k, advanced).value.texts == fullText
      invariant elementCount == |elements| && totalConfidence == ConfSum(elements)
    {
      var pageOk;
      pageOk, elements, fullText, totalConfidence, elementCount := NextPage(pages, k, advanced, elements, fullText, totalConfidence, elementCount);
      if !pageOk {
        return false, elements, fullText, totalConfidence, elementCount;
      }
      k := k + 1;
    }
    ok := true;
  }

  /** Page `k` processed after the pages before it, its elements and text
      parts appended to theirs and the counters bumped. */
  method NextPage(pages: seq<ModalPage>, k: nat, advanced: bool,
                  elements0: seq<Element>, fullText0: seq<string>, total0: real, count0: nat)
    returns (ok: bool, elements: seq<Element>, fullText: seq<string>, total: real, count: nat)
    requires k < |pages| && DocOut(pages, k, advanced).Some?
    requires DocOut(pages, k, advanced).value.elements == elements0
    requires DocOut(pages, k, advanced).value.texts == fullText0
    requires count0 == |elements0| && total0 == ConfSum(elements0)
    ensures !ok ==> DocOut(pages, |pages|, advanced).None?
    ensures ok ==> DocOut(pages, k + 1, advanced).Some?
    ensures ok ==> DocOut(pages, k + 1, advanced).value.elements == elements
    ensures ok ==> DocOut(pages, k + 1, advanced).value.texts == fullText
    ensures ok ==> count == |elements| && total == ConfSum(elements)
  {
    var out;
    ok, out, total, count := ProcessPage(k, pages[k], advanced, total0, count0);
    DocOutAdvance(pages, k, advanced, ok, out);
    ConfSumAppend(elements0, out.elements);
    elements, fullText := elements0 + out.elements, fullText0 + out.texts;
  }

  // ---- Properties -----------------------------------------------------------

  /** Every element of the document lies on a page from 1 to the page count
      and has a confidence from 0.85 to 0.95. */
  lemma {:induction false} DocOutShape(pages: seq<ModalPage>, k: nat, advanced: bool)
    requires k <= |pages|
    requires DocOut(pages, k, advanced).Some?
    ensures forall e :: e in DocOut(pages, k, advanced).value.elements ==>
      1 <= e.page <= k && 0.85 <= e.confidence <= 0.95
  {
    if k > 0 {
      DocOutStep(pages, k - 1, advanced);
      DocOutShape(pages, k - 1, advanced);
      PageOutShape(k - 1, pages[k - 1], advanced);
    }
  }

  lemma PageOutShape(n: nat, p: ModalPage, advanced: bool)
    requires PageOutOf(n, p, advanced).Some?
    ensures forall e :: e in PageOutOf(n, p, advanced).value.elements ==> e.page == n + 1 && 0.85 <= e.confidence <= 0.95
  {
    if advanced {
      BlocksOutShape(n, p.blocks, |p.blocks|);
      TablesOutShape(n, p.tables.value, |p.tables.value|);
      ImagesOutShape(n, p.rect, p.images.value, |p.images.value|);
    }
  }

  lemma {:induction false} BlocksOutShape(n: nat, blocks: seq<Block>, k: nat)
    requires k <= |blocks|
    ensures forall e :: e in BlocksOut(n, blocks, k) ==> e.page == n + 1 && e.kind == "text" && e.confidence == 0.95
  {
    if k > 0 {
      BlocksOutShape(n, blocks, k - 1);
    }
  }

  lemma {:induction false} TablesOutShape(n: nat, tables: seq<TableOutcome>, k: nat)
    requires k <= |tables|
    ensures forall e :: e in TablesOut(n, tables, k) ==> e.page == n + 1 && e.kind == "table" && e.confidence == 0.85
  {
    if k > 0 {
      TablesOutShape(n, tables, k - 1);
    }
  }

  lemma {:induction false} ImagesOutShape(n: nat, rect: PageRect, images: seq<bool>, k: nat)
    requires k <= |images|
    ensures forall e :: e in ImagesOut(n, rect, images, k) ==>
      e.page == n + 1 && e.kind == "image" && e.box == FullPage(rect) && e.confidence == 0.90
  {
    if k > 0 {
      ImagesOutShape(n, rect, images, k - 1);
    }
  }

  /** The reported average confidence of a successful extraction is 0 for
      no elements and otherwise between 0.85 and 0.95. */
  lemma AverageRange(doc: Option<seq<ModalPage>>, model: string)
    requires ExtractPositions(doc, model).Ok?
    ensures var r := ExtractPositions(doc, model).value;
      (r.elements == [] ==> r.confidenceAvg == 0.0) &&
      (r.elements != [] ==> 0.85 <= r.confidenceAvg <= 0.95)
    ensures ExtractPositions(doc, model).value.totalElements == |ExtractPositions(doc, model).value.elements|
  {
    var pages := doc.value;
    var advanced := model == "pymupdf_advanced";
    DocOutShape(pages, |pages|, advanced);
    var es := DocOut(pages, |pages|, advanced).value.elements;
    forall i | 0 <= i < |es|
      ensures 0.85 <= es[i].confidence <= 0.95
    {
      assert es[i] in es;
    }
    ConfSumBounds(es, 0.85, 0.95);
    if es != [] {
      DivideBetween(ConfSum(es), |es| as real, 0.85, 0.95);
    }
  }

  /** In basic mode every page gives at most one element: a full-page
      "text" element on that page with confidence 0.90, exactly when its
      text is not blank; the document has at most one element per page. */
  lemma BasicPage(n: nat, p: ModalPage)
    ensures |BasicPageOf(n, p).elements| <= 1
    ensures |BasicPageOf(n, p).elements| == 1 <==> !Blank(p.text)
    ensures forall e :: e in BasicPageOf(n, p).elements ==>
      e.kind == "text" && e.box == FullPage(p.rect) && e.page == n + 1 && e.confidence == 0.90 && e.content == Strip(p.text)
  {
    BlankIsEmptyStrip(p.text);
  }

  lemma {:induction false} BasicDocument(pages: seq<ModalPage>, k: nat)
    requires k <= |pages|
    ensures DocOut(pages, k, false).Some?
    ensures |DocOut(pages, k, false).value.elements| <= k
    ensures |DocOut(pages, k, false).value.elements| == |DocOut(pages, k, false).value.texts|
  {
    if k > 0 {
      BasicDocument(pages, k - 1);
    }
  }
}
