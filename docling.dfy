/**
 * The Docling pipeline: the type of a Docling item from its class name, the
 * position and prefix rules of the PyMuPDF fallback, and the fallback
 * extraction itself (one element per non-blank text block and per
 * non-empty table, page by page, with the markdown and the metadata).
 */
module Docling {

  import opened Wrappers
  import opened Text
  import opened Geometry
  import opened Elements
  import opened Tables
  import opened Blocks
  import opened Sections

  /** The type a class or layout label names, tested on its lower-cased
      form in the order title or heading, header, table, list, figure or
      image; `None` when it names none of them. */
  function NamedKind(name: string): (r: Option<string>)
    ensures r.Some? ==> r.value in {"title", "header", "table", "list", "image"}
    ensures var n := Lower(name);
      (r == Some("title") <==> Contains(n, "title") || Contains(n, "heading")) &&
      (r == Some("header") <==> !Contains(n, "title") && !Contains(n, "heading") && Contains(n, "header")) &&
      (r == Some("table") <==> !Contains(n, "title") && !Contains(n, "heading") && !Contains(n, "header") && Contains(n, "table")) &&
      (r == Some("list") <==> !Contains(n, "title") && !Contains(n, "heading") && !Contains(n, "header") && !Contains(n, "table") && Contains(n, "list"))
    ensures r.None? <==> var n := Lower(name);
      !Contains(n, "title") && !Contains(n, "heading") && !Contains(n, "header") && !Contains(n, "table")
      && !Contains(n, "list") && !Contains(n, "figure") && !Contains(n, "image")
  {
    var n := Lower(name);
    if Contains(n, "title") || Contains(n, "heading") then Some("title")
    else if Contains(n, "header") then Some("header")
    else if Contains(n, "table") then Some("table")
    else if Contains(n, "list") then Some("list")
    else if Contains(n, "figure") || Contains(n, "image") then Some("image")
    else None
  }

  /** `_get_element_type`, applied to `type(item).__name__`: the type the
      class name names, and text when it names none. */
  function GetElementType(typeName: string): (kind: string)
    ensures kind in {"title", "header", "table", "list", "image", "text"}
    ensures NamedKind(typeName).Some? ==> kind == NamedKind(typeName).value
    ensures kind == "text" <==> NamedKind(typeName).None?
  {
    match NamedKind(typeName)
    case Some(k) => k
    case None => "text"
  }

  const HeaderPrefixes: seq<string> := ["chapter", "section", "introduction", "conclusion", "abstract", "summary"]

  /** `_classify_block` (its `all_blocks` argument is not used): a short
      block near the top of the page is a title; otherwise a block starting
      with a header word, or shorter than 50 characters, is a header. */
  function ClassifyBlock(text: string, box: BBox): (kind: string)
    ensures kind in {"title", "header", "text"}
    ensures kind == "title" <==> |Normalized(text)| < 100 && box.y1 < 200.0
    ensures kind == "header" <==> !(|Normalized(text)| < 100 && box.y1 < 200.0)
                                  && (StartsWithAny(Normalized(text), HeaderPrefixes) || |Normalized(text)| < 50)
  {
    var tl := Normalized(text);
    if |tl| < 100 && box.y1 < 200.0 then "title"
    else if StartsWithAny(tl, HeaderPrefixes) || |tl| < 50 then "header"
    else "text"
  }

  /** A block whose normalised text is shorter than 50 characters is never
      plain text, wherever it lies on the page. */
  lemma ShortBlockIsHeading(text: string, box: BBox)
    requires |Normalized(text)| < 50
    ensures ClassifyBlock(text, box) in {"title", "header"}
    ensures ClassifyBlock(text, box) == "title" <==> box.y1 < 200.0
  {
  }

  /** A table found by `page.find_tables()`: its cell texts and its box. */
  datatype SourceTable = SourceTable(data: TableData, box: BBox)

  /** What the fallback reads from one page. */
  datatype PageDict = PageDict(blocks: seq<Block>, tables: seq<SourceTable>)

  /** `total_pages`, `total_elements`, `by_type` and `confidence_avg`. */
  datatype Metadata = Metadata(totalPages: nat, totalElements: nat, byType: map<string, nat>, confidenceAvg: real)

  datatype Extraction = Extraction(markdown: string, elements: seq<Element>, metadata: Metadata, success: bool)

  function BlockId(n: nat, k: nat): string {
    "page_" + NatToString(n) + "_block_" + NatToString(k)
  }

  function TableId(n: nat, k: nat): string {
    "page_" + NatToString(n) + "_table_" + NatToString(k)
  }

  /** The element of the `k`-th block of page `n`, if it yields one: a
      block with lines whose line-broken text is not blank. */
  function BlockElement(n: nat, k: nat, b: Block): seq<Element> {
    match b
    case ImageBlock(_) => []
    case TextBlock(lines, box) =>
      var text := BrokenText(lines);
      if Blank(text) then []
      else [Element(BlockId(n, k), ClassifyBlock(text, box), Strip(text), box, n, 0.85)]
  }

  /** The markdown of a block element: `# ` for a title, `## ` for a header. */
  function BlockMarkdown(b: Block): string {
    match b
    case ImageBlock(_) => ""
    case TextBlock(lines, box) =>
      var text := BrokenText(lines);
      if Blank(text) then ""
      else
        var kind := ClassifyBlock(text, box);
        (if kind == "title" then "# " else if kind == "header" then "## " else "") + Strip(text) + "\n\n"
  }

  function BlockElements(n: nat, blocks: seq<Block>): seq<Element> {
    if blocks == [] then []
    else BlockElements(n, blocks[..|blocks| - 1]) + BlockElement(n, |blocks| - 1, blocks[|blocks| - 1])
  }

  function BlocksMarkdown(blocks: seq<Block>): string {
    if blocks == [] then ""
    else BlocksMarkdown(blocks[..|blocks| - 1]) + BlockMarkdown(blocks[|blocks| - 1])
  }

  /** `if table_data:` a table with at least one row becomes an element. */
  function TableElement(n: nat, k: nat, t: SourceTable): seq<Element> {
    if t.data == [] then [] else [Element(TableId(n, k), "table", Markdown(t.data, Id), t.box, n, 0.80)]
  }

  function TableMarkdown(t: SourceTable): string {
    if t.data == [] then "" else "\n" + Markdown(t.data, Id) + "\n\n"
  }

  function TableElements(n: nat, tables: seq<SourceTable>): seq<Element> {
    if tables == [] then []
    else TableElements(n, tables[..|tables| - 1]) + TableElement(n, |tables| - 1, tables[|tables| - 1])
  }

  function TablesMarkdown(tables: seq<SourceTable>): string {
    if tables == [] then ""
    else TablesMarkdown(tables[..|tables| - 1]) + TableMarkdown(tables[|tables| - 1])
  }

  function PageHeading(n: nat): string {
    "\n\n## Page " + NatToString(n + 1) + "\n\n"
  }

  function PageElements(n: nat, p: PageDict): seq<Element> {
    BlockElements(n, p.blocks) + TableElements(n, p.tables)
  }

  function PageMarkdown(n: nat, p: PageDict): string {
    PageHeading(n) + BlocksMarkdown(p.blocks) + TablesMarkdown(p.tables)
  }

  /** The elements of the whole document, page after page. */
  function DocElements(pages: seq<PageDict>): seq<Element> {
    if pages == [] then []
    else DocElements(pages[..|pages| - 1]) + PageElements(|pages| - 1, pages[|pages| - 1])
  }

  function DocMarkdown(pages: seq<PageDict>): string {
    if pages == [] then ""
    else DocMarkdown(pages[..|pages| - 1]) + PageMarkdown(|pages| - 1, pages[|pages| - 1])
  }

  /** The result returned when the fallback raises. */
  const Failure: Extraction := Extraction("", [], Metadata(0, 0, map[], 0.0), false)

  /** The block loop of one page. */
  method ProcessBlocks(n: nat, blocks: seq<Block>) returns (elements: seq<Element>, md: string)
    ensures elements == BlockElements(n, blocks)
    ensures md == BlocksMarkdown(blocks)
  {
    elements := [];
    md := "";
    var k := 0;
    while k < |blocks|
      invariant 0 <= k <= |blocks|
      invariant elements == BlockElements(n, blocks[..k])
      invariant md == BlocksMarkdown(blocks[..k])
    {
      var block := blocks[k];
      ghost var prefix := blocks[..k + 1];
      assert prefix[..k] == blocks[..k] && prefix[k] == block;
      assert BlockElements(n, prefix) == elements + BlockElement(n, k, block);
      assert BlocksMarkdown(prefix) == md + BlockMarkdown(block);
      if block.TextBlock? {
        var text := BreakLines(block.lines);
        BlankIsEmptyStrip(text);
        if Strip(text) != [] {
          var kind := ClassifyBlock(text, block.box);
          elements := elements + [Element(BlockId(n, k), kind, Strip(text), block.box, n, 0.85)];
          if kind == "title" {
            md := md + ("# " + Strip(text) + "\n\n");
          } else if kind == "header" {
            md := md + ("## " + Strip(text) + "\n\n");
          } else {
            md := md + ("" + Strip(text) + "\n\n");
          }
        }
      }
      k := k + 1;
    }
    assert blocks[..k] == blocks;
  }

  /** The table loop of one page. */
  method ProcessTables(n: nat, tables: seq<SourceTable>) returns (elements: seq<Element>, md: string)
    ensures elements == TableElements(n, tables)
    ensures md == TablesMarkdown(tables)
  {
    elements := [];
    md := "";
    var k := 0;
    while k < |tables|
      invariant 0 <= k <= |tables|
      invariant elements == TableElements(n, tables[..k])
      invariant md == TablesMarkdown(tables[..k])
    {
      var t := tables[k];
      ghost var prefix := tables[..k + 1];
      assert prefix[..k] == tables[..k] && prefix[k] == t;
      assert TableElements(n, prefix) == elements + TableElement(n, k, t);
      assert TablesMarkdown(prefix) == md + TableMarkdown(t);
      if t.data != [] {
        var content := FormatTable(t.data);
        elements := elements + [Element(TableId(n, k), "table", content, t.box, n, 0.80)];
        md := md + ("\n" + content + "\n\n");
      }
      k := k + 1;
    }
    assert tables[..k] == tables;
  }

  /** One iteration of the page loop: the heading and the block loop make
      `page_content`, which goes to the markdown before the tables do. */
  method ProcessPage(n: nat, p: PageDict) returns (elements: seq<Element>, md: string)
    ensures elements == PageElements(n, p)
    ensures md == PageMarkdown(n, p)
  {
    var pageContent := PageHeading(n);
    var blockElements, blockMd := ProcessBlocks(n, p.blocks);
    pageContent := pageContent + blockMd;
    var tableElements, tableMd := ProcessTables(n, p.tables);
    elements := blockElements + tableElements;
    md := pageContent + tableMd;
  }

  /** `_fallback_extraction`: `None` stands for a document PyMuPDF cannot
      open, which gives the failure result.  Otherwise the elements and the
      markdown are those of the pages in order, and the metadata counts the
      pages, the elements and the elements of each type. */
  method FallbackExtraction(doc: Option<seq<PageDict>>) returns (r: Extraction)
    ensures doc.None? ==> r == Failure
    ensures doc.Some? ==> r.success && r.elements == DocElements(doc.value) && r.markdown == DocMarkdown(doc.value)
    ensures doc.Some? ==> r.metadata == Metadata(|doc.value|, |r.elements|, Tally(Kinds(r.elements)), AverageConfidence(r.elements, 0.85))
  {
    if doc.None? {
      return Failure;
    }
    var pages := doc.value;
    var markdown := "";
    var elements: seq<Element> := [];
    var n := 0;
    while n < |pages|
      invariant 0 <= n <= |pages|
      invariant elements == DocElements(pages[..n])
      invariant markdown == DocMarkdown(pages[..n])
    {
      ghost var prefix := pages[..n + 1];
      assert prefix[..n] == pages[..n] && prefix[n] == pages[n];
      var pageElements, pageMd := ProcessPage(n, pages[n]);
      elements := elements + pageElements;
      markdown := markdown + pageMd;
      n := n + 1;
    }
    assert pages[..n] == pages;
    var counts := CountByType(elements);
    r := Extraction(markdown, elements, Metadata(|pages|, |elements|, counts, AverageConfidence(elements, 0.85)), true);
  }

  /** Every element of the fallback has one of the four fallback types, at
      0.80 for a table and 0.85 for a block. */
  lemma {:induction false} FallbackKinds(pages: seq<PageDict>)
    ensures forall e :: e in DocElements(pages) ==> e.kind in {"title", "header", "text", "table"}
    ensures forall e :: e in DocElements(pages) ==> e.confidence == if e.kind == "table" then 0.80 else 0.85
  {
    if pages != [] {
      FallbackKinds(pages[..|pages| - 1]);
      var n := |pages| - 1;
      BlockKinds(n, pages[n].blocks);
      TableKinds(n, pages[n].tables);
    }
  }

  lemma {:induction false} BlockKinds(n: nat, blocks: seq<Block>)
    ensures forall e :: e in BlockElements(n, blocks) ==> e.kind in {"title", "header", "text"} && e.page == n && e.confidence == 0.85
  {
    if blocks != [] {
      BlockKinds(n, blocks[..|blocks| - 1]);
    }
  }

  lemma {:induction false} TableKinds(n: nat, tables: seq<SourceTable>)
    ensures forall e :: e in TableElements(n, tables) ==> e.kind == "table" && e.page == n && e.confidence == 0.80
  {
    if tables != [] {
      TableKinds(n, tables[..|tables| - 1]);
    }
  }

  /** The reported `confidence_avg` is 0.85 for a document without
      elements and otherwise lies between the table and block confidences. */
  lemma FallbackAverage(pages: seq<PageDict>)
    ensures DocElements(pages) == [] ==> AverageConfidence(DocElements(pages), 0.85) == 0.85
    ensures 0.80 <= AverageConfidence(DocElements(pages), 0.85) <= 0.85
  {
    var es := DocElements(pages);
    FallbackKinds(pages);
    forall i | 0 <= i < |es| ensures 0.80 <= es[i].confidence <= 0.85 {
      assert es[i] in es;
    }
    AverageConfidenceBounds(es, 0.85, 0.80, 0.85);
  }

  /** Every element carries the index of a page of the document. */
  lemma {:induction false} FallbackPages(pages: seq<PageDict>)
    ensures forall e :: e in DocElements(pages) ==> 0 <= e.page < |pages|
  {
    if pages != [] {
      FallbackPages(pages[..|pages| - 1]);
      var n := |pages| - 1;
      BlockKinds(n, pages[n].blocks);
      TableKinds(n, pages[n].tables);
    }
  }

  /** A page yields at most one element per block and per table. */
  lemma {:induction false} PageElementBound(n: nat, p: PageDict)
    ensures |PageElements(n, p)| <= |p.blocks| + |p.tables|
  {
    BlockBound(n, p.blocks);
    TableBound(n, p.tables);
  }

  lemma {:induction false} BlockBound(n: nat, blocks: seq<Block>)
    ensures |BlockElements(n, blocks)| <= |blocks|
  {
    if blocks != [] {
      BlockBound(n, blocks[..|blocks| - 1]);
    }
  }

  lemma {:induction false} TableBound(n: nat, tables: seq<SourceTable>)
    ensures |TableElements(n, tables)| <= |tables|
  {
    if tables != [] {
      TableBound(n, tables[..|tables| - 1]);
    }
  }

  /** A text block yields an element exactly when some span of it holds a
      character other than white space. */
  lemma BlockYields(n: nat, k: nat, lines: seq<Line>, box: BBox)
    ensures |BlockElement(n, k, TextBlock(lines, box))| == 1 <==>
      exists i :: 0 <= i < |lines| && !Blank(SpansText(lines[i].spans))
    ensures |BlockElement(n, k, TextBlock(lines, box))| <= 1
  {
    BrokenTextBlank(lines);
  }
}
