/**
 * The PyMuPDF fallback of the Surya pipeline.  A page whose text is shorter
 * than 50 characters once stripped counts as scanned.  On every page each
 * text block yields one `text` element holding its spans concatenated,
 * when that text is not blank, and each embedded image at least 50 pixels
 * wide and high yields an `image` element placed by the centred estimate.
 * A scanned page whose image listing finishes without raising also gets a
 * placeholder element asking for OCR.
 */
module SuryaFallback {

  import opened Wrappers
  import opened Text
  import opened Geometry
  import opened Elements
  import opened Blocks
  import opened Docling

  /** The size in pixels of an embedded image. */
  datatype Pixmap = Pixmap(width: nat, height: nat)

  /** The images of a page that were handled before the listing ended,
      and whether it ended by raising. */
  datatype ImageList = ImageList(pixmaps: seq<Pixmap>, raised: bool)

  /** A page as the fallback reads it: its plain text, its text dictionary
      blocks, its rectangle (`None` when it cannot be read) and its images. */
  datatype ScanPage = ScanPage(text: string, blocks: seq<Block>, rect: Option<PageRect>, images: ImageList)

  /** `len(page_text.strip()) < 50` */
  predicate Scanned(p: ScanPage) {
    |Strip(p.text)| < 50
  }

  /** The block confidence: lower for a scanned page. */
  function BlockConfidence(p: ScanPage): real {
    if Scanned(p) then 0.75 else 0.80
  }

  function ScanBlockElement(n: nat, k: nat, b: Block, confidence: real): seq<Element> {
    match b
    case ImageBlock(_) => []
    case TextBlock(lines, box) =>
      var t := LinesText(lines);
      if Blank(t) then [] else [Element(BlockId(n, k), "text", Strip(t), box, n, confidence)]
  }

  function ScanBlockMarkdown(b: Block): string {
    match b
    case ImageBlock(_) => ""
    case TextBlock(lines, _) =>
      var t := LinesText(lines);
      if Blank(t) then "" else Strip(t) + "\n\n"
  }

  function ScanBlockElements(n: nat, blocks: seq<Block>, confidence: real): seq<Element> {
    if blocks == [] then []
    else ScanBlockElements(n, blocks[..|blocks| - 1], confidence) + ScanBlockElement(n, |blocks| - 1, blocks[|blocks| - 1], confidence)
  }

  function ScanBlocksMarkdown(blocks: seq<Block>): string {
    if blocks == [] then ""
    else ScanBlocksMarkdown(blocks[..|blocks| - 1]) + ScanBlockMarkdown(blocks[|blocks| - 1])
  }

  /** Images narrower or lower than 50 pixels are taken as decoration. */
  predicate Decorative(px: Pixmap) {
    px.width < 50 || px.height < 50
  }

  function Dimensions(px: Pixmap): string {
    NatToString(px.width) + "x" + NatToString(px.height)
  }

  function ImageId(n: nat, k: nat): string {
    "page_" + NatToString(n) + "_image_" + NatToString(k)
  }

  /** The markdown link of the `k`-th image of page `n`, numbered from 1. */
  function ImageLink(n: nat, k: nat): string {
    "\n![Image " + Ordinal(k) + "](image_" + NatToString(n) + "_" + NatToString(k) + ".png)\n"
  }

  /** `str(k + 1)` */
  function Ordinal(k: nat): string {
    NatToString(k + 1)
  }

  function ImageElement(n: nat, k: nat, rect: Option<PageRect>, px: Pixmap): seq<Element> {
    if Decorative(px) then []
    else [Element(ImageId(n, k), "image", "[Image: " + Dimensions(px) + " pixels]",
                  EstimateImageBox(rect, px.width as real, px.height as real), n, 0.85)]
  }

  /** The size line under an image link. */
  function SizeNote(px: Pixmap): string {
    "*Image: " + Dimensions(px) + " pixels*\n\n"
  }

  function ImageMarkdown(n: nat, k: nat, px: Pixmap): string {
    if Decorative(px) then "" else ImageLink(n, k) + SizeNote(px)
  }

  function ImageElements(n: nat, rect: Option<PageRect>, pxs: seq<Pixmap>): seq<Element> {
    if pxs == [] then []
    else ImageElements(n, rect, pxs[..|pxs| - 1]) + ImageElement(n, |pxs| - 1, rect, pxs[|pxs| - 1])
  }

  function ImagesMarkdown(n: nat, pxs: seq<Pixmap>): string {
    if pxs == [] then ""
    else ImagesMarkdown(n, pxs[..|pxs| - 1]) + ImageMarkdown(n, |pxs| - 1, pxs[|pxs| - 1])
  }

  /** The images that are kept, in order. */
  function LargeImages(pxs: seq<Pixmap>): (r: seq<Pixmap>)
    ensures forall px :: px in r <==> px in pxs && !Decorative(px)
  {
    if pxs == [] then []
    else
      var p := pxs[..|pxs| - 1];
      var last := pxs[|pxs| - 1];
      assert pxs == p + [last];
      LargeImages(p) + (if Decorative(last) then [] else [last])
  }

  /** `e` is the element of image `px` on page `n`: its size as content,
      at the estimated box, with confidence 0.85. */
  predicate DescribesImage(e: Element, n: nat, rect: Option<PageRect>, px: Pixmap) {
    e.kind == "image" && e.page == n && e.confidence == 0.85 && e.content == "[Image: " + Dimensions(px) + " pixels]"
    && e.box == EstimateImageBox(rect, px.width as real, px.height as real)
  }

  /** One image element per image of at least 50 x 50 pixels, in order,
      each naming that image's size and lying where the estimate puts it. */
  lemma {:induction false} ImageElementsSpec(n: nat, rect: Option<PageRect>, pxs: seq<Pixmap>)
    ensures |ImageElements(n, rect, pxs)| == |LargeImages(pxs)|
    ensures forall i :: 0 <= i < |LargeImages(pxs)| ==>
      DescribesImage(ImageElements(n, rect, pxs)[i], n, rect, LargeImages(pxs)[i])
  {
    if pxs != [] {
      var p := pxs[..|pxs| - 1];
      var last := pxs[|pxs| - 1];
      ImageElementsSpec(n, rect, p);
      if !Decorative(last) {
        assert DescribesImage(ImageElement(n, |p|, rect, last)[0], n, rect, last);
      }
    }
  }

  /** No element comes from an image narrower or lower than 50 pixels. */
  lemma NoDecorativeImage(n: nat, rect: Option<PageRect>, pxs: seq<Pixmap>)
    ensures forall e :: e in ImageElements(n, rect, pxs) ==>
      exists px :: px in pxs && px.width >= 50 && px.height >= 50 && e.content == "[Image: " + Dimensions(px) + " pixels]"
  {
    ImageElementsSpec(n, rect, pxs);
    forall e | e in ImageElements(n, rect, pxs)
      ensures exists px :: px in pxs && px.width >= 50 && px.height >= 50 && e.content == "[Image: " + Dimensions(px) + " pixels]"
    {
      var i :| 0 <= i < |ImageElements(n, rect, pxs)| && ImageElements(n, rect, pxs)[i] == e;
      assert LargeImages(pxs)[i] in LargeImages(pxs);
    }
  }

  /** The placeholder of a scanned page. */
  function Placeholder(n: nat): Element {
    Element("page_" + NatToString(n) + "_scanned", "text", "[Scanned content detected - OCR processing recommended]",
            BBox(0.0, 0.0, 612.0, 792.0), n, 0.50)
  }

  /** The placeholder is added on a scanned page when the image listing
      does not raise (the `else` of its `try`). */
  predicate GetsPlaceholder(p: ScanPage) {
    Scanned(p) && !p.images.raised
  }

  function ScanPageElements(n: nat, p: ScanPage): seq<Element> {
    ScanBlockElements(n, p.blocks, BlockConfidence(p)) + ImageElements(n, p.rect, p.images.pixmaps)
    + (if GetsPlaceholder(p) then [Placeholder(n)] else [])
  }

  function ScanPageMarkdown(n: nat, p: ScanPage): string {
    PageHeading(n) + ScanBlocksMarkdown(p.blocks) + ImagesMarkdown(n, p.images.pixmaps)
    + (if GetsPlaceholder(p) then "[Scanned page - OCR needed]\n\n" else "")
  }

  function ScanDocElements(pages: seq<ScanPage>): seq<Element> {
    if pages == [] then []
    else ScanDocElements(pages[..|pages| - 1]) + ScanPageElements(|pages| - 1, pages[|pages| - 1])
  }

  function ScanDocMarkdown(pages: seq<ScanPage>): string {
    if pages == [] then ""
    else ScanDocMarkdown(pages[..|pages| - 1]) + ScanPageMarkdown(|pages| - 1, pages[|pages| - 1])
  }

  /** Block elements are text at the page's block confidence, carrying the
      index of the page, one per block at most. */
  lemma {:induction false} ScanBlockKinds(n: nat, blocks: seq<Block>, confidence: real)
    ensures forall e :: e in ScanBlockElements(n, blocks, confidence) ==>
      e.kind == "text" && e.page == n && e.confidence == confidence && e.content != []
    ensures |ScanBlockElements(n, blocks, confidence)| <= |blocks|
  {
    if blocks != [] {
      ScanBlockKinds(n, blocks[..|blocks| - 1], confidence);
      if blocks[|blocks| - 1].TextBlock? {
        BlankIsEmptyStrip(LinesText(blocks[|blocks| - 1].lines));
      }
    }
  }

  /** A text block yields an element exactly when one of its spans holds a
      character other than white space. */
  lemma ScanBlockYields(n: nat, k: nat, lines: seq<Line>, box: BBox, confidence: real)
    ensures |ScanBlockElement(n, k, TextBlock(lines, box), confidence)| == 1 <==>
      exists i, j :: 0 <= i < |lines| && 0 <= j < |lines[i].spans| && !Blank(lines[i].spans[j].text)
  {
    LinesTextBlank(lines);
    forall i | 0 <= i < |lines| {
      SpansTextBlank(lines[i].spans);
    }
  }

  /** The placeholder is among a page's elements exactly when the page is
      scanned and its image listing did not raise; it is then the last. */
  lemma PlaceholderIff(n: nat, p: ScanPage)
    ensures Placeholder(n) in ScanPageElements(n, p) <==> GetsPlaceholder(p)
    ensures GetsPlaceholder(p) ==> ScanPageElements(n, p)[|ScanPageElements(n, p)| - 1] == Placeholder(n)
  {
    var blocks := ScanBlockElements(n, p.blocks, BlockConfidence(p));
    var images := ImageElements(n, p.rect, p.images.pixmaps);
    ScanBlockKinds(n, p.blocks, BlockConfidence(p));
    ImageKinds(n, p.rect, p.images.pixmaps);
    assert Placeholder(n) !in blocks + images;
  }

  /** A page with a text layer (50 or more characters once stripped) has
      block elements at 0.80 and image elements only. */
  lemma TextPageKinds(n: nat, p: ScanPage)
    requires !Scanned(p)
    ensures forall e :: e in ScanPageElements(n, p) ==>
      (e.kind == "text" && e.confidence == 0.80) || (e.kind == "image" && e.confidence == 0.85)
  {
    ScanBlockKinds(n, p.blocks, 0.80);
    ImageKinds(n, p.rect, p.images.pixmaps);
  }

  lemma ImageKinds(n: nat, rect: Option<PageRect>, pxs: seq<Pixmap>)
    ensures forall e :: e in ImageElements(n, rect, pxs) ==> e.kind == "image" && e.confidence == 0.85 && e.page == n
  {
    ImageElementsSpec(n, rect, pxs);
    var images := ImageElements(n, rect, pxs);
    forall e | e in images ensures e.kind == "image" && e.confidence == 0.85 && e.page == n {
      var i :| 0 <= i < |images| && images[i] == e;
    }
  }

  /** The block loop, with the span concatenation of each block. */
  method ScanBlocks(n: nat, blocks: seq<Block>, confidence: real) returns (elements: seq<Element>, md: string)
    ensures elements == ScanBlockElements(n, blocks, confidence)
    ensures md == ScanBlocksMarkdown(blocks)
  {
    elements := [];
    md := "";
    var k := 0;
    while k < |blocks|
      invariant 0 <= k <= |blocks|
      invariant elements == ScanBlockElements(n, blocks[..k], confidence)
      invariant md == ScanBlocksMarkdown(blocks[..k])
    {
      var block := blocks[k];
      ghost var prefix := blocks[..k + 1];
      assert prefix[..k] == blocks[..k] && prefix[k] == block;
      assert ScanBlockElements(n, prefix, confidence) == elements + ScanBlockElement(n, k, block, confidence);
      assert ScanBlocksMarkdown(prefix) == md + ScanBlockMarkdown(block);
      if block.TextBlock? {
        var text := ConcatSpans(block.lines);
        BlankIsEmptyStrip(text);
        if Strip(text) != [] {
          elements := elements + [Element(BlockId(n, k), "text", Strip(text), block.box, n, confidence)];
          md := md + (Strip(text) + "\n\n");
        }
      }
      k := k + 1;
    }
    assert blocks[..k] == blocks;
  }

  /** One image: skipped (`continue`) when decorative, otherwise placed and
      described. */
  method ScanImage(n: nat, k: nat, rect: Option<PageRect>, px: Pixmap) returns (elements: seq<Element>, md: string)
    ensures elements == ImageElement(n, k, rect, px)
    ensures md == ImageMarkdown(n, k, px)
  {
    if px.width < 50 || px.height < 50 {
      return [], "";
    }
    var box := EstimateImageBox(rect, px.width as real, px.height as real);
    elements := [Element(ImageId(n, k), "image", "[Image: " + Dimensions(px) + " pixels]", box, n, 0.85)];
    md := ImageLink(n, k);
    md := md + SizeNote(px);
  }

  lemma ImagesStep(n: nat, rect: Option<PageRect>, pxs: seq<Pixmap>, k: nat)
    requires k < |pxs|
    ensures ImageElements(n, rect, pxs[..k + 1]) == ImageElements(n, rect, pxs[..k]) + ImageElement(n, k, rect, pxs[k])
    ensures ImagesMarkdown(n, pxs[..k + 1]) == ImagesMarkdown(n, pxs[..k]) + ImageMarkdown(n, k, pxs[k])
  {
    assert pxs[..k + 1][..k] == pxs[..k];
  }

  /** The image loop of one page. */
  method ScanImages(n: nat, rect: Option<PageRect>, pxs: seq<Pixmap>) returns (elements: seq<Element>, md: string)
    ensures elements == ImageElements(n, rect, pxs)
    ensures md == ImagesMarkdown(n, pxs)
  {
    elements := [];
    md := "";
    var k := 0;
    while k < |pxs|
      invariant 0 <= k <= |pxs|
      invariant elements == ImageElements(n, rect, pxs[..k])
      invariant md == ImagesMarkdown(n, pxs[..k])
    {
      ImagesStep(n, rect, pxs, k);
      var imageElements, imageMd := ScanImage(n, k, rect, pxs[k]);
      elements := elements + imageElements;
      md := md + imageMd;
      k := k + 1;
    }
    assert pxs[..k] == pxs;
  }

  /** One iteration of the page loop: scanned and text pages differ only in
      the block confidence and the placeholder. */
  method ScanPageStep(n: nat, p: ScanPage) returns (elements: seq<Element>, md: string)
    ensures elements == ScanPageElements(n, p)
    ensures md == ScanPageMarkdown(n, p)
  {
    var pageContent := PageHeading(n);
    var confidence := if |Strip(p.text)| < 50 then 0.75 else 0.80;
    var blockElements, blockMd := ScanBlocks(n, p.blocks, confidence);
    pageContent := pageContent + blockMd;
    var imageElements, imageMd := ScanImages(n, p.rect, p.images.pixmaps);
    elements := blockElements + imageElements;
    pageContent := pageContent + imageMd;
    if |Strip(p.text)| < 50 && !p.images.raised {
      pageContent := pageContent + "[Scanned page - OCR needed]\n\n";
      elements := elements + [Placeholder(n)];
    }
    md := pageContent;
  }

  /** `_fallback_extraction`: `None` stands for a document PyMuPDF cannot
      open, which gives the failure result. */
  method FallbackExtraction(doc: Option<seq<ScanPage>>) returns (r: Extraction)
    ensures doc.None? ==> r == Failure
    ensures doc.Some? ==> (r.success && r.elements == ScanDocElements(doc.value)
                           && r.markdown == ScanDocMarkdown(doc.value))
    ensures doc.Some? ==> r.metadata == Metadata(|doc.value|, |r.elements|, Tally(Kinds(r.elements)), AverageConfidence(r.elements, 0.75))
  {
    if doc.None? {
      return Failure;
    }
    var pages := doc.value;
    var markdown := "";
    var elements: seq<Element> := [];
    var n := 0;
    while n < |pages|
      invariant 0 <= n <= |pages|
      invariant elements == ScanDocElements(pages[..n])
      invariant markdown == ScanDocMarkdown(pages[..n])
    {
      ghost var prefix := pages[..n + 1];
      assert prefix[..n] == pages[..n] && prefix[n] == pages[n];
      var pageElements, pageMd := ScanPageStep(n, pages[n]);
      elements := elements + pageElements;
      markdown := markdown + pageMd;
      n := n + 1;
    }
    assert pages[..n] == pages;
    var counts := CountByType(elements);
    r := Extraction(markdown, elements, Metadata(|pages|, |elements|, counts, AverageConfidence(elements, 0.75)), true);
  }

  /** Every fallback element is text or an image and carries the index of a
      page of the document. */
  lemma {:induction false} ScanDocKinds(pages: seq<ScanPage>)
    ensures forall e :: e in ScanDocElements(pages) ==> e.kind in {"text", "image"} && 0 <= e.page < |pages|
    ensures forall e :: e in ScanDocElements(pages) ==> 0.50 <= e.confidence <= 0.85
  {
    if pages != [] {
      var n := |pages| - 1;
      ScanDocKinds(pages[..n]);
      ScanBlockKinds(n, pages[n].blocks, BlockConfidence(pages[n]));
      ImageKinds(n, pages[n].rect, pages[n].images.pixmaps);
    }
  }

  /** The reported `confidence_avg` is 0.75 for a document without
      elements and otherwise lies between the placeholder's 0.50 and the
      images' 0.85. */
  lemma FallbackAverage(pages: seq<ScanPage>)
    ensures ScanDocElements(pages) == [] ==> AverageConfidence(ScanDocElements(pages), 0.75) == 0.75
    ensures 0.50 <= AverageConfidence(ScanDocElements(pages), 0.75) <= 0.85
  {
    var es := ScanDocElements(pages);
    ScanDocKinds(pages);
    forall i | 0 <= i < |es| ensures 0.50 <= es[i].confidence <= 0.85 {
      assert es[i] in es;
    }
    AverageConfidenceBounds(es, 0.75, 0.50, 0.85);
  }
}
