/**
 * The annotated page image: the elements drawn on a page, each as a
 * rectangle outline on the page rendered at twice its size plus a label
 * 20 pixels above the rectangle's top-left corner.  The drawing itself is
 * modelled as the sequence of marks drawn, in order.
 */
module Annotate {

  import opened Wrappers
  import opened Text
  import opened Geometry
  import opened Elements

  /** One `draw.rectangle` (outline `color`) with its `draw.text` label. */
  datatype Mark = Mark(box: BBox, color: string, labelAt: Point, caption: string)

  /** The label position for a scaled box: `(x1, y1 - 20)`. */
  function LabelAt(scaled: BBox): Point {
    Point(scaled.x1, scaled.y1 - 20.0)
  }

  // ---- The basic and unified apps -------------------------------------

  /** The basic and unified apps' colour table, orange for any other type. */
  function AppColor(kind: string): string {
    if kind == "text" then "blue"
    else if kind == "table" then "green"
    else if kind == "image" then "red"
    else if kind == "heading" then "purple"
    else "orange"
  }

  /** Each listed type has its own colour and every other type is orange. */
  lemma AppColorSpec(kind: string)
    ensures kind == "text" <==> AppColor(kind) == "blue"
    ensures kind == "table" <==> AppColor(kind) == "green"
    ensures kind == "image" <==> AppColor(kind) == "red"
    ensures kind == "heading" <==> AppColor(kind) == "purple"
    ensures kind !in {"text", "table", "image", "heading"} <==> AppColor(kind) == "orange"
  {
  }

  /** The mark of one element: its box doubled, its type's colour, and the
      label `"{type} ({confidence:.2f})"`, where `conf` stands for the
      two-decimal formatting of the confidence. */
  function AppMark(e: Element, conf: real -> string): Mark {
    var scaled := Scale2(e.box);
    Mark(scaled, AppColor(e.kind), LabelAt(scaled), e.kind + " (" + conf(e.confidence) + ")")
  }

  /** The marks of the first `k` elements, in order. */
  function AppMarks(es: seq<Element>, k: nat, conf: real -> string): seq<Mark>
    requires k <= |es|
  {
    if k == 0 then [] else AppMarks(es, k - 1, conf) + [AppMark(es[k - 1], conf)]
  }

  lemma {:induction false} AppMarksSpec(es: seq<Element>, k: nat, conf: real -> string)
    requires k <= |es|
    ensures |AppMarks(es, k, conf)| == k
    ensures forall i :: 0 <= i < k ==> AppMarks(es, k, conf)[i] == AppMark(es[i], conf)
  {
    if k > 0 {
      AppMarksSpec(es, k - 1, conf);
    }
  }

  lemma AppMarksStep(es: seq<Element>, k: nat, conf: real -> string)
    requires k < |es|
    ensures AppMarks(es, k + 1, conf) == AppMarks(es, k, conf) + [AppMark(es[k], conf)]
  {
  }

  /** `generate_annotated_image` of the basic and unified apps: the
      elements whose `page` is the requested (1-based) page, drawn one by
      one. */
  method DrawApp(elements: seq<Element>, pageNum: int, conf: real -> string) returns (marks: seq<Mark>)
    ensures marks == AppMarks(OnPage(elements, pageNum), |OnPage(elements, pageNum)|, conf)
  {
    var pageElements := OnPage(elements, pageNum);
    marks := [];
    var i := 0;
    while i < |pageElements|
      invariant 0 <= i <= |pageElements|
      invariant marks == AppMarks(pageElements, i, conf)
    {
      AppMarksStep(pageElements, i, conf);
      var e := pageElements[i];
      var scaled := Scale2(e.box);
      var color := AppColor(e.kind);
      marks := marks + [Mark(scaled, color, LabelAt(scaled), e.kind + " (" + conf(e.confidence) + ")")];
      i := i + 1;
    }
  }

  /** Each mark sits at twice its element's coordinates, with its label 20
      pixels above and its type's colour. */
  lemma AppMarksGeometry(es: seq<Element>, conf: real -> string)
    ensures |AppMarks(es, |es|, conf)| == |es|
    ensures forall i :: 0 <= i < |es| ==>
      AppMarks(es, |es|, conf)[i].box == BBox(2.0 * es[i].box.x1, 2.0 * es[i].box.y1, 2.0 * es[i].box.x2, 2.0 * es[i].box.y2) &&
      AppMarks(es, |es|, conf)[i].labelAt == Point(2.0 * es[i].box.x1, 2.0 * es[i].box.y1 - 20.0) &&
      AppMarks(es, |es|, conf)[i].color == AppColor(es[i].kind)
  {
    AppMarksSpec(es, |es|, conf);
  }

  /** What is drawn: exactly one mark per element of the requested page, in
      their order, each at twice the element's coordinates with its label
      20 pixels above. */
  lemma DrawAppSpec(elements: seq<Element>, pageNum: int, conf: real -> string)
    ensures |AppMarks(OnPage(elements, pageNum), |OnPage(elements, pageNum)|, conf)| == |OnPage(elements, pageNum)|
    ensures forall i :: 0 <= i < |OnPage(elements, pageNum)| ==>
      OnPage(elements, pageNum)[i] in elements && OnPage(elements, pageNum)[i].page == pageNum &&
      AppMarks(OnPage(elements, pageNum), |OnPage(elements, pageNum)|, conf)[i] == AppMark(OnPage(elements, pageNum)[i], conf)
  {
    var pe := OnPage(elements, pageNum);
    AppMarksSpec(pe, |pe|, conf);
    forall i | 0 <= i < |pe|
      ensures pe[i] in elements
    {
      assert pe[i] in pe;
    }
  }

  // ---- The production app ----------------------------------------------

  /** An element as the production app stores it in its results JSON:
      `type`, `bbox` and `page` may be missing (`None`); a missing or empty
      `bbox` is `None`. */
  datatype Stored = Stored(kind: Option<string>, box: Option<BBox>, page: Option<int>)

  /** `element.get("type", "text")` */
  function StoredKind(e: Stored): string {
    if e.kind.Some? then e.kind.value else "text"
  }

  /** The production colour table, `#000000` for any other type. */
  function ProductionColor(kind: string): string {
    if kind == "title" then "#FF0000"
    else if kind == "header" then "#FF6B00"
    else if kind == "subheader" then "#FFA500"
    else if kind == "text" then "#0066FF"
    else if kind == "table" then "#00CC00"
    else if kind == "table_cell" then "#00AA00"
    else if kind == "image" then "#9900FF"
    else if kind == "footer" then "#666666"
    else "#000000"
  }

  /** Each of the eight listed types has its own colour and every other
      type is black. */
  lemma ProductionColorSpec(kind: string)
    ensures kind == "title" <==> ProductionColor(kind) == "#FF0000"
    ensures kind == "header" <==> ProductionColor(kind) == "#FF6B00"
    ensures kind == "subheader" <==> ProductionColor(kind) == "#FFA500"
    ensures kind == "text" <==> ProductionColor(kind) == "#0066FF"
    ensures kind == "table" <==> ProductionColor(kind) == "#00CC00"
    ensures kind == "table_cell" <==> ProductionColor(kind) == "#00AA00"
    ensures kind == "image" <==> ProductionColor(kind) == "#9900FF"
    ensures kind == "footer" <==> ProductionColor(kind) == "#666666"
    ensures kind !in {"title", "header", "subheader", "text", "table", "table_cell", "image", "footer"} <==> ProductionColor(kind) == "#000000"
  {
  }

  /** The mark of a stored element, or nothing when it has no box; the
      label is the upper-cased type. */
  function ProductionMark(e: Stored): seq<Mark> {
    if e.box.None? then []
    else
      var scaled := Scale2(e.box.value);
      [Mark(scaled, ProductionColor(StoredKind(e)), LabelAt(scaled), Upper(StoredKind(e)))]
  }

  function ProductionMarks(es: seq<Stored>, k: nat): seq<Mark>
    requires k <= |es|
  {
    if k == 0 then [] else ProductionMarks(es, k - 1) + ProductionMark(es[k - 1])
  }

  /** The elements among the first `k` that have a box. */
  function Boxed(es: seq<Stored>, k: nat): seq<Stored>
    requires k <= |es|
  {
    if k == 0 then [] else Boxed(es, k - 1) + (if es[k - 1].box.Some? then [es[k - 1]] else [])
  }

  /** The production drawing is one mark per element with a box, in order,
      each at twice that box with the type's colour and upper-cased name. */
  lemma {:induction false} ProductionMarksSpec(es: seq<Stored>, k: nat)
    requires k <= |es|
    ensures |ProductionMarks(es, k)| == |Boxed(es, k)|
    ensures forall i :: 0 <= i < |Boxed(es, k)| ==>
      Boxed(es, k)[i].box.Some? &&
      ProductionMarks(es, k)[i] == ProductionMark(Boxed(es, k)[i])[0]
    ensures forall e :: e in Boxed(es, k) <==> e in es[..k] && e.box.Some?
  {
    if k > 0 {
      ProductionMarksSpec(es, k - 1);
      assert es[..k] == es[..k - 1] + [es[k - 1]];
    }
  }

  lemma MarksStep(es: seq<Stored>, k: nat)
    requires k < |es|
    ensures ProductionMarks(es, k + 1) == ProductionMarks(es, k) + ProductionMark(es[k])
  {
  }

  /** `generate_annotated_image` of the production app: every element with
      a `bbox` drawn in order, the others skipped. */
  method DrawProduction(elements: seq<Stored>) returns (marks: seq<Mark>)
    ensures marks == ProductionMarks(elements, |elements|)
  {
    marks := [];
    var i := 0;
    while i < |elements|
      invariant 0 <= i <= |elements|
      invariant marks == ProductionMarks(elements, i)
    {
      MarksStep(elements, i);
      var e := elements[i];
      if e.box.Some? {
        var kind := StoredKind(e);
        var color := ProductionColor(kind);
        var scaled := Scale2(e.box.value);
        marks := marks + [Mark(scaled, color, LabelAt(scaled), Upper(kind))];
      }
      i := i + 1;
    }
  }

  /** `[e for e in elements if e.get("page") == page_num]`: a missing
      `page` never matches. */
  function StoredOnPage(es: seq<Stored>, pageNum: int): (r: seq<Stored>)
    ensures forall e :: e in r <==> e in es && e.page == Some(pageNum)
  {
    if es == [] then []
    else StoredOnPage(es[..|es| - 1], pageNum) + (if es[|es| - 1].page == Some(pageNum) then [es[|es| - 1]] else [])
  }

  /** The elements `get_annotated_image` hands to the drawing: none without
      a results file or without an entry for the model, else that model's
      elements on the requested (0-based) page. */
  function AnnotatedElements(results: Option<map<string, seq<Stored>>>, model: string, pageNum: int): (r: seq<Stored>)
    ensures r != [] ==> results.Some? && model in results.value
    ensures results.Some? && model in results.value ==>
      forall e :: e in r <==> e in results.value[model] && e.page == Some(pageNum)
  {
    if results.Some? && model in results.value then StoredOnPage(results.value[model], pageNum) else []
  }
}
