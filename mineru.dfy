/**
 * The scientific-document pipeline: the decision list that types a text
 * block with formula, citation and section awareness, the classification
 * of a table by its header words, the rewriting of formula cells in a
 * table, and the in-place enhancement of extracted elements (formulas get
 * their LaTeX, citations their reference list, section headers their
 * section name).
 */
module Mineru {

  import opened Wrappers
  import opened Text
  import opened Geometry
  import opened Tables
  import opened Latex
  import opened References
  import opened Sections

  /** The regex-based detectors, as inputs: `_contains_formula`,
      `_contains_citation`, the first `$...$` match of `_extract_latex`, and
      the bracket and author-year groups `_extract_references` finds. */
  datatype Detectors = Detectors(
    formula: string -> bool,
    citation: string -> bool,
    firstLatex: string -> Option<string>,
    bracketGroups: string -> seq<BracketGroup>,
    authorYear: string -> seq<string>)

  /** The caption test on the normalised text. */
  predicate Caption(tl: string) {
    StartsWithAny(tl, ["fig", "figure", "table", "chart"]) || Contains(tl, "figure") || Contains(tl, "table")
  }

  /** `_classify_scientific_block`: equation, then citation, then section
      header, then caption, then title (short text near the top), then
      text. */
  function ClassifyScientificBlock(text: string, box: BBox, formula: bool, citation: bool): (kind: string)
    ensures kind in {"equation", "citation", "header", "caption", "title", "text"}
    ensures kind == "equation" <==> formula
    ensures kind == "citation" <==> !formula && citation
    ensures kind == "header" <==> !formula && !citation && AcademicSection(text)
    ensures kind == "caption" <==> !formula && !citation && !AcademicSection(text) && Caption(Normalized(text))
    ensures kind == "title" ==> |Normalized(text)| < 100 && box.y1 < 150.0
  {
    var tl := Normalized(text);
    if formula then "equation"
    else if citation then "citation"
    else if AcademicSection(text) then "header"
    else if Caption(tl) then "caption"
    else if |tl| < 100 && box.y1 < 150.0 then "title"
    else "text"
  }

  /** A block that is not an equation, citation, header or caption is a
      title exactly when it is short and near the top. */
  lemma TitleRule(text: string, box: BBox, formula: bool, citation: bool)
    requires !formula && !citation && !AcademicSection(text) && !Caption(Normalized(text))
    ensures ClassifyScientificBlock(text, box, formula, citation) == "title" <==> |Normalized(text)| < 100 && box.y1 < 150.0
    ensures ClassifyScientificBlock(text, box, formula, citation) != "title" ==> ClassifyScientificBlock(text, box, formula, citation) == "text"
  {
  }

  const ResultWords: seq<string> := ["result", "data", "value", "measurement", "experiment"]
  const StatisticsWords: seq<string> := ["mean", "std", "p-value", "significance", "correlation"]
  const ComparisonWords: seq<string> := ["method", "approach", "algorithm", "model", "comparison"]
  const ParameterWords: seq<string> := ["parameter", "setting", "configuration", "hyperparameter"]

  /** `' '.join(h.lower() for h in headers)` */
  function HeaderText(headers: seq<string>): string {
    Join(" ", MapCells(headers, Lower))
  }

  /** `_classify_table_type`: `unknown` for an empty table; otherwise the
      first keyword group found in the lower-cased header words decides, in
      the order results, statistics, comparison, parameters, and a header
      with none of them is a data table. */
  function ClassifyTableType(table: TableData): (kind: string)
    ensures kind in {"unknown", "results", "statistics", "comparison", "parameters", "data"}
    ensures kind == "unknown" <==> table == []
    ensures table != [] ==> var h := HeaderText(table[0]);
      (kind == "results" <==> ContainsAny(h, ResultWords)) &&
      (kind == "statistics" <==> !ContainsAny(h, ResultWords) && ContainsAny(h, StatisticsWords)) &&
      (kind == "comparison" <==> !ContainsAny(h, ResultWords) && !ContainsAny(h, StatisticsWords) && ContainsAny(h, ComparisonWords)) &&
      (kind == "parameters" <==> !ContainsAny(h, ResultWords) && !ContainsAny(h, StatisticsWords) && !ContainsAny(h, ComparisonWords) && ContainsAny(h, ParameterWords))
  {
    if table == [] then "unknown"
    else
      var h := HeaderText(table[0]);
      if ContainsAny(h, ResultWords) then "results"
      else if ContainsAny(h, StatisticsWords) then "statistics"
      else if ContainsAny(h, ComparisonWords) then "comparison"
      else if ContainsAny(h, ParameterWords) then "parameters"
      else "data"
  }

  /** No keyword occurs in the empty string. */
  lemma NoneInEmpty(ws: seq<string>)
    requires forall i :: 0 <= i < |ws| ==> |ws[i]| > 0
    ensures !ContainsAny("", ws)
  {
  }

  /** An empty header row holds no keyword, so its table is a data table. */
  lemma EmptyHeaderIsData(table: TableData)
    requires table != [] && table[0] == []
    ensures ClassifyTableType(table) == "data"
  {
    assert HeaderText(table[0]) == "";
    NoneInEmpty(ResultWords);
    NoneInEmpty(StatisticsWords);
    NoneInEmpty(ComparisonWords);
    NoneInEmpty(ParameterWords);
  }

  /** A data cell of `_format_scientific_table`: a cell holding a formula is
      replaced by its LaTeX between dollar signs, any other cell is kept. */
  function ScientificCell(d: Detectors, cell: string): (r: string)
    ensures !d.formula(cell) ==> r == cell
    ensures d.formula(cell) ==> |r| >= 2 && r[0] == '$' && r[|r| - 1] == '$'
    ensures d.formula(cell) && d.firstLatex(cell).None? ==>
      forall k :: 0 <= k < |ScientificTable| ==> ScientificTable[k].symbol !in r[1..|r| - 1]
  {
    if d.formula(cell) then
      var latex := LatexOf(cell, d.firstLatex(cell));
      var r := "$" + latex + "$";
      assert r[1..|r| - 1] == latex;
      ScientificConversion(cell);
      r
    else cell
  }

  /** `_format_scientific_table`, rendering with `ScientificCell`. */
  method FormatScientific(table: TableData, d: Detectors) returns (md: string)
    ensures md == Markdown(table, c => ScientificCell(d, c))
    ensures md == "" <==> table == [] || table[0] == []
  {
    md := FormatScientificTable(table, c => ScientificCell(d, c));
  }

  /** The fields of an element that the enhancement reads or writes. */
  datatype Snapshot = Snapshot(kind: string, latex: Option<string>, references: Option<seq<string>>, sectionType: Option<string>)

  /** Whether the reference extraction of a citation raises. */
  predicate CitationFails(d: Detectors, content: string) {
    !d.formula(content) && d.citation(content) && AddGroups(d.bracketGroups(content)).None?
  }

  /** What one pass of the loop body makes of an element: equation (with its
      LaTeX), else citation (with its references), else section header
      (with its section name), else nothing changes. */
  function Enhanced(d: Detectors, content: string, s: Snapshot): Snapshot {
    if d.formula(content) then s.(kind := "equation", latex := Some(LatexOf(content, d.firstLatex(content))))
    else if d.citation(content) then s.(kind := "citation", references := ReferencesOf(d.bracketGroups(content), d.authorYear(content)))
    else if AcademicSection(content) then s.(kind := "header", sectionType := Some(FirstSection(Normalized(content), PipelineSections)))
    else s
  }

  /** The type after enhancement is the old one or equation, citation or
      header, in that priority. */
  lemma EnhancedKind(d: Detectors, content: string, s: Snapshot)
    ensures Enhanced(d, content, s).kind in {s.kind, "equation", "citation", "header"}
    ensures Enhanced(d, content, s).kind == "equation" <== d.formula(content)
    ensures d.formula(content) || Enhanced(d, content, s).kind != "equation" || s.kind == "equation"
    ensures !d.formula(content) && d.citation(content) ==> Enhanced(d, content, s).kind == "citation"
    ensures !d.formula(content) && !d.citation(content) && !AcademicSection(content) ==> Enhanced(d, content, s) == s
  {
  }

  /** Enhancing twice is enhancing once: the decision depends only on the
      content, which the enhancement does not change. */
  lemma EnhancedIdempotent(d: Detectors, content: string, s: Snapshot)
    ensures Enhanced(d, content, Enhanced(d, content, s)) == Enhanced(d, content, s)
  {
  }

  /** An extracted element, which the enhancement updates in place (a
      Python dictionary). */
  class SciElement {
    var kind: string
    var content: string
    var latex: Option<string>
    var references: Option<seq<string>>
    var sectionType: Option<string>

    constructor(kind: string, content: string)
      ensures this.kind == kind && this.content == content
      ensures latex.None? && references.None? && sectionType.None?
    {
      this.kind := kind;
      this.content := content;
      latex := None;
      references := None;
      sectionType := None;
    }

    function Snap(): Snapshot
      reads this
    {
      Snapshot(kind, latex, references, sectionType)
    }
  }

  /** The body of the loop of `_enhance_scientific_elements` for one
      element.  `false` when `_extract_references` raises; the element's
      type has then already been set to `citation`. */
  method EnhanceOne(e: SciElement, d: Detectors) returns (ok: bool)
    modifies e
    ensures e.content == old(e.content)
    ensures ok <==> !CitationFails(d, e.content)
    ensures ok ==> e.Snap() == Enhanced(d, e.content, old(e.Snap()))
    ensures !ok ==> e.kind == "citation"
  {
    var content := e.content;
    if d.formula(content) {
      e.kind := "equation";
      var latex := ExtractLatex(content, d.firstLatex(content));
      e.latex := Some(latex);
    } else if d.citation(content) {
      e.kind := "citation";
      var refs := ExtractReferences(d.bracketGroups(content), d.authorYear(content));
      if refs.None? {
        return false;
      }
      e.references := refs;
    } else {
      var academic := IsAcademicSection(content);
      if academic {
        e.kind := "header";
        var section := GetSectionType(content, PipelineSections);
        e.sectionType := Some(section);
      }
    }
    ok := true;
  }

  /** `_enhance_scientific_elements`: every element is enhanced in place and
      the same elements are returned in the same order.  An element listed
      twice is enhanced twice, which changes nothing more.  `None` when the
      reference extraction of some citation raises; the elements updated
      before that are then left as they are, since `extract` discards them
      and falls back to the scientific PyMuPDF extraction. */
  method EnhanceScientificElements(elements: seq<SciElement>, d: Detectors) returns (r: Option<seq<SciElement>>)
    modifies set e | e in elements
    ensures forall e :: e in elements ==> e.content == old(e.content)
    ensures r.Some? ==> r.value == elements
    ensures r.Some? ==> forall e :: e in elements ==> e.Snap() == Enhanced(d, e.content, old(e.Snap()))
    ensures r.None? <==> exists e :: e in elements && CitationFails(d, e.content)
    ensures r.None? ==> exists e :: e in elements && CitationFails(d, e.content) && e.kind == "citation"
  {
    ghost var olds := map e | e in elements :: e.Snap();
    ghost var done: set<SciElement> := {};
    var enhanced: seq<SciElement> := [];
    var i := 0;
    while i < |elements|
      invariant 0 <= i <= |elements|
      invariant enhanced == elements[..i]
      invariant done == set j | 0 <= j < i :: elements[j]
      invariant forall e :: e in elements ==> e.content == old(e.content)
      invariant forall e :: e in elements ==> e.Snap() == if e in done then Enhanced(d, e.content, olds[e]) else olds[e]
      invariant forall e :: e in done ==> !CitationFails(d, e.content)
    {
      var e := elements[i];
      var ok := EnhanceOne(e, d);
      if !ok {
        return None;
      }
      EnhancedIdempotent(d, e.content, olds[e]);
      done := done + {e};
      enhanced := enhanced + [e];
      i := i + 1;
    }
    assert elements[..i] == elements;
    r := Some(enhanced);
  }
}
