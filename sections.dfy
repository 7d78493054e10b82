/**
 * Academic section headers: the keyword test and numbered-heading test that
 * decide whether a block is a section header, and the keyword tables that
 * name the section.  Keywords are looked for as substrings of the block
 * text lower-cased and stripped.
 */
module Sections {

  import opened Text

  /** `text.lower().strip()` */
  function Normalized(text: string): string {
    Strip(Lower(text))
  }

  /** The length of the run of digits at the start of `s`. */
  function DigitRun(s: string): (n: nat)
    ensures n <= |s|
    ensures forall i :: 0 <= i < n ==> IsDigit(s[i])
    ensures n < |s| ==> !IsDigit(s[n])
  {
    if s != [] && IsDigit(s[0]) then 1 + DigitRun(s[1..]) else 0
  }

  /** The length of the run of white space at the start of `s`. */
  function SpaceRun(s: string): (n: nat)
    ensures n <= |s|
    ensures forall i :: 0 <= i < n ==> IsSpace(s[i])
    ensures n < |s| ==> !IsSpace(s[n])
  {
    if s != [] && IsSpace(s[0]) then 1 + SpaceRun(s[1..]) else 0
  }

  /** `re.match(r'^\d+\.?\s+[A-Z]', s)`, computed the way the regex engine
      first tries it: all leading digits, a dot if there is one, all the
      white space after it, then a capital letter.  (No other way of
      matching can succeed, see `NumberedHeadingSpec`.) */
  predicate NumberedHeading(s: string) {
    var d := DigitRun(s);
    var t := s[d..];
    var u := if t != [] && t[0] == '.' then t[1..] else t;
    var w := SpaceRun(u);
    d > 0 && w > 0 && w < |u| && IsUpperChar(u[w])
  }

  /** `s` starts with `d` digits, `p` dots (none or one), `w` white-space
      characters and a capital letter: one way for the regex to match. */
  predicate HeadingShape(s: string, d: nat, p: nat, w: nat) {
    d >= 1 && p <= 1 && w >= 1 && d + p + w < |s|
    && (forall i :: 0 <= i < d ==> IsDigit(s[i]))
    && (p == 1 ==> s[d] == '.')
    && (forall i :: d + p <= i < d + p + w ==> IsSpace(s[i]))
    && IsUpperChar(s[d + p + w])
  }

  /** The deterministic test accepts exactly the strings the regex matches. */
  lemma NumberedHeadingSpec(s: string)
    ensures NumberedHeading(s) <==> exists d, p, w :: HeadingShape(s, d, p, w)
  {
    var d := DigitRun(s);
    var t := s[d..];
    var dot := t != [] && t[0] == '.';
    var u := if dot then t[1..] else t;
    var p := if dot then 1 else 0;
    var w := SpaceRun(u);
    assert u == s[d + p..];
    if NumberedHeading(s) {
      assert HeadingShape(s, d, p, w);
    }
    if exists d', p', w' :: HeadingShape(s, d', p', w') {
      var d', p', w' :| HeadingShape(s, d', p', w');
      ShapeIsRuns(s, d', p', w');
    }
  }

  lemma ShapeIsRuns(s: string, d: nat, p: nat, w: nat)
    requires HeadingShape(s, d, p, w)
    ensures NumberedHeading(s)
  {
    assert !IsDigit(s[d]);
    DigitRunIs(s, d);
    var t := s[d..];
    assert (t[0] == '.') <==> p == 1;
    var u := if t != [] && t[0] == '.' then t[1..] else t;
    assert u == s[d + p..];
    assert forall i :: 0 <= i < w ==> IsSpace(u[i]);
    assert !IsSpace(u[w]);
    SpaceRunIs(u, w);
  }

  lemma {:induction false} DigitRunIs(s: string, n: nat)
    requires n <= |s| && (forall i :: 0 <= i < n ==> IsDigit(s[i])) && (n < |s| ==> !IsDigit(s[n]))
    ensures DigitRun(s) == n
  {
    if n > 0 {
      DigitRunIs(s[1..], n - 1);
    }
  }

  lemma {:induction false} SpaceRunIs(s: string, n: nat)
    requires n <= |s| && (forall i :: 0 <= i < n ==> IsSpace(s[i])) && (n < |s| ==> !IsSpace(s[n]))
    ensures SpaceRun(s) == n
  {
    if n > 0 {
      SpaceRunIs(s[1..], n - 1);
    }
  }

  /** `academic_sections` of `_is_academic_section`. */
  const AcademicKeywords: seq<string> := [
    "abstract", "introduction", "methodology", "methods", "results",
    "discussion", "conclusion", "acknowledgments", "references",
    "bibliography", "appendix", "related work", "background",
    "literature review", "experimental setup", "evaluation",
    "future work", "limitations"
  ]

  /** What `_is_academic_section` decides. */
  predicate AcademicSection(text: string) {
    ContainsAny(Normalized(text), AcademicKeywords) || NumberedHeading(Strip(text))
  }

  /** The keyword loop of `_is_academic_section`, with its early return:
      `section in text_lower or text_lower == section` for each keyword (the
      second test adds nothing to the first). */
  method AnyKeyword(textLower: string, keywords: seq<string>) returns (found: bool)
    ensures found <==> exists i :: 0 <= i < |keywords| && Contains(textLower, keywords[i])
  {
    var k := 0;
    while k < |keywords|
      invariant 0 <= k <= |keywords|
      invariant forall j :: 0 <= j < k ==> !Contains(textLower, keywords[j])
    {
      var section := keywords[k];
      if Contains(textLower, section) || textLower == section {
        if !Contains(textLower, section) {
          assert SliceAt(textLower, section, 0);
        }
        return true;
      }
      k := k + 1;
    }
    return false;
  }

  /** `_is_academic_section`: the keyword loop, then the numbered-heading
      test on the stripped (not lower-cased) text.  True exactly when a
      keyword is a substring of the normalised text, or the text has the
      numbered-heading shape. */
  method IsAcademicSection(text: string) returns (b: bool)
    ensures b <==> (exists i :: 0 <= i < |AcademicKeywords| && Contains(Normalized(text), AcademicKeywords[i]))
                   || exists d, p, w :: HeadingShape(Strip(text), d, p, w)
    ensures b == AcademicSection(text)
  {
    NumberedHeadingSpec(Strip(text));
    b := AnyKeyword(Normalized(text), AcademicKeywords);
    if !b {
      b := NumberedHeading(Strip(text));
    }
  }

  /** A keyword and the section it names. */
  datatype SectionKey = SectionKey(keyword: string, section: string)

  /** `section_types` of `_get_section_type`, in dictionary order. */
  const PipelineSections: seq<SectionKey> := [
    SectionKey("abstract", "abstract"),
    SectionKey("introduction", "introduction"),
    SectionKey("methodology", "methods"),
    SectionKey("methods", "methods"),
    SectionKey("results", "results"),
    SectionKey("discussion", "discussion"),
    SectionKey("conclusion", "conclusion"),
    SectionKey("acknowledgments", "acknowledgments"),
    SectionKey("references", "references"),
    SectionKey("bibliography", "references"),
    SectionKey("appendix", "appendix")
  ]

  /** The `if`/`elif` chain of the single-container app's `get_section_type`. */
  const AppSections: seq<SectionKey> := [
    SectionKey("abstract", "abstract"),
    SectionKey("introduction", "introduction"),
    SectionKey("method", "methods"),
    SectionKey("result", "results"),
    SectionKey("discussion", "discussion"),
    SectionKey("conclusion", "conclusion"),
    SectionKey("reference", "references")
  ]

  /** The section of the first keyword of `table` found in `tl`, else `other`. */
  function FirstSection(tl: string, table: seq<SectionKey>): string {
    if table == [] then "other"
    else if Contains(tl, table[0].keyword) then table[0].section
    else FirstSection(tl, table[1..])
  }

  /** The first matching keyword decides; with none, the answer is `other`. */
  lemma {:induction false} FirstSectionSpec(tl: string, table: seq<SectionKey>)
    ensures (forall j :: 0 <= j < |table| ==> !Contains(tl, table[j].keyword)) ==> FirstSection(tl, table) == "other"
    ensures forall i :: 0 <= i < |table| && Contains(tl, table[i].keyword)
              && (forall j :: 0 <= j < i ==> !Contains(tl, table[j].keyword))
              ==> FirstSection(tl, table) == table[i].section
  {
    if table != [] {
      FirstSectionSpec(tl, table[1..]);
      forall i | 0 < i < |table| && Contains(tl, table[i].keyword)
                && (forall j :: 0 <= j < i ==> !Contains(tl, table[j].keyword))
        ensures FirstSection(tl, table) == table[i].section
      {
        assert !Contains(tl, table[0].keyword);
        assert table[1..][i - 1] == table[i];
        assert forall j :: 0 <= j < i - 1 ==> table[1..][j] == table[j + 1];
      }
    }
  }

  /** The answer is the section of some entry, or `other`. */
  lemma {:induction false} FirstSectionCodomain(tl: string, table: seq<SectionKey>)
    ensures FirstSection(tl, table) == "other" || exists i :: 0 <= i < |table| && FirstSection(tl, table) == table[i].section
  {
    if table != [] && !Contains(tl, table[0].keyword) {
      FirstSectionCodomain(tl, table[1..]);
      if FirstSection(tl, table) != "other" {
        var i :| 0 <= i < |table[1..]| && FirstSection(tl, table[1..]) == table[1..][i].section;
        assert table[i + 1] == table[1..][i];
      }
    }
  }

  /** `_get_section_type` and `get_section_type`: the loop over the table
      with early return. */
  method GetSectionType(text: string, table: seq<SectionKey>) returns (section: string)
    ensures section == FirstSection(Normalized(text), table)
  {
    var textLower := Normalized(text);
    var k := 0;
    while k < |table|
      invariant 0 <= k <= |table|
      invariant FirstSection(textLower, table) == FirstSection(textLower, table[k..])
    {
      assert table[k..][1..] == table[k + 1..];
      if Contains(textLower, table[k].keyword) {
        return table[k].section;
      }
      k := k + 1;
    }
    return "other";
  }

  /** The pipeline's section names: `methodology` and `methods` both give
      `methods`, `bibliography` gives `references`, and nothing outside the
      ten names below (with `other`) is ever returned. */
  lemma PipelineSectionNames(text: string)
    ensures FirstSection(Normalized(text), PipelineSections) in
      {"abstract", "introduction", "methods", "results", "discussion", "conclusion",
       "acknowledgments", "references", "appendix", "other"}
  {
    FirstSectionCodomain(Normalized(text), PipelineSections);
  }

  /** A header naming only the bibliography is a references section. */
  lemma BibliographyIsReferences(text: string)
    requires Contains(Normalized(text), "bibliography")
    requires forall j :: 0 <= j < 9 ==> !Contains(Normalized(text), PipelineSections[j].keyword)
    ensures FirstSection(Normalized(text), PipelineSections) == "references"
  {
    FirstSectionSpec(Normalized(text), PipelineSections);
    assert PipelineSections[9].keyword == "bibliography";
  }

  /** Text naming none of the keywords is an `other` section. */
  lemma NoKeywordIsOther(text: string, table: seq<SectionKey>)
    requires forall j :: 0 <= j < |table| ==> !Contains(Normalized(text), table[j].keyword)
    ensures FirstSection(Normalized(text), table) == "other"
  {
    FirstSectionSpec(Normalized(text), table);
  }

  /** The app's section names. */
  lemma AppSectionNames(text: string)
    ensures FirstSection(Normalized(text), AppSections) in
      {"abstract", "introduction", "methods", "results", "discussion", "conclusion", "references", "other"}
  {
    FirstSectionCodomain(Normalized(text), AppSections);
  }

  /** `academic_sections` of the app's `is_academic_section`. */
  const AppAcademicKeywords: seq<string> := [
    "abstract", "introduction", "methodology", "methods", "results",
    "discussion", "conclusion", "acknowledgments", "references"
  ]

  /** The app's `is_academic_section`: a keyword test only, no numbering rule. */
  predicate AppAcademicSection(text: string) {
    ContainsAny(Normalized(text), AppAcademicKeywords)
  }

  /** Every header the app recognises the pipeline recognises too. */
  lemma AppAcademicIsAcademic(text: string)
    ensures AppAcademicSection(text) ==> AcademicSection(text)
  {
    if AppAcademicSection(text) {
      var i :| 0 <= i < |AppAcademicKeywords| && Contains(Normalized(text), AppAcademicKeywords[i]);
      assert AppAcademicKeywords[i] == AcademicKeywords[i];
    }
  }
}
