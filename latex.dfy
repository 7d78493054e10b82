/**
 * The Unicode-to-LaTeX rewriting of mathematical symbols: a table of
 * (symbol, command) pairs applied one after the other with `str.replace`,
 * in the table's (dictionary insertion) order.  The scientific pipeline
 * uses an 18-entry table, the single-container app an 8-entry one.
 */
module Latex {

  import opened Wrappers
  import opened Text

  /** A character outside ASCII: every symbol the tables rewrite is one. */
  type Symbol = c: char | c >= '\U{0080}' witness '\U{0080}'

  predicate Ascii(s: string) {
    forall i :: 0 <= i < |s| ==> s[i] < '\U{0080}'
  }

  /** A LaTeX command: plain ASCII, so it never holds a `Symbol`. */
  type Command = s: string | Ascii(s)

  datatype Replacement = Replacement(symbol: Symbol, command: Command)

  /** The `replacements` dictionary of `_convert_to_latex`. */
  const ScientificTable: seq<Replacement> := [
    Replacement('±', "\\pm"),
    Replacement('≤', "\\leq"),
    Replacement('≥', "\\geq"),
    Replacement('≠', "\\neq"),
    Replacement('≈', "\\approx"),
    Replacement('∝', "\\propto"),
    Replacement('∈', "\\in"),
    Replacement('∉', "\\notin"),
    Replacement('⊂', "\\subset"),
    Replacement('⊃', "\\supset"),
    Replacement('∪', "\\cup"),
    Replacement('∩', "\\cap"),
    Replacement('∑', "\\sum"),
    Replacement('∏', "\\prod"),
    Replacement('∫', "\\int"),
    Replacement('∂', "\\partial"),
    Replacement('∇', "\\nabla"),
    Replacement('∞', "\\infty")
  ]

  /** The `replacements` dictionary of `extract_latex_simple`. */
  const SimpleTable: seq<Replacement> := [
    Replacement('±', "\\pm"),
    Replacement('≤', "\\leq"),
    Replacement('≥', "\\geq"),
    Replacement('≠', "\\neq"),
    Replacement('≈', "\\approx"),
    Replacement('∑', "\\sum"),
    Replacement('∏', "\\prod"),
    Replacement('∫', "\\int")
  ]

  /** `text` after `text = text.replace(symbol, command)` for each entry of
      `table` in order. */
  function ReplacedAll(text: string, table: seq<Replacement>): string {
    if table == [] then text
    else
      var last := table[|table| - 1];
      ReplaceChar(ReplacedAll(text, table[..|table| - 1]), last.symbol, last.command)
  }

  /** The rewriting loop of `_convert_to_latex` and `extract_latex_simple`. */
  method ConvertToLatex(text: string, table: seq<Replacement>) returns (latex: string)
    ensures latex == ReplacedAll(text, table)
  {
    latex := text;
    var k := 0;
    while k < |table|
      invariant 0 <= k <= |table|
      invariant latex == ReplacedAll(text, table[..k])
    {
      assert table[..k + 1][..k] == table[..k];
      latex := ReplaceChar(latex, table[k].symbol, table[k].command);
      k := k + 1;
    }
    assert table[..k] == table;
  }

  lemma AsciiExcludes(s: string, c: char)
    requires Ascii(s) && c >= '\U{0080}'
    ensures c !in s
  {
  }

  /** After the rewriting no symbol of the table is left, whatever the input. */
  lemma {:induction false} NoSymbolLeft(text: string, table: seq<Replacement>)
    ensures forall k :: 0 <= k < |table| ==> table[k].symbol !in ReplacedAll(text, table)
  {
    if table != [] {
      var p := table[..|table| - 1];
      var last := table[|table| - 1];
      NoSymbolLeft(text, p);
      forall k | 0 <= k < |table| ensures table[k].symbol !in ReplacedAll(text, table) {
        AsciiExcludes(last.command, table[k].symbol);
        if k < |p| {
          assert p[k] == table[k];
        }
      }
    }
  }

  /** Text holding none of the table's symbols is returned unchanged. */
  lemma {:induction false} UnchangedWithoutSymbols(text: string, table: seq<Replacement>)
    requires forall k :: 0 <= k < |table| ==> table[k].symbol !in text
    ensures ReplacedAll(text, table) == text
  {
    if table != [] {
      UnchangedWithoutSymbols(text, table[..|table| - 1]);
    }
  }

  /** `_convert_to_latex` removes each of its 18 symbols and keeps text free
      of them. */
  lemma ScientificConversion(text: string)
    ensures forall k :: 0 <= k < |ScientificTable| ==> ScientificTable[k].symbol !in ReplacedAll(text, ScientificTable)
    ensures (forall k :: 0 <= k < |ScientificTable| ==> ScientificTable[k].symbol !in text) ==> ReplacedAll(text, ScientificTable) == text
  {
    NoSymbolLeft(text, ScientificTable);
    if forall k :: 0 <= k < |ScientificTable| ==> ScientificTable[k].symbol !in text {
      UnchangedWithoutSymbols(text, ScientificTable);
    }
  }

  /** `extract_latex_simple` removes each of its 8 symbols and keeps text free
      of them. */
  lemma SimpleConversion(text: string)
    ensures forall k :: 0 <= k < |SimpleTable| ==> SimpleTable[k].symbol !in ReplacedAll(text, SimpleTable)
    ensures (forall k :: 0 <= k < |SimpleTable| ==> SimpleTable[k].symbol !in text) ==> ReplacedAll(text, SimpleTable) == text
  {
    NoSymbolLeft(text, SimpleTable);
    if forall k :: 0 <= k < |SimpleTable| ==> SimpleTable[k].symbol !in text {
      UnchangedWithoutSymbols(text, SimpleTable);
    }
  }

  /** `_extract_latex`: the first `$...$` match found by the regex (an input:
      `None` when the regex finds none), otherwise the symbol conversion. */
  function LatexOf(text: string, firstMatch: Option<string>): string {
    match firstMatch
    case Some(m) => m
    case None => ReplacedAll(text, ScientificTable)
  }

  /** `_extract_latex` as the pipeline runs it, with the conversion loop. */
  method ExtractLatex(text: string, firstMatch: Option<string>) returns (latex: string)
    ensures latex == LatexOf(text, firstMatch)
    ensures firstMatch.None? ==> forall k :: 0 <= k < |ScientificTable| ==> ScientificTable[k].symbol !in latex
  {
    if firstMatch.Some? {
      return firstMatch.value;
    }
    latex := ConvertToLatex(text, ScientificTable);
    ScientificConversion(text);
  }
}
