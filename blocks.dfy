/**
 * The text blocks PyMuPDF's `page.get_text("dict")` returns, taken as
 * input: a block with `lines` (each a list of spans with text, font size
 * and box) or an image block without them; and the two ways the pipelines
 * assemble a block's text from its spans.
 */
module Blocks {

  import opened Text
  import opened Geometry

  datatype Span = Span(text: string, size: real, box: BBox)

  datatype Line = Line(spans: seq<Span>)

  /** A block with `"lines"`, or one without (an image block). */
  datatype Block = TextBlock(lines: seq<Line>, box: BBox) | ImageBlock(box: BBox)

  /** Every character is white space, so `s.strip()` is empty. */
  predicate Blank(s: string) {
    forall i :: 0 <= i < |s| ==> IsSpace(s[i])
  }

  lemma BlankIsEmptyStrip(s: string)
    ensures Strip(s) == [] <==> Blank(s)
  {
    StripSpec(s);
  }

  lemma BlankConcat(a: string, b: string)
    ensures Blank(a + b) <==> Blank(a) && Blank(b)
  {
    if Blank(a + b) {
      forall i | 0 <= i < |a| ensures IsSpace(a[i]) {
        assert (a + b)[i] == a[i];
      }
      forall i | 0 <= i < |b| ensures IsSpace(b[i]) {
        assert (a + b)[|a| + i] == b[i];
      }
    }
  }

  /** The texts of the spans of a line, concatenated. */
  function SpansText(spans: seq<Span>): string {
    if spans == [] then "" else SpansText(spans[..|spans| - 1]) + spans[|spans| - 1].text
  }

  /** `block_text += span["text"]` for every span of every line, with no
      separator. */
  function LinesText(lines: seq<Line>): string {
    if lines == [] then "" else LinesText(lines[..|lines| - 1]) + SpansText(lines[|lines| - 1].spans)
  }

  /** A line's text is blank exactly when every one of its spans is. */
  lemma {:induction false} SpansTextBlank(spans: seq<Span>)
    ensures Blank(SpansText(spans)) <==> forall j :: 0 <= j < |spans| ==> Blank(spans[j].text)
  {
    if spans != [] {
      var p := spans[..|spans| - 1];
      SpansTextBlank(p);
      BlankConcat(SpansText(p), spans[|spans| - 1].text);
      assert forall j :: 0 <= j < |p| ==> p[j] == spans[j];
    }
  }

  /** The concatenated text of a block is blank exactly when every line's
      text is: a block yields an element only when some span holds a
      character other than white space. */
  lemma {:induction false} LinesTextBlank(lines: seq<Line>)
    ensures Blank(LinesText(lines)) <==> forall i :: 0 <= i < |lines| ==> Blank(SpansText(lines[i].spans))
  {
    if lines != [] {
      var p := lines[..|lines| - 1];
      LinesTextBlank(p);
      BlankConcat(LinesText(p), SpansText(lines[|lines| - 1].spans));
      assert forall i :: 0 <= i < |p| ==> p[i] == lines[i];
    }
  }

  /** The span loop of one line. */
  method LineText(line: Line) returns (text: string)
    ensures text == SpansText(line.spans)
  {
    text := "";
    var j := 0;
    while j < |line.spans|
      invariant 0 <= j <= |line.spans|
      invariant text == SpansText(line.spans[..j])
    {
      assert line.spans[..j + 1][..j] == line.spans[..j];
      text := text + line.spans[j].text;
      j := j + 1;
    }
    assert line.spans[..j] == line.spans;
  }

  /** The nested line and span loops of the text-block branch. */
  method ConcatSpans(lines: seq<Line>) returns (text: string)
    ensures text == LinesText(lines)
  {
    text := "";
    var i := 0;
    while i < |lines|
      invariant 0 <= i <= |lines|
      invariant text == LinesText(lines[..i])
    {
      assert lines[..i + 1][..i] == lines[..i];
      var t := LineText(lines[i]);
      text := text + t;
      i := i + 1;
    }
    assert lines[..i] == lines;
  }

  /** The line-broken variant: a line's text is kept, followed by a line
      feed, only when it is not blank (`if line_text.strip()`). */
  function BrokenText(lines: seq<Line>): string {
    if lines == [] then ""
    else
      var t := SpansText(lines[|lines| - 1].spans);
      BrokenText(lines[..|lines| - 1]) + (if !Blank(t) then t + "\n" else "")
  }

  /** The line-broken text is blank exactly when every line is. */
  lemma {:induction false} BrokenTextBlank(lines: seq<Line>)
    ensures Blank(BrokenText(lines)) <==> forall i :: 0 <= i < |lines| ==> Blank(SpansText(lines[i].spans))
  {
    if lines != [] {
      var p := lines[..|lines| - 1];
      var t := SpansText(lines[|lines| - 1].spans);
      BrokenTextBlank(p);
      if !Blank(t) {
        assert BrokenText(lines) == BrokenText(p) + (t + "\n");
        BlankConcat(BrokenText(p), t + "\n");
        BlankConcat(t, "\n");
      } else {
        assert BrokenText(lines) == BrokenText(p);
      }
      assert forall i :: 0 <= i < |p| ==> p[i] == lines[i];
    }
  }

  /** Blank lines leave no trace: a block of blank lines has empty text. */
  lemma {:induction false} BrokenTextEmpty(lines: seq<Line>)
    requires forall i :: 0 <= i < |lines| ==> Blank(SpansText(lines[i].spans))
    ensures BrokenText(lines) == ""
  {
    if lines != [] {
      BrokenTextEmpty(lines[..|lines| - 1]);
    }
  }

  /** The line loop of the Docling fallback: `line_text` from the spans,
      then `block_text += line_text + "\n"` when it is not blank. */
  method BreakLines(lines: seq<Line>) returns (text: string)
    ensures text == BrokenText(lines)
  {
    text := "";
    var i := 0;
    while i < |lines|
      invariant 0 <= i <= |lines|
      invariant text == BrokenText(lines[..i])
    {
      assert lines[..i + 1][..i] == lines[..i];
      var t := LineText(lines[i]);
      BlankIsEmptyStrip(t);
      if Strip(t) != [] {
        text := text + t + "\n";
      }
      i := i + 1;
    }
    assert lines[..i] == lines;
  }

  /** The sizes of the spans of a line, in order. */
  function SpanSizes(spans: seq<Span>): seq<real> {
    if spans == [] then [] else SpanSizes(spans[..|spans| - 1]) + [spans[|spans| - 1].size]
  }

  /** `font_sizes`: the sizes of every span of every line. */
  function LineSizes(lines: seq<Line>): seq<real> {
    if lines == [] then [] else LineSizes(lines[..|lines| - 1]) + SpanSizes(lines[|lines| - 1].spans)
  }
}
