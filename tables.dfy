/**
 * The markdown rendering of an extracted table (a list of rows, the first
 * being the header): a header line, a `---` separator line with one cell
 * per header cell, then one line per data row, keeping only the rows with
 * as many cells as the header.  The scientific variant rewrites each data
 * cell first; the plain variant leaves cells as they are.
 */
module Tables {

  import opened Text

  type TableData = seq<seq<string>>

  /** `"| " + " | ".join(cells) + " |\n"` */
  function Row(cells: seq<string>): string {
    "| " + Join(" | ", cells) + " |\n"
  }

  /** `["---"] * n` */
  function Dashes(n: nat): (r: seq<string>)
    ensures |r| == n
    ensures forall i :: 0 <= i < n ==> r[i] == "---"
  {
    if n == 0 then [] else Dashes(n - 1) + ["---"]
  }

  /** The data rows kept, in order: those with exactly `width` cells. */
  function Kept(rows: TableData, width: nat): (r: TableData)
    ensures |r| <= |rows|
    ensures forall i :: 0 <= i < |r| ==> |r[i]| == width
    ensures forall row :: row in r <==> row in rows && |row| == width
  {
    if rows == [] then []
    else
      var p := rows[..|rows| - 1];
      var last := rows[|rows| - 1];
      assert rows == p + [last];
      Kept(p, width) + (if |last| == width then [last] else [])
  }

  /** Each cell rewritten by `f`. */
  function MapCells(cells: seq<string>, f: string -> string): (r: seq<string>)
    ensures |r| == |cells|
    ensures forall i :: 0 <= i < |r| ==> r[i] == f(cells[i])
  {
    if cells == [] then [] else MapCells(cells[..|cells| - 1], f) + [f(cells[|cells| - 1])]
  }

  lemma MapCellsPointwise(cells: seq<string>, r: seq<string>, f: string -> string)
    requires |r| == |cells|
    requires forall i :: 0 <= i < |r| ==> r[i] == f(cells[i])
    ensures r == MapCells(cells, f)
  {
  }

  /** The text rendered once the data rows `rows` have been considered:
      header line and separator line, then one line per kept row. */
  function Rendered(headers: seq<string>, rows: TableData, f: string -> string): string {
    if rows == [] then Row(headers) + Row(Dashes(|headers|))
    else
      var last := rows[|rows| - 1];
      Rendered(headers, rows[..|rows| - 1], f) + (if |last| == |headers| then Row(MapCells(last, f)) else "")
  }

  /** One more data row considered. */
  lemma RenderedStep(headers: seq<string>, rows: TableData, k: nat, f: string -> string)
    requires k < |rows|
    ensures Rendered(headers, rows[..k + 1], f)
         == Rendered(headers, rows[..k], f) + (if |rows[k]| == |headers| then Row(MapCells(rows[k], f)) else "")
  {
    assert rows[..k + 1][..k] == rows[..k];
  }

  /** The whole rendering; `""` for an empty table or an empty header row. */
  function Markdown(table: TableData, f: string -> string): (md: string)
    ensures md == "" <==> table == [] || table[0] == []
  {
    if table == [] || table[0] == [] then ""
    else
      RenderedNonEmpty(table[0], table[1..], f);
      Rendered(table[0], table[1..], f)
  }

  lemma RenderedNonEmpty(headers: seq<string>, rows: TableData, f: string -> string)
    ensures |Rendered(headers, rows, f)| > 0
  {
    if rows != [] {
      RenderedNonEmpty(headers, rows[..|rows| - 1], f);
    }
  }

  /** The rendering of a table with a non-empty header, as the loop builds it. */
  lemma MarkdownParts(table: TableData, f: string -> string)
    requires table != [] && table[0] != []
    ensures Markdown(table, f) == Rendered(table[0], table[1..][..|table| - 1], f)
  {
    assert table[1..][..|table| - 1] == table[1..];
  }

  function Id(s: string): string { s }

  lemma {:induction false} MapCellsId(cells: seq<string>)
    ensures MapCells(cells, Id) == cells
  {
    if cells != [] {
      MapCellsId(cells[..|cells| - 1]);
    }
  }

  /** `_format_table_markdown` (and the identical `format_table_markdown`):
      the string accumulated header line, separator line, then data row by
      data row. */
  method FormatTable(table: TableData) returns (md: string)
    ensures md == Markdown(table, Id)
  {
    if table == [] || table[0] == [] {
      return "";
    }
    var headers := table[0];
    md := "";
    md := md + Row(headers);
    md := md + Row(Dashes(|headers|));
    var rows := table[1..];
    var k := 0;
    while k < |rows|
      invariant 0 <= k <= |rows|
      invariant md == Rendered(headers, rows[..k], Id)
    {
      var row := rows[k];
      RenderedStep(headers, rows, k, Id);
      if |row| == |headers| {
        MapCellsId(row);
        md := md + Row(row);
      }
      k := k + 1;
    }
    MarkdownParts(table, Id);
  }

  /** The inner loop of `_format_scientific_table`: each cell of a row
      rewritten, in order. */
  method FormatRow(row: seq<string>, format: string -> string) returns (formatted: seq<string>)
    ensures formatted == MapCells(row, format)
  {
    formatted := [];
    var j := 0;
    while j < |row|
      invariant 0 <= j <= |row|
      invariant |formatted| == j
      invariant forall t :: 0 <= t < j ==> formatted[t] == format(row[t])
    {
      formatted := formatted + [format(row[j])];
      j := j + 1;
    }
    MapCellsPointwise(row, formatted, format);
  }

  /** `_format_scientific_table`: as `FormatTable`, but each cell of a kept
      data row is rewritten by `format` (`$latex$` for a cell holding a
      formula) in an inner loop before the row is joined. */
  method FormatScientificTable(table: TableData, format: string -> string) returns (md: string)
    ensures md == Markdown(table, format)
  {
    if table == [] || table[0] == [] {
      return "";
    }
    var headers := table[0];
    md := "";
    md := md + Row(headers);
    md := md + Row(Dashes(|headers|));
    var rows := table[1..];
    var k := 0;
    while k < |rows|
      invariant 0 <= k <= |rows|
      invariant md == Rendered(headers, rows[..k], format)
    {
      var row := rows[k];
      RenderedStep(headers, rows, k, format);
      if |row| == |headers| {
        var formatted := FormatRow(row, format);
        md := md + Row(formatted);
      }
      k := k + 1;
    }
    MarkdownParts(table, format);
  }

  lemma RowOneLine(cells: seq<string>)
    requires forall i :: 0 <= i < |cells| ==> '\n' !in cells[i]
    ensures Count(Row(cells), '\n') == 1
  {
    JoinNoChar(" | ", cells, '\n');
    CountAppend("| " + Join(" | ", cells), " |\n", '\n');
    CountAppend("| ", Join(" | ", cells), '\n');
    assert Count(" |\n", '\n') == 1;
  }

  lemma {:induction false} RenderedLines(headers: seq<string>, rows: TableData, f: string -> string)
    requires forall i :: 0 <= i < |headers| ==> '\n' !in headers[i]
    requires forall r, c :: r in rows && c in r ==> '\n' !in f(c)
    ensures Count(Rendered(headers, rows, f), '\n') == 2 + |Kept(rows, |headers|)|
  {
    if rows == [] {
      RowOneLine(headers);
      RowOneLine(Dashes(|headers|));
      CountAppend(Row(headers), Row(Dashes(|headers|)), '\n');
    } else {
      var p := rows[..|rows| - 1];
      var last := rows[|rows| - 1];
      assert rows == p + [last];
      assert forall r :: r in p ==> r in rows;
      RenderedLines(headers, p, f);
      if |last| == |headers| {
        assert last in rows;
        forall i | 0 <= i < |last| ensures '\n' !in MapCells(last, f)[i] {
          assert last[i] in last;
        }
        RowOneLine(MapCells(last, f));
        CountAppend(Rendered(headers, p, f), Row(MapCells(last, f)), '\n');
      } else {
        assert Rendered(headers, rows, f) == Rendered(headers, p, f);
      }
    }
  }

  /** When no (rewritten) cell spans several lines, the rendering of a table
      with a non-empty header has exactly two lines more than the number of
      data rows whose length matches the header. */
  lemma MarkdownLineCount(table: TableData, f: string -> string)
    requires table != [] && table[0] != []
    requires forall i :: 0 <= i < |table[0]| ==> '\n' !in table[0][i]
    requires forall r, c :: r in table[1..] && c in r ==> '\n' !in f(c)
    ensures Count(Markdown(table, f), '\n') == 2 + |Kept(table[1..], |table[0]|)|
  {
    RenderedLines(table[0], table[1..], f);
  }

  /** The plain rendering, stated on cells that hold no line break. */
  lemma PlainLineCount(table: TableData)
    requires table != [] && table[0] != []
    requires forall r, c :: r in table && c in r ==> '\n' !in c
    ensures Count(Markdown(table, Id), '\n') == 2 + |Kept(table[1..], |table[0]|)|
  {
    assert table[0] in table;
    forall r, c | r in table[1..] && c in r ensures '\n' !in Id(c) {
      assert r in table;
    }
    MarkdownLineCount(table, Id);
  }
}
