# PDF extraction back-end: a verified model

The back-end turns an uploaded PDF into a list of typed, positioned
elements (`title`, `header`, `text`, `table`, `image`, `equation`,
`citation`, ...) with a markdown rendering and per-document metadata, and
draws those elements over a rendered page. It ships as four Modal apps
(`backend/modal_app.py`, `backend/modal_app_enhanced.py`,
`backend/modal_app_production.py`, `backend/modal_app_unified.py`) and three
pipelines (`backend/models/docling_pipeline.py`,
`backend/models/mineru_pipeline.py`, `backend/models/surya_pipeline.py`).

This project models the logic that sits between the library calls:

- the element classifiers (ordered decision lists over text, font size and
  box), with their priority order and closed result sets;
- the serialisers: the markdown table formatter, the citation reference
  expander (`"2-5"` gives 2, 3, 4, 5, duplicates removed), and the
  Unicode-to-LaTeX symbol rewriting;
- the box geometry: closed-interval overlap, the OCR quadrilateral to box
  conversion, the centred image-box estimate, the doubling used for
  annotation, and the page filter;
- the aggregation loops: the per-type tallies, the element counters, the
  confidence sums and the page concatenation;
- the small stateful rules: the document-history store and the
  model-availability gate in front of extraction, with its HTTP statuses.

What PyMuPDF, EasyOCR, Surya, Docling and MinerU return (text blocks and
spans, tables, images, OCR hits, layout regions) is an input to the model.
So are the regex-based detectors (formula, citation and language
detection, the bracket and author-year citation finders). Element types
are strings, since unknown types flow into the tallies and colour tables.
Coordinates, font sizes and confidences are `real`.

Modules, one per file:

- `Wrappers` (wrappers.dfy): `Option`.
- `Text` (text.dfy): ASCII `lower`/`upper`/`strip`, `join`, `split`, `str(int)`/`int(str)`, order-keeping de-duplication.
- `Geometry` (geometry.dfy): boxes, overlap, OCR box conversion, image-box estimate, doubling.
- `Elements` (elements.dfy): the element record, `_count_by_type`, the page filter.
- `Blocks` (blocks.dfy): PyMuPDF text blocks, lines and spans, and block-text assembly.
- `Tables` (tables.dfy): the markdown table formatters.
- `Latex` (latex.dfy): the symbol-to-LaTeX rewriting.
- `References` (references.dfy): citation reference extraction.
- `Sections` (sections.dfy): section typing and academic-heading tests.
- `Mineru` (mineru.dfy): the scientific classifiers and the element enhancement.
- `Docling` (docling.dfy): Docling item typing, block classification and the PyMuPDF fallback.
- `Surya` (surya.dfy): layout typing, reading order and the Surya page loop.
- `SuryaFallback` (surya_fallback.dfy): the Surya pipeline's PyMuPDF fallback.
- `Api` (api.dfy): model registry, extraction gate, upload name check.
- `ModalApp` (modalapp.dfy): the basic app's extraction and counters.
- `Annotate` (annotate.dfy): the annotated page image of three apps.
- `Production` (production.dfy): the production app's classifier, page records and upload checks.
- `Unified` (unified.dfy): the unified app's classifier, confidences, gate and history store.
- `Enhanced` (enhanced.dfy): the enhanced app's classifiers, OCR page loop and per-model loop.

## Model

| member | source | states |
|---|---|---|
| Geometry.Overlap | backend/models/surya_pipeline.py:191-193 | two boxes overlap exactly when their closed x-intervals and closed y-intervals both intersect |
| Geometry.OverlapSymmetric | backend/models/surya_pipeline.py:191-193 | overlap does not depend on the order of the two boxes |
| Geometry.OverlapIffCommonPoint | backend/models/surya_pipeline.py:193 | two well-formed boxes overlap exactly when some point lies in both, so boxes that only touch at an edge overlap |
| Geometry.OverlapReflexive | backend/models/surya_pipeline.py:193 | a box with x1 <= x2 and y1 <= y2 overlaps itself |
| Geometry.ExtremesSpec | backend/modal_app_enhanced.py:328-333 | the min/max of the corner coordinates bound every corner and are each attained by some corner |
| Geometry.QuadToBoxSpec | backend/modal_app_enhanced.py:328-333 | the box made from an OCR quadrilateral, halved, is well formed, contains every halved corner, and each side passes through a halved corner |
| Geometry.EstimateImageBox | backend/models/surya_pipeline.py:225-245 | with a page size: x1 + x2 equals the page width, the width is at most 0.8 of the page width, y1 is 0.3 of the page height, y2 is at most 0.9 of it, and an image that fits keeps its own size; without one (the `except` branch): [100, 200, 400, 500] |
| Geometry.EstimateOnPage | backend/models/surya_pipeline.py:236-245 | for non-negative page and image sizes the estimate is well formed and lies on the page |
| Geometry.Scale2 | backend/modal_app.py:286 | doubling every coordinate doubles the position and the side lengths and keeps a box well formed (and only a well-formed one) |
| Geometry.Scale2Inside | backend/modal_app_production.py:304 | a point lies in a box exactly when the doubled point lies in the doubled box |
| Text.Lower | backend/modal_app_production.py:356 | `str.lower` keeps the length and lowers each ASCII capital, leaving every other character alone |
| Text.Upper | backend/modal_app_production.py:314 | `str.upper` keeps the length and raises each ASCII lower-case letter, leaving every other character alone |
| Text.TrimLeftSpec | backend/models/mineru_pipeline.py:221 | `lstrip` drops a prefix made only of white space, and what it keeps starts with a non-space |
| Text.TrimRightSpec | backend/models/mineru_pipeline.py:221 | `rstrip` drops a suffix made only of white space, and what it keeps ends with a non-space |
| Text.StripSpec | backend/models/mineru_pipeline.py:221 | `strip` gives a slice of the string that neither starts nor ends with white space; it is empty exactly when the string is all white space, and a string with no white space is unchanged |
| Text.Join | backend/modal_app.py:235 | `sep.join` of no parts is empty and of one part is that part |
| Text.JoinCons | backend/modal_app.py:235 | joining `x` before at least one more part puts `x`, then the separator, then the join of the rest |
| Text.JoinNoChar | backend/models/docling_pipeline.py:265-278 | a character in neither the separator nor any part is not in their join |
| Text.SplitOnSpec | backend/models/mineru_pipeline.py:220-224 | `s.split(c)` gives at least one piece, no piece holds `c`, and joining the pieces back with `c` gives `s` |
| Text.ReplaceChar | backend/models/mineru_pipeline.py:193-194 | after `s.replace(c, rep)`, `c` is gone unless `rep` holds it, nothing but characters of `rep` and of `s` remains, and a string without `c` is unchanged |
| Text.NatToString | backend/models/mineru_pipeline.py:225 | `str(n)` is a non-empty string of decimal digits with no leading zero |
| Text.ParseNatToString | backend/models/mineru_pipeline.py:225 | reading back `str(n)` gives `n` |
| Text.NatToStringInjective | backend/models/mineru_pipeline.py:225 | distinct numbers have distinct `str` forms |
| Text.ParseInt | backend/models/mineru_pipeline.py:225 | `int(s)` on digits and white space succeeds exactly when the stripped string is a non-empty run of digits |
| Text.ParseIntOfNat | backend/models/mineru_pipeline.py:225 | `int(str(n))` succeeds and gives `n` |
| Text.Distinct | backend/models/mineru_pipeline.py:234 | the de-duplicated list has the same members as the input, each once, and is no longer |
| Text.Count | backend/models/docling_pipeline.py:263-278 | the number of occurrences of a character is at most the length, and zero exactly when the character is absent |
| Text.CountAppend | backend/models/docling_pipeline.py:263-278 | occurrences in a concatenation add up |
| Elements.Kinds | backend/models/docling_pipeline.py:126-127 | the `type` of each element, in order |
| Elements.TallyCounts | backend/models/docling_pipeline.py:123-129 | the tally has a key exactly for each type that occurs, and maps it to the number of its occurrences |
| Elements.TallySum | backend/models/docling_pipeline.py:123-129 | the counts, summed over the keys in first-occurrence order, add up to the number of items counted |
| Elements.CountByType | backend/models/docling_pipeline.py:123-129 | `_count_by_type`: the dictionary the loop builds has a key exactly for each type present, each count is the number of elements of that type, and the counts sum to `len(elements)`; the same loop is `_count_by_type` at backend/models/mineru_pipeline.py:283-289 and backend/models/surya_pipeline.py:217-223, `_count_elements_by_type` at backend/modal_app_unified.py:511-517 and the `element_types` tally at backend/modal_app_enhanced.py:278-288 |
| Elements.TallyOfElements | backend/models/docling_pipeline.py:123-129 | the tally of the elements' types has the keys, the counts and the sum stated for `CountByType` |
| Elements.TallyKeys | backend/models/docling_pipeline.py:123-129 | a type is a key of the tally exactly when some element has it |
| Elements.KindsMembers | backend/models/docling_pipeline.py:126-127 | a type is in the list of types exactly when some element has it |
| Elements.OnPage | backend/modal_app.py:274 | `[e for e in elements if e.page == page_num]`: every kept element is on the page, every element on the page is kept with its multiplicity, and nothing else is; the unified app's filter at backend/modal_app_unified.py:535 is the same |
| References.RangeRefs | backend/models/mineru_pipeline.py:225-226 | `[str(i) for i in range(lo, hi)]` has `hi - lo` entries (none when `hi <= lo`), the `i`-th being `str(lo + i)` |
| References.RangeRefsMembers | backend/models/mineru_pipeline.py:225-226 | `str(i)` is among the values of `range(lo, hi)` exactly when `lo <= i < hi` |
| References.RangePartRefs | backend/models/mineru_pipeline.py:222-226 | a range part `"a-b"` contributes `str(a)`, ..., `str(b)`, every integer from a to b inclusive, in order (none when a > b) |
| References.RangeStripped | backend/models/mineru_pipeline.py:222-226 | the stripped part `"a-b"` splits at the dash, both ends are read back by `int()`, and the range a..b is appended |
| References.SinglePartRefs | backend/models/mineru_pipeline.py:227-228 | a part without a dash contributes itself |
| References.TwoDashesRaise | backend/models/mineru_pipeline.py:224 | a part with two dashes (`"1-2-3"`) cannot be unpacked into start and end, so the extraction raises |
| References.ThreeRunsRaise | backend/models/mineru_pipeline.py:224 | any three digit runs joined by two dashes raise in the unpacking |
| References.DigitsDashSplit | backend/models/mineru_pipeline.py:224 | two digit runs joined by one dash split back into exactly those two runs |
| References.PartRefsOfClean | backend/models/mineru_pipeline.py:221 | a part without white space is its own stripped form |
| References.AddRangeAppends | backend/models/mineru_pipeline.py:225-226 | the innermost loop appends exactly the range's values to what was collected |
| References.AddPartAppends | backend/models/mineru_pipeline.py:220-228 | handling one part appends that part's contribution, and raises exactly when the part does |
| References.AppendRange | backend/models/mineru_pipeline.py:225-226 | the `for i in range(...)` loop leaves the list extended by the range's values |
| References.AppendPart | backend/models/mineru_pipeline.py:221-228 | the body of the loop over parts: strip, then a range or the part itself, `None` where Python raises |
| References.AppendGroup | backend/models/mineru_pipeline.py:218-228 | the loop over the comma-separated parts of one bracket group, stopping at the first part that raises |
| References.ExtractReferences | backend/models/mineru_pipeline.py:212-234 | `_extract_references`: fails exactly when some part raises; otherwise the result is the de-duplicated concatenation of the bracket references and the author-year citations, holds no duplicates, and holds exactly the references collected; with no author-year citations it is `extract_references_simple` at backend/modal_app_enhanced.py:601-614 |
| References.NoneStaysParts | backend/models/mineru_pipeline.py:220-228 | once a part raises, the group raises |
| References.NoneStaysGroups | backend/models/mineru_pipeline.py:218-228 | once a group raises, the extraction raises |
| Latex.ConvertToLatex | backend/models/mineru_pipeline.py:165-195 | the rewriting loop leaves the text with every symbol of its table replaced by its command, one table entry after another, in dictionary order; with the 8-entry table it is `extract_latex_simple` at backend/modal_app_enhanced.py:589-599 |
| Latex.NoSymbolLeft | backend/models/mineru_pipeline.py:192-193 | after the loop no symbol of the table remains in the output, whatever the input |
| Latex.UnchangedWithoutSymbols | backend/models/mineru_pipeline.py:192-193 | text holding none of the table's symbols is returned unchanged |
| Latex.ScientificConversion | backend/models/mineru_pipeline.py:171-195 | `_convert_to_latex` leaves none of its 18 symbols in the output and keeps text free of them unchanged |
| Latex.SimpleConversion | backend/modal_app_enhanced.py:589-599 | `extract_latex_simple` leaves none of its 8 symbols in the output and keeps text free of them unchanged |
| Latex.ExtractLatex | backend/models/mineru_pipeline.py:155-163 | `_extract_latex` returns the first `$...$` match when there is one, and otherwise the converted text, which then holds none of the 18 symbols |
| Tables.Dashes | backend/models/docling_pipeline.py:271 | `["---"] * n` has `n` cells, each `---` |
| Tables.Kept | backend/models/docling_pipeline.py:274-276 | the data rows kept are, in order, exactly the rows whose length equals the header's |
| Tables.MapCells | backend/models/mineru_pipeline.py:466-472 | each cell is rewritten in place, the row keeping its length |
| Tables.Markdown | backend/models/docling_pipeline.py:263-264 | the rendering is `""` exactly when the table is empty or its header row is |
| Tables.RenderedNonEmpty | backend/models/docling_pipeline.py:269-271 | a table with a header row renders to a non-empty string |
| Tables.FormatTable | backend/models/docling_pipeline.py:261-278 | `_format_table_markdown`: the string the loop accumulates is the header line, then the separator, then one line per data row of the header's length, and `""` for an empty table or header; `format_table_markdown` at backend/modal_app_enhanced.py:638-652 is the same code |
| Tables.FormatRow | backend/models/mineru_pipeline.py:466-472 | the inner loop of `_format_scientific_table` gives each cell of the row rewritten, in order |
| Tables.FormatScientificTable | backend/models/mineru_pipeline.py:451-475 | `_format_scientific_table`: as the plain formatter, with each cell of a kept data row rewritten before the row is joined |
| Tables.RowOneLine | backend/models/docling_pipeline.py:276 | a row whose cells hold no line break renders as exactly one line |
| Tables.RenderedLines | backend/models/docling_pipeline.py:269-276 | the header and separator are two lines and each kept row adds one |
| Tables.MarkdownLineCount | backend/models/docling_pipeline.py:263-278 | when no (rewritten) cell holds a line break, the rendering has 2 lines plus one per data row whose length matches the header |
| Tables.PlainLineCount | backend/models/docling_pipeline.py:263-278 | the same line count for the plain formatter, on cells without line breaks |
| Mineru.ClassifyScientificBlock | backend/models/mineru_pipeline.py:423-449 | the result is one of equation, citation, header, caption, title, text; each of the first four holds exactly when its test passes and every earlier one fails (equation > citation > header > caption), and `title` needs stripped length < 100 and bbox[1] < 150 |
| Mineru.TitleRule | backend/models/mineru_pipeline.py:444-449 | once the first four tests fail, the block is a title exactly when it is short and near the top, and text otherwise |
| Mineru.ClassifyTableType | backend/models/mineru_pipeline.py:477-500 | `unknown` exactly for an empty table; otherwise results, statistics, comparison or parameters, each exactly when its keyword group is the first found in the lower-cased header words, and `data` when none is |
| Mineru.EmptyHeaderIsData | backend/models/mineru_pipeline.py:482-500 | a table whose header row is empty is a data table |
| Mineru.ScientificCell | backend/models/mineru_pipeline.py:469-472 | a cell without a formula is kept; a formula cell becomes its LaTeX between `$` signs, holding none of the 18 symbols when no `$...$` match was found |
| Mineru.FormatScientific | backend/models/mineru_pipeline.py:451-475 | `_format_scientific_table` with the formula rewriting of cells, `""` exactly for an empty table or header row |
| Mineru.EnhancedKind | backend/models/mineru_pipeline.py:117-131 | the type after enhancement is the old one or equation, citation or header, in that priority, and an element none of whose tests passes is left unchanged |
| Mineru.EnhancedIdempotent | backend/models/mineru_pipeline.py:117-131 | enhancing an element twice is enhancing it once |
| Mineru.SciElement.constructor | backend/models/mineru_pipeline.py:113-117 | an element with a type and a content and none of the fields the enhancement adds |
| Mineru.EnhanceOne | backend/models/mineru_pipeline.py:117-131 | the loop body for one element: the content is unchanged, and the type and the added field are those of `Enhanced`; when the reference extraction raises the type is already `citation` |
| Mineru.EnhanceScientificElements | backend/models/mineru_pipeline.py:113-135 | `_enhance_scientific_elements`: the same elements come back in the same order (length and order preserved), each updated in place as `Enhanced` says, and the call fails exactly when some citation's references raise |
| Sections.DigitRun | backend/models/mineru_pipeline.py:254 | the length of the leading run of digits: all digits before it and a non-digit (or the end) at it |
| Sections.SpaceRun | backend/models/mineru_pipeline.py:254 | the length of the leading run of white space, with the same two facts |
| Sections.NumberedHeadingSpec | backend/models/mineru_pipeline.py:254 | the deterministic test accepts exactly the strings that start with one or more digits, an optional dot, one or more white-space characters and a capital letter (`^\d+\.?\s+[A-Z]`) |
| Sections.ShapeIsRuns | backend/models/mineru_pipeline.py:254 | any way of matching that shape is found by the greedy test |
| Sections.AnyKeyword | backend/models/mineru_pipeline.py:249-251 | the keyword loop with early return answers true exactly when some keyword is a substring of the text (the `==` test adds nothing) |
| Sections.IsAcademicSection | backend/models/mineru_pipeline.py:236-257 | `_is_academic_section` is true exactly when some listed keyword is a substring of the lower-cased stripped text or the stripped text has the numbered-heading shape |
| Sections.FirstSectionSpec | backend/models/mineru_pipeline.py:277-281 | the first keyword of the table found in the text decides the section; with none found the section is `other` |
| Sections.FirstSectionCodomain | backend/models/mineru_pipeline.py:277-281 | the section is `other` or the section of some table entry |
| Sections.GetSectionType | backend/models/mineru_pipeline.py:259-281 | `_get_section_type`: the loop over the keyword dictionary in its order, with early return, gives the first matching keyword's section, else `other`; given the keyword table abstract, introduction, method, result, discussion, conclusion, reference it is the `if`/`elif` chain of `get_section_type` at backend/modal_app_enhanced.py:569-587 |
| Sections.PipelineSectionNames | backend/models/mineru_pipeline.py:263-275 | the pipeline's sections are abstract, introduction, methods, results, discussion, conclusion, acknowledgments, references, appendix or other |
| Sections.BibliographyIsReferences | backend/models/mineru_pipeline.py:273 | a header whose only keyword is `bibliography` is a references section |
| Sections.NoKeywordIsOther | backend/models/mineru_pipeline.py:281 | text holding none of the keywords is an `other` section |
| Sections.AppSectionNames | backend/modal_app_enhanced.py:569-587 | the app's sections are abstract, introduction, methods, results, discussion, conclusion, references or other |
| Sections.AppAcademicIsAcademic | backend/modal_app_enhanced.py:560-567 | every header the app's keyword-only `is_academic_section` recognises the pipeline's test recognises too |
| Docling.NamedKind | backend/models/docling_pipeline.py:109-120 | the lower-cased class name is tested for title/heading, header, table, list, figure/image in that order; each result holds exactly when its test is the first to pass, and `None` exactly when none passes |
| Docling.GetElementType | backend/models/docling_pipeline.py:106-121 | `_get_element_type` always returns one of title, header, table, list, image, text: the type the name names, and text exactly when it names none |
| Docling.ClassifyBlock | backend/models/docling_pipeline.py:245-258 | `title` exactly when the stripped text is shorter than 100 and bbox[1] < 200; otherwise `header` exactly when the text starts with a header word or is shorter than 50; else `text` (the `all_blocks` argument plays no part) |
| Docling.ShortBlockIsHeading | backend/models/docling_pipeline.py:250-256 | a block whose stripped text is shorter than 50 characters is a title (near the top) or a header, never text |
| Docling.ProcessBlocks | backend/models/docling_pipeline.py:147-183 | the block loop of one page appends, for each block with lines and non-blank text, one element typed by `ClassifyBlock` with the stripped text at confidence 0.85, and its markdown line with `#`/`##` for titles and headers |
| Docling.ProcessTables | backend/models/docling_pipeline.py:188-212 | the table loop of one page appends, for each table with rows, a `table` element holding its markdown at confidence 0.80, and that markdown |
| Docling.ProcessPage | backend/models/docling_pipeline.py:139-212 | one page: the heading and the block markdown make `page_content`, which precedes the tables in the markdown; block elements precede table elements |
| Docling.FallbackExtraction | backend/models/docling_pipeline.py:131-243 | `_fallback_extraction`: a document that does not open gives the failure result (empty elements, `success` false, zero totals, empty `by_type`); otherwise the elements and markdown are the pages' in order and the metadata holds the page count, `total_elements == len(elements)`, the per-type tally and `confidence_avg`, the mean confidence with 0.85 for a document without elements |
| Docling.FallbackKinds | backend/models/docling_pipeline.py:164-193 | every fallback element is a title, header, text or table, at confidence 0.80 for a table and 0.85 otherwise |
| Docling.FallbackAverage | backend/models/docling_pipeline.py:223 | the fallback's `confidence_avg` is 0.85 without elements and otherwise lies between 0.80 and 0.85 |
| Docling.BlockKinds | backend/models/docling_pipeline.py:164-175 | block elements are titles, headers or text, on their page, at 0.85 |
| Docling.TableKinds | backend/models/docling_pipeline.py:189-202 | table elements are typed `table`, on their page, at 0.80 |
| Docling.FallbackPages | backend/models/docling_pipeline.py:139-202 | every element carries the index of a page of the document |
| Docling.PageElementBound | backend/models/docling_pipeline.py:147-202 | a page yields at most one element per block and per table |
| Docling.BlockBound | backend/models/docling_pipeline.py:147-175 | at most one element per block |
| Docling.TableBound | backend/models/docling_pipeline.py:189-202 | at most one element per table |
| Docling.BlockYields | backend/models/docling_pipeline.py:154-162 | a text block yields an element exactly when one of its line texts is not blank |
| Blocks.BlankIsEmptyStrip | backend/modal_app.py:168 | `s.strip()` is empty exactly when every character of `s` is white space |
| Blocks.BlankConcat | backend/modal_app.py:165-168 | a concatenation is blank exactly when both parts are |
| Blocks.SpansTextBlank | backend/modal_app.py:165-168 | a line's concatenated text is blank exactly when every span's text is |
| Blocks.LinesTextBlank | backend/modal_app.py:165-168 | a block's concatenated text is blank exactly when every line's text is, so a block yields an element only when some span holds a non-space character |
| Blocks.LineText | backend/models/docling_pipeline.py:155-157 | the span loop of one line concatenates the spans' texts in order |
| Blocks.ConcatSpans | backend/modal_app.py:161-166 | the nested line and span loops concatenate every span's text, in order, with no separator |
| Blocks.BrokenTextBlank | backend/models/docling_pipeline.py:154-162 | the line-broken block text is blank exactly when every line's text is |
| Blocks.BrokenTextEmpty | backend/models/docling_pipeline.py:159-160 | blank lines add nothing to the line-broken text |
| Blocks.BreakLines | backend/models/docling_pipeline.py:154-160 | the line loop of the Docling fallback appends each non-blank line's text followed by a line feed |
| Api.GateOkIff | backend/modal_app.py:352-364 | the gate loop succeeds exactly when every requested model is listed, available and extracts without raising |
| Api.GateResults | backend/modal_app.py:352-364 | a successful request returns an entry exactly for each requested model, holding that model's result |
| Api.GateRejects | backend/modal_app.py:353-357 | the first requested model that is absent from `AVAILABLE_MODELS` or unavailable stops the request with a 400, no results map being returned |
| Api.ExtractContent | backend/modal_app.py:341-370 | `extract_content` with each `HTTPException`'s status kept: 404 for a missing file, then the gate loop, which stores each result under its model's name |
| Api.AsWrittenRejectionIs500 | backend/modal_app.py:368-370 | as written, the blanket `except Exception` turns the gate's 400 into a 500 |
| Api.AsWrittenAgrees | backend/modal_app.py:341-370 | apart from the status of a failure, the code as written and the intended gate agree: one succeeds exactly when the other does, with the same results |
| Api.PdfNameIff | backend/modal_app.py:312 | `filename.lower().endswith('.pdf')` holds exactly when the last four characters lower to `.pdf`, so the test ignores case |
| Api.LowerConcat | backend/modal_app.py:312 | lowering a concatenation lowers each part |
| Api.UploadRejection | backend/modal_app.py:309-313 | `upload_file` refuses with a 400 exactly the names that do not end in `.pdf` in some case, and lets the others through |
| ModalApp.HealthCount | backend/modal_app.py:408 | the health check reports 2 available models: `pymupdf_basic` and `pymupdf_advanced` |
| ModalApp.ModalGate | backend/modal_app.py:101-138 | a request succeeds exactly when it names only the two PyMuPDF modes and none of their extractions raises, so `docling` and `surya` always fail |
| ModalApp.SwitchedOffModelStatus | backend/modal_app.py:356-357 | asking for the listed but switched-off `docling` is meant to be a 400, and as written gives a 500 |
| Elements.ConfSumAppend | backend/modal_app.py:178 | the sum of the confidences of two lists concatenated is the sum of their sums |
| Elements.ConfSumPush | backend/modal_app.py:178 | appending one element adds its confidence to the sum |
| Elements.ConfSumBounds | backend/modal_app.py:238 | when every confidence lies between `lo` and `hi`, the sum lies between `n * lo` and `n * hi` |
| Elements.AverageConfidenceBounds | backend/models/docling_pipeline.py:223 | `sum(confidences) / len(elements) if elements else default` is the default for no elements and otherwise lies within any bounds every confidence respects |
| ModalApp.DocOutStep | backend/modal_app.py:152-231 | the first `k + 1` pages give the first `k` pages' elements and texts followed by page `k`'s, or fail when either does |
| ModalApp.DocOutAdvance | backend/modal_app.py:152-231 | after page `k` the collected elements and texts are extended by that page's; a page that raises makes the whole document fail |
| ModalApp.DocOutFails | backend/modal_app.py:144-256 | once a page raises, the whole extraction does |
| ModalApp.BlocksOutStep | backend/modal_app.py:160-179 | one more block appends that block's element and text, if any |
| ModalApp.TablesOutStep | backend/modal_app.py:183-197 | one more table appends that table's element and text, if its conversion did not raise |
| ModalApp.ImagesOutStep | backend/modal_app.py:200-213 | one more image appends that image's element, if its extraction did not raise |
| ModalApp.AdvancedBlock | backend/modal_app.py:161-179 | a text block with non-blank concatenated text gives a `text` element holding the stripped text at 0.95, and bumps `total_confidence` by its confidence and `element_count` by one; any other block changes nothing |
| ModalApp.AdvancedBlocks | backend/modal_app.py:160-179 | the block loop collects every block's element and text in order, and the counters stay equal to the number and the confidence sum of the elements |
| ModalApp.AdvancedTables | backend/modal_app.py:182-197 | the table loop appends a `table` element at 0.85 and the text `"\n" + md + "\n"` for each table whose conversion succeeds, skips the others, and keeps the counters equal to the count and confidence sum |
| ModalApp.AdvancedImages | backend/modal_app.py:199-213 | the image loop appends a full-page `image` element at 0.90 labelled with the 1-based image and page numbers for each image that extracts, and keeps the counters equal |
| ModalApp.ProcessPage | backend/modal_app.py:153-231 | one page in either mode: it fails exactly when `find_tables` or `get_images` raises (advanced mode), and otherwise gives the page's elements and texts with the counters bumped by their number and confidence sum |
| ModalApp.NextPage | backend/modal_app.py:152-231 | one iteration of the page loop: page `k`'s elements and texts are appended, the counters still equal `len(elements)` and the confidence sum |
| ModalApp.ProcessPages | backend/modal_app.py:152-231 | the page loop: fails exactly when some page raises, and otherwise collects every page's elements and texts in page order, with `element_count == len(elements)` and `total_confidence` their confidence sum after every append |
| ModalApp.ExtractTextWithPositions | backend/modal_app.py:140-256 | `extract_text_with_positions`: a 500 when the document does not open or a page raises; otherwise markdown joined with blank lines, the elements, the page count, `total_elements == len(elements)`, and the average confidence (0 for no elements) |
| ModalApp.DocOutShape | backend/modal_app.py:152-231 | every element lies on a 1-based page from 1 to the page count and has a confidence from 0.85 to 0.95 |
| ModalApp.PageOutShape | backend/modal_app.py:153-231 | every element of page `n` carries page `n + 1` and a confidence from 0.85 to 0.95 |
| ModalApp.BlocksOutShape | backend/modal_app.py:169-175 | block elements are `text` at 0.95 on the 1-based page |
| ModalApp.TablesOutShape | backend/modal_app.py:186-192 | table elements are `table` at 0.85 on the 1-based page |
| ModalApp.ImagesOutShape | backend/modal_app.py:204-210 | image elements are full-page `image` elements at 0.90 on the 1-based page |
| ModalApp.AverageRange | backend/modal_app.py:238 | the average confidence of a successful extraction is 0 with no elements and otherwise between 0.85 and 0.95, and `total_elements == len(elements)` |
| ModalApp.BasicPage | backend/modal_app.py:219-230 | in basic mode a page gives at most one element, exactly when its text is not blank: a full-page `text` element with the stripped text, 1-based page and confidence 0.90 |
| ModalApp.BasicDocument | backend/modal_app.py:152-231 | basic mode never fails on a page, gives at most one element per page, and one text part per element |
| Annotate.AppColorSpec | backend/modal_app.py:276-287 | `text`, `table`, `image` and `heading` are drawn blue, green, red and purple, and exactly the other types orange |
| Annotate.AppMarksSpec | backend/modal_app.py:283-295 | the drawing loop makes one mark per element, the `i`-th for the `i`-th element |
| Annotate.DrawApp | backend/modal_app.py:258-296 | `generate_annotated_image` draws the marks of exactly the elements whose `page` is the requested page, in order |
| Annotate.AppMarksGeometry | backend/modal_app.py:286-295 | each rectangle is the element's box with every coordinate doubled, its label sits at `(2*x1, 2*y1 - 20)`, and its colour is its type's |
| Annotate.DrawAppSpec | backend/modal_app.py:274-295 | every element drawn is one of the given elements and lies on the requested page, and each is drawn with its own mark |
| Annotate.ProductionColorSpec | backend/modal_app_production.py:285-301 | each of the eight listed types gets its own colour, and exactly the other types are drawn black |
| Annotate.ProductionMarksSpec | backend/modal_app_production.py:297-317 | the production drawing has one mark for each element with a `bbox`, in order, and no element without one is drawn |
| Annotate.DrawProduction | backend/modal_app_production.py:296-317 | the drawing loop skips elements without a `bbox` and draws each other one at twice its box, with its type's colour and its upper-cased type as label |
| Annotate.StoredOnPage | backend/modal_app_production.py:581 | the page filter keeps exactly the stored elements whose `page` is present and equal to the requested page |
| Annotate.AnnotatedElements | backend/modal_app_production.py:574-581 | no elements are drawn without a results file or without an entry for the model; otherwise exactly that model's elements on the requested page |
| Production.ClassifyElementSpec | backend/modal_app_production.py:173-190 | `classify_element` returns one of five types: `title` exactly above 20 points, `subheader` exactly above 14 up to 16, `header` above 16 up to 20 or, at 14 or less, with its top in the top tenth of the page, `footer` at 14 or less with its top below nine tenths and not in the top tenth |
| Production.LargeFontIgnoresPosition | backend/modal_app_production.py:179-184 | above 14 points the type does not depend on the box or the page, and is a title or (sub)header |
| Production.SpansMaxSpec | backend/modal_app_production.py:137 | the running maximum of span sizes is at least every size seen and equal to one of them |
| Production.LinesMaxSpec | backend/modal_app_production.py:137 | the `max` over all spans of a block's lines bounds every span size and is attained; it is missing exactly when no line has a span |
| Production.NoSpanNoText | backend/modal_app_production.py:135-137 | a block without spans has empty text, so `max` is only evaluated where it has a span and cannot raise |
| Production.ProcessSpan | backend/modal_app_production.py:113-130 | a span with non-blank text yields one element of its stripped text, its box, the page, confidence 0.95 and the type its size and block give, and adds the text and a space to the line; a blank span yields nothing |
| Production.ProcessSpans | backend/modal_app_production.py:111-133 | the span loop of a line yields the elements of its spans in order, and the line adds its stripped text plus a line break to the block exactly when that text is non-blank |
| Production.ProcessLines | backend/modal_app_production.py:111-133 | the line loop of a block collects every line's span elements in order and builds the block text line by line |
| Production.ProcessBlock | backend/modal_app_production.py:106-147 | an image block contributes nothing; a text block contributes its span elements, and a markdown part exactly when its text is non-blank, prefixed `# `, `## ` or `### ` by the type of its largest span |
| Production.ProcessBlocks | backend/modal_app_production.py:106-147 | the block loop collects every block's elements and markdown part in block order |
| Production.ProcessTables | backend/modal_app_production.py:150-153 | the table loop appends each table's cell elements and its markdown, in order |
| Production.ProcessImages | backend/modal_app_production.py:156-159 | the image loop appends each image's element and the link `![Image id](image_id.png)`, in order |
| Production.IsPageOfIff | backend/modal_app_production.py:161-166 | a page record with the right number and its count equal to its list's length is exactly the record built from that page |
| Production.ProcessPage | backend/modal_app_production.py:99-166 | the record of one page: its number, the blocks' then the tables' then the images' elements, the parts joined by blank lines, and `element_count == len(elements)` |
| Production.ExtractTextWithPositions | backend/modal_app_production.py:83-171 | one record per page, in page order and numbered from 0, each counting its own elements, with `total_elements` the sum of the pages' counts and `total_pages` the page count |
| Production.IsPageOfAll | backend/modal_app_production.py:98-166 | the records collected in the loop are the records of the pages, in order |
| Production.SumCountsAppend | backend/modal_app_production.py:168 | appending a page does not change the sum over the pages before it |
| Production.ProcessWithDocling | backend/modal_app_production.py:481-503 | `process_with_docling` concatenates the pages' elements in order, builds the markdown from each page's `## Page n+1` heading and markdown, strips it, and reports `total_elements == len(all_elements)` |
| Production.TotalIsConcatenation | backend/modal_app_production.py:165-168 | when every page counts its own elements, the sum of the counts is the length of all elements concatenated |
| Production.AllElementsMembers | backend/modal_app_production.py:489-492 | an element of the concatenation is an element of some page, and every page's elements are in it |
| Production.DoclingOfExtraction | backend/modal_app_production.py:489-499 | the `total_elements` of the Docling result equals the extraction's `total_elements` |
| Production.SpanElementsShape | backend/modal_app_production.py:114-130 | every span element lies on its page, has confidence 0.95, non-empty content, and one of the five classifier types |
| Production.UploadOutcomeSpec | backend/modal_app_production.py:352-398 | an upload is accepted exactly when its name ends in `.pdf` in any case, it is at most 50 MiB and PyMuPDF opens it; every refusal is a 400, which `except HTTPException: raise` keeps |
| Unified.ClassifyDocling | backend/modal_app_unified.py:473-489 | `_classify_docling_style` gives `title` exactly for a lower-cased stripped text under 100 characters with its top in the top fifth, otherwise `header` exactly when it contains a header word, otherwise `list` exactly when it starts with a list marker, otherwise `text` |
| Unified.LongTextIsNoTitle | backend/modal_app_unified.py:478-483 | a text of 100 characters or more is never a title, and is a header when it contains a header word |
| Unified.DoclingConfidence | backend/modal_app_unified.py:347 | the Docling mode's confidence is 0.88 exactly for `text` and 0.92 exactly for every other type |
| Unified.MineruConfidence | backend/modal_app_unified.py:421 | the MinerU mode's confidence is 0.94 exactly for `equation` and `citation` and 0.89 exactly for the others |
| Unified.ModeElementSpec | backend/modal_app_unified.py:335-433 | in each enhanced mode a block yields one element exactly when it is a text block whose concatenated text is not blank, holding the stripped text and the block's box on the 1-based page, with each mode's type and confidence rule |
| Unified.UnifiedHealthCount | backend/modal_app_unified.py:662-670 | the health check counts three available models, since `AVAILABLE_MODELS` (lines 130-158) lists `docling`, `surya` and `mineru`, all available |
| Unified.UnlistedModelStatus | backend/modal_app_unified.py:612-631 | a model absent from `AVAILABLE_MODELS` is meant to be a 400, and as written gives a 500 |
| Unified.UnifiedGate | backend/modal_app_unified.py:612-631 | a request succeeds exactly when every model it names is `docling`, `surya` or `mineru` and its extraction does not raise |
| Unified.DocIdInjective | backend/modal_app_unified.py:687 | two ids `doc_{n}` are equal only for equal numbers |
| Unified.ForUserSpec | backend/modal_app_unified.py:707 | the user filter keeps exactly the entries of that user and no more entries than there are |
| Unified.LastTwenty | backend/modal_app_unified.py:711 | `s[-20:]` has `min(len(s), 20)` entries and is the tail of `s` |
| Unified.SavedIsLatest | backend/modal_app_unified.py:686-711 | an entry just saved is the last one returned to its user, or to a request with no user |
| Unified.RecentSpec | backend/modal_app_unified.py:705-711 | the history returned has at most 20 entries, exactly 20 when the filtered list has that many, is the tail of the filtered list, and with a user given holds only that user's entries |
| Unified.HistoryStore.constructor | backend/modal_app_unified.py:673 | the history starts empty |
| Unified.HistoryStore.Save | backend/modal_app_unified.py:686-698 | `save_document_history` appends exactly one entry, with id `doc_{n+1}` for the length `n` before the append, `user_id or "anonymous"` as owner and the models split on commas, and every id stays `doc_` of its 1-based position |
| Unified.HistoryStore.Get | backend/modal_app_unified.py:705-711 | `get_document_history`: at most 20 entries, the tail of the filtered list in order, only the given user's entries, and the tail of the whole history with no user |
| Unified.HistoryStore.IdsDistinct | backend/modal_app_unified.py:686-697 | the ids of a store built by `Save` are pairwise distinct |
| Enhanced.ClassifyDoclingStyle | backend/modal_app_enhanced.py:493-506 | `classify_element_docling_style` gives `title` exactly above 16 points on a text under 100 characters, `list` exactly at 14 points or less on a text starting with a list marker, `header` exactly for any other font above 14 or a short text near the top, `text` otherwise |
| Enhanced.LargeFontIsHeading | backend/modal_app_enhanced.py:497-500 | above 14 points the type is a title or a header whatever the text and position, and a header for a text of 100 characters or more |
| Enhanced.ClassifySuryaStyle | backend/modal_app_enhanced.py:508-517 | `classify_element_surya_style` gives `label` exactly for a text under 10 characters whatever its box, `caption` exactly for a longer text in a box under 20 points high, `header` exactly for a taller short upper-case text |
| Enhanced.ClassifyScientific | backend/modal_app_enhanced.py:519-540 | `classify_element_scientific` gives `equation` exactly when a formula is detected, then `citation` exactly when a citation is, then `header` for an academic section word, `caption` for a caption prefix, `title` for a short text near the top |
| Enhanced.ScientificAgrees | backend/modal_app_enhanced.py:519-540 | given the same detector results, the app's and the MinerU pipeline's scientific classifiers agree on equations and citations, and the app's headers and captions are headers or captions there |
| Enhanced.AverageBetween | backend/modal_app_enhanced.py:221 | the average font size of a block lies between its smallest and largest span size |
| Enhanced.DoclingStyleElement | backend/modal_app_enhanced.py:208-239 | a block yields one element exactly when it has lines and its concatenated span text is not blank: its stripped text and box on the 0-based page, confidence 0.92, one of the four Docling-style types |
| Enhanced.ScientificElement | backend/modal_app_enhanced.py:417-450 | a block yields one element exactly when its text is not blank, typed by the scientific classifier, with its stripped text and box, confidence 0.90, on the 0-based page; an equation alone gets `latex` (the 8-symbol rewriting), a citation alone `references` (the bracket references, de-duplicated) and a header alone `section_type` (the app's `get_section_type`); a citation whose reference extraction raises makes the extraction raise |
| Enhanced.ScientificFields | backend/modal_app_enhanced.py:444-450 | an equation's `latex` holds none of the eight symbols, a citation's `references` hold no duplicates, and a header's `section_type` is one of the app's eight section names |
| Enhanced.ScientificMarkdown | backend/modal_app_enhanced.py:454-464 | an equation block is written as a `$$` display of its symbol-rewritten text, a citation as a `> ` quote, and a block without text adds nothing |
| Enhanced.FirstRaising | backend/modal_app_enhanced.py:325-333 | the position of the first hit on which `min()` raises, every hit before it being safe |
| Enhanced.OcrPage | backend/modal_app_enhanced.py:321-375 | one OCR page: the hit loop adds an element and a markdown line for each kept hit; at the first hit that raises, or when `readtext` raises, the page content is replaced by the page text and the fallback element appended, the elements already appended staying |
| Enhanced.OcrStep | backend/modal_app_enhanced.py:326-360 | one hit that does not raise: it adds its element and its line exactly when it is kept |
| Enhanced.RaisesAt | backend/modal_app_enhanced.py:362-375 | a page whose hit `i` first raises keeps the elements of the hits before it, then the fallback element, and its markdown is the heading and the page text |
| Enhanced.Completes | backend/modal_app_enhanced.py:325-360 | a page none of whose hits raises gives exactly its hits' elements and lines |
| Enhanced.FirstRaisingAt | backend/modal_app_enhanced.py:325-333 | a raising hit with only safe hits before it is the first raising hit |
| Enhanced.FirstRaisingNone | backend/modal_app_enhanced.py:325-333 | without a raising hit the loop runs to the end |
| Enhanced.OcrElementsKept | backend/modal_app_enhanced.py:326 | exactly the hits with non-blank text and confidence above 0.5 become elements, each built from its own hit |
| Enhanced.OcrElementFacts | backend/modal_app_enhanced.py:326-352 | an OCR element lies on its page, holds the stripped non-empty text and the hit's confidence above 0.5, has a well-formed box with `x1 <= x2` and `y1 <= y2`, one of the four Surya-style types, and an id differing from the fallback id |
| Enhanced.OcrElementsShape | backend/modal_app_enhanced.py:326-354 | every OCR element of a page lies on it, has non-blank content and confidence above 0.5, and is not a fallback element |
| Enhanced.OcrPageShape | backend/modal_app_enhanced.py:321-375 | every element a page appends is an OCR element or the fallback element, and the page raised exactly when its last element is the fallback element |
| Enhanced.OcrIdIsNotFallback | backend/modal_app_enhanced.py:339-370 | the id `page_n_ocr_i` is never the id `page_n_fallback` |
| Enhanced.OcrDocStep | backend/modal_app_enhanced.py:312-377 | one more page appends that page's elements and content |
| Enhanced.ProcessWithSuryaEnhanced | backend/modal_app_enhanced.py:308-401 | `process_with_surya_enhanced` collects every page's elements and content in page order and reports the page count, `total_elements == len(elements)`, the per-type tally and the mean confidence (0.88 without elements), with `success` true |
| Enhanced.OcrDocShape | backend/modal_app_enhanced.py:312-377 | every element of the document lies on one of its pages and is that page's fallback element or an OCR element of confidence above 0.5 with non-blank content |
| Enhanced.ModelResultsStep | backend/modal_app_enhanced.py:148-184 | one more model name stores that model's entry when it is known and changes nothing otherwise |
| Enhanced.RunModels | backend/modal_app_enhanced.py:148-184 | the per-model loop stores, for each known model named, its result or the failure entry when it raised, and skips the other names |
| Enhanced.ModelResultsSpec | backend/modal_app_enhanced.py:148-184 | the results have an entry exactly for each known model named in the request, each entry that model's outcome; a repeated name leaves one entry |
| Enhanced.FailedModelEntry | backend/modal_app_enhanced.py:173-184 | a known model that raises leaves an entry with empty markdown and elements, `success` false, zero page and element totals and a `confidence_avg` of 0 |
| Enhanced.ProcessExtractionStatus | backend/modal_app_enhanced.py:131-193 | a request without an upload id is meant to be a 400 and a missing file a 404; as written, both give a 500 |
| Enhanced.ProcessExtractionIntended | backend/modal_app_enhanced.py:131-190 | with the statuses kept, a request gives a 400 exactly when the upload id is missing or empty, a 404 exactly when the file is missing, and otherwise an entry for exactly the known models named, `["docling"]` when none are given |
| Surya.FirstRegionKindNone | backend/models/surya_pipeline.py:200-215 | the layout search finds no type exactly when no region both overlaps the line and has a label naming a type |
| Surya.FirstRegionKindSome | backend/models/surya_pipeline.py:200-213 | a type found comes from a region that overlaps and names it, with no such region before it |
| Surya.LayoutKindRange | backend/models/surya_pipeline.py:195-215 | the layout type is one of `title`, `header`, `table`, `list`, `image` and `text` |
| Surya.ClassifyFromLayout | backend/models/surya_pipeline.py:195-215 | `_classify_from_layout` returns `text` without a layout result, otherwise the type named by the first overlapping region whose label names one, else `text` |
| Surya.LabelElementKind | backend/models/surya_pipeline.py:148-149 | exactly a `Table` label gives a table, exactly `Figure` and `Chart` give an image, and every other label gives no layout element |
| Surya.LayoutElementsKinds | backend/models/surya_pipeline.py:146-164 | layout elements are tables and images on their page, at most one per region |
| Surya.CollectLayoutElements | backend/models/surya_pipeline.py:146-164 | the layout loop yields, in order, one element per table, figure or chart region, at 0.85 with the label in its content; nothing without a layout result |
| Surya.FirstOverlapping | backend/models/surya_pipeline.py:105-108 | the line found overlaps the reading-order box and is an OCR line; when none is found no OCR line overlaps it |
| Surya.MatchOrderSpec | backend/models/surya_pipeline.py:102-108 | the reading order holds at most one line per reading-order box, in box order, each an OCR line overlapping its box |
| Surya.FindOverlapping | backend/models/surya_pipeline.py:105-108 | the inner loop with its `break` finds the first OCR line overlapping the box |
| Surya.OrderByReading | backend/models/surya_pipeline.py:102-108 | the reading-order loop pairs each box's index with the first OCR line overlapping it, skipping boxes without one |
| Surya.Enumerate | backend/models/surya_pipeline.py:111 | `enumerate` pairs each line with its position |
| Surya.Insert | backend/models/surya_pipeline.py:112 | inserting a line adds exactly that line to the list |
| Surya.InsertStable | backend/models/surya_pipeline.py:112 | inserting a line later than all others into a stably sorted list keeps it stably sorted |
| Surya.FromInsert | backend/models/surya_pipeline.py:112 | each entry after an insertion is the inserted line or an entry of the list before it |
| Surya.SortByY | backend/models/surya_pipeline.py:112 | the sort keeps exactly the same lines |
| Surya.SortByYSpec | backend/models/surya_pipeline.py:112 | sorting by the top edge gives a permutation ordered top to bottom, lines at one height keeping their OCR order |
| Surya.YOrderFallback | backend/models/surya_pipeline.py:109-112 | without a reading order the lines are a permutation of the OCR lines, sorted top to bottom, stably |
| Surya.LineElementsBound | backend/models/surya_pipeline.py:115-116 | at most one element per processed line, and none when every line is blank |
| Surya.LineElementsKinds | backend/models/surya_pipeline.py:115-133 | line elements lie on their page, have non-empty content and one of the six layout types |
| Surya.LineElementsOrigin | backend/models/surya_pipeline.py:120-133 | each line element holds the stripped text, box, order index and confidence of a processed line |
| Surya.LineConfidence | backend/models/surya_pipeline.py:131 | a line's element takes its `confidence`, or 0.90 when the line has none |
| Surya.LineElementsBelow | backend/models/surya_pipeline.py:115-133 | line elements lie no lower than the processed lines do |
| Surya.LineElementsTopToBottom | backend/models/surya_pipeline.py:109-133 | the elements of lines sorted by their top edge come top to bottom |
| Surya.UnorderedPageTopToBottom | backend/models/surya_pipeline.py:109-133 | without a reading order a page's line elements come top to bottom |
| Surya.ProcessLines | backend/models/surya_pipeline.py:115-143 | the line loop yields, for each non-blank line, an element typed by the layout and the markdown line its type calls for (`# `, `## `, `- ` or plain) |
| Surya.ProcessSuryaPage | backend/models/surya_pipeline.py:98-164 | one page: its heading, its lines in reading order (or sorted top to bottom), then its layout elements |
| Surya.Extract | backend/models/surya_pipeline.py:61-189 | without models, or when the run raises, the fallback's result; otherwise every page's elements and markdown in page order, with the page count, `total_elements == len(elements)`, the per-type tally and the mean confidence (0.90 without elements) |
| Surya.SuryaDocKinds | backend/models/surya_pipeline.py:97-164 | every element has one of the six types and the index of a page of the document |
| Surya.FirstRegionKindRange | backend/models/surya_pipeline.py:203-213 | a type found by the layout search is one of `title`, `header`, `table`, `list` and `image` |
| SuryaFallback.LargeImages | backend/models/surya_pipeline.py:311-314 | the images kept are exactly those at least 50 pixels wide and 50 high (the same test at lines 406-409 on text pages) |
| SuryaFallback.ImageElementsSpec | backend/models/surya_pipeline.py:303-349 | one `image` element per kept image, in order, each on its page at confidence 0.85, naming that image's size and placed by the centred estimate |
| SuryaFallback.NoDecorativeImage | backend/models/surya_pipeline.py:311-314 | every image element comes from an image of at least 50 x 50 pixels whose size it names |
| SuryaFallback.ScanBlockKinds | backend/models/surya_pipeline.py:276-301 | block elements are `text` on their page at the page's block confidence, with non-empty content, at most one per block |
| SuryaFallback.ScanBlockYields | backend/models/surya_pipeline.py:280-285 | a text block yields an element exactly when one of its spans holds a character other than white space |
| SuryaFallback.PlaceholderIff | backend/models/surya_pipeline.py:266-365 | the placeholder element is on a page exactly when the page's stripped text is under 50 characters and its image listing did not raise, and it is then the page's last element |
| SuryaFallback.TextPageKinds | backend/models/surya_pipeline.py:366-448 | a page with 50 or more characters of text has only `text` elements at 0.80 and `image` elements at 0.85 |
| SuryaFallback.ImageKinds | backend/models/surya_pipeline.py:320-331 | image elements are `image` on their page at 0.85 |
| SuryaFallback.ScanBlocks | backend/models/surya_pipeline.py:276-301 | the block loop yields, for each text block with non-blank span text, a `text` element with the stripped text and the markdown paragraph, skipping blocks without lines; text pages run the same loop at lines 371-396 |
| SuryaFallback.ScanImage | backend/models/surya_pipeline.py:306-346 | one image: skipped when under 50 pixels in either direction, otherwise an element at the estimated box with its size, and a 1-based image link with a size line |
| SuryaFallback.ScanImages | backend/models/surya_pipeline.py:304-349 | the image loop yields the elements and markdown of the kept images, in order |
| SuryaFallback.ScanPageStep | backend/models/surya_pipeline.py:260-450 | one page: the heading, its blocks at 0.75 when scanned and 0.80 otherwise, its images, and on a scanned page whose image listing did not raise the placeholder line and element |
| SuryaFallback.FallbackExtraction | backend/models/surya_pipeline.py:252-479 | `_fallback_extraction`: the failure result when the document does not open; otherwise every page's elements and markdown in order, the page count, `total_elements == len(elements)`, the per-type tally and the mean confidence (0.75 without elements) |
| SuryaFallback.ScanDocKinds | backend/models/surya_pipeline.py:260-450 | every fallback element is `text` or `image`, carries the index of a page of the document and has a confidence from 0.50 to 0.85 |
| SuryaFallback.FallbackAverage | backend/models/surya_pipeline.py:458 | the fallback's `confidence_avg` is 0.75 without elements and otherwise lies between 0.50 and 0.85 |

## Left out

- Modal app and volume setup, FastAPI routing, CORS middleware, `async` wrappers and request/response plumbing: framework code with no logic of its own.
- File I/O and storage (`/tmp/storage` files, metadata and results JSON, `os.path.exists`): a file's presence, or a results file's content, is an input.
- PyMuPDF (`fitz.open`, `get_text`, `find_tables`, `get_images`, `get_pixmap`), PIL drawing and PNG encoding: foreign libraries. Their outputs (blocks, spans, tables, images, page sizes) are inputs, and a call that raises is an input flag or a `None`.
- EasyOCR, Surya, Docling and MinerU model loading and inference, including the EasyOCR reader initialisation and its fallback: their results (OCR hits, layout regions, Docling items) are inputs.
- The regex detectors `_contains_formula`, `_contains_citation`, `contains_formula`, `contains_citation`, `detect_language_simple` and `_classify_scientific_style`, and the regexes that find bracket citations, author-year citations and `$...$` formulas: each is an uninterpreted input (a boolean, a function parameter, or the list of matches). The numbered-heading pattern `^\d+\.?\s+[A-Z]` is modelled directly.
- `str.lower`, `str.upper`, `str.isupper`, `str.strip` and the regex classes `\d` and `\s` are modelled on ASCII only; Python's Unicode case mapping and white-space set are not.
- `list(set(...))` is modelled as de-duplication keeping first occurrences. Python's order there is hash order and is unspecified, so the model fixes one order where the source promises none.
- Python's `list.sort` is modelled as a stable insertion sort on the same key (`SortByY`). The result is the same sorted order; the algorithm differs.
- Rounding (`round(..., 2)`) of confidence averages and processing times, and the `:.2f` confidence in annotation labels: floating-point presentation. The averages the model reports are exact: `confidence_avg` of the basic app (`ModalApp.ExtractTextWithPositions`), and of the Docling fallback, the Surya run, the Surya fallback and the enhanced Surya extractor (in `Docling.Metadata`, each with its own default for a document without elements). The label text is a function parameter.
- `features_detected` and `model_version` of the result metadata (for example backend/models/docling_pipeline.py:224-225): fixed lists and strings, left out of `Docling.Metadata`.
- `processing_time`, `datetime.now()` timestamps, and ids built from `uuid4` or `hash`: clocks and randomness are left out. The history entry keeps no `timestamp` or `status` field.
- `total_pages` is `len(doc)` read after `doc.close()` in several extractors (for example backend/modal_app.py:245 and backend/models/docling_pipeline.py:217-220). The model takes it to be the page count. Whether PyMuPDF raises on a closed document is library behaviour that is not visible here.
- Language codes: the `language` field of elements and `languages_detected` are left out. Only the `[XX] ` markdown prefix of a non-English OCR hit is modelled, with the detected code as input.
- Table extraction with pandas `to_markdown` and the table helpers `extract_tables_from_page` and `extract_images_from_page` (backend/modal_app_production.py:192-268): their results are inputs to the page loops.
- The `except: pass` around `find_tables` in the Docling fallback and in the enhanced Docling extractor (backend/modal_app_enhanced.py:252-272): tables are modelled only where they succeed.
- The font loading and the `try/except` around each label in the annotation drawing: drawing is modelled as the list of marks.
- The hard-coded demo rectangles in the enhanced app's `get_annotated_image` (backend/modal_app_enhanced.py:811-825): placeholder data.
- The enhanced app's `process_with_pymupdf_basic` and `process_with_pymupdf_advanced` (backend/modal_app_enhanced.py:654-777) are not modelled. Their outcomes enter the per-model loop (`Enhanced.RunModels`) as inputs.
- Enhanced.DoclingStyleElement: models the enhanced Docling extractor one block at a time. Its page loop, table loop and metadata (backend/modal_app_enhanced.py:195-295) are not modelled.
- Enhanced.ScientificElement: models the enhanced MinerU extractor one block at a time, with the scientific fields each element gets. Its page loop and metadata (backend/modal_app_enhanced.py:404-491) are not modelled.
- Unified.ModeElementSpec: models `_enhanced_pymupdf_extraction` one block at a time. Its page loop and the Docling branch's table loop (backend/modal_app_unified.py:360-378) are not modelled.
- The unified app's basic `extract_text_with_positions` (backend/modal_app_unified.py:160-313) is not modelled. It has the same shape as the basic app's extractor, which is modelled (`ModalApp.ExtractTextWithPositions`).
- The MinerU pipeline's `_scientific_fallback_extraction` page loop (backend/models/mineru_pipeline.py:291-421) and the Docling converter branch of the Docling pipeline (backend/models/docling_pipeline.py:50-104) are not modelled. Their classifiers, table formatters and tallies are.
- The upload endpoints of the enhanced and unified apps (backend/modal_app_enhanced.py:76-110, backend/modal_app_unified.py:570-601) are not modelled. Their name tests are those of `Api.PdfNameIff` (lower-cased in the unified app, case-sensitive in the enhanced app).
- The production app's `extract_content` (backend/modal_app_production.py:423-479) is not modelled. It keeps `HTTPException` statuses. Its placeholder `process_with_surya`, `process_with_mineru` and `process_with_omnidocs` (backend/modal_app_production.py:505-550) return fixed data and are not modelled.
- Annotate.AnnotatedElements: does not model the 404 of the production `get_annotated_image` (backend/modal_app_production.py:570-571) for a missing PDF, or the rendering's 500. The unified and basic apps' `get_annotated_image` endpoints are not modelled beyond their drawing function.
- Api.Info: the `ElementInfo` response record is modelled without its `id` field.
- The `list_models` and `get_models` endpoints of the apps return fixed data and are not modelled. The health counts are.

## Findings

| source | as written | input that shows it | evidently intended | confidence | as-written member | corrected member |
|---|---|---|---|---|---|---|
| backend/modal_app.py:351-370 | the 400 for an unknown or unavailable model is raised inside the `try`; the blanket `except Exception` catches it and answers 500 | `models = ["docling"]` (listed, `available: False`) with an uploaded file | a 400 "Model docling not currently available" | not executed | ModalApp.SwitchedOffModelStatus | Api.ExtractContent |
| backend/modal_app_unified.py:612-631 | the same: the 400 for a model absent from `AVAILABLE_MODELS` becomes a 500 | `models = ["pymupdf_basic"]` | a 400 "Model pymupdf_basic not available" | not executed | Unified.UnlistedModelStatus | Unified.UnifiedGate |
| backend/modal_app_enhanced.py:131-193 | the 400 for a missing upload id and the 404 for a missing file are raised inside the `try` and become 500 | `{"models": ["docling"]}` without `upload_id`; an `upload_id` with no stored file | a 400 and a 404 | not executed | Enhanced.ProcessExtractionStatus | Enhanced.ProcessExtractionIntended |
