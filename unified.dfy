/**
 * The unified app: its Docling-style classifier and confidence rules, the
 * block elements of its three enhanced extraction modes, its model
 * registry and gate, and the in-memory store of processed documents.
 */
module Unified {

  import opened Wrappers
  import opened Text
  import opened Geometry
  import opened Elements
  import opened Blocks
  import opened Sections
  import opened Api

  const HeaderWords: seq<string> := ["chapter", "section", "introduction", "conclusion"]

  const ListMarkers: seq<string> := ["•", "-", "*", "1.", "2.", "a)", "i)"]

  /** `_classify_docling_style`: on the lower-cased, stripped text, a short
      text in the top fifth of the page is a title; then a header word
      anywhere in it makes a header; then a list marker at its start a
      list item. */
  function ClassifyDocling(text: string, box: BBox, rect: PageRect): (kind: string)
    ensures kind in {"title", "header", "list", "text"}
    ensures kind == "title" <==> |Normalized(text)| < 100 && box.y1 < rect.height * 0.2
    ensures kind == "header" <==> (!(|Normalized(text)| < 100 && box.y1 < rect.height * 0.2)
      && ContainsAny(Normalized(text), HeaderWords))
    ensures kind == "list" <==> (!(|Normalized(text)| < 100 && box.y1 < rect.height * 0.2)
      && !ContainsAny(Normalized(text), HeaderWords) && StartsWithAny(Normalized(text), ListMarkers))
  {
    var tl := Normalized(text);
    if |tl| < 100 && box.y1 < rect.height * 0.2 then "title"
    else if ContainsAny(tl, HeaderWords) then "header"
    else if StartsWithAny(tl, ListMarkers) then "list"
    else "text"
  }

  /** A text of 100 characters or more is never a title, wherever it is. */
  lemma LongTextIsNoTitle(text: string, box: BBox, rect: PageRect)
    requires |Normalized(text)| >= 100
    ensures ClassifyDocling(text, box, rect) != "title"
    ensures ContainsAny(Normalized(text), HeaderWords) ==> ClassifyDocling(text, box, rect) == "header"
  {
  }

  /** The Docling mode's confidence: 0.88 for text, 0.92 for anything else. */
  function DoclingConfidence(kind: string): (c: real)
    ensures c == 0.88 <==> kind == "text"
    ensures c == 0.92 <==> kind != "text"
  {
    if kind != "text" then 0.92 else 0.88
  }

  /** The MinerU mode's confidence: 0.94 for an equation or a citation, 0.89
      for anything else. */
  function MineruConfidence(kind: string): (c: real)
    ensures c == 0.94 <==> kind in {"equation", "citation"}
    ensures c == 0.89 <==> kind !in {"equation", "citation"}
  {
    if kind in {"equation", "citation"} then 0.94 else 0.89
  }

  /** The element one block of page `n` (0-based) yields in
      `_enhanced_pymupdf_extraction` for `model`; `scientific` stands for
      `_classify_scientific_style`. */
  function ModeElement(model: string, n: nat, b: Block, rect: PageRect, scientific: string -> string): seq<Element> {
    match b
    case ImageBlock(_) => []
    case TextBlock(lines, box) =>
      var text := LinesText(lines);
      if Blank(text) then []
      else if model == "docling" then
        var kind := ClassifyDocling(text, box, rect);
        [Info(kind, Strip(text), box, n + 1, DoclingConfidence(kind))]
      else if model == "surya" then [Info("text", Strip(text), box, n + 1, 0.91)]
      else if model == "mineru" then
        var kind := scientific(text);
        [Info(kind, Strip(text), box, n + 1, MineruConfidence(kind))]
      else []
  }

  /** A non-blank text block yields one element in each enhanced mode, on
      the 1-based page, confidence set by its type as each mode says. */
  lemma ModeElementSpec(model: string, n: nat, b: Block, rect: PageRect, scientific: string -> string)
    requires model in {"docling", "surya", "mineru"}
    ensures var r := ModeElement(model, n, b, rect, scientific);
      (|r| == 1 <==> b.TextBlock? && !Blank(LinesText(b.lines)))
      && |r| <= 1
      && (|r| == 1 ==> r[0].page == n + 1 && r[0].content == Strip(LinesText(b.lines)) && r[0].box == b.box)
      && (|r| == 1 && model == "docling" ==> (r[0].kind in {"title", "header", "list", "text"}
          && (r[0].confidence == 0.88 <==> r[0].kind == "text") && r[0].confidence in {0.88, 0.92}))
      && (|r| == 1 && model == "surya" ==> r[0].kind == "text" && r[0].confidence == 0.91)
      && (|r| == 1 && model == "mineru" ==> ((r[0].confidence == 0.94 <==> r[0].kind in {"equation", "citation"})
          && r[0].confidence in {0.94, 0.89}))
  {
  }

  /** `AVAILABLE_MODELS`: Docling, Surya and MinerU, all available. */
  const UnifiedRegistry: Registry := map["docling" := true, "surya" := true, "mineru" := true]

  /** The health check reports three available models. */
  lemma UnifiedHealthCount()
    ensures AvailableCount(UnifiedRegistry) == 3
  {
    assert (set m | m in UnifiedRegistry && UnifiedRegistry[m]) == {"docling", "surya", "mineru"};
  }

  /** As written, naming a model that is not listed (say `pymupdf_basic`)
      gets a 500, where the gate raised a 400. */
  lemma UnlistedModelStatus<R>(run: string -> Response<R>)
    ensures Extract(true, ["pymupdf_basic"], UnifiedRegistry, run) == HttpError(400)
    ensures ExtractAsWritten(true, ["pymupdf_basic"], UnifiedRegistry, run) == HttpError(500)
  {
    assert !Usable(UnifiedRegistry, "pymupdf_basic");
  }

  /** A request is answered exactly when it names only the three models and
      none of their extractions raises. */
  lemma UnifiedGate<R>(models: seq<string>, run: string -> Response<R>)
    ensures Extract(true, models, UnifiedRegistry, run).Ok? <==>
      forall i :: 0 <= i < |models| ==> models[i] in {"docling", "surya", "mineru"} && run(models[i]).Ok?
  {
    GateOkIff(models, UnifiedRegistry, run, map[]);
  }

  /** One saved entry: `timestamp` and `status` are not modelled. */
  datatype HistoryEntry = HistoryEntry(
    id: string, filename: string, userId: string, models: seq<string>,
    totalElements: int, totalPages: int, processingTime: real)

  /** `f"doc_{n}"` */
  function DocId(n: nat): string {
    "doc_" + NatToString(n)
  }

  lemma DocIdInjective(m: nat, n: nat)
    requires DocId(m) == DocId(n)
    ensures m == n
  {
    assert DocId(m)[4..] == NatToString(m);
    assert DocId(n)[4..] == NatToString(n);
    NatToStringInjective(m, n);
  }

  /** `user_id or "anonymous"` */
  function Owner(userId: Option<string>): string {
    if userId.None? || userId.value == "" then "anonymous" else userId.value
  }

  /** `[h for h in history if h.get("user_id") == user]` */
  function ForUser(history: seq<HistoryEntry>, user: string): seq<HistoryEntry> {
    if history == [] then []
    else
      var e := history[|history| - 1];
      ForUser(history[..|history| - 1], user) + (if e.userId == user then [e] else [])
  }

  /** The filter keeps exactly the entries of that user. */
  lemma {:induction false} ForUserSpec(history: seq<HistoryEntry>, user: string)
    ensures forall e :: e in ForUser(history, user) <==> e in history && e.userId == user
    ensures |ForUser(history, user)| <= |history|
  {
    if history != [] {
      var p := history[..|history| - 1];
      ForUserSpec(p, user);
      assert history == p + [history[|history| - 1]];
    }
  }

  /** `if user_id: ... else: document_history` */
  function Filtered(history: seq<HistoryEntry>, userId: Option<string>): seq<HistoryEntry> {
    if userId.Some? && userId.value != "" then ForUser(history, userId.value) else history
  }

  /** `s[-20:]` */
  function LastTwenty(s: seq<HistoryEntry>): (r: seq<HistoryEntry>)
    ensures |r| == if |s| < 20 then |s| else 20
    ensures r == s[|s| - |r|..]
  {
    if |s| <= 20 then s else s[|s| - 20..]
  }

  /** An entry just saved is the last one its user (or anyone, with no user
      given) gets back. */
  lemma SavedIsLatest(history: seq<HistoryEntry>, e: HistoryEntry, userId: Option<string>)
    requires userId.None? || userId.value == "" || userId.value == e.userId
    ensures var r := LastTwenty(Filtered(history + [e], userId));
      r != [] && r[|r| - 1] == e
  {
    if userId.Some? && userId.value != "" {
      assert (history + [e])[..|history|] == history;
    }
  }

  predicate IsSuffix(r: seq<HistoryEntry>, s: seq<HistoryEntry>) {
    |r| <= |s| && r == s[|s| - |r|..]
  }

  /** What `get_document_history` returns. */
  lemma RecentSpec(history: seq<HistoryEntry>, userId: Option<string>)
    ensures var r := LastTwenty(Filtered(history, userId));
      |r| <= 20 && |r| <= |history|
      && (|Filtered(history, userId)| >= 20 ==> |r| == 20)
      && IsSuffix(r, Filtered(history, userId))
      && (userId.Some? && userId.value != "" ==> forall e :: e in r ==> e in history && e.userId == userId.value)
  {
    var f := Filtered(history, userId);
    ForUserSpec(history, if userId.Some? then userId.value else "");
    var r := LastTwenty(f);
    assert forall e :: e in r ==> e in f;
  }

  /** The module-level `document_history` list with its two endpoints. */
  class HistoryStore {

    var history: seq<HistoryEntry>

    /** Every entry's id is `doc_` followed by its 1-based position. */
    predicate Valid()
      reads this
    {
      forall i :: 0 <= i < |history| ==> history[i].id == DocId(i + 1)
    }

    constructor ()
      ensures history == [] && Valid()
    {
      history := [];
    }

    /** `save_document_history`: one entry appended, its id numbered from
        the list's length before the append. */
    method Save(filename: string, userId: Option<string>, models: string, totalElements: int, totalPages: int, processingTime: real)
        returns (id: string)
      requires Valid()
      modifies this
      ensures Valid()
      ensures id == DocId(|old(history)| + 1)
      ensures history == old(history) + [HistoryEntry(id, filename, Owner(userId), SplitOn(models, ','), totalElements, totalPages, processingTime)]
    {
      id := DocId(|history| + 1);
      var entry := HistoryEntry(id, filename, Owner(userId), SplitOn(models, ','), totalElements, totalPages, processingTime);
      history := history + [entry];
    }

    /** `get_document_history`: the last 20 entries, in order, of the list
        filtered by the user when one is given. */
    function Get(userId: Option<string>): (r: seq<HistoryEntry>)
      reads this
      ensures |r| <= 20 && |r| <= |history|
      ensures |Filtered(history, userId)| >= 20 ==> |r| == 20
      ensures IsSuffix(r, Filtered(history, userId))
      ensures userId.Some? && userId.value != "" ==> forall e :: e in r ==> e in history && e.userId == userId.value
      ensures userId.None? || userId.value == "" ==> IsSuffix(r, history)
    {
      RecentSpec(history, userId);
      LastTwenty(Filtered(history, userId))
    }

    /** The ids in the store are pairwise distinct. */
    lemma IdsDistinct()
      requires Valid()
      ensures forall i, j :: 0 <= i < j < |history| ==> history[i].id != history[j].id
    {
      forall i, j | 0 <= i < j < |history| ensures history[i].id != history[j].id {
        if history[i].id == history[j].id {
          DocIdInjective(i + 1, j + 1);
        }
      }
    }
  }
}
