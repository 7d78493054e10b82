/**
 * The HTTP layer the single-container apps share: the element record of
 * their responses, the model registry with its health count, the model
 * gate in front of extraction, and the upload-name check.
 */
module Api {

  import opened Wrappers
  import opened Text
  import opened Geometry
  import opened Elements

  /** An endpoint's outcome: a value, or an `HTTPException` with its status. */
  datatype Response<T> = Ok(value: T) | HttpError(status: nat)

  /** The `ElementInfo` response record (type, content, bbox, page,
      confidence): an `Element` with an empty id, since it has none. */
  function Info(kind: string, content: string, box: BBox, page: int, confidence: real): Element {
    Element("", kind, content, box, page, confidence)
  }

  /** `AVAILABLE_MODELS`: each model id with its `available` flag. */
  type Registry = map<string, bool>

  /** A model the gate lets through: listed, and available. */
  predicate Usable(reg: Registry, m: string) {
    m in reg && reg[m]
  }

  /** The health check's `available_models`: the number of listed models
      whose flag is set. */
  function AvailableCount(reg: Registry): nat {
    |set m | m in reg && reg[m]|
  }

  /** The loop over the requested models inside the request's `try`: the
      first model that is not listed, or not available, raises a 400; an
      extraction that raises gives its own status; otherwise each result is
      stored under its model's name. */
  function Gate<R>(models: seq<string>, reg: Registry, run: string -> Response<R>, results: map<string, R>): Response<map<string, R>> {
    if models == [] then Ok(results)
    else if !Usable(reg, models[0]) then HttpError(400)
    else match run(models[0])
      case HttpError(s) => HttpError(s)
      case Ok(v) => Gate(models[1..], reg, run, results[models[0] := v])
  }

  /** `extract_content` with the status of each `HTTPException` kept: a
      missing file is a 404 (checked before the `try`), then the gate. */
  function Extract<R>(fileExists: bool, models: seq<string>, reg: Registry, run: string -> Response<R>): Response<map<string, R>> {
    if !fileExists then HttpError(404) else Gate(models, reg, run, map[])
  }

  /** `except Exception as e: raise HTTPException(status_code=500, ...)`:
      every exception raised in the `try`, an `HTTPException` included,
      leaves as a 500. */
  function CatchAll<T>(r: Response<T>): Response<T> {
    if r.HttpError? then HttpError(500) else r
  }

  /** `extract_content` as written. */
  function ExtractAsWritten<R>(fileExists: bool, models: seq<string>, reg: Registry, run: string -> Response<R>): Response<map<string, R>> {
    if !fileExists then HttpError(404) else CatchAll(Gate(models, reg, run, map[]))
  }

  /** The request succeeds exactly when every requested model is listed,
      available and extracts without raising. */
  lemma {:induction false} GateOkIff<R>(models: seq<string>, reg: Registry, run: string -> Response<R>, results: map<string, R>)
    ensures Gate(models, reg, run, results).Ok? <==>
      forall i :: 0 <= i < |models| ==> Usable(reg, models[i]) && run(models[i]).Ok?
  {
    if models != [] && Usable(reg, models[0]) && run(models[0]).Ok? {
      GateOkIff(models[1..], reg, run, results[models[0] := run(models[0]).value]);
      assert forall i :: 1 <= i < |models| ==> models[i] == models[1..][i - 1];
    }
  }

  /** A successful request returns one entry per requested model, holding
      that model's result, and keeps the entries it started with for other
      names. */
  lemma {:induction false} GateResults<R>(models: seq<string>, reg: Registry, run: string -> Response<R>, results: map<string, R>)
    requires Gate(models, reg, run, results).Ok?
    ensures forall m :: m in Gate(models, reg, run, results).value <==> m in models || m in results
    ensures forall m :: m in models ==> run(m).Ok? && Gate(models, reg, run, results).value[m] == run(m).value
    ensures forall m :: m in results && m !in models ==> Gate(models, reg, run, results).value[m] == results[m]
  {
    if models != [] {
      var m := models[0];
      var next := results[m := run(m).value];
      GateResults(models[1..], reg, run, next);
      assert forall x :: x in models <==> x == m || x in models[1..];
    }
  }

  /** The first requested model that is not listed or not available makes
      the request fail with a 400 when every model before it was extracted. */
  lemma {:induction false} GateRejects<R>(models: seq<string>, reg: Registry, run: string -> Response<R>, results: map<string, R>, i: nat)
    requires i < |models| && !Usable(reg, models[i])
    requires forall j :: 0 <= j < i ==> Usable(reg, models[j]) && run(models[j]).Ok?
    ensures Gate(models, reg, run, results) == HttpError(400)
  {
    if i > 0 {
      assert Usable(reg, models[0]) && run(models[0]).Ok?;
      assert forall j :: 0 <= j < i - 1 ==> models[1..][j] == models[j + 1];
      GateRejects(models[1..], reg, run, results[models[0] := run(models[0]).value], i - 1);
    }
  }

  /** The gate loop of `extract_content`, each `HTTPException` kept. */
  method ExtractContent<R>(fileExists: bool, models: seq<string>, reg: Registry, run: string -> Response<R>) returns (r: Response<map<string, R>>)
    ensures r == Extract(fileExists, models, reg, run)
  {
    if !fileExists {
      return HttpError(404);
    }
    var results: map<string, R> := map[];
    var i := 0;
    while i < |models|
      invariant 0 <= i <= |models|
      invariant Gate(models, reg, run, map[]) == Gate(models[i..], reg, run, results)
    {
      assert models[i..][1..] == models[i + 1..];
      var m := models[i];
      if m !in reg || !reg[m] {
        return HttpError(400);
      }
      var result := run(m);
      if result.HttpError? {
        return HttpError(result.status);
      }
      results := results[m := result.value];
      i := i + 1;
    }
    return Ok(results);
  }

  /** As written, a rejected model is reported as a server error (500),
      where the gate raised a client error (400). */
  lemma AsWrittenRejectionIs500<R>(fileExists: bool, models: seq<string>, reg: Registry, run: string -> Response<R>)
    requires fileExists && Extract(fileExists, models, reg, run) == HttpError(400)
    ensures ExtractAsWritten(fileExists, models, reg, run) == HttpError(500)
  {
  }

  /** Apart from the status of a failure, the two agree. */
  lemma AsWrittenAgrees<R>(fileExists: bool, models: seq<string>, reg: Registry, run: string -> Response<R>)
    ensures ExtractAsWritten(fileExists, models, reg, run).Ok? <==> Extract(fileExists, models, reg, run).Ok?
    ensures Extract(fileExists, models, reg, run).Ok? ==>
      ExtractAsWritten(fileExists, models, reg, run) == Extract(fileExists, models, reg, run)
  {
  }

  /** `filename.lower().endswith('.pdf')` */
  predicate PdfName(filename: string) {
    EndsWith(Lower(filename), ".pdf")
  }

  lemma {:induction false} LowerConcat(a: string, b: string)
    ensures Lower(a + b) == Lower(a) + Lower(b)
  {
    if a == [] {
      assert a + b == b;
    } else {
      assert (a + b)[1..] == a[1..] + b;
      LowerConcat(a[1..], b);
    }
  }

  /** The extension test ignores case: a name ends in `.pdf` once lowered
      exactly when its last four characters lower to `.pdf`, so `a.PDF` and
      `a.Pdf` pass and `a.pdfx` does not. */
  lemma PdfNameIff(filename: string)
    ensures PdfName(filename) <==> |filename| >= 4 && Lower(filename[|filename| - 4..]) == ".pdf"
  {
    if |filename| >= 4 {
      var stem := filename[..|filename| - 4];
      var ext := filename[|filename| - 4..];
      assert filename == stem + ext;
      LowerConcat(stem, ext);
      assert Lower(filename)[|filename| - 4..] == Lower(ext);
    }
  }

  /** `upload_file` before the file is read: a name that does not end in
      `.pdf` (in any case) is refused with a 400, the only check made. */
  function UploadRejection(filename: string): (r: Option<nat>)
    ensures r.None? <==> |filename| >= 4 && Lower(filename[|filename| - 4..]) == ".pdf"
    ensures r.Some? ==> r.value == 400
  {
    PdfNameIff(filename);
    if !PdfName(filename) then Some(400) else None
  }
}
