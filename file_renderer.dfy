/** The `/render-pdf` endpoint of the file-based PDF service: a request names an HTML file and
    an output file whose paths start with the string `/app/tmp/`; the service checks the API key,
    the fields and that string prefix (no `..` segment is resolved, so a path can still leave the
    directory),
    launches a fresh browser for the request, writes a PNG preview and the PDF, and closes that
    browser whatever happens once it was launched. */
module FileRenderer {
  import opened Support
  import opened PdfOptions

  /** The string every accepted path starts with. The test is on the string alone: a path such
      as `/app/tmp/../x` passes it and names a file outside the directory. */
  const AppTmp := "/app/tmp/"

  /** The request: the `x-api-key` header and the JSON body fields, each possibly absent. */
  datatype Request = Request(
    apiKeyHeader: Option<string>,
    htmlPath: Option<string>,
    outputPath: Option<string>,
    orientation: Option<string>,
    paperSize: Option<string>)

  /** Why a request is turned away before any browser is launched. */
  datatype Rejection = Forbidden | FieldsRequired | InvalidPath | HtmlNotFound

  /** The HTTP status and the error message of a rejection. */
  function StatusOf(why: Rejection): (status: int)
    ensures status == 403 <==> why == Forbidden
    ensures status == 404 <==> why == HtmlNotFound
    ensures status == 400 <==> why == FieldsRequired || why == InvalidPath
  {
    match why
    case Forbidden => 403
    case FieldsRequired => 400
    case InvalidPath => 400
    case HtmlNotFound => 404
  }

  function MessageOf(why: Rejection): string
  {
    match why
    case Forbidden => "Forbidden"
    case FieldsRequired => "htmlPath and outputPath are required"
    case InvalidPath => "Invalid path"
    case HtmlNotFound => "HTML file not found"
  }

  /** What a request that passed every check is rendered with. */
  datatype Plan = Plan(htmlPath: string, outputPath: string, previewPath: string, landscape: bool, format: string)

  datatype Decision = Reject(why: Rejection) | Proceed(plan: Plan)

  /** `process.env.PDF_API_KEY || ''`: an unset or empty variable disables the key check. */
  function ConfiguredApiKey(env: Option<string>): (key: string)
    ensures key == "" <==> !Truthy(env)
    ensures key != "" ==> env == Some(key)
  {
    if Truthy(env) then env.value else ""
  }

  /** The `landscape` flag as the handler computes it: falsy orientation gives portrait;
      otherwise landscape unless the orientation is "Portrait" or starts with 'P' or 'p'.
      The equality with "Portrait" adds nothing to the test on the first letter. */
  function Landscape(orientation: Option<string>): (landscape: bool)
    ensures landscape <==> Truthy(orientation) && orientation.value[0] != 'P' && orientation.value[0] != 'p'
  {
    if !Truthy(orientation) then false
    else !(orientation.value == "Portrait" || StartsWith(orientation.value, "P") || StartsWith(orientation.value, "p"))
  }

  /** The paper format: the given size when truthy, "A3" otherwise. */
  function PaperSize(paperSize: Option<string>): string
  {
    if Truthy(paperSize) then paperSize.value else "A3"
  }

  /** `outputPath.replace('.pdf', '.png')`: where the debug screenshot is written. */
  function PreviewPath(outputPath: string): string
  {
    ReplaceFirst(outputPath, ".pdf", ".png")
  }

  /** The early-return chain of the handler, in its order: API key (403), required fields
      (400), path prefix (400), existence of the HTML file (404). `existing` is the set of
      paths that exist on disk when the request is handled. */
  function Validate(apiKey: string, req: Request, existing: set<string>): (d: Decision)
    ensures d == Reject(Forbidden) <==> apiKey != "" && req.apiKeyHeader != Some(apiKey)
    ensures d == Reject(FieldsRequired) <==>
      d != Reject(Forbidden) && (!Truthy(req.htmlPath) || !Truthy(req.outputPath))
    ensures d == Reject(InvalidPath) <==>
      d != Reject(Forbidden) && d != Reject(FieldsRequired) &&
      (!StartsWith(req.htmlPath.value, AppTmp) || !StartsWith(req.outputPath.value, AppTmp))
    ensures d == Reject(HtmlNotFound) <==>
      d.Reject? && d.why != Forbidden && d.why != FieldsRequired && d.why != InvalidPath
    ensures d.Reject? && d.why == HtmlNotFound ==> req.htmlPath.value !in existing
    ensures d.Proceed? ==>
      req.htmlPath == Some(d.plan.htmlPath) && req.outputPath == Some(d.plan.outputPath) &&
      StartsWith(d.plan.htmlPath, AppTmp) && StartsWith(d.plan.outputPath, AppTmp) &&
      StartsWith(d.plan.previewPath, AppTmp) &&
      d.plan.htmlPath in existing &&
      d.plan.landscape == Landscape(req.orientation) &&
      d.plan.format == (if Truthy(req.paperSize) then req.paperSize.value else "A3") &&
      d.plan.previewPath == PreviewPath(d.plan.outputPath)
  {
    if apiKey != "" && req.apiKeyHeader != Some(apiKey) then Reject(Forbidden)
    else if !Truthy(req.htmlPath) || !Truthy(req.outputPath) then Reject(FieldsRequired)
    else
      var htmlPath, outputPath := req.htmlPath.value, req.outputPath.value;
      var landscape := Landscape(req.orientation);
      var size := PaperSize(req.paperSize);
      if !StartsWith(htmlPath, AppTmp) || !StartsWith(outputPath, AppTmp) then Reject(InvalidPath)
      else if htmlPath !in existing then Reject(HtmlNotFound)
      else
        PreviewStaysUnderAppTmp(outputPath);
        Proceed(Plan(htmlPath, outputPath, PreviewPath(outputPath), landscape, size))
  }

  /** The screenshot lands in `/app/tmp/` whenever the PDF does: no ".pdf" can start inside
      the prefix, so the replacement only touches the part after it. */
  lemma PreviewStaysUnderAppTmp(outputPath: string)
    requires StartsWith(outputPath, AppTmp)
    ensures StartsWith(PreviewPath(outputPath), AppTmp)
  {
    forall j | 0 <= j < |AppTmp|
      ensures !OccursAt(outputPath, ".pdf", j)
    {
      assert outputPath[j] == AppTmp[j] != '.';
    }
    ReplaceFirstKeepsPrefix(outputPath, ".pdf", ".png", |AppTmp|);
  }

  /** An output file named `<stem>.pdf`, with no ".pdf" earlier in its name, gets the preview
      `<stem>.png`. */
  lemma PreviewOfPdfName(stem: string)
    requires forall j :: 0 <= j < |stem| ==> !OccursAt(stem + ".pdf", ".pdf", j)
    ensures PreviewPath(stem + ".pdf") == stem + ".png"
  {
    var s := stem + ".pdf";
    assert s[|stem|..|stem| + 4] == ".pdf";
    ReplaceFirstAt(s, ".pdf", ".png", |stem|);
    assert s[..|stem|] == stem;
    assert s[|stem| + 4..] == [];
  }

  /** An output path without ".pdf" is its own preview path. */
  lemma PreviewWithoutPdf(outputPath: string)
    requires forall i :: 0 <= i <= |outputPath| - 4 ==> !OccursAt(outputPath, ".pdf", i)
    ensures PreviewPath(outputPath) == outputPath
  {
    ReplaceFirstAbsent(outputPath, ".pdf", ".png");
  }

  /** The path test is a string-prefix test with no normalisation: paths that climb out of
      `/app/tmp/` through a `..` segment are accepted, and such an HTML file is read and such
      an output path is written. */
  lemma ParentSegmentsPassPathTest(htmlRest: string, outputRest: string, existing: set<string>)
    requires AppTmp + "../" + htmlRest in existing
    ensures var req := Request(None, Some(AppTmp + "../" + htmlRest), Some(AppTmp + "../" + outputRest), None, None);
      Validate("", req, existing).Proceed? &&
      Validate("", req, existing).plan.htmlPath == AppTmp + "../" + htmlRest &&
      Validate("", req, existing).plan.outputPath == AppTmp + "../" + outputRest
  {
    assert (AppTmp + "../" + htmlRest)[..|AppTmp|] == AppTmp;
    assert (AppTmp + "../" + outputRest)[..|AppTmp|] == AppTmp;
  }

  /** The engine and file-system calls the handler makes once validation passed. */
  datatype Call =
    | Launch(args: seq<string>, headless: string)
    | NewPage
    | EmulateMediaType(media: string)
    | ReadFile(path: string, encoding: string)
    | SetContent(waitUntil: string, timeoutMs: int)
    | WaitForSelector(selector: string)
    | Screenshot(path: string, fullPage: bool)
    | Pdf(options: Options)
    | CloseBrowser

  const LaunchArgs := ["--no-sandbox", "--disable-setuid-sandbox", "--disable-dev-shm-usage", "--disable-gpu"]

  /** The `page.pdf` options: the plan's format and orientation, backgrounds printed,
      CSS page size ignored, zero margins, no header or footer, scale 1, a 120 s timeout. */
  function PlanPdfOptions(plan: Plan): Options
  {
    Options(
      path := Some(plan.outputPath),
      format := Some(plan.format),
      printBackground := Some(true),
      preferCSSPageSize := Some(false),
      margin := Some(ZeroMargin),
      displayHeaderFooter := Some(false),
      scale := Some(1.0),
      landscape := Some(plan.landscape),
      timeout := Some(120000))
  }

  /** The calls of the `try` block in order, if none of them throws: the launch, then the
      calls on the page. */
  function RenderSteps(plan: Plan): (steps: seq<Call>)
  {
    [Launch(LaunchArgs, "new")] + PageSteps(plan)
  }

  function PageSteps(plan: Plan): (steps: seq<Call>)
  {
    [ NewPage,
      EmulateMediaType("screen"),
      ReadFile(plan.htmlPath, "utf8"),
      SetContent("networkidle0", 30000),
      WaitForSelector(".page"),
      Screenshot(plan.previewPath, true),
      Pdf(PlanPdfOptions(plan)) ]
  }

  /** The reply: a rejection, the rendered file names, or a 500 caused by the call that threw. */
  datatype Reply = Error(status: int, message: string) | Rendered(pdf: string, preview: string) | Crashed(failed: Call)
  {
    function Status(): int
    {
      match this
      case Error(status, _) => status
      case Rendered(_, _) => 200
      case Crashed(_) => 500
    }
  }

  /** The part of the `try` block after the launch: open a page, switch to screen media, read
      the HTML file, load it, wait for a `.page` element, take the full-page screenshot and
      write the PDF, stopping at the first call that throws. */
  method DrivePage(plan: Plan, failing: set<Call>) returns (ok: bool, calls: seq<Call>)
    ensures calls == Attempted(PageSteps(plan), failing)
    ensures ok <==> Succeeds(PageSteps(plan), failing)
  {
    ghost var steps := PageSteps(plan);
    calls := [];
    Advance(steps, failing, calls);
    ok, calls := Perform(NewPage, failing, calls);
    if ok {
      Advance(steps, failing, calls);
      ok, calls := Perform(EmulateMediaType("screen"), failing, calls);
    }
    if ok {
      Advance(steps, failing, calls);
      ok, calls := Perform(ReadFile(plan.htmlPath, "utf8"), failing, calls);
    }
    if ok {
      Advance(steps, failing, calls);
      ok, calls := Perform(SetContent("networkidle0", 30000), failing, calls);
    }
    if ok {
      Advance(steps, failing, calls);
      ok, calls := Perform(WaitForSelector(".page"), failing, calls);
    }
    if ok {
      Advance(steps, failing, calls);
      ok, calls := Perform(Screenshot(plan.previewPath, true), failing, calls);
    }
    if ok {
      Advance(steps, failing, calls);
      ok, calls := Perform(Pdf(PlanPdfOptions(plan)), failing, calls);
    }
    assert Progress(steps, failing, ok, calls) && (ok ==> |calls| == |steps|);
  }

  /** The `/render-pdf` handler. `failing` holds the calls that throw. The reply is sent before
      `finally` closes the browser, so a failing close does not change it. */
  method HandleRenderPdf(apiKey: string, req: Request, existing: set<string>, failing: set<Call>)
    returns (reply: Reply, calls: seq<Call>)
    ensures Validate(apiKey, req, existing).Reject? ==>
      var why := Validate(apiKey, req, existing).why;
      reply == Error(StatusOf(why), MessageOf(why)) && calls == []
    ensures Validate(apiKey, req, existing).Proceed? ==>
      var plan := Validate(apiKey, req, existing).plan;
      var made := Attempted(RenderSteps(plan), failing);
      calls == made + (if Launch(LaunchArgs, "new") in failing then [] else [CloseBrowser]) &&
      (reply.Rendered? <==> Succeeds(RenderSteps(plan), failing)) &&
      (reply.Rendered? ==> reply == Rendered(plan.outputPath, plan.previewPath)) &&
      (!reply.Rendered? ==> reply == Crashed(made[|made| - 1]))
    ensures Validate(apiKey, req, existing).Reject? ==>
      reply.Status() == StatusOf(Validate(apiKey, req, existing).why)
    ensures Validate(apiKey, req, existing).Proceed? ==>
      reply.Status() == if Succeeds(RenderSteps(Validate(apiKey, req, existing).plan), failing) then 200 else 500
  {
    calls := [];
    match Validate(apiKey, req, existing)
    case Reject(why) =>
      reply := Error(StatusOf(why), MessageOf(why));
    case Proceed(plan) =>
      var browserSet := false;
      var ok;
      ok, calls := Perform(Launch(LaunchArgs, "new"), failing, calls);
      if ok {
        browserSet := true;
        var pageCalls;
        ok, pageCalls := DrivePage(plan, failing);
        calls := calls + pageCalls;
      }
      assert calls == Attempted(RenderSteps(plan), failing);
      if ok {
        reply := Rendered(plan.outputPath, plan.previewPath);
      } else {
        reply := Crashed(calls[|calls| - 1]);
      }
      // finally
      if browserSet {
        calls := calls + [CloseBrowser];
      }
  }
}
