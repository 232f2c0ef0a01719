/** The Puppeteer rendering gateway: `/render` turns inline HTML or a URL into a PDF with one
    shared, lazily launched browser, while a counter admits at most `MAX_CONCURRENCY` renders
    at a time; `/health` reports whether the browser can be obtained, and SIGTERM closes it.
    Each `await` is treated as one atomic step. */
module PuppeteerServer {
  import opened Support
  import opened PdfOptions

  // ---------------------------------------------------------------------------------------
  // Configuration

  const DefaultMaxConcurrency: nat := 2

  predicate AllDigits(s: string)
  {
    forall i :: 0 <= i < |s| ==> '0' <= s[i] <= '9'
  }

  /** The value of a string of decimal digits (leading zeros allowed). */
  function DigitsValue(s: string): nat
    requires AllDigits(s)
    decreases |s|
  {
    if s == [] then 0 else DigitsValue(s[..|s| - 1]) * 10 + (s[|s| - 1] as int - '0' as int)
  }

  /** The shortest decimal spelling of `n`. */
  function DecimalString(n: nat): (s: string)
    ensures s != [] && AllDigits(s)
  {
    if n < 10 then [('0' as int + n) as char] else DecimalString(n / 10) + [('0' as int + n % 10) as char]
  }

  /** `Number(process.env.MAX_CONCURRENCY || 2)` for an unset or empty variable and for a
      variable holding decimal digits; any other spelling gives `None` (not modelled). */
  function MaxConcurrencyFromEnv(env: Option<string>): (max: Option<nat>)
    ensures !Truthy(env) ==> max == Some(DefaultMaxConcurrency)
    ensures Truthy(env) ==> (max.Some? <==> AllDigits(env.value))
  {
    if !Truthy(env) then Some(DefaultMaxConcurrency)
    else if AllDigits(env.value) then Some(DigitsValue(env.value))
    else None
  }

  /** Setting the variable to the decimal spelling of `n` configures exactly `n`. */
  lemma {:induction false} MaxConcurrencyFromDecimal(n: nat)
    ensures MaxConcurrencyFromEnv(Some(DecimalString(n))) == Some(n)
  {
    DigitsOfDecimal(n);
  }

  /** `k` zero digits. */
  function Zeros(k: nat): (z: string)
    ensures |z| == k && AllDigits(z)
  {
    if k == 0 then [] else Zeros(k - 1) + ['0']
  }

  /** Leading zeros do not change the value, as with `Number("007")`: a spelling of `n` with
      any number of leading zeros configures exactly `n`. */
  lemma {:induction false} MaxConcurrencyWithLeadingZeros(k: nat, n: nat)
    ensures MaxConcurrencyFromEnv(Some(Zeros(k) + DecimalString(n))) == Some(n)
  {
    var s := DecimalString(n);
    assert AllDigits(Zeros(k) + s);
    LeadingZerosValue(k, s);
    DigitsOfDecimal(n);
  }

  /** `k` leading zeros leave the value of a digit string unchanged. */
  lemma {:induction false} LeadingZerosValue(k: nat, s: string)
    requires AllDigits(s)
    ensures AllDigits(Zeros(k) + s) && DigitsValue(Zeros(k) + s) == DigitsValue(s)
    decreases k
  {
    if k > 0 {
      assert Zeros(k) + s == Zeros(k - 1) + (['0'] + s);
      LeadingZeroValue(s);
      LeadingZerosValue(k - 1, ['0'] + s);
    } else {
      assert Zeros(k) + s == s;
    }
  }

  /** One leading zero leaves the value of a digit string unchanged. */
  lemma {:induction false} LeadingZeroValue(s: string)
    requires AllDigits(s)
    ensures AllDigits(['0'] + s) && DigitsValue(['0'] + s) == DigitsValue(s)
    decreases |s|
  {
    var t := ['0'] + s;
    assert AllDigits(t);
    if s != [] {
      assert t[..|t| - 1] == ['0'] + s[..|s| - 1];
      LeadingZeroValue(s[..|s| - 1]);
    } else {
      assert t[..|t| - 1] == [];
    }
  }

  lemma {:induction false} DigitsOfDecimal(n: nat)
    ensures DigitsValue(DecimalString(n)) == n
  {
    var s := DecimalString(n);
    if n >= 10 {
      DigitsOfDecimal(n / 10);
      assert s[..|s| - 1] == DecimalString(n / 10);
    }
  }

  // ---------------------------------------------------------------------------------------
  // The `/render` request and what the handler asks of the page

  /** The JSON body; an absent body is the one with every field absent. `pdfOptions` is
      `NoOptions` when not given. */
  datatype Body = Body(
    html: Option<string>,
    url: Option<string>,
    pdfOptions: Options,
    waitUntil: Option<string>,
    timeoutMs: Option<int>)

  /** The destructuring default: applies only when the field is absent. */
  function WaitUntil(body: Body): string
  {
    if body.waitUntil.Some? then body.waitUntil.value else "networkidle0"
  }

  function TimeoutMs(body: Body): int
  {
    if body.timeoutMs.Some? then body.timeoutMs.value else 60000
  }

  /** The defaults the caller's `pdfOptions` are spread over. */
  const DefaultPdfOptions := Options(
    path := None,
    format := Some("A4"),
    printBackground := Some(true),
    preferCSSPageSize := Some(true),
    margin := Some(ZeroMargin),
    displayHeaderFooter := None,
    scale := None,
    landscape := None,
    timeout := None)

  /** The options given to `page.pdf`: A4, backgrounds, CSS page size and zero margins unless
      the caller's `pdfOptions` says otherwise, field by field. */
  function JobPdfOptions(body: Body): (options: Options)
    ensures options.format == Some(if body.pdfOptions.format.Some? then body.pdfOptions.format.value else "A4")
    ensures options.printBackground == Some(if body.pdfOptions.printBackground.Some? then body.pdfOptions.printBackground.value else true)
    ensures options.preferCSSPageSize == Some(if body.pdfOptions.preferCSSPageSize.Some? then body.pdfOptions.preferCSSPageSize.value else true)
    ensures options.margin == Some(if body.pdfOptions.margin.Some? then body.pdfOptions.margin.value else ZeroMargin)
    ensures options.path == body.pdfOptions.path && options.scale == body.pdfOptions.scale
    ensures options.landscape == body.pdfOptions.landscape && options.timeout == body.pdfOptions.timeout
    ensures options.displayHeaderFooter == body.pdfOptions.displayHeaderFooter
  {
    Merge(DefaultPdfOptions, body.pdfOptions)
  }

  /** The page calls of the handler, and the browser close of the SIGTERM handler. */
  datatype Call =
    | NewPage
    | SetDefaultTimeout(ms: int)
    | SetViewport(width: int, height: int, deviceScaleFactor: int)
    | Goto(url: string, waitUntil: string)
    | SetContent(html: string, waitUntil: string)
    | Pdf(options: Options)
    | ClosePage
    | CloseBrowser

  /** How the content is loaded: a truthy `url` is navigated to and `html` is then ignored;
      otherwise `html` is set as the page content. */
  function Navigation(body: Body): (nav: Call)
    requires Truthy(body.html) || Truthy(body.url)
    ensures nav.Goto? <==> Truthy(body.url)
    ensures nav.Goto? ==> nav.url == body.url.value
    ensures nav.SetContent? ==> nav.html == body.html.value && nav.html != ""
    ensures nav.Goto? || nav.SetContent?
    ensures nav.waitUntil == WaitUntil(body)
  {
    if Truthy(body.url) then Goto(body.url.value, WaitUntil(body))
    else SetContent(body.html.value, WaitUntil(body))
  }

  /** A request with only a `url` gets the defaults: a 60000 ms page timeout, navigation
      waiting for `networkidle0`, and the default PDF options. A `waitUntil` or `timeoutMs`
      that is given is kept even when falsy, since destructuring defaults apply only to absent
      fields. */
  lemma DefaultsOfBareRequest(url: string, html: string, waitUntil: string, timeoutMs: int)
    requires url != "" && html != ""
    ensures var body := Body(None, Some(url), NoOptions, None, None);
      PageSteps(body) == [NewPage, SetDefaultTimeout(60000), SetViewport(1280, 720, 1),
                          Goto(url, "networkidle0"), Pdf(DefaultPdfOptions), ClosePage]
    ensures var body := Body(None, Some(url), NoOptions, Some(waitUntil), Some(timeoutMs));
      PageSteps(body)[1] == SetDefaultTimeout(timeoutMs) && PageSteps(body)[3] == Goto(url, waitUntil)
    ensures var body := Body(Some(html), None, NoOptions, Some(waitUntil), Some(timeoutMs));
      PageSteps(body)[1] == SetDefaultTimeout(timeoutMs) && PageSteps(body)[3] == SetContent(html, waitUntil)
  {
  }

  /** The page calls of a request with content, in order, if none throws. The 150 ms settle
      delay between loading and printing is not a call and is left out. */
  function PageSteps(body: Body): seq<Call>
    requires Truthy(body.html) || Truthy(body.url)
  {
    [ NewPage,
      SetDefaultTimeout(TimeoutMs(body)),
      SetViewport(1280, 720, 1),
      Navigation(body),
      Pdf(JobPdfOptions(body)),
      ClosePage ]
  }

  /** `page.close()` is reached only when every earlier page call, the PDF included, completed. */
  lemma PageClosedOnlyAfterPdf(body: Body, failing: set<Call>)
    requires Truthy(body.html) || Truthy(body.url)
    requires ClosePage in Attempted(PageSteps(body), failing)
    ensures Succeeds(PageSteps(body)[..5], failing)
  {
    var steps, made := PageSteps(body), Attempted(PageSteps(body), failing);
    var i :| 0 <= i < |made| && made[i] == ClosePage;
    assert made[i] == steps[i];
    assert forall j :: 0 <= j < 5 ==> !steps[j].ClosePage?;
    assert |made| == 6;
    forall j | 0 <= j < 5
      ensures steps[..5][j] !in failing
    {
      assert steps[..5][j] == made[j];
    }
  }

  /** When the page was opened but a later call before `page.close()` throws, the page is never
      closed: the handler closes it only on the success path. */
  lemma PageLeftOpenOnError(body: Body, failing: set<Call>)
    requires Truthy(body.html) || Truthy(body.url)
    requires NewPage !in failing && !Succeeds(PageSteps(body)[..5], failing)
    ensures NewPage in Attempted(PageSteps(body), failing)
    ensures ClosePage !in Attempted(PageSteps(body), failing)
  {
    var steps, made := PageSteps(body), Attempted(PageSteps(body), failing);
    assert made != [] && made[0] == steps[0];
    if ClosePage in made {
      PageClosedOnlyAfterPdf(body, failing);
      assert false;
    }
  }

  /** The page calls of the `try` block: open a page, set its default timeout and viewport,
      load the content, print the PDF and close the page, stopping at the first call that
      throws. */
  method DrivePage(body: Body, failing: set<Call>) returns (ok: bool, calls: seq<Call>)
    requires Truthy(body.html) || Truthy(body.url)
    ensures calls == Attempted(PageSteps(body), failing)
    ensures ok <==> Succeeds(PageSteps(body), failing)
  {
    ghost var steps := PageSteps(body);
    calls := [];
    Advance(steps, failing, calls);
    ok, calls := Perform(NewPage, failing, calls);
    if ok {
      Advance(steps, failing, calls);
      ok, calls := Perform(SetDefaultTimeout(TimeoutMs(body)), failing, calls);
    }
    if ok {
      Advance(steps, failing, calls);
      ok, calls := Perform(SetViewport(1280, 720, 1), failing, calls);
    }
    if ok {
      Advance(steps, failing, calls);
      if Truthy(body.url) {
        ok, calls := Perform(Goto(body.url.value, WaitUntil(body)), failing, calls);
      } else {
        ok, calls := Perform(SetContent(body.html.value, WaitUntil(body)), failing, calls);
      }
    }
    if ok {
      Advance(steps, failing, calls);
      ok, calls := Perform(Pdf(JobPdfOptions(body)), failing, calls);
    }
    if ok {
      Advance(steps, failing, calls);
      ok, calls := Perform(ClosePage, failing, calls);
    }
    assert Progress(steps, failing, ok, calls) && (ok ==> |calls| == |steps|);
  }

  // ---------------------------------------------------------------------------------------
  // The service state

  /** A browser handle returned by `puppeteer.launch`. */
  type Handle = nat

  /** Identifies one `/render` request in flight. */
  type Job = nat

  /** What `puppeteer.launch` does when it is called. */
  datatype LaunchOutcome = Launched(handle: Handle) | LaunchFailed(message: string)

  datatype BrowserResult = Got(handle: Handle) | LaunchError(message: string)

  /** The reply of `/render`. */
  datatype Reply =
    | BadRequest(error: string)
    | PdfSent(options: Options)
    | BrowserUnavailable(error: string)
    | PageError(failed: Call)
  {
    function Status(): int
    {
      match this
      case BadRequest(_) => 400
      case PdfSent(_) => 200
      case BrowserUnavailable(_) => 500
      case PageError(_) => 500
    }
  }

  class Server {
    /** `MAX_CONCURRENCY`. */
    const maxConcurrency: nat
    /** How many requests hold a slot. */
    var inFlight: int
    /** The cached browser; `None` while `browser` is undefined. */
    var browser: Option<Handle>
    /** The requests that hold a slot. */
    ghost var holders: set<Job>
    /** How many times `puppeteer.launch` was called. */
    ghost var launches: nat

    /** The counter stays within its bounds; the defensive clamp in `release` keeps this even
        for a release without an acquire. */
    ghost predicate Bounded()
      reads this
    {
      0 <= inFlight <= maxConcurrency
    }

    /** Acquires and releases balance: the counter is the number of requests holding a slot,
        so no more than `maxConcurrency` renders run at once. */
    ghost predicate Valid()
      reads this
    {
      Bounded() && inFlight == |holders|
    }

    constructor (maxConcurrency: nat)
      ensures Valid() && this.maxConcurrency == maxConcurrency
      ensures inFlight == 0 && holders == {} && browser == None && launches == 0
    {
      this.maxConcurrency := maxConcurrency;
      inFlight := 0;
      browser := None;
      holders := {};
      launches := 0;
    }

    /** One evaluation of `acquire`'s loop condition for request `job`: with a free slot the
        request takes it and `inFlight` grows by one; otherwise nothing changes and the request
        stays suspended in the loop, polling again after 25 ms. */
    method Acquire(job: Job) returns (admitted: bool)
      requires Valid() && job !in holders
      modifies this`inFlight, this`holders
      ensures Valid()
      ensures admitted <==> old(inFlight) < maxConcurrency
      ensures inFlight == if admitted then old(inFlight) + 1 else old(inFlight)
      ensures holders == if admitted then old(holders) + {job} else old(holders)
    {
      if inFlight >= maxConcurrency {
        admitted := false;
        return;
      }
      inFlight := inFlight + 1;
      holders := holders + {job};
      admitted := true;
    }

    /** `release`: `inFlight = Math.max(0, inFlight - 1)`. */
    method Release(job: Job)
      modifies this`inFlight, this`holders
      ensures inFlight == if old(inFlight) - 1 > 0 then old(inFlight) - 1 else 0
      ensures holders == old(holders) - {job}
      ensures old(Bounded()) ==> Bounded()
      ensures old(Valid()) && job in old(holders) ==> Valid() && inFlight == old(inFlight) - 1
    {
      inFlight := if inFlight - 1 > 0 then inFlight - 1 else 0;
      holders := holders - {job};
    }

    /** `getBrowser`: the cached browser if there is one, otherwise a launch; a launch that
        throws leaves the cache empty, so the next call launches again. */
    method GetBrowser(launch: LaunchOutcome) returns (r: BrowserResult)
      modifies this`browser, this`launches
      ensures old(browser).Some? ==>
        r == Got(old(browser).value) && browser == old(browser) && launches == old(launches)
      ensures old(browser).None? ==> launches == old(launches) + 1
      ensures old(browser).None? && launch.Launched? ==>
        r == Got(launch.handle) && browser == Some(launch.handle)
      ensures old(browser).None? && launch.LaunchFailed? ==>
        r == LaunchError(launch.message) && browser == None
    {
      if browser.Some? {
        return Got(browser.value);
      }
      launches := launches + 1;
      match launch
      case Launched(h) =>
        browser := Some(h);
        r := Got(h);
      case LaunchFailed(message) =>
        r := LaunchError(message);
    }

    /** `/health`: 200 exactly when a browser can be obtained, 500 otherwise. */
    method Health(launch: LaunchOutcome) returns (status: int)
      modifies this`browser, this`launches
      ensures launches == old(launches) + (if old(browser).None? then 1 else 0)
      ensures status == 200 <==> old(browser).Some? || launch.Launched?
      ensures status != 200 ==> status == 500
      ensures browser == if old(browser).Some? then old(browser)
                         else if launch.Launched? then Some(launch.handle) else None
    {
      var b := GetBrowser(launch);
      if b.Got? {
        status := 200;
      } else {
        status := 500;
      }
    }

    /** The `/render` handler once `await acquire()` has admitted request `job`. The slot is
        released in `finally`, so on every path, the 400 included, exactly once. A page call in
        `failing` throws; `launch` is what `puppeteer.launch` does if `getBrowser` calls it. */
    method Render(job: Job, body: Body, launch: LaunchOutcome, failing: set<Call>)
      returns (reply: Reply, calls: seq<Call>)
      requires Valid() && job in holders
      modifies this`inFlight, this`holders, this`browser, this`launches
      ensures Valid()
      ensures inFlight == old(inFlight) - 1 && holders == old(holders) - {job}
      ensures !Truthy(body.html) && !Truthy(body.url) ==>
        reply == BadRequest("Provide html or url") && reply.Status() == 400 && calls == [] &&
        browser == old(browser) && launches == old(launches)
      ensures Truthy(body.html) || Truthy(body.url) ==>
        launches == old(launches) + (if old(browser).None? then 1 else 0)
      ensures Truthy(body.html) || Truthy(body.url) ==>
        browser == (if old(browser).Some? then old(browser)
                    else if launch.Launched? then Some(launch.handle) else None)
      ensures Truthy(body.html) || Truthy(body.url) ==>
        (old(browser).None? && launch.LaunchFailed? ==>
          reply == BrowserUnavailable(launch.message) && reply.Status() == 500 && calls == [])
      ensures Truthy(body.html) || Truthy(body.url) ==>
        (old(browser).Some? || launch.Launched? ==>
          calls == Attempted(PageSteps(body), failing) &&
          (reply.PdfSent? <==> Succeeds(PageSteps(body), failing)) &&
          reply.Status() == (if Succeeds(PageSteps(body), failing) then 200 else 500) &&
          (reply.PdfSent? ==> reply.options == JobPdfOptions(body)) &&
          (!reply.PdfSent? ==> reply == PageError(calls[|calls| - 1])))
    {
      calls := [];
      var ok := false;
      if !Truthy(body.html) && !Truthy(body.url) {
        reply := BadRequest("Provide html or url");
      } else {
        var b := GetBrowser(launch);
        match b
        case LaunchError(message) =>
          reply := BrowserUnavailable(message);
        case Got(_) =>
          ok, calls := DrivePage(body, failing);
          if ok {
            reply := PdfSent(JobPdfOptions(body));
          } else {
            reply := PageError(calls[|calls| - 1]);
          }
      }
      // finally
      Release(job);
    }

    /** The SIGTERM handler: closes the browser if one was launched, swallows an error from
        that close, and exits with code 0. `failing` says whether `browser.close()` throws; the
        calls made and the exit code are the same either way. */
    method OnSigterm(failing: set<Call>) returns (calls: seq<Call>, exitCode: int)
      ensures calls == if browser.Some? then [CloseBrowser] else []
      ensures exitCode == 0
    {
      calls := [];
      if browser.Some? {
        var closed;
        closed, calls := Perform(CloseBrowser, failing, calls);
        // a close that throws lands in the empty catch block and changes nothing
      }
      exitCode := 0;
    }
  }

  /** Two `getBrowser` calls: after a successful launch the second call returns the same
      handle without launching; after a failed launch the second call launches again. */
  method GetBrowserTwice(s: Server, first: LaunchOutcome, second: LaunchOutcome)
    returns (r1: BrowserResult, r2: BrowserResult)
    requires s.browser == None
    modifies s
    ensures first.Launched? ==>
      r1 == r2 == Got(first.handle) && s.launches == old(s.launches) + 1
    ensures first.LaunchFailed? ==>
      r1 == LaunchError(first.message) && s.launches == old(s.launches) + 2 &&
      r2 == (if second.Launched? then Got(second.handle) else LaunchError(second.message))
  {
    r1 := s.GetBrowser(first);
    r2 := s.GetBrowser(second);
  }

  /** At capacity, a waiting request is refused on every poll until some holder releases its
      slot; the next poll after that release admits it. */
  method WaitsUntilRelease(s: Server, waiting: Job, holder: Job) returns (first: bool, retry: bool)
    requires s.Valid() && s.inFlight == s.maxConcurrency
    requires holder in s.holders && waiting !in s.holders
    modifies s
    ensures !first && retry
    ensures s.Valid() && s.inFlight == old(s.inFlight)
    ensures s.holders == old(s.holders) - {holder} + {waiting}
  {
    first := s.Acquire(waiting);
    s.Release(holder);
    retry := s.Acquire(waiting);
  }
}
