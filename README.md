# Puppeteer PDF services, modelled in Dafny

The repository holds two small HTTP services that drive a headless browser (Puppeteer)
to produce PDFs. This project models the decision and state logic of both:

- **The file renderer** (`server.js`, module `FileRenderer`). `POST /render-pdf` takes an
  HTML file path and an output path. It turns the request away in a fixed order:
  1. a wrong API key gives 403;
  2. a missing field gives 400;
  3. a path that does not start with the string `/app/tmp/` gives 400;
  4. an HTML file that does not exist gives 404.
  
  It then derives the `landscape` flag, the paper format and the preview path (the output path
  with its first `.pdf` replaced by `.png`). It launches a fresh browser, writes a screenshot
  and the PDF, and closes that browser in `finally`. `Validate` is the pure early-return chain.
  `HandleRenderPdf` is the imperative handler, with a local `browserSet` flag standing for
  the local `browser` variable.
- **The rendering gateway** (`puppeteer/server.js`, module `PuppeteerServer`). `POST /render`
  takes inline HTML or a URL. A module-level counter `inFlight` admits at most `MAX_CONCURRENCY`
  renders; the slot is released in `finally`. One browser is launched lazily and cached.
  The caller's `pdfOptions` are spread over A4, background printing, CSS page size and zero
  margins. Class `Server` holds `inFlight`, `maxConcurrency`, the cached `browser` and two
  ghost fields: `holders`, the requests that hold a slot, and `launches`, the number of
  `puppeteer.launch` calls. `Server.Valid()` says `0 <= inFlight <= maxConcurrency` and
  `inFlight == |holders|`: acquires and releases balance, so no more than `maxConcurrency`
  renders run at once.

Browser and file-system calls are opaque steps. A handler records the calls it makes in a
trace `calls`, and a parameter `failing` says which calls throw. `Support.Attempted(steps,
failing)` is the reference for a `try` block: the calls are made in order up to and including
the first one that throws. Whether a file exists is the parameter `existing` (the set of paths
on disk). In the gateway, what `puppeteer.launch` does is the parameter `launch`; in the file
renderer the launch is one more call that throws when it is in `failing`. Each `await` is one atomic
step, so `Server.Acquire` is one evaluation of `acquire`'s wait-loop condition: `false` means
the request is still waiting.

Behaviours of the code worth noting:
- the file renderer's default paper size is `A3`;
- a path that does not start with the string `/app/tmp/` gives 400, not 404;
- the path test is on the string alone: `..` segments are not resolved, so an HTML path or an
  output path such as `/app/tmp/../../etc/x` passes it and names a file outside the directory
  (`FileRenderer.ParentSegmentsPassPathTest`);
- the gateway closes the page only on the success path, so a page stays open when a later
  call throws (`PuppeteerServer.PageLeftOpenOnError`);
- a dead browser is never detected: the cache keeps its handle;
- SIGTERM closes the browser and exits at once, without waiting for renders in flight.

## Model

| member | source | states |
|---|---|---|
| `Support.ReplaceFirstAbsent` | server.js:71 | `ReplaceFirst`, the model of `replace`, with a pattern that does not occur returns the string unchanged |
| `Support.ReplaceFirstAt` | server.js:95 | `ReplaceFirst` (`replace`) replaces exactly the leftmost occurrence: prefix before it, replacement, rest after it |
| `Support.ReplaceFirstKeepsPrefix` | server.js:71 | characters before the first occurrence of the pattern are left unchanged |
| `Support.Attempted` | server.js:35-98 | the calls a `try` block makes form a prefix of its steps; every call but the last completed; when not all steps are made, the last one made threw; with no throwing step, all steps are made |
| `PdfOptions.Merge` | puppeteer/server.js:70-76 | the spread `{...defaults, ...pdfOptions}`: for each of the nine fields, a value given in the overrides wins, otherwise the default's stays; empty overrides give the defaults, and overrides spread over an empty object give the overrides |
| `PdfOptions.MergeIdempotentAndAssociative` | puppeteer/server.js:75 | spreading the same overrides twice equals spreading them once; two spreads in a row equal one spread of the merged overrides |
| `FileRenderer.StatusOf` | server.js:12-31 | 403 exactly for a forbidden key, 404 exactly for a missing HTML file, 400 exactly for the field and path errors |
| `FileRenderer.ConfiguredApiKey` | server.js:9 | an unset or empty `PDF_API_KEY` yields the empty key, which disables the key check; otherwise the variable's value |
| `FileRenderer.Landscape` | server.js:22 | landscape exactly when the orientation is truthy and starts with neither 'P' nor 'p'; the test against "Portrait" is subsumed |
| `FileRenderer.Validate` | server.js:12-31 | outcomes in order: 403 for a configured key not matching the header; then 400 for a missing or empty path; then 400 for a path without the string prefix `/app/tmp/`; then 404 for a missing HTML file. A request that proceeds has both paths starting with `/app/tmp/`, an existing HTML file, the derived orientation, format `A3` unless a truthy size is given (`PaperSize`), and its preview path (`PreviewPath`), also starting with `/app/tmp/` |
| `FileRenderer.PreviewStaysUnderAppTmp` | server.js:71 | the screenshot path of an output path starting with `/app/tmp/` starts with `/app/tmp/` too |
| `FileRenderer.ParentSegmentsPassPathTest` | server.js:25 | any HTML and output paths of the form `/app/tmp/../<rest>` pass the path test, with no key configured and the HTML path present, and the request proceeds with exactly those paths |
| `FileRenderer.PreviewOfPdfName` | server.js:95 | `PreviewPath`: an output `<stem>.pdf` with no earlier `.pdf` gets preview `<stem>.png` |
| `FileRenderer.PreviewWithoutPdf` | server.js:95 | an output path without `.pdf` is its own preview path |
| `FileRenderer.DrivePage` | server.js:46-89 | new page, screen media, read file, set content (`networkidle0`, 30000 ms), wait for `.page`, screenshot to the preview path, PDF: made in order up to the first call that throws; succeeds exactly when none throws |
| `FileRenderer.HandleRenderPdf` | server.js:11-107 | a rejected request gets its status (`StatusOf`) and message and makes no call, so no browser is launched. Otherwise the calls are `Attempted` of the launch and page steps, plus one `browser.close()` whenever the launch succeeded. The reply names the PDF and preview paths exactly when no call throws, with status 200, and is a 500 for the throwing call otherwise. The PDF call carries `PlanPdfOptions`: the output path, the plan's format and orientation, backgrounds, no CSS page size, zero margins, no header or footer, scale 1 and timeout 120000 |
| `PuppeteerServer.MaxConcurrencyFromEnv` | puppeteer/server.js:8 | an unset or empty `MAX_CONCURRENCY` gives 2; a digit string gives its value (exact below 2^53, see Left out) |
| `PuppeteerServer.MaxConcurrencyFromDecimal` | puppeteer/server.js:8 | setting the variable to the decimal spelling of `n` configures exactly `n` (for `n` below 2^53, see Left out) |
| `PuppeteerServer.MaxConcurrencyWithLeadingZeros` | puppeteer/server.js:8 | a spelling of `n` with any number of leading zeros, such as "007", configures exactly `n`, as `Number` reads it for `n` below 2^53 |
| `PuppeteerServer.JobPdfOptions` | puppeteer/server.js:70-76 | format `A4`, backgrounds, CSS page size and zero margins unless overridden; each field the caller gives wins; other fields come only from the caller |
| `PuppeteerServer.DefaultsOfBareRequest` | puppeteer/server.js:50 | `WaitUntil` and `TimeoutMs`: a request with only a `url` gets a 60000 ms page timeout, navigation waiting for `networkidle0` and the default PDF options; a `waitUntil` or `timeoutMs` that is given, even a falsy one, is the one passed to `setDefaultTimeout` and to `goto` or `setContent` |
| `PuppeteerServer.Navigation` | puppeteer/server.js:60-64 | a truthy `url` is navigated to, ignoring `html`; otherwise the non-empty `html` is set as content; either waits for `WaitUntil` (the given `waitUntil`, `networkidle0` by default) |
| `PuppeteerServer.PageClosedOnlyAfterPdf` | puppeteer/server.js:70-78 | `page.close()` is made only when every earlier page call, PDF included, completed |
| `PuppeteerServer.PageLeftOpenOnError` | puppeteer/server.js:54-84 | a page opened and followed by a throwing call before `page.close()` is never closed |
| `PuppeteerServer.DrivePage` | puppeteer/server.js:54-78 | new page, default timeout (`timeoutMs`, 60000 by default), viewport 1280x720, navigation, PDF with the merged options, page close: made in order up to the first call that throws |
| `PuppeteerServer.Server.constructor` | puppeteer/server.js:8-20 | the service starts with no slot held, no browser and no launch |
| `PuppeteerServer.Server.Acquire` | puppeteer/server.js:12-17 | a request is admitted exactly when `inFlight < maxConcurrency`, and then `inFlight` grows by exactly one; otherwise nothing changes; the bound and the balance are kept |
| `PuppeteerServer.Server.Release` | puppeteer/server.js:18 | `inFlight` becomes `max(0, inFlight - 1)`, so a release at zero stays at zero; the bound is always kept, the balance whenever the releasing request held a slot |
| `PuppeteerServer.Server.GetBrowser` | puppeteer/server.js:20-34 | a cached browser is returned with no launch; otherwise one launch: success caches and returns the handle, failure leaves the cache empty and returns the error |
| `PuppeteerServer.Server.Health` | puppeteer/server.js:36-43 | 200 exactly when a browser is cached or the launch succeeds, 500 otherwise; one launch exactly when no browser is cached |
| `PuppeteerServer.Server.Render` | puppeteer/server.js:45-88 | the slot is released exactly once on every path. Neither `html` nor `url` gives status 400 with no page call, no launch and the cache unchanged. With content, `getBrowser` launches exactly when no browser is cached. A failed launch gives status 500 with no page call. Otherwise the page calls are `Attempted` of the page steps; the PDF is sent (200), with the merged options, exactly when none throws, else 500 for the throwing call |
| `PuppeteerServer.Server.OnSigterm` | puppeteer/server.js:90-93 | makes one `browser.close()` call if a browser is cached and none otherwise; for every set of throwing calls, a throwing close is swallowed and the exit code is 0 |
| `PuppeteerServer.GetBrowserTwice` | puppeteer/server.js:22-34 | after a successful launch a second `getBrowser` returns the same handle without launching; after a failed launch it launches again |
| `PuppeteerServer.WaitsUntilRelease` | puppeteer/server.js:12-18 | in any valid state at capacity, a waiting request's poll is refused; after any holder releases, its next poll admits it, leaving the counter at capacity |

## Left out

- HTTP routing, JSON body parsing and its size limits, and response serialisation. Only the
  status, the error message or the chosen result are modelled.
- The Puppeteer calls themselves, `fs.existsSync` and `fs.readFileSync`. They are opaque
  steps that may throw, and file existence is a parameter.
- The 25 ms poll in `acquire` and the 150 ms settle delay before printing. These are timers;
  `Acquire` is one poll.
- Interleaving inside a handler: each handler body runs as one step after admission. The race
  where two first callers of `getBrowser` both launch is therefore not modelled.
- `MaxConcurrencyFromEnv` reads a digit string as an exact natural number. `Number` gives a
  double: above 2^53 it rounds (`"9007199254740993"` gives 9007199254740992), and a string
  of a few hundred digits gives `Infinity`. The same holds for `MaxConcurrencyFromDecimal` and
  `MaxConcurrencyWithLeadingZeros`, which are exact for every `n`.
- `Number(...)` on a `MAX_CONCURRENCY` that is not a plain digit string (NaN, sign, whitespace,
  exponent). `MaxConcurrencyFromEnv` gives `None` for these and the model goes no further.
- Non-string request fields, such as an `orientation` that makes `startsWith` throw, and JSON
  `null` values. `pdfOptions` is modelled as overrides of the nine known option fields.
  An override that is explicitly `undefined` is treated as absent.
- Errors thrown by `browser.close()` in the file renderer's `finally`. The reply is already
  sent by then; the error becomes an unhandled rejection of the async handler, which the
  model does not follow.
- The response bodies' `stack`, `pid` and `ws` fields, the duration header, console logging,
  `process.exit` and the listening port.
