# Screenshot route: a verified model

This project models the one piece of logic in a Next.js marketing site: the
`GET` handler that returns a PNG of a target page. Given a `url` query
parameter, the handler does five things in order:

1. It answers 400 when the parameter is missing or empty.
2. It names the cache file `${hostname}.png` after the target's hostname.
3. It serves that file when it exists, its mtime is less than one day
   (86 400 000 ms) before the current time, and `stat` and `readFile` on it
   succeed.
4. Otherwise it captures a new image with a headless browser, overwrites the
   file with it, and serves the new bytes.
5. It turns every failure after validation into a 500 "Failed to generate
   screenshot", except a failed `stat` or `readFile`, which falls through to
   a new capture.

Files:

- `wrappers.dfy` holds module `Wrappers`, the `Option` type.
- `route.dfy` holds module `Route`.
  - `MissingParam` is the `!url` test (route.ts:10). Its meaning is stated
    by `MissingParamIsBadRequest` and by `Handle`'s first ensures.
  - `Key` is the file name `${domain}.png` (route.ts:17). `KeyRoundTrip`,
    `KeyInjective` and `SameHostSameOutcome` state its meaning.
  - `IsFresh` is the one-day test (route.ts:26-27). `FreshnessBoundary` and
    `StaleEntryIsRecaptured` state its meaning.
  - `FreshHit` is the stat, freshness test and readFile with the swallowed
    failures (route.ts:23-35). `FreshHitServesStoredBytes`,
    `ProbeFailureFallsThrough` and `ScreenshotCache.Probe` state its meaning.
  - `Handle` is a pure reference definition of one request. It maps the
    directory before the request to the response, the directory after it,
    and whether a browser launch was attempted. A `puppeteer.launch` that
    throws counts as an attempt: the browser's result is then `None` and
    `launched` is true.
  - Lemmas about `Handle` state each behaviour of the route.
  - Class `ScreenshotCache` holds the directory as a mutable map. Its `Get`
    method runs the handler step by step with its early returns, and is
    proved to agree with `Handle`.
- `requests.dfy` holds module `Requests`. `Replay` runs a sequence of
  requests against the same directory. Lemmas by induction say what the
  one-day cache promises across calls.

The inputs that come from I/O are parameters:

- the hostname parser, `string -> Option<string>`, where `None` stands for
  `new URL(url)` throwing;
- the clock (`now` for the freshness test, `writtenAt` for the new file's
  mtime);
- whether `mkdir`, `stat` and `readFile` succeed;
- the browser's result (`None` when any browser step throws);
- the outcome of `writeFile`. A failed write may leave the old file or a
  partial new one, because the write is not atomic. A partial file gets a
  new mtime, so the next request within a day is served it as a 200
  `image/png` (`PartialWriteServedAsHit`).

The route has none of the following, and neither does the model:

- It does not serve a stale file when the capture fails. That case is a 500.
- It does not check the URL scheme.
- It has no single-flight per key, no cap on concurrent browsers and no
  atomic publish.
- It has no separate client error for an unparsable URL: that case is a
  500, not a 400.

## Model

| member | source | states |
|---|---|---|
| Route.KeyRoundTrip | src/app/components/Home/ProductDoc/route.ts:17 | the hostname can be read back from its cache file name |
| Route.KeyInjective | src/app/components/Home/ProductDoc/route.ts:15-17 | two hostnames share a cache file if and only if they are equal |
| Route.FreshnessBoundary | src/app/components/Home/ProductDoc/route.ts:26-27 | the test is strict: age 86 399 999 ms is fresh, age 86 400 000 ms is stale, fresh iff now < mtime + 86 400 000 |
| Route.Handle | src/app/components/Home/ProductDoc/route.ts:6-53 | status 400 iff the parameter is missing or empty; every 200 is `image/png` with image bytes; every other response is one of the two error responses; a browser is launched only after validation and mkdir succeed; without a launch the directory is unchanged |
| Route.MissingParamIsBadRequest | src/app/components/Home/ProductDoc/route.ts:8-12 | a null or empty `url` gives 400 "URL parameter is required", with no capture and no change to the directory |
| Route.UnparsableUrlIsServerError | src/app/components/Home/ProductDoc/route.ts:14-53 | a hostname that cannot be parsed gives 500, not 400, with no capture and no change to the directory |
| Route.SameHostSameOutcome | src/app/components/Home/ProductDoc/route.ts:15-17 | two URLs with the same hostname read and write the same entry: given the same I/O outcomes, their outcomes are equal |
| Route.FreshHitServesStoredBytes | src/app/components/Home/ProductDoc/route.ts:24-31 | a fresh, readable entry is served as 200 `image/png` with exactly its bytes, with no capture and no change to the directory |
| Route.StaleEntryIsRecaptured | src/app/components/Home/ProductDoc/route.ts:26-37 | an entry aged a full day or more causes a capture, and the response is the one a missing entry gets |
| Route.ProbeFailureFallsThrough | src/app/components/Home/ProductDoc/route.ts:23-45 | a failed stat or read is swallowed: the request captures and writes instead of erroring |
| Route.MissCapturesAndStores | src/app/components/Home/ProductDoc/route.ts:37-49 | on a miss, a successful capture and write serve exactly the captured bytes; the host's file becomes those bytes with the write time as mtime; no other file changes |
| Route.FailedCaptureIsServerError | src/app/components/Home/ProductDoc/route.ts:37-53 | a failed capture gives 500 even when a stale entry exists, and leaves the directory unchanged |
| Route.FailedWriteIsServerError | src/app/components/Home/ProductDoc/route.ts:45-53 | a failed write gives 500, and no file other than the host's changes |
| Route.FailedMkdirIsServerError | src/app/components/Home/ProductDoc/route.ts:20-53 | a failed mkdir gives 500 before any read or capture, with no change to the directory |
| Route.OnlyTheHostsFileChanges | src/app/components/Home/ProductDoc/route.ts:17-45 | whatever the I/O outcomes, a file other than the requested host's is neither created, removed nor changed |
| Route.ScreenshotCache.Probe | src/app/components/Home/ProductDoc/route.ts:23-35 | the step-by-step stat, freshness test and readFile with early returns equal the freshness check `FreshHit` that `Handle` uses: the stored bytes exactly when all three succeed, None otherwise |
| Route.ScreenshotCache.Save | src/app/components/Home/ProductDoc/route.ts:45 | writeFile: on success the file holds the bytes with the write time as mtime; on failure the old file or the partial one; reports success |
| Route.ScreenshotCache.Get | src/app/components/Home/ProductDoc/route.ts:6-53 | the step-by-step handler gives exactly the response, the new directory and the launch that `Handle` defines |
| Requests.Replay | src/app/components/Home/ProductDoc/route.ts:6-53 | a sequence of requests gives one response per request and at most one launch per request; with no launch the directory is unchanged |
| Requests.RepeatedHitsWithinDay | src/app/components/Home/ProductDoc/route.ts:23-31 | any number of requests for a host while its entry is fresh get the stored bytes, with no launch and no write |
| Requests.CaptureThenHits | src/app/components/Home/ProductDoc/route.ts:23-49 | a capturing first request followed by requests for the same host within a day of the write: exactly one launch, and every response carries the captured bytes, whichever page of the host each later request names |
| Requests.PartialWriteServedAsHit | src/app/components/Home/ProductDoc/route.ts:23-53 | a write that fails after leaving a partial file gives 500, and the next request for the host within a day of the partial file's mtime gets that partial file as 200 `image/png` |
| Requests.FirstRequestOnEmptyCache | src/app/components/Home/ProductDoc/route.ts:14-49 | on an empty directory, one request launches one browser, returns the captured bytes and persists them under `${host}.png` |

## Left out

- The headless browser (lines 37-42) is an input. The model omits the launch
  flags, the 1280×800 viewport, the `networkidle2` wait and PNG encoding. It
  also omits the browser process leaking when any step after launch
  (`newPage`, `setViewport`, `goto`, `screenshot`) throws before `close`:
  the model has no processes.
- Hostname extraction by the WHATWG URL Standard (host parsing, section 3.5)
  is an opaque partial function.
- Paths are not modelled. `process.cwd()`, `path.join` and the `public/screenshots`
  directory become the keys of one map. The directory's existence is not
  tracked. Only `mkdir`'s success or failure is. File names are compared
  exactly, so the model assumes a case-sensitive file system; on a
  case-insensitive one, hostnames that differ only in case (a non-special
  scheme keeps the case, as in `foo://ABC`) share a file, which
  `KeyInjective` does not capture.
- `Date.now()` and file mtimes are unbounded integers of milliseconds.
  JavaScript numbers are doubles, but they are exact at these magnitudes.
- `stat` and `readFile` see the same entry. A concurrent writer between the
  two calls is not modelled.
- The `NextRequest`/`NextResponse` framing is not modelled. Parsing
  `request.url` is assumed to succeed, and `searchParams.get` is represented
  by the first `url` value or `None`.
- The Content-Type of the text error responses is the Fetch Standard's
  default for a string body. The route does not set it.
- `console.error` logging is not modelled.
- Overlapping requests are not modelled. Next.js may run several requests
  to the route at once, and the code takes no lock, so two overlapping
  requests may both capture and both write. `Replay` and the lemmas of
  `Requests` hold only for requests that run one after the other.
- The browser's result does not depend on the page. The browser loads the
  full URL, but the file is named after the hostname only. So every page of
  a host is served the capture of whichever page last missed and was
  written, as `CaptureThenHits` shows; the model does not say which image a
  given page would produce. `SameHostSameOutcome` holds for two URLs given
  the same browser result.
- src/utils/wordpress.ts is a CMS fetch client with field defaults and no
  logic to state.
- next.config.mjs is static framework configuration.
