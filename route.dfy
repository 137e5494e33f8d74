/** The screenshot route `GET /…/ProductDoc?url=<target>`: validate the `url`
    query parameter, derive a cache key from the target's hostname, serve a
    cached PNG younger than one day, and otherwise capture a new image, write
    it back over the cache entry and serve it. Every failure after validation
    becomes a 500, except a failed `stat` or `readFile`, which falls through
    to a new capture.

    The file system is a map from file name to (bytes, modification time);
    the clock, the hostname parser, the headless browser and the outcome of
    each file-system call are inputs. */
module Route {
  import opened Wrappers

  newtype byte = x: int | 0 <= x < 256

  /** One day in milliseconds: the age at which a cached capture is stale. */
  const OneDayMs: int := 24 * 60 * 60 * 1000

  /** A file in the screenshot directory: its contents and its mtime (ms). */
  datatype Entry = Entry(bytes: seq<byte>, mtime: int)

  /** A response body: plain text for the error paths, image bytes otherwise. */
  datatype Body = Text(text: string) | Image(bytes: seq<byte>)

  datatype Response = Response(status: int, contentType: string, body: Body)

  /** What a string body gets by default from the Fetch Standard's body extraction. */
  const PlainText: string := "text/plain;charset=UTF-8"
  const PngType: string := "image/png"

  const MissingUrl: Response := Response(400, PlainText, Text("URL parameter is required"))
  const Failure: Response := Response(500, PlainText, Text("Failed to generate screenshot"))

  function PngResponse(bytes: seq<byte>): Response {
    Response(200, PngType, Image(bytes))
  }

  /** What a failed `writeFile` leaves behind: the old file untouched
      (`None`), or whatever part of the new one reached the disk. */
  datatype WriteOutcome = Written | WriteFailed(partial: Option<Entry>)

  /** The outcomes of the I/O one request performs, in the order it performs them:
      the clock read by the freshness test, whether `mkdir` succeeds, whether
      `stat` and `readFile` succeed on an existing file, the bytes the browser
      returns (None when any browser step throws), the clock when the file is
      written, and the outcome of `writeFile`. */
  datatype Env = Env(
    now: int,
    mkdirOk: bool,
    statOk: bool,
    readOk: bool,
    capture: Option<seq<byte>>,
    writtenAt: int,
    write: WriteOutcome)

  /** The result of one request: the response, the file system afterwards, and
      whether a browser launch was attempted (a launch that throws counts). */
  datatype Outcome = Outcome(resp: Response, files: map<string, Entry>, launched: bool)

  /** `!url`: the parameter is absent (null) or empty. */
  predicate MissingParam(url: Option<string>) {
    url.None? || url.value == ""
  }

  /** The file name of the capture of a host: `${domain}.png`. */
  function Key(host: string): string {
    host + ".png"
  }

  /** The host a cache file name belongs to: the inverse of Key. */
  function HostOfKey(k: string): string
    requires |k| >= 4
  {
    k[..|k| - 4]
  }

  lemma KeyRoundTrip(host: string)
    ensures HostOfKey(Key(host)) == host
  {
  }

  /** Two URLs share a cache file exactly when they share a hostname. */
  lemma KeyInjective(a: string, b: string)
    ensures Key(a) == Key(b) <==> a == b
  {
    assert Key(a)[..|a|] == a;
    assert Key(b)[..|b|] == b;
  }

  /** A file modified `now - mtime` ms ago is fresh while that age is under a
      day; an mtime in the future counts as fresh. */
  predicate IsFresh(now: int, mtime: int) {
    now - mtime < OneDayMs
  }

  /** The freshness test is strict: the last fresh millisecond is one before a
      full day, and from a full day on the entry is stale. */
  lemma FreshnessBoundary(mtime: int, now: int)
    ensures IsFresh(mtime + 86_399_999, mtime) && !IsFresh(mtime + 86_400_000, mtime)
    ensures IsFresh(now, mtime) <==> now < mtime + 86_400_000
  {
  }

  /** The bytes the freshness check serves: present only when `stat` finds
      the file, it is fresh, and `readFile` succeeds on it. */
  function FreshHit(files: map<string, Entry>, key: string, env: Env): Option<seq<byte>> {
    if env.statOk && key in files && IsFresh(env.now, files[key].mtime) && env.readOk
    then Some(files[key].bytes)
    else None
  }

  /** The route as a function of the file system before the request: the
      reference the class method below is proved against. */
  function Handle(files: map<string, Entry>, url: Option<string>,
                  hostname: string -> Option<string>, env: Env): (o: Outcome)
    ensures o.resp.status == 400 <==> MissingParam(url)
    ensures o.resp.status == 200 ==> o.resp.contentType == PngType && o.resp.body.Image?
    ensures o.resp.status != 200 ==> o.resp == MissingUrl || o.resp == Failure
    ensures o.launched ==> !MissingParam(url) && hostname(url.value).Some? && env.mkdirOk
    ensures !o.launched ==> o.files == files
  {
    if MissingParam(url) then Outcome(MissingUrl, files, false)
    else match hostname(url.value)
      case None => Outcome(Failure, files, false)
      case Some(host) =>
        var key := Key(host);
        if !env.mkdirOk then Outcome(Failure, files, false)
        else match FreshHit(files, key, env)
          case Some(bytes) => Outcome(PngResponse(bytes), files, false)
          case None =>
            match env.capture
            case None => Outcome(Failure, files, true)
            case Some(bytes) =>
              match env.write
              case Written => Outcome(PngResponse(bytes), files[key := Entry(bytes, env.writtenAt)], true)
              case WriteFailed(partial) =>
                Outcome(Failure, if partial.Some? then files[key := partial.value] else files, true)
  }

  /** A request whose non-empty parameter names `host`, with working `mkdir`,
      `stat` and `readFile`, made less than a day after time `since`. */
  predicate RequestsHostWithin(url: Option<string>, hostname: string -> Option<string>,
                               env: Env, host: string, since: int)
  {
    && !MissingParam(url)
    && hostname(url.value) == Some(host)
    && env.mkdirOk && env.statOk && env.readOk
    && IsFresh(env.now, since)
  }

  /** The conditions under which a request for `host` is answered from the
      cache: the host's file exists and the request comes within a day of
      its mtime, with working file-system calls. */
  predicate ServedFromCache(files: map<string, Entry>, url: Option<string>,
                            hostname: string -> Option<string>, env: Env, host: string)
  {
    Key(host) in files && RequestsHostWithin(url, hostname, env, host, files[Key(host)].mtime)
  }

  // ---------------------------------------------------------------------
  // Properties of the route

  /** A missing or empty parameter is a 400, with nothing captured or written. */
  lemma MissingParamIsBadRequest(files: map<string, Entry>, url: Option<string>,
                                 hostname: string -> Option<string>, env: Env)
    requires MissingParam(url)
    ensures Handle(files, url, hostname, env) == Outcome(MissingUrl, files, false)
  {
  }

  /** An unparsable URL is a 500, not a 400, and nothing is captured or written. */
  lemma UnparsableUrlIsServerError(files: map<string, Entry>, url: Option<string>,
                                   hostname: string -> Option<string>, env: Env)
    requires !MissingParam(url) && hostname(url.value).None?
    ensures Handle(files, url, hostname, env) == Outcome(Failure, files, false)
  {
  }

  /** Given the same browser result, the outcome depends on the URL only
      through its hostname: both URLs read and write the same file. The
      browser itself loads the full URL, so on a miss two pages of one host
      may capture different images. */
  lemma SameHostSameOutcome(files: map<string, Entry>, u1: string, u2: string,
                            hostname: string -> Option<string>, env: Env)
    requires u1 != "" && u2 != "" && hostname(u1) == hostname(u2)
    ensures Handle(files, Some(u1), hostname, env) == Handle(files, Some(u2), hostname, env)
  {
  }

  /** A fresh, readable entry is served as it is stored, with no capture. */
  lemma FreshHitServesStoredBytes(files: map<string, Entry>, url: Option<string>,
                                  hostname: string -> Option<string>, env: Env, host: string)
    requires ServedFromCache(files, url, hostname, env, host)
    ensures Handle(files, url, hostname, env) == Outcome(PngResponse(files[Key(host)].bytes), files, false)
  {
  }

  /** An entry aged a full day or more is recaptured, and the response is the
      one a missing entry would get. */
  lemma StaleEntryIsRecaptured(files: map<string, Entry>, url: Option<string>,
                               hostname: string -> Option<string>, env: Env, host: string)
    requires !MissingParam(url) && hostname(url.value) == Some(host) && env.mkdirOk
    requires Key(host) in files && env.now - files[Key(host)].mtime >= OneDayMs
    ensures Handle(files, url, hostname, env).launched
    ensures Handle(files, url, hostname, env).resp == Handle(files - {Key(host)}, url, hostname, env).resp
  {
  }

  /** An entry that fails to stat or to read falls through to a new capture,
      never to an error by itself. */
  lemma ProbeFailureFallsThrough(files: map<string, Entry>, url: Option<string>,
                                 hostname: string -> Option<string>, env: Env, host: string, bytes: seq<byte>)
    requires !MissingParam(url) && hostname(url.value) == Some(host) && env.mkdirOk
    requires !env.statOk || !env.readOk
    requires env.capture == Some(bytes) && env.write == Written
    ensures Handle(files, url, hostname, env)
              == Outcome(PngResponse(bytes), files[Key(host) := Entry(bytes, env.writtenAt)], true)
  {
  }

  /** A miss with a successful capture and write serves exactly the captured
      bytes and overwrites the host's entry with them; no other file changes. */
  lemma MissCapturesAndStores(files: map<string, Entry>, url: Option<string>,
                              hostname: string -> Option<string>, env: Env, host: string, bytes: seq<byte>)
    requires !MissingParam(url) && hostname(url.value) == Some(host) && env.mkdirOk
    requires FreshHit(files, Key(host), env).None?
    requires env.capture == Some(bytes) && env.write == Written
    ensures var o := Handle(files, url, hostname, env);
            && o.resp == PngResponse(bytes) && o.launched
            && Key(host) in o.files && o.files[Key(host)] == Entry(bytes, env.writtenAt)
            && o.files.Keys == files.Keys + {Key(host)}
            && forall k :: k in files && k != Key(host) ==> o.files[k] == files[k]
  {
  }

  /** A failed capture is a 500 even when a stale entry exists (no stale
      fallback), and it leaves the file system as it was. */
  lemma FailedCaptureIsServerError(files: map<string, Entry>, url: Option<string>,
                                   hostname: string -> Option<string>, env: Env, host: string)
    requires !MissingParam(url) && hostname(url.value) == Some(host) && env.mkdirOk
    requires FreshHit(files, Key(host), env).None?
    requires env.capture.None?
    ensures Handle(files, url, hostname, env) == Outcome(Failure, files, true)
  {
  }

  /** A failed write is a 500; only the host's own file may have changed. */
  lemma FailedWriteIsServerError(files: map<string, Entry>, url: Option<string>,
                                 hostname: string -> Option<string>, env: Env, host: string)
    requires !MissingParam(url) && hostname(url.value) == Some(host) && env.mkdirOk
    requires FreshHit(files, Key(host), env).None?
    requires env.capture.Some? && env.write.WriteFailed?
    ensures var o := Handle(files, url, hostname, env);
            && o.resp == Failure && o.launched
            && forall k :: k != Key(host) ==> (k in o.files <==> k in files) && (k in files ==> o.files[k] == files[k])
  {
  }

  /** A failing `mkdir` is a 500 before anything is read or captured. */
  lemma FailedMkdirIsServerError(files: map<string, Entry>, url: Option<string>,
                                 hostname: string -> Option<string>, env: Env)
    requires !MissingParam(url) && hostname(url.value).Some? && !env.mkdirOk
    ensures Handle(files, url, hostname, env) == Outcome(Failure, files, false)
  {
  }

  /** Whatever happens, only the file of the requested host can change. */
  lemma OnlyTheHostsFileChanges(files: map<string, Entry>, url: Option<string>,
                                hostname: string -> Option<string>, env: Env, k: string)
    requires MissingParam(url) || forall host :: hostname(url.value) == Some(host) ==> k != Key(host)
    ensures var o := Handle(files, url, hostname, env);
            (k in o.files <==> k in files) && (k in files ==> o.files[k] == files[k])
  {
  }

  // ---------------------------------------------------------------------
  // The route as the source runs it: step by step over a mutable store

  /** The screenshot directory: file name to contents and mtime. */
  class ScreenshotCache {
    var files: map<string, Entry>

    constructor (initial: map<string, Entry>)
      ensures files == initial
    {
      files := initial;
    }

    /** `stat`, the freshness test, and `readFile`, any failure of which is
        swallowed: the stored bytes when all succeed, None otherwise. */
    method Probe(key: string, env: Env) returns (hit: Option<seq<byte>>)
      ensures hit == FreshHit(files, key, env)
    {
      if !env.statOk || key !in files {
        return None;
      }
      var mtime := files[key].mtime;
      if IsFresh(env.now, mtime) {
        if !env.readOk {
          return None;
        }
        return Some(files[key].bytes);
      }
      return None;
    }

    /** `writeFile`: on success the file holds the bytes with the write time
        as its mtime; on failure it holds whatever reached the disk. */
    method Save(key: string, bytes: seq<byte>, env: Env) returns (ok: bool)
      modifies this
      ensures ok <==> env.write.Written?
      ensures env.write.Written? ==> files == old(files)[key := Entry(bytes, env.writtenAt)]
      ensures env.write.WriteFailed? && env.write.partial.Some? ==> files == old(files)[key := env.write.partial.value]
      ensures env.write.WriteFailed? && env.write.partial.None? ==> files == old(files)
    {
      match env.write {
        case Written =>
          files := files[key := Entry(bytes, env.writtenAt)];
          return true;
        case WriteFailed(partial) =>
          if partial.Some? {
            files := files[key := partial.value];
          }
          return false;
      }
    }

    /** The GET handler. `launched` records whether a browser launch was attempted. */
    method Get(url: Option<string>, hostname: string -> Option<string>, env: Env)
      returns (resp: Response, ghost launched: bool)
      modifies this
      ensures resp == Handle(old(files), url, hostname, env).resp
      ensures files == Handle(old(files), url, hostname, env).files
      ensures launched == Handle(old(files), url, hostname, env).launched
    {
      launched := false;
      if url.None? || url.value == "" {
        return MissingUrl, launched;
      }
      var host := hostname(url.value);
      if host.None? {
        return Failure, launched;
      }
      var key := Key(host.value);
      if !env.mkdirOk {
        return Failure, launched;
      }
      var hit := Probe(key, env);
      if hit.Some? {
        return PngResponse(hit.value), launched;
      }
      launched := true;
      var image := env.capture;
      if image.None? {
        return Failure, launched;
      }
      var ok := Save(key, image.value, env);
      if !ok {
        return Failure, launched;
      }
      return PngResponse(image.value), launched;
    }
  }
}
