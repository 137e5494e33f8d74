/** Successive requests to the screenshot route, each seeing the file system
    the previous one left: what the 24-hour cache promises across calls. */
module Requests {
  import opened Wrappers
  import opened Route

  /** One GET: its `url` parameter and the outcomes of its I/O. */
  datatype Request = Request(url: Option<string>, env: Env)

  /** The responses in order, the final file system, and how many browser
      launches were attempted. */
  datatype Trace = Trace(responses: seq<Response>, files: map<string, Entry>, launches: nat)

  /** The requests handled one after the other from `files`. */
  function Replay(files: map<string, Entry>, hostname: string -> Option<string>,
                  reqs: seq<Request>): (t: Trace)
    ensures |t.responses| == |reqs|
    ensures t.launches <= |reqs|
    ensures t.launches == 0 ==> t.files == files
    decreases |reqs|
  {
    if reqs == [] then Trace([], files, 0)
    else
      var o := Handle(files, reqs[0].url, hostname, reqs[0].env);
      var t := Replay(o.files, hostname, reqs[1..]);
      Trace([o.resp] + t.responses, t.files, t.launches + if o.launched then 1 else 0)
  }

  /** Every request for a host made while its entry is fresh is served the
      stored bytes; no browser is launched and nothing is written. */
  lemma {:induction false} RepeatedHitsWithinDay(files: map<string, Entry>, hostname: string -> Option<string>,
                                                 host: string, reqs: seq<Request>)
    requires Key(host) in files
    requires forall i :: 0 <= i < |reqs| ==> RequestsHostWithin(reqs[i].url, hostname, reqs[i].env, host, files[Key(host)].mtime)
    ensures var t := Replay(files, hostname, reqs);
            && t.files == files && t.launches == 0
            && forall i :: 0 <= i < |reqs| ==> t.responses[i] == PngResponse(files[Key(host)].bytes)
    decreases |reqs|
  {
    if reqs != [] {
      assert RequestsHostWithin(reqs[0].url, hostname, reqs[0].env, host, files[Key(host)].mtime);
      FreshHitServesStoredBytes(files, reqs[0].url, hostname, reqs[0].env, host);
      assert forall i :: 0 <= i < |reqs[1..]| ==> reqs[1..][i] == reqs[i + 1];
      RepeatedHitsWithinDay(files, hostname, host, reqs[1..]);
    }
  }

  /** A first request that misses, captures and writes, followed by requests
      for the same host within a day of the write: exactly one browser is
      launched, every response carries the captured bytes, and the host's
      file holds them with the write time. */
  lemma CaptureThenHits(files: map<string, Entry>, hostname: string -> Option<string>,
                        host: string, bytes: seq<byte>, first: Request, rest: seq<Request>)
    requires !MissingParam(first.url) && hostname(first.url.value) == Some(host) && first.env.mkdirOk
    requires FreshHit(files, Key(host), first.env).None?
    requires first.env.capture == Some(bytes) && first.env.write == Written
    requires forall i :: 0 <= i < |rest| ==> RequestsHostWithin(rest[i].url, hostname, rest[i].env, host, first.env.writtenAt)
    ensures var t := Replay(files, hostname, [first] + rest);
            && t.launches == 1
            && Key(host) in t.files && t.files[Key(host)] == Entry(bytes, first.env.writtenAt)
            && forall i :: 0 <= i < |t.responses| ==> t.responses[i] == PngResponse(bytes)
  {
    var reqs := [first] + rest;
    MissCapturesAndStores(files, first.url, hostname, first.env, host, bytes);
    var after := files[Key(host) := Entry(bytes, first.env.writtenAt)];
    assert Handle(files, first.url, hostname, first.env).files == after;
    RepeatedHitsWithinDay(after, hostname, host, rest);
    assert reqs[0] == first && reqs[1..] == rest;
  }

  /** A write that fails after part of the file reached the disk still gives
      that part a new mtime, so the next request for the host within a day of
      it is served the partial file as a 200 `image/png`. */
  lemma PartialWriteServedAsHit(files: map<string, Entry>, hostname: string -> Option<string>,
                                host: string, bytes: seq<byte>, part: Entry, first: Request, second: Request)
    requires !MissingParam(first.url) && hostname(first.url.value) == Some(host) && first.env.mkdirOk
    requires FreshHit(files, Key(host), first.env).None?
    requires first.env.capture == Some(bytes) && first.env.write == WriteFailed(Some(part))
    requires RequestsHostWithin(second.url, hostname, second.env, host, part.mtime)
    ensures var t := Replay(files, hostname, [first, second]);
            t.responses == [Failure, PngResponse(part.bytes)] && t.launches == 1
  {
  }

  /** On an empty directory the first request for a host launches one browser
      and persists exactly the bytes it returns, under `${host}.png`. */
  lemma FirstRequestOnEmptyCache(hostname: string -> Option<string>, url: string,
                                 host: string, env: Env, bytes: seq<byte>)
    requires url != "" && hostname(url) == Some(host) && env.mkdirOk
    requires env.capture == Some(bytes) && env.write == Written
    ensures Replay(map[], hostname, [Request(Some(url), env)])
              == Trace([PngResponse(bytes)], map[Key(host) := Entry(bytes, env.writtenAt)], 1)
  {
  }
}
