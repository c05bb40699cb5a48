/** The background task that downloads a release's .apk over HTTPS: it
    resolves cross-scheme redirects by hand under a budget, refuses text
    payloads, copies the body chunk by chunk into `<downloadDir>/<hash>.apk`
    while reporting progress, and on success records the file and reports
    completion.

    The network is a `Server` map from URL to response, the file system a
    `Disk` record of what its calls return, and cancellation an oracle from
    chunk index to the value `isCancelled()` has after that chunk is written.
    Everything the download task does to its listener, the file system and the
    preference store is appended, in order, to one trace of `TaskEffect`s. */
module HttpDownloadFileTask {
  import opened JavaBasics
  import opened DistributeTypes

  /** Manual reconnects allowed per download. */
  const MAX_REDIRECTS: nat := 6

  const HTTP_MOVED_PERM: int := 301
  const HTTP_MOVED_TEMP: int := 302
  const HTTP_SEE_OTHER: int := 303

  const NOT_A_FILE: string := "The requested download does not appear to be a file."

  /** Section 6.4.2 to 6.4.4 of RFC 7231: Moved Permanently, Found, See Other. */
  predicate IsRedirect(code: int) {
    code == HTTP_MOVED_PERM || code == HTTP_MOVED_TEMP || code == HTTP_SEE_OTHER
  }

  /** A response body: whether `getInputStream()` succeeds (it throws an
      `IOException` for an error status such as 404), then, as `read`
      delivers it, the byte counts of successive reads, then either end of
      stream (-1) or an `IOException`. */
  datatype Body = Body(opens: bool, chunks: seq<nat>, failsAtEnd: bool)

  /** What one connection observes after the platform's own same-scheme
      redirect following: `getResponseCode()`, the `Location` header parsed
      as a URL (`None` when it is absent or not an absolute URL, which makes
      `new URL(...)` throw), `getContentType()`, `getContentLength()` and
      the body. */
  datatype Response = Response(
    code: int,
    location: Option<Url>,
    contentType: Option<string>,
    contentLength: Int32,
    body: Body)

  /** The network: the response each URL gives; connecting to a URL that is
      not in the map throws an `IOException`. */
  type Server = map<Url, Response>

  /** An `IOException` (caught by `doInBackground`) or the unchecked
      `ClassCastException` (not caught: the download task dies). */
  datatype Failure = IoFailure(cause: IoCause) | ClassCastException

  /** Why an `IOException` was thrown. */
  datatype IoCause =
    | ConnectFailed       // connecting or reading the response code failed
    | MalformedLocation   // `new URL(...)` on a missing or relative Location
    | UnsupportedProtocol // no HTTP connection for the URL's scheme
    | InputNotOpened      // `getInputStream()` failed, e.g. on an error status
    | OutputNotOpened     // `new FileOutputStream(...)` failed
    | ReadFailed          // `read` failed before the end of the body

  /** Whether opening a connection to a URL yields a usable connection. */
  datatype Opening = Opened | Refused(failure: Failure)

  datatype Connection = Connection(url: Url, response: Response, followsRedirects: bool)

  /** The URLs createConnection opened, in order, and what it returned. */
  datatype Resolution = Resolution(visited: seq<Url>, outcome: Result<Connection, Failure>)

  /** `(HttpsURLConnection) url.openConnection()` as the source writes it:
      only an https URL yields an `HttpsURLConnection`; any other scheme fails
      the cast with an unchecked `ClassCastException`. */
  function OpenAsWritten(url: Url): Opening {
    if url.protocol == Https then Opened else Refused(ClassCastException)
  }

  /** Opening as the cross-scheme reconnect needs it: both http and https
      yield an HTTP connection (the TLS socket factory applies to https only);
      any other scheme is reported as an `IOException`. */
  function OpenCorrected(url: Url): Opening {
    if url.protocol == Https || url.protocol == Http then Opened
    else Refused(IoFailure(UnsupportedProtocol))
  }

  /** Which of the two ways of opening a connection createConnection uses. */
  datatype Opener = AsWritten | Corrected

  function Open(opener: Opener, url: Url): Opening {
    match opener
    case AsWritten => OpenAsWritten(url)
    case Corrected => OpenCorrected(url)
  }

  /** `from` answers with a redirect to `to`, on another scheme. */
  predicate CrossSchemeRedirect(server: Server, from: Url, to: Url) {
    && from in server
    && IsRedirect(server[from].code)
    && server[from].location == Some(to)
    && from.protocol != to.protocol
  }

  /** Each URL after the first was reached by a cross-scheme redirect from
      the one before it. */
  predicate RedirectChain(server: Server, urls: seq<Url>) {
    |urls| <= 1 || (CrossSchemeRedirect(server, urls[0], urls[1]) && RedirectChain(server, urls[1..]))
  }

  /** A response createConnection keeps whatever budget remains: no
      redirect, or a redirect that automatic following handles. */
  predicate Settled(url: Url, response: Response) {
    || !IsRedirect(response.code)
    || (response.location.Some? && response.location.value.protocol == url.protocol)
  }

  /** What one call of createConnection decides before any recursion: to
      return (a connection or an exception), or to reconnect elsewhere. */
  datatype Step = Done(outcome: Result<Connection, Failure>) | Reconnect(moved: Url)

  /** One call of createConnection up to its recursive call: open `url`; on a
      301/302/303 with budget left whose `Location` is on another scheme,
      reconnect there; otherwise keep this connection, with automatic
      redirect following on. A `Location` that does not parse throws. */
  function ConnectOnce(opener: Opener, server: Server, url: Url, remainingRedirects: nat): (s: Step)
    ensures s.Reconnect? <==>
      && Open(opener, url) == Opened && remainingRedirects > 0
      && url in server && server[url].location.Some?
      && CrossSchemeRedirect(server, url, server[url].location.value)
    ensures s.Reconnect? ==> s.moved == server[url].location.value
    ensures s.Done? && s.outcome.Success? ==>
      && Open(opener, url) == Opened && url in server
      && s.outcome.value == Connection(url, server[url], true)
      && (Settled(url, server[url]) || remainingRedirects == 0)
    ensures s.Done? && s.outcome.Failure? && s.outcome.error.ClassCastException? ==> Open(opener, url) == Refused(s.outcome.error)
  {
    match Open(opener, url)
    case Refused(failure) => Done(Failure(failure))
    case Opened =>
      if url !in server then Done(Failure(IoFailure(ConnectFailed)))
      else
        var response := server[url];
        if !IsRedirect(response.code) || remainingRedirects == 0 then
          Done(Success(Connection(url, response, true)))
        else
          match response.location
          case None => Done(Failure(IoFailure(MalformedLocation)))
          case Some(moved) =>
            if url.protocol != moved.protocol then Reconnect(moved)
            else Done(Success(Connection(url, response, true)))
  }

  /** createConnection: follow cross-scheme redirects, one budget unit per
      reconnect, until a call keeps its connection or throws. */
  function CreateConnection(opener: Opener, server: Server, url: Url, remainingRedirects: nat): (r: Resolution)
    decreases remainingRedirects
    ensures 1 <= |r.visited| <= remainingRedirects + 1 && r.visited[0] == url
  {
    match ConnectOnce(opener, server, url, remainingRedirects)
    case Done(outcome) => Resolution([url], outcome)
    case Reconnect(moved) =>
      var next := CreateConnection(opener, server, moved, remainingRedirects - 1);
      Resolution([url] + next.visited, next.outcome)
  }

  /** Every URL createConnection opens after the first is the `Location` of
      a cross-scheme redirect from the URL before it. */
  lemma {:induction false} VisitedFollowRedirects(opener: Opener, server: Server, url: Url, remainingRedirects: nat)
    decreases remainingRedirects
    ensures RedirectChain(server, CreateConnection(opener, server, url, remainingRedirects).visited)
  {
    match ConnectOnce(opener, server, url, remainingRedirects)
    case Done(outcome) =>
    case Reconnect(moved) =>
      var next := CreateConnection(opener, server, moved, remainingRedirects - 1);
      VisitedFollowRedirects(opener, server, moved, remainingRedirects - 1);
      assert ([url] + next.visited)[1..] == next.visited;
  }

  /** The connection createConnection returns is the one to the last URL it
      opened, with automatic redirect following on; its response is settled
      unless the whole budget was spent on reconnects. */
  lemma {:induction false} ResolvedConnection(opener: Opener, server: Server, url: Url, remainingRedirects: nat)
    decreases remainingRedirects
    ensures var r := CreateConnection(opener, server, url, remainingRedirects);
      r.outcome.Success? ==>
        && r.outcome.value.url == r.visited[|r.visited| - 1]
        && Open(opener, r.outcome.value.url) == Opened
        && r.outcome.value.url in server && server[r.outcome.value.url] == r.outcome.value.response
        && r.outcome.value.followsRedirects
        && (Settled(r.outcome.value.url, r.outcome.value.response) || |r.visited| == remainingRedirects + 1)
  {
    var r := CreateConnection(opener, server, url, remainingRedirects);
    match ConnectOnce(opener, server, url, remainingRedirects)
    case Done(outcome) =>
      assert r == Resolution([url], outcome);
    case Reconnect(moved) =>
      var next := CreateConnection(opener, server, moved, remainingRedirects - 1);
      ResolvedConnection(opener, server, moved, remainingRedirects - 1);
      assert r == Resolution([url] + next.visited, next.outcome);
      assert r.visited[|r.visited| - 1] == next.visited[|next.visited| - 1];
  }

  /** An unchecked exception escapes createConnection only from opening the
      last URL it reached. */
  lemma {:induction false} CrashFromOpening(opener: Opener, server: Server, url: Url, remainingRedirects: nat)
    decreases remainingRedirects
    ensures var r := CreateConnection(opener, server, url, remainingRedirects);
      r.outcome.Failure? && r.outcome.error.ClassCastException? ==> Open(opener, r.visited[|r.visited| - 1]) == Refused(r.outcome.error)
  {
    var r := CreateConnection(opener, server, url, remainingRedirects);
    match ConnectOnce(opener, server, url, remainingRedirects)
    case Done(outcome) =>
      assert r == Resolution([url], outcome);
    case Reconnect(moved) =>
      var next := CreateConnection(opener, server, moved, remainingRedirects - 1);
      CrashFromOpening(opener, server, moved, remainingRedirects - 1);
      assert r == Resolution([url] + next.visited, next.outcome);
      assert r.visited[|r.visited| - 1] == next.visited[|next.visited| - 1];
  }

  /** A cross-scheme redirect with budget left causes exactly one reconnect,
      to the `Location` URL, with the budget decremented by one. */
  lemma CrossSchemeRedirectReconnects(opener: Opener, server: Server, url: Url, moved: Url, remainingRedirects: nat)
    requires Open(opener, url) == Opened
    requires CrossSchemeRedirect(server, url, moved)
    requires remainingRedirects > 0
    ensures var r := CreateConnection(opener, server, url, remainingRedirects);
            var next := CreateConnection(opener, server, moved, remainingRedirects - 1);
            r.visited == [url] + next.visited && r.outcome == next.outcome
  {
  }

  /** A redirect met with no budget left keeps the current connection. */
  lemma ExhaustedBudgetKeepsConnection(opener: Opener, server: Server, url: Url)
    requires Open(opener, url) == Opened && url in server
    ensures CreateConnection(opener, server, url, 0)
            == Resolution([url], Success(Connection(url, server[url], true)))
  {
  }

  /** A non-redirect or a same-scheme redirect keeps the current connection,
      with automatic following on, and opens nothing else. */
  lemma SettledKeepsConnection(opener: Opener, server: Server, url: Url, remainingRedirects: nat)
    requires Open(opener, url) == Opened && url in server
    requires Settled(url, server[url])
    ensures CreateConnection(opener, server, url, remainingRedirects)
            == Resolution([url], Success(Connection(url, server[url], true)))
  {
  }

  /** As written, the first cross-scheme reconnect (https to http, the case
      the manual handling exists for) dies with a `ClassCastException`. */
  lemma CrossSchemeReconnectCrashesAsWritten(server: Server, url: Url, moved: Url, remainingRedirects: nat)
    requires url.protocol == Https && moved.protocol == Http
    requires CrossSchemeRedirect(server, url, moved)
    requires remainingRedirects > 0
    ensures CreateConnection(AsWritten, server, url, remainingRedirects)
            == Resolution([url, moved], Failure(ClassCastException))
  {
  }

  /** With the corrected opener no URL and no server makes createConnection
      throw an unchecked exception. */
  lemma CorrectedNeverCrashes(server: Server, url: Url, remainingRedirects: nat)
    ensures var r := CreateConnection(Corrected, server, url, remainingRedirects);
            !(r.outcome.Failure? && r.outcome.error.ClassCastException?)
  {
    CrashFromOpening(Corrected, server, url, remainingRedirects);
  }

  /** With the corrected opener an https-to-http redirect reaches the http
      URL and, when that one is settled, returns its connection. */
  lemma CorrectedFollowsCrossSchemeRedirect(server: Server, url: Url, moved: Url, remainingRedirects: nat)
    requires url.protocol == Https && moved.protocol == Http
    requires CrossSchemeRedirect(server, url, moved)
    requires remainingRedirects > 0
    requires moved in server && Settled(moved, server[moved])
    ensures CreateConnection(Corrected, server, url, remainingRedirects)
            == Resolution([url, moved], Success(Connection(moved, server[moved], true)))
  {
    SettledKeepsConnection(Corrected, server, moved, remainingRedirects - 1);
  }

  // ---------------------------------------------------------------------
  // Streaming the body

  /** What the download task does to its listener, the file system and the
      preference store. */
  datatype TaskEffect =
    | Progress(progress: DownloadProgress)      // listener.onProgress
    | Error(message: string)                    // listener.onError
    | Complete(uri: string)                     // listener.onComplete
    | Mkdirs(dir: string)
    | Delete(path: string)
    | Create(path: string)                      // new FileOutputStream(path)
    | Write(path: string, count: nat)
    | PutString(key: PreferenceKey, value: string)

  function Sum(s: seq<nat>): nat {
    if s == [] then 0 else Sum(s[..|s| - 1]) + s[|s| - 1]
  }

  /** The first index in [from, to) after which cancellation is seen. */
  function FirstCancelled(isCancelled: nat -> bool, from: nat, to: nat): (r: Option<nat>)
    requires from <= to
    decreases (to as int) - (from as int)
    ensures r.Some? ==> from <= r.value < to && isCancelled(r.value)
    ensures r.Some? ==> forall i :: from <= i < r.value ==> !isCancelled(i)
    ensures r.None? ==> forall i :: from <= i < to ==> !isCancelled(i)
  {
    if from == to then None
    else if isCancelled(from) then Some(from)
    else FirstCancelled(isCancelled, from + 1, to)
  }

  /** How many chunks the copy loop reads and writes: up to and including
      the first one after which cancellation is seen, else all of them. */
  function ChunksCopied(chunks: seq<nat>, isCancelled: nat -> bool): (n: nat)
    ensures n <= |chunks|
  {
    match FirstCancelled(isCancelled, 0, |chunks|)
    case Some(i) => i + 1
    case None => |chunks|
  }

  /** The effects of copying `copied`, in the loop's order: the running total
      is reported (when there is a listener) before each chunk is written. */
  function ChunkEffects(copied: seq<nat>, lengthOfFile: int, hasListener: bool, apk: string): seq<TaskEffect> {
    if copied == [] then []
    else
      ChunkEffects(copied[..|copied| - 1], lengthOfFile, hasListener, apk)
      + (if hasListener then [Progress(DownloadProgress(Sum(copied), lengthOfFile))] else [])
      + [Write(apk, copied[|copied| - 1])]
  }

  datatype Streamed = Streamed(result: Result<int, Failure>, effects: seq<TaskEffect>)

  /** downloadReleaseFile, specified: open the input stream, then the
      output file (either may throw an `IOException`), copy chunks until
      end of stream or cancellation, return the byte total; a read failure
      at the end of an uncancelled stream is an `IOException`. */
  function Stream(body: Body, lengthOfFile: int, hasListener: bool, outputOpens: bool,
                  isCancelled: nat -> bool, apk: string): Streamed
  {
    if !body.opens then Streamed(Failure(IoFailure(InputNotOpened)), [])
    else if !outputOpens then Streamed(Failure(IoFailure(OutputNotOpened)), [])
    else
      var copied := body.chunks[..ChunksCopied(body.chunks, isCancelled)];
      var stopped := FirstCancelled(isCancelled, 0, |body.chunks|).Some?;
      Streamed(
        if !stopped && body.failsAtEnd then Failure(IoFailure(ReadFailed)) else Success(Sum(copied)),
        [Create(apk)] + ChunkEffects(copied, lengthOfFile, hasListener, apk))
  }

  /** Copying one more chunk adds it to the total, then reports and writes it. */
  lemma CopyStep(chunks: seq<nat>, i: nat, lengthOfFile: int, hasListener: bool, apk: string)
    requires i < |chunks|
    ensures Sum(chunks[..i + 1]) == Sum(chunks[..i]) + chunks[i]
    ensures [Create(apk)] + ChunkEffects(chunks[..i + 1], lengthOfFile, hasListener, apk)
            == [Create(apk)] + ChunkEffects(chunks[..i], lengthOfFile, hasListener, apk)
               + (if hasListener then [Progress(DownloadProgress(Sum(chunks[..i + 1]), lengthOfFile))] else [])
               + [Write(apk, chunks[i])]
  {
    assert chunks[..i + 1][..i] == chunks[..i];
  }

  /** The stream stopped by cancellation after chunk `i`. */
  lemma StreamCancelled(body: Body, lengthOfFile: int, hasListener: bool, isCancelled: nat -> bool, apk: string, i: nat)
    requires body.opens
    requires i < |body.chunks| && isCancelled(i)
    requires forall j :: 0 <= j < i ==> !isCancelled(j)
    ensures Stream(body, lengthOfFile, hasListener, true, isCancelled, apk)
            == Streamed(Success(Sum(body.chunks[..i + 1])),
                        [Create(apk)] + ChunkEffects(body.chunks[..i + 1], lengthOfFile, hasListener, apk))
  {
    var r := FirstCancelled(isCancelled, 0, |body.chunks|);
    assert r == Some(i);
  }

  /** The stream read to its end without cancellation. */
  lemma StreamExhausted(body: Body, lengthOfFile: int, hasListener: bool, isCancelled: nat -> bool, apk: string)
    requires body.opens
    requires forall j :: 0 <= j < |body.chunks| ==> !isCancelled(j)
    ensures Stream(body, lengthOfFile, hasListener, true, isCancelled, apk)
            == Streamed(if body.failsAtEnd then Failure(IoFailure(ReadFailed)) else Success(Sum(body.chunks)),
                        [Create(apk)] + ChunkEffects(body.chunks, lengthOfFile, hasListener, apk))
  {
    var r := FirstCancelled(isCancelled, 0, |body.chunks|);
    assert r.None?;
    assert body.chunks[..|body.chunks|] == body.chunks;
  }

  /** downloadReleaseFile: the copy loop with its running total. */
  method DownloadReleaseFile(response: Response, hasListener: bool, outputOpens: bool,
                             isCancelled: nat -> bool, apk: string)
    returns (result: Result<int, Failure>, effects: seq<TaskEffect>)
    ensures Streamed(result, effects)
            == Stream(response.body, response.contentLength, hasListener, outputOpens, isCancelled, apk)
  {
    var lengthOfFile := response.contentLength;
    if !response.body.opens {
      return Failure(IoFailure(InputNotOpened)), [];
    }
    if !outputOpens {
      return Failure(IoFailure(OutputNotOpened)), [];
    }
    var chunks := response.body.chunks;
    effects := [Create(apk)];
    var totalBytesDownloaded := 0;
    var i := 0;
    while i < |chunks|
      invariant 0 <= i <= |chunks|
      invariant forall j :: 0 <= j < i ==> !isCancelled(j)
      invariant totalBytesDownloaded == Sum(chunks[..i])
      invariant effects == [Create(apk)] + ChunkEffects(chunks[..i], lengthOfFile, hasListener, apk)
    {
      var count := chunks[i];
      totalBytesDownloaded := totalBytesDownloaded + count;
      CopyStep(chunks, i, lengthOfFile, hasListener, apk);
      if hasListener {
        effects := effects + [Progress(DownloadProgress(totalBytesDownloaded, lengthOfFile))];
      }
      effects := effects + [Write(apk, count)];
      if isCancelled(i) {
        StreamCancelled(response.body, lengthOfFile, hasListener, isCancelled, apk, i);
        return Success(totalBytesDownloaded), effects;
      }
      i := i + 1;
    }
    StreamExhausted(response.body, lengthOfFile, hasListener, isCancelled, apk);
    assert chunks[..i] == chunks;
    if response.body.failsAtEnd {
      return Failure(IoFailure(ReadFailed)), effects;
    }
    return Success(totalBytesDownloaded), effects;
  }

  /** The byte counts written, in order. */
  function Written(effects: seq<TaskEffect>): seq<nat> {
    if effects == [] then []
    else
      Written(effects[..|effects| - 1])
      + (if effects[|effects| - 1].Write? then [effects[|effects| - 1].count] else [])
  }

  /** The progress events reported, in order. */
  function Progresses(effects: seq<TaskEffect>): seq<DownloadProgress> {
    if effects == [] then []
    else
      Progresses(effects[..|effects| - 1])
      + (if effects[|effects| - 1].Progress? then [effects[|effects| - 1].progress] else [])
  }

  /** The reference meaning of progress reporting: after each chunk the
      listener is told the total so far and the declared length. */
  function ProgressEvents(copied: seq<nat>, lengthOfFile: int): (ps: seq<DownloadProgress>)
    ensures |ps| == |copied|
  {
    if copied == [] then []
    else ProgressEvents(copied[..|copied| - 1], lengthOfFile) + [DownloadProgress(Sum(copied), lengthOfFile)]
  }

  /** The k-th progress event carries the total of the first k + 1 chunks. */
  lemma {:induction false} ProgressEventAt(copied: seq<nat>, lengthOfFile: int, k: nat)
    requires k < |copied|
    ensures ProgressEvents(copied, lengthOfFile)[k] == DownloadProgress(Sum(copied[..k + 1]), lengthOfFile)
  {
    var init := copied[..|copied| - 1];
    if k < |init| {
      ProgressEventAt(init, lengthOfFile, k);
      assert init[..k + 1] == copied[..k + 1];
    } else {
      assert copied[..k + 1] == copied;
    }
  }

  lemma WrittenSnoc(a: seq<TaskEffect>, e: TaskEffect)
    ensures Written(a + [e]) == Written(a) + (if e.Write? then [e.count] else [])
  {
    assert (a + [e])[..|a|] == a;
  }

  lemma ProgressesSnoc(a: seq<TaskEffect>, e: TaskEffect)
    ensures Progresses(a + [e]) == Progresses(a) + (if e.Progress? then [e.progress] else [])
  {
    assert (a + [e])[..|a|] == a;
  }

  lemma {:induction false} WrittenAppend(a: seq<TaskEffect>, b: seq<TaskEffect>)
    ensures Written(a + b) == Written(a) + Written(b)
    decreases |b|
  {
    if b == [] {
      assert a + b == a;
    } else {
      var b', e := b[..|b| - 1], b[|b| - 1];
      assert b == b' + [e];
      assert a + b == (a + b') + [e];
      WrittenAppend(a, b');
      WrittenSnoc(a + b', e);
      WrittenSnoc(b', e);
    }
  }

  lemma {:induction false} ProgressesAppend(a: seq<TaskEffect>, b: seq<TaskEffect>)
    ensures Progresses(a + b) == Progresses(a) + Progresses(b)
    decreases |b|
  {
    if b == [] {
      assert a + b == a;
    } else {
      var b', e := b[..|b| - 1], b[|b| - 1];
      assert b == b' + [e];
      assert a + b == (a + b') + [e];
      ProgressesAppend(a, b');
      ProgressesSnoc(a + b', e);
      ProgressesSnoc(b', e);
    }
  }

  /** One copied chunk adds exactly its count to the writes. */
  lemma WrittenChunkStep(before: seq<TaskEffect>, report: seq<TaskEffect>, apk: string, count: nat)
    requires report == [] || (|report| == 1 && report[0].Progress?)
    ensures Written(before + report + [Write(apk, count)]) == Written(before) + [count]
  {
    WrittenSnoc(before + report, Write(apk, count));
    if report == [] {
      assert before + report == before;
    } else {
      assert report == [report[0]];
      WrittenSnoc(before, report[0]);
    }
  }

  /** The chunk effects write exactly the copied chunks. */
  lemma {:induction false} ChunkEffectsWritten(copied: seq<nat>, lengthOfFile: int, hasListener: bool, apk: string)
    ensures Written(ChunkEffects(copied, lengthOfFile, hasListener, apk)) == copied
  {
    if copied != [] {
      var init, last := copied[..|copied| - 1], copied[|copied| - 1];
      var before := ChunkEffects(init, lengthOfFile, hasListener, apk);
      var report := if hasListener then [Progress(DownloadProgress(Sum(copied), lengthOfFile))] else [];
      assert ChunkEffects(copied, lengthOfFile, hasListener, apk) == before + report + [Write(apk, last)];
      WrittenChunkStep(before, report, apk, last);
      ChunkEffectsWritten(init, lengthOfFile, hasListener, apk);
      assert init + [last] == copied;
    }
  }

  /** Every chunk effect is a progress report or a write to the .apk. */
  lemma {:induction false} ChunkEffectsTargetApk(copied: seq<nat>, lengthOfFile: int, hasListener: bool, apk: string)
    ensures forall e :: e in ChunkEffects(copied, lengthOfFile, hasListener, apk) ==> (e.Write? && e.path == apk) || e.Progress?
  {
    if copied != [] {
      ChunkEffectsTargetApk(copied[..|copied| - 1], lengthOfFile, hasListener, apk);
    }
  }

  /** Effects that neither write nor report progress contribute to neither
      projection. */
  lemma {:induction false} NoCopyEffects(effects: seq<TaskEffect>)
    requires forall e :: e in effects ==> !e.Write? && !e.Progress?
    ensures Written(effects) == [] && Progresses(effects) == []
  {
    if effects != [] {
      NoCopyEffects(effects[..|effects| - 1]);
    }
  }

  /** With a listener, the chunk effects report exactly the running totals of
      the reference definition; without one, nothing. */
  lemma {:induction false} ChunkEffectsProgress(copied: seq<nat>, lengthOfFile: int, hasListener: bool, apk: string)
    ensures Progresses(ChunkEffects(copied, lengthOfFile, hasListener, apk))
            == if hasListener then ProgressEvents(copied, lengthOfFile) else []
  {
    if copied != [] {
      var init, last := copied[..|copied| - 1], copied[|copied| - 1];
      var before := ChunkEffects(init, lengthOfFile, hasListener, apk);
      var write := Write(apk, last);
      ChunkEffectsProgress(init, lengthOfFile, hasListener, apk);
      if hasListener {
        var report := Progress(DownloadProgress(Sum(copied), lengthOfFile));
        assert ChunkEffects(copied, lengthOfFile, hasListener, apk) == (before + [report]) + [write];
        ProgressesSnoc(before, report);
        ProgressesSnoc(before + [report], write);
      } else {
        assert ChunkEffects(copied, lengthOfFile, hasListener, apk) == before + [write];
        ProgressesSnoc(before, write);
      }
    }
  }

  lemma {:induction false} SumPrefixMonotone(s: seq<nat>, i: nat, j: nat)
    requires i <= j <= |s|
    ensures Sum(s[..i]) <= Sum(s[..j])
    decreases j - i
  {
    if i < j {
      SumPrefixMonotone(s, i, j - 1);
      assert s[..j][..j - 1] == s[..j - 1];
    }
  }

  /** Progress values never decrease, all carry the same declared length,
      and the last one is the total copied. */
  lemma ProgressEventsNonDecreasing(copied: seq<nat>, lengthOfFile: int)
    ensures var ps := ProgressEvents(copied, lengthOfFile);
      && (forall i, j :: 0 <= i <= j < |ps| ==> ps[i].currentSize <= ps[j].currentSize)
      && (forall i :: 0 <= i < |ps| ==> ps[i].totalSize == lengthOfFile)
      && (|ps| > 0 ==> ps[|ps| - 1].currentSize == Sum(copied))
  {
    var ps := ProgressEvents(copied, lengthOfFile);
    forall i, j | 0 <= i <= j < |ps|
      ensures ps[i].currentSize <= ps[j].currentSize
    {
      ProgressEventAt(copied, lengthOfFile, i);
      ProgressEventAt(copied, lengthOfFile, j);
      SumPrefixMonotone(copied, i + 1, j + 1);
    }
    forall i | 0 <= i < |ps|
      ensures ps[i].totalSize == lengthOfFile
    {
      ProgressEventAt(copied, lengthOfFile, i);
    }
  }

  // ---------------------------------------------------------------------
  // The download task

  /** What the file-system calls return: `mkdirs()`, then `exists()` of the
      directory, `exists()` of the .apk, and whether `new FileOutputStream`
      succeeds. */
  datatype Disk = Disk(mkdirsCreated: bool, dirExists: bool, apkExists: bool, outputOpens: bool)

  /** resolveApkFilePath: `<downloadDir>/<releaseHash>.apk`. */
  function ResolveApkFilePath(downloadFilesPath: string, releaseHash: string): (path: string)
    ensures EndsWith(path, ".apk")
    ensures |path| == |downloadFilesPath| + |releaseHash| + 5
    ensures path[..|downloadFilesPath| + 1] == downloadFilesPath + "/"
    ensures path[|downloadFilesPath| + 1..|path| - 4] == releaseHash
  {
    downloadFilesPath + "/" + releaseHash + ".apk"
  }

  /** Distinct releases of one download directory get distinct files. */
  lemma ApkFilePathInjective(downloadFilesPath: string, hash1: string, hash2: string)
    requires ResolveApkFilePath(downloadFilesPath, hash1) == ResolveApkFilePath(downloadFilesPath, hash2)
    ensures hash1 == hash2
  {
  }

  datatype Background = Background(result: int, effects: seq<TaskEffect>)

  /** doInBackground, specified. An `IOException` anywhere yields 0 and no
      listener call; a text payload yields 0 and `onError`. */
  function BackgroundOutcome(url: Url, hasListener: bool, downloadFilesPath: string, apk: string,
                             server: Server, disk: Disk, isCancelled: nat -> bool): Background
  {
    match CreateConnection(Corrected, server, url, MAX_REDIRECTS).outcome
    case Failure(_) => Background(0, [])
    case Success(connection) => Received(connection.response, hasListener, downloadFilesPath, apk, disk, isCancelled)
  }

  /** `contentType != null && contentType.contains("text")`. */
  predicate IsTextPayload(contentType: Option<string>): (r: bool)
    ensures r <==> contentType.Some? && exists before, after :: contentType.value == before + "text" + after
  {
    if contentType.Some? then ContainsSplits(contentType.value, "text"); Contains(contentType.value, "text") else false
  }

  /** doInBackground from the resolved connection on. */
  function Received(response: Response, hasListener: bool, downloadFilesPath: string, apk: string,
                    disk: Disk, isCancelled: nat -> bool): Background
  {
    if IsTextPayload(response.contentType) then
      Background(0, if hasListener then [Error(NOT_A_FILE)] else [])
    else if !disk.mkdirsCreated && !disk.dirExists then
      Background(0, [Mkdirs(downloadFilesPath)])
    else
      var streamed := Stream(response.body, response.contentLength, hasListener, disk.outputOpens, isCancelled, apk);
      Background(
        if streamed.result.Success? then streamed.result.value else 0,
        PrepareFile(downloadFilesPath, apk, disk) + streamed.effects)
  }

  /** The directory is made and a stale .apk deleted before the copy. */
  function PrepareFile(downloadFilesPath: string, apk: string, disk: Disk): (effects: seq<TaskEffect>)
    ensures |effects| == if disk.apkExists then 2 else 1
    ensures effects[0] == Mkdirs(downloadFilesPath)
    ensures disk.apkExists ==> effects[1] == Delete(apk)
  {
    [Mkdirs(downloadFilesPath)] + (if disk.apkExists then [Delete(apk)] else [])
  }

  /** onPostExecute, specified: a positive result with a listener records the
      file, then reports `file://<path>`. */
  function PostExecuteEffects(result: int, hasListener: bool, apk: string): seq<TaskEffect> {
    if result > 0 && hasListener then [PutString(DownloadedFile, apk), Complete("file://" + apk)] else []
  }

  /** A download opens at most MAX_REDIRECTS + 1 connections, each after the
      first reached through a cross-scheme redirect of the one before. */
  lemma DownloadConnectsAtMostSevenTimes(server: Server, url: Url)
    ensures var r := CreateConnection(Corrected, server, url, MAX_REDIRECTS);
            1 <= |r.visited| <= 7 && RedirectChain(server, r.visited)
  {
    VisitedFollowRedirects(Corrected, server, url, MAX_REDIRECTS);
  }

  /** A text payload makes the download task call onError with the fixed message and
      return 0 without touching the file system. */
  lemma TextPayloadRejected(url: Url, hasListener: bool, downloadFilesPath: string, apk: string,
                            server: Server, disk: Disk, isCancelled: nat -> bool, connection: Connection)
    requires CreateConnection(Corrected, server, url, MAX_REDIRECTS).outcome == Success(connection)
    requires IsTextPayload(connection.response.contentType)
    ensures BackgroundOutcome(url, hasListener, downloadFilesPath, apk, server, disk, isCancelled)
            == Background(0, if hasListener then [Error(NOT_A_FILE)] else [])
  {
  }

  /** When the body is copied: the directory is made first, a stale .apk is
      deleted before the file is created, every write goes to the .apk, the
      chunks written are those the loop consumed, the result (when not an
      `IOException`) is their sum, and the progress events are the running
      totals with the declared length. */
  lemma {:induction false} CopiedDownload(url: Url, hasListener: bool, downloadFilesPath: string, apk: string,
                                          server: Server, disk: Disk, isCancelled: nat -> bool, connection: Connection)
    requires CreateConnection(Corrected, server, url, MAX_REDIRECTS).outcome == Success(connection)
    requires !IsTextPayload(connection.response.contentType)
    requires disk.mkdirsCreated || disk.dirExists
    requires connection.response.body.opens && disk.outputOpens
    ensures var b := BackgroundOutcome(url, hasListener, downloadFilesPath, apk, server, disk, isCancelled);
            var chunks := connection.response.body.chunks;
            var copied := chunks[..ChunksCopied(chunks, isCancelled)];
            var d := if disk.apkExists then 1 else 0;
      && b.effects[0] == Mkdirs(downloadFilesPath)
      && (disk.apkExists ==> b.effects[1] == Delete(apk))
      && b.effects[1 + d] == Create(apk)
      && (forall k :: 2 + d <= k < |b.effects| ==> (b.effects[k].Write? && b.effects[k].path == apk) || b.effects[k].Progress?)
      && Written(b.effects) == copied
      && (b.result == 0 || b.result == Sum(copied))
      && Progresses(b.effects) == if hasListener then ProgressEvents(copied, connection.response.contentLength) else []
  {
    var response := connection.response;
    var chunks := response.body.chunks;
    var copied := chunks[..ChunksCopied(chunks, isCancelled)];
    var prepared := PrepareFile(downloadFilesPath, apk, disk);
    var prefix := prepared + [Create(apk)];
    var b := BackgroundOutcome(url, hasListener, downloadFilesPath, apk, server, disk, isCancelled);
    assert b == Received(response, hasListener, downloadFilesPath, apk, disk, isCancelled);
    ReceivedCopy(response, hasListener, downloadFilesPath, apk, disk, isCancelled);
    var chunkEffects := ChunkEffects(copied, response.contentLength, hasListener, apk);
    assert b.effects == prefix + chunkEffects;
    assert forall k :: 0 <= k < |prefix| ==> b.effects[k] == prefix[k];
    assert forall e :: e in prefix ==> !e.Write? && !e.Progress? by {
      forall e | e in prefix
        ensures !e.Write? && !e.Progress?
      {
        var k :| 0 <= k < |prefix| && prefix[k] == e;
        assert k == 0 || k == |prefix| - 1 || (disk.apkExists && k == 1);
      }
    }
    CopyEffectsShape(prefix, copied, response.contentLength, hasListener, apk);
  }

  /** A binary payload whose directory and output file are available is copied
      after the directory is made and any stale file deleted. */
  lemma ReceivedCopy(response: Response, hasListener: bool, downloadFilesPath: string, apk: string,
                     disk: Disk, isCancelled: nat -> bool)
    requires !IsTextPayload(response.contentType)
    requires disk.mkdirsCreated || disk.dirExists
    requires response.body.opens && disk.outputOpens
    ensures var b := Received(response, hasListener, downloadFilesPath, apk, disk, isCancelled);
            var copied := response.body.chunks[..ChunksCopied(response.body.chunks, isCancelled)];
      && b.effects == PrepareFile(downloadFilesPath, apk, disk) + [Create(apk)]
                      + ChunkEffects(copied, response.contentLength, hasListener, apk)
      && (b.result == 0 || b.result == Sum(copied))
  {
  }

  /** Chunk effects after a prefix that neither writes nor reports: the
      projections see exactly the chunk effects, and every later effect is a
      write to the .apk or a report. */
  lemma CopyEffectsShape(prefix: seq<TaskEffect>, copied: seq<nat>, lengthOfFile: int, hasListener: bool, apk: string)
    requires forall e :: e in prefix ==> !e.Write? && !e.Progress?
    ensures var es := prefix + ChunkEffects(copied, lengthOfFile, hasListener, apk);
      && (forall k :: |prefix| <= k < |es| ==> (es[k].Write? && es[k].path == apk) || es[k].Progress?)
      && Written(es) == copied
      && Progresses(es) == if hasListener then ProgressEvents(copied, lengthOfFile) else []
  {
    var chunkEffects := ChunkEffects(copied, lengthOfFile, hasListener, apk);
    var es := prefix + chunkEffects;
    ChunkEffectsWritten(copied, lengthOfFile, hasListener, apk);
    ChunkEffectsTargetApk(copied, lengthOfFile, hasListener, apk);
    ChunkEffectsProgress(copied, lengthOfFile, hasListener, apk);
    WrittenAppend(prefix, chunkEffects);
    ProgressesAppend(prefix, chunkEffects);
    NoCopyEffects(prefix);
    forall k | |prefix| <= k < |es|
      ensures (es[k].Write? && es[k].path == apk) || es[k].Progress?
    {
      assert es[k] == chunkEffects[k - |prefix|];
      assert es[k] in chunkEffects;
    }
  }

  /** An `IOException` before the copy (connection, directory, input
      stream, output file) yields 0, so onPostExecute reports no completion. */
  lemma IoFailureYieldsNoCompletion(url: Url, hasListener: bool, downloadFilesPath: string, apk: string,
                                    server: Server, disk: Disk, isCancelled: nat -> bool)
    requires var r := CreateConnection(Corrected, server, url, MAX_REDIRECTS);
      || r.outcome.Failure?
      || (!disk.mkdirsCreated && !disk.dirExists)
      || (r.outcome.Success? && !r.outcome.value.response.body.opens)
      || !disk.outputOpens
    ensures var b := BackgroundOutcome(url, hasListener, downloadFilesPath, apk, server, disk, isCancelled);
      b.result == 0 && PostExecuteEffects(b.result, hasListener, apk) == []
  {
  }

  /** When the response body cannot be read (an error status such as 404
      makes `getInputStream()` throw), the directory is prepared and a stale
      .apk deleted, but no file is created: the result is 0. */
  lemma InputFailureCreatesNoFile(url: Url, hasListener: bool, downloadFilesPath: string, apk: string,
                                  server: Server, disk: Disk, isCancelled: nat -> bool, connection: Connection)
    requires CreateConnection(Corrected, server, url, MAX_REDIRECTS).outcome == Success(connection)
    requires !IsTextPayload(connection.response.contentType)
    requires disk.mkdirsCreated || disk.dirExists
    requires !connection.response.body.opens
    ensures BackgroundOutcome(url, hasListener, downloadFilesPath, apk, server, disk, isCancelled)
            == Background(0, PrepareFile(downloadFilesPath, apk, disk))
    ensures Create(apk) !in BackgroundOutcome(url, hasListener, downloadFilesPath, apk, server, disk, isCancelled).effects
  {
    assert PrepareFile(downloadFilesPath, apk, disk) + [] == PrepareFile(downloadFilesPath, apk, disk);
  }

  class HttpDownloadFileTask {
    const releaseDetails: ReleaseDetails
    const hasListener: bool
    const downloadFilesPath: string
    const apkFilePath: string

    /** Everything done to the listener, the file system and the preference
        store, in order. */
    var trace: seq<TaskEffect>

    constructor (releaseDetails: ReleaseDetails, hasListener: bool, downloadFilesPath: string)
      ensures this.releaseDetails == releaseDetails && this.hasListener == hasListener
      ensures this.downloadFilesPath == downloadFilesPath
      ensures apkFilePath == ResolveApkFilePath(downloadFilesPath, releaseDetails.releaseHash)
      ensures trace == []
    {
      this.releaseDetails := releaseDetails;
      this.hasListener := hasListener;
      this.downloadFilesPath := downloadFilesPath;
      apkFilePath := ResolveApkFilePath(downloadFilesPath, releaseDetails.releaseHash);
      trace := [];
    }

    /** doInBackground: resolve the connection, refuse text, prepare the
        directory and the file, copy the body. */
    method DoInBackground(server: Server, disk: Disk, isCancelled: nat -> bool) returns (result: int)
      modifies this
      ensures var b := BackgroundOutcome(releaseDetails.downloadUrl, hasListener, downloadFilesPath,
                                         apkFilePath, server, disk, isCancelled);
              result == b.result && trace == old(trace) + b.effects
    {
      var resolution := CreateConnection(Corrected, server, releaseDetails.downloadUrl, MAX_REDIRECTS);
      if resolution.outcome.Failure? {
        return 0;
      }
      var response := resolution.outcome.value.response;
      if IsTextPayload(response.contentType) {
        if hasListener {
          trace := trace + [Error(NOT_A_FILE)];
        }
        return 0;
      }
      var prepared := [Mkdirs(downloadFilesPath)];
      if !disk.mkdirsCreated && !disk.dirExists {
        trace := trace + prepared;
        return 0;
      }
      if disk.apkExists {
        prepared := prepared + [Delete(apkFilePath)];
      }
      var copied, effects := DownloadReleaseFile(response, hasListener, disk.outputOpens, isCancelled, apkFilePath);
      trace := trace + (prepared + effects);
      result := if copied.Success? then copied.value else 0;
    }

    /** onPostExecute. */
    method OnPostExecute(result: int)
      modifies this
      ensures trace == old(trace) + PostExecuteEffects(result, hasListener, apkFilePath)
    {
      if result > 0 && hasListener {
        trace := trace + [PutString(DownloadedFile, apkFilePath)];
        trace := trace + [Complete("file://" + apkFilePath)];
      }
    }
  }
}
