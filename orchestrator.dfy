/**
 * `generateTTS`, the pipeline behind both routes, and the two route handlers:
 * cache lookup, form, submission with retries, classification, polling,
 * download, format conversion, cache store, and the reply or error status.
 */
module Orchestrator {
  import opened Wrappers
  import opened Config
  import opened Request
  import opened FormData
  import opened Errors
  import opened Upstream
  import opened Poller
  import opened Transcode
  import opened Cache
  import opened Validation

  /** The download of a file link (possibly undefined): the bytes, or None when the GET fails. */
  type Downloader = Option<string> -> Option<Audio>

  /** Everything the proxy talks to: the vendor's two endpoints, the file host and the conversion engine. */
  datatype Backend = Backend(submit: Submitter, query: StatusSource, download: Downloader, convert: Converter)

  /** The settings the pipeline and the routes read. */
  datatype ServiceConfig = ServiceConfig(
    retryCount: nat, cacheEnabled: bool, ttlSeconds: nat, maxSize: int, vendor: VendorSettings,
    authEnabled: bool, apiKey: string)

  /** The configuration with every numeric and vendor setting at its default, from the three flag variables. */
  function Configured(cacheEnv: Option<string>, authEnv: Option<string>, apiKeyEnv: Option<string>): (c: ServiceConfig)
    ensures c.cacheEnabled <==> cacheEnv == Some("true")
    ensures c.authEnabled <==> authEnv == Some("true")
    ensures c.retryCount == 2 && c.ttlSeconds == 3600 && c.maxSize == 1000
  {
    ServiceConfig(DefaultRetryCount, FlagEnabled(cacheEnv), DefaultCacheTtlSeconds, DefaultCacheMaxSize,
                  DefaultVendor, FlagEnabled(authEnv), if apiKeyEnv.Some? then apiKeyEnv.value else "")
  }

  /** What one request made the proxy do upstream. */
  datatype Trace = Trace(
    submitAttempts: nat, backoff: seq<nat>, statusQueries: nat, pollSleeps: seq<nat>,
    downloaded: bool, conversions: seq<Target>)

  const NoCalls := Trace(0, [], 0, [], false, [])

  /** The value `generateTTS` resolves with. */
  datatype Synthesis = Synthesis(audio: Audio, format: string, isCached: bool)

  datatype Run = Run(result: Result<Synthesis, Error>, trace: Trace)

  /** A run of the pipeline and the cache it leaves behind. */
  datatype Served = Served(run: Run, store: Store)

  /** The part of a miss after the audio URL is known: download, then the format checks. */
  function Deliver(req: SpeechRequest, submission: SubmitResponse, link: Option<string>, b: Backend, t: Trace): Run {
    match b.download(link)
    case None => Run(Failure(Plain(DownloadFailed)), t.(downloaded := true))
    case Some(bytes) =>
      var (audio, conversions) := Transcoded(bytes, req.format, submission, b.convert);
      Run(Success(Synthesis(audio, req.format, false)), t.(downloaded := true, conversions := conversions))
  }

  /** A cache miss: everything between the lookup and the store. */
  function Fulfil(cfg: ServiceConfig, req: SpeechRequest, b: Backend): Run {
    var sub := Submit(cfg.retryCount, b.submit, Payload(req, cfg.vendor));
    var t := NoCalls.(submitAttempts := sub.attempts, backoff := sub.delays);
    if sub.result.Failure? then Run(Failure(Rethrown(SubmitFailed, sub.result.error)), t)
    else
      var submission := sub.result.value;
      match Classify(submission)
      case Rejected(kind) => Run(Failure(Plain(kind)), t)
      case Immediate(link) => Deliver(req, submission, link, b, t)
      case AwaitTask(taskId) =>
        var p := Poll(b.query, taskId);
        var t' := t.(statusQueries := p.queries, pollSleeps := p.sleeps);
        if p.result.Failure? then Run(Failure(p.result.error), t')
        else Deliver(req, submission, p.result.value, b, t')
  }

  /** `generateTTS`: the lookup at `lookupAt`, and on a successful miss the store at `storeAt`. */
  function Generate(store: Store, cfg: ServiceConfig, req: SpeechRequest, b: Backend, lookupAt: int, storeAt: int)
    : Served
  {
    if !cfg.cacheEnabled then Served(Fulfil(cfg, req, b), store)
    else
      var key := CacheKey(req);
      var (hit, afterLookup) := store.Get(key, lookupAt);
      if hit.Some? then Served(Run(Success(Synthesis(hit.value, req.format, true)), NoCalls), afterLookup)
      else
        var run := Fulfil(cfg, req, b);
        if run.result.Failure? then Served(run, afterLookup)
        else Served(run, afterLookup.Add(key, run.result.value.audio, storeAt, cfg.ttlSeconds, cfg.maxSize))
  }

  /** `generateTTS` written as the source runs it, on the shared cache. */
  method GenerateTts(cache: MemoryCache, cfg: ServiceConfig, req: SpeechRequest, b: Backend,
                     lookupAt: int, storeAt: int) returns (run: Run)
    requires cache.Valid() && cache.ttlSeconds == cfg.ttlSeconds && cache.maxSize == cfg.maxSize
    modifies cache
    ensures cache.Valid()
    ensures Served(run, cache.State()) == Generate(old(cache.State()), cfg, req, b, lookupAt, storeAt)
  {
    if cfg.cacheEnabled {
      var cached := cache.GetFromCache(CacheKey(req), lookupAt);
      if cached.Some? {
        return Run(Success(Synthesis(cached.value, req.format, true)), NoCalls);
      }
    }
    run := CallVendor(cfg, req, b);
    if cfg.cacheEnabled && run.result.Success? {
      var _ := cache.AddToCache(CacheKey(req), run.result.value.audio, storeAt);
    }
  }

  /** The cache-miss part of `generateTTS`: build the form, submit with retries, classify, poll, then deliver. */
  method CallVendor(cfg: ServiceConfig, req: SpeechRequest, b: Backend) returns (run: Run)
    ensures run == Fulfil(cfg, req, b)
  {
    var form := BuildForm(req, cfg.vendor);
    var attempts, delays, response := SubmitWithRetry(cfg.retryCount, b.submit, form);
    var trace := NoCalls.(submitAttempts := attempts, backoff := delays);
    if response.Failure? {
      return Run(Failure(Rethrown(SubmitFailed, response.error)), trace);
    }
    match Classify(response.value) {
      case Rejected(kind) =>
        run := Run(Failure(Plain(kind)), trace);
      case Immediate(link) =>
        run := DownloadAndConvert(req, response.value, link, b, trace);
      case AwaitTask(taskId) =>
        var queries, sleeps, polled := PollTaskStatus(b.query, taskId);
        trace := trace.(statusQueries := queries, pollSleeps := sleeps);
        if polled.Failure? {
          return Run(Failure(polled.error), trace);
        }
        run := DownloadAndConvert(req, response.value, polled.value, b, trace);
    }
  }

  /** Download the audio, then reassign it on a successful amr or opus conversion. */
  method DownloadAndConvert(req: SpeechRequest, submission: SubmitResponse, audioUrl: Option<string>, b: Backend,
                            trace: Trace) returns (run: Run)
    ensures run == Deliver(req, submission, audioUrl, b, trace)
  {
    var audioResponse := b.download(audioUrl);
    var t := trace.(downloaded := true);
    if audioResponse.None? {
      return Run(Failure(Plain(DownloadFailed)), t);
    }
    var audioData := audioResponse.value;
    var attempted: seq<Target> := [];
    ghost var afterAmr := ConvertStep(audioData, attempted, req.format, Amr, submission, b.convert);
    if req.format == "amr" && NeedsConversion(Amr, submission) {
      var converted := b.convert(audioData, Amr);
      attempted := attempted + [Amr];
      if converted.Some? {
        audioData := converted.value;
      }
    }
    assert (audioData, attempted) == afterAmr;
    if req.format == "opus" && NeedsConversion(Opus, submission) {
      var converted := b.convert(audioData, Opus);
      attempted := attempted + [Opus];
      if converted.Some? {
        audioData := converted.value;
      }
    }
    t := t.(conversions := attempted);
    run := Run(Success(Synthesis(audioData, req.format, false)), t);
  }

  /** A reply of either route. */
  datatype Reply =
    | AudioReply(contentType: string, disposition: string, processedBy: string, cacheStatus: string, body: Audio)
    | ApiError(status: int, errorType: string)   // the OpenAI-style `error` object of the POST route
    | DemoError(status: int)                     // the `{code, message, data}` body of the demo route, code == status

  const ProcessedBy := "OpenAI-Compat-TTS-API"

  datatype Handled = Handled(reply: Reply, trace: Trace, store: Store)

  /** The headers and body both routes answer a synthesis with. */
  function AudioFor(s: Synthesis, format: string): Reply {
    AudioReply(MimeType(format), "attachment; filename=\"speech." + format + "\"", ProcessedBy,
               if s.isCached then "HIT" else "MISS", s.audio)
  }

  /** `POST /v1/audio/speech`, behind the authentication middleware. */
  function SpeechRoute(store: Store, cfg: ServiceConfig, header: Option<string>, body: SpeechBody, b: Backend,
                       lookupAt: int, storeAt: int): Handled
  {
    if !Admitted(cfg.authEnabled, cfg.apiKey, header) then Handled(ApiError(401, "invalid_request_error"), NoCalls, store)
    else match CheckSpeechBody(body)
      case BadRequest(_) => Handled(ApiError(400, "invalid_request_error"), NoCalls, store)
      case Fail(e) => Handled(ApiError(HttpStatus(e), ErrorType(e)), NoCalls, store)
      case Accept(req) =>
        var served := Generate(store, cfg, req, b, lookupAt, storeAt);
        match served.run.result
        case Success(s) => Handled(AudioFor(s, req.format), served.run.trace, served.store)
        case Failure(e) => Handled(ApiError(HttpStatus(e), ErrorType(e)), served.run.trace, served.store)
  }

  /** `GET /api/generate-tts`: no authentication, Base64 text, demo cache namespace. */
  function DemoRoute(store: Store, cfg: ServiceConfig, query: DemoQuery, decode: Decoder, b: Backend,
                     lookupAt: int, storeAt: int): Handled
  {
    match CheckDemoQuery(query, decode)
    case BadRequest(_) => Handled(DemoError(400), NoCalls, store)
    case Fail(e) => Handled(DemoError(HttpStatus(e)), NoCalls, store)
    case Accept(req) =>
      var served := Generate(store, cfg, req, b, lookupAt, storeAt);
      match served.run.result
      case Success(s) => Handled(AudioFor(s, req.format), served.run.trace, served.store)
      case Failure(e) => Handled(DemoError(HttpStatus(e)), served.run.trace, served.store)
  }

  method HandleSpeech(cache: MemoryCache, cfg: ServiceConfig, header: Option<string>, body: SpeechBody, b: Backend,
                      lookupAt: int, storeAt: int) returns (reply: Reply, trace: Trace)
    requires cache.Valid() && cache.ttlSeconds == cfg.ttlSeconds && cache.maxSize == cfg.maxSize
    modifies cache
    ensures cache.Valid()
    ensures Handled(reply, trace, cache.State()) ==
      SpeechRoute(old(cache.State()), cfg, header, body, b, lookupAt, storeAt)
  {
    if !Admitted(cfg.authEnabled, cfg.apiKey, header) {
      return ApiError(401, "invalid_request_error"), NoCalls;
    }
    var verdict := CheckSpeechBody(body);
    if !verdict.Accept? {
      return ApiError(400, "invalid_request_error"), NoCalls;
    }
    var run := GenerateTts(cache, cfg, verdict.request, b, lookupAt, storeAt);
    trace := run.trace;
    if run.result.Success? {
      reply := AudioFor(run.result.value, verdict.request.format);
    } else {
      reply := ApiError(HttpStatus(run.result.error), ErrorType(run.result.error));
    }
  }

  method HandleDemo(cache: MemoryCache, cfg: ServiceConfig, query: DemoQuery, decode: Decoder, b: Backend,
                    lookupAt: int, storeAt: int) returns (reply: Reply, trace: Trace)
    requires cache.Valid() && cache.ttlSeconds == cfg.ttlSeconds && cache.maxSize == cfg.maxSize
    modifies cache
    ensures cache.Valid()
    ensures Handled(reply, trace, cache.State()) ==
      DemoRoute(old(cache.State()), cfg, query, decode, b, lookupAt, storeAt)
  {
    var verdict := CheckDemoQuery(query, decode);
    match verdict {
      case BadRequest(_) =>
        return DemoError(400), NoCalls;
      case Fail(e) =>
        return DemoError(HttpStatus(e)), NoCalls;
      case Accept(req) =>
        var run := GenerateTts(cache, cfg, req, b, lookupAt, storeAt);
        trace := run.trace;
        if run.result.Success? {
          reply := AudioFor(run.result.value, req.format);
        } else {
          reply := DemoError(HttpStatus(run.result.error));
        }
    }
  }

  /** A converter that keeps its input: what a failing conversion amounts to. */
  function KeepInput(audio: Audio, t: Target): Option<Audio> {
    Some(audio)
  }

  /** Code 0 with a file link on the first attempt: one attempt, no polling, the downloaded bytes. */
  lemma ImmediateScenario(cfg: ServiceConfig, req: SpeechRequest, b: Backend, link: string, bytes: Audio)
    requires b.submit(Payload(req, cfg.vendor), 0) == Answered(SubmitResponse(Num(0), Some(SubmitData(Some(link), None))))
    requires b.download(Some(link)) == Some(bytes)
    requires req.format != "amr" && req.format != "opus"
    ensures Fulfil(cfg, req, b) == Run(Success(Synthesis(bytes, req.format, false)), Trace(1, [], 0, [], true, []))
  {
    SubmitStopsAtOnce(cfg.retryCount, b.submit, Payload(req, cfg.vendor));
  }

  /** Code '2105' with a task id, n pending polls and then a complete one: n + 1 queries, n one-second sleeps. */
  lemma PolledScenario(cfg: ServiceConfig, req: SpeechRequest, b: Backend, taskId: string, n: nat,
                       link: string, bytes: Audio)
    requires taskId != "" && n < MaxPollingAttempts
    requires b.submit(Payload(req, cfg.vendor), 0) ==
      Answered(SubmitResponse(Str("2105"), Some(SubmitData(None, Some(taskId)))))
    requires forall i :: 0 <= i < n ==> IsPending(b.query(taskId, i))
    requires b.query(taskId, n) == Status(TaskStatus(Num(0), Some(TaskData(Num(1), Some(link)))))
    requires b.download(Some(link)) == Some(bytes)
    ensures Fulfil(cfg, req, b).result.Success?
    ensures Fulfil(cfg, req, b).trace.submitAttempts == 1
    ensures Fulfil(cfg, req, b).trace.statusQueries == n + 1
    ensures Fulfil(cfg, req, b).trace.pollSleeps == seq(n, _ => 1000)
    ensures req.format != "amr" && req.format != "opus" ==> Fulfil(cfg, req, b).result.value.audio == bytes
    ensures req.format == "amr" ==> Fulfil(cfg, req, b).trace.conversions == [Amr]
    ensures req.format == "opus" ==> Fulfil(cfg, req, b).trace.conversions == [Opus]
  {
    var submission := SubmitResponse(Str("2105"), Some(SubmitData(None, Some(taskId))));
    SubmitStopsAtOnce(cfg.retryCount, b.submit, Payload(req, cfg.vendor));
    assert Classify(submission) == AwaitTask(taskId);
    PollCompletes(b.query, taskId, n);
    PolledAlwaysConverts(Amr, submission);
    PolledAlwaysConverts(Opus, submission);
  }

  /** A retriable failure, then an answer: two attempts and a single 1000 ms backoff. */
  lemma RetryScenario(cfg: ServiceConfig, req: SpeechRequest, b: Backend, e: ClientError, answer: SubmitResponse)
    requires cfg.retryCount >= 1 && !IsFatal(e)
    requires b.submit(Payload(req, cfg.vendor), 0) == Failed(e)
    requires b.submit(Payload(req, cfg.vendor), 1) == Answered(answer)
    ensures Fulfil(cfg, req, b).trace.submitAttempts == 2
    ensures Fulfil(cfg, req, b).trace.backoff == [1000]
  {
    var form := Payload(req, cfg.vendor);
    assert SubmitFrom(cfg.retryCount, b.submit, form, 1) == SubmitRun(2, [], Success(answer));
  }

  /** A 400 or 401 from the vendor ends the run after one attempt, and the status reaches the caller. */
  lemma FatalScenario(cfg: ServiceConfig, req: SpeechRequest, b: Backend, status: int)
    requires status == 400 || status == 401
    requires b.submit(Payload(req, cfg.vendor), 0) == Failed(ClientError(Some(ErrorResponse(Some(status))), true))
    ensures Fulfil(cfg, req, b).trace == Trace(1, [], 0, [], false, [])
    ensures Fulfil(cfg, req, b).result.Failure?
    ensures HttpStatus(Fulfil(cfg, req, b).result.error) == status
    ensures ErrorType(Fulfil(cfg, req, b).result.error) == "api_error"
  {
    SubmitStopsAtOnce(cfg.retryCount, b.submit, Payload(req, cfg.vendor));
  }

  /** Timeouts on every attempt: retryCount + 1 attempts, then a 504. */
  lemma TimeoutScenario(cfg: ServiceConfig, req: SpeechRequest, b: Backend)
    requires forall i :: 0 <= i <= cfg.retryCount ==> b.submit(Payload(req, cfg.vendor), i) == Failed(ClientError(None, true))
    ensures Fulfil(cfg, req, b).trace.submitAttempts == cfg.retryCount + 1
    ensures |Fulfil(cfg, req, b).trace.backoff| == cfg.retryCount
    ensures Fulfil(cfg, req, b).result.Failure?
    ensures HttpStatus(Fulfil(cfg, req, b).result.error) == 504
  {
    SubmitExhausts(cfg.retryCount, b.submit, Payload(req, cfg.vendor));
  }

  /** Only the two rethrown client errors carry a status from upstream; every other failure is a 500. */
  lemma OtherFailuresAre500(cfg: ServiceConfig, req: SpeechRequest, b: Backend)
    requires Fulfil(cfg, req, b).result.Failure?
    ensures var e := Fulfil(cfg, req, b).result.error;
      e.kind != SubmitFailed && e.kind != PollQueryFailed ==> HttpStatus(e) == 500 && ErrorType(e) == "server_error"
    ensures Fulfil(cfg, req, b).result.error.kind == DownloadFailed ==> HttpStatus(Fulfil(cfg, req, b).result.error) == 500
  {
    var sub := Submit(cfg.retryCount, b.submit, Payload(req, cfg.vendor));
    if sub.result.Success? {
      match Classify(sub.result.value)
      case Rejected(_) =>
      case Immediate(_) =>
      case AwaitTask(taskId) =>
        var p := Poll(b.query, taskId);
        if p.result.Failure? {
          PollOutcomeFrom(b.query, taskId, 0, []);
        }
    }
  }

  /** The conversion engine never decides success, the status, or what was called upstream. */
  lemma ConverterNeverFails(cfg: ServiceConfig, req: SpeechRequest, b: Backend, c: Converter)
    ensures Fulfil(cfg, req, b.(convert := c)).result.Success? == Fulfil(cfg, req, b).result.Success?
    ensures Fulfil(cfg, req, b.(convert := c)).trace == Fulfil(cfg, req, b).trace
    ensures Fulfil(cfg, req, b).result.Failure? ==>
      Fulfil(cfg, req, b.(convert := c)).result == Fulfil(cfg, req, b).result
  {
    var b' := b.(convert := c);
    assert b'.submit == b.submit && b'.query == b.query && b'.download == b.download;
  }

  /** A conversion that fails returns the audio as downloaded, exactly as if none had been attempted. */
  lemma FailedConversionKeepsAudio(cfg: ServiceConfig, req: SpeechRequest, b: Backend)
    requires forall a: Audio, t: Target :: b.convert(a, t).None?
    ensures Fulfil(cfg, req, b) == Fulfil(cfg, req, b.(convert := KeepInput))
  {
    var b' := b.(convert := KeepInput);
    assert b'.submit == b.submit && b'.query == b.query && b'.download == b.download;
  }

  /** With the cache off, generateTTS is the bare pipeline and leaves the store alone. */
  lemma CacheOffIsStateless(store: Store, cfg: ServiceConfig, req: SpeechRequest, b: Backend, lookupAt: int, storeAt: int)
    requires !cfg.cacheEnabled
    ensures Generate(store, cfg, req, b, lookupAt, storeAt) == Served(Fulfil(cfg, req, b), store)
  {
  }

  /** Failed runs are never cached: the store only loses the entry the lookup found expired. */
  lemma FailuresNotCached(store: Store, cfg: ServiceConfig, req: SpeechRequest, b: Backend, lookupAt: int, storeAt: int)
    requires cfg.cacheEnabled
    requires Generate(store, cfg, req, b, lookupAt, storeAt).run.result.Failure?
    ensures Generate(store, cfg, req, b, lookupAt, storeAt).store == store.Get(CacheKey(req), lookupAt).1
  {
  }

  /** After a fresh synthesis, any request with the same key before expiry is a hit: same audio, no calls. */
  lemma RepeatIsHit(store: Store, cfg: ServiceConfig, req: SpeechRequest, b: Backend, lookupAt: int, storeAt: int,
                    req': SpeechRequest, b': Backend, later: int, storeAt': int)
    requires cfg.cacheEnabled && CacheKey(req') == CacheKey(req)
    requires Generate(store, cfg, req, b, lookupAt, storeAt).run.result.Success?
    requires !Generate(store, cfg, req, b, lookupAt, storeAt).run.result.value.isCached
    requires later < storeAt + cfg.ttlSeconds * 1000
    ensures var first := Generate(store, cfg, req, b, lookupAt, storeAt);
      Generate(first.store, cfg, req', b', later, storeAt') ==
      Served(Run(Success(Synthesis(first.run.result.value.audio, req'.format, true)), NoCalls), first.store)
  {
    var key := CacheKey(req);
    var afterLookup := store.Get(key, lookupAt).1;
    var first := Generate(store, cfg, req, b, lookupAt, storeAt);
    assert first.store == afterLookup.Add(key, first.run.result.value.audio, storeAt, cfg.ttlSeconds, cfg.maxSize);
    AddThenGet(afterLookup, key, first.run.result.value.audio, storeAt, cfg.ttlSeconds, cfg.maxSize, later);
  }

  /** generateTTS keeps the cache well formed and within its capacity. */
  lemma GenerateKeepsCapacity(store: Store, cfg: ServiceConfig, req: SpeechRequest, b: Backend, lookupAt: int, storeAt: int)
    requires store.Valid() && store.Size() <= Capacity(cfg.maxSize)
    ensures Generate(store, cfg, req, b, lookupAt, storeAt).store.Valid()
    ensures Generate(store, cfg, req, b, lookupAt, storeAt).store.Size() <= Capacity(cfg.maxSize)
  {
    if cfg.cacheEnabled {
      var key := CacheKey(req);
      var afterLookup := store.Get(key, lookupAt).1;
      GetKeepsInvariant(store, key, lookupAt);
      var run := Fulfil(cfg, req, b);
      if run.result.Success? {
        AddKeepsInvariant(afterLookup, key, run.result.value.audio, storeAt, cfg.ttlSeconds, cfg.maxSize);
      }
    }
  }

  /**
   * With the default settings (maxSize 1000), generateTTS keeps the cache within 1000 entries,
   * whatever the flag variables say.
   */
  lemma ConfiguredKeepsCapacity(store: Store, cacheEnv: Option<string>, authEnv: Option<string>,
                                apiKeyEnv: Option<string>, req: SpeechRequest, b: Backend, lookupAt: int, storeAt: int)
    requires store.Valid() && store.Size() <= DefaultCacheMaxSize
    ensures var cfg := Configured(cacheEnv, authEnv, apiKeyEnv);
      Generate(store, cfg, req, b, lookupAt, storeAt).store.Size() <= 1000
  {
    var cfg := Configured(cacheEnv, authEnv, apiKeyEnv);
    GenerateKeepsCapacity(store, cfg, req, b, lookupAt, storeAt);
  }

  /** Without a matching bearer key the POST route answers 401 before anything else happens. */
  lemma UnauthorizedRejected(store: Store, cfg: ServiceConfig, header: Option<string>, body: SpeechBody, b: Backend,
                             lookupAt: int, storeAt: int)
    requires AuthActive(cfg.authEnabled, cfg.apiKey)
    requires !Truthy(header) || ' ' in cfg.apiKey
    ensures SpeechRoute(store, cfg, header, body, b, lookupAt, storeAt) ==
      Handled(ApiError(401, "invalid_request_error"), NoCalls, store)
  {
    BearerForms(cfg.apiKey, header);
  }

  /** An input over 4096 code units is refused with 400: no upstream call, no cache access. */
  lemma OversizedInputRejected(store: Store, cfg: ServiceConfig, header: Option<string>, body: SpeechBody, b: Backend,
                               lookupAt: int, storeAt: int)
    requires Admitted(cfg.authEnabled, cfg.apiKey, header)
    requires Truthy(body.model) && Truthy(body.voice) && Truthy(body.input) && |body.input.value| > 4096
    ensures SpeechRoute(store, cfg, header, body, b, lookupAt, storeAt) ==
      Handled(ApiError(400, "invalid_request_error"), NoCalls, store)
  {
  }

  /** The same limit applies to the demo route's decoded text. */
  lemma OversizedDemoRejected(store: Store, cfg: ServiceConfig, query: DemoQuery, decode: Decoder, b: Backend,
                              lookupAt: int, storeAt: int)
    requires Truthy(query.text) && Truthy(query.voice)
    requires decode(query.text.value).Some? && |decode(query.text.value).value| > 4096
    ensures DemoRoute(store, cfg, query, decode, b, lookupAt, storeAt) == Handled(DemoError(400), NoCalls, store)
  {
  }

  /** A successful reply carries the format's MIME type and attachment name, and says whether it was cached. */
  lemma ReplyHeaders(store: Store, cfg: ServiceConfig, header: Option<string>, body: SpeechBody, b: Backend,
                     lookupAt: int, storeAt: int)
    requires SpeechRoute(store, cfg, header, body, b, lookupAt, storeAt).reply.AudioReply?
    ensures var r := SpeechRoute(store, cfg, header, body, b, lookupAt, storeAt).reply;
      var format := CheckSpeechBody(body).request.format;
      CheckSpeechBody(body).Accept? &&
      r.contentType == MimeType(format) &&
      r.disposition == "attachment; filename=\"speech." + format + "\"" &&
      (r.cacheStatus == "HIT" || r.cacheStatus == "MISS") &&
      (r.cacheStatus == "HIT" <==>
        Generate(store, cfg, CheckSpeechBody(body).request, b, lookupAt, storeAt).run.result.value.isCached)
  {
  }

  /** An error reply of the POST route has the status and type of the error the pipeline ended with. */
  lemma ErrorReplyOfPipeline(store: Store, cfg: ServiceConfig, header: Option<string>, body: SpeechBody, b: Backend,
                             lookupAt: int, storeAt: int)
    requires Admitted(cfg.authEnabled, cfg.apiKey, header) && CheckSpeechBody(body).Accept?
    ensures var served := Generate(store, cfg, CheckSpeechBody(body).request, b, lookupAt, storeAt);
      served.run.result.Failure? ==>
        SpeechRoute(store, cfg, header, body, b, lookupAt, storeAt) ==
        Handled(ApiError(HttpStatus(served.run.result.error), ErrorType(served.run.result.error)),
                served.run.trace, served.store)
  {
  }
}
