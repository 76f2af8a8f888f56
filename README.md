# xunjie-tts-open-api: a Dafny model of the request pipeline

The proxy accepts OpenAI-style text-to-speech requests and serves them through a vendor API. It handles a
`POST /v1/audio/speech` route and a `GET /api/generate-tts` demo route. Both call one pipeline, `generateTTS`.

For each request the pipeline:
1. looks the request up in an in-memory cache;
2. builds the vendor's form payload, mapping the speed to a vendor speech rate;
3. submits the payload with a bounded, exponentially backed-off retry loop;
4. classifies the answer as a direct file link, a task to poll, or an error;
5. polls the task when needed, for at most 30 queries;
6. downloads the audio;
7. converts it to AMR or Opus if needed;
8. stores the result in the cache.

The route handlers check the bearer key (POST only), the required parameters and the input length. They turn
any error into an HTTP status.

The model takes everything outside the process as parameters of function type, so that a method and its
specification function see the same outcomes:
- the result of the k-th submission attempt;
- the k-th status query;
- the download;
- the conversion engine;
- the demo text decoder;
- the clock, as explicit timestamps.

The modules follow the source:

| module | models |
|---|---|
| `Config` | the defaults and the two tables |
| `SpeechRate` | the speed bands |
| `Request` and `Text` | the request and its cache key, plus the JavaScript string operations used: `substring`, `split`, ASCII `toLowerCase`, `replace` of the first match, `toString` of an integer; `LastIndexOf` is a helper of the `path.extname` model in `Transcode` |
| `FormData` | the payload |
| `Errors` | errors and the status mapping |
| `Upstream` | the retry loop and the classification |
| `Poller` | the poll loop |
| `Transcode` | the extension test and the conversions |
| `Cache` | the cache: Map value transitions on a `Store`, and the `MemoryCache` class with the three methods |
| `Validation` | the request checks |
| `Orchestrator` | `generateTTS` and the two routes |

Where the source mutates state, the model is imperative:
- the payload is built by successive appends;
- the retry and poll loops are `while` loops;
- `audioData` is reassigned;
- the cache is a class whose methods update its fields.

Each such method is proved equal to a specification function. The properties are proved about those functions.

## Model

| member | source | states |
|---|---|---|
| Config.MapVoice | src/index.js:195 | a known voice name is translated through the table, any other name passes through unchanged |
| Config.MimeType | src/index.js:403 | a format in the table gets its MIME type, any other format gets audio/mpeg |
| Config.FormatMappingKeys | src/config.js:81-88 | the format table has exactly the keys mp3, opus, aac, flac, wav, amr with their six MIME types |
| Config.VoiceMappingKeys | src/config.js:63-78 | the voice table has exactly the 13 OpenAI voice names, each mapped to a non-empty id |
| Config.VoiceMappingIds | src/config.js:63-78 | alloy, echo, fable, onyx, nova map to voice1..voice5 |
| Config.VoiceMappingShared | src/config.js:68-77 | shimmer, ash, ballad, coral, sage, verse, marin and cedar all map to voice6 |
| Config.DefaultsSane | src/config.js:15-16 | default retry budget 2, timeout 30000 ms, cache TTL 3600 s, maxSize 1000 (at least 1), a flag is on only for the exact string "true" |
| Orchestrator.ConfiguredKeepsCapacity | src/config.js:48-52 | with the default maxSize of 1000, generateTTS never leaves more than 1000 entries in the cache, whatever the flag variables say |
| SpeechRate.JsRound | src/index.js:173 | `Math.round` returns the integer within half of its argument, halves rounding up |
| SpeechRate.Rate | src/index.js:173-183 | the rate is at least 2, and at least 6 from speed 1.5 on |
| SpeechRate.RateBands | src/index.js:173-183 | first-match bands: <=0.3 gives 2, <0.5 gives 3, <0.8 gives 4, [0.8,1.2) gives 5, [1.2,1.5) gives 6, otherwise floor(2(speed-1)+1/2)+5 |
| SpeechRate.RateMonotone | src/index.js:173-183 | a faster speed never yields a lower rate |
| SpeechRate.RateUnclamped | src/index.js:173-183 | speeds 1.5, 2.0, 4.0 give rates 6, 7, 11: above the 1-10 range the comment at line 171 mentions |
| SpeechRate.RateUnbounded | src/index.js:173 | the fallback is not clamped: speed n+1.5 gives a rate of at least n+6 |
| Request.KeyDependsOnTextPrefix | src/index.js:155 | two requests that differ only in text share a cache key exactly when their first 100 code units agree |
| Request.LongTextsCollide | src/index.js:155 | texts that agree on the first 100 code units collide in the cache whatever follows |
| Request.DemoNamespace | src/index.js:154-155 | a demo request's key is the POST request's key prefixed by "demo_" |
| Text.Prefix | src/index.js:155 | `substring(0, n)` is a prefix of length min(n, length) |
| Text.Split | src/index.js:99 | `split(c)` yields at least one part and no part contains the separator |
| Text.JoinSplit | src/index.js:99 | joining the parts of a split with the separator restores the string |
| Text.SplitJoin | src/index.js:99 | splitting a join of separator-free parts returns those parts |
| Text.LastIndexOf | src/index.js:288 | the last occurrence of a character, or -1 when it is absent (used by the `path.extname` model) |
| Text.RemoveFirstAt | src/index.js:288 | `replace('.', '')` cuts out exactly the first dot and keeps everything around it |
| Text.AsciiLower | src/index.js:288 | `toLowerCase()` keeps the length and lowers each ASCII letter in place |
| Text.NatToDecimal | src/index.js:200 | `toString` of a rate is a non-empty digit string without a leading zero |
| Text.DecimalRoundTrip | src/index.js:200 | the decimal string reads back as the number |
| FormData.TitleShape | src/index.js:202 | the title is the text when at most 50 long, else its first 50 code units followed by "..." (53 in all) |
| FormData.BuildForm | src/index.js:186-204 | the successive appends produce exactly the payload sequence |
| FormData.PayloadKeys | src/index.js:186-204 | the sixteen keys in append order, with the emotion key only for a truthy emotion |
| FormData.PayloadFormat | src/index.js:194 | the vendor always receives format=mp3, whatever format was requested |
| FormData.PayloadVoice | src/index.js:195 | the voice value is the mapped voice id |
| FormData.PayloadText | src/index.js:191 | the text field carries the full text, once |
| FormData.PayloadTitle | src/index.js:202 | the title field carries the truncated title, once |
| FormData.NoneEmotionSharesKey | src/index.js:155 | `emotion \|\| 'none'` in the key: emotion "none" and no emotion share a cache key, yet the vendor receives different forms for them |
| FormData.PayloadEmotion | src/index.js:196-198 | an emotion pair appears exactly when the emotion is truthy, carrying it |
| FormData.PayloadRate | src/index.js:200 | speech_rate is the decimal string of the computed rate, and reads back as that rate |
| FormData.Values | src/index.js:186-204 | `getAll(key)` returns only values stored under that key, at most one per pair |
| Errors.StatusMapping | src/index.js:417-448 | a response gives its status (500 if missing or 0) and type api_error; only a request gives 504 timeout_error; otherwise 500 server_error; a plain Error is always 500 |
| Errors.StatusCases | src/index.js:417-448 | every status is 500, 504 or the upstream status, and 504 without a response means a request was sent |
| Upstream.SubmitFrom | src/index.js:225-246 | at most budget+1 attempts; each attempt before the last failed retriably; stopping early means the last was not retriable; the result is the last attempt's outcome |
| Upstream.SubmitDelays | src/index.js:244 | one delay per retried failure, the j-th being 1000·2^j ms |
| Upstream.SubmitStopsAtOnce | src/index.js:230-237 | a first-attempt answer, or a 400/401, means one attempt and no sleep |
| Upstream.SubmitExhausts | src/index.js:225-246 | when every attempt fails retriably: budget+1 attempts, budget sleeps, the last error rethrown |
| Upstream.SubmitWithRetry | src/index.js:225-246 | the while loop yields exactly the attempts, delays and result of the specification |
| Upstream.ClassifyStrict | src/index.js:254-277 | numeric 0 with data means a direct link to data.file_link, and numeric 0 without data is a malformed-response error; the string "2105" with a truthy task_id means polling that task_id; strict equality ("0", 2105 are errors) |
| Poller.PollFrom | src/index.js:555-599 | polling from the k-th query on makes at least one more query before 30, and never more than 30 in all |
| Poller.PollOutcomeFrom | src/index.js:555-601 | polling stops at the first non-pending answer and settles on it, or times out after 30 pending ones; it sleeps 1000 ms after each pending answer and at no other time |
| Poller.PollCompletes | src/index.js:583-586 | n pending answers and then a complete one: n+1 queries, n sleeps, and that answer's file_link |
| Poller.PollSixQueries | src/index.js:555-599 | five pending answers then a complete one take exactly six queries |
| Poller.PollTimesOut | src/index.js:555-601 | thirty pending answers: a timeout error after exactly 30 queries and 30 sleeps |
| Poller.PollAbortsAtOnce | src/index.js:583-598 | any other first answer, including code 0 without is_complete 1, or a query error, fails after one query |
| Poller.PollTaskStatus | src/index.js:550-602 | the while loop yields exactly the queries, sleeps and result of the specification |
| Transcode.SettingsTable | src/index.js:651-664 | AMR is 12.2k mono 8000 Hz; Opus is 16k mono 16000 Hz with variable bitrate |
| Transcode.Extname | src/index.js:288 | `path.extname` is empty or starts with a dot |
| Transcode.ExtnameOfLink | src/index.js:288 | the extname of dir/name.ext is ".ext" |
| Transcode.ExtensionOfLink | src/index.js:287-288 | a link dir/name.ext?query has extension lower(ext) |
| Transcode.OnlyAmrAndOpus | src/index.js:280-331 | other formats are never converted |
| Transcode.ConversionFallback | src/index.js:292-302 | a failed conversion keeps the downloaded bytes, a successful one replaces them |
| Transcode.PolledAlwaysConverts | src/index.js:284-290 | without a submission file_link, the polled path always converts |
| Transcode.MatchingLinkSkips | src/index.js:284-290 | a submission link whose extension is the target's, in any letter case, skips conversion |
| Cache.AddKeepsInvariant | src/index.js:710-718 | adding keeps keys distinct, in step with the entries, and within max(maxSize, 1) |
| Cache.AddEvictsOldest | src/index.js:712-718 | when full, exactly the first-inserted key is removed and the new entry set; the insertion order is the old one without that key, the new key last unless it was already present; every other entry is unchanged |
| Cache.AddWithRoom | src/index.js:717-718 | below capacity the entry is set with expiry now+ttl·1000, an existing key keeping its position |
| Cache.AddThenGet | src/index.js:717-718 | a read before now+ttl·1000 returns the added value and changes nothing |
| Cache.GetExpired | src/index.js:738-741 | a read at or after the expiry misses and removes that entry alone: the other entries and the insertion order of the other keys are unchanged |
| Cache.GetFresh | src/index.js:731-744 | a read of a present key before its expiry returns the stored value and changes nothing |
| Cache.GetAbsent | src/index.js:732-735 | a read of an absent key misses and changes nothing |
| Cache.GetKeepsInvariant | src/index.js:731-744 | a read keeps the store well formed and never adds keys |
| Cache.SweepSparesReAdded | src/index.js:721-728 | the timer of an earlier put does not delete an entry re-put more than 1000 ms later |
| Cache.SweepRemovesExpired | src/index.js:721-728 | the timer of a put that was not renewed removes that entry alone: the other entries and the insertion order of the other keys are unchanged |
| Cache.CapacityHolds | src/index.js:710-718 | over any sequence of puts the store stays well formed, and within maxSize when maxSize is at least 1 |
| Cache.MemoryCache.AddToCache | src/index.js:710-729 | the fields become the store after the put, the invariant holds, and the timer fires at now+ttl·1000+1000 |
| Cache.MemoryCache.GetFromCache | src/index.js:731-744 | the result and the fields are those of the value-level read |
| Cache.MemoryCache.SweepExpired | src/index.js:721-728 | the fields become the store after the timer callback |
| Validation.SpeechBodyAccepted | src/index.js:364-398 | the POST body is accepted exactly when model, input and voice are truthy and the input is at most 4096 long; format defaults to mp3, speed to 1 |
| Validation.SpeechBodyBoundary | src/index.js:366-389 | length 4096 passes, 4097 is refused, and missing parameters are reported first |
| Validation.DemoQueryAccepted | src/index.js:471-503 | the demo query is accepted exactly when text and voice are truthy, decoding succeeds and the decoded text fits; a decoding error is a 500 |
| Validation.BearerToken | src/index.js:99 | the token is the second space-separated word of a present header, and holds no space |
| Validation.AdmittedIff | src/index.js:98-101 | for a header `scheme token rest`, admission holds exactly when the token equals the key |
| Validation.BearerForms | src/index.js:96-113 | "Bearer key" is admitted; a missing header, or a key containing a space, never is |
| Validation.InactiveAdmitsAll | src/index.js:96 | with auth off, or no key configured, every request is admitted |
| Orchestrator.GenerateTts | src/index.js:143-358 | the imperative run returns exactly the run and leaves exactly the cache of the specification, keeping the cache invariant |
| Orchestrator.CallVendor | src/index.js:186-336 | the form, the submission with retries, the classification of the answer, the polling, the download and the conversion yield exactly the pipeline run of the specification |
| Orchestrator.DownloadAndConvert | src/index.js:258-331 | the download and the amr and opus blocks yield exactly the delivered run: a failed download is an error, otherwise the bytes after the conversion for the requested format |
| Orchestrator.HandleSpeech | src/index.js:361-450 | the POST handler's reply, upstream trace and cache are those of the route specification |
| Orchestrator.HandleDemo | src/index.js:469-542 | the demo handler's reply, upstream trace and cache are those of the route specification |
| Orchestrator.ImmediateScenario | src/index.js:254-262 | code 0 with a file link on the first attempt: one attempt, no poll, the downloaded bytes returned uncached |
| Orchestrator.PolledScenario | src/index.js:263-272 | code "2105" with a task id, n pending polls then a complete one: n+1 queries, n 1000 ms sleeps, and conversion whenever amr or opus is asked |
| Orchestrator.RetryScenario | src/index.js:225-246 | a retriable failure then an answer: two attempts and a single 1000 ms backoff |
| Orchestrator.FatalScenario | src/index.js:237-239 | a vendor 400 or 401 ends the run after one attempt and reaches the caller as that status with type api_error |
| Orchestrator.TimeoutScenario | src/index.js:225-246 | timeouts on every attempt: retryCount+1 attempts, retryCount sleeps, then 504 |
| Orchestrator.OtherFailuresAre500 | src/index.js:417-448 | apart from rethrown submission and status-query errors, every failure, download errors included, is a 500 server_error |
| Orchestrator.ConverterNeverFails | src/index.js:292-302 | the converter never changes success, the error, or the upstream calls made |
| Orchestrator.FailedConversionKeepsAudio | src/index.js:292-302 | a converter that always fails gives the same run as one that keeps its input |
| Orchestrator.CacheOffIsStateless | src/index.js:153-339 | with the cache off, generateTTS is the bare pipeline and the store is untouched |
| Orchestrator.FailuresNotCached | src/index.js:338-342 | a failed run stores nothing; only the lookup's lazy expiry changes the store |
| Orchestrator.RepeatIsHit | src/index.js:151-166 | after a fresh synthesis, a request with the same key before expiry is a hit with the same audio and no upstream call |
| Orchestrator.GenerateKeepsCapacity | src/index.js:151-342 | generateTTS keeps the cache well formed and within its capacity |
| Orchestrator.UnauthorizedRejected | src/index.js:96-113 | with auth active, a missing header (or a key containing a space) gets 401 with no upstream call and no cache change |
| Orchestrator.OversizedInputRejected | src/index.js:379-389 | an input over 4096 code units gets 400 with no upstream call and no cache change |
| Orchestrator.OversizedDemoRejected | src/index.js:486-492 | a decoded demo text over 4096 code units gets 400 with no upstream call and no cache change |
| Orchestrator.ReplyHeaders | src/index.js:402-407 | a successful reply carries the format's MIME type, the attachment file name, and X-Cache HIT exactly for a cached result |
| Orchestrator.ErrorReplyOfPipeline | src/index.js:417-448 | a failed run is answered with the status and type of its error |

## Left out

- Express setup, CORS, body parsing, logging, the health, voice-data and static-page routes, and rate limiting (429): HTTP and file plumbing.
- axios: the three HTTP calls are supplied as outcome functions. Their timeouts (30 s for the vendor, 60 s for the download) and headers are not modelled.
- ffmpeg and its temporary files: the conversion engine is an oracle. Only its parameter table is data (`Transcode.Settings`).
- Real timers and sleeps: the backoff delays and poll sleeps are recorded as values. The cache timer is the returned firing time plus `SweepExpired`. Clock readings are explicit parameters.
- Base64 and `decodeURIComponent` decoding of the demo text: an oracle that may fail.
- Environment variable overrides, except the three flags, and JavaScript coercion of string settings: numbers and strings are the defaults' types.
- IEEE-754 arithmetic in the rate formula, and float-to-string rendering of the speed in the cache key: the speed is an exact real, carried with its rendering as a given string.
- A non-numeric speed (for which the source sends "NaN") and non-string JSON values (null, arrays) in the request body: only absent or string fields are modelled.
- Lookups of JavaScript object-prototype names such as "constructor" in the voice and format tables: only own keys are modelled.
- Node's platform `path` module: `Transcode.Extname` is the POSIX `path.extname`; on a Windows host Node would use the win32 variant, which also treats backslashes as separators.
- Unicode case folding: `toLowerCase` is modelled on ASCII letters, which is what file extensions use.
- Error message texts and the details/code fields of error bodies: a reply carries only its status and, on the POST route, the error type.
- Concurrency: Node runs the cache operations on one thread. Interleavings of concurrent requests are not modelled; one request is one atomic run.
- The preconditions of Transcode.ExtnameOfLink, Transcode.ExtensionOfLink, Validation.AdmittedIff and the scenario lemmas only describe the input each lemma is about. The source accepts any input.
