/**
 * What the two routes check before any work is done: the bearer key on the
 * OpenAI-compatible route, the required parameters and the input length.
 */
module Validation {
  import opened Wrappers
  import opened Text
  import opened Request
  import opened Errors

  /** Longest accepted input, in UTF-16 code units. */
  const MaxInputLength: nat := 4096

  /** The JSON body of `POST /v1/audio/speech`; None is an absent field. */
  datatype SpeechBody = SpeechBody(
    model: Option<string>, input: Option<string>, voice: Option<string>,
    responseFormat: Option<string>, speed: Option<Speed>, emotion: Option<string>)

  /** The query of `GET /api/generate-tts`; `text` is Base64 of the URI-encoded text. */
  datatype DemoQuery = DemoQuery(
    text: Option<string>, voice: Option<string>, speed: Option<Speed>,
    emotion: Option<string>, responseFormat: Option<string>)

  /** Why a request is refused with 400 before the pipeline runs. */
  datatype Rejection = MissingParameters | TextTooLong

  /** A request ready for the pipeline, a 400, or an error raised while reading the request. */
  datatype Verdict = Accept(request: SpeechRequest) | BadRequest(reason: Rejection) | Fail(error: Error)

  /** Base64 decoding followed by `decodeURIComponent`, which throws on a malformed escape. */
  type Decoder = string -> Option<string>

  /** A destructuring default: it applies to an absent field only. */
  function OrDefault<T>(v: Option<T>, d: T): (r: T)
    ensures v.Some? ==> r == v.value
    ensures v.None? ==> r == d
  {
    if v.Some? then v.value else d
  }

  function CheckSpeechBody(b: SpeechBody): Verdict {
    if !Truthy(b.model) || !Truthy(b.input) || !Truthy(b.voice) then BadRequest(MissingParameters)
    else if |b.input.value| > MaxInputLength then BadRequest(TextTooLong)
    else Accept(SpeechRequest(b.input.value, b.voice.value, OrDefault(b.speed, DefaultSpeed), b.emotion,
                              OrDefault(b.responseFormat, "mp3"), false))
  }

  function CheckDemoQuery(q: DemoQuery, decode: Decoder): Verdict {
    if !Truthy(q.text) || !Truthy(q.voice) then BadRequest(MissingParameters)
    else match decode(q.text.value)
      case None => Fail(Plain(DecodeFailed))
      case Some(text) =>
        if |text| > MaxInputLength then BadRequest(TextTooLong)
        else Accept(SpeechRequest(text, q.voice.value, OrDefault(q.speed, DefaultSpeed), q.emotion,
                                  OrDefault(q.responseFormat, "mp3"), true))
  }

  /** The POST body is accepted exactly when model, input and voice are non-empty and the input fits. */
  lemma SpeechBodyAccepted(b: SpeechBody)
    ensures CheckSpeechBody(b).Accept? <==>
      Truthy(b.model) && Truthy(b.input) && Truthy(b.voice) && |b.input.value| <= MaxInputLength
    ensures CheckSpeechBody(b).Fail? == false
    ensures CheckSpeechBody(b).Accept? ==> var r := CheckSpeechBody(b).request;
      r.text == b.input.value && r.voice == b.voice.value && r.emotion == b.emotion && !r.isDemo &&
      r.format == (if b.responseFormat.Some? then b.responseFormat.value else "mp3") &&
      r.speed == (if b.speed.Some? then b.speed.value else Speed(1.0, "1"))
  {
  }

  /** Missing parameters are reported before the length, and 4096 code units still pass. */
  lemma SpeechBodyBoundary(b: SpeechBody)
    requires Truthy(b.model) && Truthy(b.voice) && Truthy(b.input)
    ensures |b.input.value| == 4096 ==> CheckSpeechBody(b).Accept?
    ensures |b.input.value| == 4097 ==> CheckSpeechBody(b) == BadRequest(TextTooLong)
    ensures CheckSpeechBody(b.(model := None)) == BadRequest(MissingParameters)
  {
  }

  /** The demo route checks the decoded text, and tags the request as a demo one. */
  lemma DemoQueryAccepted(q: DemoQuery, decode: Decoder)
    ensures CheckDemoQuery(q, decode).Accept? <==>
      Truthy(q.text) && Truthy(q.voice) && decode(q.text.value).Some? &&
      |decode(q.text.value).value| <= MaxInputLength
    ensures CheckDemoQuery(q, decode).Accept? ==>
      CheckDemoQuery(q, decode).request.text == decode(q.text.value).value &&
      CheckDemoQuery(q, decode).request.isDemo
    ensures CheckDemoQuery(q, decode).Fail? ==> HttpStatus(CheckDemoQuery(q, decode).error) == 500
  {
  }

  /** `authHeader && authHeader.split(' ')[1]`: the second space-separated word, when there is one. */
  function BearerToken(header: Option<string>): (token: Option<string>)
    ensures token.Some? ==> header.Some? && ' ' !in token.value
  {
    if !Truthy(header) then None
    else
      var words := Split(header.value, ' ');
      if |words| >= 2 then Some(words[1]) else None
  }

  /** The middleware is installed only when authentication is on and a key is configured. */
  predicate AuthActive(enabled: bool, apiKey: string) {
    enabled && apiKey != ""
  }

  /** The middleware lets a request through to the route. */
  predicate Admitted(enabled: bool, apiKey: string, header: Option<string>) {
    !AuthActive(enabled, apiKey) || (Truthy(BearerToken(header)) && BearerToken(header).value == apiKey)
  }

  /** For a header `scheme token rest` (rest empty or starting with a space), admission is `token == apiKey`. */
  lemma {:induction false} AdmittedIff(apiKey: string, scheme: string, token: string, rest: string)
    requires AuthActive(true, apiKey)
    requires ' ' !in scheme && ' ' !in token
    requires rest == [] || rest[0] == ' '
    ensures Admitted(true, apiKey, Some(scheme + " " + token + rest)) <==> token == apiKey
  {
    var h := scheme + " " + token + rest;
    TokenIsSecondWord(scheme, token, rest);
    assert BearerToken(Some(h)) == Some(token);
  }

  lemma {:induction false} TokenIsSecondWord(scheme: string, token: string, rest: string)
    requires ' ' !in scheme && ' ' !in token
    requires rest == [] || rest[0] == ' '
    ensures var words := Split(scheme + " " + token + rest, ' '); |words| >= 2 && words[1] == token
  {
    assert scheme + " " + token + rest == scheme + " " + (token + rest);
    SplitSpace(scheme, token + rest);
    SplitHead(token, ' ', rest);
    assert Split(scheme + " " + token + rest, ' ') == [scheme] + Split(token + rest, ' ');
  }

  /** Splitting `a + " " + b` when `a` has no space: `a`, then the words of `b`. */
  lemma {:induction false} SplitSpace(a: string, b: string)
    requires ' ' !in a
    ensures Split(a + " " + b, ' ') == [a] + Split(b, ' ')
    decreases |a|
  {
    if |a| == 0 {
      assert a + " " + b == [' '] + b;
    } else {
      assert (a + " " + b)[1..] == a[1..] + " " + b;
      SplitSpace(a[1..], b);
      assert [a[0]] + a[1..] == a;
    }
  }

  /** `Bearer <key>` is admitted; a missing or empty header, or a key containing a space, never is. */
  lemma BearerForms(apiKey: string, header: Option<string>)
    requires AuthActive(true, apiKey)
    ensures ' ' !in apiKey ==> Admitted(true, apiKey, Some("Bearer " + apiKey))
    ensures !Truthy(header) ==> !Admitted(true, apiKey, header)
    ensures ' ' in apiKey ==> !Admitted(true, apiKey, header)
  {
    if ' ' !in apiKey {
      AdmittedIff(apiKey, "Bearer", apiKey, "");
      assert "Bearer" + " " + apiKey + "" == "Bearer " + apiKey;
    }
  }

  /** With authentication off, or no key configured, every request is admitted. */
  lemma InactiveAdmitsAll(enabled: bool, apiKey: string, header: Option<string>)
    requires !AuthActive(enabled, apiKey)
    ensures Admitted(enabled, apiKey, header)
  {
  }
}
