/**
 * The form-encoded payload of the vendor submission, built by successive appends
 * of key/value pairs (a URLSearchParams keeps them in append order).
 */
module FormData {
  import opened Wrappers
  import opened Text
  import opened Config
  import opened Request
  import SpeechRate

  type Form = seq<(string, string)>

  /** Longest text kept verbatim in the title. */
  const TitleLength: nat := 50

  /** `text.substring(0, 50) + (text.length > 50 ? '...' : '')`. */
  function Title(text: string): string {
    Prefix(text, TitleLength) + (if |text| > TitleLength then "..." else "")
  }

  lemma TitleShape(text: string)
    ensures |text| <= 50 ==> Title(text) == text
    ensures |text| > 50 ==> Title(text) == text[..50] + "..." && |Title(text)| == 53
  {
  }

  /** The fields of the submission for a request, in append order. */
  function Payload(r: SpeechRequest, cfg: VendorSettings): Form {
    HeadFields(r, cfg) + EmotionField(r) + TailFields(r, cfg)
  }

  /** The nine fields appended before the optional emotion. */
  function HeadFields(r: SpeechRequest, cfg: VendorSettings): Form {
    [("client", cfg.client), ("source", cfg.source), ("soft_version", cfg.softVersion),
     ("device_id", cfg.deviceId), ("text", r.text), ("bgid", cfg.bgId), ("bg_volume", cfg.bgVolume),
     ("format", "mp3"), ("voice", MapVoice(r.voice))]
  }

  /** The emotion field, appended only for a truthy emotion. */
  function EmotionField(r: SpeechRequest): Form {
    if Truthy(r.emotion) then [("emotion", r.emotion.value)] else []
  }

  /** The six fields appended after the optional emotion. */
  function TailFields(r: SpeechRequest, cfg: VendorSettings): Form {
    [("volume", cfg.volume), ("speech_rate", NatToDecimal(SpeechRate.Rate(r.speed.value))),
     ("pitch_rate", cfg.pitchRate), ("title", Title(r.text)), ("token", cfg.token), ("bg_url", cfg.bgUrl)]
  }

  /** `params.getAll(key)`: every value appended under key, in order. */
  function Values(form: Form, key: string): (vs: seq<string>)
    ensures |vs| <= |form|
    ensures forall v :: v in vs ==> (key, v) in form
  {
    if |form| == 0 then []
    else (if form[0].0 == key then [form[0].1] else []) + Values(form[1..], key)
  }

  /** The keys in append order. */
  function Keys(form: Form): (ks: seq<string>)
    ensures |ks| == |form|
    ensures forall i :: 0 <= i < |form| ==> ks[i] == form[i].0
  {
    if |form| == 0 then [] else [form[0].0] + Keys(form[1..])
  }

  lemma {:induction false} ValuesAppend(a: Form, b: Form, key: string)
    ensures Values(a + b, key) == Values(a, key) + Values(b, key)
  {
    if |a| == 0 {
      assert a + b == b;
    } else {
      assert (a + b)[0] == a[0];
      assert (a + b)[1..] == a[1..] + b;
      ValuesAppend(a[1..], b, key);
    }
  }

  lemma {:induction false} ValuesAbsent(f: Form, key: string)
    requires key !in Keys(f)
    ensures Values(f, key) == []
  {
    if |f| > 0 {
      assert Keys(f)[0] == f[0].0;
      assert Keys(f[1..]) == Keys(f)[1..];
      ValuesAbsent(f[1..], key);
    }
  }

  /** A key appended once has exactly one value. */
  lemma ValuesSingle(f: Form, key: string, i: nat)
    requires i < |f| && f[i].0 == key
    requires key !in Keys(f[..i]) && key !in Keys(f[i + 1..])
    ensures Values(f, key) == [f[i].1]
  {
    var rest := f[i..];
    assert f == f[..i] + rest;
    ValuesAppend(f[..i], rest, key);
    ValuesAbsent(f[..i], key);
    assert rest[0] == f[i] && rest[1..] == f[i + 1..];
    ValuesAbsent(f[i + 1..], key);
  }

  /** Builds the payload as the source does, one append at a time. */
  method BuildForm(r: SpeechRequest, cfg: VendorSettings) returns (form: Form)
    ensures form == Payload(r, cfg)
  {
    form := [];
    form := form + [("client", cfg.client)];
    form := form + [("source", cfg.source)];
    form := form + [("soft_version", cfg.softVersion)];
    form := form + [("device_id", cfg.deviceId)];
    form := form + [("text", r.text)];
    form := form + [("bgid", cfg.bgId)];
    form := form + [("bg_volume", cfg.bgVolume)];
    form := form + [("format", "mp3")];
    form := form + [("voice", MapVoice(r.voice))];
    assert form == HeadFields(r, cfg);
    if Truthy(r.emotion) {
      form := form + [("emotion", r.emotion.value)];
    }
    ghost var withEmotion := form;
    assert withEmotion == HeadFields(r, cfg) + EmotionField(r);
    form := form + [("volume", cfg.volume)];
    form := form + [("speech_rate", NatToDecimal(SpeechRate.Rate(r.speed.value)))];
    form := form + [("pitch_rate", cfg.pitchRate)];
    form := form + [("title", Title(r.text))];
    form := form + [("token", cfg.token)];
    form := form + [("bg_url", cfg.bgUrl)];
    assert form == withEmotion + TailFields(r, cfg);
  }

  /** getAll on the payload is getAll on each of its three parts. */
  lemma PayloadParts(r: SpeechRequest, cfg: VendorSettings, key: string)
    ensures Values(Payload(r, cfg), key) ==
      Values(HeadFields(r, cfg), key) + Values(EmotionField(r), key) + Values(TailFields(r, cfg), key)
  {
    ValuesAppend(HeadFields(r, cfg) + EmotionField(r), TailFields(r, cfg), key);
    ValuesAppend(HeadFields(r, cfg), EmotionField(r), key);
  }

  const HeadKeys: seq<string> :=
    ["client", "source", "soft_version", "device_id", "text", "bgid", "bg_volume", "format", "voice"]
  const TailKeys: seq<string> := ["volume", "speech_rate", "pitch_rate", "title", "token", "bg_url"]

  lemma HeadKeysOf(r: SpeechRequest, cfg: VendorSettings)
    ensures Keys(HeadFields(r, cfg)) == HeadKeys
  {
  }

  lemma TailKeysOf(r: SpeechRequest, cfg: VendorSettings)
    ensures Keys(TailFields(r, cfg)) == TailKeys
  {
  }

  /** In a form with keys ks, a key found only at index i has the one value appended there. */
  lemma ValuesAt(f: Form, ks: seq<string>, key: string, i: nat)
    requires Keys(f) == ks && i < |ks| && ks[i] == key
    requires key !in ks[..i] && key !in ks[i + 1..]
    ensures Values(f, key) == [f[i].1]
  {
    assert Keys(f[..i]) == ks[..i];
    assert Keys(f[i + 1..]) == ks[i + 1..];
    ValuesSingle(f, key, i);
  }

  /** A key of the first nine fields, at index i, that no other field has, has its one value. */
  lemma HeadValue(r: SpeechRequest, cfg: VendorSettings, key: string, i: nat)
    requires i < 9 && HeadKeys[i] == key
    requires key !in HeadKeys[..i] && key !in HeadKeys[i + 1..]
    requires key != "emotion" && key !in TailKeys
    ensures Values(Payload(r, cfg), key) == [HeadFields(r, cfg)[i].1]
  {
    HeadKeysOf(r, cfg);
    TailKeysOf(r, cfg);
    PayloadParts(r, cfg, key);
    ValuesAt(HeadFields(r, cfg), HeadKeys, key, i);
    ValuesAbsent(TailFields(r, cfg), key);
  }

  /** A key of the last six fields, at index i, that no other field has, has its one value. */
  lemma TailValue(r: SpeechRequest, cfg: VendorSettings, key: string, i: nat)
    requires i < 6 && TailKeys[i] == key
    requires key !in TailKeys[..i] && key !in TailKeys[i + 1..]
    requires key != "emotion" && key !in HeadKeys
    ensures Values(Payload(r, cfg), key) == [TailFields(r, cfg)[i].1]
  {
    HeadKeysOf(r, cfg);
    TailKeysOf(r, cfg);
    PayloadParts(r, cfg, key);
    ValuesAt(TailFields(r, cfg), TailKeys, key, i);
    ValuesAbsent(HeadFields(r, cfg), key);
  }

  /** The vendor always receives format=mp3, whatever format the caller asked for. */
  lemma PayloadFormat(r: SpeechRequest, cfg: VendorSettings)
    ensures Values(Payload(r, cfg), "format") == ["mp3"]
  {
    HeadValue(r, cfg, "format", 7);
  }

  /** The voice is translated through the table, or passed through when unknown. */
  lemma PayloadVoice(r: SpeechRequest, cfg: VendorSettings)
    ensures Values(Payload(r, cfg), "voice") == [MapVoice(r.voice)]
  {
    HeadValue(r, cfg, "voice", 8);
  }

  /** The full text is sent once. */
  lemma PayloadText(r: SpeechRequest, cfg: VendorSettings)
    ensures Values(Payload(r, cfg), "text") == [r.text]
  {
    HeadValue(r, cfg, "text", 4);
  }

  /** The title is sent once: the text's 50-unit prefix, with "..." when it was cut. */
  lemma PayloadTitle(r: SpeechRequest, cfg: VendorSettings)
    ensures Values(Payload(r, cfg), "title") == [Title(r.text)]
  {
    TailValue(r, cfg, "title", 3);
  }

  /** An emotion pair is appended exactly when the emotion is truthy. */
  lemma PayloadEmotion(r: SpeechRequest, cfg: VendorSettings)
    ensures Values(Payload(r, cfg), "emotion") == if Truthy(r.emotion) then [r.emotion.value] else []
  {
    PayloadParts(r, cfg, "emotion");
    HeadKeysOf(r, cfg);
    TailKeysOf(r, cfg);
    ValuesAbsent(HeadFields(r, cfg), "emotion");
    ValuesAbsent(TailFields(r, cfg), "emotion");
    if Truthy(r.emotion) {
      ValuesSingle(EmotionField(r), "emotion", 0);
    } else {
      ValuesAbsent(EmotionField(r), "emotion");
    }
  }

  /** speech_rate carries the decimal rendering of the computed rate, which reads back as that rate. */
  lemma PayloadRate(r: SpeechRequest, cfg: VendorSettings)
    ensures Values(Payload(r, cfg), "speech_rate") == [NatToDecimal(SpeechRate.Rate(r.speed.value))]
    ensures ParseDecimal(Values(Payload(r, cfg), "speech_rate")[0]) == SpeechRate.Rate(r.speed.value)
  {
    TailValue(r, cfg, "speech_rate", 1);
    DecimalRoundTrip(SpeechRate.Rate(r.speed.value));
  }

  /** The key order does not depend on the request, apart from the optional emotion. */
  lemma PayloadKeys(r: SpeechRequest, cfg: VendorSettings)
    ensures Keys(Payload(r, cfg)) ==
      ["client", "source", "soft_version", "device_id", "text", "bgid", "bg_volume", "format", "voice"]
      + (if Truthy(r.emotion) then ["emotion"] else [])
      + ["volume", "speech_rate", "pitch_rate", "title", "token", "bg_url"]
  {
  }

  /**
   * `emotion || 'none'` in the cache key: a request whose emotion is the string "none" and one
   * without an emotion share a cache entry, although the vendor receives different forms for them.
   */
  lemma NoneEmotionSharesKey(r: SpeechRequest, cfg: VendorSettings)
    ensures CacheKey(r.(emotion := Some("none"))) == CacheKey(r.(emotion := None))
    ensures Payload(r.(emotion := Some("none")), cfg) != Payload(r.(emotion := None), cfg)
  {
    var withNone, without := r.(emotion := Some("none")), r.(emotion := None);
    assert |Payload(withNone, cfg)| == 16 && |Payload(without, cfg)| == 15;
  }
}
