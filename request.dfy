/**
 * The request that one run of the pipeline fulfils, and the cache key derived from it.
 */
module Request {
  import opened Wrappers
  import opened Text

  /**
   * A speed as the caller sent it: its numeric value (used for the rate) and its
   * template rendering `${speed}` (used in the cache key).
   */
  datatype Speed = Speed(value: real, literal: string)

  /** The default speed 1.0, which a JavaScript template renders as "1". */
  const DefaultSpeed := Speed(1.0, "1")

  datatype SpeechRequest = SpeechRequest(
    text: string, voice: string, speed: Speed, emotion: Option<string>, format: string, isDemo: bool)

  /** JavaScript truthiness of an optional string: present and non-empty. */
  predicate Truthy(s: Option<string>) {
    s.Some? && s.value != ""
  }

  /** `emotion || 'none'`. */
  function EmotionOrNone(emotion: Option<string>): (r: string)
    ensures Truthy(emotion) ==> r == emotion.value
    ensures !Truthy(emotion) ==> r == "none"
  {
    if Truthy(emotion) then emotion.value else "none"
  }

  /** Number of text code units that enter the cache key. */
  const KeyTextLength: nat := 100

  /** Everything of the key that precedes the text. */
  function KeyHead(r: SpeechRequest): string {
    (if r.isDemo then "demo_" else "") + r.voice + "_" + r.speed.literal + "_" +
    EmotionOrNone(r.emotion) + "_" + r.format + "_"
  }

  /** The cache key built both before the lookup and before the store. */
  function CacheKey(r: SpeechRequest): string {
    KeyHead(r) + Prefix(r.text, KeyTextLength)
  }

  /** Two requests that differ only in their text share a key exactly when their first 100 code units agree. */
  lemma KeyDependsOnTextPrefix(r: SpeechRequest, text: string)
    ensures CacheKey(r) == CacheKey(r.(text := text)) <==> Prefix(r.text, KeyTextLength) == Prefix(text, KeyTextLength)
  {
    var h := KeyHead(r);
    assert KeyHead(r.(text := text)) == h;
    if CacheKey(r) == CacheKey(r.(text := text)) {
      assert Prefix(r.text, KeyTextLength) == (h + Prefix(r.text, KeyTextLength))[|h|..];
      assert Prefix(text, KeyTextLength) == (h + Prefix(text, KeyTextLength))[|h|..];
    }
  }

  /** Texts longer than 100 code units that share their first 100 collide in the cache. */
  lemma LongTextsCollide(r: SpeechRequest, suffix: string)
    requires |r.text| >= KeyTextLength
    ensures CacheKey(r.(text := r.text + suffix)) == CacheKey(r)
  {
    assert (r.text + suffix)[..KeyTextLength] == r.text[..KeyTextLength];
  }

  /** The demo endpoint's keys are the ordinary keys under the "demo_" namespace. */
  lemma DemoNamespace(r: SpeechRequest)
    ensures CacheKey(r.(isDemo := true)) == "demo_" + CacheKey(r.(isDemo := false))
  {
  }
}
