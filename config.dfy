/**
 * The default configuration of the proxy: the values every setting takes when
 * its environment variable is not set, and the static voice and format tables.
 */
module Config {
  import opened Wrappers

  /** Upstream call timeout in milliseconds (`targetApi.timeout`). */
  const DefaultTimeoutMs: nat := 30000
  /** Extra submission attempts after the first failure (`targetApi.retryCount`). */
  const DefaultRetryCount: nat := 2
  /** Cache entry lifetime in seconds (`cache.ttl`). */
  const DefaultCacheTtlSeconds: nat := 3600
  /** Maximum number of cache entries (`cache.maxSize`). */
  const DefaultCacheMaxSize: int := 1000

  /** A feature flag read from the environment is on only when it is exactly the string "true". */
  predicate FlagEnabled(env: Option<string>) {
    env == Some("true")
  }

  /** The vendor form fields that come from configuration (`targetApi.hudunsoft`). */
  datatype VendorSettings = VendorSettings(
    client: string, source: string, softVersion: string, deviceId: string, token: string,
    bgId: string, bgVolume: string, volume: string, pitchRate: string, bgUrl: string)

  const DefaultVendor := VendorSettings(
    "web", "335", "V4.4.0.0", "e97be36a465f47e18bd2853a985374d4", "e97be36a465f47e18bd2853a985374d4",
    "0", "5", "5", "5", "")

  /** OpenAI voice name to vendor voice id. */
  const VoiceMapping: map<string, string> := map[
    "alloy" := "voice1", "echo" := "voice2", "fable" := "voice3", "onyx" := "voice4",
    "nova" := "voice5", "shimmer" := "voice6", "ash" := "voice6", "ballad" := "voice6",
    "coral" := "voice6", "sage" := "voice6", "verse" := "voice6", "marin" := "voice6",
    "cedar" := "voice6"]

  /** Container name to MIME type. */
  const FormatMapping: map<string, string> := map[
    "mp3" := "audio/mpeg", "opus" := "audio/opus", "aac" := "audio/aac",
    "flac" := "audio/flac", "wav" := "audio/wav", "amr" := "audio/amr"]

  /** `voiceMapping[voice] || voice`: a known name is translated, anything else passes through. */
  function MapVoice(voice: string): (id: string)
    ensures voice in VoiceMapping ==> id == VoiceMapping[voice]
    ensures voice !in VoiceMapping ==> id == voice
  {
    if voice in VoiceMapping && VoiceMapping[voice] != "" then VoiceMapping[voice] else voice
  }

  /** `formatMapping[format] || 'audio/mpeg'`: the Content-Type of a reply. */
  function MimeType(format: string): (mime: string)
    ensures format in FormatMapping ==> mime == FormatMapping[format]
    ensures format !in FormatMapping ==> mime == "audio/mpeg"
  {
    if format in FormatMapping && FormatMapping[format] != "" then FormatMapping[format] else "audio/mpeg"
  }

  lemma FormatMappingKeys()
    ensures FormatMapping.Keys == {"mp3", "opus", "aac", "flac", "wav", "amr"}
    ensures MimeType("mp3") == "audio/mpeg" && MimeType("opus") == "audio/opus"
    ensures MimeType("aac") == "audio/aac" && MimeType("flac") == "audio/flac"
    ensures MimeType("wav") == "audio/wav" && MimeType("amr") == "audio/amr"
  {
  }

  /** The 13 OpenAI voice names the table knows. */
  const OpenAiVoices: seq<string> := ["alloy", "echo", "fable", "onyx", "nova", "shimmer", "ash", "ballad",
                                      "coral", "sage", "verse", "marin", "cedar"]

  lemma VoiceMappingKeys()
    ensures VoiceMapping.Keys == set v | v in OpenAiVoices
    ensures forall v :: v in VoiceMapping ==> MapVoice(v) != ""
  {
  }

  lemma VoiceMappingIds()
    ensures MapVoice("alloy") == "voice1" && MapVoice("echo") == "voice2" && MapVoice("fable") == "voice3"
    ensures MapVoice("onyx") == "voice4" && MapVoice("nova") == "voice5"
  {
  }

  lemma VoiceMappingShared()
    ensures forall i :: 5 <= i < |OpenAiVoices| ==> MapVoice(OpenAiVoices[i]) == "voice6"
  {
  }

  lemma DefaultsSane()
    ensures DefaultRetryCount == 2 && DefaultTimeoutMs == 30000
    ensures DefaultCacheTtlSeconds == 3600 && DefaultCacheMaxSize == 1000 && DefaultCacheMaxSize >= 1
    ensures !FlagEnabled(None) && !FlagEnabled(Some("TRUE")) && !FlagEnabled(Some("1")) && FlagEnabled(Some("true"))
  {
  }
}
