/**
 * The conversion decision for the two targets the proxy transcodes to (AMR and
 * Opus), based on the file extension of the submission's file link, and the
 * fixed encoder settings per target. The codec engine itself is an oracle.
 */
module Transcode {
  import opened Wrappers
  import opened Text
  import opened Request
  import opened Upstream

  type Audio = seq<bv8>

  datatype Target = Amr | Opus

  function TargetName(t: Target): string {
    match t
    case Amr => "amr"
    case Opus => "opus"
  }

  /** The bytes the engine produces for a target, or None when it fails. */
  type Converter = (Audio, Target) -> Option<Audio>

  /** Fixed encoder parameters per target, independent of the source audio. */
  datatype EncoderSettings = EncoderSettings(bitrate: string, channels: nat, sampleRateHz: nat, variableBitrate: bool)

  function Settings(t: Target): EncoderSettings {
    match t
    case Amr => EncoderSettings("12.2k", 1, 8000, false)
    case Opus => EncoderSettings("16k", 1, 16000, true)
  }

  lemma SettingsTable()
    ensures forall t: Target :: Settings(t).channels == 1
    ensures Settings(Amr) == EncoderSettings("12.2k", 1, 8000, false)
    ensures Settings(Opus) == EncoderSettings("16k", 1, 16000, true)
  {
  }

  function DropTrailingSlashes(p: string): (r: string)
    ensures r <= p
    ensures |r| > 0 ==> r[|r| - 1] != '/'
  {
    if |p| > 0 && p[|p| - 1] == '/' then DropTrailingSlashes(p[..|p| - 1]) else p
  }

  /** Node's `path.posix.extname`: from the last dot of the last segment, unless that dot begins it. */
  function Extname(p: string): (ext: string)
    ensures ext == "" || ext[0] == '.'
  {
    BaseExtension(Basename(p))
  }

  /** The last path segment, trailing slashes ignored. */
  function Basename(p: string): string {
    var trimmed := DropTrailingSlashes(p);
    trimmed[LastIndexOf(trimmed, '/') + 1..]
  }

  /** The extension of one segment: from its last dot, unless that dot begins it or the segment is "..". */
  function BaseExtension(base: string): (ext: string)
    ensures ext == "" || ext[0] == '.'
  {
    var dot := LastIndexOf(base, '.');
    if dot <= 0 || base == ".." then "" else base[dot..]
  }

  /** `path.extname(url.split('?')[0]).toLowerCase().replace('.', '')`. */
  function Extension(url: string): string {
    RemoveFirst(AsciiLower(Extname(Split(url, '?')[0])), '.')
  }

  /** The extname of dir/name.ext is ".ext" when name is non-empty and ext has no dot or slash. */
  lemma ExtnameOfLink(dir: string, name: string, ext: string)
    requires name != "" && '/' !in name && ext != "" && '.' !in ext && '/' !in ext
    ensures Extname(dir + "/" + name + "." + ext) == "." + ext
  {
    var base := name + "." + ext;
    assert dir + "/" + name + "." + ext == dir + "/" + base;
    BasenameOf(dir, base);
    BaseExtensionOf(name, ext);
  }

  lemma BasenameOf(dir: string, base: string)
    requires base != "" && '/' !in base
    ensures Basename(dir + "/" + base) == base
  {
    var path := dir + "/" + base;
    assert path[|path| - 1] == base[|base| - 1];
    assert DropTrailingSlashes(path) == path;
    LastSlash(dir, base);
  }

  lemma BaseExtensionOf(name: string, ext: string)
    requires name != "" && ext != "" && '.' !in ext
    ensures BaseExtension(name + "." + ext) == "." + ext
  {
    LastDot(name, ext);
    DottedSuffix(name, ext);
    assert |name + "." + ext| != 2;
  }

  lemma DottedSuffix(name: string, ext: string)
    ensures (name + "." + ext)[|name|..] == "." + ext
  {
  }

  lemma LowerDotted(ext: string)
    ensures RemoveFirst(AsciiLower("." + ext), '.') == AsciiLower(ext)
  {
    var lowered := AsciiLower("." + ext);
    assert lowered[0] == '.';
    assert lowered[1..] == AsciiLower(ext);
  }

  /** A link whose last segment is name.ext, optionally followed by a query, has extension ext in lower case. */
  lemma ExtensionOfLink(dir: string, name: string, ext: string, query: string)
    requires name != "" && '/' !in name && '?' !in name && '?' !in dir
    requires ext != "" && '.' !in ext && '/' !in ext && '?' !in ext
    requires query == "" || query[0] == '?'
    ensures Extension(dir + "/" + name + "." + ext + query) == AsciiLower(ext)
  {
    var path := dir + "/" + name + "." + ext;
    assert '?' !in path;
    SplitHead(path, '?', query);
    ExtnameOfLink(dir, name, ext);
    LowerDotted(ext);
  }

  lemma LastSlash(dir: string, base: string)
    requires '/' !in base
    ensures LastIndexOf(dir + "/" + base, '/') == |dir|
    decreases |base|
  {
    var s := dir + "/" + base;
    if |base| == 0 {
      assert s[|s| - 1] == '/';
    } else {
      assert s[|s| - 1] == base[|base| - 1] != '/';
      assert s[..|s| - 1] == dir + "/" + base[..|base| - 1];
      LastSlash(dir, base[..|base| - 1]);
    }
  }

  lemma LastDot(name: string, ext: string)
    requires '.' !in ext
    ensures LastIndexOf(name + "." + ext, '.') == |name|
    decreases |ext|
  {
    var s := name + "." + ext;
    if |ext| == 0 {
      assert s[|s| - 1] == '.';
    } else {
      assert s[|s| - 1] == ext[|ext| - 1] != '.';
      assert s[..|s| - 1] == name + "." + ext[..|ext| - 1];
      LastDot(name, ext[..|ext| - 1]);
    }
  }

  /** Conversion is skipped only when the submission's own file link already has the target's extension. */
  predicate NeedsConversion(t: Target, submission: SubmitResponse) {
    !(submission.data.Some? && Truthy(submission.data.value.fileLink) &&
      Extension(submission.data.value.fileLink.value) == TargetName(t))
  }

  /**
   * One of the two format blocks: when t is the requested format and the submission link does
   * not already have its extension, attempt the conversion; keep the audio if it fails.
   */
  function ConvertStep(audio: Audio, attempted: seq<Target>, format: string, t: Target,
                       submission: SubmitResponse, convert: Converter): (Audio, seq<Target>)
  {
    if format == TargetName(t) && NeedsConversion(t, submission) then
      match convert(audio, t)
      case Some(converted) => (converted, attempted + [t])
      case None => (audio, attempted + [t])
    else (audio, attempted)
  }

  /** audioData after the amr block and then the opus block, and the conversions attempted. */
  function Transcoded(audio: Audio, format: string, submission: SubmitResponse, convert: Converter)
    : (Audio, seq<Target>)
  {
    var afterAmr := ConvertStep(audio, [], format, Amr, submission, convert);
    ConvertStep(afterAmr.0, afterAmr.1, format, Opus, submission, convert)
  }

  /** Formats other than amr and opus are never converted. */
  lemma OnlyAmrAndOpus(audio: Audio, format: string, submission: SubmitResponse, convert: Converter)
    requires format != "amr" && format != "opus"
    ensures Transcoded(audio, format, submission, convert) == (audio, [])
  {
  }

  /** A failing engine leaves the downloaded bytes in place; a working one replaces them. */
  lemma ConversionFallback(audio: Audio, t: Target, submission: SubmitResponse, convert: Converter)
    requires NeedsConversion(t, submission)
    ensures convert(audio, t).None? ==> Transcoded(audio, TargetName(t), submission, convert) == (audio, [t])
    ensures convert(audio, t).Some? ==>
      Transcoded(audio, TargetName(t), submission, convert) == (convert(audio, t).value, [t])
  {
    assert [] + [t] == [t];
  }

  /** A submission without a file link (the polled path) always converts, whatever link the task yields. */
  lemma PolledAlwaysConverts(t: Target, submission: SubmitResponse)
    requires submission.data.None? || !Truthy(submission.data.value.fileLink)
    ensures NeedsConversion(t, submission)
  {
  }

  /** A submission link ending in the target's extension, in any letter case, skips conversion. */
  lemma MatchingLinkSkips(audio: Audio, t: Target, taskId: Option<string>, dir: string, name: string,
                          ext: string, convert: Converter)
    requires name != "" && '/' !in name && '?' !in name && '?' !in dir
    requires '.' !in ext && '/' !in ext && '?' !in ext && AsciiLower(ext) == TargetName(t)
    ensures var link := dir + "/" + name + "." + ext;
      var submission := SubmitResponse(Num(0), Some(SubmitData(Some(link), taskId)));
      Transcoded(audio, TargetName(t), submission, convert) == (audio, [])
  {
    var link := dir + "/" + name + "." + ext;
    assert |AsciiLower(ext)| == |ext| > 0;
    ExtensionOfLink(dir, name, ext, "");
    assert link + "" == link;
    assert Truthy(Some(link));
  }
}
