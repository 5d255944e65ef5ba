/**
 * Export settings: the values the user supplies for an export, the checking
 * that turns them into settings FFmpeg accepts (`_normalize_export_settings`),
 * and the encoder arguments built from checked settings
 * (`_build_output_encode_args`).
 */
module Settings {
  import opened Results
  import opened PyValues

  /** The fields of a caller's `ExportSettings`, as untyped values. */
  datatype SettingsInput = SettingsInput(
    width: Json,
    height: Json,
    videoCodec: Json,
    crf: Json,
    audioCodec: Json,
    audioBitrate: Json,
    format: Json,
    preset: Json)

  /** Settings after checking. */
  datatype ExportSettings = ExportSettings(
    width: int,
    height: int,
    videoCodec: string,
    crf: int,
    audioCodec: string,
    audioBitrate: string,
    format: string,
    preset: string)

  /** `ExportSettings()` with no arguments. */
  const DefaultInput: SettingsInput :=
    SettingsInput(JInt(0), JInt(0), JStr("libx264"), JInt(23), JStr("aac"), JStr("192k"), JStr("mp4"), JStr("medium"))

  const Formats: set<string> := {"mp4", "mov", "webm"}
  const X26xCodecs: set<string> := {"libx264", "libx265"}
  const Presets: set<string> :=
    {"ultrafast", "superfast", "veryfast", "faster", "fast", "medium", "slow", "slower", "veryslow"}

  /** `^\d+(?:k|m)$` on lower-case text: digits, then `k` or `m`. */
  predicate IsBitrate(s: string) {
    |s| >= 2 && AllDigits(s[..|s| - 1]) && (s[|s| - 1] == 'k' || s[|s| - 1] == 'm')
  }

  /** `str(v or default).strip().lower()` */
  function Text(v: Json, default: string): string {
    Lower(Strip(PyStr(Or(v, JStr(default)))))
  }

  /** `max(0, int(v or 0))`, and 0 where `int()` raises. */
  function Dimension(v: Json): (n: int)
    ensures n >= 0
  {
    match PyInt(Or(v, JInt(0)))
    case Some(k) => if k > 0 then k else 0
    case None => 0
  }

  /** `max(0, min(51, int(v if v is not None else 23)))`, and 23 where `int()` raises. */
  function Crf(v: Json): (n: int)
    ensures 0 <= n <= 51
    ensures v == JNull ==> n == 23
  {
    match PyInt(if v == JNull then JInt(23) else v)
    case Some(k) => if k < 0 then 0 else if k > 51 then 51 else k
    case None => 23
  }

  /** The container: `format` when whitelisted, else mp4. */
  function FormatOf(v: Json): (f: string)
    ensures f in Formats
    ensures Text(v, "mp4") in Formats ==> f == Text(v, "mp4")
    ensures Text(v, "mp4") !in Formats ==> f == "mp4"
  {
    var t := Text(v, "mp4");
    if t in Formats then t else "mp4"
  }

  /** The x264/x265 preset: `preset` when known, else medium. */
  function PresetOf(v: Json): (p: string)
    ensures p in Presets
    ensures Text(v, "medium") in Presets ==> p == Text(v, "medium")
    ensures Text(v, "medium") !in Presets ==> p == "medium"
  {
    var t := Text(v, "medium");
    if t in Presets then t else "medium"
  }

  /** The audio bitrate: `audio_bitrate` when well formed, else 192k. */
  function BitrateOf(v: Json): (b: string)
    ensures IsBitrate(b)
    ensures IsBitrate(Text(v, "192k")) ==> b == Text(v, "192k")
    ensures !IsBitrate(Text(v, "192k")) ==> b == "192k"
  {
    var t := Text(v, "192k");
    DefaultBitrateWellFormed();
    if IsBitrate(t) then t else "192k"
  }

  /** The fallback 192k is itself a well-formed bitrate. */
  lemma DefaultBitrateWellFormed()
    ensures IsBitrate("192k")
  {
    assert "192k"[..3] == "192";
  }

  /** The video codec: VP9 for WebM, else x264 or x265 as asked (x264 otherwise). */
  function VideoCodecOf(format: string, v: Json): (c: string)
    ensures format == "webm" ==> c == "libvpx-vp9"
    ensures format != "webm" ==> c in X26xCodecs
    ensures format != "webm" && Text(v, "libx264") in X26xCodecs ==> c == Text(v, "libx264")
    ensures format != "webm" && Text(v, "libx264") !in X26xCodecs ==> c == "libx264"
  {
    if format == "webm" then "libvpx-vp9"
    else
      var t := Text(v, "libx264");
      if t in X26xCodecs then t else "libx264"
  }

  /** What every checked setting satisfies. */
  predicate Normalized(s: ExportSettings) {
    && s.format in Formats
    && ((s.width > 0 && s.height > 0) || (s.width == 0 && s.height == 0))
    && 0 <= s.crf <= 51
    && s.preset in Presets
    && IsBitrate(s.audioBitrate)
    && (s.format == "webm" ==> s.videoCodec == "libvpx-vp9" && s.audioCodec == "libopus")
    && (s.format != "webm" ==> s.videoCodec in X26xCodecs && s.audioCodec == "aac")
  }

  /**
   * `_normalize_export_settings`: a container outside the whitelist becomes
   * mp4; a size is kept only when both sides are positive; CRF is clamped to
   * [0, 51]; an unknown preset becomes medium; a malformed audio bitrate
   * becomes 192k; WebM forces VP9 and Opus, other containers keep x264 or x265
   * (else x264) with AAC.
   */
  function Normalize(given: Option<SettingsInput>): (s: ExportSettings)
    ensures Normalized(s)
    ensures var raw := if given.Some? then given.value else DefaultInput;
      && s.format == FormatOf(raw.format)
      && s.preset == PresetOf(raw.preset)
      && s.audioBitrate == BitrateOf(raw.audioBitrate)
      && s.crf == Crf(raw.crf)
      && (Dimension(raw.width) > 0 && Dimension(raw.height) > 0 ==>
            s.width == Dimension(raw.width) && s.height == Dimension(raw.height))
      && (!(Dimension(raw.width) > 0 && Dimension(raw.height) > 0) ==> s.width == 0 && s.height == 0)
      && s.videoCodec == VideoCodecOf(s.format, raw.videoCodec)
      && s.audioCodec == (if s.format == "webm" then "libopus" else "aac")
  {
    var raw := if given.Some? then given.value else DefaultInput;
    var fmt := FormatOf(raw.format);
    var w := Dimension(raw.width);
    var h := Dimension(raw.height);
    var sized := w > 0 && h > 0;
    ExportSettings(
      if sized then w else 0,
      if sized then h else 0,
      VideoCodecOf(fmt, raw.videoCodec),
      Crf(raw.crf),
      if fmt == "webm" then "libopus" else "aac",
      BitrateOf(raw.audioBitrate),
      fmt,
      PresetOf(raw.preset))
  }

  /** Checked settings written back as a caller's settings (`to_dict` then `from_dict`). */
  function AsInput(s: ExportSettings): SettingsInput {
    SettingsInput(
      JInt(s.width), JInt(s.height), JStr(s.videoCodec), JInt(s.crf),
      JStr(s.audioCodec), JStr(s.audioBitrate), JStr(s.format), JStr(s.preset))
  }

  /** Lower-case letters, digits and `-`: the alphabet of every whitelisted name. */
  predicate Plain(s: string) {
    forall k :: 0 <= k < |s| ==> ('a' <= s[k] <= 'z' || IsDigit(s[k]) || s[k] == '-')
  }

  /** Plain text passes through `Text` unchanged. */
  lemma TextKeeps(s: string, default: string)
    requires s != [] && Plain(s)
    ensures Text(JStr(s), default) == s
  {
    assert !IsSpace(s[0]) && !IsSpace(s[|s| - 1]);
    LowerIdentity(s);
  }

  lemma WhitelistsArePlain()
    ensures forall f :: f in Formats ==> f != [] && Plain(f)
    ensures forall p :: p in Presets ==> p != [] && Plain(p)
    ensures forall c :: c in X26xCodecs ==> c != [] && Plain(c)
  {
  }

  lemma BitrateIsPlain(s: string)
    requires IsBitrate(s)
    ensures s != [] && Plain(s)
  {
    assert forall k :: 0 <= k < |s| - 1 ==> s[k] == s[..|s| - 1][k];
  }

  lemma FormatReadsBack(f: string)
    requires f in Formats
    ensures FormatOf(JStr(f)) == f
  {
    WhitelistsArePlain();
    TextKeeps(f, "mp4");
  }

  lemma PresetReadsBack(p: string)
    requires p in Presets
    ensures PresetOf(JStr(p)) == p
  {
    WhitelistsArePlain();
    TextKeeps(p, "medium");
  }

  lemma BitrateReadsBack(b: string)
    requires IsBitrate(b)
    ensures BitrateOf(JStr(b)) == b
  {
    BitrateIsPlain(b);
    TextKeeps(b, "192k");
  }

  lemma CodecReadsBack(format: string, c: string)
    requires format != "webm" ==> c in X26xCodecs
    ensures format != "webm" ==> VideoCodecOf(format, JStr(c)) == c
  {
    if format != "webm" {
      WhitelistsArePlain();
      TextKeeps(c, "libx264");
    }
  }

  lemma NumbersReadBack(crf: int, w: int)
    requires 0 <= crf <= 51 && w >= 0
    ensures Crf(JInt(crf)) == crf
    ensures Dimension(JInt(w)) == w
  {
    assert PyInt(JInt(crf)) == Some(crf);
    if w > 0 {
      assert Or(JInt(w), JInt(0)) == JInt(w);
    } else {
      assert Or(JInt(w), JInt(0)) == JInt(0);
    }
  }

  /** Each field of checked settings reads back as itself. */
  lemma FieldsReadBack(s: ExportSettings)
    requires Normalized(s)
    ensures FormatOf(JStr(s.format)) == s.format
    ensures PresetOf(JStr(s.preset)) == s.preset
    ensures BitrateOf(JStr(s.audioBitrate)) == s.audioBitrate
    ensures VideoCodecOf(s.format, JStr(s.videoCodec)) == s.videoCodec
    ensures Crf(JInt(s.crf)) == s.crf
    ensures Dimension(JInt(s.width)) == s.width && Dimension(JInt(s.height)) == s.height
  {
    FormatReadsBack(s.format);
    PresetReadsBack(s.preset);
    BitrateReadsBack(s.audioBitrate);
    CodecReadsBack(s.format, s.videoCodec);
    NumbersReadBack(s.crf, s.width);
    NumbersReadBack(s.crf, s.height);
  }

  /** Checking settings that are already checked changes nothing. */
  lemma NormalizeIdempotent(given: Option<SettingsInput>)
    ensures Normalize(Some(AsInput(Normalize(given)))) == Normalize(given)
  {
    var s := Normalize(given);
    FieldsReadBack(s);
    var t := Normalize(Some(AsInput(s)));
    assert t.format == s.format;
    assert t.videoCodec == s.videoCodec;
    assert t.audioCodec == s.audioCodec;
  }

  /** A WebM export always encodes VP9 video and Opus audio, whatever codecs were asked for. */
  lemma WebmForcesCodecs(raw: SettingsInput)
    requires Text(raw.format, "mp4") == "webm"
    ensures Normalize(Some(raw)).videoCodec == "libvpx-vp9"
    ensures Normalize(Some(raw)).audioCodec == "libopus"
    ensures Normalize(Some(raw)).format == "webm"
  {
  }

  // ---------------------------------------------------------------------------
  // Encoder arguments

  /** The rate-control arguments of a codec. */
  function QualityArgs(s: ExportSettings): seq<string> {
    if s.videoCodec in X26xCodecs then ["-crf", IntToDecimal(s.crf), "-preset", s.preset]
    else if s.videoCodec == "libvpx-vp9" then ["-crf", IntToDecimal(s.crf), "-b:v", "0"]
    else []
  }

  /** The container arguments: fast start for MP4 and MOV. */
  function ContainerArgs(s: ExportSettings): seq<string> {
    if s.format == "mp4" || s.format == "mov" then ["-movflags", "+faststart"] else []
  }

  /** `_build_output_encode_args` */
  function EncodeArgs(s: ExportSettings): (args: seq<string>)
    ensures |args| >= 10
    ensures args[..2] == ["-c:v", s.videoCodec]
    ensures args[|args| - 2..] == ["-f", s.format]
  {
    ["-c:v", s.videoCodec] + QualityArgs(s)
      + ["-pix_fmt", "yuv420p", "-c:a", s.audioCodec, "-b:a", s.audioBitrate]
      + ContainerArgs(s) + ["-f", s.format]
  }

  /**
   * For checked settings: the arguments start with the video codec and end with
   * the container; CRF and preset follow the codec for x264/x265, CRF and an
   * unconstrained bitrate for VP9; the audio codec and bitrate come next; fast
   * start is present exactly for MP4 and MOV.
   */
  lemma EncodeArgsLayout(s: ExportSettings)
    requires Normalized(s)
    ensures var args := EncodeArgs(s);
      && args[0] == "-c:v" && args[1] == s.videoCodec
      && args[2] == "-crf" && args[3] == IntToDecimal(s.crf)
      && (s.format != "webm" ==> args[4] == "-preset" && args[5] == s.preset)
      && (s.format == "webm" ==> args[4] == "-b:v" && args[5] == "0")
      && args[6..12] == ["-pix_fmt", "yuv420p", "-c:a", s.audioCodec, "-b:a", s.audioBitrate]
      && (s.format != "webm" <==> (|args| == 16 && args[12] == "-movflags" && args[13] == "+faststart"))
      && (s.format == "webm" ==> |args| == 14)
      && args[|args| - 2] == "-f" && args[|args| - 1] == s.format
  {
  }
}
