/**
 * The edit-decision-list values of the editor: a clip is an in/out range of one
 * source file, a project holds a video lane (V1) and an audio lane (A1), and
 * both serialise to plain dictionaries. Tracks and the transition lookup are
 * the shapes the export compiler reads.
 */
module Model {
  import opened Results
  import opened PyValues

  /**
   * A non-destructive segment `[inSec, outSec]` of the source file `src`.
   * `hasAudio` is the optional `has_audio` attribute the export reads with a
   * default of True; the dataclass neither declares nor serialises it.
   */
  datatype Clip = Clip(
    id: string,
    src: string,
    inSec: real,
    outSec: real,
    volume: real,
    muted: bool,
    hasAudio: bool)

  /** A clip with the dataclass defaults: unit volume, not muted, with audio. */
  function NewClip(id: string, src: string, inSec: real, outSec: real): Clip {
    Clip(id, src, inSec, outSec, 1.0, false, true)
  }

  /** `Clip.dur`: the length of the range, never negative. */
  function Dur(c: Clip): (d: real)
    ensures d >= 0.0
    ensures d >= c.outSec - c.inSec
    ensures d == c.outSec - c.inSec || d == 0.0
  {
    if c.outSec - c.inSec > 0.0 then c.outSec - c.inSec else 0.0
  }

  // ---------------------------------------------------------------------------
  // Serialisation

  datatype DecodeError =
    | NotAMapping
    | NotIterable
    | MissingKey(key: string)
    | BadValue(key: string)

  /** `Clip.to_dict()` (`dataclasses.asdict` over the six declared fields). */
  function ClipToDict(c: Clip): map<string, Json> {
    map[
      "id" := JStr(c.id),
      "src" := JStr(c.src),
      "in_sec" := JNum(c.inSec),
      "out_sec" := JNum(c.outSec),
      "volume" := JNum(c.volume),
      "muted" := JBool(c.muted)
    ]
  }

  /** `float(v)` of a value read from key `key`. */
  function FloatValue(v: Json, key: string): (r: Result<real, DecodeError>)
    ensures r.Ok? <==> PyFloat(v).Some?
    ensures r.Ok? ==> r.value == PyFloat(v).value
  {
    match PyFloat(v)
    case Some(x) => Ok(x)
    case None => Err(BadValue(key))
  }

  /** `float(d[key])` */
  function FloatField(d: map<string, Json>, key: string): Result<real, DecodeError> {
    if key !in d then Err(MissingKey(key)) else FloatValue(d[key], key)
  }

  /** Whether `Clip.from_dict` accepts `j` without raising. */
  predicate Decodable(j: Json) {
    && j.JObj?
    && "id" in j.fields && "src" in j.fields
    && "in_sec" in j.fields && PyFloat(j.fields["in_sec"]).Some?
    && "out_sec" in j.fields && PyFloat(j.fields["out_sec"]).Some?
    && (Truthy(Get(j.fields, "volume", JNum(1.0))) ==> PyFloat(Get(j.fields, "volume", JNum(1.0))).Some?)
  }

  /**
   * `Clip.from_dict`: `id`/`src` through `str()`, the range through `float()`,
   * `volume` defaulting to 1.0 when missing or falsy, `muted` through
   * truthiness. `has_audio` is not read and takes its default.
   */
  function ClipFromDict(j: Json): (r: Result<Clip, DecodeError>)
    ensures r.Ok? <==> Decodable(j)
  {
    if !j.JObj? then Err(NotAMapping)
    else
      var d := j.fields;
      if "id" !in d then Err(MissingKey("id"))
      else if "src" !in d then Err(MissingKey("src"))
      else
        var inSec :- FloatField(d, "in_sec");
        var outSec :- FloatField(d, "out_sec");
        var vol := Get(d, "volume", JNum(1.0));
        var volume :- if Truthy(vol) then FloatValue(vol, "volume") else Ok(1.0);
        var muted := Truthy(Get(d, "muted", JBool(false)));
        Ok(Clip(PyStr(d["id"]), PyStr(d["src"]), inSec, outSec, volume, muted, true))
  }

  /** Missing or falsy `volume` reads as 1.0, missing `muted` as False, and `has_audio` as True. */
  lemma ClipFromDictDefaults(d: map<string, Json>)
    requires Decodable(JObj(d))
    ensures var c := ClipFromDict(JObj(d)).value;
      && (!Truthy(Get(d, "volume", JNum(1.0))) ==> c.volume == 1.0)
      && ("muted" !in d ==> !c.muted)
      && c.hasAudio
      && c.inSec == PyFloat(d["in_sec"]).value
      && c.outSec == PyFloat(d["out_sec"]).value
  {
  }

  /**
   * Reading back a written clip gives the clip again, except that a volume of
   * 0.0 (falsy) comes back as 1.0 and `has_audio` comes back as its default.
   */
  lemma ClipReload(c: Clip)
    ensures ClipFromDict(JObj(ClipToDict(c)))
      == Ok(c.(volume := if c.volume == 0.0 then 1.0 else c.volume, hasAudio := true))
  {
  }

  /** Round trip of a clip whose volume is not zero and which has audio. */
  lemma ClipRoundTrip(c: Clip)
    requires c.volume != 0.0 && c.hasAudio
    ensures ClipFromDict(JObj(ClipToDict(c))) == Ok(c)
  {
    ClipReload(c);
  }

  /** A project: the V1 and A1 lanes and the frame rate. */
  datatype Project = Project(vClips: seq<Clip>, aClips: seq<Clip>, fps: int)

  function ClipsToJson(cs: seq<Clip>): (r: seq<Json>)
    ensures |r| == |cs|
    ensures forall k :: 0 <= k < |cs| ==> r[k] == JObj(ClipToDict(cs[k]))
  {
    seq(|cs|, k requires 0 <= k < |cs| => JObj(ClipToDict(cs[k])))
  }

  /** `Project.to_dict()`: always the two-list shape. */
  function ProjectToDict(p: Project): map<string, Json> {
    map[
      "fps" := JInt(p.fps),
      "v_clips" := JArr(ClipsToJson(p.vClips)),
      "a_clips" := JArr(ClipsToJson(p.aClips))
    ]
  }

  /** `[Clip.from_dict(x) for x in xs]`: the first failing element raises. */
  function ClipsFromList(xs: seq<Json>): (r: Result<seq<Clip>, DecodeError>)
    ensures r.Ok? <==> forall k :: 0 <= k < |xs| ==> Decodable(xs[k])
    ensures r.Ok? ==> |r.value| == |xs|
    ensures r.Ok? ==> forall k :: 0 <= k < |xs| ==> r.value[k] == ClipFromDict(xs[k]).value
  {
    if xs == [] then Ok([])
    else
      var c :- ClipFromDict(xs[0]);
      var rest :- ClipsFromList(xs[1..]);
      assert forall k :: 1 <= k < |xs| ==> xs[k] == xs[1..][k - 1];
      Ok([c] + rest)
  }

  /**
   * Iterating a stored value in a list comprehension: a list yields its items;
   * an empty dict or string yields nothing; a non-empty dict or string yields
   * strings, on which `Clip.from_dict` raises; anything else is not iterable.
   */
  function ClipsFrom(j: Json): Result<seq<Clip>, DecodeError> {
    match j
    case JArr(xs) => ClipsFromList(xs)
    case JObj(m) => if m == map[] then Ok([]) else Err(NotAMapping)
    case JStr(s) => if s == [] then Ok([]) else Err(NotAMapping)
    case _ => Err(NotIterable)
  }

  /** `int(d.get("fps", 30))` */
  function FpsField(d: map<string, Json>): Result<int, DecodeError> {
    match PyInt(Get(d, "fps", JInt(30)))
    case Some(n) => Ok(n)
    case None => Err(BadValue("fps"))
  }

  /**
   * `Project.from_dict`: the two-list shape when `v_clips` or `a_clips` is
   * present (a missing list is empty); otherwise the legacy flat `clips` list
   * becomes V1 and A1 is empty.
   */
  function ProjectFromDict(d: map<string, Json>): (r: Result<Project, DecodeError>)
    ensures r.Ok? <==>
      && FpsField(d).Ok?
      && (if "v_clips" in d || "a_clips" in d
          then ClipsFrom(Get(d, "v_clips", JArr([]))).Ok? && ClipsFrom(Get(d, "a_clips", JArr([]))).Ok?
          else ClipsFrom(Get(d, "clips", JArr([]))).Ok?)
    ensures FpsField(d).Err? ==> r == Err(FpsField(d).error)
    ensures r.Ok? && "fps" in d ==> PyInt(d["fps"]) == Some(r.value.fps)
    ensures r.Ok? && "fps" !in d ==> r.value.fps == 30
    ensures r.Ok? && ("v_clips" in d || "a_clips" in d) ==>
      && ("v_clips" !in d ==> r.value.vClips == [])
      && ("a_clips" !in d ==> r.value.aClips == [])
      && ("v_clips" in d ==> ClipsFrom(d["v_clips"]) == Ok(r.value.vClips))
      && ("a_clips" in d ==> ClipsFrom(d["a_clips"]) == Ok(r.value.aClips))
    ensures r.Ok? && "v_clips" !in d && "a_clips" !in d ==>
      && r.value.aClips == []
      && ClipsFrom(Get(d, "clips", JArr([]))) == Ok(r.value.vClips)
  {
    var fps :- FpsField(d);
    if "v_clips" in d || "a_clips" in d then
      var v :- ClipsFrom(Get(d, "v_clips", JArr([])));
      var a :- ClipsFrom(Get(d, "a_clips", JArr([])));
      Ok(Project(v, a, fps))
    else
      var v :- ClipsFrom(Get(d, "clips", JArr([])));
      Ok(Project(v, [], fps))
  }

  predicate Reloadable(c: Clip) {
    c.volume != 0.0 && c.hasAudio
  }

  lemma {:induction false} ClipsRoundTrip(cs: seq<Clip>)
    requires forall k :: 0 <= k < |cs| ==> Reloadable(cs[k])
    ensures ClipsFromList(ClipsToJson(cs)) == Ok(cs)
  {
    if cs != [] {
      ClipRoundTrip(cs[0]);
      assert ClipsToJson(cs)[1..] == ClipsToJson(cs[1..]);
      ClipsRoundTrip(cs[1..]);
      assert [cs[0]] + cs[1..] == cs;
    }
  }

  /**
   * Writing and reading a project gives it back (frame rate, both lanes, their
   * order and every clip field) when no clip has volume 0.0 or lacks audio.
   */
  lemma ProjectRoundTrip(p: Project)
    requires forall k :: 0 <= k < |p.vClips| ==> Reloadable(p.vClips[k])
    requires forall k :: 0 <= k < |p.aClips| ==> Reloadable(p.aClips[k])
    ensures ProjectFromDict(ProjectToDict(p)) == Ok(p)
  {
    var d := ProjectToDict(p);
    assert FpsField(d) == Ok(p.fps);
    ClipsRoundTrip(p.vClips);
    ClipsRoundTrip(p.aClips);
    assert ClipsFrom(Get(d, "v_clips", JArr([]))) == Ok(p.vClips);
    assert ClipsFrom(Get(d, "a_clips", JArr([]))) == Ok(p.aClips);
  }

  /** For any project, a reload keeps the frame rate, lane lengths, order, ranges and mute flags. */
  lemma {:induction false} ProjectReloadKeepsRanges(p: Project)
    ensures var r := ProjectFromDict(ProjectToDict(p));
      && r.Ok?
      && r.value.fps == p.fps
      && |r.value.vClips| == |p.vClips| && |r.value.aClips| == |p.aClips|
      && (forall k :: 0 <= k < |p.vClips| ==> SameRange(r.value.vClips[k], p.vClips[k]))
      && (forall k :: 0 <= k < |p.aClips| ==> SameRange(r.value.aClips[k], p.aClips[k]))
  {
    var d := ProjectToDict(p);
    assert FpsField(d) == Ok(p.fps);
    ClipsReloadKeepsRanges(p.vClips);
    ClipsReloadKeepsRanges(p.aClips);
    assert ClipsFrom(Get(d, "v_clips", JArr([]))) == ClipsFromList(ClipsToJson(p.vClips));
    assert ClipsFrom(Get(d, "a_clips", JArr([]))) == ClipsFromList(ClipsToJson(p.aClips));
  }

  predicate SameRange(a: Clip, b: Clip) {
    a.id == b.id && a.src == b.src && a.inSec == b.inSec && a.outSec == b.outSec && a.muted == b.muted
  }

  lemma ClipsReloadKeepsRanges(cs: seq<Clip>)
    ensures var r := ClipsFromList(ClipsToJson(cs));
      && r.Ok? && |r.value| == |cs|
      && forall k :: 0 <= k < |cs| ==> SameRange(r.value[k], cs[k])
  {
    forall k | 0 <= k < |cs|
      ensures Decodable(ClipsToJson(cs)[k])
      ensures SameRange(ClipFromDict(ClipsToJson(cs)[k]).value, cs[k])
    {
      ClipReload(cs[k]);
    }
  }

  // ---------------------------------------------------------------------------
  // Shapes read by the export compiler

  /** A lane of the multi-track project: the fields the compiler reads. */
  datatype Track = Track(
    id: string,
    name: string,
    kind: string,
    muted: bool,
    visible: bool,
    clips: seq<Clip>)

  /**
   * The transition lookup: the overlap in seconds between a clip and its
   * predecessor (`transition_overlap_sec(prev, curr)`) and the
   * blend kind named by a clip's `transition_in`, if any.
   */
  datatype Transitions = Transitions(
    overlap: (Clip, Clip) -> real,
    kindOf: Clip -> Option<string>)
}
