/**
 * The export command compilers: the single-lane `build_export_command` and
 * the multi-track `_build_export_command_tracks`. Both open each distinct
 * source once, lower every clip to trimmed video and (real or silent) audio,
 * join each lane with the transition chain, and finish with the scale/pad
 * filter and the encoder arguments. Probe results come in as a map.
 */
module ExportCommand {
  import opened Results
  import opened PyValues
  import opened Model
  import opened Timeline
  import opened Settings
  import opened FilterGraph
  import opened Progress

  /** What the compilers return, field by field instead of as one argv list. */
  datatype Command = Command(
    binary: string,
    inputs: seq<string>,
    graph: seq<Part>,
    encode: seq<string>,
    output: string)

  /** The streams ffprobe found in one source. */
  datatype MediaInfo = MediaInfo(hasVideo: bool, hasAudio: bool)

  // ---------------------------------------------------------------------------
  // One input per distinct source

  function Srcs(clips: seq<Clip>): seq<string> {
    seq(|clips|, i requires 0 <= i < |clips| => clips[i].src)
  }

  predicate Distinct(xs: seq<string>) {
    forall i, j :: 0 <= i < j < |xs| ==> xs[i] != xs[j]
  }

  /** The sources in order of first appearance, each once. */
  function Dedup(xs: seq<string>): (d: seq<string>)
    ensures forall s :: s in d <==> s in xs
    ensures Distinct(d)
  {
    if xs == [] then []
    else
      var init := xs[..|xs| - 1];
      var d := Dedup(init);
      assert xs == init + [xs[|xs| - 1]];
      if xs[|xs| - 1] in d then d else d + [xs[|xs| - 1]]
  }

  /** The position of `s` in `xs`. */
  function IndexIn(xs: seq<string>, s: string): (k: nat)
    requires s in xs
    ensures k < |xs| && xs[k] == s
    ensures forall j :: 0 <= j < k ==> xs[j] != s
  {
    if xs[0] == s then 0 else 1 + IndexIn(xs[1..], s)
  }

  lemma {:induction false} IndexInAppend(xs: seq<string>, x: string, s: string)
    requires s in xs
    ensures IndexIn(xs + [x], s) == IndexIn(xs, s)
  {
    if xs[0] != s {
      assert (xs + [x])[1..] == xs[1..] + [x];
      IndexInAppend(xs[1..], x, s);
    }
  }

  /** Sources are numbered in the order they first appear in the clips. */
  lemma {:induction false} DedupKeepsFirstAppearance(xs: seq<string>)
    ensures forall i, j :: 0 <= i < j < |Dedup(xs)| ==> IndexIn(xs, Dedup(xs)[i]) < IndexIn(xs, Dedup(xs)[j])
  {
    if xs != [] {
      var init := xs[..|xs| - 1];
      var x := xs[|xs| - 1];
      assert xs == init + [x];
      DedupKeepsFirstAppearance(init);
      var d := Dedup(init);
      forall s | s in d
        ensures IndexIn(xs, s) == IndexIn(init, s) < |init|
      {
        IndexInAppend(init, x, s);
      }
      if x !in d {
        assert IndexIn(xs, x) == |init|;
      }
    }
  }

  /**
   * Fills the source list and the `src_to_idx` dictionary: every source gets
   * the position it has in the list of distinct sources.
   */
  method CollectInputs(xs: seq<string>) returns (srcs: seq<string>, index: map<string, nat>)
    ensures srcs == Dedup(xs)
    ensures forall s :: s in index <==> s in xs
    ensures forall s :: s in index ==> index[s] == IndexIn(srcs, s)
  {
    srcs := [];
    index := map[];
    var i := 0;
    while i < |xs|
      invariant 0 <= i <= |xs|
      invariant srcs == Dedup(xs[..i])
      invariant forall s :: s in index <==> s in srcs
      invariant forall s :: s in index ==> index[s] < |srcs| && srcs[index[s]] == s
    {
      var s := xs[i];
      assert xs[..i + 1][..i] == xs[..i];
      if s !in index {
        index := index[s := |srcs|];
        srcs := srcs + [s];
      }
      i := i + 1;
    }
    assert xs[..|xs|] == xs;
    forall s | s in index
      ensures index[s] == IndexIn(srcs, s)
    {
      var k := IndexIn(srcs, s);
      assert srcs[k] == srcs[index[s]];
    }
  }

  // ---------------------------------------------------------------------------
  // Lowering clips

  /**
   * How a lane names its pads and whether its audio is forced silent: pads
   * are `{vName}{pre}_{i}` and `{aName}{pre}_{i}`; audio lanes have no video trim.
   */
  datatype Lane = Lane(vName: string, aName: string, pre: seq<nat>, withVideo: bool, forceSilent: bool)

  function VLabel(lane: Lane, i: nat): Label { Named(lane.vName, lane.pre + [i]) }
  function ALabel(lane: Lane, i: nat): Label { Named(lane.aName, lane.pre + [i]) }
  function VLabels(lane: Lane, n: nat): seq<Label> { seq(n, i requires 0 <= i < n => VLabel(lane, i)) }
  function ALabels(lane: Lane, n: nat): seq<Label> { seq(n, i requires 0 <= i < n => ALabel(lane, i)) }

  /** A clip plays silence when it, or its lane, is muted, or its source has no audio. */
  predicate Silent(c: Clip, lane: Lane, audioOk: string -> bool) {
    c.muted || lane.forceSilent || !(c.hasAudio && audioOk(c.src))
  }

  /** The parts of one clip: its video trim (in video lanes), then its audio. */
  function ClipParts(c: Clip, input: nat, lane: Lane, i: nat, audioOk: string -> bool): seq<Part> {
    (if lane.withVideo then [TrimVideo(input, c.inSec, c.outSec, VLabel(lane, i))] else [])
      + [ClipAudio(c, input, ALabel(lane, i), Silent(c, lane, audioOk))]
  }

  function Width(lane: Lane): nat { if lane.withVideo then 2 else 1 }

  /** Where the parts of clip `i` begin in the lane's parts. */
  function Start(lane: Lane, i: nat): nat { if lane.withVideo then 2 * i else i }

  predicate SourcesKnown(clips: seq<Clip>, srcs: seq<string>) {
    forall i :: 0 <= i < |clips| ==> clips[i].src in srcs
  }

  /** The parts of the first `n` clips of a lane. */
  function LaneParts(clips: seq<Clip>, srcs: seq<string>, lane: Lane, audioOk: string -> bool, n: nat): (parts: seq<Part>)
    requires n <= |clips| && SourcesKnown(clips, srcs)
    ensures |parts| == Start(lane, n)
  {
    if n == 0 then []
    else
      LaneParts(clips, srcs, lane, audioOk, n - 1)
        + ClipParts(clips[n - 1], IndexIn(srcs, clips[n - 1].src), lane, n - 1, audioOk)
  }

  /** `src_to_idx` gives every source its position among the distinct sources. */
  predicate Indexes(index: map<string, nat>, srcs: seq<string>) {
    forall s :: s in srcs ==> s in index && index[s] == IndexIn(srcs, s)
  }

  lemma IndexLookup(index: map<string, nat>, srcs: seq<string>, s: string)
    requires Indexes(index, srcs) && s in srcs
    ensures s in index && index[s] == IndexIn(srcs, s)
  {
  }

  /** One more clip appends its parts. */
  lemma LanePartsStep(clips: seq<Clip>, srcs: seq<string>, lane: Lane, audioOk: string -> bool, i: nat)
    requires i < |clips| && SourcesKnown(clips, srcs)
    ensures LaneParts(clips, srcs, lane, audioOk, i + 1)
      == LaneParts(clips, srcs, lane, audioOk, i) + ClipParts(clips[i], IndexIn(srcs, clips[i].src), lane, i, audioOk)
  {
  }

  /** Lowers each clip of a lane, collecting the parts and the pads the chain joins. */
  method LowerLane(clips: seq<Clip>, srcs: seq<string>, index: map<string, nat>, lane: Lane, audioOk: string -> bool)
    returns (parts: seq<Part>, vl: seq<Label>, al: seq<Label>)
    requires SourcesKnown(clips, srcs)
    requires Indexes(index, srcs)
    ensures parts == LaneParts(clips, srcs, lane, audioOk, |clips|)
    ensures vl == VLabels(lane, |clips|) && al == ALabels(lane, |clips|)
  {
    parts, vl, al := [], [], [];
    var i := 0;
    while i < |clips|
      invariant 0 <= i <= |clips|
      invariant vl == VLabels(lane, i) && al == ALabels(lane, i)
      invariant parts == LaneParts(clips, srcs, lane, audioOk, i)
    {
      var c := clips[i];
      IndexLookup(index, srcs, c.src);
      var idx := index[c.src];
      var clipParts := LowerClip(c, idx, lane, i, audioOk);
      LanePartsStep(clips, srcs, lane, audioOk, i);
      parts := parts + clipParts;
      LabelsStep(lane, i);
      vl := vl + [VLabel(lane, i)];
      al := al + [ALabel(lane, i)];
      i := i + 1;
    }
  }

  /** The parts one clip adds: its video trim in video lanes, then silence or its trimmed audio. */
  method LowerClip(c: Clip, idx: nat, lane: Lane, i: nat, audioOk: string -> bool) returns (parts: seq<Part>)
    ensures parts == ClipParts(c, idx, lane, i, audioOk)
  {
    parts := [];
    if lane.withVideo {
      parts := parts + [TrimVideo(idx, c.inSec, c.outSec, VLabel(lane, i))];
    }
    var silent := c.muted || lane.forceSilent || !(c.hasAudio && audioOk(c.src));
    if silent {
      parts := parts + [Silence(Dur(c), ALabel(lane, i))];
    } else {
      parts := parts + [TrimAudio(idx, c.inSec, c.outSec, Gain(c), ALabel(lane, i))];
    }
  }

  /** One more clip adds one pad of each kind. */
  lemma LabelsStep(lane: Lane, n: nat)
    ensures VLabels(lane, n + 1) == VLabels(lane, n) + [VLabel(lane, n)]
    ensures ALabels(lane, n + 1) == ALabels(lane, n) + [ALabel(lane, n)]
  {
  }

  /** The lane's parts are one block of `Width(lane)` parts per clip, in clip order. */
  lemma {:induction false} LaneBlocks(clips: seq<Clip>, srcs: seq<string>, lane: Lane, audioOk: string -> bool, n: nat)
    requires n <= |clips| && SourcesKnown(clips, srcs)
    ensures forall i :: 0 <= i < n ==>
      LaneParts(clips, srcs, lane, audioOk, n)[Start(lane, i) .. Start(lane, i + 1)]
        == ClipParts(clips[i], IndexIn(srcs, clips[i].src), lane, i, audioOk)
  {
    if n > 0 {
      LaneBlocks(clips, srcs, lane, audioOk, n - 1);
      var prev := LaneParts(clips, srcs, lane, audioOk, n - 1);
      var last := ClipParts(clips[n - 1], IndexIn(srcs, clips[n - 1].src), lane, n - 1, audioOk);
      forall i | 0 <= i < n
        ensures (prev + last)[Start(lane, i) .. Start(lane, i + 1)]
          == ClipParts(clips[i], IndexIn(srcs, clips[i].src), lane, i, audioOk)
      {
        if i < n - 1 {
          SliceOfFront(prev, last, Start(lane, i), Start(lane, i + 1));
        } else {
          SliceOfBack(prev, last);
        }
      }
    }
  }

  /** A slice that lies inside the front part of a concatenation. */
  lemma SliceOfFront<T>(p: seq<T>, q: seq<T>, a: nat, b: nat)
    requires a <= b <= |p|
    ensures (p + q)[a..b] == p[a..b]
  {
  }

  /** The back part of a concatenation, sliced out again. */
  lemma SliceOfBack<T>(p: seq<T>, q: seq<T>)
    ensures (p + q)[|p|..|p| + |q|] == q
  {
  }

  /**
   * Each clip reads its own source: its video trim and any audio trim use the
   * input opened for its src, and a silent clip gets silence as long as the
   * clip instead of any reference to an audio stream.
   */
  lemma ClipReadsItsSource(clips: seq<Clip>, srcs: seq<string>, lane: Lane, audioOk: string -> bool, i: nat)
    requires i < |clips| && SourcesKnown(clips, srcs)
    ensures var w := Width(lane);
      var block := LaneParts(clips, srcs, lane, audioOk, |clips|)[Start(lane, i) .. Start(lane, i + 1)];
      var k := IndexIn(srcs, clips[i].src);
      && srcs[k] == clips[i].src
      && (lane.withVideo ==> block[0] == TrimVideo(k, clips[i].inSec, clips[i].outSec, VLabel(lane, i)))
      && (Silent(clips[i], lane, audioOk) ==> block[w - 1] == Silence(Dur(clips[i]), ALabel(lane, i)))
      && (!Silent(clips[i], lane, audioOk) ==> block[w - 1].TrimAudio? && block[w - 1].input == k)
  {
    LaneBlocks(clips, srcs, lane, audioOk, |clips|);
  }

  // ---------------------------------------------------------------------------
  // The single-lane command

  /** The pads of `build_export_command`: `v{i}` and `a{i}`; every clip can carry audio. */
  const SingleLane: Lane := Lane("v", "a", [], true, false)

  function AnyAudio(s: string): bool { true }

  /** The graph of `build_export_command`, given its distinct sources. */
  function SingleLaneGraph(clips: seq<Clip>, srcs: seq<string>, tr: Transitions, s: ExportSettings): seq<Part>
    requires clips != [] && SourcesKnown(clips, srcs)
  {
    var n := |clips|;
    var al := ALabels(SingleLane, n);
    LaneParts(clips, srcs, SingleLane, AnyAudio, n)
      + ChainParts(clips, VLabels(SingleLane, n), Some(al), tr, n)
      + [FinalVideoFilter(ChainVideo(clips, VLabels(SingleLane, n), tr, n), s),
         ResetAudio(ChainAudio(clips, al, tr, n))]
  }

  /**
   * `build_export_command`: raises on an empty timeline; otherwise opens each
   * distinct source once, in order of first appearance, and compiles the lane.
   */
  method BuildExportCommand(binary: string, clips: seq<Clip>, output: string, given: Option<SettingsInput>, tr: Transitions)
    returns (r: Result<Command, ExportError>)
    ensures r.Err? <==> clips == []
    ensures r.Err? ==> r.error == EmptyTimeline
    ensures r.Ok? ==>
      var srcs := Dedup(Srcs(clips));
      SourcesKnown(clips, srcs)
      && r.value == Command(binary, srcs, SingleLaneGraph(clips, srcs, tr, Normalize(given)), EncodeArgs(Normalize(given)), output)
  {
    if clips == [] {
      return Err(EmptyTimeline);
    }
    var srcs, index := CollectInputs(Srcs(clips));
    assert SourcesKnown(clips, srcs) by {
      forall i | 0 <= i < |clips| ensures clips[i].src in srcs {
        assert Srcs(clips)[i] == clips[i].src;
      }
    }
    var settings := Normalize(given);
    var parts := CompileSingleLane(clips, srcs, index, tr, settings);
    r := Ok(Command(binary, srcs, parts, EncodeArgs(settings), output));
  }

  /** The filter graph of `build_export_command`: lowered clips, the chain, the output pads. */
  method CompileSingleLane(clips: seq<Clip>, srcs: seq<string>, index: map<string, nat>, tr: Transitions, settings: ExportSettings)
    returns (parts: seq<Part>)
    requires clips != [] && SourcesKnown(clips, srcs)
    requires Indexes(index, srcs)
    ensures parts == SingleLaneGraph(clips, srcs, tr, settings)
  {
    var vl, al;
    parts, vl, al := LowerLane(clips, srcs, index, SingleLane, AnyAudio);
    var chain := BuildTransitionChain(clips, vl, Some(al), tr);
    assert chain.Ok?;
    parts := parts + chain.value.parts;
    parts := parts + [FinalVideoFilter(chain.value.video, settings)];
    parts := parts + [ResetAudio(chain.value.audio.value)];
  }

  // ---------------------------------------------------------------------------
  // The multi-track command: sources and probes

  function OfKind(tracks: seq<Track>, kind: string): seq<Track> {
    Filter(tracks, (t: Track) => t.kind == kind)
  }

  /** The sources of every clip of every track, track by track. */
  function TrackSrcs(tracks: seq<Track>): seq<string> {
    if tracks == [] then [] else TrackSrcs(tracks[..|tracks| - 1]) + Srcs(tracks[|tracks| - 1].clips)
  }

  predicate AllKnown(tracks: seq<Track>, srcs: seq<string>) {
    forall k :: 0 <= k < |tracks| ==> SourcesKnown(tracks[k].clips, srcs)
  }

  lemma {:induction false} TrackSrcsCover(tracks: seq<Track>, t: Track, c: Clip)
    requires t in tracks && c in t.clips
    ensures c.src in TrackSrcs(tracks)
  {
    var last := tracks[|tracks| - 1];
    if t == last {
      var i :| 0 <= i < |t.clips| && t.clips[i] == c;
      assert Srcs(last.clips)[i] == c.src;
    } else {
      assert t in tracks[..|tracks| - 1];
      TrackSrcsCover(tracks[..|tracks| - 1], t, c);
    }
  }

  /** Every clip of every track that `sub` draws from `tracks` has its source opened. */
  lemma SubsetKnown(tracks: seq<Track>, sub: seq<Track>)
    requires forall k :: 0 <= k < |sub| ==> sub[k] in tracks
    ensures AllKnown(sub, Dedup(TrackSrcs(tracks)))
  {
    forall k, i | 0 <= k < |sub| && 0 <= i < |sub[k].clips|
      ensures sub[k].clips[i].src in Dedup(TrackSrcs(tracks))
    {
      TrackSrcsCover(tracks, sub[k], sub[k].clips[i]);
    }
  }

  /** The first source that cannot be probed (here: one missing from `probe`), if any. */
  function FirstMissing(srcs: seq<string>, probe: map<string, MediaInfo>): (m: Option<string>)
    ensures m.None? <==> forall k :: 0 <= k < |srcs| ==> srcs[k] in probe
    ensures m.Some? ==>
      exists k :: 0 <= k < |srcs| && srcs[k] == m.value
        && m.value !in probe && forall j :: 0 <= j < k ==> srcs[j] in probe
  {
    if srcs == [] then None
    else if srcs[0] !in probe then Some(srcs[0])
    else
      var m := FirstMissing(srcs[1..], probe);
      assert forall k :: 1 <= k < |srcs| ==> srcs[k] == srcs[1..][k - 1];
      m
  }

  /**
   * Probes each source in turn; `probe_media` raises on the first source
   * ffprobe cannot read, here one missing from `probe`.
   */
  method ProbeSources(srcs: seq<string>, probe: map<string, MediaInfo>) returns (missing: Option<string>)
    ensures missing == FirstMissing(srcs, probe)
  {
    var k := 0;
    while k < |srcs|
      invariant 0 <= k <= |srcs|
      invariant FirstMissing(srcs[k..], probe) == FirstMissing(srcs, probe)
    {
      assert srcs[k..][1..] == srcs[k + 1..];
      if srcs[k] !in probe {
        return Some(srcs[k]);
      }
      k := k + 1;
    }
    return None;
  }

  predicate HasVideo(probe: map<string, MediaInfo>, c: Clip) {
    c.src in probe && probe[c.src].hasVideo
  }

  predicate TrackHasVideo(probe: map<string, MediaInfo>, t: Track) {
    forall i :: 0 <= i < |t.clips| ==> HasVideo(probe, t.clips[i])
  }

  /** The position of the first clip without a video stream, or `|clips|`. */
  function FirstBadClip(clips: seq<Clip>, probe: map<string, MediaInfo>): (k: nat)
    ensures k <= |clips|
    ensures k < |clips| ==> !HasVideo(probe, clips[k])
    ensures forall j :: 0 <= j < k ==> HasVideo(probe, clips[j])
  {
    if clips == [] then 0
    else if !HasVideo(probe, clips[0]) then 0
    else
      var k := FirstBadClip(clips[1..], probe);
      assert forall j :: 1 <= j < |clips| ==> clips[j] == clips[1..][j - 1];
      1 + k
  }

  /** The position of the first video track holding a clip without a video stream, or `|video|`. */
  function FirstBadTrack(video: seq<Track>, probe: map<string, MediaInfo>): (k: nat)
    ensures k <= |video|
    ensures k < |video| ==> !TrackHasVideo(probe, video[k])
    ensures forall j :: 0 <= j < k ==> TrackHasVideo(probe, video[j])
  {
    if video == [] then 0
    else if !TrackHasVideo(probe, video[0]) then 0
    else
      var k := FirstBadTrack(video[1..], probe);
      assert forall j :: 1 <= j < |video| ==> video[j] == video[1..][j - 1];
      1 + k
  }

  /**
   * The error for the first video-track clip without a video stream, tracks
   * and clips in order, naming the track and the file; none when every clip
   * has one.
   */
  function FirstNoVideo(video: seq<Track>, probe: map<string, MediaInfo>): (e: Option<ExportError>)
    ensures e.None? <==> forall ti :: 0 <= ti < |video| ==> TrackHasVideo(probe, video[ti])
    ensures e.Some? ==>
      var ti := FirstBadTrack(video, probe);
      var i := FirstBadClip(video[ti].clips, probe);
      && ti < |video| && i < |video[ti].clips|
      && !HasVideo(probe, video[ti].clips[i])
      && e.value == NoVideoStream(video[ti].name, Basename(video[ti].clips[i].src))
  {
    var ti := FirstBadTrack(video, probe);
    if ti < |video| then
      var t := video[ti];
      var i := FirstBadClip(t.clips, probe);
      Some(NoVideoStream(t.name, Basename(t.clips[i].src)))
    else None
  }

  /** Every clip on a video track needs a video stream; the first one without raises, naming the track and the file. */
  method CheckVideoStreams(video: seq<Track>, probe: map<string, MediaInfo>) returns (err: Option<ExportError>)
    ensures err == FirstNoVideo(video, probe)
  {
    var ti := 0;
    while ti < |video|
      invariant 0 <= ti <= |video|
      invariant forall tj :: 0 <= tj < ti ==> TrackHasVideo(probe, video[tj])
    {
      var t := video[ti];
      var i := 0;
      while i < |t.clips|
        invariant 0 <= i <= |t.clips|
        invariant forall j :: 0 <= j < i ==> HasVideo(probe, t.clips[j])
      {
        var c := t.clips[i];
        if !(c.src in probe && probe[c.src].hasVideo) {
          assert FirstBadTrack(video, probe) == ti;
          assert FirstBadClip(t.clips, probe) == i;
          return Some(NoVideoStream(t.name, Basename(c.src)));
        }
        i := i + 1;
      }
      ti := ti + 1;
    }
    return None;
  }

  // ---------------------------------------------------------------------------
  // The multi-track command: video tracks

  /** What one compiled video track contributes: its final pads and duration. */
  datatype VideoOut = VideoOut(track: Track, video: Label, audio: Option<Label>, total: real)

  function AudioIn(probe: map<string, MediaInfo>): string -> bool {
    (s: string) => s in probe && probe[s].hasAudio
  }

  /** Video track `ti` names its pads `tv{ti}_{i}`/`ta{ti}_{i}`; a muted or hidden track plays silence. */
  function VideoLane(t: Track, ti: nat): Lane {
    Lane("tv", "ta", [ti], true, t.muted || !t.visible)
  }

  function VideoTrackParts(t: Track, ti: nat, srcs: seq<string>, probe: map<string, MediaInfo>, tr: Transitions): seq<Part>
    requires t.clips != [] && SourcesKnown(t.clips, srcs)
  {
    var lane := VideoLane(t, ti);
    var n := |t.clips|;
    LaneParts(t.clips, srcs, lane, AudioIn(probe), n)
      + ChainParts(t.clips, VLabels(lane, n), Some(ALabels(lane, n)), tr, n)
  }

  function VideoTrackOut(t: Track, ti: nat, tr: Transitions): VideoOut
    requires t.clips != []
  {
    var lane := VideoLane(t, ti);
    var n := |t.clips|;
    var total := ChainTotal(t.clips, tr, n);
    VideoOut(t, ChainVideo(t.clips, VLabels(lane, n), tr, n), Some(ChainAudio(t.clips, ALabels(lane, n), tr, n)),
      if total > 0.0 then total else 0.0)
  }

  /** The parts of the first `n` video tracks; empty tracks contribute nothing. */
  function VideoStageParts(video: seq<Track>, srcs: seq<string>, probe: map<string, MediaInfo>, tr: Transitions, n: nat): seq<Part>
    requires n <= |video| && AllKnown(video, srcs)
  {
    if n == 0 then []
    else if video[n - 1].clips == [] then VideoStageParts(video, srcs, probe, tr, n - 1)
    else VideoStageParts(video, srcs, probe, tr, n - 1) + VideoTrackParts(video[n - 1], n - 1, srcs, probe, tr)
  }

  /** The outputs of the non-empty tracks among the first `n` video tracks, in track order. */
  function VideoOuts(video: seq<Track>, tr: Transitions, n: nat): (outs: seq<VideoOut>)
    requires n <= |video|
    ensures forall k :: 0 <= k < |outs| ==> outs[k].track in video[..n] && outs[k].track.clips != []
    ensures forall k :: 0 <= k < |outs| ==> outs[k].audio.Some? && outs[k].total >= 0.0
  {
    if n == 0 then []
    else
      var prev := VideoOuts(video, tr, n - 1);
      assert forall k :: 0 <= k < |prev| ==> prev[k].track in video[..n] by {
        assert video[..n - 1] <= video[..n];
      }
      if video[n - 1].clips == [] then prev
      else prev + [VideoTrackOut(video[n - 1], n - 1, tr)]
  }

  /** Every non-empty video track has an output. */
  lemma {:induction false} VideoOutsCover(video: seq<Track>, tr: Transitions, n: nat, k: nat)
    requires k < n <= |video| && video[k].clips != []
    ensures exists o :: o in VideoOuts(video, tr, n) && o.track == video[k]
  {
    if k < n - 1 {
      VideoOutsCover(video, tr, n - 1, k);
      var o :| o in VideoOuts(video, tr, n - 1) && o.track == video[k];
      assert o in VideoOuts(video, tr, n);
    } else {
      assert VideoOuts(video, tr, n)[|VideoOuts(video, tr, n)| - 1].track == video[k];
    }
  }

  /** Lowers and chains every non-empty video track in turn. */
  method CompileVideoTracks(video: seq<Track>, srcs: seq<string>, index: map<string, nat>, probe: map<string, MediaInfo>, tr: Transitions)
    returns (parts: seq<Part>, outs: seq<VideoOut>)
    requires AllKnown(video, srcs)
    requires Indexes(index, srcs)
    ensures parts == VideoStageParts(video, srcs, probe, tr, |video|)
    ensures outs == VideoOuts(video, tr, |video|)
  {
    parts, outs := [], [];
    var ti := 0;
    while ti < |video|
      invariant 0 <= ti <= |video|
      invariant parts == VideoStageParts(video, srcs, probe, tr, ti)
      invariant outs == VideoOuts(video, tr, ti)
    {
      var t := video[ti];
      if t.clips != [] {
        var lane := VideoLane(t, ti);
        var p, vl, al := LowerLane(t.clips, srcs, index, lane, AudioIn(probe));
        var chain := BuildTransitionChain(t.clips, vl, Some(al), tr);
        assert chain.Ok?;
        parts := parts + (p + chain.value.parts);
        outs := outs + [VideoOut(t, chain.value.video, chain.value.audio, chain.value.total)];
      }
      ti := ti + 1;
    }
  }

  // ---------------------------------------------------------------------------
  // The multi-track command: the base track and overlays

  /** The output of the first track with id `id`, or the first output. */
  function BaseEntry(outs: seq<VideoOut>, id: string): (e: VideoOut)
    requires outs != []
    ensures e in outs
    ensures (exists k :: 0 <= k < |outs| && outs[k].track.id == id) ==> e.track.id == id
    ensures e.track.id == id || e == outs[0]
  {
    if outs[0].track.id == id || |outs| == 1 then outs[0]
    else
      var rest := BaseEntry(outs[1..], id);
      if rest.track.id == id then rest else outs[0]
  }

  /** Whether output `o` is laid over the base: a visible track other than the base. */
  predicate Overlaid(o: VideoOut, baseId: string) {
    o.track.id != baseId && o.track.visible
  }

  /** The overlays of the first `n` outputs onto `start`. */
  function OverlayParts(outs: seq<VideoOut>, baseId: string, start: Label, n: nat): seq<Part>
    requires n <= |outs|
  {
    if n == 0 then []
    else if !Overlaid(outs[n - 1], baseId) then OverlayParts(outs, baseId, start, n - 1)
    else OverlayParts(outs, baseId, start, n - 1) + [Overlay(OverlayTop(outs, baseId, start, n - 1), outs[n - 1].video, Named("vov", [n - 1]))]
  }

  /** The video pad after overlaying the first `n` outputs onto `start`. */
  function OverlayTop(outs: seq<VideoOut>, baseId: string, start: Label, n: nat): Label
    requires n <= |outs|
  {
    if n == 0 then start
    else if !Overlaid(outs[n - 1], baseId) then OverlayTop(outs, baseId, start, n - 1)
    else Named("vov", [n - 1])
  }

  /** Lays every visible non-base output over the base, in track order. */
  method OverlayTracks(outs: seq<VideoOut>, baseId: string, start: Label) returns (parts: seq<Part>, top: Label)
    ensures parts == OverlayParts(outs, baseId, start, |outs|)
    ensures top == OverlayTop(outs, baseId, start, |outs|)
  {
    parts, top := [], start;
    var oi := 0;
    while oi < |outs|
      invariant 0 <= oi <= |outs|
      invariant parts == OverlayParts(outs, baseId, start, oi)
      invariant top == OverlayTop(outs, baseId, start, oi)
    {
      var o := outs[oi];
      if o.track.id != baseId && o.track.visible {
        var out := Named("vov", [oi]);
        parts := parts + [Overlay(top, o.video, out)];
        top := out;
      }
      oi := oi + 1;
    }
  }

  /** The video pads laid over the base, in track order. */
  function OverlaidVideos(outs: seq<VideoOut>, baseId: string, n: nat): seq<Label>
    requires n <= |outs|
  {
    if n == 0 then []
    else if Overlaid(outs[n - 1], baseId) then OverlaidVideos(outs, baseId, n - 1) + [outs[n - 1].video]
    else OverlaidVideos(outs, baseId, n - 1)
  }

  /**
   * The overlays form one chain: exactly the visible non-base outputs are laid
   * on, in track order, each over the result of the one before, starting
   * from the base; the chain's last pad is what the final filter reads.
   */
  lemma {:induction false} OverlayChain(outs: seq<VideoOut>, baseId: string, start: Label, n: nat)
    requires n <= |outs|
    ensures var parts := OverlayParts(outs, baseId, start, n);
      && |parts| == |OverlaidVideos(outs, baseId, n)|
      && (forall k :: 0 <= k < |parts| ==> parts[k].Overlay? && parts[k].top == OverlaidVideos(outs, baseId, n)[k])
      && (parts != [] ==> parts[0].base == start && parts[|parts| - 1].out == OverlayTop(outs, baseId, start, n))
      && (parts == [] ==> OverlayTop(outs, baseId, start, n) == start)
      && (forall k :: 0 <= k < |parts| - 1 ==> parts[k + 1].base == parts[k].out)
  {
    if n > 0 {
      OverlayChain(outs, baseId, start, n - 1);
    }
  }

  // ---------------------------------------------------------------------------
  // The multi-track command: audio tracks

  /** What one compiled audio track contributes. */
  datatype AudioOut = AudioOut(track: Track, pad: Label, total: real)

  /** Audio track `ai` names its pads `au{ai}_{i}`; a muted or hidden track plays silence. */
  function AudioLane(t: Track, ai: nat): Lane {
    Lane("", "au", [ai], false, t.muted || !t.visible)
  }

  /** A single segment is the track's pad; several are concatenated into `aud{ai}`. */
  function AudioTrackParts(t: Track, ai: nat, srcs: seq<string>, probe: map<string, MediaInfo>): seq<Part>
    requires t.clips != [] && SourcesKnown(t.clips, srcs)
  {
    var lane := AudioLane(t, ai);
    var n := |t.clips|;
    LaneParts(t.clips, srcs, lane, AudioIn(probe), n)
      + (if n == 1 then [] else [Concat(ALabels(lane, n), false, Named("aud", [ai]))])
  }

  function AudioTrackOut(t: Track, ai: nat): AudioOut
    requires t.clips != []
  {
    var lane := AudioLane(t, ai);
    AudioOut(t, if |t.clips| == 1 then ALabel(lane, 0) else Named("aud", [ai]), TotalDuration(t.clips))
  }

  function AudioStageParts(audio: seq<Track>, srcs: seq<string>, probe: map<string, MediaInfo>, n: nat): seq<Part>
    requires n <= |audio| && AllKnown(audio, srcs)
  {
    if n == 0 then []
    else if audio[n - 1].clips == [] then AudioStageParts(audio, srcs, probe, n - 1)
    else AudioStageParts(audio, srcs, probe, n - 1) + AudioTrackParts(audio[n - 1], n - 1, srcs, probe)
  }

  function AudioOuts(audio: seq<Track>, n: nat): (outs: seq<AudioOut>)
    requires n <= |audio|
  {
    if n == 0 then []
    else if audio[n - 1].clips == [] then AudioOuts(audio, n - 1)
    else AudioOuts(audio, n - 1) + [AudioTrackOut(audio[n - 1], n - 1)]
  }

  /** Lowers every non-empty audio track in turn. */
  method CompileAudioTracks(audio: seq<Track>, srcs: seq<string>, index: map<string, nat>, probe: map<string, MediaInfo>)
    returns (parts: seq<Part>, outs: seq<AudioOut>)
    requires AllKnown(audio, srcs)
    requires Indexes(index, srcs)
    ensures parts == AudioStageParts(audio, srcs, probe, |audio|)
    ensures outs == AudioOuts(audio, |audio|)
  {
    parts, outs := [], [];
    var ai := 0;
    while ai < |audio|
      invariant 0 <= ai <= |audio|
      invariant parts == AudioStageParts(audio, srcs, probe, ai)
      invariant outs == AudioOuts(audio, ai)
    {
      var t := audio[ai];
      if t.clips != [] {
        var lane := AudioLane(t, ai);
        var p, _, al := LowerLane(t.clips, srcs, index, lane, AudioIn(probe));
        var pad := al[0];
        if |t.clips| != 1 {
          pad := Named("aud", [ai]);
          p := p + [Concat(al, false, pad)];
        }
        parts := parts + p;
        outs := outs + [AudioOut(t, pad, TotalDuration(t.clips))];
      }
      ai := ai + 1;
    }
  }

  // ---------------------------------------------------------------------------
  // The multi-track command: choosing and mixing audio

  predicate Audible(t: Track) { t.visible && !t.muted }

  /** The audio pads of audible video tracks, in track order. */
  function AudibleVideo(outs: seq<VideoOut>): seq<Label> {
    if outs == [] then []
    else
      var rest := AudibleVideo(outs[..|outs| - 1]);
      var o := outs[|outs| - 1];
      if o.audio.Some? && Audible(o.track) then rest + [o.audio.value] else rest
  }

  /** The pads of audible audio tracks, in track order. */
  function AudibleAudio(outs: seq<AudioOut>): seq<Label> {
    if outs == [] then []
    else
      var rest := AudibleAudio(outs[..|outs| - 1]);
      var o := outs[|outs| - 1];
      if Audible(o.track) then rest + [o.pad] else rest
  }

  predicate KnownMode(mode: string) {
    mode == "v1_only" || mode == "a1_only" || mode == "mix"
  }

  /**
   * The audio the export keeps: the base track's for `v1_only`, the first
   * audio track's for `a1_only`, every audible track's for `mix`; any other
   * mode raises.
   */
  function SelectAudio(mode: string, base: VideoOut, vouts: seq<VideoOut>, aouts: seq<AudioOut>): (r: Result<seq<Label>, ExportError>)
    ensures r.Err? <==> !KnownMode(mode)
    ensures r.Err? ==> r.error == UnknownAudioMode(mode)
    ensures mode == "v1_only" && base.audio.Some? ==> r == Ok([base.audio.value])
    ensures mode == "v1_only" && base.audio.None? ==> r == Ok([])
    ensures mode == "a1_only" && aouts != [] ==> r == Ok([aouts[0].pad])
    ensures mode == "a1_only" && aouts == [] ==> r == Ok([])
    ensures mode == "mix" ==> r == Ok(AudibleVideo(vouts) + AudibleAudio(aouts))
  {
    if mode == "v1_only" then Ok(if base.audio.Some? then [base.audio.value] else [])
    else if mode == "a1_only" then Ok(if aouts != [] then [aouts[0].pad] else [])
    else if mode == "mix" then Ok(AudibleVideo(vouts) + AudibleAudio(aouts))
    else Err(UnknownAudioMode(mode))
  }

  /** Each selected pad padded or cut to the base duration as `am{i}`. */
  function PadTrims(sel: seq<Label>, d: real): seq<Part> {
    seq(|sel|, i requires 0 <= i < |sel| => PadTrim(sel[i], d, Named("am", [i])))
  }

  function MixLabels(n: nat): seq<Label> {
    seq(n, i requires 0 <= i < n => Named("am", [i]))
  }

  /**
   * The audio output `[a]`: silence for the base duration when nothing is
   * selected, else each selection fitted to the base duration and, when there
   * are several, mixed.
   */
  function MixParts(sel: seq<Label>, baseTotal: real): seq<Part> {
    var d := if baseTotal > 0.0 then baseTotal else 0.0;
    if sel == [] then [Silence(d, OutAudio)]
    else PadTrims(sel, d) + (if |sel| == 1 then [ResetAudio(Named("am", [0]))] else [AMix(MixLabels(|sel|))])
  }

  /** Fits each selection to the base duration and mixes them into `[a]`. */
  method MixAudio(sel: seq<Label>, baseTotal: real) returns (parts: seq<Part>)
    ensures parts == MixParts(sel, baseTotal)
  {
    var d := if baseTotal > 0.0 then baseTotal else 0.0;
    if sel == [] {
      return [Silence(d, OutAudio)];
    }
    parts := [];
    var ins: seq<Label> := [];
    var i := 0;
    while i < |sel|
      invariant 0 <= i <= |sel|
      invariant parts == PadTrims(sel[..i], d)
      invariant ins == MixLabels(i)
    {
      var out := Named("am", [i]);
      parts := parts + [PadTrim(sel[i], d, out)];
      ins := ins + [out];
      i := i + 1;
    }
    assert sel[..|sel|] == sel;
    if |ins| == 1 {
      parts := parts + [ResetAudio(ins[0])];
    } else {
      parts := parts + [AMix(ins)];
    }
  }

  // ---------------------------------------------------------------------------
  // The multi-track command

  /** The filter graph of `_build_export_command_tracks` once its checks have passed. */
  function TracksGraph(video: seq<Track>, audio: seq<Track>, srcs: seq<string>, probe: map<string, MediaInfo>,
                       baseId: string, mode: string, settings: ExportSettings, tr: Transitions): Result<seq<Part>, ExportError>
    requires AllKnown(video, srcs) && AllKnown(audio, srcs)
    requires VideoOuts(video, tr, |video|) != []
  {
    var vouts := VideoOuts(video, tr, |video|);
    var base := BaseEntry(vouts, baseId);
    var sel :- SelectAudio(mode, base, vouts, AudioOuts(audio, |audio|));
    Ok(VideoStageParts(video, srcs, probe, tr, |video|)
      + OverlayParts(vouts, baseId, base.video, |vouts|)
      + [FinalVideoFilter(OverlayTop(vouts, baseId, base.video, |vouts|), settings)]
      + AudioStageParts(audio, srcs, probe, |audio|)
      + MixParts(sel, base.total))
  }

  /** Whether the probes cover every source and every video-track clip has a video stream. */
  predicate SourcesUsable(tracks: seq<Track>, probe: map<string, MediaInfo>) {
    && (forall s :: s in TrackSrcs(tracks) ==> s in probe)
    && (forall ti :: 0 <= ti < |OfKind(tracks, "video")| ==> TrackHasVideo(probe, OfKind(tracks, "video")[ti]))
  }

  /**
   * `_build_export_command_tracks`: raises when there are no tracks, no video
   * tracks or no video track with clips, when a source cannot be probed, when
   * a video-track clip has no video stream, or on an unknown audio mode;
   * otherwise compiles every track over one input per distinct source.
   */
  method BuildExportCommandTracks(binary: string, tracks: seq<Track>, probe: map<string, MediaInfo>, output: string,
                                  mode: string, given: Option<SettingsInput>, tr: Transitions)
    returns (r: Result<Command, ExportError>)
    ensures tracks == [] ==> r == Err(NoTracks)
    ensures tracks != [] && OfKind(tracks, "video") == [] ==> r == Err(NoVideoTracks)
    ensures tracks != [] && OfKind(tracks, "video") != [] && PrimaryVideoTrack(OfKind(tracks, "video")).None?
      ==> r == Err(EmptyBaseTrack)
    ensures r.Err? && r.error.ProbeFailed? ==> r.error.src in TrackSrcs(tracks) && r.error.src !in probe
    ensures r.Err? && r.error.NoVideoStream? ==> !SourcesUsable(tracks, probe)
    ensures var srcs := Dedup(TrackSrcs(tracks));
      PrimaryVideoTrack(OfKind(tracks, "video")).Some? && FirstMissing(srcs, probe).Some?
      ==> r == Err(ProbeFailed(FirstMissing(srcs, probe).value))
    ensures var video := OfKind(tracks, "video");
      PrimaryVideoTrack(video).Some? && FirstMissing(Dedup(TrackSrcs(tracks)), probe).None? && FirstNoVideo(video, probe).Some?
      ==> r == Err(FirstNoVideo(video, probe).value)
    ensures PrimaryVideoTrack(OfKind(tracks, "video")).Some? && SourcesUsable(tracks, probe) && !KnownMode(mode)
      ==> r == Err(UnknownAudioMode(mode))
    ensures PrimaryVideoTrack(OfKind(tracks, "video")).Some? && SourcesUsable(tracks, probe) ==> (r.Ok? <==> KnownMode(mode))
    ensures r.Ok? ==>
      var video := OfKind(tracks, "video");
      var audio := OfKind(tracks, "audio");
      var srcs := Dedup(TrackSrcs(tracks));
      && PrimaryVideoTrack(video).Some?
      && SourcesUsable(tracks, probe)
      && AllKnown(video, srcs) && AllKnown(audio, srcs)
      && VideoOuts(video, tr, |video|) != []
      && TracksGraph(video, audio, srcs, probe, PrimaryVideoTrack(video).value.id, mode, Normalize(given), tr).Ok?
      && r.value == Command(binary, srcs,
           TracksGraph(video, audio, srcs, probe, PrimaryVideoTrack(video).value.id, mode, Normalize(given), tr).value,
           EncodeArgs(Normalize(given)), output)
  {
    if tracks == [] {
      return Err(NoTracks);
    }
    var video := OfKind(tracks, "video");
    var audio := OfKind(tracks, "audio");
    if video == [] {
      return Err(NoVideoTracks);
    }
    var baseTrack := PrimaryVideoTrack(video);
    if baseTrack.None? {
      return Err(EmptyBaseTrack);
    }
    var srcs, index := CollectInputs(TrackSrcs(tracks));
    var missing := ProbeSources(srcs, probe);
    if missing.Some? {
      return Err(ProbeFailed(missing.value));
    }
    var bad := CheckVideoStreams(video, probe);
    if bad.Some? {
      return Err(bad.value);
    }
    SubsetKnown(tracks, video);
    SubsetKnown(tracks, audio);
    var settings := Normalize(given);
    BaseHasOutput(video, tr);
    var graph := CompileTracks(video, audio, srcs, index, probe, baseTrack.value.id, mode, settings, tr);
    if graph.Err? {
      return Err(graph.error);
    }
    r := Ok(Command(binary, srcs, graph.value, EncodeArgs(settings), output));
  }

  /** The graph of `_build_export_command_tracks`: video tracks, overlays, output video, audio tracks, mix. */
  method CompileTracks(video: seq<Track>, audio: seq<Track>, srcs: seq<string>, index: map<string, nat>, probe: map<string, MediaInfo>,
                       baseId: string, mode: string, settings: ExportSettings, tr: Transitions)
    returns (r: Result<seq<Part>, ExportError>)
    requires AllKnown(video, srcs) && AllKnown(audio, srcs)
    requires Indexes(index, srcs)
    requires VideoOuts(video, tr, |video|) != []
    ensures r == TracksGraph(video, audio, srcs, probe, baseId, mode, settings, tr)
  {
    var vparts, vouts := CompileVideoTracks(video, srcs, index, probe, tr);
    var base := BaseEntry(vouts, baseId);
    var oparts, top := OverlayTracks(vouts, baseId, base.video);
    var aparts, aouts := CompileAudioTracks(audio, srcs, index, probe);
    var sel := SelectAudio(mode, base, vouts, aouts);
    if sel.Err? {
      return Err(sel.error);
    }
    var mparts := MixAudio(sel.value, base.total);
    r := Ok(vparts + oparts + [FinalVideoFilter(top, settings)] + aparts + mparts);
  }

  // ---------------------------------------------------------------------------
  // Properties of the multi-track command

  /** The base track has an output, and the base entry is that track's output. */
  lemma BaseHasOutput(video: seq<Track>, tr: Transitions)
    requires PrimaryVideoTrack(video).Some?
    ensures VideoOuts(video, tr, |video|) != []
    ensures BaseEntry(VideoOuts(video, tr, |video|), PrimaryVideoTrack(video).value.id).track.id == PrimaryVideoTrack(video).value.id
  {
    var b := PrimaryVideoTrack(video).value;
    var k :| 0 <= k < |video| && video[k] == b;
    VideoOutsCover(video, tr, |video|, k);
    var o :| o in VideoOuts(video, tr, |video|) && o.track == b;
    var outs := VideoOuts(video, tr, |video|);
    var j :| 0 <= j < |outs| && outs[j] == o;
    assert outs[j].track.id == b.id;
  }

  /** `mix` keeps the audio of exactly the visible, unmuted tracks, video tracks first, each in track order. */
  lemma {:induction false} MixKeepsAudible(vouts: seq<VideoOut>, aouts: seq<AudioOut>)
    ensures forall l :: l in AudibleVideo(vouts) <==> exists k :: 0 <= k < |vouts| && vouts[k].audio == Some(l) && Audible(vouts[k].track)
    ensures forall l :: l in AudibleAudio(aouts) <==> exists k :: 0 <= k < |aouts| && aouts[k].pad == l && Audible(aouts[k].track)
  {
    AudibleVideoMembers(vouts);
    AudibleAudioMembers(aouts);
  }

  lemma {:induction false} AudibleVideoMembers(vouts: seq<VideoOut>)
    ensures forall l :: l in AudibleVideo(vouts) <==> exists k :: 0 <= k < |vouts| && vouts[k].audio == Some(l) && Audible(vouts[k].track)
  {
    if vouts != [] {
      var init := vouts[..|vouts| - 1];
      AudibleVideoMembers(init);
      forall l | (exists k :: 0 <= k < |vouts| && vouts[k].audio == Some(l) && Audible(vouts[k].track))
        ensures l in AudibleVideo(vouts)
      {
        var k :| 0 <= k < |vouts| && vouts[k].audio == Some(l) && Audible(vouts[k].track);
        if k < |vouts| - 1 {
          assert init[k] == vouts[k];
        }
      }
      forall l | l in AudibleVideo(vouts)
        ensures exists k :: 0 <= k < |vouts| && vouts[k].audio == Some(l) && Audible(vouts[k].track)
      {
        if l in AudibleVideo(init) {
          var k :| 0 <= k < |init| && init[k].audio == Some(l) && Audible(init[k].track);
          assert vouts[k] == init[k];
        }
      }
    }
  }

  lemma {:induction false} AudibleAudioMembers(aouts: seq<AudioOut>)
    ensures forall l :: l in AudibleAudio(aouts) <==> exists k :: 0 <= k < |aouts| && aouts[k].pad == l && Audible(aouts[k].track)
  {
    if aouts != [] {
      var init := aouts[..|aouts| - 1];
      AudibleAudioMembers(init);
      forall l | (exists k :: 0 <= k < |aouts| && aouts[k].pad == l && Audible(aouts[k].track))
        ensures l in AudibleAudio(aouts)
      {
        var k :| 0 <= k < |aouts| && aouts[k].pad == l && Audible(aouts[k].track);
        if k < |aouts| - 1 {
          assert init[k] == aouts[k];
        }
      }
      forall l | l in AudibleAudio(aouts)
        ensures exists k :: 0 <= k < |aouts| && aouts[k].pad == l && Audible(aouts[k].track)
      {
        if l in AudibleAudio(init) {
          var k :| 0 <= k < |init| && init[k].pad == l && Audible(init[k].track);
          assert aouts[k] == init[k];
        }
      }
    }
  }

  /**
   * Several selections are each fitted to the base duration and mixed with
   * one `amix` input per selection; a single one is passed straight to `[a]`;
   * none gives silence as long as the base track.
   */
  lemma MixShape(sel: seq<Label>, baseTotal: real)
    ensures var parts := MixParts(sel, baseTotal);
      var d := if baseTotal > 0.0 then baseTotal else 0.0;
      && (sel == [] ==> parts == [Silence(d, OutAudio)])
      && (sel != [] ==>
            |parts| == |sel| + 1 && forall i :: 0 <= i < |sel| ==> parts[i] == PadTrim(sel[i], d, Named("am", [i])))
      && (|sel| == 1 ==> parts[1] == ResetAudio(Named("am", [0])))
      && (|sel| >= 2 ==>
            parts[|sel|].AMix? && |parts[|sel|].ins| == |sel| && forall i :: 0 <= i < |sel| ==> parts[|sel|].ins[i] == parts[i].out)
  {
  }

  /**
   * With nothing to keep (`a1_only` without audio tracks, or `mix` with
   * nothing audible) the export's audio is silence as long as the base track.
   */
  lemma NothingSelectedIsSilence(mode: string, base: VideoOut, vouts: seq<VideoOut>, aouts: seq<AudioOut>)
    requires base.total >= 0.0
    requires (mode == "a1_only" && aouts == [])
      || (mode == "mix" && (forall k :: 0 <= k < |vouts| ==> !Audible(vouts[k].track))
                        && (forall k :: 0 <= k < |aouts| ==> !Audible(aouts[k].track)))
    ensures SelectAudio(mode, base, vouts, aouts).Ok?
    ensures MixParts(SelectAudio(mode, base, vouts, aouts).value, base.total) == [Silence(base.total, OutAudio)]
  {
    if mode == "mix" {
      NoneAudible(vouts, aouts);
    }
  }

  lemma {:induction false} NoneAudible(vouts: seq<VideoOut>, aouts: seq<AudioOut>)
    requires forall k :: 0 <= k < |vouts| ==> !Audible(vouts[k].track)
    requires forall k :: 0 <= k < |aouts| ==> !Audible(aouts[k].track)
    ensures AudibleVideo(vouts) == [] && AudibleAudio(aouts) == []
    decreases |vouts| + |aouts|
  {
    if vouts != [] {
      NoneAudible(vouts[..|vouts| - 1], []);
    }
    if aouts != [] {
      NoneAudible([], aouts[..|aouts| - 1]);
    }
  }
}
