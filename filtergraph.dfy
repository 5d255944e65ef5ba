/**
 * FFmpeg filter graphs as data. A part is one `;`-separated filter chain of
 * `-filter_complex`, named by what it does and which pads it joins; pad
 * labels keep their prefix and indices (`tv{ti}_{i}` is `Named("tv", [ti, i])`).
 * The lane compiler lowers each clip to a video and an audio part and joins
 * neighbours with a hard cut (`concat`) or a blend (`xfade`/`acrossfade`).
 */
module FilterGraph {
  import opened Results
  import opened PyValues
  import opened Model
  import opened Timeline
  import opened Settings

  datatype Stream = Video | Audio

  /** A pad: an input file's stream `[idx:v]`/`[idx:a]`, or a named pad. */
  datatype Label = Input(index: nat, stream: Stream) | Named(name: string, indices: seq<nat>)

  /** The pads the command maps to its output. */
  const OutVideo: Label := Named("v", [])
  const OutAudio: Label := Named("a", [])

  datatype Part =
      /** `[idx:v]trim=start:end,setpts[out]` */
    | TrimVideo(input: nat, start: real, end: real, out: Label)
      /** `[idx:a]atrim=start:end,asetpts,aformat,volume=gain[out]` */
    | TrimAudio(input: nat, start: real, end: real, gain: real, out: Label)
      /** `anullsrc,atrim=start=0:end=duration,asetpts[out]` */
    | Silence(duration: real, out: Label)
    | XFade(first: Label, second: Label, transition: string, duration: real, offset: real, out: Label)
    | ACrossFade(first: Label, second: Label, duration: real, out: Label)
      /** `concat=n=|ins|` of video pads (`v=1:a=0`) or audio pads (`v=0:a=1`) */
    | Concat(ins: seq<Label>, video: bool, out: Label)
    | Overlay(base: Label, top: Label, out: Label)
      /** `[src]setpts`, then scale-and-pad to `size` when given, into `[v]` */
    | ScaleVideo(src: Label, size: Option<(int, int)>)
      /** `[src]asetpts[a]` */
    | ResetAudio(src: Label)
      /** `[src]apad,atrim=start=0:end=duration[out]` */
    | PadTrim(src: Label, duration: real, out: Label)
      /** `amix=inputs=|ins|:duration=first` into `[a]` */
    | AMix(ins: seq<Label>)

  /** Why building an export command raises. */
  datatype ExportError =
    | EmptyTimeline
    | VideoLabelMismatch
    | AudioLabelMismatch
    | NoTracks
    | NoVideoTracks
    | EmptyBaseTrack
    | ProbeFailed(src: string)
    | NoVideoStream(track: string, file: string)
    | UnknownAudioMode(mode: string)

  // ---------------------------------------------------------------------------
  // Single parts

  /** `_append_final_video_filter`: scale-and-pad only when both sides are set. */
  function FinalVideoFilter(src: Label, s: ExportSettings): (p: Part)
    ensures p.ScaleVideo? && p.src == src
    ensures p.size.Some? <==> s.width > 0 && s.height > 0
    ensures p.size.Some? ==> p.size.value == (s.width, s.height)
  {
    ScaleVideo(src, if s.width > 0 && s.height > 0 then Some((s.width, s.height)) else None)
  }

  /** The output is scaled exactly when the caller asked for both a positive width and height. */
  lemma FinalFilterScales(src: Label, given: Option<SettingsInput>)
    ensures var raw := if given.Some? then given.value else DefaultInput;
      (FinalVideoFilter(src, Normalize(given)).size.Some?
       <==> Dimension(raw.width) > 0 && Dimension(raw.height) > 0)
  {
  }

  /** `_xfade_name`: dissolve stays dissolve; every other kind is a plain fade. */
  function XFadeName(kind: string): (name: string)
    ensures name == "dissolve" || name == "fade"
    ensures name == "dissolve" <==> Lower(Strip(kind)) == "dissolve"
  {
    if Lower(Strip(kind)) == "dissolve" then "dissolve" else "fade"
  }

  /** The blend into `c`: its `transition_in` kind, or a fade when it has none. */
  function TransitionName(c: Clip, tr: Transitions): string {
    match tr.kindOf(c)
    case Some(kind) => XFadeName(kind)
    case None => "fade"
  }

  /** `max(0.0, float(c.volume or 1.0))`: a volume of 0.0 plays at unit gain. */
  function Gain(c: Clip): (g: real)
    ensures g >= 0.0
    ensures c.volume == 0.0 ==> g == 1.0
    ensures c.volume > 0.0 ==> g == c.volume
    ensures c.volume < 0.0 ==> g == 0.0
  {
    var v := if c.volume == 0.0 then 1.0 else c.volume;
    if v > 0.0 then v else 0.0
  }

  /** The audio of one clip: silence as long as the clip when `silent`, else its trimmed source audio. */
  function ClipAudio(c: Clip, input: nat, out: Label, silent: bool): (p: Part)
    ensures silent ==> p == Silence(Dur(c), out)
    ensures !silent ==> p.TrimAudio? && p.input == input && p.start == c.inSec && p.end == c.outSec && p.out == out
  {
    if silent then Silence(Dur(c), out) else TrimAudio(input, c.inSec, c.outSec, Gain(c), out)
  }

  // ---------------------------------------------------------------------------
  // The transition chain

  /**
   * The overlap the chain uses between clip `i - 1` and clip `i`: the
   * lookup's value when positive; anything else is a hard cut and overlaps nothing.
   */
  function Overlap(clips: seq<Clip>, tr: Transitions, i: nat): (ov: real)
    requires 1 <= i < |clips|
    ensures ov >= 0.0
    ensures ov > 0.0 <==> tr.overlap(clips[i - 1], clips[i]) > 0.0
    ensures ov > 0.0 ==> ov == tr.overlap(clips[i - 1], clips[i])
  {
    var raw := tr.overlap(clips[i - 1], clips[i]);
    if raw > 0.0 then raw else 0.0
  }

  /** The running duration after joining the first `n` clips. */
  function ChainTotal(clips: seq<Clip>, tr: Transitions, n: nat): real
    requires 1 <= n <= |clips|
  {
    if n == 1 then Dur(clips[0])
    else
      ChainTotal(clips, tr, n - 1) + Dur(clips[n - 1]) - Overlap(clips, tr, n - 1)
  }

  /** The video pad holding the first `n` clips joined. */
  function ChainVideo(clips: seq<Clip>, vl: seq<Label>, tr: Transitions, n: nat): Label
    requires 1 <= n <= |clips| == |vl|
  {
    if n == 1 then vl[0]
    else if Overlap(clips, tr, n - 1) > 0.0 then Named("vx", [n - 1])
    else Named("vc", [n - 1])
  }

  /** The audio pad holding the first `n` clips joined. */
  function ChainAudio(clips: seq<Clip>, al: seq<Label>, tr: Transitions, n: nat): Label
    requires 1 <= n <= |clips| == |al|
  {
    if n == 1 then al[0]
    else if Overlap(clips, tr, n - 1) > 0.0 then Named("ax", [n - 1])
    else Named("ac", [n - 1])
  }

  /**
   * The parts joining clip `i` to the clips before it: a blend lasting the
   * overlap and starting that long before the running end when the clips
   * overlap, else a hard cut; the audio part only when audio pads are given.
   */
  function PairParts(clips: seq<Clip>, vl: seq<Label>, al: Option<seq<Label>>, tr: Transitions, i: nat): seq<Part>
    requires 1 <= i < |clips| == |vl|
    requires al.Some? ==> |al.value| == |clips|
  {
    var ov := Overlap(clips, tr, i);
    var prevV := ChainVideo(clips, vl, tr, i);
    if ov > 0.0 then
      var offset := if ChainTotal(clips, tr, i) - ov > 0.0 then ChainTotal(clips, tr, i) - ov else 0.0;
      [XFade(prevV, vl[i], TransitionName(clips[i], tr), ov, offset, Named("vx", [i]))]
        + (if al.Some? then [ACrossFade(ChainAudio(clips, al.value, tr, i), al.value[i], ov, Named("ax", [i]))] else [])
    else
      [Concat([prevV, vl[i]], true, Named("vc", [i]))]
        + (if al.Some? then [Concat([ChainAudio(clips, al.value, tr, i), al.value[i]], false, Named("ac", [i]))] else [])
  }

  /** The parts joining the first `n` clips, in order. */
  function ChainParts(clips: seq<Clip>, vl: seq<Label>, al: Option<seq<Label>>, tr: Transitions, n: nat): seq<Part>
    requires 1 <= n <= |clips| == |vl|
    requires al.Some? ==> |al.value| == |clips|
  {
    if n == 1 then [] else ChainParts(clips, vl, al, tr, n - 1) + PairParts(clips, vl, al, tr, n - 1)
  }

  /** What `_build_transition_chain` returns besides the parts it appends. */
  datatype Chain = Chain(parts: seq<Part>, video: Label, audio: Option<Label>, total: real)

  /** Whether the labels fit the clips. */
  predicate ChainArgsOk(clips: seq<Clip>, vl: seq<Label>, al: Option<seq<Label>>) {
    clips != [] && |vl| == |clips| && (al.Some? ==> |al.value| == |clips|)
  }

  /**
   * `_build_transition_chain`: raises on an empty lane or when a label list
   * does not match the clips; otherwise joins the clips left to right and
   * returns the appended parts, the final pads and the running duration,
   * floored at 0.
   */
  method BuildTransitionChain(clips: seq<Clip>, vl: seq<Label>, al: Option<seq<Label>>, tr: Transitions)
    returns (r: Result<Chain, ExportError>)
    ensures clips == [] ==> r == Err(EmptyTimeline)
    ensures clips != [] && |vl| != |clips| ==> r == Err(VideoLabelMismatch)
    ensures clips != [] && |vl| == |clips| && al.Some? && |al.value| != |clips| ==> r == Err(AudioLabelMismatch)
    ensures r.Ok? <==> ChainArgsOk(clips, vl, al)
    ensures r.Ok? ==>
      var n := |clips|;
      var total := ChainTotal(clips, tr, n);
      r.value == Chain(
        ChainParts(clips, vl, al, tr, n),
        ChainVideo(clips, vl, tr, n),
        if al.Some? then Some(ChainAudio(clips, al.value, tr, n)) else None,
        if total > 0.0 then total else 0.0)
  {
    if clips == [] {
      return Err(EmptyTimeline);
    }
    if |vl| != |clips| {
      return Err(VideoLabelMismatch);
    }
    if al.Some? && |al.value| != |clips| {
      return Err(AudioLabelMismatch);
    }
    var parts: seq<Part> := [];
    var currV := vl[0];
    var currA: Option<Label> := if al.Some? then Some(al.value[0]) else None;
    var currTotal := Dur(clips[0]);
    var i := 1;
    while i < |clips|
      invariant 1 <= i <= |clips|
      invariant parts == ChainParts(clips, vl, al, tr, i)
      invariant currV == ChainVideo(clips, vl, tr, i)
      invariant currA == if al.Some? then Some(ChainAudio(clips, al.value, tr, i)) else None
      invariant currTotal == ChainTotal(clips, tr, i)
    {
      var added;
      added, currV, currA, currTotal := JoinNext(clips, vl, al, tr, i, currV, currA, currTotal);
      parts := parts + added;
      i := i + 1;
    }
    r := Ok(Chain(parts, currV, currA, if currTotal > 0.0 then currTotal else 0.0));
  }

  /**
   * One step of the chain: joins clip `i` to the pads holding the clips
   * before it, returning the parts appended, the new pads and the new
   * running duration.
   */
  method JoinNext(clips: seq<Clip>, vl: seq<Label>, al: Option<seq<Label>>, tr: Transitions, i: nat,
                  currV: Label, currA: Option<Label>, currTotal: real)
    returns (added: seq<Part>, outV: Label, outA: Option<Label>, outTotal: real)
    requires 1 <= i < |clips| == |vl|
    requires al.Some? ==> |al.value| == |clips|
    requires currV == ChainVideo(clips, vl, tr, i)
    requires currA == if al.Some? then Some(ChainAudio(clips, al.value, tr, i)) else None
    requires currTotal == ChainTotal(clips, tr, i)
    ensures added == PairParts(clips, vl, al, tr, i)
    ensures outV == ChainVideo(clips, vl, tr, i + 1)
    ensures outA == if al.Some? then Some(ChainAudio(clips, al.value, tr, i + 1)) else None
    ensures outTotal == ChainTotal(clips, tr, i + 1)
  {
    var nextV := vl[i];
    var nextA: Option<Label> := if al.Some? then Some(al.value[i]) else None;
    var overlap := tr.overlap(clips[i - 1], clips[i]);
    added := [];
    outA := currA;
    if overlap > 0.0 {
      var xfade := TransitionName(clips[i], tr);
      outV := Named("vx", [i]);
      var offset := if currTotal - overlap > 0.0 then currTotal - overlap else 0.0;
      added := added + [XFade(currV, nextV, xfade, overlap, offset, outV)];
      if currA.Some? && nextA.Some? {
        var a := Named("ax", [i]);
        added := added + [ACrossFade(currA.value, nextA.value, overlap, a)];
        outA := Some(a);
      }
      outTotal := currTotal + Dur(clips[i]) - overlap;
    } else {
      outV := Named("vc", [i]);
      added := added + [Concat([currV, nextV], true, outV)];
      if currA.Some? && nextA.Some? {
        var a := Named("ac", [i]);
        added := added + [Concat([currA.value, nextA.value], false, a)];
        outA := Some(a);
      }
      outTotal := currTotal + Dur(clips[i]);
    }
  }

  /** One video part per neighbouring pair, and one audio part per pair exactly when audio pads are given. */
  lemma {:induction false} ChainPartCount(clips: seq<Clip>, vl: seq<Label>, al: Option<seq<Label>>, tr: Transitions, n: nat)
    requires 1 <= n <= |clips| == |vl|
    requires al.Some? ==> |al.value| == |clips|
    ensures |ChainParts(clips, vl, al, tr, n)| == (n - 1) * (if al.Some? then 2 else 1)
  {
    if n > 1 {
      ChainPartCount(clips, vl, al, tr, n - 1);
    }
  }

  /** The overlaps of the first `n` clips added up. */
  function SumOverlaps(clips: seq<Clip>, tr: Transitions, n: nat): (s: real)
    requires 1 <= n <= |clips|
    ensures s >= 0.0
  {
    if n == 1 then 0.0 else SumOverlaps(clips, tr, n - 1) + Overlap(clips, tr, n - 1)
  }

  /**
   * The running duration is the plain total of the clips minus every overlap;
   * it never exceeds the plain total, and equals it when no neighbours overlap.
   */
  lemma {:induction false} ChainTotalIsTotalMinusOverlaps(clips: seq<Clip>, tr: Transitions, n: nat)
    requires 1 <= n <= |clips|
    ensures ChainTotal(clips, tr, n) == TotalDuration(clips[..n]) - SumOverlaps(clips, tr, n)
    ensures ChainTotal(clips, tr, n) <= TotalDuration(clips[..n])
    ensures (forall i :: 1 <= i < n ==> Overlap(clips, tr, i) == 0.0) ==> ChainTotal(clips, tr, n) == TotalDuration(clips[..n])
  {
    if n == 1 {
      assert clips[..1] == [clips[0]];
      TotalDurationSingle(clips[0]);
    } else {
      ChainTotalIsTotalMinusOverlaps(clips, tr, n - 1);
      assert clips[..n] == clips[..n - 1] + [clips[n - 1]];
      TotalDurationAppend(clips[..n - 1], [clips[n - 1]]);
      TotalDurationSingle(clips[n - 1]);
    }
  }
}
