/**
 * Export progress: reading seconds out of FFmpeg's progress lines, the
 * duration the progress bar runs up to, and the loop that turns the lines of
 * a running export into `(current, total)` callbacks that never run backwards
 * by more than the loop's 1e-6 tolerance.
 */
module Progress {
  import opened Results
  import opened PyValues
  import opened Model
  import opened Timeline

  // ---------------------------------------------------------------------------
  // Text matching

  /** Whether `w` occurs in `s` at position `p`. */
  predicate OccursAt(s: string, p: nat, w: string) {
    p + |w| <= |s| && s[p..p + |w|] == w
  }

  /** The length of the run of ASCII digits starting at `i` (a greedy `\d+` or `\d*`). */
  function DigitRun(s: string, i: nat): (n: nat)
    requires i <= |s|
    ensures i + n <= |s|
    ensures forall k :: i <= k < i + n ==> IsDigit(s[k])
    ensures i + n == |s| || !IsDigit(s[i + n])
    decreases |s| - i
  {
    if i == |s| || !IsDigit(s[i]) then 0 else 1 + DigitRun(s, i + 1)
  }

  /** The digits of that run. */
  function DigitsFrom(s: string, i: nat): (ds: string)
    requires i <= |s|
    ensures AllDigits(ds) && |ds| == DigitRun(s, i)
  {
    var n := DigitRun(s, i);
    var ds := s[i..i + n];
    assert forall k :: 0 <= k < |ds| ==> ds[k] == s[i + k];
    ds
  }

  /** `out_time_(?:ms|us)=(\d+)` matched at position `p`: the digits' value. */
  function OutTimeAt(s: string, p: nat): (r: Option<real>)
    ensures r.Some? ==> r.value >= 0.0
  {
    if p <= |s| && (OccursAt(s, p, "out_time_ms=") || OccursAt(s, p, "out_time_us=")) then
      var ds := DigitsFrom(s, p + 12);
      if ds != [] then Some(DigitsValue(ds) as real) else None
    else None
  }

  /** A digit string read as the fraction `0.ds`. */
  function Fraction(ds: string): (f: real)
    requires AllDigits(ds)
    ensures f >= 0.0
  {
    DigitsValue(ds) as real / Pow10(|ds|) as real
  }

  /** The digits of `\d+` at `i` followed by `sep`, and the position after `sep`. */
  function FieldThen(s: string, i: nat, sep: char): Option<(string, nat)>
    requires i <= |s|
  {
    var ds := DigitsFrom(s, i);
    var j := i + |ds|;
    if ds != [] && j < |s| && s[j] == sep then Some((ds, j + 1)) else None
  }

  /** The seconds field `\d+(?:\.\d+)?` at `i`, if present. */
  function SecondsField(s: string, i: nat): (r: Option<real>)
    requires i <= |s|
    ensures r.Some? ==> r.value >= 0.0
  {
    var ss := DigitsFrom(s, i);
    var e := i + |ss|;
    if ss == [] then None
    else
      var frac := if e + 1 < |s| && s[e] == '.' && IsDigit(s[e + 1]) then DigitsFrom(s, e + 1) else [];
      Some(DigitsValue(ss) as real + Fraction(frac))
  }

  /**
   * `time=(\d+):(\d+):(\d+(?:\.\d+)?)` matched at position `p`: hours,
   * minutes and seconds added up.
   */
  function ClockAt(s: string, p: nat): (r: Option<real>)
    ensures r.Some? ==> r.value >= 0.0
  {
    if p > |s| || !OccursAt(s, p, "time=") then None
    else
      match FieldThen(s, p + 5, ':')
      case None => None
      case Some((hh, b)) =>
        match FieldThen(s, b, ':')
        case None => None
        case Some((mm, c)) =>
          match SecondsField(s, c)
          case None => None
          case Some(sec) => Some(3600.0 * DigitsValue(hh) as real + 60.0 * DigitsValue(mm) as real + sec)
  }

  /** `re.search` from position `p` for a pattern matched by `at`: the leftmost match. */
  function Search(s: string, p: nat, at: (string, nat) -> Option<real>): (r: Option<real>)
    requires p <= |s|
    ensures r.Some? <==> exists q :: p <= q <= |s| && at(s, q).Some?
    ensures r.Some? ==> exists q :: (p <= q <= |s| && at(s, q) == r
      && forall q' :: p <= q' < q ==> at(s, q').None?)
    decreases |s| - p
  {
    if at(s, p).Some? then at(s, p)
    else if p == |s| then None
    else Search(s, p + 1, at)
  }

  /** FFmpeg's `out_time_ms`/`out_time_us` count microseconds. */
  function MicrosToSeconds(us: real): real {
    us / 1000000.0
  }

  /** An `out_time` count found anywhere is never negative. */
  lemma OutTimeFoundNonNegative(text: string)
    ensures Search(text, 0, OutTimeAt).Some? ==> Search(text, 0, OutTimeAt).value >= 0.0
  {
    if Search(text, 0, OutTimeAt).Some? {
      var q :| 0 <= q <= |text| && OutTimeAt(text, q) == Search(text, 0, OutTimeAt);
    }
  }

  /**
   * `parse_ffmpeg_progress_seconds`: seconds from an `out_time_ms=`/
   * `out_time_us=` microsecond count when the line has one, else from a
   * `time=H:M:S[.f]` stamp, else nothing; blank lines give nothing.
   */
  function ParseProgressSeconds(line: string): (r: Option<real>)
    ensures r.Some? ==> r.value >= 0.0
    ensures Strip(line) == [] ==> r == None
  {
    var text := Strip(line);
    if text == [] then None
    else
      match Search(text, 0, OutTimeAt)
      case Some(us) =>
        OutTimeFoundNonNegative(text);
        Some(MicrosToSeconds(us))
      case None => Search(text, 0, ClockAt)
  }

  /**
   * A line is read through its leftmost `out_time` match when it has one,
   * and otherwise through its leftmost `time=` match; it gives nothing when
   * it has neither.
   */
  lemma ParseChoosesLeftmost(line: string)
    requires Strip(line) != []
    ensures var text := Strip(line);
      var r := ParseProgressSeconds(line);
      && (Search(text, 0, OutTimeAt).Some? ==> r == Some(MicrosToSeconds(Search(text, 0, OutTimeAt).value)))
      && (Search(text, 0, OutTimeAt).None? ==> r == Search(text, 0, ClockAt))
      && (r.Some? <==> exists q :: 0 <= q <= |text| && (OutTimeAt(text, q).Some? || ClockAt(text, q).Some?))
  {
    SearchEither(Strip(line), OutTimeAt, ClockAt);
  }

  /** Either of two searches finds something exactly when one of the two patterns matches somewhere. */
  lemma SearchEither(text: string, at1: (string, nat) -> Option<real>, at2: (string, nat) -> Option<real>)
    ensures (Search(text, 0, at1).Some? || Search(text, 0, at2).Some?)
      <==> exists q :: 0 <= q <= |text| && (at1(text, q).Some? || at2(text, q).Some?)
  {
    if Search(text, 0, at1).None? && Search(text, 0, at2).None? {
      assert forall q :: 0 <= q <= |text| ==> at1(text, q).None? && at2(text, q).None?;
    }
  }

  // ---------------------------------------------------------------------------
  // Progress total

  /** A video track with clips. */
  predicate Candidate(t: Track) { t.kind == "video" && t.clips != [] }

  /** The position of the first track satisfying `p`, or `|tracks|`. */
  function FirstWhere(tracks: seq<Track>, p: Track -> bool): (k: nat)
    ensures k <= |tracks|
    ensures k < |tracks| ==> p(tracks[k])
    ensures forall j :: 0 <= j < k ==> !p(tracks[j])
  {
    if tracks == [] then 0 else if p(tracks[0]) then 0 else 1 + FirstWhere(tracks[1..], p)
  }

  /**
   * The first visible video track with clips; failing that, the first video
   * track with clips.
   */
  function PrimaryVideoTrack(tracks: seq<Track>): (r: Option<Track>)
    ensures r.Some? ==> r.value in tracks && Candidate(r.value)
    ensures r.None? <==> forall k :: 0 <= k < |tracks| ==> !Candidate(tracks[k])
    ensures (exists k :: 0 <= k < |tracks| && Candidate(tracks[k]) && tracks[k].visible) ==> r.Some? && r.value.visible
    ensures r.Some? && r.value.visible ==>
      exists k :: 0 <= k < |tracks| && tracks[k] == r.value
        && forall j :: 0 <= j < k ==> !(Candidate(tracks[j]) && tracks[j].visible)
    ensures r.Some? && !r.value.visible ==>
      exists k :: 0 <= k < |tracks| && tracks[k] == r.value
        && forall j :: 0 <= j < k ==> !Candidate(tracks[j])
  {
    var v := FirstWhere(tracks, (t: Track) => Candidate(t) && t.visible);
    var c := FirstWhere(tracks, (t: Track) => Candidate(t));
    if v < |tracks| then Some(tracks[v])
    else if c < |tracks| then Some(tracks[c])
    else None
  }

  /** The tracks satisfying `p`, in order. */
  function Filter(tracks: seq<Track>, p: Track -> bool): (r: seq<Track>)
    ensures forall k :: 0 <= k < |r| ==> p(r[k]) && r[k] in tracks
    ensures forall k :: 0 <= k < |tracks| && p(tracks[k]) ==> tracks[k] in r
  {
    if tracks == [] then []
    else
      var rest := Filter(tracks[1..], p);
      assert forall k :: 0 <= k < |rest| ==> rest[k] in tracks[1..];
      if p(tracks[0]) then [tracks[0]] + rest else rest
  }

  /**
   * `_export_total_duration`: the plain total of the primary video track
   * when the project has one, else of the V1 list.
   */
  function ExportTotalDuration(vClips: seq<Clip>, tracks: seq<Track>): (d: real)
    ensures d >= 0.0
    ensures PrimaryVideoTrack(tracks).None? ==> d == TotalDuration(vClips)
    ensures PrimaryVideoTrack(tracks).Some? ==> d == TotalDuration(PrimaryVideoTrack(tracks).value.clips)
  {
    match PrimaryVideoTrack(tracks)
    case Some(t) => TotalDuration(t.clips)
    case None => TotalDuration(vClips)
  }

  // ---------------------------------------------------------------------------
  // The progress loop

  const Tolerance: real := 0.000001
  const MinStep: real := 0.05

  /** A parsed time clamped to `[0, total]` (to `[0, ∞)` when the total is 0). */
  function Clamp(sec: real, total: real): (c: real)
    ensures c >= 0.0
    ensures total > 0.0 ==> c <= total
  {
    var c := if sec > 0.0 then sec else 0.0;
    if total > 0.0 && c > total then total else c
  }

  /** Whether the loop reports `c` after last reporting `last`. */
  predicate Reports(c: real, last: real, total: real) {
    && !(c + Tolerance < last)
    && (c >= last + MinStep || (total > 0.0 && c >= total - Tolerance))
  }

  /** What the loop reads from each line. */
  function ParseAll(lines: seq<string>): (secs: seq<Option<real>>)
    ensures |secs| == |lines|
    ensures forall k :: 0 <= k < |lines| ==> secs[k] == ParseProgressSeconds(lines[k])
  {
    seq(|lines|, k requires 0 <= k < |lines| => ParseProgressSeconds(lines[k]))
  }

  /** The values the loop reports for the parsed lines `secs`, having last reported `last`. */
  function Reported(secs: seq<Option<real>>, total: real, last: real): (em: seq<real>)
    ensures forall k :: 0 <= k < |em| ==> em[k] >= 0.0 && (total > 0.0 ==> em[k] <= total)
  {
    if secs == [] then []
    else
      match secs[0]
      case None => Reported(secs[1..], total, last)
      case Some(sec) =>
        var c := Clamp(sec, total);
        if Reports(c, last, total) then [c] + Reported(secs[1..], total, c)
        else Reported(secs[1..], total, last)
  }

  /**
   * The least value the loop can report after reporting `last`: `last` itself
   * or the tolerance below the total, whichever is smaller; a full step up when
   * the total is 0.
   */
  function Floor(last: real, total: real): real {
    if total > 0.0 then
      if last <= total - Tolerance then last else total - Tolerance
    else last + MinStep
  }

  /**
   * Every value reported after `last` is at least `Floor(last, total)`.
   */
  lemma {:induction false} ReportedFloor(secs: seq<Option<real>>, total: real, last: real)
    requires total >= 0.0
    ensures var em := Reported(secs, total, last);
      forall k :: 0 <= k < |em| ==> em[k] >= Floor(last, total)
  {
    if secs != [] {
      if secs[0].Some? && Reports(Clamp(secs[0].value, total), last, total) {
        var c := Clamp(secs[0].value, total);
        ReportedFloor(secs[1..], total, c);
        var em := Reported(secs, total, last);
        assert em == [c] + Reported(secs[1..], total, c);
        assert c >= Floor(last, total);
        assert Floor(c, total) >= Floor(last, total);
        assert forall k :: 1 <= k < |em| ==> em[k] == Reported(secs[1..], total, c)[k - 1];
      } else {
        ReportedFloor(secs[1..], total, last);
        assert Reported(secs, total, last) == Reported(secs[1..], total, last);
      }
    }
  }

  /** Whether `b`, reported after `a`, keeps the order the loop promises. */
  predicate Follows(a: real, b: real, total: real) {
    && (b >= a || (total > 0.0 && total - Tolerance <= b < a <= total))
    && b >= a - Tolerance
    && (total == 0.0 ==> b >= a + MinStep)
  }

  /** Every later value of `em` follows every earlier one. */
  predicate InOrder(em: seq<real>, total: real) {
    forall i, j :: 0 <= i < j < |em| ==> Follows(em[i], em[j], total)
  }

  /** A value followed only by values at or above its floor, then values in order, is in order. */
  lemma ConsInOrder(c: real, rest: seq<real>, total: real)
    requires total >= 0.0 && c >= 0.0 && (total > 0.0 ==> c <= total)
    requires forall k :: 0 <= k < |rest| ==> rest[k] >= Floor(c, total)
    requires InOrder(rest, total)
    ensures InOrder([c] + rest, total)
  {
    var em := [c] + rest;
    forall i, j | 0 <= i < j < |em|
      ensures Follows(em[i], em[j], total)
    {
      assert em[j] == rest[j - 1];
      if i > 0 {
        assert em[i] == rest[i - 1];
      }
    }
  }

  /**
   * The reported values never go down, except inside the last `Tolerance`
   * seconds before the total; with a total of 0 they go up by at least
   * `MinStep` every time.
   */
  lemma {:induction false} ReportedOrder(secs: seq<Option<real>>, total: real, last: real)
    requires total >= 0.0
    ensures var em := Reported(secs, total, last);
      forall i, j :: 0 <= i < j < |em| ==>
        && (em[j] >= em[i] || (total > 0.0 && total - Tolerance <= em[j] < em[i] <= total))
        && em[j] >= em[i] - Tolerance
        && (total == 0.0 ==> em[j] >= em[i] + MinStep)
  {
    ReportedInOrder(secs, total, last);
  }

  lemma {:induction false} ReportedInOrder(secs: seq<Option<real>>, total: real, last: real)
    requires total >= 0.0
    ensures InOrder(Reported(secs, total, last), total)
  {
    if secs != [] {
      ReportedHead(secs, total, last);
      if secs[0].Some? && Reports(Clamp(secs[0].value, total), last, total) {
        var c := Clamp(secs[0].value, total);
        ReportedInOrder(secs[1..], total, c);
        ReportedFloor(secs[1..], total, c);
        ConsInOrder(c, Reported(secs[1..], total, c), total);
      } else {
        ReportedInOrder(secs[1..], total, last);
      }
    }
  }

  /** One `on_progress(current, total)` call. */
  datatype Event = Event(current: real, total: real)

  /** How the FFmpeg process ended. */
  datatype ExportOutcome = Finished | Failed(exitCode: int)

  function Events(em: seq<real>, total: real): (ev: seq<Event>)
    ensures |ev| == |em|
    ensures forall k :: 0 <= k < |em| ==> ev[k] == Event(em[k], total)
  {
    seq(|em|, k requires 0 <= k < |em| => Event(em[k], total))
  }

  /**
   * The loop over FFmpeg's output lines: the current values passed to the
   * callback, given the total and whether there is a callback at all.
   */
  method ReportLines(lines: seq<string>, total: real, hasCallback: bool) returns (reported: seq<real>)
    ensures hasCallback ==> reported == Reported(ParseAll(lines), total, 0.0)
    ensures !hasCallback ==> reported == []
  {
    reported := [];
    var last := 0.0;
    ghost var secs := ParseAll(lines);
    var i := 0;
    while i < |lines|
      invariant 0 <= i <= |lines|
      invariant hasCallback ==> reported + Reported(secs[i..], total, last) == Reported(secs, total, 0.0)
      invariant !hasCallback ==> reported == []
    {
      var sec := ParseProgressSeconds(lines[i]);
      ReportedHead(secs[i..], total, last);
      assert secs[i..][1..] == secs[i + 1..];
      assert sec == secs[i..][0];
      if sec.Some? {
        var emit, current := ShouldEmit(sec.value, last, total);
        if emit && hasCallback {
          last := current;
          reported := reported + [current];
        }
      }
      i := i + 1;
    }
    assert secs[|lines|..] == [];
  }

  /** One step of `Reported`: what the first parsed line contributes. */
  lemma ReportedHead(secs: seq<Option<real>>, total: real, last: real)
    requires secs != []
    ensures secs[0].None? ==> Reported(secs, total, last) == Reported(secs[1..], total, last)
    ensures secs[0].Some? && Reports(Clamp(secs[0].value, total), last, total) ==>
      var c := Clamp(secs[0].value, total);
      Reported(secs, total, last) == [c] + Reported(secs[1..], total, c)
    ensures secs[0].Some? && !Reports(Clamp(secs[0].value, total), last, total) ==>
      Reported(secs, total, last) == Reported(secs[1..], total, last)
  {
  }

  /**
   * The body of the loop for one parsed time: the value clamped to the total,
   * and whether it is reported after `last`.
   */
  method ShouldEmit(sec: real, last: real, total: real) returns (emit: bool, current: real)
    ensures current == Clamp(sec, total)
    ensures emit <==> Reports(current, last, total)
  {
    current := if sec > 0.0 then sec else 0.0;
    if total > 0.0 && current > total {
      current := total;
    }
    emit := false;
    if !(current + Tolerance < last) {
      emit := current >= last + MinStep;
      if total > 0.0 && current >= total - Tolerance {
        emit := true;
      }
    }
  }

  /**
   * `export_project_with_progress` after the command is built, over the lines
   * FFmpeg wrote and its exit code. With a callback: `(0, total)` first, then
   * the reported values, then `(total, total)` on success only; a non-zero exit
   * code is a failure.
   */
  method ReportProgress(vClips: seq<Clip>, tracks: seq<Track>, lines: seq<string>, exitCode: int, hasCallback: bool)
    returns (events: seq<Event>, outcome: ExportOutcome)
    ensures var total := ExportTotalDuration(vClips, tracks);
      && (hasCallback ==>
            events == [Event(0.0, total)] + Events(Reported(ParseAll(lines), total, 0.0), total)
              + (if exitCode == 0 then [Event(total, total)] else []))
      && (!hasCallback ==> events == [])
    ensures outcome == (if exitCode == 0 then Finished else Failed(exitCode))
  {
    var total := ExportTotalDuration(vClips, tracks);
    events := [];
    if hasCallback {
      events := [Event(0.0, total)];
    }
    var reported := ReportLines(lines, total, hasCallback);
    if hasCallback {
      events := events + Events(reported, total);
    }
    if exitCode != 0 {
      return events, Failed(exitCode);
    }
    if hasCallback {
      events := events + [Event(total, total)];
    }
    outcome := Finished;
  }

  /**
   * On success the first event is `(0, total)` and the last is
   * `(total, total)`, every event carries the same total, and every current
   * value lies in `[0, total]` when the total is positive.
   */
  lemma ProgressEnds(secs: seq<Option<real>>, total: real)
    requires total >= 0.0
    ensures var events := [Event(0.0, total)] + Events(Reported(secs, total, 0.0), total) + [Event(total, total)];
      && events[0] == Event(0.0, total)
      && events[|events| - 1] == Event(total, total)
      && (forall k :: 0 <= k < |events| ==> events[k].total == total && events[k].current >= 0.0)
      && (total > 0.0 ==> forall k :: 0 <= k < |events| ==> events[k].current <= total)
  {
    var em := Reported(secs, total, 0.0);
    var events := [Event(0.0, total)] + Events(em, total) + [Event(total, total)];
    assert forall k :: 1 <= k < |events| - 1 ==> events[k] == Event(em[k - 1], total);
  }
}
