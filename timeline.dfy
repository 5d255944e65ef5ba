/**
 * Timeline list edits. Every edit takes the ordered clip list of one lane and
 * returns a new list; the input is never changed. Fresh clip ids, which the
 * editor draws from `uuid4`, are parameters here.
 */
module Timeline {
  import opened Results
  import opened Model

  // ---------------------------------------------------------------------------
  // Reference definitions

  /** The position of the first clip with id `id`, or `|clips|` when none has it. */
  function IndexOfId(clips: seq<Clip>, id: string): (k: nat)
    ensures k <= |clips|
    ensures k < |clips| ==> clips[k].id == id
    ensures forall j :: 0 <= j < k ==> clips[j].id != id
  {
    if clips == [] then 0
    else if clips[0].id == id then 0
    else 1 + IndexOfId(clips[1..], id)
  }

  /** The position of the last clip with id `id`, or -1 when none has it. */
  function LastIndexOfId(clips: seq<Clip>, id: string): (k: int)
    ensures -1 <= k < |clips|
    ensures k >= 0 ==> clips[k].id == id
    ensures forall j :: k < j < |clips| ==> clips[j].id != id
  {
    if clips == [] then -1
    else if clips[|clips| - 1].id == id then |clips| - 1
    else LastIndexOfId(clips[..|clips| - 1], id)
  }

  /** The clips whose id is not `id`, in their order. */
  function WithoutId(clips: seq<Clip>, id: string): (r: seq<Clip>)
    ensures |r| <= |clips|
    ensures forall j :: 0 <= j < |r| ==> r[j].id != id
    ensures (forall j :: 0 <= j < |clips| ==> clips[j].id != id) ==> r == clips
  {
    if clips == [] then []
    else
      var init := WithoutId(clips[..|clips| - 1], id);
      var last := clips[|clips| - 1];
      if last.id == id then init else init + [last]
  }

  /** `sum(c.dur for c in clips)`, added from the left. */
  function TotalDuration(clips: seq<Clip>): (d: real)
    ensures d >= 0.0
  {
    if clips == [] then 0.0
    else TotalDuration(clips[..|clips| - 1]) + Dur(clips[|clips| - 1])
  }

  lemma {:induction false} TotalDurationAppend(a: seq<Clip>, b: seq<Clip>)
    ensures TotalDuration(a + b) == TotalDuration(a) + TotalDuration(b)
    decreases |b|
  {
    if b == [] {
      assert a + b == a;
    } else {
      var b' := b[..|b| - 1];
      assert (a + b)[..|a + b| - 1] == a + b';
      TotalDurationAppend(a, b');
    }
  }

  lemma TotalDurationSingle(c: Clip)
    ensures TotalDuration([c]) == Dur(c)
  {
    assert [c][..0] == [];
  }

  /** The total is the sum over any split point: the left part plus the right part. */
  lemma TotalDurationSplit(a: seq<Clip>, m: Clip, b: seq<Clip>)
    ensures TotalDuration(a + [m] + b) == TotalDuration(a) + Dur(m) + TotalDuration(b)
  {
    TotalDurationAppend(a, [m]);
    TotalDurationAppend(a + [m], b);
    TotalDurationSingle(m);
  }

  // ---------------------------------------------------------------------------
  // add_clip_end

  /** `add_clip_end`: the list followed by one full-length clip of `src`. */
  function AddClipEnd(clips: seq<Clip>, newId: string, src: string, duration: real): (r: seq<Clip>)
    ensures |r| == |clips| + 1 && r[..|clips|] == clips
    ensures r[|clips|] == NewClip(newId, src, 0.0, duration)
    ensures TotalDuration(r) == TotalDuration(clips) + (if duration > 0.0 then duration else 0.0)
  {
    var r := clips + [NewClip(newId, src, 0.0, duration)];
    assert r[..|clips|] == clips;
    r
  }

  // ---------------------------------------------------------------------------
  // insert_clip_before

  /** `s` with `x` placed just before the first clip with id `targetId`, or at the end. */
  method InsertBeforeFirst(s: seq<Clip>, targetId: string, x: Clip) returns (out: seq<Clip>)
    ensures var k := IndexOfId(s, targetId);
      out == s[..k] + [x] + s[k..]
  {
    ghost var k := IndexOfId(s, targetId);
    out := [];
    var inserted := false;
    var i := 0;
    while i < |s|
      invariant 0 <= i <= |s|
      invariant inserted <==> k < i
      invariant !inserted ==> out == s[..i]
      invariant inserted ==> out == s[..k] + [x] + s[k..i]
    {
      if s[i].id == targetId && !inserted {
        out := out + [x];
        inserted := true;
      }
      out := out + [s[i]];
      assert s[..i + 1] == s[..i] + [s[i]];
      i := i + 1;
    }
    if !inserted {
      out := out + [x];
    }
    assert s[..|s|] == s;
  }

  /**
   * `insert_clip_before`: one new full-length clip, placed just before the first
   * clip with id `beforeId`, or at the end when no clip has that id.
   */
  method InsertClipBefore(clips: seq<Clip>, beforeId: string, newId: string, src: string, duration: real)
    returns (out: seq<Clip>)
    ensures var k := IndexOfId(clips, beforeId);
      out == clips[..k] + [NewClip(newId, src, 0.0, duration)] + clips[k..]
    ensures |out| == |clips| + 1
    ensures multiset(out) == multiset(clips) + multiset{NewClip(newId, src, 0.0, duration)}
  {
    out := InsertBeforeFirst(clips, beforeId, NewClip(newId, src, 0.0, duration));
    InsertedMultiset(clips, NewClip(newId, src, 0.0, duration), IndexOfId(clips, beforeId));
  }

  /** Putting `m` into `s` anywhere adds exactly `m` to its contents. */
  lemma InsertedMultiset<T>(s: seq<T>, m: T, k: nat)
    requires k <= |s|
    ensures multiset(s[..k] + [m] + s[k..]) == multiset(s) + multiset{m}
  {
    assert s == s[..k] + s[k..];
  }

  /** Taking the new clip back out of the result gives the input list. */
  lemma InsertThenRemove(clips: seq<Clip>, beforeId: string, c: Clip)
    ensures var k := IndexOfId(clips, beforeId);
      var out := clips[..k] + [c] + clips[k..];
      out[k] == c && out[..k] + out[k + 1..] == clips
  {
    var k := IndexOfId(clips, beforeId);
    var out := clips[..k] + [c] + clips[k..];
    assert out[..k] == clips[..k];
    assert out[k + 1..] == clips[k..];
  }

  // ---------------------------------------------------------------------------
  // find_clip

  /** `find_clip`: the first clip with id `id`, if any. */
  method FindClip(clips: seq<Clip>, id: string) returns (r: Option<Clip>)
    ensures r.Some? <==> exists j :: 0 <= j < |clips| && clips[j].id == id
    ensures r.Some? ==> r.value == clips[IndexOfId(clips, id)] && r.value.id == id
  {
    var i := 0;
    while i < |clips|
      invariant 0 <= i <= |clips|
      invariant forall j :: 0 <= j < i ==> clips[j].id != id
    {
      if clips[i].id == id {
        return Some(clips[i]);
      }
      i := i + 1;
    }
    return None;
  }

  // ---------------------------------------------------------------------------
  // split_clip

  /** The message `split_clip` returns. */
  datatype SplitStatus = Done | TooCloseToEdge | NotFound

  const MsgDone: string := "Split แล้ว"
  const MsgTooClose: string := "จุด Split ใกล้ขอบเกินไป"
  const MsgNotFound: string := "ไม่พบคลิปที่จะ Split"

  function Message(s: SplitStatus): (m: string)
    ensures m != []
  {
    match s
    case Done => MsgDone
    case TooCloseToEdge => MsgTooClose
    case NotFound => MsgNotFound
  }

  /** The guard against ultra-short pieces. */
  predicate TooClose(c: Clip, t: real, minPiece: real) {
    t <= minPiece || t >= Dur(c) - minPiece
  }

  /**
   * What the clip at input position `i` becomes: itself when its id differs or
   * the cut is too close to an edge, else a left and a right piece cut at
   * `inSec + t`, with the fresh ids `newIds(2i)` and `newIds(2i + 1)`.
   */
  function Pieces(c: Clip, i: nat, clipId: string, t: real, minPiece: real, newIds: nat -> string): (r: seq<Clip>)
    ensures c.id != clipId || TooClose(c, t, minPiece) ==> r == [c]
    ensures c.id == clipId && !TooClose(c, t, minPiece) ==>
      && |r| == 2
      && r[0] == c.(id := newIds(2 * i), outSec := c.inSec + t)
      && r[1] == c.(id := newIds(2 * i + 1), inSec := c.inSec + t)
  {
    if c.id != clipId || TooClose(c, t, minPiece) then [c]
    else
      var mid := c.inSec + t;
      [c.(id := newIds(2 * i), outSec := mid), c.(id := newIds(2 * i + 1), inSec := mid)]
  }

  /** The output list after the first `n` input clips. */
  function SplitPrefix(clips: seq<Clip>, n: nat, clipId: string, t: real, minPiece: real, newIds: nat -> string): seq<Clip>
    requires n <= |clips|
  {
    if n == 0 then []
    else SplitPrefix(clips, n - 1, clipId, t, minPiece, newIds) + Pieces(clips[n - 1], n - 1, clipId, t, minPiece, newIds)
  }

  /** The selection and message decided by the last clip with the id, as the loop leaves them. */
  function SplitOutcome(clips: seq<Clip>, clipId: string, t: real, minPiece: real, newIds: nat -> string): (Option<string>, SplitStatus) {
    var k := LastIndexOfId(clips, clipId);
    if k < 0 then (None, NotFound)
    else if TooClose(clips[k], t, minPiece) then (Some(clips[k].id), TooCloseToEdge)
    else (Some(newIds(2 * k)), Done)
  }

  /**
   * The selection and message the loop holds after the first `n` clips: those
   * of the last clip so far with the id, or nothing and "" while there is none.
   */
  function SplitVerdict(clips: seq<Clip>, n: nat, clipId: string, t: real, minPiece: real, newIds: nat -> string): (v: (Option<string>, string))
    requires n <= |clips|
    ensures var k := LastIndexOfId(clips[..n], clipId);
      v == if k < 0 then (None, "")
        else if TooClose(clips[k], t, minPiece) then (Some(clips[k].id), MsgTooClose)
        else (Some(newIds(2 * k)), MsgDone)
  {
    if n == 0 then (None, "")
    else
      LastIndexStep(clips, n - 1, clipId);
      var c := clips[n - 1];
      if c.id != clipId then SplitVerdict(clips, n - 1, clipId, t, minPiece, newIds)
      else if TooClose(c, t, minPiece) then (Some(c.id), MsgTooClose)
      else (Some(newIds(2 * (n - 1))), MsgDone)
  }

  /**
   * `split_clip`: returns the new list, the id to select and the message.
   * The list is the input with each clip of that id replaced by its pieces.
   */
  method SplitClip(clips: seq<Clip>, clipId: string, t: real, minPiece: real, newIds: nat -> string)
    returns (out: seq<Clip>, selected: Option<string>, msg: string)
    ensures out == SplitPrefix(clips, |clips|, clipId, t, minPiece, newIds)
    ensures selected == SplitOutcome(clips, clipId, t, minPiece, newIds).0
    ensures msg == Message(SplitOutcome(clips, clipId, t, minPiece, newIds).1)
  {
    out := [];
    msg := "";
    selected := None;
    var i := 0;
    while i < |clips|
      invariant 0 <= i <= |clips|
      invariant out == SplitPrefix(clips, i, clipId, t, minPiece, newIds)
      invariant (selected, msg) == SplitVerdict(clips, i, clipId, t, minPiece, newIds)
    {
      var c := clips[i];
      ghost var pieces := Pieces(c, i, clipId, t, minPiece, newIds);
      assert SplitPrefix(clips, i + 1, clipId, t, minPiece, newIds) == out + pieces;
      if c.id != clipId {
        out := out + [c];
      } else if TooClose(c, t, minPiece) {
        out := out + [c];
        msg := MsgTooClose;
        selected := Some(c.id);
      } else {
        var mid := c.inSec + t;
        var c1 := c.(id := newIds(2 * i), outSec := mid);
        var c2 := c.(id := newIds(2 * i + 1), inSec := mid);
        assert [c1, c2] == pieces;
        out := out + [c1, c2];
        selected := Some(c1.id);
        msg := MsgDone;
      }
      i := i + 1;
    }
    VerdictIsOutcome(clips, clipId, t, minPiece, newIds);
    if msg == [] {
      msg := MsgNotFound;
    }
  }

  /** After the whole list, the loop's selection is the outcome's, and its message is the outcome's once "" becomes not-found. */
  lemma VerdictIsOutcome(clips: seq<Clip>, clipId: string, t: real, minPiece: real, newIds: nat -> string)
    ensures var v := SplitVerdict(clips, |clips|, clipId, t, minPiece, newIds);
      var o := SplitOutcome(clips, clipId, t, minPiece, newIds);
      && v.0 == o.0
      && (if v.1 == [] then MsgNotFound else v.1) == Message(o.1)
  {
    assert clips[..|clips|] == clips;
  }

  /** One more input clip: how dropping an id changes. */
  lemma WithoutIdStep(clips: seq<Clip>, i: nat, id: string)
    requires i < |clips|
    ensures WithoutId(clips[..i + 1], id)
      == if clips[i].id == id then WithoutId(clips[..i], id) else WithoutId(clips[..i], id) + [clips[i]]
  {
    assert clips[..i + 1][..i] == clips[..i];
  }

  /** One more input clip: how the last position of an id changes. */
  lemma LastIndexStep(clips: seq<Clip>, i: nat, id: string)
    requires i < |clips|
    ensures LastIndexOfId(clips[..i + 1], id)
      == if clips[i].id == id then i else LastIndexOfId(clips[..i], id)
  {
    assert clips[..i + 1][..i] == clips[..i];
  }

  /** Before the first clip with that id, the output is the input. */
  lemma {:induction false} SplitPrefixNoMatch(clips: seq<Clip>, n: nat, clipId: string, t: real, minPiece: real, newIds: nat -> string)
    requires n <= |clips|
    requires forall j :: 0 <= j < n ==> clips[j].id != clipId
    ensures SplitPrefix(clips, n, clipId, t, minPiece, newIds) == clips[..n]
  {
    if n > 0 {
      SplitPrefixNoMatch(clips, n - 1, clipId, t, minPiece, newIds);
      assert clips[..n] == clips[..n - 1] + [clips[n - 1]];
    }
  }

  /** Splitting an id no clip has gives the list back unchanged, selects nothing and says so. */
  lemma SplitAbsentId(clips: seq<Clip>, clipId: string, t: real, minPiece: real, newIds: nat -> string)
    requires forall j :: 0 <= j < |clips| ==> clips[j].id != clipId
    ensures SplitPrefix(clips, |clips|, clipId, t, minPiece, newIds) == clips
    ensures SplitOutcome(clips, clipId, t, minPiece, newIds) == (None, NotFound)
  {
    SplitPrefixNoMatch(clips, |clips|, clipId, t, minPiece, newIds);
    assert clips[..|clips|] == clips;
  }

  /**
   * A cut too close to an edge of every clip with that id leaves the list
   * unchanged; the selection is the last such clip's id.
   */
  lemma {:induction false} SplitTooClose(clips: seq<Clip>, n: nat, clipId: string, t: real, minPiece: real, newIds: nat -> string)
    requires n <= |clips|
    requires forall j :: 0 <= j < |clips| && clips[j].id == clipId ==> TooClose(clips[j], t, minPiece)
    ensures SplitPrefix(clips, n, clipId, t, minPiece, newIds) == clips[..n]
    ensures var k := LastIndexOfId(clips, clipId);
      k >= 0 ==> SplitOutcome(clips, clipId, t, minPiece, newIds) == (Some(clipId), TooCloseToEdge)
  {
    if n > 0 {
      SplitTooClose(clips, n - 1, clipId, t, minPiece, newIds);
      assert clips[..n] == clips[..n - 1] + [clips[n - 1]];
    }
  }

  /** Before and after the only clip with that id, the output is the input. */
  lemma {:induction false} SplitPrefixUnique(clips: seq<Clip>, n: nat, k: nat, clipId: string, t: real, minPiece: real, newIds: nat -> string)
    requires k < n <= |clips|
    requires forall j :: 0 <= j < |clips| && j != k ==> clips[j].id != clipId
    ensures SplitPrefix(clips, n, clipId, t, minPiece, newIds)
      == clips[..k] + Pieces(clips[k], k, clipId, t, minPiece, newIds) + clips[k + 1..n]
  {
    var p := Pieces(clips[k], k, clipId, t, minPiece, newIds);
    if n == k + 1 {
      SplitPrefixNoMatch(clips, k, clipId, t, minPiece, newIds);
      EmptySlice(clips[..k] + p, clips, k + 1);
    } else {
      SplitPrefixUnique(clips, n - 1, k, clipId, t, minPiece, newIds);
      assert clips[n - 1].id != clipId;
      SliceSnoc(clips[..k] + p, clips, k + 1, n - 1);
    }
  }

  /** Extending a slice by one element, after a fixed front part. */
  lemma SliceSnoc<T>(front: seq<T>, s: seq<T>, i: nat, j: nat)
    requires i <= j < |s|
    ensures front + s[i..j] + [s[j]] == front + s[i..j + 1]
  {
    assert s[i..j + 1] == s[i..j] + [s[j]];
  }

  /** An empty slice after a front part adds nothing. */
  lemma EmptySlice<T>(front: seq<T>, s: seq<T>, i: nat)
    requires i <= |s|
    ensures front + s[i..i] == front
  {
  }

  /**
   * Splitting the only clip with that id, strictly inside its guard band: the
   * clip is replaced in place by `[in, in + t]` and `[in + t, out]`, every other
   * clip stays where it was, each piece is longer than `minPiece`, keeps the
   * source, volume, mute and audio flags, the two durations add up to the
   * original's, and the left piece is selected.
   */
  lemma SplitInside(clips: seq<Clip>, k: nat, clipId: string, t: real, minPiece: real, newIds: nat -> string)
    requires k < |clips| && clips[k].id == clipId
    requires forall j :: 0 <= j < |clips| && j != k ==> clips[j].id != clipId
    requires minPiece >= 0.0 && minPiece < t < Dur(clips[k]) - minPiece
    ensures var c := clips[k];
      var left := c.(id := newIds(2 * k), outSec := c.inSec + t);
      var right := c.(id := newIds(2 * k + 1), inSec := c.inSec + t);
      && SplitPrefix(clips, |clips|, clipId, t, minPiece, newIds) == clips[..k] + [left, right] + clips[k + 1..]
      && left.src == c.src && right.src == c.src
      && left.volume == c.volume && right.volume == c.volume
      && left.muted == c.muted && right.muted == c.muted
      && left.hasAudio == c.hasAudio && right.hasAudio == c.hasAudio
      && left.inSec == c.inSec && left.outSec == right.inSec && right.outSec == c.outSec
      && Dur(left) > minPiece && Dur(right) > minPiece
      && Dur(left) + Dur(right) == Dur(c)
      && SplitOutcome(clips, clipId, t, minPiece, newIds) == (Some(left.id), Done)
  {
    SplitPrefixUnique(clips, |clips|, k, clipId, t, minPiece, newIds);
    assert clips[k + 1..|clips|] == clips[k + 1..];
  }

  /** Splitting never changes the total duration of the lane. */
  lemma SplitKeepsTotal(clips: seq<Clip>, k: nat, clipId: string, t: real, minPiece: real, newIds: nat -> string)
    requires k < |clips| && clips[k].id == clipId
    requires forall j :: 0 <= j < |clips| && j != k ==> clips[j].id != clipId
    requires minPiece >= 0.0
    ensures TotalDuration(SplitPrefix(clips, |clips|, clipId, t, minPiece, newIds)) == TotalDuration(clips)
  {
    var c := clips[k];
    var a, b := clips[..k], clips[k + 1..];
    SplitPrefixUnique(clips, |clips|, k, clipId, t, minPiece, newIds);
    assert clips[k + 1..|clips|] == b;
    var p := Pieces(c, k, clipId, t, minPiece, newIds);
    TotalDurationAppend(a + p, b);
    TotalDurationAppend(a, p);
    PiecesKeepTotal(c, k, clipId, t, minPiece, newIds);
    RemoveKeepsTotal(clips, k);
    TotalDurationAppend(a, b);
  }

  /** The two pieces of a cut add up to the clip they came from. */
  lemma PiecesKeepTotal(c: Clip, i: nat, clipId: string, t: real, minPiece: real, newIds: nat -> string)
    requires minPiece >= 0.0
    ensures TotalDuration(Pieces(c, i, clipId, t, minPiece, newIds)) == Dur(c)
  {
    var p := Pieces(c, i, clipId, t, minPiece, newIds);
    if c.id != clipId || TooClose(c, t, minPiece) {
      TotalDurationSingle(c);
    } else {
      assert p[..1] == [p[0]];
      TotalDurationSingle(p[0]);
    }
  }

  // ---------------------------------------------------------------------------
  // move_clip_before

  /** What `move_clip_before` returns, stated over the reference definitions. */
  function Moved(clips: seq<Clip>, movingId: string, targetId: string): seq<Clip> {
    var last := LastIndexOfId(clips, movingId);
    if movingId == targetId || last < 0 then clips
    else
      var rest := WithoutId(clips, movingId);
      var k := IndexOfId(rest, targetId);
      rest[..k] + [clips[last]] + rest[k..]
  }

  /** The first loop of `move_clip_before`: the last clip with `id`, and the others in order. */
  method TakeOut(clips: seq<Clip>, id: string) returns (moving: Option<Clip>, rest: seq<Clip>)
    ensures rest == WithoutId(clips, id)
    ensures var k := LastIndexOfId(clips, id);
      if k < 0 then moving == None else moving == Some(clips[k])
  {
    moving := None;
    rest := [];
    var i := 0;
    while i < |clips|
      invariant 0 <= i <= |clips|
      invariant rest == WithoutId(clips[..i], id)
      invariant var k := LastIndexOfId(clips[..i], id);
        if k < 0 then moving == None else moving == Some(clips[k])
    {
      WithoutIdStep(clips, i, id);
      LastIndexStep(clips, i, id);
      if clips[i].id == id {
        moving := Some(clips[i]);
      } else {
        rest := rest + [clips[i]];
      }
      i := i + 1;
    }
    assert clips[..|clips|] == clips;
  }

  /**
   * `move_clip_before`: the clip with `movingId` (the last one, should there be
   * several) taken out and put back just before the first clip with
   * `targetId`, or at the end when no other clip has that id.
   */
  method MoveClipBefore(clips: seq<Clip>, movingId: string, targetId: string) returns (out: seq<Clip>)
    ensures out == Moved(clips, movingId, targetId)
    ensures movingId == targetId || (forall j :: 0 <= j < |clips| ==> clips[j].id != movingId) ==> out == clips
  {
    if movingId == targetId {
      return clips;
    }
    var moving, rest := TakeOut(clips, movingId);
    if moving == None {
      return clips;
    }
    out := InsertBeforeFirst(rest, targetId, moving.value);
  }

  lemma WithoutIdAppend(a: seq<Clip>, b: seq<Clip>, id: string)
    ensures WithoutId(a + b, id) == WithoutId(a, id) + WithoutId(b, id)
    decreases |b|
  {
    if b == [] {
      assert a + b == a;
    } else {
      var b' := b[..|b| - 1];
      assert (a + b)[..|a + b| - 1] == a + b';
      WithoutIdAppend(a, b', id);
    }
  }

  /**
   * The clips other than the moved one keep their relative order: dropping the
   * moved id from the output and from the input gives the same list.
   */
  lemma MoveKeepsOthersInOrder(clips: seq<Clip>, movingId: string, targetId: string)
    ensures WithoutId(Moved(clips, movingId, targetId), movingId) == WithoutId(clips, movingId)
  {
    var last := LastIndexOfId(clips, movingId);
    if movingId != targetId && last >= 0 {
      var rest := WithoutId(clips, movingId);
      WithoutIdInsert(rest, clips[last], IndexOfId(rest, targetId), movingId);
    }
  }

  /** Dropping an id from a list without it, with one clip of that id put in anywhere, gives the list back. */
  lemma WithoutIdInsert(rest: seq<Clip>, m: Clip, p: nat, id: string)
    requires p <= |rest| && m.id == id
    requires forall j :: 0 <= j < |rest| ==> rest[j].id != id
    ensures WithoutId(rest[..p] + [m] + rest[p..], id) == rest
  {
    var a, b := rest[..p], rest[p..];
    NoIdSlices(rest, p, id);
    WithoutIdAppend(a + [m], b, id);
    WithoutIdAppend(a, [m], id);
    WithoutIdSingle(m, id);
  }

  /** The two sides of a cut through a list without an id are without it too, and make up the list. */
  lemma NoIdSlices(s: seq<Clip>, p: nat, id: string)
    requires p <= |s|
    requires forall j :: 0 <= j < |s| ==> s[j].id != id
    ensures forall j :: 0 <= j < p ==> s[..p][j].id != id
    ensures forall j :: 0 <= j < |s| - p ==> s[p..][j].id != id
    ensures s[..p] + [] + s[p..] == s
  {
  }

  /** A lone clip with the id is dropped entirely. */
  lemma WithoutIdSingle(m: Clip, id: string)
    requires m.id == id
    ensures WithoutId([m], id) == []
  {
    assert [m][..0] == [];
  }

  /**
   * When the moved id is present, the moved clip sits just before the first
   * clip with the target id (which is then the next element), or last.
   */
  lemma MovePlacesBeforeTarget(clips: seq<Clip>, movingId: string, targetId: string)
    requires movingId != targetId
    requires exists j :: 0 <= j < |clips| && clips[j].id == movingId
    ensures var out := Moved(clips, movingId, targetId);
      var rest := WithoutId(clips, movingId);
      var k := IndexOfId(rest, targetId);
      && |out| == |rest| + 1
      && out[k].id == movingId
      && (k < |rest| ==> out[k + 1].id == targetId)
      && (k == |rest| ==> out[|out| - 1].id == movingId)
      && (forall j :: 0 <= j < k ==> out[j].id != targetId)
  {
    var j :| 0 <= j < |clips| && clips[j].id == movingId;
    var last := LastIndexOfId(clips, movingId);
    assert last >= j;
    var rest := WithoutId(clips, movingId);
    InsertedAt(rest, clips[last], IndexOfId(rest, targetId));
  }

  /** Where everything sits after putting `m` into `s` at position `k`. */
  lemma InsertedAt<T>(s: seq<T>, m: T, k: nat)
    requires k <= |s|
    ensures var out := s[..k] + [m] + s[k..];
      && |out| == |s| + 1
      && out[k] == m
      && (k < |s| ==> out[k + 1] == s[k])
      && out[|out| - 1] == (if k == |s| then m else s[|s| - 1])
      && (forall j :: 0 <= j < k ==> out[j] == s[j])
  {
  }

  /** With `movingId` unique, dropping it loses exactly that clip. */
  lemma {:induction false} WithoutUniqueId(clips: seq<Clip>, k: nat, id: string)
    requires k < |clips| && clips[k].id == id
    requires forall j :: 0 <= j < |clips| && j != k ==> clips[j].id != id
    ensures WithoutId(clips, id) == clips[..k] + clips[k + 1..]
  {
    assert clips == clips[..k] + [clips[k]] + clips[k + 1..];
    WithoutIdAppend(clips[..k] + [clips[k]], clips[k + 1..], id);
    WithoutIdAppend(clips[..k], [clips[k]], id);
    assert [clips[k]][..0] == [];
    assert WithoutId([clips[k]], id) == [];
  }

  /** The last clip with a unique id is that clip. */
  lemma LastOfUniqueId(clips: seq<Clip>, k: nat, id: string)
    requires k < |clips| && clips[k].id == id
    requires forall j :: 0 <= j < |clips| && j != k ==> clips[j].id != id
    ensures LastIndexOfId(clips, id) == k
  {
  }

  /** The two sides of a cut make up the sequence. */
  lemma Halves<T>(s: seq<T>, p: nat)
    requires p <= |s|
    ensures s[..p] + s[p..] == s
  {
  }

  /** The element at `k` with what comes before and after it is the whole sequence. */
  lemma Around<T>(s: seq<T>, k: nat)
    requires k < |s|
    ensures s[..k] + [s[k]] + s[k + 1..] == s
  {
  }

  /** With exactly one clip of the moved id, moving puts that clip back into the others at the target's place. */
  lemma MovedUnique(clips: seq<Clip>, k: nat, movingId: string, targetId: string)
    requires k < |clips| && clips[k].id == movingId
    requires forall j :: 0 <= j < |clips| && j != k ==> clips[j].id != movingId
    requires movingId != targetId
    ensures var rest := clips[..k] + clips[k + 1..];
      var p := IndexOfId(rest, targetId);
      Moved(clips, movingId, targetId) == rest[..p] + [clips[k]] + rest[p..]
  {
    WithoutUniqueId(clips, k, movingId);
    LastOfUniqueId(clips, k, movingId);
  }

  /**
   * When exactly one clip has the moved id, the result is a permutation of the
   * input and the total duration is unchanged.
   */
  lemma MoveIsPermutation(clips: seq<Clip>, k: nat, movingId: string, targetId: string)
    requires k < |clips| && clips[k].id == movingId
    requires forall j :: 0 <= j < |clips| && j != k ==> clips[j].id != movingId
    ensures multiset(Moved(clips, movingId, targetId)) == multiset(clips)
    ensures TotalDuration(Moved(clips, movingId, targetId)) == TotalDuration(clips)
  {
    if movingId != targetId {
      MovedUnique(clips, k, movingId, targetId);
      var rest := clips[..k] + clips[k + 1..];
      var p := IndexOfId(rest, targetId);
      ReinsertKeepsMultiset(clips[..k], clips[k], clips[k + 1..], p);
      Around(clips, k);
      InsertKeepsTotal(rest, clips[k], p);
      RemoveKeepsTotal(clips, k);
    }
  }

  /** Taking `m` out of `a + [m] + b` and putting it back at any position `p` keeps the contents. */
  lemma ReinsertKeepsMultiset(a: seq<Clip>, m: Clip, b: seq<Clip>, p: nat)
    requires p <= |a + b|
    ensures var rest := a + b;
      multiset(rest[..p] + [m] + rest[p..]) == multiset(a + [m] + b)
  {
    var rest := a + b;
    calc {
      multiset(rest[..p] + [m] + rest[p..]);
      multiset(rest[..p]) + multiset{m} + multiset(rest[p..]);
      { assert rest == rest[..p] + rest[p..]; }
      multiset(rest) + multiset{m};
      multiset(a + [m] + b);
    }
  }

  /** Inserting a clip anywhere adds its duration to the total. */
  lemma InsertKeepsTotal(rest: seq<Clip>, m: Clip, p: nat)
    requires p <= |rest|
    ensures TotalDuration(rest[..p] + [m] + rest[p..]) == TotalDuration(rest) + Dur(m)
  {
    Halves(rest, p);
    TotalDurationSplit(rest[..p], m, rest[p..]);
    TotalDurationAppend(rest[..p], rest[p..]);
  }

  /** Removing the clip at `k` takes its duration off the total. */
  lemma RemoveKeepsTotal(clips: seq<Clip>, k: nat)
    requires k < |clips|
    ensures TotalDuration(clips[..k] + clips[k + 1..]) + Dur(clips[k]) == TotalDuration(clips)
  {
    Around(clips, k);
    TotalDurationSplit(clips[..k], clips[k], clips[k + 1..]);
    TotalDurationAppend(clips[..k], clips[k + 1..]);
  }
}
