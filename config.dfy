/**
 * The editor's settings file: a JSON document holding the recent-projects
 * list, the auto-save interval and the last export folder. The file itself
 * is a field of the store; reading it back never fails, since a missing,
 * unreadable or non-dictionary file reads as the defaults.
 */
module Config {
  import opened Results
  import opened PyValues

  /** One entry of the recent-projects list. */
  datatype RecentProject = RecentProject(path: string, name: string, lastOpened: string)

  /** What the settings file holds: nothing, text that is not JSON, or a JSON document. */
  datatype ConfigFile = Missing | Corrupt | Stored(doc: Json)

  const MaxRecent: nat := 10

  /** `default_config()`: no recent projects, a 60-second interval, no export folder. */
  function DefaultConfig(): (cfg: map<string, Json>)
    ensures RecentList(StoredRecent(cfg)) == []
    ensures IntervalOf(cfg) == 60
    ensures "last_export_dir" in cfg && cfg["last_export_dir"] == JStr("")
  {
    map["recent" := JArr([]), "auto_save_interval_sec" := JInt(60), "last_export_dir" := JStr("")]
  }

  // ---------------------------------------------------------------------------
  // Recent-project entries

  /**
   * What `from_dict` can produce: a stripped, non-blank path, and a name
   * that is not blank unless it is the path's (blank) stem.
   */
  predicate WellFormed(rp: RecentProject) {
    rp.path != [] && Strip(rp.path) == rp.path && (rp.name != [] || rp.name == Stem(rp.path))
  }

  /**
   * `RecentProject.from_dict`: the stripped path is required; the name
   * falls back to the path's stem and the time to "".
   */
  function RecentFromDict(d: map<string, Json>): (r: Option<RecentProject>)
    ensures r.None? <==> Strip(PyStr(Get(d, "path", JStr("")))) == []
    ensures r.Some? ==> r.value.path == Strip(PyStr(Get(d, "path", JStr(""))))
    ensures r.Some? && !Truthy(Get(d, "name", JNull)) ==> r.value.name == Stem(r.value.path)
    ensures r.Some? && !Truthy(Get(d, "last_opened", JNull)) ==> r.value.lastOpened == ""
    ensures r.Some? ==> WellFormed(r.value)
  {
    var path := Strip(PyStr(Get(d, "path", JStr(""))));
    if path == [] then None
    else
      var name := if Truthy(Get(d, "name", JNull)) then PyStr(Get(d, "name", JNull)) else Stem(path);
      var lastOpened := if Truthy(Get(d, "last_opened", JNull)) then PyStr(Get(d, "last_opened", JNull)) else "";
      Some(RecentProject(path, name, lastOpened))
  }

  /** `RecentProject.to_dict`. */
  function RecentToDict(rp: RecentProject): map<string, Json> {
    map["path" := JStr(rp.path), "name" := JStr(rp.name), "last_opened" := JStr(rp.lastOpened)]
  }

  /** A well-formed entry reads back as itself. */
  lemma RecentRoundTrip(rp: RecentProject)
    requires WellFormed(rp)
    ensures RecentFromDict(RecentToDict(rp)) == Some(rp)
  {
    var d := RecentToDict(rp);
    assert Get(d, "path", JStr("")) == JStr(rp.path);
    assert Get(d, "name", JNull) == JStr(rp.name);
    assert Get(d, "last_opened", JNull) == JStr(rp.lastOpened);
  }

  /** One stored item: a dictionary with a usable path, else nothing. */
  function ReadEntry(it: Json): (r: Option<RecentProject>)
    ensures r.Some? ==> it.JObj? && r == RecentFromDict(it.fields) && WellFormed(r.value)
    ensures it.JObj? ==> r == RecentFromDict(it.fields)
  {
    if it.JObj? then RecentFromDict(it.fields) else None
  }

  /** The entries that read back from a stored list: dictionaries with a usable path, in order. */
  function RecentList(items: seq<Json>): (out: seq<RecentProject>)
    ensures |out| <= |items|
    ensures forall k :: 0 <= k < |out| ==> WellFormed(out[k])
  {
    if items == [] then []
    else
      var rest := RecentList(items[..|items| - 1]);
      var e := ReadEntry(items[|items| - 1]);
      if e.Some? then rest + [e.value] else rest
  }

  /** The stored `recent` value when it is a list, else nothing. */
  function StoredRecent(cfg: map<string, Json>): seq<Json> {
    var items := Get(cfg, "recent", JArr([]));
    if items.JArr? then items.items else []
  }

  /** Reading one more stored item adds its entry, when it has one. */
  lemma RecentListStep(items: seq<Json>, i: nat)
    requires i < |items|
    ensures var e := ReadEntry(items[i]);
      RecentList(items[..i + 1]) == RecentList(items[..i]) + (if e.Some? then [e.value] else [])
  {
    assert items[..i + 1][..i] == items[..i];
  }

  /** Reading a concatenation reads each part and keeps them in order. */
  lemma {:induction false} RecentListAppend(a: seq<Json>, b: seq<Json>)
    ensures RecentList(a + b) == RecentList(a) + RecentList(b)
    decreases |b|
  {
    if b == [] {
      assert a + b == a;
    } else {
      var b', x := b[..|b| - 1], b[|b| - 1];
      assert b == b' + [x];
      assert a + b == (a + b') + [x];
      RecentListAppend(a, b');
      RecentListSnoc(b', x);
      RecentListSnoc(a + b', x);
    }
  }

  /** Reading one more item at the end adds its entry, when it has one. */
  lemma RecentListSnoc(s: seq<Json>, x: Json)
    ensures var e := ReadEntry(x);
      RecentList(s + [x]) == RecentList(s) + (if e.Some? then [e.value] else [])
  {
    assert (s + [x])[..|s|] == s;
  }

  /** The first `n` entries (all of them when there are fewer). */
  function Take(s: seq<RecentProject>, n: int): (r: seq<RecentProject>)
    ensures |r| <= |s| && (n >= 0 ==> |r| <= n)
    ensures r == s[..|r|]
    ensures 0 <= n <= |s| ==> |r| == n
    ensures n >= |s| ==> r == s
  {
    if n <= 0 then [] else if n >= |s| then s else s[..n]
  }

  /** How two paths compare: case-insensitively on Windows, exactly elsewhere. */
  function PathKey(p: string, caseInsensitive: bool): string {
    if caseInsensitive then Lower(p) else p
  }

  /** The entries whose path has a key other than `key`, in order. */
  function Kept(existing: seq<RecentProject>, key: string, caseInsensitive: bool): (kept: seq<RecentProject>)
    ensures |kept| <= |existing|
    ensures forall k :: 0 <= k < |kept| ==> kept[k] in existing && PathKey(kept[k].path, caseInsensitive) != key
    ensures forall k :: 0 <= k < |existing| && PathKey(existing[k].path, caseInsensitive) != key ==> existing[k] in kept
  {
    if existing == [] then []
    else
      var init := existing[..|existing| - 1];
      var rest := Kept(init, key, caseInsensitive);
      var last := existing[|existing| - 1];
      assert forall k :: 0 <= k < |init| ==> init[k] in existing;
      if PathKey(last.path, caseInsensitive) != key then rest + [last] else rest
  }

  predicate DistinctKeys(s: seq<RecentProject>, caseInsensitive: bool) {
    forall i, j :: 0 <= i < j < |s| ==> PathKey(s[i].path, caseInsensitive) != PathKey(s[j].path, caseInsensitive)
  }

  /** Keeping entries in order keeps their keys distinct. */
  lemma {:induction false} KeptKeepsDistinct(existing: seq<RecentProject>, key: string, caseInsensitive: bool)
    requires DistinctKeys(existing, caseInsensitive)
    ensures DistinctKeys(Kept(existing, key, caseInsensitive), caseInsensitive)
  {
    if existing != [] {
      var init := existing[..|existing| - 1];
      var last := existing[|existing| - 1];
      KeptKeepsDistinct(init, key, caseInsensitive);
      var rest := Kept(init, key, caseInsensitive);
      forall k | 0 <= k < |rest|
        ensures PathKey(rest[k].path, caseInsensitive) != PathKey(last.path, caseInsensitive)
      {
        var j :| 0 <= j < |init| && init[j] == rest[k];
        assert existing[j] == init[j];
      }
    }
  }

  /**
   * The list `add_recent_project` writes: the new entry first, then the
   * earlier entries whose key differs from it, in order, cut to ten.
   */
  method MoveToFront(existing: seq<RecentProject>, rp: RecentProject, caseInsensitive: bool) returns (recent: seq<RecentProject>)
    ensures recent == Take([rp] + Kept(existing, PathKey(rp.path, caseInsensitive), caseInsensitive), MaxRecent)
    ensures 1 <= |recent| <= MaxRecent && recent[0] == rp
    ensures forall k :: 1 <= k < |recent| ==>
      (recent[k] in existing && PathKey(recent[k].path, caseInsensitive) != PathKey(rp.path, caseInsensitive))
  {
    var key := PathKey(rp.path, caseInsensitive);
    var kept: seq<RecentProject> := [];
    var i := 0;
    while i < |existing|
      invariant 0 <= i <= |existing|
      invariant kept == Kept(existing[..i], key, caseInsensitive)
    {
      KeptStep(existing, i, key, caseInsensitive);
      var rpKey := PathKey(existing[i].path, caseInsensitive);
      if rpKey != key {
        kept := kept + [existing[i]];
      }
      i := i + 1;
    }
    assert existing[..|existing|] == existing;
    recent := Take([rp] + kept, MaxRecent);
    TakeFront(rp, kept, MaxRecent);
    forall k | 1 <= k < |recent|
      ensures recent[k] in existing && PathKey(recent[k].path, caseInsensitive) != key
    {
      assert recent[k] == kept[k - 1];
    }
  }

  /** Looking at one more entry keeps it when its key differs. */
  lemma KeptStep(existing: seq<RecentProject>, i: nat, key: string, caseInsensitive: bool)
    requires i < |existing|
    ensures Kept(existing[..i + 1], key, caseInsensitive) ==
      Kept(existing[..i], key, caseInsensitive) + (if PathKey(existing[i].path, caseInsensitive) != key then [existing[i]] else [])
  {
    assert existing[..i + 1][..i] == existing[..i];
  }

  /** Filtering a concatenation filters each part and keeps them in order. */
  lemma {:induction false} KeptAppend(a: seq<RecentProject>, b: seq<RecentProject>, key: string, caseInsensitive: bool)
    ensures Kept(a + b, key, caseInsensitive) == Kept(a, key, caseInsensitive) + Kept(b, key, caseInsensitive)
    decreases |b|
  {
    if b == [] {
      assert a + b == a;
    } else {
      var b' := b[..|b| - 1];
      assert (a + b)[..|a + b| - 1] == a + b';
      KeptAppend(a, b', key, caseInsensitive);
    }
  }

  /** Adding to a list without repeated keys gives a list without repeated keys. */
  lemma MoveToFrontKeepsDistinct(existing: seq<RecentProject>, rp: RecentProject, caseInsensitive: bool)
    requires DistinctKeys(existing, caseInsensitive)
    ensures DistinctKeys(Take([rp] + Kept(existing, PathKey(rp.path, caseInsensitive), caseInsensitive), MaxRecent), caseInsensitive)
  {
    var key := PathKey(rp.path, caseInsensitive);
    var kept := Kept(existing, key, caseInsensitive);
    KeptKeepsDistinct(existing, key, caseInsensitive);
    var all := [rp] + kept;
    assert DistinctKeys(all, caseInsensitive) by {
      forall i, j | 0 <= i < j < |all|
        ensures PathKey(all[i].path, caseInsensitive) != PathKey(all[j].path, caseInsensitive)
      {
        if i > 0 {
          assert all[i] == kept[i - 1] && all[j] == kept[j - 1];
        }
      }
    }
  }

  // ---------------------------------------------------------------------------
  // Auto-save interval

  /** `max(10, min(3600, v))`. */
  function ClampInterval(v: int): (r: int)
    ensures 10 <= r <= 3600
    ensures 10 <= v <= 3600 ==> r == v
    ensures v < 10 ==> r == 10
    ensures v > 3600 ==> r == 3600
  {
    if v < 10 then 10 else if v > 3600 then 3600 else v
  }

  /** The interval stored in `cfg`: its `int()` clamped, 60 when it has none. */
  function IntervalOf(cfg: map<string, Json>): (r: int)
    ensures 10 <= r <= 3600
    ensures PyInt(Get(cfg, "auto_save_interval_sec", JInt(60))).None? ==> r == 60
    ensures PyInt(Get(cfg, "auto_save_interval_sec", JInt(60))).Some? ==>
      r == ClampInterval(PyInt(Get(cfg, "auto_save_interval_sec", JInt(60))).value)
  {
    match PyInt(Get(cfg, "auto_save_interval_sec", JInt(60)))
    case Some(v) => ClampInterval(v)
    case None => 60
  }

  // ---------------------------------------------------------------------------
  // The store

  class ConfigStore {
    /** The settings file. */
    var file: ConfigFile

    constructor (file: ConfigFile)
      ensures this.file == file
    {
      this.file := file;
    }

    /** `load()`: the stored dictionary, or the defaults when there is none. */
    function Load(): (cfg: map<string, Json>)
      reads this
      ensures file.Stored? && file.doc.JObj? ==> cfg == file.doc.fields
      ensures !(file.Stored? && file.doc.JObj?) ==> cfg == DefaultConfig()
    {
      if file.Stored? && file.doc.JObj? then file.doc.fields else DefaultConfig()
    }

    /** `save(data)`: what is saved is what loads. */
    method Save(data: map<string, Json>)
      modifies this
      ensures file == Stored(JObj(data))
      ensures Load() == data
    {
      file := Stored(JObj(data));
    }

    /** `auto_save_interval_sec()`: always within [10, 3600]. */
    function AutoSaveIntervalSec(): (v: int)
      reads this
      ensures 10 <= v <= 3600
      ensures v == IntervalOf(Load())
    {
      IntervalOf(Load())
    }

    /**
     * `recent_projects(limit)`: the usable entries of the stored list, in
     * stored order, at most `max(0, limit)` of them.
     */
    method RecentProjects(limit: int) returns (out: seq<RecentProject>)
      ensures out == Take(RecentList(StoredRecent(Load())), limit)
      ensures |out| <= (if limit > 0 then limit else 0)
      ensures forall k :: 0 <= k < |out| ==> out[k].path != []
    {
      var items := StoredRecent(Load());
      var all: seq<RecentProject> := [];
      var i := 0;
      while i < |items|
        invariant 0 <= i <= |items|
        invariant all == RecentList(items[..i])
      {
        RecentListStep(items, i);
        var e := ReadEntry(items[i]);
        if e.Some? {
          all := all + [e.value];
        }
        i := i + 1;
      }
      assert items[..|items|] == items;
      out := Take(all, limit);
    }

    /** `clear_recent_projects()`: empties the list and keeps every other setting. */
    method ClearRecentProjects()
      modifies this
      ensures file == Stored(JObj(old(Load())["recent" := JArr([])]))
      ensures Load()["recent"] == JArr([])
      ensures forall k :: k != "recent" ==> (k in Load() <==> k in old(Load()))
      ensures forall k :: k != "recent" && k in old(Load()) ==> Load()[k] == old(Load())[k]
    {
      var cfg := Load();
      Save(cfg["recent" := JArr([])]);
    }

    /**
     * `add_recent_project(path, name)`: a blank path changes nothing;
     * otherwise the resolved path goes to the front of the list, earlier
     * entries for the same path are dropped, and the list keeps ten entries.
     * `resolve` stands for `Path.resolve`, `now` for the clock and
     * `caseInsensitive` for running on Windows.
     */
    method AddRecentProject(path: string, name: string, now: string, resolve: string -> string, caseInsensitive: bool)
      modifies this
      ensures Strip(path) == [] ==> file == old(file)
      ensures Strip(path) != [] ==>
        file == Stored(JObj(AddedConfig(old(Load()), resolve(Strip(path)), name, now, caseInsensitive)))
    {
      var p := Strip(path);
      if p == [] {
        return;
      }
      p := resolve(p);
      var cfg := Load();
      var existing := RecentProjects(50);
      var recent := MoveToFront(existing, NewEntry(p, name, now), caseInsensitive);
      Save(cfg["recent" := JArr(Dicts(recent))]);
    }
  }

  /** The stored form of a list of entries. */
  function Dicts(recent: seq<RecentProject>): (ds: seq<Json>)
    ensures |ds| == |recent|
    ensures forall k :: 0 <= k < |recent| ==> ds[k] == JObj(RecentToDict(recent[k]))
  {
    seq(|recent|, k requires 0 <= k < |recent| => JObj(RecentToDict(recent[k])))
  }

  /** Entries written back with stripped, non-blank paths and names read back unchanged. */
  lemma {:induction false} DictsReadBack(recent: seq<RecentProject>)
    requires forall k :: 0 <= k < |recent| ==> WellFormed(recent[k])
    ensures RecentList(Dicts(recent)) == recent
  {
    if recent != [] {
      var n := |recent| - 1;
      var init := recent[..n];
      assert recent == init + [recent[n]];
      DictsReadBack(init);
      DictsStep(recent);
    }
  }

  /** Reading back the stored list of `recent` extends the reading of all but its last entry by that entry. */
  lemma DictsStep(recent: seq<RecentProject>)
    requires recent != [] && WellFormed(recent[|recent| - 1])
    ensures RecentList(Dicts(recent)) == RecentList(Dicts(recent[..|recent| - 1])) + [recent[|recent| - 1]]
  {
    var n := |recent| - 1;
    var ds := Dicts(recent);
    assert ds[..n] == Dicts(recent[..n]);
    RecentRoundTrip(recent[n]);
    assert ReadEntry(ds[n]) == Some(recent[n]);
  }

  // ---------------------------------------------------------------------------
  // Adding a recent project, as a function of the stored settings

  /** The entry `add_recent_project` makes for the resolved path `p`. */
  function NewEntry(p: string, name: string, now: string): RecentProject {
    RecentProject(p, if name != [] then name else Stem(p), now)
  }

  /** The list written for the resolved path `p`, given the settings before. */
  function AddedList(cfg: map<string, Json>, p: string, name: string, now: string, caseInsensitive: bool): seq<RecentProject> {
    var existing := Take(RecentList(StoredRecent(cfg)), 50);
    Take([NewEntry(p, name, now)] + Kept(existing, PathKey(p, caseInsensitive), caseInsensitive), MaxRecent)
  }

  /** The settings written for the resolved path `p`: only `recent` changes. */
  function AddedConfig(cfg: map<string, Json>, p: string, name: string, now: string, caseInsensitive: bool): (r: map<string, Json>)
    ensures "recent" in r && r["recent"].JArr?
    ensures forall k :: k != "recent" ==> (k in r <==> k in cfg)
    ensures forall k :: k != "recent" && k in cfg ==> r[k] == cfg[k]
  {
    cfg["recent" := JArr(Dicts(AddedList(cfg, p, name, now, caseInsensitive)))]
  }

  /**
   * After adding a resolved path that is stripped and non-blank, the recent
   * projects read back are the new entry, then the earlier entries (of the
   * first fifty) under other keys in their order, ten at most.
   */
  lemma AddedReadsBack(cfg: map<string, Json>, p: string, name: string, now: string, caseInsensitive: bool)
    requires p != [] && Strip(p) == p
    ensures var out := RecentList(StoredRecent(AddedConfig(cfg, p, name, now, caseInsensitive)));
      && out == AddedList(cfg, p, name, now, caseInsensitive)
      && 1 <= |out| <= MaxRecent
      && out[0] == NewEntry(p, name, now)
      && (forall k :: 1 <= k < |out| ==>
            (out[k] in RecentList(StoredRecent(cfg)) && PathKey(out[k].path, caseInsensitive) != PathKey(p, caseInsensitive)))
  {
    var recent := AddedList(cfg, p, name, now, caseInsensitive);
    assert StoredRecent(AddedConfig(cfg, p, name, now, caseInsensitive)) == Dicts(recent);
    AddedListFacts(cfg, p, name, now, caseInsensitive);
    DictsReadBack(recent);
  }

  /** The list written is well formed, starts with the new entry and otherwise holds earlier entries under other keys. */
  lemma AddedListFacts(cfg: map<string, Json>, p: string, name: string, now: string, caseInsensitive: bool)
    requires p != [] && Strip(p) == p
    ensures var recent := AddedList(cfg, p, name, now, caseInsensitive);
      && 1 <= |recent| <= MaxRecent
      && recent[0] == NewEntry(p, name, now)
      && (forall k :: 0 <= k < |recent| ==> WellFormed(recent[k]))
      && (forall k :: 1 <= k < |recent| ==>
            (recent[k] in RecentList(StoredRecent(cfg)) && PathKey(recent[k].path, caseInsensitive) != PathKey(p, caseInsensitive)))
  {
    var all := RecentList(StoredRecent(cfg));
    var existing := Take(all, 50);
    var key := PathKey(p, caseInsensitive);
    var kept := Kept(existing, key, caseInsensitive);
    var recent := AddedList(cfg, p, name, now, caseInsensitive);
    TakeFront(NewEntry(p, name, now), kept, MaxRecent);
    assert existing == all[..|existing|];
    forall k | 1 <= k < |recent|
      ensures recent[k] in all && PathKey(recent[k].path, caseInsensitive) != key
    {
      assert recent[k] == kept[k - 1];
    }
  }

  /** The first `n` of an entry followed by others: that entry, then the first others. */
  lemma TakeFront(x: RecentProject, rest: seq<RecentProject>, n: int)
    requires n >= 1
    ensures var r := Take([x] + rest, n);
      && 1 <= |r| <= n && r[0] == x
      && forall k :: 1 <= k < |r| ==> r[k] == rest[k - 1]
  {
  }

  /** Adding the same path twice to a list with no recent projects leaves one entry: the second. */
  lemma AddSamePathTwice(cfg: map<string, Json>, p: string, name1: string, now1: string, name2: string, now2: string, caseInsensitive: bool)
    requires p != [] && Strip(p) == p
    requires RecentList(StoredRecent(cfg)) == []
    ensures var once := AddedConfig(cfg, p, name1, now1, caseInsensitive);
      var twice := AddedConfig(once, p, name2, now2, caseInsensitive);
      RecentList(StoredRecent(twice)) == [NewEntry(p, name2, now2)]
  {
    var once := AddedConfig(cfg, p, name1, now1, caseInsensitive);
    AddedReadsBack(cfg, p, name1, now1, caseInsensitive);
    assert RecentList(StoredRecent(once)) == [NewEntry(p, name1, now1)];
    AddedReadsBack(once, p, name2, now2, caseInsensitive);
    var key := PathKey(p, caseInsensitive);
    assert Kept([NewEntry(p, name1, now1)], key, caseInsensitive) == [];
  }

  /** Adding never puts two entries with the same key into a list that had none. */
  lemma AddedKeepsKeysDistinct(cfg: map<string, Json>, p: string, name: string, now: string, caseInsensitive: bool)
    requires p != [] && Strip(p) == p
    requires DistinctKeys(RecentList(StoredRecent(cfg)), caseInsensitive)
    ensures DistinctKeys(RecentList(StoredRecent(AddedConfig(cfg, p, name, now, caseInsensitive))), caseInsensitive)
  {
    var all := RecentList(StoredRecent(cfg));
    var existing := Take(all, 50);
    assert DistinctKeys(existing, caseInsensitive) by {
      assert existing == all[..|existing|];
    }
    MoveToFrontKeepsDistinct(existing, NewEntry(p, name, now), caseInsensitive);
    AddedReadsBack(cfg, p, name, now, caseInsensitive);
  }
}
