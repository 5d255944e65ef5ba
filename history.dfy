/**
 * Undo/redo for the editor: two stacks of snapshots. Recording pushes onto
 * the undo stack (keeping only the newest `limit`) and forgets the redo
 * stack; undo and redo move one step between the stacks, leaving behind a
 * snapshot of the state the caller is leaving, under the same label.
 */
module History {
  import opened Results
  import opened PyValues

  /** A snapshot: the project as a plain document plus the selection. */
  datatype HistoryEntry = HistoryEntry(
    name: string,
    project: Json,
    selectedTrack: Option<string>,
    selectedClipId: Option<string>)

  /** `current`'s state filed under `name`. */
  function Relabel(name: string, current: HistoryEntry): (e: HistoryEntry)
    ensures e.name == name
    ensures e.project == current.project
    ensures e.selectedTrack == current.selectedTrack && e.selectedClipId == current.selectedClipId
  {
    HistoryEntry(name, current.project, current.selectedTrack, current.selectedClipId)
  }

  /** A snapshot filed under its own label is itself. */
  lemma RelabelOwn(e: HistoryEntry)
    ensures Relabel(e.name, e) == e
  {
  }

  /** The newest `limit` entries of `s` (all of them when there are fewer). */
  function Newest(s: seq<HistoryEntry>, limit: nat): (r: seq<HistoryEntry>)
    ensures |r| <= limit && |r| <= |s|
    ensures r == s[|s| - |r|..]
    ensures |s| <= limit ==> r == s
    ensures |s| > limit ==> |r| == limit
  {
    if |s| > limit then s[|s| - limit..] else s
  }

  /** Truncating keeps the newest entry and drops the oldest ones first. */
  lemma NewestKeepsTop(s: seq<HistoryEntry>, e: HistoryEntry, limit: nat)
    requires limit >= 1
    ensures var r := Newest(s + [e], limit);
      r != [] && r[|r| - 1] == e
      && r[..|r| - 1] == s[|s| + 1 - |r|..]
  {
    var r := Newest(s + [e], limit);
    assert r == (s + [e])[|s| + 1 - |r|..];
    assert r[..|r| - 1] == (s + [e])[|s| + 1 - |r|..|s|];
  }

  class HistoryManager {
    const limit: int
    var undoStack: seq<HistoryEntry>
    var redoStack: seq<HistoryEntry>

    /** The cap is at least one and the undo stack never exceeds it. */
    ghost predicate Valid()
      reads this
    {
      limit >= 1 && |undoStack| <= limit
    }

    /** `HistoryManager(limit)`: the cap is `max(1, limit)`; both stacks start empty. */
    constructor (limit: int)
      ensures Valid()
      ensures this.limit == if limit > 1 then limit else 1
      ensures undoStack == [] && redoStack == []
    {
      this.limit := if limit > 1 then limit else 1;
      undoStack := [];
      redoStack := [];
    }

    /** Empties both stacks. */
    method Clear()
      requires Valid()
      modifies this
      ensures Valid()
      ensures undoStack == [] && redoStack == []
    {
      undoStack := [];
      redoStack := [];
    }

    function CanUndo(): (b: bool)
      reads this
      ensures b <==> |undoStack| > 0
    {
      undoStack != []
    }

    function CanRedo(): (b: bool)
      reads this
      ensures b <==> |redoStack| > 0
    {
      redoStack != []
    }

    /** The label of the step `Undo` would take back, or "". */
    function PeekUndoLabel(): (l: string)
      reads this
      ensures undoStack == [] ==> l == ""
      ensures undoStack != [] ==> l == undoStack[|undoStack| - 1].name
    {
      if undoStack == [] then "" else undoStack[|undoStack| - 1].name
    }

    /** The label of the step `Redo` would redo, or "". */
    function PeekRedoLabel(): (l: string)
      reads this
      ensures redoStack == [] ==> l == ""
      ensures redoStack != [] ==> l == redoStack[|redoStack| - 1].name
    {
      if redoStack == [] then "" else redoStack[|redoStack| - 1].name
    }

    /**
     * Records a step before a change: pushes it, drops the oldest entries
     * beyond the cap and forgets everything that could be redone.
     */
    method Record(entry: HistoryEntry)
      requires Valid()
      modifies this
      ensures Valid()
      ensures undoStack == Newest(old(undoStack) + [entry], limit)
      ensures redoStack == []
      ensures CanUndo() && !CanRedo() && PeekUndoLabel() == entry.name
    {
      undoStack := undoStack + [entry];
      if |undoStack| > limit {
        undoStack := undoStack[|undoStack| - limit..];
      }
      redoStack := [];
      NewestKeepsTop(old(undoStack), entry, limit);
    }

    /**
     * Takes back the newest step: returns it and files `current` under its
     * label on the redo stack; with nothing to undo, returns None and
     * changes nothing.
     */
    method Undo(current: HistoryEntry) returns (r: Option<HistoryEntry>)
      requires Valid()
      modifies this
      ensures Valid()
      ensures old(undoStack) == [] ==> r == None && undoStack == old(undoStack) && redoStack == old(redoStack)
      ensures old(undoStack) != [] ==>
        var top := old(undoStack)[|old(undoStack)| - 1];
        && r == Some(top)
        && undoStack == old(undoStack)[..|old(undoStack)| - 1]
        && redoStack == old(redoStack) + [Relabel(top.name, current)]
    {
      if undoStack == [] {
        return None;
      }
      var entry := undoStack[|undoStack| - 1];
      undoStack := undoStack[..|undoStack| - 1];
      redoStack := redoStack + [Relabel(entry.name, current)];
      return Some(entry);
    }

    /**
     * Redoes the newest undone step: returns it and files `current` under
     * its label on the undo stack, keeping the newest `limit`; with nothing
     * to redo, returns None and changes nothing.
     */
    method Redo(current: HistoryEntry) returns (r: Option<HistoryEntry>)
      requires Valid()
      modifies this
      ensures Valid()
      ensures old(redoStack) == [] ==> r == None && undoStack == old(undoStack) && redoStack == old(redoStack)
      ensures old(redoStack) != [] ==>
        var top := old(redoStack)[|old(redoStack)| - 1];
        && r == Some(top)
        && redoStack == old(redoStack)[..|old(redoStack)| - 1]
        && undoStack == Newest(old(undoStack) + [Relabel(top.name, current)], limit)
    {
      if redoStack == [] {
        return None;
      }
      var entry := redoStack[|redoStack| - 1];
      redoStack := redoStack[..|redoStack| - 1];
      undoStack := undoStack + [Relabel(entry.name, current)];
      if |undoStack| > limit {
        undoStack := undoStack[|undoStack| - limit..];
      }
      return Some(entry);
    }
  }

  /**
   * Undo followed by redo from the state undo restored gives back the state
   * undo left, under the same label, and leaves both stacks as they were.
   */
  method UndoThenRedo(h: HistoryManager, current: HistoryEntry) returns (back: HistoryEntry, again: HistoryEntry)
    requires h.Valid() && h.undoStack != []
    modifies h
    ensures h.Valid()
    ensures back == old(h.undoStack)[|old(h.undoStack)| - 1]
    ensures again == Relabel(back.name, current)
    ensures h.undoStack == old(h.undoStack) && h.redoStack == old(h.redoStack)
  {
    var u := h.Undo(current);
    back := u.value;
    var r := h.Redo(back);
    again := r.value;
    RelabelOwn(back);
    assert old(h.undoStack) == old(h.undoStack)[..|old(h.undoStack)| - 1] + [back];
  }
}
