# lnwSJCut core, modelled in Dafny

lnwSJCut is a small desktop video editor. This project models its editing and
export core, and proves properties of that model:

- **Timeline** (`timeline.dfy`): the clip-list edits of `core/timeline.py`.
  These are append, insert-before, find, split at a relative time,
  move-before and total duration. The edits whose source is a loop are
  methods with loops, each proved against a declarative specification
  function.
- **Model** (`model.dfy`): the `Clip` and `Project` values of `core/model.py`
  and their dictionary form.
  - `Clip.dur` is clamped at zero.
  - `from_dict` fills in defaults and picks between two shapes: the
    two-lane shape and the legacy flat `clips` list.
  - Round-trip lemmas relate `to_dict` and `from_dict`.
  - The `Track` record and the transition lookup are declared with only the
    fields `core/ffmpeg.py` reads.
- **Export settings** (`settings.dfy`): `_normalize_export_settings`, with its
  clamps, whitelists and container-forced codecs, and
  `_build_output_encode_args`.
- **Filter graph** (`filtergraph.dfy`): the filter-graph parts as a datatype
  (trim, silence, xfade, acrossfade, concat, overlay, scale, pad/trim, amix)
  instead of filter text. Also `_xfade_name`, `_append_final_video_filter`,
  and the hard-cut/cross-fade fold `_build_transition_chain`, which is a
  method with a loop.
- **Export command** (`exportcommand.dfy`) covers two builders:
  - `build_export_command`, with one input per distinct source and each
    clip's silence-or-audio choice;
  - `_build_export_command_tracks`, with probing as an input map, the
    video-stream check, the base track and overlays, the audio tracks, and
    audio-mode selection and mixing.
- **Progress** (`progress.dfy`): `parse_ffmpeg_progress_seconds`,
  `_export_total_duration`, and the reporting loop of
  `export_project_with_progress`, run over a given sequence of output lines
  and an exit code.
- **History** (`history.dfy`): `HistoryManager` as a class with two stack
  fields and a size cap.
- **Shortcuts** (`shortcuts.dfy`): `_normalize_key` and
  `resolve_shortcut_action`.
- **Config** (`config.dfy`): the recent-projects bookkeeping and auto-save
  interval of `ConfigStore`. The settings file is a field of the store.
- **Shared helpers**: `pyvalues.dfy` holds the Python conversions the core
  relies on: truthiness, `str()`, `int()`, `float()`, `strip()`, `lower()`,
  `Path.name` and `Path.stem`. `results.dfy` holds `Option`/`Result`.

Seconds are `real`. Floating-point rounding is therefore not modelled.
Dictionary values are the `Json` datatype.

## Model

| member | source | states |
|---|---|---|
| Timeline.IndexOfId | core/timeline.py:25-28 | the position of the first clip with the id, or the length when there is none |
| Timeline.LastIndexOfId | core/timeline.py:64-81 | the position of the last clip with the id, or -1; `split_clip` selects by the last match because each match overwrites `new_selected` |
| Timeline.WithoutId | core/timeline.py:93-99 | the clips whose id differs, in order; the input itself when no clip has the id |
| Timeline.TotalDuration | core/timeline.py:115-116 | the sum of the clip durations, never negative |
| Timeline.TotalDurationAppend | core/timeline.py:115-116 | the total is additive over concatenation |
| Timeline.TotalDurationSingle | core/timeline.py:115-116 | the total of one clip is its duration |
| Timeline.TotalDurationSplit | core/timeline.py:115-116 | the total of `a + [m] + b` is the sum of the three parts |
| Timeline.AddClipEnd | core/timeline.py:9-12 | the input followed by exactly one full-length clip `[0, duration]`; the total grows by the clamped duration |
| Timeline.InsertBeforeFirst | core/timeline.py:23-31 | the loop puts the new clip just before the first clip with the id, or at the end |
| Timeline.InsertClipBefore | core/timeline.py:15-32 | one more clip, placed before the first match or at the end; the multiset grows by exactly the new clip |
| Timeline.InsertThenRemove | core/timeline.py:22-32 | removing the inserted clip gives back the input |
| Timeline.FindClip | core/timeline.py:35-39 | Some exactly when a clip has the id, and then it is the first such clip |
| Timeline.Message | core/timeline.py:70-84 | each of the three outcomes has a non-empty message |
| Timeline.Pieces | core/timeline.py:64-81 | a non-target or too-close clip stays as it is; otherwise it becomes `[in, in+t]` and `[in+t, out]` with fresh ids |
| Timeline.SplitClip | core/timeline.py:42-85 | the loop yields every clip replaced by its pieces, the id to select and the message |
| Timeline.SplitAbsentId | core/timeline.py:64-67 | an absent id leaves the list unchanged, selects nothing and reports not-found |
| Timeline.SplitTooClose | core/timeline.py:70-74 | a cut too close to an edge leaves the list unchanged and selects that clip |
| Timeline.SplitPrefixUnique | core/timeline.py:64-81 | with a unique id, only that clip is replaced, and the clips around it keep their order |
| Timeline.SplitInside | core/timeline.py:69-81 | a valid cut gives two pieces that copy src, volume, mute and audio, meet at `in+t`, are each longer than the minimum, and whose durations sum to the original's; the left piece is selected |
| Timeline.SplitKeepsTotal | core/timeline.py:76-81 | splitting keeps the total duration |
| Timeline.TakeOut | core/timeline.py:93-101 | the first loop finds the last clip with the moving id and keeps the others in order |
| Timeline.MoveClipBefore | core/timeline.py:88-112 | the input itself when the ids are equal or the moving id is absent; otherwise the moved list |
| Timeline.MoveKeepsOthersInOrder | core/timeline.py:103-112 | the other clips keep their relative order |
| Timeline.WithoutIdInsert | core/timeline.py:95-112 | dropping an id from a list without it, with one clip of that id put in anywhere, gives the list back |
| Timeline.MovePlacesBeforeTarget | core/timeline.py:103-112 | the moved clip sits just before the first target, or at the end when the target is absent |
| Timeline.WithoutUniqueId | core/timeline.py:95-99 | removing a unique id drops exactly that position |
| Timeline.MoveIsPermutation | core/timeline.py:88-112 | with a unique moving id, the result is a permutation with the same total |
| Timeline.MovedUnique | core/timeline.py:88-112 | with one clip of the moved id, the result is the other clips with that clip put back before the target |
| Timeline.InsertKeepsTotal | core/timeline.py:115-116 | inserting a clip anywhere adds its duration to the total |
| Timeline.RemoveKeepsTotal | core/timeline.py:115-116 | removing a clip takes its duration off the total |
| Model.Dur | core/model.py:31-33 | `max(0, out - in)`: never negative, and exactly the difference when that is positive |
| Model.FloatValue | core/model.py:47-49 | succeeds exactly when `float()` of the value succeeds |
| Model.ClipFromDict | core/model.py:42-51 | succeeds exactly when the dictionary has id and src and numeric in/out, and a numeric volume when that is truthy |
| Model.ClipFromDictDefaults | core/model.py:49-50 | a missing or falsy volume reads as 1.0; a missing muted flag reads as False; the range is read as given |
| Model.ClipReload | core/model.py:39-51 | a written clip reads back as itself, except that volume 0.0 becomes 1.0 and has_audio takes its default |
| Model.ClipRoundTrip | core/model.py:39-51 | a clip with non-zero volume and audio reads back exactly |
| Model.ClipsToJson | core/model.py:65-66 | one dictionary per clip, in order |
| Model.ClipsFromList | core/model.py:77-78 | succeeds exactly when every element decodes, and then keeps length and order |
| Model.ProjectFromDict | core/model.py:69-86 | it succeeds exactly when `fps` converts and the chosen lists decode, and a bad `fps` raises first; `fps` comes from `int()` and defaults to 30; the two-list shape applies when either key is present, and a missing list is empty; otherwise the legacy `clips` list becomes V1 and A1 is empty |
| Model.ClipsRoundTrip | core/model.py:62-79 | a list of reloadable clips reads back exactly |
| Model.ProjectRoundTrip | core/model.py:62-79 | a project reads back exactly when its clips have non-zero volume and audio |
| Model.ProjectReloadKeepsRanges | core/model.py:62-79 | for any project, a reload keeps fps, lane lengths, order, ids, sources, ranges and mute flags |
| Model.ClipsReloadKeepsRanges | core/model.py:39-51 | a reload of any clip list keeps length and each clip's id, source, range and mute flag |
| Settings.Dimension | core/ffmpeg.py:248-255 | `max(0, int(v or 0))`, and 0 when `int()` fails; never negative |
| Settings.Crf | core/ffmpeg.py:261-264 | within [0, 51]; 23 when unset |
| Settings.FormatOf | core/ffmpeg.py:244-246 | the cleaned format when it is mp4, mov or webm, else mp4 |
| Settings.PresetOf | core/ffmpeg.py:265-267 | the cleaned preset when it is one of the nine x26x presets, else medium |
| Settings.BitrateOf | core/ffmpeg.py:269-271 | the cleaned bitrate when it is digits followed by k or m, else 192k |
| Settings.VideoCodecOf | core/ffmpeg.py:273-280 | VP9 for webm; otherwise the caller's choice when it is x264 or x265, and x264 for any other codec |
| Settings.Normalize | core/ffmpeg.py:238-291 | the result satisfies every whitelist and clamp; format, preset, bitrate, CRF and video codec each come from their own rule; the size is kept only when both sides are positive, else 0×0; the audio codec is Opus for webm and AAC otherwise |
| Settings.FormatReadsBack | core/ffmpeg.py:244-246 | a whitelisted format passes through unchanged |
| Settings.PresetReadsBack | core/ffmpeg.py:265-267 | a whitelisted preset passes through unchanged |
| Settings.BitrateReadsBack | core/ffmpeg.py:269-271 | a well-formed bitrate passes through unchanged |
| Settings.CodecReadsBack | core/ffmpeg.py:277-279 | an x264/x265 codec passes through unchanged |
| Settings.NumbersReadBack | core/ffmpeg.py:248-264 | an in-range CRF and a non-negative size pass through unchanged |
| Settings.FieldsReadBack | core/ffmpeg.py:238-291 | every field of normalised settings passes through its own rule unchanged |
| Settings.NormalizeIdempotent | core/ffmpeg.py:238-291 | normalising normalised settings changes nothing |
| Settings.WebmForcesCodecs | core/ffmpeg.py:273-275 | webm forces VP9 and Opus whatever codecs were given |
| Settings.EncodeArgs | core/ffmpeg.py:307-345 | starts with `-c:v codec` and ends with `-f format` |
| Settings.EncodeArgsLayout | core/ffmpeg.py:307-345 | for normalised settings: `-crf` with `-preset` for x26x, or `-b:v 0` for VP9; pixel format and audio arguments next; `-movflags +faststart` exactly for mp4/mov |
| FilterGraph.FinalVideoFilter | core/ffmpeg.py:294-304 | the output is scaled and padded exactly when both sides are positive, to that size |
| FilterGraph.FinalFilterScales | core/ffmpeg.py:248-259 | after normalisation, the output is scaled exactly when both requested sides are positive |
| FilterGraph.XFadeName | core/ffmpeg.py:348-354 | "dissolve" exactly when the cleaned kind is dissolve, otherwise "fade" |
| FilterGraph.Gain | core/ffmpeg.py:453 | volume 0 plays at 1.0; a positive volume is kept; a negative one becomes 0 |
| FilterGraph.ClipAudio | core/ffmpeg.py:456-465 | a silent clip gets a silence part of its duration; otherwise an audio trim of its own input and range |
| FilterGraph.Overlap | core/ffmpeg.py:380-382 | a positive overlap selects a cross-fade of that length; zero or negative selects a hard cut |
| FilterGraph.BuildTransitionChain | core/ffmpeg.py:357-410 | raises on an empty lane or on mismatched label counts, in that order; otherwise returns the folded parts, the final pads and the duration floored at 0 |
| FilterGraph.JoinNext | core/ffmpeg.py:377-408 | one pass of the loop: the parts it appends and the pads and running duration it leaves are the chain's at the next clip |
| FilterGraph.ChainPartCount | core/ffmpeg.py:377-406 | one video part per adjacent pair, plus one audio part per pair when audio labels are given |
| FilterGraph.SumOverlaps | core/ffmpeg.py:397 | the overlaps subtracted by the fold are never negative |
| FilterGraph.ChainTotalIsTotalMinusOverlaps | core/ffmpeg.py:375-410 | the running total is the sum of durations minus the overlaps; it is at most that sum, and equal to it when every join is a hard cut |
| ExportCommand.Dedup | core/ffmpeg.py:428-434 | the sources, each once, and every source present |
| ExportCommand.IndexIn | core/ffmpeg.py:432-433 | the first position of a source |
| ExportCommand.DedupKeepsFirstAppearance | core/ffmpeg.py:428-434 | the inputs appear in order of first appearance |
| ExportCommand.CollectInputs | core/ffmpeg.py:429-434 | the loop builds the de-duplicated inputs and an index holding each source's input position |
| ExportCommand.LaneParts | core/ffmpeg.py:444-465 | one block of parts per clip |
| ExportCommand.LowerLane | core/ffmpeg.py:444-465 | the loop emits each clip's trims and names its pads in order |
| ExportCommand.LowerClip | core/ffmpeg.py:445-465 | one clip gives its video trim (in video lanes), then silence as long as the clip when it is silent, else its trimmed audio |
| ExportCommand.LaneBlocks | core/ffmpeg.py:444-465 | block i is exactly clip i's parts, read from its source's input |
| ExportCommand.ClipReadsItsSource | core/ffmpeg.py:445-465 | each clip's video trim reads its own source's input; a silent clip never reads audio from an input; an audible one reads its own source |
| ExportCommand.BuildExportCommand | core/ffmpeg.py:413-483 | fails exactly on an empty timeline; otherwise the command has one input per distinct source, the single-lane graph, and the encoder arguments of the normalised settings |
| ExportCommand.CompileSingleLane | core/ffmpeg.py:441-471 | the parts appended are the lane's trims, the chain, the final video filter and the audio reset |
| ExportCommand.TrackSrcsCover | core/ffmpeg.py:524-530 | every clip's source on any track is among the collected sources |
| ExportCommand.SubsetKnown | core/ffmpeg.py:524-530 | the sources of every video or audio track are among the inputs |
| ExportCommand.ProbeSources | core/ffmpeg.py:532-534 | the loop finds the first source that cannot be probed, as `FirstMissing` defines it |
| ExportCommand.FirstMissing | core/ffmpeg.py:532-534 | the first source missing from the probes, with every earlier one present; none exactly when all are present |
| ExportCommand.CheckVideoStreams | core/ffmpeg.py:536-539 | the nested loop returns the error `FirstNoVideo` defines |
| ExportCommand.FirstBadClip | core/ffmpeg.py:537-538 | the first clip lacking video, every earlier clip having it |
| ExportCommand.FirstBadTrack | core/ffmpeg.py:536-538 | the first track with a clip lacking video, every earlier track being fine |
| ExportCommand.FirstNoVideo | core/ffmpeg.py:536-539 | no error exactly when every video-track clip has a video stream; otherwise the error names the first offending track and the file name of its first offending clip |
| ExportCommand.VideoOuts | core/ffmpeg.py:549-577 | one output per non-empty video track, with an audio pad and a non-negative duration |
| ExportCommand.VideoOutsCover | core/ffmpeg.py:549-580 | every non-empty video track has an output |
| ExportCommand.CompileVideoTracks | core/ffmpeg.py:549-577 | the loop emits each non-empty video track's parts and outputs |
| ExportCommand.BaseEntry | core/ffmpeg.py:582 | the output of the base track when one exists, else the first output |
| ExportCommand.OverlayTracks | core/ffmpeg.py:582-590 | the loop overlays every other visible video output in order |
| ExportCommand.OverlayChain | core/ffmpeg.py:585-590 | the overlays form a chain from the base pad, one per other visible track, in track order |
| ExportCommand.CompileAudioTracks | core/ffmpeg.py:594-623 | the loop emits each non-empty audio track's segments and its output pad |
| ExportCommand.SelectAudio | core/ffmpeg.py:625-640 | an unknown mode raises; v1_only takes the base track's audio pad, if any; a1_only takes the first audio track's pad, if any; mix takes the audible video-track pads, then the audible audio-track pads |
| ExportCommand.MixAudio | core/ffmpeg.py:642-656 | the loop fits each selection to the base duration and mixes them |
| ExportCommand.BuildExportCommandTracks | core/ffmpeg.py:496-669 | raises on no tracks, no video tracks, an empty base, then the first unprobeable source in input order, then the first clip without video, then an unknown audio mode, in that order; with usable sources it succeeds exactly for a known audio mode; the command holds the distinct inputs and the compiled graph |
| ExportCommand.CompileTracks | core/ffmpeg.py:545-656 | the parts of the video stage, the overlays, the final filter, the audio stage and the mix |
| ExportCommand.BaseHasOutput | core/ffmpeg.py:517-584 | when a base track exists, the outputs are non-empty and the base entry is that track's output, so the "V1 is empty" raise at line 580 cannot fire |
| ExportCommand.MixKeepsAudible | core/ffmpeg.py:632-638 | `mix` selects exactly the pads of visible, unmuted tracks |
| ExportCommand.AudibleVideoMembers | core/ffmpeg.py:633-635 | the video pads selected are exactly those of audible video tracks |
| ExportCommand.AudibleAudioMembers | core/ffmpeg.py:636-638 | the audio pads selected are exactly those of audible audio tracks |
| ExportCommand.MixShape | core/ffmpeg.py:642-656 | silence when nothing is selected; otherwise one pad/trim per selection, then a reset for one or an amix over exactly those pads |
| ExportCommand.NothingSelectedIsSilence | core/ffmpeg.py:625-646 | with nothing audible, the audio is silence of the base duration |
| ExportCommand.NoneAudible | core/ffmpeg.py:632-638 | no audible track means nothing is selected |
| Progress.DigitRun | core/ffmpeg.py:39-40 | the greedy run of digits at a position |
| Progress.Fraction | core/ffmpeg.py:40 | the fractional seconds are never negative |
| Progress.SecondsField | core/ffmpeg.py:40 | the seconds field is never negative |
| Progress.ClockAt | core/ffmpeg.py:226-233 | a `time=H:M:S` match gives a non-negative time |
| Progress.Search | core/ffmpeg.py:218-226 | the leftmost match, and None exactly when nothing matches |
| Progress.ParseProgressSeconds | core/ffmpeg.py:206-235 | blank lines give None; a result is never negative |
| Progress.ParseChoosesLeftmost | core/ffmpeg.py:214-235 | `out_time_ms`/`out_time_us` wins and is scaled by 1e-6; otherwise the clock form; None exactly when neither matches |
| Progress.FirstWhere | core/ffmpeg.py:855-858 | the first track satisfying the test |
| Progress.PrimaryVideoTrack | core/ffmpeg.py:854-858 | the first visible non-empty video track, else the first non-empty one, else none |
| Progress.Filter | core/ffmpeg.py:855 | exactly the tracks passing the test |
| Progress.ExportTotalDuration | core/ffmpeg.py:847-860 | the primary track's total, or the V1 total when there is none; never negative |
| Progress.Clamp | core/ffmpeg.py:917-919 | never negative, and at most the total when the total is positive |
| Progress.ParseAll | core/ffmpeg.py:912-913 | each line parsed on its own |
| Progress.Reported | core/ffmpeg.py:910-934 | every reported value lies within [0, total] when the total is positive |
| Progress.ReportedFloor | core/ffmpeg.py:921-927 | every value reported after `last` is at least its floor |
| Progress.ReportedOrder | core/ffmpeg.py:921-930 | reported values never fall by more than 1e-6, and rise by at least 0.05 when the total is 0 |
| Progress.Events | core/ffmpeg.py:929-932 | one callback per reported value, with the total |
| Progress.ReportLines | core/ffmpeg.py:910-934 | the loop reports exactly the specified values, and nothing without a callback |
| Progress.ShouldEmit | core/ffmpeg.py:916-927 | a parsed value is clamped, and it is emitted exactly when it is not more than 1e-6 below the last one and either rises by 0.05 or reaches the total |
| Progress.ReportProgress | core/ffmpeg.py:891-944 | first (0, total), then the reports, then (total, total) only on exit code 0; a non-zero exit fails |
| Progress.ProgressEnds | core/ffmpeg.py:891-944 | a successful run starts at (0, total), ends at (total, total), and stays within [0, total] |
| History.Relabel | core/history.py:61-64 | the caller's project and selection under the given label |
| History.RelabelOwn | core/history.py:62-63 | an entry relabelled with its own label is itself |
| History.Newest | core/history.py:53-55 | the newest `limit` entries, as a suffix |
| History.NewestKeepsTop | core/history.py:53-55 | truncation keeps the new entry on top and drops the oldest first |
| History.HistoryManager.constructor | core/history.py:25-28 | the cap is `max(1, limit)`; both stacks start empty |
| History.HistoryManager.Clear | core/history.py:30-32 | both stacks become empty |
| History.HistoryManager.CanUndo | core/history.py:34-35 | true exactly when the undo stack is non-empty |
| History.HistoryManager.CanRedo | core/history.py:37-38 | true exactly when the redo stack is non-empty |
| History.HistoryManager.PeekUndoLabel | core/history.py:40-41 | the top undo label, or "" |
| History.HistoryManager.PeekRedoLabel | core/history.py:43-44 | the top redo label, or "" |
| History.HistoryManager.Record | core/history.py:46-56 | pushes the entry, keeps the newest `limit` entries and empties redo; the cap invariant holds |
| History.HistoryManager.Undo | core/history.py:58-64 | on an empty stack, None and no change; otherwise pops the top and pushes the caller's state onto redo under the same label |
| History.HistoryManager.Redo | core/history.py:66-73 | on an empty stack, None and no change; otherwise pops the top and pushes the caller's state onto undo under the same label, re-truncated |
| History.UndoThenRedo | core/history.py:58-73 | an undo followed by a redo from the restored state leaves both stacks as they were |
| Shortcuts.ActionIdsDistinct | core/shortcuts.py:7-23 | the action ids are pairwise distinct |
| Shortcuts.RemoveSpaces | core/shortcuts.py:30 | removes exactly the spaces and keeps every other character |
| Shortcuts.NormalizeKey | core/shortcuts.py:26-40 | a lone space is "space" |
| Shortcuts.CanonicalIsFixed | core/shortcuts.py:26-40 | a key that is already normal is unchanged |
| Shortcuts.AliasTargetsCanonical | core/shortcuts.py:31-39 | every alias maps to a normal key |
| Shortcuts.CleanedIsCanonicalText | core/shortcuts.py:30 | after strip, lower and space removal there are no spaces, no capitals and no white space at the ends |
| Shortcuts.NormalizeKeyIdempotent | core/shortcuts.py:26-40 | normalised keys are normal, so normalising twice changes nothing |
| Shortcuts.AliasesNormalize | core/shortcuts.py:31-40 | each alias spelling normalises to its target |
| Shortcuts.ResolveShortcut | core/shortcuts.py:43-106 | an empty normalised key gives no action |
| Shortcuts.HelpAlwaysWins | core/shortcuts.py:62-64 | show_shortcuts is given exactly for F1, "?" and shift+"/", whatever else is held |
| Shortcuts.AltBlocks | core/shortcuts.py:66-67 | with alt held, no other key gives an action |
| Shortcuts.TypingFocusBlocksPlainKeys | core/shortcuts.py:69-84 | while typing, only help and ctrl/meta shortcuts resolve |
| Shortcuts.PrimaryShortcuts | core/shortcuts.py:69-81 | the ctrl/meta table: z undoes, shift+z or y redoes, and s/e/i/d save, export, import and duplicate, even while typing |
| Shortcuts.PlainKeys | core/shortcuts.py:86-106 | the plain-key table in both directions; every other plain key gives nothing |
| Config.DefaultConfig | core/config.py:70-75 | no recent projects, a 60-second interval and an empty export folder |
| Config.RecentFromDict | core/config.py:22-32 | None exactly for a blank stripped path; the name defaults to the path's stem and the time to "" |
| Config.RecentRoundTrip | core/config.py:22-35 | an entry that `from_dict` can produce reads back as itself |
| Config.ReadEntry | core/config.py:93-97 | only a dictionary with a usable path gives an entry |
| Config.RecentList | core/config.py:87-97 | the usable entries of the stored list, in order |
| Config.RecentListAppend | core/config.py:87-97 | reading a concatenation reads each part, in order |
| Config.Take | core/config.py:98 | the first n entries: all of them when there are fewer, none for a non-positive n |
| Config.Kept | core/config.py:119-124 | exactly the entries under another key, in order |
| Config.KeptAppend | core/config.py:119-124 | filtering a concatenation filters each part, in order |
| Config.KeptKeepsDistinct | core/config.py:119-124 | dropping entries keeps keys distinct |
| Config.MoveToFront | core/config.py:119-128 | the loop builds a list with the new entry first, then earlier entries under other keys, at most ten in all |
| Config.MoveToFrontKeepsDistinct | core/config.py:119-128 | a list without repeated keys stays so |
| Config.ClampInterval | core/config.py:84-85 | within [10, 3600], and the value itself inside that range |
| Config.IntervalOf | core/config.py:77-85 | the clamped `int()` of the stored value, or 60 when it is not an integer |
| Config.ConfigStore.constructor | core/config.py:45-47 | the store holds the given file |
| Config.ConfigStore.Load | core/config.py:54-64 | the stored dictionary, or the defaults when the file is missing, corrupt or not a dictionary |
| Config.ConfigStore.Save | core/config.py:66-68 | what is saved is what loads |
| Config.ConfigStore.AutoSaveIntervalSec | core/config.py:77-85 | always within [10, 3600] |
| Config.ConfigStore.RecentProjects | core/config.py:87-98 | at most `max(0, limit)` usable entries, in stored order |
| Config.ConfigStore.ClearRecentProjects | core/config.py:100-103 | `recent` becomes empty and every other setting is kept |
| Config.ConfigStore.AddRecentProject | core/config.py:105-130 | a blank path changes nothing; otherwise the file holds the settings with the new list |
| Config.Dicts | core/config.py:129 | one stored dictionary per entry |
| Config.DictsReadBack | core/config.py:22-35 | a list of entries that `from_dict` can produce reads back unchanged |
| Config.DictsStep | core/config.py:22-35 | reading back extends entry by entry |
| Config.AddedConfig | core/config.py:126-130 | only `recent` changes |
| Config.AddedListFacts | core/config.py:119-128 | the new list is well formed and starts with the new entry; its other entries are earlier ones under other keys |
| Config.AddedReadsBack | core/config.py:119-130 | after an add, the recent projects read back are the new entry, then earlier entries under other keys, at most ten |
| Config.AddSamePathTwice | core/config.py:105-130 | adding the same path twice to an empty list leaves one entry, the second |
| Config.AddedKeepsKeysDistinct | core/config.py:119-130 | adding never creates two entries with the same key |
| PyValues.Strip | core/shortcuts.py:30 | `str.strip()`: no white space at either end, empty exactly for all-white-space text, and the identity on already-stripped text |
| PyValues.Lower | core/shortcuts.py:30 | `str.lower()` on ASCII letters, character by character |
| PyValues.PyStr | core/config.py:25 | `str()`: a string is itself, and the result is empty exactly for the empty string |
| PyValues.PyInt | core/config.py:81 | `int()`: integers and booleans convert, floats truncate toward zero, text converts exactly when it is a sign and digits after stripping, and None, lists and dicts fail |
| PyValues.PyFloat | core/model.py:47-48 | `float()`: numbers and booleans convert, blank text fails, digit text gives its value, and None, lists and dicts fail |
| PyValues.Basename | core/ffmpeg.py:539 | `Path.name`: the part after the last slash, without slashes |
| PyValues.Stem | core/config.py:28 | `Path.stem`: the name without its last suffix |

## Left out

- **I/O, processes, probing.** The following are not modelled: `resolve_ffmpeg_bins`, `probe_media`, and the `subprocess` calls in `export_timeline`, `export_project` and `export_project_with_progress`.
  - Probe results are an input map from source to `MediaInfo`. An unprobeable source is the `ProbeFailed` error.
  - The progress loop runs over a given sequence of lines and an exit code. The callback is a flag, and the events it would receive are returned.
- **`build_export_command_project`.** Its V1/A1 adaptation into tracks is not part of this model. The track builder it calls is.
- **Filter text.** Filter-graph parts are structured values, not text. The text formatting is not modelled: `{overlap:.6f}`, `{vol:.2f}`, the float repr in `trim=start=`, and joining with `;`.
- **Floating point.** Seconds, volumes and overlaps are exact reals. `1e-6` and `0.05` are exact constants.
- **Randomness, clock, platform.** Each becomes a parameter:
  - `new_id` → a fresh-id function;
  - `_now_iso` → a `now` string;
  - `Path.resolve` → a `resolve` function;
  - `os.name == "nt"` → a `caseInsensitive` flag.
- **The settings file.** It is a field holding a missing, corrupt or stored document. JSON text and `mkdir` are not modelled.
- **`str()` rendering.** Text conversion of floats, lists and dictionaries gives placeholder text in `PyValues.PyStr`. None of these appears in a property.
- **Missing model definitions.** `ExportSettings`, `Track`, `transition_overlap_sec` and `transition_in` are imported by core/ffmpeg.py but not defined in core/model.py. They are declared here with only the fields core/ffmpeg.py reads. The transition lookup is a pair of functions.
- **`has_audio`.** It is a clip field defaulting to true. `to_dict` does not write it, because the `Clip` dataclass does not declare it.
- **Unreachable raises.** Two raises cannot fire, and are proved so rather than modelled: "Missing audio chain" (core/ffmpeg.py:468-469), because the audio labels are always given; and "V1 is empty" at line 580 (see `ExportCommand.BaseHasOutput`).
- **Broad exception handlers.** The `try`/`except` around `from_dict` and `Path.resolve` in core/config.py are not modelled: none of the modelled operations raises there.
- Progress.ReportedOrder: emitted values are proved non-decreasing only up to the source's 1e-6 tolerance. The loop lets a value up to 1e-6 below the last one through, and near the total a value may dip within `[total - 1e-6, total]`.
- Shortcuts.NormalizeKey: its contract states only the lone-space case. The rest of the normalisation is stated by `NormalizeKeyIdempotent`, `AliasesNormalize` and `CleanedIsCanonicalText`.
- Config.AddedReadsBack: it assumes the resolved path is non-blank and already stripped, as `Path.resolve` returns an absolute path.
- **`shortcut_legend`.** Display text for the help dialog, not logic.
- **Chain pad names.** `_build_transition_chain` names its pads `vx{i}`, `vc{i}`, `ax{i}` and `ac{i}` without a track prefix (core/ffmpeg.py:385-404), and it runs once per video track (line 576). Two video tracks with two or more clips each therefore both define a pad such as `[vc1]`, which FFmpeg rejects. The model keeps these names as written and proves nothing about the uniqueness of pad names.
- BitrateOf: `IsBitrate` accepts ASCII digits only, while `\d` in Python's `re` also matches other Unicode decimal digits; such a bitrate becomes 192k here.
- PyInt: text is an optional sign and ASCII digits; Python's `int()` also accepts `_` between digits and other Unicode decimal digits, which fail here.
- PyFloat: text is plain decimal notation; Python's `float()` also accepts exponents (`1e3`), `inf`, `nan`, `_` between digits and other Unicode digits, which fail here.
- Basename: splits on `/` only, as POSIX `pathlib` does; on Windows `Path.name` also splits on `\` and after a drive, so the file named in the no-video-stream error can differ.
- Stem: built on `Basename`, so POSIX only; on Windows the default project name (core/config.py:28) can differ from `Path.stem`.
- **Case folding.** `Lower` folds only ASCII letters; Python's Unicode case folding is not modelled.
