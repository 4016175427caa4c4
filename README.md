# addr: a verified model of the save pipeline

addr ("Audio Metadata Organiser") is a small PyQt5 desktop program. The user
drops audio files onto a list, fills in title, artist, album, album artist,
genre, year and track, ticks "explicit" if needed, and presses Save. The first
selected file is converted to `.m4a` by `ffmpeg` unless its name already ends
in `.m4a`. Its MP4 tag block is then rewritten through `mutagen`.

This project models the logic under that user interface, in five modules:

- `Paths` (paths.dfy): the two output-path rules. `Song.checkExt` keeps the
  directory. `UI.convert` puts the file in `<cwd>/conv/`. Both use Python's
  `s[:-4]` slice, the `.endswith(".m4a")` test, and POSIX `basename` and
  `join` over "/".
- `TagMaps` (tagmaps.dfy): the tag block as a `map<string, TagValue>`, and
  `Tagged`, the map that `setMetadata` leaves behind.
- `Container` (container.dfy): the disk, reduced to the directories created,
  the tag block of every file that opens as MP4, and the log of encoder runs.
  It also holds `Mp4`, an opened file whose `tags` field `SetMetadata` updates
  in place before saving.
- `DropList` (droplist.dfy): the file list widget. `DropEvent` is the
  de-duplicating loop of `dropEvent`. `NewPaths` is its specification.
- `App` (app.dfy): the main window. It holds `Clicker`, `GetSelectedItem`,
  `Convert` and `SaveAndApply`, each proved against `SaveEffect`, a function
  from the disk before one Save to the disk after it and the outcome.

Nothing external is called. Three things become parameters:
- the working directory, a field of `Window`;
- the form's text fields and the explicit check box;
- the tag block of the file the encoder writes, or `None` when it writes
  nothing that opens.

Behaviour reproduced exactly as the code has it:

- Conversion always removes the last four characters, whatever they are.
  "a.flac" becomes "a..m4a". A name shorter than four characters becomes
  ".m4a".
- `checkExt` slices the whole path. When the base name has fewer than four
  characters, the slice reaches into the directory part.
  `CheckExtAndConvertAgreeOnName` shows that the two rules agree otherwise.
- The drop loop's set of seen paths is local to one drop. A path dropped again
  later is listed again.
- Only the head of the selection is converted and tagged.
- The encoder's exit status is never read. When the encoder runs but fails,
  this shows up only when the output will not open. A stale file at the
  output path gets tagged instead.
- The track field is read into the form but never stored. The track is
  always 1 of 1.

Where the intent and the code part ways, the model follows the code:

- The intent of conversion is to replace the extension. The code drops exactly
  four characters, and so does the model.
- `dropEvent` tests `mimeData().hasUrls` without calling it. A bound method is
  always true, so every drop takes the accepting branch. `DropEvent` takes that
  branch without a test. The other branch cannot be reached, and it would not
  change the list anyway.

## Model

| member | source | states |
|---|---|---|
| `Paths.EndsWithSplits` | main.py:169 | `s.endswith(suffix)` holds exactly when `s` is some prefix followed by `suffix` |
| `Paths.DropLast4` | main.py:90 | Python's `s[:-4]`: a prefix of `s` with `max(len(s) - 4, 0)` characters |
| `Paths.CheckExt` | main.py:86-104 | the result always ends in ".m4a" and has length `max(len(p), 4)`; it equals the input exactly when the input ends in ".m4a"; otherwise its stem is the input's first `len(p) - 4` characters |
| `Paths.CheckExtIdempotent` | main.py:87-90 | applying `checkExt` to its own output changes nothing |
| `Paths.CheckExtKeepsDotOfLongExtension` | main.py:90 | the slice is not extension-aware: "a.flac" becomes "a..m4a" |
| `Paths.Basename` | main.py:178 | `os.path.basename` holds no "/" and is no longer than the path |
| `Paths.BasenameIsLastSegment` | main.py:178 | the base name ends the path, and the character just before it, if any, is "/": it is everything after the last "/" |
| `Paths.BasenameAppend` | main.py:178 | appending separator-free text to a path extends its base name by that text |
| `Paths.BasenameOfName` | main.py:178 | a name without "/" is its own base name |
| `Paths.BasenameUnderDir` | main.py:178 | a separator-free name under a directory (empty, or ending in "/") is the base name of the joined path |
| `Paths.SplitAtBasename` | main.py:178 | every path is its directory part (empty or ending in "/") followed by its base name |
| `Paths.DropLast4Append` | main.py:90 | `(a + b)[:-4]` is `a + b[:-4]` when `b` has at least four characters |
| `Paths.Join` | main.py:175-178 | `os.path.join(a, b)` ends with `b`; an absolute `b` is the result; otherwise the result extends `a`, and it is `a + b` when `a` is empty or ends in "/", and `a + "/" + b` when it does not |
| `Paths.ConvDir` | main.py:175 | `join(cwd, "conv")` is `cwd + "conv"` when `cwd` is empty or ends in "/", and `cwd + "/conv"` otherwise |
| `Paths.ConvDirEndsInName` | main.py:175 | the conversion directory is non-empty and its last character is not "/" |
| `Paths.ConvertedNameHasNoSep` | main.py:178 | `basename(p)[:-4] + ".m4a"` holds no "/" |
| `Paths.ConvertPath` | main.py:178 | the converted path extends the conversion directory and ends with `basename(p)[:-4] + ".m4a"` |
| `Paths.ConvertPathUnderCwd` | main.py:175-178 | under a working directory not ending in "/", the converted path is `cwd + "/conv/" + basename(p)[:-4] + ".m4a"` |
| `Paths.ConvertPathLayout` | main.py:178 | the converted path is the conversion directory, one "/", then `basename(p)[:-4] + ".m4a"` |
| `Paths.ConvertPathShape` | main.py:174-193 | the converted path ends in ".m4a", lies directly in `<cwd>/conv`, and its base name is the input's base name minus four characters plus ".m4a" |
| `Paths.ConvertPathUsesBaseNameOnly` | main.py:178 | the converted path depends on the input's base name alone; the input's directory plays no part |
| `Paths.CheckExtAndConvertAgreeOnName` | main.py:178 | for a non-`.m4a` input whose base name has at least four characters, `checkExt` (line 90) and `convert` give the output the same file name |
| `Paths.NormalizedPath` | main.py:169-170 | the head of the selection after `getSelectedItem` always ends in ".m4a", and it is unchanged exactly when it already did |
| `TagMaps.KeysDistinct` | main.py:206-219 | the seven always-written atom names and "rtng" are pairwise distinct |
| `TagMaps.Tagged` | main.py:205-226 | after `setMetadata`, the five text atoms hold fields 0-4 verbatim, "year" holds field 5, "trkn" holds (1,1), "rtng" holds [1] when explicit and otherwise keeps its earlier value or absence, every other atom is unchanged, and the keys are the old keys plus the written ones |
| `TagMaps.TrackFieldIgnored` | main.py:216 | two field lists that differ only in the track field give the same tag block |
| `TagMaps.SecondSaveWins` | main.py:206-216 | after two saves, every always-written atom holds the second save's value |
| `TagMaps.TaggedIdempotent` | main.py:205-225 | saving the same fields twice equals saving them once |
| `TagMaps.RatingPresentIffExplicit` | main.py:217-224 | starting with no rating, the rating is present after a save exactly when explicit; an existing rating is never removed |
| `Container.Disk.MakeDirs` | main.py:176-177 | the directory exists afterwards; nothing else changes |
| `Container.Disk.RunEncoder` | main.py:179-191 | the run from input to output is appended to the log; the output's tag block becomes what the encoder produced, if anything |
| `Container.Mp4.constructor` | main.py:107 | an opened file carries the tag block stored for its path |
| `Container.Mp4.Save` | main.py:225 | the file's stored tag block becomes the in-memory one; nothing else on disk changes |
| `Container.OpenMp4` | main.py:200 | `MP4(path)` succeeds exactly when the path holds an MP4 tag block, and yields a fresh object holding that block |
| `Container.SetMetadata` | main.py:205-226 | the in-memory tag block becomes `Tagged` of the old one, and the file on disk holds it |
| `DropList.NewPaths` | main.py:62-67 | the loop adds at most one path per dropped URL, and none it has already added in this drop |
| `DropList.NewPathsMembers` | main.py:62-67 | a path is added exactly when some dropped URL is that local file and the drop has not added it yet |
| `DropList.NewPathsDistinct` | main.py:60-67 | no path is added twice within one drop, and none that was already added |
| `DropList.NewPathsInDropOrder` | main.py:62-67 | added paths appear in the order of their first occurrence as local files in the drop |
| `DropList.DroppedPaths` | main.py:56-71 | one drop appends every local path of the drop exactly once, no non-local URL, in first-occurrence order |
| `DropList.ListBox.constructor` | main.py:37-41 | an empty list with nothing selected |
| `DropList.ListBox.SelectedTexts` | main.py:168 | one text per selected row, in selection order: the text of the item in that row |
| `DropList.ListBox.AddItem` | main.py:67 | `addItem` appends one item and keeps the selection valid |
| `DropList.ListBox.DropEvent` | main.py:56-71 | the earlier items stay as a prefix, and the items appended are exactly `NewPaths(urls, {})`; the selection is unchanged |
| `App.ConvertEffect` | main.py:175-191 | `convert(p)` creates at most the conversion directory, logs exactly one encoder run from `p` to the converted path, and changes no tag block but the output's, which becomes what the encoder produced, if anything |
| `App.SelectEffect` | main.py:169-170 | an `.m4a` head leaves the disk as it is; any other head adds one encoder run to its converted path; no tag block changes except at the normalised path, which exists afterwards exactly when it did before or the encoder produced a file |
| `App.SaveEffect` | main.py:157-201 | one Save ends with `NoSelection` exactly when nothing is selected, and then leaves the disk as it is; otherwise the file it opens is the normalised head of the selection and ends in ".m4a"; it is saved exactly when that file exists after the conversion step, and its tag block is then `Tagged` of what it held before the save, so atoms not written and an earlier rating (when not explicit) survive |
| `App.OnlyFirstSelectedIsProcessed` | main.py:196-201 | a Save with several files selected has the same effect as one with only the first selected |
| `App.OtherFilesUntouched` | main.py:196-201 | no tag block changes except the one at the normalised path of the head of the selection |
| `App.M4aSelectionIsNotConverted` | main.py:168-171 | an `.m4a` head is tagged in place, with no encoder run and no directory created |
| `App.OtherSelectionIsConvertedOnce` | main.py:169-193 | any other head is encoded exactly once into `<cwd>/conv`, and the encoder's output is the file tagged |
| `App.FailedConversionGoesUnnoticed` | main.py:191-193 | when the encoder runs and produces nothing, the run is still logged; the save then fails to open the output, or tags a stale file already there |
| `App.SavedFileHoldsFields` | main.py:200-201 | after a successful Save the file holds fields 0-5, track 1 of 1, and the explicit rating when explicit |
| `App.SecondSaveOverwrites` | main.py:205-216 | two Saves of the same `.m4a` file leave the second one's values under every always-written atom |
| `App.EndToEndExample` | main.py:157-226 | on any earlier disk, "/music/track.mp3" selected in "/home/user" becomes "/home/user/conv/track.m4a"; when the encoder writes a fresh untagged file, it replaces any earlier one. Its tags are exactly the six fields and track 1 of 1, with no rating. |
| `App.ExamplePath` | main.py:178 | "/music/track.mp3" is not `.m4a`, and converting it in "/home/user" gives "/home/user/conv/track.m4a" |
| `App.ExampleTags` | main.py:206-216 | tagging an empty block with the example fields, not explicit, gives exactly seven atoms, with track 7 stored as 1 of 1 |
| `App.Window.constructor` | main.py:113-125 | the window holds its list, the disk and the working directory |
| `App.Window.Convert` | main.py:174-193 | returns `join(cwd/conv, basename(p)[:-4] + ".m4a")`; the conversion directory exists and one encoder run is logged, whatever its result |
| `App.Window.GetSelectedItem` | main.py:167-171 | the result is as long as the selection; only its head may differ, replaced by its converted path when it does not end in ".m4a" (a conversion runs only then) |
| `App.Window.SaveAndApply` | main.py:196-201 | the disk after and the outcome are those of `SaveEffect` |
| `App.Window.Clicker` | main.py:157-164 | with nothing selected it returns at once, before any conversion or tagging; otherwise its effect and outcome are those of `SaveEffect` |

## Left out

- The Qt user interface is not modelled. That covers loading `main.ui`, the
  layout, finding the form's widgets, `dragEnterEvent`/`dragMoveEvent`, the
  drop action, and the application start-up (main.py:36-54, 112-154,
  229-231). The form's fields and the check box are parameters of `Clicker`.
  How the user changes the selection is not modelled. The selection is the
  `selected` rows of `ListBox`, in the order `selectedItems()` gives them.
- The `ffmpeg` process is not run. It is an opaque step that logs
  `EncoderRun(input, output)` and sets the output's tag block to a value
  passed in. Its exit status is never read, and the model does not invent
  one.
- `Container.Disk.RunEncoder`: only an encoder that runs is modelled. When
  the `ffmpeg` binary is missing, `subprocess.run` (main.py:191) raises
  `FileNotFoundError`. Nothing in `convert`, `getSelectedItem`,
  `saveAndApply` or `clicker` catches it, so it escapes the `clicked` slot
  and, under PyQt5 5.5 and later, ends the program. The conversion directory
  exists by then, and no MP4 is opened or tagged. The model has no such
  outcome. With `None` and a stale file at the output path, `SaveEffect`
  tags that file instead.
- `Container.Disk.RunEncoder`: when the encoder produces nothing (`None`),
  any tag block already at the output path is kept. The model cannot
  express a run that leaves a non-MP4 file over an existing MP4 one. The
  command has no `-y`, so ffmpeg asks before overwriting an existing output
  and a repeated conversion usually leaves the old file; that case is the
  `None` case.
- `CheckExt`: the encoder call inside `Song.checkExt` (main.py:91-103) is not
  modelled, because nothing calls `checkExt`. Only the path it returns is
  modelled.
- `Song.__init__` and its fields (main.py:76-84) are not modelled. Nothing
  reads them.
- `os.getcwd()` is the `cwd` field of `Window`. `os.path.exists` is reduced to
  membership in the set of created directories. A plain file named `conv`
  is not modelled.
- The `except ValueError` fallback to the year "2023" (main.py:214-215) is
  left out as unreachable. `str()` of a string never raises, so field 5 is
  always stored verbatim.
- `SetMetadata`: saves never fail in the model. The `except Exception` around
  the explicit branch (main.py:221-222) therefore has nothing to catch. The
  extra save in that branch is modelled, and it leaves the same disk as the
  final save.
- `OpenMp4`: mutagen raises an exception when a file does not open. The
  model instead makes `OpenMp4` return `None`, and the Save ends with
  `CannotOpen`. Nothing is tagged, and conversion effects that already
  happened stay. In the real program the exception escapes the `clicked`
  slot (main.py:152, 200) uncaught, which under PyQt5 5.5 and later ends the
  program; that termination is not modelled, only the disk state it leaves.
- All `print` output (main.py:69, 159, 192, 199, 222, 224, 226) is left out.
- Tag values are modelled at the level of this program: a text value as
  assigned, track pairs, integer lists. How mutagen encodes them into atoms
  is not modelled.
