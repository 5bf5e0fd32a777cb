# pypam acoustic survey driver, modelled in Dafny

This project models the batch driver of pypam, `pypam/acoustic_survey.py`, and proves
properties of that model. The driver has three parts:

- **`ASA.AcousticFolder`** in its directory modes. It lists the `.wav` recordings under a
  folder, flat or recursive, sorted as POSIX `pathlib.Path` values. It then hands them out one
  file group at a time. A group is the recording plus one companion path per requested
  extension, each made with `str.replace('.wav', ext)`. The class keeps the cursor `n`,
  the listing and the extensions as fields, and its methods update them in place. This is
  module `Folder`, class `AcousticFolder`.
- **The survey passes** `evolution_multiple`, `evolution`, `timestamps_df`, `apply_to_all`
  and `duration`, together with `start_end_timestamp` and the period handling of
  `ASA.__init__`.
  - Each pass walks the groups in listing order and builds the per-file analyser
    (`HydroFile`). For a recording inside the analysis period, it runs one operation.
  - A recording whose operation raises is skipped. That failure is caught.
  - A recording whose analyser cannot be built stops the pass, because the constructor
    call is outside the `try`.
  - Module `Survey` holds the specification: one pass as a function, its table, sum and
    skip log, and reference definitions read from the front of the list.
  - Module `AcousticSurvey`, class `ASA`, runs the same loops statement by statement
    against that specification.
- **`cut_and_place_files_period` and `move_file`**, modelled as written. For each group,
  one of four things happens:
  - The recording contains the period start. It is split there and the late part is
    moved. Every non-log companion table is cut at the start: the early rows stay in
    place, and the late rows go to a new companion named after the late part, which is
    then moved.
  - Otherwise, the recording contains the period end. It is split there and the early
    part is moved. Each non-log companion is still cut at the period **start**, and its
    late rows still go to a companion named after the late part. Then every companion is
    moved, the `.log.xml` one included.
  - Otherwise, a recording inside the period is moved whole, with every companion.
  - Any other group is left alone.

  `move_file` creates the folder when nothing exists at that path. It then renames the
  file to `folder/<base name>`, replacing whatever file was there (POSIX `os.rename`). This is module
  `Placement` (per-group logic) and module `Disk` (the file system and `move_file`).

**The world.**
- The file system is a map from path to content plus a set of directories.
- Content is a sound file cut from a recording, a companion table of timestamped rows,
  or an opaque blob.
- The glob is the set of matching paths. `__iter__` takes them in an order left open,
  then sorts them.
- `HydroFile` is not part of this model. It is a parameter: a record of total functions
  of the file path. For the constructor (`opens`), the analyses, `total_time`, `split`
  and any named method, `None` or `false` means that the call raised. For
  `is_in_period`, which also takes the period, and `contains_date`, which also takes
  the date, `false` is the answer "no"; these two are taken never to raise.
- `datetime.strptime` is a parameter too, applied to the fixed format strings.
- Failures that the source does not catch become the `Err` side of a `Result`.

**Where the code decides.**
- Per-file failures do not always leave the rest of a survey running. Only the
  operation's failure is caught. A recording whose `HydroFile` cannot be constructed
  ends the pass.
- The survey passes return only the table, the sum or nothing. The skip log is only
  printed, so here it is a ghost out-parameter.
- A group whose placement fails is not rolled back. The model reports the error and
  does not describe the partly changed disk.

## Model

| member | source | states |
|---|---|---|
| Strings.ReplaceIsJoinSplit | pypam/acoustic_survey.py:711 | `s.replace(pat, rep)` is `rep.join(s.split(pat))`: each occurrence is replaced and the text between occurrences is kept |
| Strings.SplitPiecesFree | pypam/acoustic_survey.py:711 | no piece between two replaced occurrences contains the pattern, so every occurrence of ".wav" in the path is replaced |
| Strings.JoinSplit | pypam/acoustic_survey.py:670-673 | splitting a path at '/' and joining it back gives the path, so two different paths have different parts |
| Strings.ReplaceWavSuffix | pypam/acoustic_survey.py:711 | for `stem + ".wav"` with no other ".wav" in it, the companion for extension `e` is `stem + e` |
| Strings.BasenameIsLastPart | pypam/acoustic_survey.py:752 | `Path.name` is the longest slash-free tail of the path |
| Strings.BasenameOfSuffix | pypam/acoustic_survey.py:752 | a slash-free tail right after a '/' is exactly `Path.name` |
| Strings.StrLessIrreflexive | pypam/acoustic_survey.py:670-673 | `str` comparison is irreflexive |
| Strings.StrLessTransitive | pypam/acoustic_survey.py:670-673 | `str` comparison is transitive |
| Strings.StrLessTotal | pypam/acoustic_survey.py:670-673 | any two different `str` values are ordered one way or the other |
| Ordering.PathLessIrreflexive | pypam/acoustic_survey.py:670-673 | no path sorts before itself |
| Ordering.PathLessTransitive | pypam/acoustic_survey.py:670-673 | the order `sorted` uses on `Path` values (by parts) is transitive |
| Ordering.PathLessTotal | pypam/acoustic_survey.py:670-673 | any two different paths are ordered one way or the other |
| Ordering.SortPathsSorts | pypam/acoustic_survey.py:671-673 | `sorted` returns the same paths, each as often, in ascending order |
| Ordering.OrderedUnique | pypam/acoustic_survey.py:671-673 | two ascending arrangements of the same paths are equal, so the sorted listing does not depend on the order the glob returns paths in |
| Disk.OsPathJoin | pypam/acoustic_survey.py:266 | `os.path.join(a, b)` ends with `b`; it is `b` when `b` is absolute and starts with `a` otherwise |
| Disk.Destination | pypam/acoustic_survey.py:752 | the destination lies directly in `folder` (no further '/' after `folder + "/"`) and has the file's base name |
| Placement.MoveKeepsOther | pypam/acoustic_survey.py:753 | a move leaves every path other than the moved file and its destination as it was |
| Disk.MoveFile | pypam/acoustic_survey.py:735-753 | succeeds exactly when the file exists, `folder` is not a plain file and no directory stands at the destination; `folder` becomes a directory, the destination holds the file's content, the file is gone, and every other path is unchanged |
| Folder.Companions | pypam/acoustic_survey.py:710-711 | one companion per extension |
| Folder.GroupShape | pypam/acoustic_survey.py:708-714 | a group has `1 + len(extensions)` paths: the recording first, then the `.replace('.wav', e)` companions in the order of `extensions` |
| Folder.CompanionOfPlainPath | pypam/acoustic_survey.py:711 | for a path `stem.wav` the companion for `e` is `stem + e` |
| Folder.StepsOfFreshIteration | pypam/acoustic_survey.py:684-716 | a fresh cursor yields the group of each listed path in listing order and then `StopIteration`; index -1 yields the last group, or an index error on an empty listing |
| Folder.SetToSeq | pypam/acoustic_survey.py:671-673 | the glob's paths, each once |
| Folder.ListingIsSortedGlob | pypam/acoustic_survey.py:668-673 | the listing holds each globbed path exactly once, in ascending order, and is the only ascending arrangement of them |
| Folder.Enumerate | pypam/acoustic_survey.py:671-673 | the glob yields each matching path exactly once, in an unspecified order |
| Folder.AcousticFolder.constructor | pypam/acoustic_survey.py:632-652 | stores the folder, the recursion flag and the extensions; nothing is listed yet |
| Folder.AcousticFolder.Len | pypam/acoustic_survey.py:719-724 | `__len__` counts the globbed paths without iterating, and that count is the length of the listing a fresh iteration walks |
| Folder.AcousticFolder.Iter | pypam/acoustic_survey.py:664-681 | `__iter__` puts the cursor at 0 and the listing becomes the sorted glob result |
| Folder.AcousticFolder.Next | pypam/acoustic_survey.py:684-716 | `__next__` before `__iter__` raises `AttributeError`; otherwise it yields the group at the cursor (negative cursors count from the end) and advances the cursor by exactly one, or raises `StopIteration` past the end, leaving the cursor unchanged |
| Folder.AcousticFolder.GetItem | pypam/acoustic_survey.py:655-661 | `__getitem__(k)` re-lists and yields the group at index `k`, leaving the cursor at `k + 1`; `k >= len` raises `StopIteration` and `k < -len` raises `IndexError`, both leaving the cursor at `k` |
| Survey.Strptime | pypam/acoustic_survey.py:65-66 | parsing succeeds exactly on text the parser accepts; a `datetime` passed in raises |
| Survey.NormalizePeriod | pypam/acoustic_survey.py:63-71 | `None` stays `None`; a period starting with a `datetime` is kept unchanged; otherwise both bounds are parsed with `%Y-%m-%d %H:%M:%S`, and an empty period, a one-element period or a malformed bound raises |
| Survey.NormalizeIdempotent | pypam/acoustic_survey.py:63-71 | normalising a normalised period changes nothing |
| Survey.ContributedRowsAppend | pypam/acoustic_survey.py:98 | the rows of two runs of files are the rows of the first run followed by those of the second |
| Survey.ContributedSumAppend | pypam/acoustic_survey.py:195 | the sum over two runs of files is the sum of the two sums |
| Survey.PassOutcome | pypam/acoustic_survey.py:91-100 | a pass fails at the first file whose analyser cannot be built; otherwise it runs the operation on exactly the in-period files, in listing order, and skips exactly those whose operation raised |
| Survey.PassRows | pypam/acoustic_survey.py:89-102 | the table of a pass is the in-order concatenation of the rows of the in-period files whose analysis succeeded |
| Survey.PassTotal | pypam/acoustic_survey.py:188-199 | the sum of a pass is the total time of the in-period files whose `total_time` succeeded |
| Survey.OpenedPrefix | pypam/acoustic_survey.py:91-94 | the number of leading recordings whose analyser can be built; it is short of the list exactly when some analyser cannot be built, and then it is the position of the first such recording |
| Survey.OpenedPrefixAt | pypam/acoustic_survey.py:91-94 | a recording that cannot be opened, after a run of ones that can, is at the position `OpenedPrefix` gives |
| Survey.PassStopsAt | pypam/acoustic_survey.py:91-94 | a pass that reaches, after building every earlier analyser, a recording whose analyser cannot be built stops at that recording, which is the first unopened one |
| Survey.PassFailureSticks | pypam/acoustic_survey.py:94 | once the analyser of a file cannot be built, the pass fails with that error whatever follows |
| Survey.FailingFileContributesNothing | pypam/acoustic_survey.py:96-100 | a file whose operation raises adds no rows, and the rows of the others are unchanged; an in-period one is in the skip log |
| Survey.FailedInList | pypam/acoustic_survey.py:99-100 | an in-period file whose operation raises is in the skip log |
| Survey.NothingInPeriod | pypam/acoustic_survey.py:95 | with no file in the period, the table is empty and the duration is 0 |
| Placement.RowsBefore | pypam/acoustic_survey.py:281 | every row kept in the first part is before the boundary |
| Placement.RowsFrom | pypam/acoustic_survey.py:282 | every row of the second part is at or after the boundary |
| Placement.SplitInterleaves | pypam/acoustic_survey.py:281-282 | the two parts are a merge of the table: each keeps its rows' original relative order |
| Placement.SplitKeepsRows | pypam/acoustic_survey.py:281-282 | together the two parts hold every row of the table exactly once |
| Placement.SplitOfOrderedTable | pypam/acoustic_survey.py:281-282 | on a time-ordered table, the first part followed by the second is the table |
| Placement.SplitTable | pypam/acoustic_survey.py:279-285 | reading a missing or non-table companion raises; otherwise the companion keeps the rows before the boundary, the new path gets the rows from it, and nothing else changes |
| Placement.CutPeriod | pypam/acoustic_survey.py:263-264 | both bounds must be text in `%d/%m/%Y %H:%M:%S`; a missing bound or an unparsable one raises |
| Placement.OutsideGroupUntouched | pypam/acoustic_survey.py:306-314 | a group with neither boundary that is outside the period leaves the disk unchanged |
| Placement.StartTestedFirst | pypam/acoustic_survey.py:271-288 | a group containing the start is handled by the start branch, even if it also contains the end |
| Placement.LogCompanionNotSplit | pypam/acoustic_survey.py:278-304 | a `.log.xml` companion is never split: the start branch leaves it alone and the end branch only moves it |
| Placement.StartStepEffect | pypam/acoustic_survey.py:277-287 | start branch: the companion keeps its rows before the start, and the late rows end up in the destination folder under the name made from the late sound file |
| Placement.EndStepEffect | pypam/acoustic_survey.py:294-304 | end branch as written: the companion moved to the destination holds the rows before the period start, and the rows from the start stay behind in a companion named after the late sound file |
| Placement.MoveAllRelocates | pypam/acoustic_survey.py:310-312 | moving files with different names, none of them already in the folder, puts each file's content at its destination, removes the original, and leaves every other file alone |
| Placement.InsideGroupMoved | pypam/acoustic_survey.py:306-312 | a group inside the period with neither boundary is moved whole, recording and companions |
| Placement.PlaceAllOutsideUnchanged | pypam/acoustic_survey.py:268-316 | when no group touches the period, the disk is unchanged |
| Placement.GroupsVisited | pypam/acoustic_survey.py:268-314 | the number of groups the loop takes from the iterator is at most the number of groups |
| Placement.GroupsVisitedDecides | pypam/acoustic_survey.py:268-314 | the groups the loop takes decide its result: every group before the last one taken was placed, and the loop stops early only on a failure |
| Placement.GroupsVisitedAt | pypam/acoustic_survey.py:268-314 | a loop that fails on group `k` after placing the earlier ones has taken `k + 1` groups |
| Placement.GroupsVisitedAll | pypam/acoustic_survey.py:268-314 | a loop that places every group has taken all of them |
| Placement.RunCompanions | pypam/acoustic_survey.py:277-304 | the companion loop of the start or end branch runs each companion's step in order and stops at the first failure |
| Placement.MoveEach | pypam/acoustic_survey.py:310-312 | `move_file` on each path in order, stopping at the first failure |
| Placement.PlaceGroup | pypam/acoustic_survey.py:269-314 | one group: open, then the start branch, else the end branch, else the inside branch, else nothing |
| AcousticSurvey.ASA.constructor | pypam/acoustic_survey.py:32-71 | a fresh folder iterator with no extensions, plus the period |
| AcousticSurvey.NewSurvey | pypam/acoustic_survey.py:32-71 | construction raises exactly when the period cannot be normalised, and otherwise stores the normalised period |
| AcousticSurvey.ASA.EvolutionMultiple | pypam/acoustic_survey.py:77-102 | fails at the first recording in listing order whose analyser cannot be built; otherwise returns the rows of the in-period recordings whose analysis succeeded, in listing order, and skips those whose analysis raised; the folder is left listed on the sorted glob with its cursor one past the recording that could not be opened, or at the end of the listing |
| AcousticSurvey.ASA.CollectRows | pypam/acoustic_survey.py:91-100 | the loop `evolution_multiple` and `timestamps_df` share: it fails at the first recording whose analyser cannot be built and otherwise gives the in-order rows of the in-period recordings whose operation succeeded and logs those whose operation raised; the cursor ends one past the failing recording or at the end |
| AcousticSurvey.CursorAfterPass | pypam/acoustic_survey.py:91-94 | where a pass leaves the cursor: one past the first recording whose analyser cannot be built, or at the end of the listing |
| AcousticSurvey.ASA.Evolution | pypam/acoustic_survey.py:105-109 | `evolution_multiple` with the single method, leaving the folder in the same state |
| AcousticSurvey.ASA.TimestampsDf | pypam/acoustic_survey.py:113-138 | the concatenated bin timestamps of the in-period recordings whose `timestamps_df` succeeded, in listing order; the folder is left listed on the sorted glob with its cursor one past the recording that could not be opened, or at the end of the listing |
| AcousticSurvey.ASA.ApplyToAll | pypam/acoustic_survey.py:160-181 | the method is called on exactly the in-period recordings, in listing order, and the ones that raised are skipped; the folder is left listed on the sorted glob with its cursor one past the recording that could not be opened, or at the end of the listing |
| AcousticSurvey.ASA.CallEach | pypam/acoustic_survey.py:173-181 | the loop of `apply_to_all`: the method is called on exactly the in-period recordings and the failed calls are logged, unless an analyser cannot be built; the cursor ends as for every pass |
| AcousticSurvey.ASA.Duration | pypam/acoustic_survey.py:184-199 | the total length of the in-period recordings whose `total_time` succeeded; the folder is left listed on the sorted glob with its cursor one past the recording that could not be opened, or at the end of the listing |
| AcousticSurvey.ASA.SumLengths | pypam/acoustic_survey.py:188-197 | the loop of `duration`: the sum of the lengths that could be read of the in-period recordings, unless an analyser cannot be built; the cursor ends as for every pass |
| AcousticSurvey.ASA.StartEndTimestamp | pypam/acoustic_survey.py:141-157 | the start date of the first listed recording and the start plus length of the last one; an empty folder raises `StopIteration`; the folder is left listed on the sorted glob, its cursor at 1 when the first recording cannot be opened and at 0 otherwise |
| AcousticSurvey.ASA.CutAndPlace | pypam/acoustic_survey.py:252-316 | a bad period raises before anything changes; otherwise the folder's extensions become the given ones and the result is every group of the listing placed in turn into `folder_name` under the survey folder, the folder left listed on the sorted glob with its cursor one past the last group the loop took |
| AcousticSurvey.ASA.PlaceGroups | pypam/acoustic_survey.py:268-314 | the group loop places the groups of a fresh iteration in listing order and stops at the first failure, leaving the cursor one past the last group it took |

## Left out

- Archive (zip) modes of `AcousticFolder`: they read an attribute the constructor never sets. Their intended behaviour cannot be read from the code.
- `spd`, `Sxx2spd` and `mean_rms`: floating-point binning and averaging over data this model does not have.
- The plotting methods, the plot style setup and all `print` output. The skip messages appear only as ghost skip logs.
- `HydroFile` and `pypam/acoustic_file.py` are not part of this model. Period membership, boundary tests, splitting, dates, lengths and analyses are parameters. What `split` does to the original recording is not modelled; only the two new sound files are.
- CSV reading and writing: a companion table is a sequence of rows with integer timestamps. The `unix time * 1e9` conversion with its two-hour offset is not modelled.
- `datetime.strptime` is a parameter applied to the fixed format strings.
- `is_in_period` and `contains_date` raising: the source calls them outside any `try`, so an exception there would end the pass or the placement. The model takes both to answer yes or no and never to raise.
- The platform is POSIX: '/' separates path parts, `Path` order compares parts case-sensitively by code point, and `os.rename` replaces an existing destination file. On Windows `os.rename` raises `FileExistsError` when the destination exists, and paths compare case-folded, which changes the order of `sorted(glob)`.
- Time is integer seconds: `total_time` and `timedelta(seconds=...)` are naturals, not floats.
- Path normalisation: `Path` collapses repeated and trailing slashes, and the model does not.
- `os.makedirs` creating parent directories: only the destination folder itself is recorded.
- Writing a table into a directory that does not exist: `to_csv` into one always succeeds in the model.
- Glob details: hidden files, symbolic links, and directories whose names end in `.wav`.
- The state of the disk after an error: a failing group or pass returns `Err` and the partly changed disk is dropped.
- `pandas` column alignment and index handling: a table is the concatenation of its rows.
- The analysis parameters `ASA` forwards to `HydroFile` (`p_ref`, `binsize`, `nfft`, `band`, `utc`, `hydrophone`): they are folded into the analyser parameter.
- AcousticSurvey.ASA.StartEndTimestamp: does not model `datetime` arithmetic. The end is the integer start plus the integer length.
