/** The per-group work of `cut_and_place_files_period`: split a companion table at a
    boundary, move files into the destination folder, and the three-way decision on
    each file group. */
module Placement {
  import opened Common
  import opened Strings
  import opened Disk
  import opened Folder
  import opened Survey

  /** Companions with this extension are never split. */
  const LogExt: string := ".log.xml"

  // ---------------------------------------------------------------------------
  // splitting a companion table

  /** `df[df['datetime'] < boundary]`. */
  function RowsBefore(rows: seq<Row>, boundary: int): (r: seq<Row>)
    ensures forall i :: 0 <= i < |r| ==> r[i].time < boundary
  {
    if rows == [] then []
    else
      assert rows == [rows[0]] + rows[1..];
      (if rows[0].time < boundary then [rows[0]] else []) + RowsBefore(rows[1..], boundary)
  }

  /** `df[df['datetime'] >= boundary]`. */
  function RowsFrom(rows: seq<Row>, boundary: int): (r: seq<Row>)
    ensures forall i :: 0 <= i < |r| ==> r[i].time >= boundary
  {
    if rows == [] then []
    else
      assert rows == [rows[0]] + rows[1..];
      (if rows[0].time >= boundary then [rows[0]] else []) + RowsFrom(rows[1..], boundary)
  }

  /** `rows` is a merge of `a` and `b` that keeps the order of each. */
  predicate Interleaves(rows: seq<Row>, a: seq<Row>, b: seq<Row>)
    decreases |rows|
  {
    if rows == [] then a == [] && b == []
    else
      || (a != [] && a[0] == rows[0] && Interleaves(rows[1..], a[1..], b))
      || (b != [] && b[0] == rows[0] && Interleaves(rows[1..], a, b[1..]))
  }

  /** The two parts of a split are a merge of the table: each part keeps the relative
      order its rows had in the table. */
  lemma {:induction false} SplitInterleaves(rows: seq<Row>, boundary: int)
    ensures Interleaves(rows, RowsBefore(rows, boundary), RowsFrom(rows, boundary))
    decreases |rows|
  {
    if rows != [] {
      SplitInterleaves(rows[1..], boundary);
      var a, b := RowsBefore(rows[1..], boundary), RowsFrom(rows[1..], boundary);
      if rows[0].time < boundary {
        assert RowsBefore(rows, boundary) == [rows[0]] + a;
        assert RowsFrom(rows, boundary) == b;
        assert ([rows[0]] + a)[1..] == a;
      } else {
        assert RowsBefore(rows, boundary) == a;
        assert RowsFrom(rows, boundary) == [rows[0]] + b;
        assert ([rows[0]] + b)[1..] == b;
      }
    }
  }

  /** The two parts of a split hold every row of the table, each exactly once. */
  lemma {:induction false} SplitKeepsRows(rows: seq<Row>, boundary: int)
    ensures multiset(RowsBefore(rows, boundary)) + multiset(RowsFrom(rows, boundary)) == multiset(rows)
    decreases |rows|
  {
    if rows != [] {
      SplitKeepsRows(rows[1..], boundary);
      assert rows == [rows[0]] + rows[1..];
    }
  }

  predicate TimeOrdered(rows: seq<Row>)
  {
    forall i, j :: 0 <= i < j < |rows| ==> rows[i].time <= rows[j].time
  }

  lemma TimeOrderedTail(rows: seq<Row>)
    requires TimeOrdered(rows) && rows != []
    ensures TimeOrdered(rows[1..])
  {
    forall i, j | 0 <= i < j < |rows| - 1 ensures rows[1..][i].time <= rows[1..][j].time {
      assert rows[1..][i] == rows[i + 1] && rows[1..][j] == rows[j + 1];
    }
  }

  /** On a table already in time order the split is a cut: the rows before the boundary
      followed by the rows from it give back the table. */
  lemma {:induction false} SplitOfOrderedTable(rows: seq<Row>, boundary: int)
    requires TimeOrdered(rows)
    ensures RowsBefore(rows, boundary) + RowsFrom(rows, boundary) == rows
    decreases |rows|
  {
    if rows != [] {
      if rows[0].time >= boundary {
        AllFrom(rows, boundary);
      } else {
        TimeOrderedTail(rows);
        SplitOfOrderedTable(rows[1..], boundary);
        var a, b := RowsBefore(rows[1..], boundary), RowsFrom(rows[1..], boundary);
        assert RowsBefore(rows, boundary) == [rows[0]] + a;
        assert RowsFrom(rows, boundary) == b;
        assert [rows[0]] + (a + b) == rows;
      }
    }
  }

  /** When the first row is at or after the boundary, so is every row of an ordered table. */
  lemma {:induction false} AllFrom(rows: seq<Row>, boundary: int)
    requires TimeOrdered(rows) && rows != [] && rows[0].time >= boundary
    ensures RowsBefore(rows, boundary) == [] && RowsFrom(rows, boundary) == rows
    decreases |rows|
  {
    var tail := rows[1..];
    if tail == [] {
      assert RowsBefore(rows, boundary) == RowsBefore(tail, boundary);
      assert RowsFrom(rows, boundary) == [rows[0]] + RowsFrom(tail, boundary);
    } else {
      TimeOrderedTail(rows);
      assert tail[0] == rows[1];
      AllFrom(tail, boundary);
      assert RowsBefore(rows, boundary) == RowsBefore(tail, boundary);
      assert RowsFrom(rows, boundary) == [rows[0]] + RowsFrom(tail, boundary);
      assert [rows[0]] + tail == rows;
    }
  }

  /** Read the table at `meta`, write its rows before `boundary` back to `meta` and its
      rows from `boundary` on to `target`. Reading raises when `meta` holds no table. */
  function SplitTable(fs: FileSystem, meta: string, target: string, boundary: int): (r: Result<FileSystem, Failure>)
    ensures r.Ok? <==> meta in fs.files && fs.files[meta].Table?
    ensures r.Err? ==> r.error == ReadFailed(meta)
    ensures r.Ok? ==> r.value.dirs == fs.dirs
    ensures r.Ok? ==> target in r.value.files
                      && r.value.files[target] == Table(RowsFrom(fs.files[meta].rows, boundary))
    ensures r.Ok? ==> meta in r.value.files
    ensures r.Ok? && meta != target ==> r.value.files[meta] == Table(RowsBefore(fs.files[meta].rows, boundary))
    ensures r.Ok? ==> forall p :: p != meta && p != target ==>
                        (p in r.value.files <==> p in fs.files)
                        && (p in fs.files ==> r.value.files[p] == fs.files[p])
  {
    if meta !in fs.files || !fs.files[meta].Table? then Err(ReadFailed(meta))
    else
      var rows := fs.files[meta].rows;
      Ok(fs.(files := fs.files[meta := Table(RowsBefore(rows, boundary))]
                              [target := Table(RowsFrom(rows, boundary))]))
  }

  // ---------------------------------------------------------------------------
  // the work done for one companion, and for all of them

  /** Boundary containing the period start: a non-log companion is split at `start`; the
      late rows go to a new companion named after `second`, which is then moved. */
  function StartStep(fs: FileSystem, meta: string, ext: string, second: string, start: int, folder: string)
    : Result<FileSystem, Failure>
  {
    if ext == LogExt then Ok(fs)
    else
      var target := Replace(second, WavExt, ext);
      match SplitTable(fs, meta, target, start)
      case Err(e) => Err(e)
      case Ok(fs1) => MoveFile(fs1, target, folder)
  }

  /** Boundary containing the period end, as written: a non-log companion is split at
      `start` (not at the end date) into a new companion named after `second`; then every
      companion, the log one included, is moved. */
  function EndStep(fs: FileSystem, meta: string, ext: string, second: string, start: int, folder: string)
    : Result<FileSystem, Failure>
  {
    var split := if ext == LogExt then Ok(fs) else SplitTable(fs, meta, Replace(second, WavExt, ext), start);
    match split
    case Err(e) => Err(e)
    case Ok(fs1) => MoveFile(fs1, meta, folder)
  }

  datatype Boundary = AtStart | AtEnd

  /** One companion of the loop `for i, metadata_file in enumerate(file_list[1:])`. */
  function CompanionStep(kind: Boundary, fs: FileSystem, meta: string, ext: string, second: string,
                         start: int, folder: string): Result<FileSystem, Failure>
  {
    match kind
    case AtStart => StartStep(fs, meta, ext, second, start, folder)
    case AtEnd => EndStep(fs, meta, ext, second, start, folder)
  }

  /** The companion loop over the first `|exts|` companions, stopping at the first failure. */
  function CompanionLoop(kind: Boundary, fs: FileSystem, comps: seq<string>, exts: seq<string>,
                         second: string, start: int, folder: string): Result<FileSystem, Failure>
    requires |comps| == |exts|
    decreases |exts|
  {
    if exts == [] then Ok(fs)
    else
      var k := |exts| - 1;
      match CompanionLoop(kind, fs, comps[..k], exts[..k], second, start, folder)
      case Err(e) => Err(e)
      case Ok(fs1) => CompanionStep(kind, fs1, comps[k], exts[k], second, start, folder)
  }

  /** `move_file` on each path in order, stopping at the first failure. */
  function MoveAll(fs: FileSystem, paths: seq<string>, folder: string): Result<FileSystem, Failure>
    decreases |paths|
  {
    if paths == [] then Ok(fs)
    else
      match MoveAll(fs, paths[..|paths| - 1], folder)
      case Err(e) => Err(e)
      case Ok(fs1) => MoveFile(fs1, paths[|paths| - 1], folder)
  }

  /** The two new sound files `split` writes next to the recording. */
  function AddParts(fs: FileSystem, wav: string, first: string, second: string, at: int): FileSystem
  {
    fs.(files := fs.files[first := Audio(wav, Before(at))][second := Audio(wav, After(at))])
  }

  /** The body of the group loop of `cut_and_place_files_period` for the group of `wav`. */
  function PlaceGroupSpec(fs: FileSystem, h: Hydro, wav: string, exts: seq<string>,
                          start: int, end: int, folder: string): Result<FileSystem, Failure>
  {
    var comps := Companions(wav, exts);
    if !h.opens(wav) then Err(OpenFailed(wav))
    else if h.containsDate(wav, start) then
      match h.split(wav, start)
      case None => Err(CallFailed(wav))
      case Some(parts) =>
        match MoveFile(AddParts(fs, wav, parts.0, parts.1, start), parts.1, folder)
        case Err(e) => Err(e)
        case Ok(fs1) => CompanionLoop(AtStart, fs1, comps, exts, parts.1, start, folder)
    else if h.containsDate(wav, end) then
      match h.split(wav, end)
      case None => Err(CallFailed(wav))
      case Some(parts) =>
        match MoveFile(AddParts(fs, wav, parts.0, parts.1, end), parts.0, folder)
        case Err(e) => Err(e)
        case Ok(fs1) => CompanionLoop(AtEnd, fs1, comps, exts, parts.1, start, folder)
    else if h.inPeriod(wav, Some([Stamp(start), Stamp(end)])) then
      MoveAll(fs, Group(wav, exts), folder)
    else Ok(fs)
  }

  /** The group loop of `cut_and_place_files_period` over the sorted `.wav` paths. */
  function PlaceAll(fs: FileSystem, h: Hydro, files: seq<string>, exts: seq<string>,
                    start: int, end: int, folder: string): Result<FileSystem, Failure>
    decreases |files|
  {
    if files == [] then Ok(fs)
    else
      match PlaceAll(fs, h, files[..|files| - 1], exts, start, end, folder)
      case Err(e) => Err(e)
      case Ok(fs1) => PlaceGroupSpec(fs1, h, files[|files| - 1], exts, start, end, folder)
  }

  // ---------------------------------------------------------------------------
  // what the decision does

  /** A group that contains neither boundary and is not in the period is left alone. */
  lemma OutsideGroupUntouched(fs: FileSystem, h: Hydro, wav: string, exts: seq<string>,
                              start: int, end: int, folder: string)
    requires h.opens(wav) && !h.containsDate(wav, start) && !h.containsDate(wav, end)
    requires !h.inPeriod(wav, Some([Stamp(start), Stamp(end)]))
    ensures PlaceGroupSpec(fs, h, wav, exts, start, end, folder) == Ok(fs)
  {
  }

  /** The start boundary is tested first: a group that contains both boundaries is
      handled as one that contains the start. */
  lemma StartTestedFirst(fs: FileSystem, h: Hydro, wav: string, exts: seq<string>,
                         start: int, end: int, folder: string)
    requires h.opens(wav) && h.containsDate(wav, start) && h.split(wav, start).Some?
    ensures var parts := h.split(wav, start).value;
            PlaceGroupSpec(fs, h, wav, exts, start, end, folder)
            == match MoveFile(AddParts(fs, wav, parts.0, parts.1, start), parts.1, folder)
               case Err(e) => Err(e)
               case Ok(fs1) => CompanionLoop(AtStart, fs1, Companions(wav, exts), exts, parts.1, start, folder)
  {
  }

  /** A log companion is never split: in the start branch it is left where it is, in
      the end branch it is only moved. */
  lemma LogCompanionNotSplit(fs: FileSystem, meta: string, second: string, start: int, folder: string)
    ensures StartStep(fs, meta, LogExt, second, start, folder) == Ok(fs)
    ensures EndStep(fs, meta, LogExt, second, start, folder) == MoveFile(fs, meta, folder)
  {
  }

  /** Start branch, one non-log companion: its early rows stay in place and its late
      rows end up in the destination folder, under the name made from `second`. */
  lemma StartStepEffect(fs: FileSystem, meta: string, ext: string, second: string, start: int, folder: string)
    requires ext != LogExt && StartStep(fs, meta, ext, second, start, folder).Ok?
    ensures var target := Replace(second, WavExt, ext);
            var fs' := StartStep(fs, meta, ext, second, start, folder).value;
            var rows := fs.files[meta].rows;
            && fs'.files[Destination(target, folder)] == Table(RowsFrom(rows, start))
            && (meta != target && meta != Destination(target, folder) ==>
                  fs'.files[meta] == Table(RowsBefore(rows, start)))
            && folder in fs'.dirs
  {
  }

  /** End branch, one non-log companion, as written: what is moved to the destination
      folder is the part of the table before the period START, and the part from the
      start on is left in a new companion named after `second`. */
  lemma EndStepEffect(fs: FileSystem, meta: string, ext: string, second: string, start: int, folder: string)
    requires ext != LogExt && EndStep(fs, meta, ext, second, start, folder).Ok?
    ensures var target := Replace(second, WavExt, ext);
            var fs' := EndStep(fs, meta, ext, second, start, folder).value;
            var rows := fs.files[meta].rows;
            && (meta != target ==> fs'.files[Destination(meta, folder)] == Table(RowsBefore(rows, start)))
            && (target != meta && target != Destination(meta, folder) ==>
                  fs'.files[target] == Table(RowsFrom(rows, start)))
  {
  }

  /** The places `move_file` puts `paths` in `folder`. */
  function Destinations(paths: seq<string>, folder: string): set<string>
  {
    set i | 0 <= i < |paths| :: Destination(paths[i], folder)
  }

  /** Nothing stands in the way of moving `paths` into `folder` one by one: every path is
      a file, the names differ, and no path is already in the destination folder. */
  predicate MovePlan(fs: FileSystem, paths: seq<string>, folder: string)
  {
    && folder !in fs.files
    && (forall i :: 0 <= i < |paths| ==> paths[i] in fs.files && Destination(paths[i], folder) !in fs.dirs)
    && (forall i, j :: 0 <= i < j < |paths| ==> Basename(paths[i]) != Basename(paths[j]))
    && (forall i, j :: 0 <= i < |paths| && 0 <= j < |paths| ==> paths[i] != Destination(paths[j], folder))
  }

  /** `fs'` is `fs` after moving `paths` into `folder`: each moved file's content is at
      its destination and no longer at its old place, every other file is as it was, no
      file appeared anywhere else, and at most `folder` was added as a directory. */
  predicate Relocated(fs: FileSystem, fs': FileSystem, paths: seq<string>, folder: string)
    requires forall i :: 0 <= i < |paths| ==> paths[i] in fs.files
  {
    MovedIn(fs, fs', paths, folder) && OthersKept(fs, fs', paths, folder) && NoStrays(fs, fs', paths, folder)
  }

  /** Each moved file's content is at its destination and no longer at its old place. */
  predicate MovedIn(fs: FileSystem, fs': FileSystem, paths: seq<string>, folder: string)
    requires forall i :: 0 <= i < |paths| ==> paths[i] in fs.files
  {
    forall i :: 0 <= i < |paths| ==>
      Destination(paths[i], folder) in fs'.files
      && fs'.files[Destination(paths[i], folder)] == fs.files[paths[i]]
      && paths[i] !in fs'.files
  }

  /** Every file that is neither moved nor overwritten is as it was. */
  predicate OthersKept(fs: FileSystem, fs': FileSystem, paths: seq<string>, folder: string)
  {
    forall p :: p in fs.files && p !in paths && p !in Destinations(paths, folder) ==>
      p in fs'.files && fs'.files[p] == fs.files[p]
  }

  /** No file appeared outside the destinations, and at most `folder` became a directory. */
  predicate NoStrays(fs: FileSystem, fs': FileSystem, paths: seq<string>, folder: string)
  {
    && (forall p :: p in fs'.files ==> p in fs.files || p in Destinations(paths, folder))
    && fs'.dirs <= fs.dirs + {folder}
  }

  lemma MovePlanPrefix(fs: FileSystem, paths: seq<string>, folder: string)
    requires MovePlan(fs, paths, folder) && paths != []
    ensures MovePlan(fs, paths[..|paths| - 1], folder)
  {
    var init := paths[..|paths| - 1];
    assert forall i :: 0 <= i < |init| ==> init[i] == paths[i];
  }

  /** After moving all but the last path, nothing stands in the way of the last one. */
  lemma LastMoveSucceeds(fs: FileSystem, fs1: FileSystem, paths: seq<string>, folder: string)
    requires MovePlan(fs, paths, folder) && paths != []
    requires OthersKept(fs, fs1, paths[..|paths| - 1], folder)
    requires NoStrays(fs, fs1, paths[..|paths| - 1], folder)
    ensures var last := paths[|paths| - 1];
            last in fs1.files && fs1.files[last] == fs.files[last]
    ensures MoveFile(fs1, paths[|paths| - 1], folder).Ok?
  {
    var k := |paths| - 1;
    var init, last := paths[..k], paths[k];
    assert forall i :: 0 <= i < k ==> init[i] == paths[i];
    var dest := Destination(last, folder);
    forall i | 0 <= i < k ensures init[i] != last {
      assert Basename(paths[i]) != Basename(paths[k]);
    }
    assert last !in Destinations(init, folder);
    assert folder !in Destinations(init, folder) by {
      forall i | 0 <= i < k ensures |Destination(init[i], folder)| > |folder| {
      }
    }
    assert folder !in fs1.files;
    assert dest != folder by { assert |dest| > |folder|; }
  }

  /** A move leaves a file that is neither the one moved nor at its destination alone. */
  lemma MoveKeepsOther(fs: FileSystem, file: string, folder: string, p: string)
    requires MoveFile(fs, file, folder).Ok? && p != file && p != Destination(file, folder)
    ensures p in MoveFile(fs, file, folder).value.files <==> p in fs.files
    ensures p in fs.files ==> MoveFile(fs, file, folder).value.files[p] == fs.files[p]
  {
  }

  /** The paths moved before keep their place after the last move. */
  lemma LastMoveKeepsMoved(fs: FileSystem, fs1: FileSystem, paths: seq<string>, folder: string)
    requires MovePlan(fs, paths, folder) && paths != []
    requires MovedIn(fs, fs1, paths[..|paths| - 1], folder)
    requires paths[|paths| - 1] in fs1.files && fs1.files[paths[|paths| - 1]] == fs.files[paths[|paths| - 1]]
    requires MoveFile(fs1, paths[|paths| - 1], folder).Ok?
    ensures MovedIn(fs, MoveFile(fs1, paths[|paths| - 1], folder).value, paths, folder)
  {
    var k := |paths| - 1;
    var init, last := paths[..k], paths[k];
    var dest := Destination(last, folder);
    var fs' := MoveFile(fs1, last, folder).value;
    forall i | 0 <= i < |paths|
      ensures Destination(paths[i], folder) in fs'.files
      ensures fs'.files[Destination(paths[i], folder)] == fs.files[paths[i]]
      ensures paths[i] !in fs'.files
    {
      if i < k {
        var p, d := paths[i], Destination(paths[i], folder);
        assert init[i] == p;
        assert Basename(p) != Basename(last);
        assert d != dest;
        MoveKeepsOther(fs1, last, folder, d);
      } else {
        assert last != dest;
      }
    }
  }

  /** Files that are neither moved nor overwritten stay as they were. */
  lemma LastMoveKeepsOthers(fs: FileSystem, fs1: FileSystem, paths: seq<string>, folder: string)
    requires MovePlan(fs, paths, folder) && paths != []
    requires OthersKept(fs, fs1, paths[..|paths| - 1], folder)
    requires MoveFile(fs1, paths[|paths| - 1], folder).Ok?
    ensures OthersKept(fs, MoveFile(fs1, paths[|paths| - 1], folder).value, paths, folder)
  {
    var k := |paths| - 1;
    var init, last := paths[..k], paths[k];
    var fs' := MoveFile(fs1, last, folder).value;
    forall p | p in fs.files && p !in paths && p !in Destinations(paths, folder)
      ensures p in fs'.files && fs'.files[p] == fs.files[p]
    {
      assert p !in init;
      assert p !in Destinations(init, folder) by {
        forall i | 0 <= i < k ensures p != Destination(init[i], folder) {
          assert init[i] == paths[i];
        }
      }
      assert p != Destination(last, folder);
    }
  }

  /** The last move creates no file outside the destinations. */
  lemma LastMoveNoStrays(fs: FileSystem, fs1: FileSystem, paths: seq<string>, folder: string)
    requires paths != [] && forall i :: 0 <= i < |paths| ==> paths[i] in fs.files
    requires NoStrays(fs, fs1, paths[..|paths| - 1], folder)
    requires MoveFile(fs1, paths[|paths| - 1], folder).Ok?
    ensures NoStrays(fs, MoveFile(fs1, paths[|paths| - 1], folder).value, paths, folder)
  {
    var k := |paths| - 1;
    var init, last := paths[..k], paths[k];
    var dest := Destination(last, folder);
    var fs' := MoveFile(fs1, last, folder).value;
    forall p | p in fs'.files ensures p in fs.files || p in Destinations(paths, folder) {
      if p != dest {
        assert p in fs1.files;
        if p in Destinations(init, folder) {
          var i :| 0 <= i < k && p == Destination(init[i], folder);
          assert init[i] == paths[i];
        }
      }
    }
  }

  /** One more `move_file` extends a relocation by one path. */
  lemma MoveOneMore(fs: FileSystem, fs1: FileSystem, paths: seq<string>, folder: string)
    requires MovePlan(fs, paths, folder) && paths != []
    requires Relocated(fs, fs1, paths[..|paths| - 1], folder)
    ensures MoveFile(fs1, paths[|paths| - 1], folder).Ok?
    ensures Relocated(fs, MoveFile(fs1, paths[|paths| - 1], folder).value, paths, folder)
  {
    LastMoveSucceeds(fs, fs1, paths, folder);
    LastMoveKeepsMoved(fs, fs1, paths, folder);
    LastMoveKeepsOthers(fs, fs1, paths, folder);
    LastMoveNoStrays(fs, fs1, paths, folder);
  }

  /** Moving a list of files with pairwise different names, none of them already in the
      destination folder, puts each file's content at its destination, removes it from
      its old place and leaves every other file as it was. */
  lemma {:induction false} MoveAllRelocates(fs: FileSystem, paths: seq<string>, folder: string)
    requires MovePlan(fs, paths, folder)
    ensures MoveAll(fs, paths, folder).Ok?
    ensures Relocated(fs, MoveAll(fs, paths, folder).value, paths, folder)
    decreases |paths|
  {
    if paths != [] {
      MovePlanPrefix(fs, paths, folder);
      MoveAllRelocates(fs, paths[..|paths| - 1], folder);
      MoveOneMore(fs, MoveAll(fs, paths[..|paths| - 1], folder).value, paths, folder);
    }
  }

  /** A group inside the period that contains neither boundary is moved whole: the
      sound file and every companion end up in the destination folder. */
  lemma InsideGroupMoved(fs: FileSystem, h: Hydro, wav: string, exts: seq<string>,
                         start: int, end: int, folder: string)
    requires h.opens(wav) && !h.containsDate(wav, start) && !h.containsDate(wav, end)
    requires h.inPeriod(wav, Some([Stamp(start), Stamp(end)]))
    requires MovePlan(fs, Group(wav, exts), folder)
    ensures PlaceGroupSpec(fs, h, wav, exts, start, end, folder).Ok?
    ensures Relocated(fs, PlaceGroupSpec(fs, h, wav, exts, start, end, folder).value, Group(wav, exts), folder)
  {
    MoveAllRelocates(fs, Group(wav, exts), folder);
  }

  // ---------------------------------------------------------------------------
  // the loops, statement by statement

  /** Once the loop over a prefix of the companions has failed, the whole loop fails
      the same way: a raised error leaves the loop. */
  lemma {:induction false} CompanionLoopSticks(kind: Boundary, fs: FileSystem, comps: seq<string>, exts: seq<string>,
                                               second: string, start: int, folder: string, k: nat)
    requires |comps| == |exts| && k <= |exts|
    requires CompanionLoop(kind, fs, comps[..k], exts[..k], second, start, folder).Err?
    ensures CompanionLoop(kind, fs, comps, exts, second, start, folder)
            == CompanionLoop(kind, fs, comps[..k], exts[..k], second, start, folder)
    decreases |exts|
  {
    if k < |exts| {
      var m := |exts| - 1;
      assert comps[..m][..k] == comps[..k] && exts[..m][..k] == exts[..k];
      CompanionLoopSticks(kind, fs, comps[..m], exts[..m], second, start, folder, k);
    } else {
      assert comps[..k] == comps && exts[..k] == exts;
    }
  }

  lemma {:induction false} MoveAllSticks(fs: FileSystem, paths: seq<string>, folder: string, k: nat)
    requires k <= |paths| && MoveAll(fs, paths[..k], folder).Err?
    ensures MoveAll(fs, paths, folder) == MoveAll(fs, paths[..k], folder)
    decreases |paths|
  {
    if k < |paths| {
      var m := |paths| - 1;
      assert paths[..m][..k] == paths[..k];
      MoveAllSticks(fs, paths[..m], folder, k);
    } else {
      assert paths[..k] == paths;
    }
  }

  lemma {:induction false} PlaceAllSticks(fs: FileSystem, h: Hydro, files: seq<string>, exts: seq<string>,
                                          start: int, end: int, folder: string, k: nat)
    requires k <= |files| && PlaceAll(fs, h, files[..k], exts, start, end, folder).Err?
    ensures PlaceAll(fs, h, files, exts, start, end, folder) == PlaceAll(fs, h, files[..k], exts, start, end, folder)
    decreases |files|
  {
    if k < |files| {
      var m := |files| - 1;
      assert files[..m][..k] == files[..k];
      PlaceAllSticks(fs, h, files[..m], exts, start, end, folder, k);
    } else {
      assert files[..k] == files;
    }
  }

  lemma CompanionLoopStep(kind: Boundary, fs: FileSystem, comps: seq<string>, exts: seq<string>,
                          second: string, start: int, folder: string, i: nat, cur: FileSystem)
    requires |comps| == |exts| && i < |exts|
    requires CompanionLoop(kind, fs, comps[..i], exts[..i], second, start, folder) == Ok(cur)
    ensures CompanionLoop(kind, fs, comps[..i + 1], exts[..i + 1], second, start, folder)
            == CompanionStep(kind, cur, comps[i], exts[i], second, start, folder)
  {
    assert comps[..i + 1][..i] == comps[..i] && exts[..i + 1][..i] == exts[..i];
  }

  lemma PlaceAllStep(fs: FileSystem, h: Hydro, files: seq<string>, exts: seq<string>,
                     start: int, end: int, folder: string, k: nat, cur: FileSystem)
    requires k < |files| && PlaceAll(fs, h, files[..k], exts, start, end, folder) == Ok(cur)
    ensures PlaceAll(fs, h, files[..k + 1], exts, start, end, folder)
            == PlaceGroupSpec(cur, h, files[k], exts, start, end, folder)
  {
    assert files[..k + 1][..k] == files[..k];
  }

  /** How many groups the loop takes from the iterator: up to and including the first
      group whose placement fails, or all of them. */
  function GroupsVisited(fs: FileSystem, h: Hydro, files: seq<string>, exts: seq<string>,
                         start: int, end: int, folder: string): (k: nat)
    ensures k <= |files|
    decreases |files|
  {
    if files == [] then 0
    else if PlaceAll(fs, h, files[..|files| - 1], exts, start, end, folder).Err? then
      GroupsVisited(fs, h, files[..|files| - 1], exts, start, end, folder)
    else |files|
  }

  /** The visited groups decide the outcome: the groups before the last visited one were
      placed, and the loop stops early only on a failure. */
  lemma {:induction false} GroupsVisitedDecides(fs: FileSystem, h: Hydro, files: seq<string>, exts: seq<string>,
                                                start: int, end: int, folder: string)
    ensures var k := GroupsVisited(fs, h, files, exts, start, end, folder);
            && PlaceAll(fs, h, files[..k], exts, start, end, folder) == PlaceAll(fs, h, files, exts, start, end, folder)
            && (0 < k ==> PlaceAll(fs, h, files[..k - 1], exts, start, end, folder).Ok?)
            && (k < |files| ==> PlaceAll(fs, h, files[..k], exts, start, end, folder).Err?)
    decreases |files|
  {
    if files != [] {
      var m := |files| - 1;
      if PlaceAll(fs, h, files[..m], exts, start, end, folder).Err? {
        GroupsVisitedDecides(fs, h, files[..m], exts, start, end, folder);
        var k := GroupsVisited(fs, h, files[..m], exts, start, end, folder);
        assert files[..m][..k] == files[..k];
        if 0 < k {
          assert files[..m][..k - 1] == files[..k - 1];
        }
        PlaceAllSticks(fs, h, files, exts, start, end, folder, k);
      } else {
        assert files[..|files|] == files;
      }
    }
  }

  /** The loop that fails on group `k` after placing the ones before it has visited
      `k + 1` groups. */
  lemma {:induction false} GroupsVisitedAt(fs: FileSystem, h: Hydro, files: seq<string>, exts: seq<string>,
                                           start: int, end: int, folder: string, k: nat)
    requires k < |files|
    requires PlaceAll(fs, h, files[..k], exts, start, end, folder).Ok?
    requires PlaceAll(fs, h, files[..k + 1], exts, start, end, folder).Err?
    ensures GroupsVisited(fs, h, files, exts, start, end, folder) == k + 1
    decreases |files|
  {
    var m := |files| - 1;
    if k < m {
      assert files[..m][..k] == files[..k] && files[..m][..k + 1] == files[..k + 1];
      PlaceAllSticks(fs, h, files[..m], exts, start, end, folder, k + 1);
      GroupsVisitedAt(fs, h, files[..m], exts, start, end, folder, k);
    }
  }

  /** A loop that places every group has visited all of them. */
  lemma {:induction false} GroupsVisitedAll(fs: FileSystem, h: Hydro, files: seq<string>, exts: seq<string>,
                                            start: int, end: int, folder: string)
    requires PlaceAll(fs, h, files, exts, start, end, folder).Ok?
    ensures GroupsVisited(fs, h, files, exts, start, end, folder) == |files|
  {
    if files != [] {
      var m := |files| - 1;
      if PlaceAll(fs, h, files[..m], exts, start, end, folder).Err? {
        PlaceAllSticks(fs, h, files, exts, start, end, folder, m);
      }
    }
  }

  /** `for i, metadata_file in enumerate(file_list[1:])` in the start or the end branch. */
  method RunCompanions(kind: Boundary, fs: FileSystem, comps: seq<string>, exts: seq<string>,
                       second: string, start: int, folder: string) returns (r: Result<FileSystem, Failure>)
    requires |comps| == |exts|
    ensures r == CompanionLoop(kind, fs, comps, exts, second, start, folder)
  {
    var cur := fs;
    var i := 0;
    while i < |comps|
      invariant 0 <= i <= |comps|
      invariant CompanionLoop(kind, fs, comps[..i], exts[..i], second, start, folder) == Ok(cur)
    {
      CompanionLoopStep(kind, fs, comps, exts, second, start, folder, i, cur);
      var next := CompanionStep(kind, cur, comps[i], exts[i], second, start, folder);
      if next.Err? {
        CompanionLoopSticks(kind, fs, comps, exts, second, start, folder, i + 1);
        return next;
      }
      cur := next.value;
      i := i + 1;
    }
    assert comps[..i] == comps && exts[..i] == exts;
    r := Ok(cur);
  }

  /** `move_file` on each path in turn. */
  method MoveEach(fs: FileSystem, paths: seq<string>, folder: string) returns (r: Result<FileSystem, Failure>)
    ensures r == MoveAll(fs, paths, folder)
  {
    var cur := fs;
    var i := 0;
    while i < |paths|
      invariant 0 <= i <= |paths|
      invariant MoveAll(fs, paths[..i], folder) == Ok(cur)
    {
      assert paths[..i + 1][..i] == paths[..i];
      var moved := MoveFile(cur, paths[i], folder);
      if moved.Err? {
        MoveAllSticks(fs, paths, folder, i + 1);
        return moved;
      }
      cur := moved.value;
      i := i + 1;
    }
    assert paths[..i] == paths;
    r := Ok(cur);
  }

  /** One pass of the group loop of `cut_and_place_files_period`; `comps` is the rest of
      the group the iterator yielded. */
  method PlaceGroup(fs: FileSystem, h: Hydro, wav: string, comps: seq<string>, exts: seq<string>,
                    start: int, end: int, folder: string) returns (r: Result<FileSystem, Failure>)
    requires comps == Companions(wav, exts)
    ensures r == PlaceGroupSpec(fs, h, wav, exts, start, end, folder)
  {
    if !h.opens(wav) {
      return Err(OpenFailed(wav));
    }
    if h.containsDate(wav, start) {
      var parts := h.split(wav, start);
      if parts.None? {
        return Err(CallFailed(wav));
      }
      var first, second := parts.value.0, parts.value.1;
      var moved := MoveFile(AddParts(fs, wav, first, second, start), second, folder);
      if moved.Err? {
        return Err(moved.error);
      }
      r := RunCompanions(AtStart, moved.value, comps, exts, second, start, folder);
    } else if h.containsDate(wav, end) {
      var parts := h.split(wav, end);
      if parts.None? {
        return Err(CallFailed(wav));
      }
      var first, second := parts.value.0, parts.value.1;
      var moved := MoveFile(AddParts(fs, wav, first, second, end), first, folder);
      if moved.Err? {
        return Err(moved.error);
      }
      r := RunCompanions(AtEnd, moved.value, comps, exts, second, start, folder);
    } else if h.inPeriod(wav, Some([Stamp(start), Stamp(end)])) {
      // the sound file first, then each companion
      r := MoveEach(fs, [wav] + comps, folder);
    } else {
      r := Ok(fs);
    }
  }

  /** The period parsing of `cut_and_place_files_period`: both bounds must be text in
      the day-first format; unlike the constructor there is no pass-through for values
      that are already dates. */
  function CutPeriod(period: seq<Moment>, parse: (string, string) -> Option<int>): (r: Result<(int, int), Failure>)
    ensures r.Ok? <==> |period| >= 2 && period[0].Text? && period[1].Text?
                       && parse(period[0].s, CutFormat).Some? && parse(period[1].s, CutFormat).Some?
    ensures r.Ok? ==> r.value == (parse(period[0].s, CutFormat).value, parse(period[1].s, CutFormat).value)
    ensures period == [] ==> r == Err(IndexOutOfRange)
    ensures period != [] && Strptime(parse, period[0], CutFormat).Ok? && |period| < 2 ==> r == Err(IndexOutOfRange)
    ensures period != [] && Strptime(parse, period[0], CutFormat).Err? ==> r == Err(ParseFailed)
  {
    if period == [] then Err(IndexOutOfRange)
    else match Strptime(parse, period[0], CutFormat)
      case Err(e) => Err(e)
      case Ok(start) =>
        if |period| < 2 then Err(IndexOutOfRange)
        else match Strptime(parse, period[1], CutFormat)
          case Err(e) => Err(e)
          case Ok(end) => Ok((start, end))
  }

  /** Groups that contain neither boundary and lie outside the period are left alone,
      so a period that touches no recording changes nothing on disk. */
  lemma {:induction false} PlaceAllOutsideUnchanged(fs: FileSystem, h: Hydro, files: seq<string>, exts: seq<string>,
                                                    start: int, end: int, folder: string)
    requires forall i :: 0 <= i < |files| ==>
               h.opens(files[i]) && !h.containsDate(files[i], start) && !h.containsDate(files[i], end)
               && !h.inPeriod(files[i], Some([Stamp(start), Stamp(end)]))
    ensures PlaceAll(fs, h, files, exts, start, end, folder) == Ok(fs)
    decreases |files|
  {
    if files != [] {
      var m := |files| - 1;
      PlaceAllOutsideUnchanged(fs, h, files[..m], exts, start, end, folder);
      OutsideGroupUntouched(fs, h, files[m], exts, start, end, folder);
    }
  }
}
