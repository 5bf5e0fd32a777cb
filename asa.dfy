/** The survey driver `ASA`: it owns an `AcousticFolder`, keeps the analysis period,
    runs one analysis over every recording in the folder, and cuts and files the
    recordings of a period. */
module AcousticSurvey {
  import opened Common
  import opened Strings
  import opened Disk
  import opened Folder
  import opened Survey
  import opened Placement

  /** `operator.methodcaller('_apply_multiple', method_list=...)` applied to one file. */
  function Analysis(h: Hydro, methodList: seq<string>): string -> Option<seq<Row>>
  {
    p => h.analyze(p, methodList)
  }

  /** `operator.methodcaller(method_name)` applied to one file: `None` when it raised. */
  function Invocation(h: Hydro, name: string): string -> Option<()>
  {
    p => if h.call(p, name) then Some(()) else None
  }

  /** Where a survey pass leaves the folder's cursor: one past the recording whose
      analyser could not be built, or at the end of the listing. */
  function CursorAfterPass(h: Hydro, files: seq<string>): (n: nat)
    ensures n <= |files|
    ensures FirstUnopened(h, files).Some? ==> 0 < n && files[n - 1] == FirstUnopened(h, files).value
    ensures FirstUnopened(h, files).None? ==> n == |files|
  {
    if FirstUnopened(h, files).Some? then OpenedPrefix(h, files) + 1 else |files|
  }

  class ASA {
    const acuFiles: AcousticFolder
    /** The analysis period, as `NewSurvey` stores it: `None`, or a period whose first
        bound is a date. */
    const period: Option<seq<Moment>>

    constructor (folderPath: string, includeDirs: bool, period: Option<seq<Moment>>)
      ensures fresh(acuFiles) && this.period == period
      ensures acuFiles.folderPath == folderPath && acuFiles.recursive == includeDirs
      ensures acuFiles.extensions == [] && !acuFiles.listed
    {
      acuFiles := new AcousticFolder(folderPath, includeDirs, []);
      this.period := period;
    }

    /** `evolution_multiple`: the rows every in-period recording's analysis gives, in
        listing order; a recording whose analysis raises is skipped and logged, one whose
        analyser cannot be built ends the pass. */
    method EvolutionMultiple(fs: FileSystem, h: Hydro, methodList: seq<string>)
      returns (r: Result<seq<Row>, Failure>, ghost skipped: seq<string>)
      modifies acuFiles`n, acuFiles`filesList, acuFiles`listed
      ensures var files := Listing(fs, acuFiles.folderPath, acuFiles.recursive);
              && (FirstUnopened(h, files).Some? ==> r == Err(OpenFailed(FirstUnopened(h, files).value)))
              && (FirstUnopened(h, files).None? ==>
                    && r == Ok(ContributedRows(h, period, files, Analysis(h, methodList)))
                    && skipped == FailedPaths(h, period, files, Analysis(h, methodList)))
      ensures acuFiles.listed && acuFiles.filesList == Listing(fs, acuFiles.folderPath, acuFiles.recursive)
      ensures acuFiles.n == CursorAfterPass(h, acuFiles.filesList)
    {
      acuFiles.Iter(fs);
      r, skipped := CollectRows(h, Analysis(h, methodList));
    }

    /** `evolution`: `evolution_multiple` with a single method. */
    method Evolution(fs: FileSystem, h: Hydro, methodName: string)
      returns (r: Result<seq<Row>, Failure>, ghost skipped: seq<string>)
      modifies acuFiles`n, acuFiles`filesList, acuFiles`listed
      ensures var files := Listing(fs, acuFiles.folderPath, acuFiles.recursive);
              && (FirstUnopened(h, files).Some? ==> r == Err(OpenFailed(FirstUnopened(h, files).value)))
              && (FirstUnopened(h, files).None? ==>
                    && r == Ok(ContributedRows(h, period, files, Analysis(h, [methodName])))
                    && skipped == FailedPaths(h, period, files, Analysis(h, [methodName])))
      ensures acuFiles.listed && acuFiles.filesList == Listing(fs, acuFiles.folderPath, acuFiles.recursive)
      ensures acuFiles.n == CursorAfterPass(h, acuFiles.filesList)
    {
      r, skipped := EvolutionMultiple(fs, h, [methodName]);
    }

    /** `timestamps_df`: the bin timestamps of every in-period recording, concatenated in
        listing order (the index is the position, `ignore_index=True`). */
    method TimestampsDf(fs: FileSystem, h: Hydro)
      returns (r: Result<seq<int>, Failure>, ghost skipped: seq<string>)
      modifies acuFiles`n, acuFiles`filesList, acuFiles`listed
      ensures var files := Listing(fs, acuFiles.folderPath, acuFiles.recursive);
              && (FirstUnopened(h, files).Some? ==> r == Err(OpenFailed(FirstUnopened(h, files).value)))
              && (FirstUnopened(h, files).None? ==>
                    && r == Ok(ContributedRows(h, period, files, h.timestamps))
                    && skipped == FailedPaths(h, period, files, h.timestamps))
      ensures acuFiles.listed && acuFiles.filesList == Listing(fs, acuFiles.folderPath, acuFiles.recursive)
      ensures acuFiles.n == CursorAfterPass(h, acuFiles.filesList)
    {
      acuFiles.Iter(fs);
      r, skipped := CollectRows(h, h.timestamps);
    }

    /** The loop `evolution_multiple` and `timestamps_df` share, over a fresh iteration:
        build each recording's analyser, and append what `op` gives for an in-period
        recording, logging the recording when `op` raises. */
    method CollectRows<R>(h: Hydro, op: string -> Option<seq<R>>)
      returns (r: Result<seq<R>, Failure>, ghost skipped: seq<string>)
      requires acuFiles.listed && acuFiles.n == 0
      modifies acuFiles`n
      ensures var files := acuFiles.filesList;
              && (FirstUnopened(h, files).Some? ==> r == Err(OpenFailed(FirstUnopened(h, files).value)))
              && (FirstUnopened(h, files).None? ==>
                    && r == Ok(ContributedRows(h, period, files, op))
                    && skipped == FailedPaths(h, period, files, op))
      ensures acuFiles.n == CursorAfterPass(h, acuFiles.filesList)
    {
      ghost var files := acuFiles.filesList;
      var table: seq<R> := [];
      skipped := [];
      ghost var outs: seq<Outcome<seq<R>>> := [];
      while true
        invariant acuFiles.listed && acuFiles.filesList == files
        invariant 0 <= acuFiles.n <= |files|
        invariant Pass(h, period, files[..acuFiles.n], op) == Ok(outs)
        invariant table == Rows(outs) && skipped == SkippedPaths(outs)
        decreases |files| - acuFiles.n
      {
        ghost var k := acuFiles.n;
        var step := acuFiles.Next();
        if !step.Yield? {
          break;
        }
        var wav := step.group[0];
        if !h.opens(wav) {
          PassStopsAt(h, period, files, k, op);
          return Err(OpenFailed(wav)), skipped;
        }
        PassStep(h, period, files, k, op);
        if h.inPeriod(wav, period) {
          var out := op(wav);
          RowsSnoc(outs, Attempt(wav, out));
          if out.Some? {
            table := table + out.value;
          } else {
            skipped := skipped + [wav];
          }
          outs := outs + [Attempt(wav, out)];
        }
      }
      assert files[..acuFiles.n] == files;
      PassEndsWithRows(h, period, files, outs, op);
      r := Ok(table);
    }

    /** `apply_to_all`: call the named method on every in-period recording, in listing
        order; a call that raises is skipped and logged. */
    method ApplyToAll(fs: FileSystem, h: Hydro, methodName: string)
      returns (r: Result<(), Failure>, ghost called: seq<string>, ghost skipped: seq<string>)
      modifies acuFiles`n, acuFiles`filesList, acuFiles`listed
      ensures var files := Listing(fs, acuFiles.folderPath, acuFiles.recursive);
              && (FirstUnopened(h, files).Some? ==> r == Err(OpenFailed(FirstUnopened(h, files).value)))
              && (FirstUnopened(h, files).None? ==>
                    && r == Ok(())
                    && called == InPeriodPaths(h, period, files)
                    && skipped == FailedPaths(h, period, files, Invocation(h, methodName)))
      ensures acuFiles.listed && acuFiles.filesList == Listing(fs, acuFiles.folderPath, acuFiles.recursive)
      ensures acuFiles.n == CursorAfterPass(h, acuFiles.filesList)
    {
      acuFiles.Iter(fs);
      r, called, skipped := CallEach(h, Invocation(h, methodName));
    }

    /** The loop of `apply_to_all`, over a fresh iteration. */
    method CallEach(h: Hydro, op: string -> Option<()>)
      returns (r: Result<(), Failure>, ghost called: seq<string>, ghost skipped: seq<string>)
      requires acuFiles.listed && acuFiles.n == 0
      modifies acuFiles`n
      ensures var files := acuFiles.filesList;
              && (FirstUnopened(h, files).Some? ==> r == Err(OpenFailed(FirstUnopened(h, files).value)))
              && (FirstUnopened(h, files).None? ==>
                    && r == Ok(())
                    && called == InPeriodPaths(h, period, files)
                    && skipped == FailedPaths(h, period, files, op))
      ensures acuFiles.n == CursorAfterPass(h, acuFiles.filesList)
    {
      ghost var files := acuFiles.filesList;
      called, skipped := [], [];
      ghost var outs: seq<Outcome<()>> := [];
      while true
        invariant acuFiles.listed && acuFiles.filesList == files
        invariant 0 <= acuFiles.n <= |files|
        invariant Pass(h, period, files[..acuFiles.n], op) == Ok(outs)
        invariant called == Attempted(outs) && skipped == SkippedPaths(outs)
        decreases |files| - acuFiles.n
      {
        ghost var k := acuFiles.n;
        var step := acuFiles.Next();
        if !step.Yield? {
          break;
        }
        var wav := step.group[0];
        if !h.opens(wav) {
          PassStopsAt(h, period, files, k, op);
          return Err(OpenFailed(wav)), called, skipped;
        }
        PassStep(h, period, files, k, op);
        if h.inPeriod(wav, period) {
          var out := op(wav);
          LogsSnoc(outs, Attempt(wav, out));
          called := called + [wav];
          if out.None? {
            skipped := skipped + [wav];
          }
          outs := outs + [Attempt(wav, out)];
        }
      }
      assert files[..acuFiles.n] == files;
      PassOutcome(h, period, files, op);
      r := Ok(());
    }

    /** `duration`: the total length in seconds of the in-period recordings whose
        length can be read. */
    method Duration(fs: FileSystem, h: Hydro)
      returns (r: Result<nat, Failure>, ghost skipped: seq<string>)
      modifies acuFiles`n, acuFiles`filesList, acuFiles`listed
      ensures var files := Listing(fs, acuFiles.folderPath, acuFiles.recursive);
              && (FirstUnopened(h, files).Some? ==> r == Err(OpenFailed(FirstUnopened(h, files).value)))
              && (FirstUnopened(h, files).None? ==>
                    && r == Ok(ContributedSum(h, period, files, h.totalTime))
                    && skipped == FailedPaths(h, period, files, h.totalTime))
      ensures acuFiles.listed && acuFiles.filesList == Listing(fs, acuFiles.folderPath, acuFiles.recursive)
      ensures acuFiles.n == CursorAfterPass(h, acuFiles.filesList)
    {
      acuFiles.Iter(fs);
      r, skipped := SumLengths(h);
    }

    /** The loop of `duration`, over a fresh iteration. */
    method SumLengths(h: Hydro) returns (r: Result<nat, Failure>, ghost skipped: seq<string>)
      requires acuFiles.listed && acuFiles.n == 0
      modifies acuFiles`n
      ensures var files := acuFiles.filesList;
              && (FirstUnopened(h, files).Some? ==> r == Err(OpenFailed(FirstUnopened(h, files).value)))
              && (FirstUnopened(h, files).None? ==>
                    && r == Ok(ContributedSum(h, period, files, h.totalTime))
                    && skipped == FailedPaths(h, period, files, h.totalTime))
      ensures acuFiles.n == CursorAfterPass(h, acuFiles.filesList)
    {
      ghost var files := acuFiles.filesList;
      var total: nat := 0;
      skipped := [];
      ghost var outs: seq<Outcome<nat>> := [];
      while true
        invariant acuFiles.listed && acuFiles.filesList == files
        invariant 0 <= acuFiles.n <= |files|
        invariant Pass(h, period, files[..acuFiles.n], h.totalTime) == Ok(outs)
        invariant total == Total(outs) && skipped == SkippedPaths(outs)
        decreases |files| - acuFiles.n
      {
        ghost var k := acuFiles.n;
        var step := acuFiles.Next();
        if !step.Yield? {
          break;
        }
        var wav := step.group[0];
        if !h.opens(wav) {
          PassStopsAt(h, period, files, k, h.totalTime);
          return Err(OpenFailed(wav)), skipped;
        }
        PassStep(h, period, files, k, h.totalTime);
        if h.inPeriod(wav, period) {
          var out := h.totalTime(wav);
          TotalSnoc(outs, Attempt(wav, out));
          if out.Some? {
            total := total + out.value;
          } else {
            skipped := skipped + [wav];
          }
          outs := outs + [Attempt(wav, out)];
        }
      }
      assert files[..acuFiles.n] == files;
      PassEndsWithTotal(h, period, files, outs, h.totalTime);
      r := Ok(total);
    }

    /** `start_end_timestamp`: the start of the first recording in listing order and the
        end (start plus length) of the last one. */
    method StartEndTimestamp(fs: FileSystem, h: Hydro) returns (r: Result<(int, int), Failure>)
      modifies acuFiles`n, acuFiles`filesList, acuFiles`listed
      ensures var files := Listing(fs, acuFiles.folderPath, acuFiles.recursive);
              && (files == [] ==> r == Err(Exhausted))
              && (files != [] ==>
                    var first, last := files[0], files[|files| - 1];
                    && (!h.opens(first) ==> r == Err(OpenFailed(first)))
                    && (h.opens(first) && !h.opens(last) ==> r == Err(OpenFailed(last)))
                    && (h.opens(first) && h.opens(last) && h.totalTime(last).None? ==> r == Err(CallFailed(last)))
                    && (h.opens(first) && h.opens(last) && h.totalTime(last).Some? ==>
                          r == Ok((h.date(first), h.date(last) + h.totalTime(last).value))))
      ensures acuFiles.listed && acuFiles.filesList == Listing(fs, acuFiles.folderPath, acuFiles.recursive)
      ensures acuFiles.n == if acuFiles.filesList != [] && !h.opens(acuFiles.filesList[0]) then 1 else 0
    {
      var s := acuFiles.GetItem(fs, 0);
      ghost var files := acuFiles.filesList;
      StepsOfFreshIteration(files, acuFiles.extensions);
      if !s.Yield? {
        return Err(s.error);
      }
      var first := s.group[0];
      if !h.opens(first) {
        return Err(OpenFailed(first));
      }
      var start := h.date(first);
      s := acuFiles.GetItem(fs, -1);
      StepsOfFreshIteration(files, acuFiles.extensions);
      var last := s.group[0];
      assert last == files[|files| - 1];
      if !h.opens(last) {
        return Err(OpenFailed(last));
      }
      var length := h.totalTime(last);
      if length.None? {
        return Err(CallFailed(last));
      }
      r := Ok((start, h.date(last) + length.value));
    }

    /** `cut_and_place_files_period`: parse the period, point the folder at the given
        extensions, and place every group of the listing in turn into `folderName`
        under the survey folder. */
    method CutAndPlace(fs: FileSystem, h: Hydro, parse: (string, string) -> Option<int>,
                       cutPeriod: seq<Moment>, folderName: string, extensions: seq<string>)
      returns (r: Result<FileSystem, Failure>)
      modifies acuFiles
      ensures CutPeriod(cutPeriod, parse).Err? ==>
                r == Err(CutPeriod(cutPeriod, parse).error) && unchanged(acuFiles)
      ensures CutPeriod(cutPeriod, parse).Ok? ==>
                var bounds := CutPeriod(cutPeriod, parse).value;
                && acuFiles.extensions == extensions
                && r == PlaceAll(fs, h, Listing(fs, acuFiles.folderPath, acuFiles.recursive), extensions,
                                 bounds.0, bounds.1, OsPathJoin(acuFiles.folderPath, folderName))
                && acuFiles.listed && acuFiles.filesList == Listing(fs, acuFiles.folderPath, acuFiles.recursive)
                && acuFiles.n == GroupsVisited(fs, h, acuFiles.filesList, extensions, bounds.0, bounds.1,
                                               OsPathJoin(acuFiles.folderPath, folderName))
    {
      if cutPeriod == [] {
        return Err(IndexOutOfRange);
      }
      var startDate := Strptime(parse, cutPeriod[0], CutFormat);
      if startDate.Err? {
        return Err(startDate.error);
      }
      if |cutPeriod| < 2 {
        return Err(IndexOutOfRange);
      }
      var endDate := Strptime(parse, cutPeriod[1], CutFormat);
      if endDate.Err? {
        return Err(endDate.error);
      }
      var start, end := startDate.value, endDate.value;
      var folder := OsPathJoin(acuFiles.folderPath, folderName);
      acuFiles.extensions := extensions;
      acuFiles.Iter(fs);
      r := PlaceGroups(fs, h, start, end, folder);
    }

    /** The group loop of `cut_and_place_files_period`, over a fresh iteration. */
    method PlaceGroups(fs: FileSystem, h: Hydro, start: int, end: int, folder: string)
      returns (r: Result<FileSystem, Failure>)
      requires acuFiles.listed && acuFiles.n == 0
      modifies acuFiles`n
      ensures r == PlaceAll(fs, h, acuFiles.filesList, acuFiles.extensions, start, end, folder)
      ensures acuFiles.n == GroupsVisited(fs, h, acuFiles.filesList, acuFiles.extensions, start, end, folder)
    {
      ghost var files := acuFiles.filesList;
      var cur := fs;
      while true
        invariant acuFiles.listed && acuFiles.filesList == files
        invariant 0 <= acuFiles.n <= |files|
        invariant PlaceAll(fs, h, files[..acuFiles.n], acuFiles.extensions, start, end, folder) == Ok(cur)
        decreases |files| - acuFiles.n
      {
        ghost var k := acuFiles.n;
        var step := acuFiles.Next();
        if !step.Yield? {
          assert k == |files|;
          break;
        }
        var wav := step.group[0];
        assert step.group[1..] == Companions(wav, acuFiles.extensions);
        PlaceAllStep(fs, h, files, acuFiles.extensions, start, end, folder, k, cur);
        var placed := PlaceGroup(cur, h, wav, step.group[1..], acuFiles.extensions, start, end, folder);
        if placed.Err? {
          PlaceAllSticks(fs, h, files, acuFiles.extensions, start, end, folder, k + 1);
          GroupsVisitedAt(fs, h, files, acuFiles.extensions, start, end, folder, k);
          return placed;
        }
        cur := placed.value;
      }
      assert files[..acuFiles.n] == files;
      GroupsVisitedAll(fs, h, files, acuFiles.extensions, start, end, folder);
      r := Ok(cur);
    }
  }

  /** `ASA(...)`: build the folder iterator and normalise the period; a period that
      cannot be normalised makes the constructor raise. */
  method NewSurvey(folderPath: string, includeDirs: bool, period: Option<seq<Moment>>,
                   parse: (string, string) -> Option<int>) returns (r: Result<ASA, Failure>)
    ensures NormalizePeriod(period, parse).Err? ==> r == Err(NormalizePeriod(period, parse).error)
    ensures NormalizePeriod(period, parse).Ok? ==>
              && r.Ok? && fresh(r.value) && fresh(r.value.acuFiles)
              && r.value.period == NormalizePeriod(period, parse).value
              && r.value.acuFiles.folderPath == folderPath && r.value.acuFiles.recursive == includeDirs
              && r.value.acuFiles.extensions == [] && !r.value.acuFiles.listed
  {
    var normalized := NormalizePeriod(period, parse);
    if normalized.Err? {
      return Err(normalized.error);
    }
    var survey := new ASA(folderPath, includeDirs, normalized.value);
    r := Ok(survey);
  }
}
