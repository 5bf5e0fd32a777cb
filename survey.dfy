/** What the survey passes compute: the analyser of one file as an oracle, the
    normalisation of the analysis period, and the outcome of one pass over the files,
    with reference definitions of its table, its sum and its skip log. */
module Survey {
  import opened Common

  /** A period bound: a `datetime` already, or text still to be parsed. */
  datatype Moment = Stamp(t: int) | Text(s: string)

  const SurveyFormat: string := "%Y-%m-%d %H:%M:%S"
  const CutFormat: string := "%d/%m/%Y %H:%M:%S"

  /** The per-file analyser (`HydroFile`), which is not part of this model: each
      operation is a total function of the file path and its other arguments. For the
      constructor, the analyses, `total_time`, `split` and named calls, `None` or `false`
      means the call raised; `inPeriod` and `containsDate` answer yes or no and are taken
      never to raise. */
  datatype Hydro = Hydro(
    opens: string -> bool,                             // the constructor does not raise
    inPeriod: (string, Option<seq<Moment>>) -> bool,   // is_in_period(period)
    containsDate: (string, int) -> bool,               // contains_date(date)
    date: string -> int,                               // .date, the start of the recording
    totalTime: string -> Option<nat>,                  // total_time(), in seconds
    analyze: (string, seq<string>) -> Option<seq<Row>>,// _apply_multiple(method_list, ...)
    timestamps: string -> Option<seq<int>>,            // timestamps_df(binsize)
    call: (string, string) -> bool,                    // any named method; false: it raised
    split: (string, int) -> Option<(string, string)>)  // split(date): the paths of both parts

  /** `datetime.datetime.strptime(m, fmt)`, the parser itself being a parameter. */
  function Strptime(parse: (string, string) -> Option<int>, m: Moment, fmt: string): (r: Result<int, Failure>)
    ensures r.Ok? <==> m.Text? && parse(m.s, fmt).Some?
    ensures r.Ok? ==> r.value == parse(m.s, fmt).value
    ensures r.Err? ==> r.error == ParseFailed
  {
    match m
    case Stamp(_) => Err(ParseFailed)
    case Text(s) => if parse(s, fmt).Some? then Ok(parse(s, fmt).value) else Err(ParseFailed)
  }

  /** The period handling of `ASA.__init__`. */
  function NormalizePeriod(period: Option<seq<Moment>>, parse: (string, string) -> Option<int>)
    : (r: Result<Option<seq<Moment>>, Failure>)
    ensures period.None? ==> r == Ok(None)
    ensures period.Some? && period.value != [] && period.value[0].Stamp? ==> r == Ok(period)
    ensures period.Some? && period.value == [] ==> r == Err(IndexOutOfRange)
    ensures period.Some? && period.value != [] && period.value[0].Text? ==>
              (r.Ok? <==> |period.value| >= 2 && period.value[1].Text?
                          && parse(period.value[0].s, SurveyFormat).Some?
                          && parse(period.value[1].s, SurveyFormat).Some?)
    ensures period.Some? && period.value != [] && period.value[0].Text? && r.Ok? ==>
              r.value == Some([Stamp(parse(period.value[0].s, SurveyFormat).value),
                               Stamp(parse(period.value[1].s, SurveyFormat).value)])
    ensures r.Ok? && r.value.Some? ==> r.value.value != [] && r.value.value[0].Stamp?
  {
    match period
    case None => Ok(None)
    case Some(p) =>
      if p == [] then Err(IndexOutOfRange)
      else if p[0].Stamp? then Ok(period)
      else match Strptime(parse, p[0], SurveyFormat)
        case Err(e) => Err(e)
        case Ok(start) =>
          if |p| < 2 then Err(IndexOutOfRange)
          else match Strptime(parse, p[1], SurveyFormat)
            case Err(e) => Err(e)
            case Ok(end) => Ok(Some([Stamp(start), Stamp(end)]))
  }

  /** Normalising a normalised period changes nothing. */
  lemma NormalizeIdempotent(period: Option<seq<Moment>>, parse: (string, string) -> Option<int>)
    requires NormalizePeriod(period, parse).Ok?
    ensures NormalizePeriod(NormalizePeriod(period, parse).value, parse) == NormalizePeriod(period, parse)
  {
  }

  // ---------------------------------------------------------------------------
  // one pass over the files

  /** What one in-period file gave: the operation's value, or its failure (skipped). */
  datatype Outcome<T> = Done(path: string, value: T) | Skipped(path: string)

  function Attempt<T>(p: string, v: Option<T>): Outcome<T>
  {
    match v
    case Some(x) => Done(p, x)
    case None => Skipped(p)
  }

  /** The loop shared by the survey operations: for each path in order, construct the
      analyser (its failure is not caught and ends the pass), test the period and, for an
      in-period file, run `op`, whose failure is caught. */
  function Pass<T>(h: Hydro, period: Option<seq<Moment>>, paths: seq<string>, op: string -> Option<T>)
    : Result<seq<Outcome<T>>, Failure>
    decreases |paths|
  {
    if paths == [] then Ok([])
    else
      var p := paths[|paths| - 1];
      match Pass(h, period, paths[..|paths| - 1], op)
      case Err(e) => Err(e)
      case Ok(outs) =>
        if !h.opens(p) then Err(OpenFailed(p))
        else if h.inPeriod(p, period) then Ok(outs + [Attempt(p, op(p))])
        else Ok(outs)
  }

  /** The rows of the successful outcomes, in order. */
  function Rows<R>(outs: seq<Outcome<seq<R>>>): seq<R>
  {
    if outs == [] then []
    else
      var last := outs[|outs| - 1];
      Rows(outs[..|outs| - 1]) + (if last.Done? then last.value else [])
  }

  /** The sum of the successful outcomes. */
  function Total(outs: seq<Outcome<nat>>): nat
  {
    if outs == [] then 0
    else
      var last := outs[|outs| - 1];
      Total(outs[..|outs| - 1]) + (if last.Done? then last.value else 0)
  }

  /** The paths whose operation raised: the skip log. */
  function SkippedPaths<T>(outs: seq<Outcome<T>>): seq<string>
  {
    if outs == [] then []
    else
      var last := outs[|outs| - 1];
      SkippedPaths(outs[..|outs| - 1]) + (if last.Skipped? then [last.path] else [])
  }

  /** The paths the operation was run on. */
  function Attempted<T>(outs: seq<Outcome<T>>): seq<string>
  {
    if outs == [] then [] else Attempted(outs[..|outs| - 1]) + [outs[|outs| - 1].path]
  }

  // ---------------------------------------------------------------------------
  // reference definitions, read from the front of the path list

  /** The first path whose analyser cannot be constructed. */
  function FirstUnopened(h: Hydro, paths: seq<string>): Option<string>
  {
    if paths == [] then None
    else if !h.opens(paths[0]) then Some(paths[0])
    else FirstUnopened(h, paths[1..])
  }

  /** How many paths, from the front, have an analyser that can be constructed: the
      position of the first one that cannot, when there is one. */
  function OpenedPrefix(h: Hydro, paths: seq<string>): (k: nat)
    ensures k <= |paths|
    ensures FirstUnopened(h, paths).Some? <==> k < |paths|
    ensures k < |paths| ==> FirstUnopened(h, paths).value == paths[k]
  {
    if paths == [] then 0
    else if !h.opens(paths[0]) then 0
    else 1 + OpenedPrefix(h, paths[1..])
  }

  /** A path that cannot be opened after a run of paths that can is at the position
      `OpenedPrefix` gives. */
  lemma {:induction false} OpenedPrefixAt(h: Hydro, paths: seq<string>, k: nat)
    requires k < |paths| && !h.opens(paths[k])
    requires FirstUnopened(h, paths[..k]).None?
    ensures OpenedPrefix(h, paths) == k
  {
    if k > 0 {
      assert paths[..k][0] == paths[0] && paths[..k][1..] == paths[1..][..k - 1];
      OpenedPrefixAt(h, paths[1..], k - 1);
    }
  }

  function InPeriodPaths(h: Hydro, period: Option<seq<Moment>>, paths: seq<string>): seq<string>
  {
    if paths == [] then []
    else (if h.inPeriod(paths[0], period) then [paths[0]] else []) + InPeriodPaths(h, period, paths[1..])
  }

  function FailedPaths<T>(h: Hydro, period: Option<seq<Moment>>, paths: seq<string>, op: string -> Option<T>)
    : seq<string>
  {
    if paths == [] then []
    else
      (if h.inPeriod(paths[0], period) && op(paths[0]).None? then [paths[0]] else [])
      + FailedPaths(h, period, paths[1..], op)
  }

  /** The rows the in-period files whose analysis succeeded give, file after file. */
  function ContributedRows<R>(h: Hydro, period: Option<seq<Moment>>, paths: seq<string>,
                              op: string -> Option<seq<R>>): seq<R>
  {
    if paths == [] then []
    else
      var p := paths[0];
      (if h.inPeriod(p, period) && op(p).Some? then op(p).value else [])
      + ContributedRows(h, period, paths[1..], op)
  }

  /** The sum of what the in-period files whose operation succeeded give; for
      `total_time`, the duration of the survey. */
  function ContributedSum(h: Hydro, period: Option<seq<Moment>>, paths: seq<string>,
                          op: string -> Option<nat>): nat
  {
    if paths == [] then 0
    else
      var p := paths[0];
      (if h.inPeriod(p, period) && op(p).Some? then op(p).value else 0)
      + ContributedSum(h, period, paths[1..], op)
  }

  // ---------------------------------------------------------------------------
  // the pass agrees with the reference definitions

  lemma {:induction false} FirstUnopenedSnoc(h: Hydro, paths: seq<string>, p: string)
    ensures FirstUnopened(h, paths + [p]) ==
              if FirstUnopened(h, paths).Some? then FirstUnopened(h, paths)
              else if h.opens(p) then None else Some(p)
  {
    if paths != [] {
      assert (paths + [p])[1..] == paths[1..] + [p];
      FirstUnopenedSnoc(h, paths[1..], p);
    }
  }

  lemma {:induction false} InPeriodPathsSnoc(h: Hydro, period: Option<seq<Moment>>, paths: seq<string>, p: string)
    ensures InPeriodPaths(h, period, paths + [p])
            == InPeriodPaths(h, period, paths) + (if h.inPeriod(p, period) then [p] else [])
  {
    if paths == [] {
      assert [p][1..] == [];
    } else {
      assert (paths + [p])[1..] == paths[1..] + [p];
      InPeriodPathsSnoc(h, period, paths[1..], p);
    }
  }

  lemma {:induction false} FailedPathsSnoc<T>(h: Hydro, period: Option<seq<Moment>>, paths: seq<string>,
                                              op: string -> Option<T>, p: string)
    ensures FailedPaths(h, period, paths + [p], op)
            == FailedPaths(h, period, paths, op) + (if h.inPeriod(p, period) && op(p).None? then [p] else [])
  {
    if paths == [] {
      assert [p][1..] == [];
    } else {
      assert (paths + [p])[1..] == paths[1..] + [p];
      FailedPathsSnoc(h, period, paths[1..], op, p);
    }
  }

  /** The rows of a list of files are the rows of its first part followed by the rows of
      the rest: contributions keep the enumeration order. */
  lemma {:induction false} ContributedRowsAppend<R>(h: Hydro, period: Option<seq<Moment>>,
                                                    a: seq<string>, b: seq<string>,
                                                    op: string -> Option<seq<R>>)
    ensures ContributedRows(h, period, a + b, op)
            == ContributedRows(h, period, a, op) + ContributedRows(h, period, b, op)
  {
    if a == [] {
      assert a + b == b;
    } else {
      assert (a + b)[1..] == a[1..] + b;
      ContributedRowsAppend(h, period, a[1..], b, op);
    }
  }

  lemma {:induction false} ContributedSumAppend(h: Hydro, period: Option<seq<Moment>>, a: seq<string>,
                                                b: seq<string>, op: string -> Option<nat>)
    ensures ContributedSum(h, period, a + b, op) == ContributedSum(h, period, a, op) + ContributedSum(h, period, b, op)
  {
    if a == [] {
      assert a + b == b;
    } else {
      assert (a + b)[1..] == a[1..] + b;
      ContributedSumAppend(h, period, a[1..], b, op);
    }
  }

  /** A pass ends with the failure of the first file whose analyser cannot be
      constructed; when there is none it runs the operation on exactly the in-period
      files, in order, and logs exactly those whose operation raised. */
  lemma {:induction false} PassOutcome<T>(h: Hydro, period: Option<seq<Moment>>, paths: seq<string>,
                                          op: string -> Option<T>)
    ensures FirstUnopened(h, paths).Some? ==>
              Pass(h, period, paths, op) == Err(OpenFailed(FirstUnopened(h, paths).value))
    ensures FirstUnopened(h, paths).None? ==>
              Pass(h, period, paths, op).Ok?
              && Attempted(Pass(h, period, paths, op).value) == InPeriodPaths(h, period, paths)
              && SkippedPaths(Pass(h, period, paths, op).value) == FailedPaths(h, period, paths, op)
    decreases |paths|
  {
    if paths != [] {
      var init, p := paths[..|paths| - 1], paths[|paths| - 1];
      assert paths == init + [p];
      PassOutcome(h, period, init, op);
      FirstUnopenedSnoc(h, init, p);
      InPeriodPathsSnoc(h, period, init, p);
      FailedPathsSnoc(h, period, init, op, p);
      if FirstUnopened(h, init).None? && h.opens(p) {
        var outs := Pass(h, period, init, op).value;
        if h.inPeriod(p, period) {
          var outs' := outs + [Attempt(p, op(p))];
          assert outs'[..|outs'| - 1] == outs;
        }
      }
    }
  }

  /** One more file at the end of the list: the pass takes one more step. */
  lemma PassSnoc<T>(h: Hydro, period: Option<seq<Moment>>, init: seq<string>, p: string,
                    op: string -> Option<T>)
    ensures Pass(h, period, init + [p], op) ==
              match Pass(h, period, init, op)
              case Err(e) => Err(e)
              case Ok(outs) =>
                if !h.opens(p) then Err(OpenFailed(p))
                else if h.inPeriod(p, period) then Ok(outs + [Attempt(p, op(p))])
                else Ok(outs)
  {
    assert (init + [p])[..|init + [p]| - 1] == init;
  }

  /** The pass over the first `k + 1` paths of a list is one step on from the pass over
      the first `k`. */
  lemma PassStep<T>(h: Hydro, period: Option<seq<Moment>>, paths: seq<string>, k: nat,
                    op: string -> Option<T>)
    requires k < |paths| && Pass(h, period, paths[..k], op).Ok? && h.opens(paths[k])
    ensures Pass(h, period, paths[..k + 1], op) ==
              if h.inPeriod(paths[k], period)
              then Ok(Pass(h, period, paths[..k], op).value + [Attempt(paths[k], op(paths[k]))])
              else Pass(h, period, paths[..k], op)
  {
    assert paths[..k + 1] == paths[..k] + [paths[k]];
    PassSnoc(h, period, paths[..k], paths[k], op);
  }

  /** A pass that got to the end built every analyser; its table and its skip log are
      the reference ones. */
  lemma PassEndsWithRows<R>(h: Hydro, period: Option<seq<Moment>>, paths: seq<string>,
                            outs: seq<Outcome<seq<R>>>, op: string -> Option<seq<R>>)
    requires Pass(h, period, paths, op) == Ok(outs)
    ensures FirstUnopened(h, paths).None?
    ensures Rows(outs) == ContributedRows(h, period, paths, op)
    ensures SkippedPaths(outs) == FailedPaths(h, period, paths, op)
  {
    PassOutcome(h, period, paths, op);
    PassRows(h, period, paths, op);
  }

  /** A pass that got to the end built every analyser; its sum and its skip log are the
      reference ones. */
  lemma PassEndsWithTotal(h: Hydro, period: Option<seq<Moment>>, paths: seq<string>,
                          outs: seq<Outcome<nat>>, op: string -> Option<nat>)
    requires Pass(h, period, paths, op) == Ok(outs)
    ensures FirstUnopened(h, paths).None?
    ensures Total(outs) == ContributedSum(h, period, paths, op)
    ensures SkippedPaths(outs) == FailedPaths(h, period, paths, op)
  {
    PassOutcome(h, period, paths, op);
    PassTotal(h, period, paths, op);
  }

  /** The table a successful pass builds is the concatenation, in enumeration order, of
      the rows of the in-period files whose analysis succeeded. */
  lemma {:induction false} PassRows<R>(h: Hydro, period: Option<seq<Moment>>, paths: seq<string>,
                                       op: string -> Option<seq<R>>)
    requires Pass(h, period, paths, op).Ok?
    ensures Rows(Pass(h, period, paths, op).value) == ContributedRows(h, period, paths, op)
    decreases |paths|
  {
    if paths != [] {
      var init, p := paths[..|paths| - 1], paths[|paths| - 1];
      assert paths == init + [p];
      PassSnoc(h, period, init, p, op);
      PassRows(h, period, init, op);
      PassRowsStep(h, period, init, p, op);
    }
  }

  lemma PassRowsStep<R>(h: Hydro, period: Option<seq<Moment>>, init: seq<string>, p: string,
                        op: string -> Option<seq<R>>)
    requires Pass(h, period, init, op).Ok? && Pass(h, period, init + [p], op).Ok?
    requires Rows(Pass(h, period, init, op).value) == ContributedRows(h, period, init, op)
    ensures Rows(Pass(h, period, init + [p], op).value) == ContributedRows(h, period, init + [p], op)
  {
    PassSnoc(h, period, init, p, op);
    var outs := Pass(h, period, init, op).value;
    ContributedRowsAppend(h, period, init, [p], op);
    var gain := if h.inPeriod(p, period) && op(p).Some? then op(p).value else [];
    assert ContributedRows(h, period, [p], op) == gain by { assert [p][1..] == []; }
    if h.inPeriod(p, period) {
      RowsSnoc(outs, Attempt(p, op(p)));
    }
  }

  lemma RowsSnoc<R>(outs: seq<Outcome<seq<R>>>, last: Outcome<seq<R>>)
    ensures Rows(outs + [last]) == Rows(outs) + (if last.Done? then last.value else [])
  {
    assert (outs + [last])[..|outs + [last]| - 1] == outs;
  }

  lemma LogsSnoc<T>(outs: seq<Outcome<T>>, last: Outcome<T>)
    ensures Attempted(outs + [last]) == Attempted(outs) + [last.path]
    ensures SkippedPaths(outs + [last]) == SkippedPaths(outs) + (if last.Skipped? then [last.path] else [])
  {
    assert (outs + [last])[..|outs|] == outs;
  }

  lemma TotalSnoc(outs: seq<Outcome<nat>>, last: Outcome<nat>)
    ensures Total(outs + [last]) == Total(outs) + (if last.Done? then last.value else 0)
  {
    assert (outs + [last])[..|outs + [last]| - 1] == outs;
  }

  /** The sum a successful `duration` pass builds is the total time of the in-period
      files whose `total_time` succeeded; it is 0 when there are none. */
  lemma {:induction false} PassTotal(h: Hydro, period: Option<seq<Moment>>, paths: seq<string>,
                                     op: string -> Option<nat>)
    requires Pass(h, period, paths, op).Ok?
    ensures Total(Pass(h, period, paths, op).value) == ContributedSum(h, period, paths, op)
    decreases |paths|
  {
    if paths != [] {
      var init, p := paths[..|paths| - 1], paths[|paths| - 1];
      assert paths == init + [p];
      PassSnoc(h, period, init, p, op);
      PassTotal(h, period, init, op);
      var outs := Pass(h, period, init, op).value;
      ContributedSumAppend(h, period, init, [p], op);
      var gain := if h.inPeriod(p, period) && op(p).Some? then op(p).value else 0;
      assert ContributedSum(h, period, [p], op) == gain by { assert [p][1..] == []; }
      assert ContributedSum(h, period, paths, op) == ContributedSum(h, period, init, op) + gain;
      if h.inPeriod(p, period) {
        var o := Attempt(p, op(p));
        assert Pass(h, period, paths, op) == Ok(outs + [o]);
        TotalSnoc(outs, o);
        assert Total(outs + [o]) == Total(outs) + gain;
      } else {
        assert Pass(h, period, paths, op) == Ok(outs);
      }
    }
  }

  /** A pass that reaches a path whose analyser cannot be built, every earlier one having
      been built, stops there: that path is the first unopened one, at position `k`. */
  lemma PassStopsAt<T>(h: Hydro, period: Option<seq<Moment>>, paths: seq<string>, k: nat,
                       op: string -> Option<T>)
    requires k < |paths| && Pass(h, period, paths[..k], op).Ok? && !h.opens(paths[k])
    ensures FirstUnopened(h, paths) == Some(paths[k]) && OpenedPrefix(h, paths) == k
  {
    PassOutcome(h, period, paths[..k], op);
    OpenedPrefixAt(h, paths, k);
  }

  /** Once a prefix of the files has ended the pass with a failure, the whole pass ends
      with that failure. */
  lemma {:induction false} PassFailureSticks<T>(h: Hydro, period: Option<seq<Moment>>, paths: seq<string>,
                                                k: nat, op: string -> Option<T>)
    requires k <= |paths| && Pass(h, period, paths[..k], op).Err?
    ensures Pass(h, period, paths, op) == Pass(h, period, paths[..k], op)
    decreases |paths|
  {
    if k < |paths| {
      var init := paths[..|paths| - 1];
      assert init[..k] == paths[..k];
      PassFailureSticks(h, period, init, k, op);
    } else {
      assert paths[..k] == paths;
    }
  }

  // ---------------------------------------------------------------------------
  // consequences

  /** A file whose analysis raises contributes no row, and the files after it still
      contribute theirs: one failing file never stops the survey. */
  lemma FailingFileContributesNothing<R>(h: Hydro, period: Option<seq<Moment>>,
                                         a: seq<string>, p: string, b: seq<string>,
                                         op: string -> Option<seq<R>>)
    requires op(p).None?
    ensures ContributedRows(h, period, a + [p] + b, op) == ContributedRows(h, period, a + b, op)
    ensures h.inPeriod(p, period) ==> p in FailedPaths(h, period, a + [p] + b, op)
  {
    ContributedRowsAppend(h, period, a + [p], b, op);
    ContributedRowsAppend(h, period, a, [p], op);
    ContributedRowsAppend(h, period, a, b, op);
    assert [p][1..] == [];
    if h.inPeriod(p, period) {
      FailedInList(h, period, a + [p] + b, op, |a|);
    }
  }

  lemma {:induction false} FailedInList<T>(h: Hydro, period: Option<seq<Moment>>, paths: seq<string>,
                                           op: string -> Option<T>, i: nat)
    requires i < |paths| && h.inPeriod(paths[i], period) && op(paths[i]).None?
    ensures paths[i] in FailedPaths(h, period, paths, op)
  {
    if i > 0 {
      FailedInList(h, period, paths[1..], op, i - 1);
    }
  }

  /** When no file is in the period the table is empty and the duration is 0. */
  lemma {:induction false} NothingInPeriod<R>(h: Hydro, period: Option<seq<Moment>>, paths: seq<string>,
                                              op: string -> Option<seq<R>>)
    requires forall i :: 0 <= i < |paths| ==> !h.inPeriod(paths[i], period)
    ensures ContributedRows(h, period, paths, op) == []
    ensures ContributedSum(h, period, paths, h.totalTime) == 0
  {
    if paths != [] {
      NothingInPeriod(h, period, paths[1..], op);
    }
  }
}
