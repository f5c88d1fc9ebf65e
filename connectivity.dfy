/** connectivity.py: seed-based correlation of one session with a
    caller-chosen list of confound regressors read directly from the
    confound table.

    The maskers, the images and the plots are not modelled; the regressor
    table they receive, the values they return and the report are. */
module Connectivity {
  import opened Common
  import opened Strings
  import opened Tables
  import Utils
  import opened SeedCorrelation

  /** The regressor whose first value is undefined (no displacement before
      the first volume) and is replaced by 0. */
  const FramewiseDisplacement: string := "FramewiseDisplacement"

  /** The selected regressor values with the first row of every
      `FramewiseDisplacement` column set to 0. */
  function ResetFirstRow(columns: seq<string>, rows: seq<seq<real>>): (r: seq<seq<real>>)
    requires Shaped(rows, |columns|)
    ensures |r| == |rows| && Shaped(r, |columns|)
  {
    seq(|rows|, t requires 0 <= t < |rows| =>
      seq(|columns|, j requires 0 <= j < |columns| =>
        if t == 0 && columns[j] == FramewiseDisplacement then 0.0 else rows[t][j]))
  }

  /** The confound table handed to the maskers: the requested regressors in
      the requested order, or the error naming the missing ones; the first
      displacement value is 0 and every other cell is the file's. */
  function Regressors(df: Table, regressors: seq<string>): (r: Result<Table>)
    requires WellFormed(df)
    ensures r.Err? <==> exists i :: 0 <= i < |regressors| && regressors[i] !in df.columns
    ensures r.Err? ==> r.error == MissingColumns(Missing(df.columns, regressors))
    ensures r.Ok? ==>
      (r.value.columns == regressors && |r.value.rows| == |df.rows| && Shaped(r.value.rows, |regressors|))
    ensures r.Ok? ==> forall t, j :: 0 <= t < |df.rows| && 0 <= j < |regressors| ==>
      r.value.rows[t][j] ==
        if t == 0 && regressors[j] == FramewiseDisplacement then 0.0
        else df.rows[t][IndexOf(df.columns, regressors[j])]
    ensures FramewiseDisplacement !in regressors ==> r == Select(df, regressors)
  {
    var selected :- Select(df, regressors);
    ResetFirstRowNoDisplacement(regressors, selected.rows);
    Ok(Table(regressors, ResetFirstRow(regressors, selected.rows)))
  }

  /** Without a displacement column (or without rows) the reset changes
      nothing. */
  lemma ResetFirstRowNoDisplacement(columns: seq<string>, rows: seq<seq<real>>)
    requires Shaped(rows, |columns|)
    ensures FramewiseDisplacement !in columns || |rows| == 0 ==> ResetFirstRow(columns, rows) == rows
  {
    if FramewiseDisplacement !in columns || |rows| == 0 {
      var r := ResetFirstRow(columns, rows);
      forall t | 0 <= t < |rows| ensures r[t] == rows[t] {
        forall j | 0 <= j < |columns| ensures r[t][j] == rows[t][j] {
          assert columns[j] in columns;
        }
      }
    }
  }

  /** `confounds.loc[0, ['FramewiseDisplacement']] = 0` on the copied
      values, when the regressor was requested. */
  method ResetFramewiseDisplacement(columns: seq<string>, confounds: array2<real>)
    requires confounds.Length1 == |columns|
    modifies confounds
    ensures Rows(confounds) == ResetFirstRow(columns, old(Rows(confounds)))
  {
    ghost var before := Rows(confounds);
    if FramewiseDisplacement in columns && confounds.Length0 > 0 {
      for j := 0 to |columns|
        invariant forall t, k :: 0 <= t < confounds.Length0 && 0 <= k < |columns| ==>
          confounds[t, k] == if t == 0 && k < j && columns[k] == FramewiseDisplacement then 0.0 else before[t][k]
      {
        if columns[j] == FramewiseDisplacement {
          confounds[0, j] := 0.0;
        }
      }
    } else {
      ResetFirstRowNoDisplacement(columns, before);
    }
    assert Rows(confounds) == ResetFirstRow(columns, before) by {
      var r := ResetFirstRow(columns, before);
      forall t | 0 <= t < confounds.Length0 ensures Rows(confounds)[t] == r[t] { }
    }
  }

  /** `df[regressors].copy()` followed by the displacement reset. */
  method SelectRegressors(df: Table, regressors: seq<string>) returns (r: Result<Table>)
    requires WellFormed(df)
    ensures r == Regressors(df, regressors)
  {
    var selected := Select(df, regressors);
    if selected.Err? {
      return Err(selected.error);
    }
    var rows := selected.value.rows;
    var confounds := new real[|rows|, |regressors|];
    for t := 0 to |rows|
      invariant forall p, q :: 0 <= p < t && 0 <= q < |regressors| ==> confounds[p, q] == rows[p][q]
    {
      for j := 0 to |regressors|
        invariant forall p, q :: (0 <= p < t && 0 <= q < |regressors|) || (p == t && 0 <= q < j) ==>
          confounds[p, q] == rows[p][q]
      {
        confounds[t, j] := rows[t][j];
      }
    }
    assert Rows(confounds) == rows by {
      forall t | 0 <= t < |rows| ensures Rows(confounds)[t] == rows[t] { }
    }
    if FramewiseDisplacement in regressors {
      ResetFramewiseDisplacement(regressors, confounds);
    } else {
      ResetFirstRowNoDisplacement(regressors, rows);
    }
    return Ok(Table(regressors, Rows(confounds)));
  }

  /** The three outputs of one session, all in the output directory and all
      named after `subject_session`: the thresholded and unthresholded plots
      and the report. */
  function ConnectivityFiles(outputDir: string, subject: string, session: string): (files: seq<string>)
    ensures |files| == 3
  {
    var stub := subject + "_" + session;
    [PathJoin(outputDir, "sbc_1_thrsh0.3_" + stub + ".png"),
     PathJoin(outputDir, "sbc_2_unthrsh_" + stub + ".png"),
     PathJoin(outputDir, "sbc_9_info_" + stub + ".txt")]
  }

  /** Each output name ends with the stub and its extension. */
  lemma ConnectivityFilesStub(outputDir: string, subject: string, session: string)
    ensures var files := ConnectivityFiles(outputDir, subject, session);
      var stub := subject + "_" + session;
      EndsWith(files[0], stub + ".png") && EndsWith(files[1], stub + ".png") &&
      EndsWith(files[2], stub + ".txt")
  {
    var stub := subject + "_" + session;
    assert "sbc_1_thrsh0.3_" + stub + ".png" == "sbc_1_thrsh0.3_" + (stub + ".png");
    PathJoinEndsWith(outputDir, "sbc_1_thrsh0.3_", stub + ".png");
    assert "sbc_2_unthrsh_" + stub + ".png" == "sbc_2_unthrsh_" + (stub + ".png");
    PathJoinEndsWith(outputDir, "sbc_2_unthrsh_", stub + ".png");
    assert "sbc_9_info_" + stub + ".txt" == "sbc_9_info_" + (stub + ".txt");
    PathJoinEndsWith(outputDir, "sbc_9_info_", stub + ".txt");
  }

  /** `sbc_one_subject`. The input files are located first, so a missing
      input is an error even when every output exists. Then nothing happens
      when the three outputs exist; otherwise the regressor table is built,
      the maskers turn it into the time series of the brain and of the
      seed, the seed correlation of every voxel is computed, and the two
      plots and the report are written, in that order. */
  method SbcOneSubject(subject: string, session: string, fmriprepDir: string, outputDir: string,
                       regressors: seq<string>, existing: set<string>, glob: string -> seq<string>,
                       readTable: string -> Table, brainMasker: seq<seq<real>> -> seq<seq<real>>,
                       seedMasker: seq<seq<real>> -> seq<real>, width: nat)
    returns (r: Result<SeedPlan>)
    requires forall path :: WellFormed(readTable(path))
    requires forall c :: TimeSeries(brainMasker(c), seedMasker(c), width)
    ensures Utils.GetFiles(fmriprepDir, subject, session, glob).Err? ==>
      r == Err(Utils.GetFiles(fmriprepDir, subject, session, glob).error)
    ensures (Utils.GetFiles(fmriprepDir, subject, session, glob).Ok? &&
             AllPresent(existing, ConnectivityFiles(outputDir, subject, session))) ==> r == Ok(SeedSkipped)
    ensures (Utils.GetFiles(fmriprepDir, subject, session, glob).Ok? &&
             !AllPresent(existing, ConnectivityFiles(outputDir, subject, session))) ==>
      var inputs := Utils.GetFiles(fmriprepDir, subject, session, glob).value;
      var confounds := Regressors(readTable(inputs.confounds), regressors);
      (confounds.Err? ==> r == Err(confounds.error)) &&
      (confounds.Ok? ==>
        var files := ConnectivityFiles(outputDir, subject, session);
        var c := confounds.value.rows;
        r == Ok(SeedComputed(files, Join(ReportLines(Listed(regressors), inputs), "\n") + "\n",
                             Correlations(brainMasker(c), seedMasker(c), width))))
  {
    var inputs := Utils.GetFiles(fmriprepDir, subject, session, glob);
    if inputs.Err? {
      return Err(inputs.error);
    }
    var files := ConnectivityFiles(outputDir, subject, session);
    if AllPresent(existing, files) {
      return Ok(SeedSkipped);
    }
    var confounds := SelectRegressors(readTable(inputs.value.confounds), regressors);
    if confounds.Err? {
      return Err(confounds.error);
    }
    var seed := seedMasker(confounds.value.rows);
    var brain := brainMasker(confounds.value.rows);
    var correlations := Correlations(brain, seed, width);
    var report := ReportHeader(regressors, inputs.value);
    return Ok(SeedComputed([files[0], files[1], files[2]], report, correlations));
  }
}
