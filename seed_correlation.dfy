/** The seed-based correlation shared by sbc.py and connectivity.py, and
    the provenance report both of them write.

    The maskers return, for the same resting-state run, a T by V matrix of
    whole-brain time series (a row per timepoint, a column per voxel) and a
    T-point time series of the seed sphere. The correlation of voxel v with
    the seed is the dot product of their columns divided by T; for
    standardized series this is Pearson's r. */
module SeedCorrelation {
  import opened Strings
  import opened Tables
  import Utils

  /** What a seed-based driver does for one session: nothing, because every
      output is present, or a recomputation that writes `written`, with the
      report text and the per-voxel correlation values. */
  datatype SeedPlan = SeedSkipped | SeedComputed(written: seq<string>, report: string, correlations: seq<real>)

  /** `sum over t < n of brain[t][v] * seed[t]`. */
  function Dot(brain: seq<seq<real>>, seed: seq<real>, v: nat, n: nat): real
    requires n <= |brain| && n <= |seed|
    requires forall t :: 0 <= t < n ==> v < |brain[t]|
  {
    if n == 0 then 0.0 else Dot(brain, seed, v, n - 1) + brain[n - 1][v] * seed[n - 1]
  }

  /** The masker outputs fit together: one seed value and one row of `width`
      voxel values per timepoint, and at least one timepoint. */
  predicate TimeSeries(brain: seq<seq<real>>, seed: seq<real>, width: nat)
  {
    |seed| >= 1 && |brain| == |seed| && Shaped(brain, width)
  }

  /** `np.dot(brain.T, seed) / seed.shape[0]`: one value per voxel. */
  function Correlations(brain: seq<seq<real>>, seed: seq<real>, width: nat): (r: seq<real>)
    requires TimeSeries(brain, seed, width)
    ensures |r| == width
  {
    seq(width, v requires 0 <= v < width => Dot(brain, seed, v, |seed|) / (|seed| as real))
  }

  function Scale(c: real, xs: seq<real>): (r: seq<real>)
    ensures |r| == |xs| && forall t :: 0 <= t < |xs| ==> r[t] == c * xs[t]
  {
    seq(|xs|, t requires 0 <= t < |xs| => c * xs[t])
  }

  function Column(brain: seq<seq<real>>, v: nat): (r: seq<real>)
    requires forall t :: 0 <= t < |brain| ==> v < |brain[t]|
    ensures |r| == |brain| && forall t :: 0 <= t < |brain| ==> r[t] == brain[t][v]
  {
    seq(|brain|, t requires 0 <= t < |brain| => brain[t][v])
  }

  /** `sum over t < n of xs[t] * xs[t]`. */
  function SumSquares(xs: seq<real>, n: nat): (r: real)
    requires n <= |xs|
    ensures r >= 0.0
  {
    if n == 0 then 0.0 else SumSquares(xs, n - 1) + Utils.Sq(xs[n - 1])
  }

  lemma {:induction false} DotScale(brain: seq<seq<real>>, seed: seq<real>, c: real, v: nat, n: nat)
    requires n <= |brain| && n <= |seed|
    requires forall t :: 0 <= t < n ==> v < |brain[t]|
    ensures Dot(brain, Scale(c, seed), v, n) == c * Dot(brain, seed, v, n)
  {
    if n > 0 {
      DotScale(brain, seed, c, v, n - 1);
      var b := brain[n - 1][v];
      var s := seed[n - 1];
      assert b * (c * s) == c * (b * s);
    }
  }

  lemma {:induction false} DotDependsOnColumn(brain: seq<seq<real>>, other: seq<seq<real>>, seed: seq<real>,
                                              v: nat, n: nat)
    requires n <= |brain| && n <= |other| && n <= |seed|
    requires forall t :: 0 <= t < n ==> v < |brain[t]| && v < |other[t]| && brain[t][v] == other[t][v]
    ensures Dot(brain, seed, v, n) == Dot(other, seed, v, n)
  {
    if n > 0 {
      DotDependsOnColumn(brain, other, seed, v, n - 1);
    }
  }

  lemma {:induction false} DotWithItself(brain: seq<seq<real>>, seed: seq<real>, v: nat, n: nat)
    requires n <= |brain| && n <= |seed|
    requires forall t :: 0 <= t < n ==> v < |brain[t]| && brain[t][v] == seed[t]
    ensures Dot(brain, seed, v, n) == SumSquares(seed, n)
  {
    if n > 0 {
      DotWithItself(brain, seed, v, n - 1);
    }
  }

  /** Scaling the seed series scales every voxel's value by the same factor. */
  lemma CorrelationsScale(brain: seq<seq<real>>, seed: seq<real>, width: nat, c: real)
    requires TimeSeries(brain, seed, width)
    ensures TimeSeries(brain, Scale(c, seed), width)
    ensures Correlations(brain, Scale(c, seed), width) == Scale(c, Correlations(brain, seed, width))
  {
    var r := Correlations(brain, seed, width);
    var rc := Correlations(brain, Scale(c, seed), width);
    forall v | 0 <= v < width ensures rc[v] == Scale(c, r)[v] {
      DotScale(brain, seed, c, v, |seed|);
      QuotientScale(c, Dot(brain, seed, v, |seed|), |seed| as real);
    }
    assert |rc| == |Scale(c, r)|;
  }

  lemma QuotientScale(c: real, d: real, q: real)
    requires q > 0.0
    ensures (c * d) / q == c * (d / q)
  {
  }

  /** The value of a voxel depends on that voxel's time series alone: two
      brains that agree on voxel v give the same value at v. */
  lemma CorrelationsLocal(brain: seq<seq<real>>, other: seq<seq<real>>, seed: seq<real>, width: nat, v: nat)
    requires TimeSeries(brain, seed, width) && TimeSeries(other, seed, width)
    requires v < width && Column(brain, v) == Column(other, v)
    ensures Correlations(brain, seed, width)[v] == Correlations(other, seed, width)[v]
  {
    forall t | 0 <= t < |seed| ensures brain[t][v] == other[t][v] {
      assert Column(brain, v)[t] == brain[t][v] && Column(other, v)[t] == other[t][v];
    }
    DotDependsOnColumn(brain, other, seed, v, |seed|);
  }

  /** A voxel whose series is the seed's gets its mean square; for a
      standardized seed (mean square 1) that is a correlation of 1. */
  lemma CorrelationsWithSeed(brain: seq<seq<real>>, seed: seq<real>, width: nat, v: nat)
    requires TimeSeries(brain, seed, width)
    requires v < width && Column(brain, v) == seed
    ensures Correlations(brain, seed, width)[v] == SumSquares(seed, |seed|) / (|seed| as real)
    ensures Correlations(brain, seed, width)[v] >= 0.0
    ensures SumSquares(seed, |seed|) == |seed| as real ==> Correlations(brain, seed, width)[v] == 1.0
  {
    forall t | 0 <= t < |seed| ensures brain[t][v] == seed[t] {
      assert Column(brain, v)[t] == brain[t][v];
    }
    DotWithItself(brain, seed, v, |seed|);
    var tt := |seed| as real;
    var q := SumSquares(seed, |seed|);
    assert Correlations(brain, seed, width)[v] == q / tt;
    DivisionNonNegative(q, tt);
  }

  lemma DivisionNonNegative(q: real, d: real)
    requires q >= 0.0 && d > 0.0
    ensures q / d >= 0.0
    ensures q == d ==> q / d == 1.0
  {
  }

  // ---------------------------------------------------------------------
  // The provenance report
  // ---------------------------------------------------------------------

  /** The lines of the report after the confound names: an empty line, the
      band-pass frequencies and the four input files. */
  function ReportTail(files: Utils.SessionFiles): (lines: seq<string>)
    ensures |lines| == 7
  {
    ["", "lp_freq: 0.1", "hp_freq: 0.01",
     "confounds_file: " + files.confounds, "brainmask_file: " + files.brainmask,
     "rs_file: " + files.rs, "anat_file: " + files.anat]
  }

  /** The lines the report of a seed-based analysis begins with: a heading,
      one confound column name per line, then the tail. */
  function ReportLines(confounds: seq<string>, files: Utils.SessionFiles): (lines: seq<string>)
    ensures |lines| == |confounds| + 8
  {
    ["Confounds:"] + confounds + ReportTail(files)
  }

  predicate NoNewline(xs: seq<string>)
  {
    forall i :: 0 <= i < |xs| ==> '\n' !in xs[i]
  }

  /** Appending the next line of `all` keeps a report equal to the lines
      written so far, joined. */
  lemma AppendLine(report: string, all: seq<string>, k: nat)
    requires 1 <= k < |all| && report == Join(all[..k], "\n") + "\n"
    ensures report + all[k] + "\n" == Join(all[..k + 1], "\n") + "\n"
  {
    assert all[..k + 1] == all[..k] + [all[k]];
    JoinSnoc(all[..k], all[k], "\n");
  }

  /** The names as the report lists them: an empty list of names reads as
      one empty line. */
  function Listed(names: seq<string>): (r: seq<string>)
    ensures |r| >= 1
  {
    if |names| >= 1 then names else [""]
  }

  /** The report text as the two drivers build it with `+=`, up to and
      including the line of the anatomical file: its lines joined by
      newlines, and a final newline. */
  method ReportHeader(confounds: seq<string>, files: Utils.SessionFiles) returns (report: string)
    ensures report == Join(ReportLines(Listed(confounds), files), "\n") + "\n"
  {
    ghost var all := ReportLines(Listed(confounds), files);
    ghost var n := |Listed(confounds)|;
    report := Heading(confounds);
    ReportLinesParts(Listed(confounds), files);
    report := Continue(report, all, n + 2, "lp_freq: 0.1");
    report := Continue(report, all, n + 3, "hp_freq: 0.01");
    report := Continue(report, all, n + 4, "confounds_file: " + files.confounds);
    report := Continue(report, all, n + 5, "brainmask_file: " + files.brainmask);
    report := Continue(report, all, n + 6, "rs_file: " + files.rs);
    report := Continue(report, all, n + 7, "anat_file: " + files.anat);
    assert all[..n + 8] == all;
  }

  /** The heading, the confound names one per line, and an empty line. */
  method Heading(confounds: seq<string>) returns (report: string)
    ensures report == Join(["Confounds:"] + Listed(confounds) + [""], "\n") + "\n"
  {
    report := "Confounds:\n";
    report := report + Join(confounds, "\n") + "\n\n";
    assert Join(Listed(confounds), "\n") == Join(confounds, "\n");
    JoinAppend(["Confounds:"], Listed(confounds), "\n");
    JoinSnoc(["Confounds:"] + Listed(confounds), "", "\n");
  }

  lemma ReportLinesParts(names: seq<string>, files: Utils.SessionFiles)
    ensures var all := ReportLines(names, files);
      all[..|names| + 2] == ["Confounds:"] + names + [""] &&
      all[|names| + 2] == "lp_freq: 0.1" && all[|names| + 3] == "hp_freq: 0.01" &&
      all[|names| + 4] == "confounds_file: " + files.confounds &&
      all[|names| + 5] == "brainmask_file: " + files.brainmask &&
      all[|names| + 6] == "rs_file: " + files.rs && all[|names| + 7] == "anat_file: " + files.anat
  {
    var all := ReportLines(names, files);
    var tail := ReportTail(files);
    assert all[|names| + 1..] == tail;
    assert all[..|names| + 2] == ["Confounds:"] + names + [tail[0]];
  }

  /** `report += "{}\n".format(x)`, where `x` is the next line of `all`. */
  method Continue(report: string, ghost all: seq<string>, ghost k: nat, x: string) returns (r: string)
    requires 1 <= k < |all| && all[k] == x && report == Join(all[..k], "\n") + "\n"
    ensures r == Join(all[..k + 1], "\n") + "\n"
  {
    AppendLine(report, all, k);
    r := report + x + "\n";
  }

  /** Read back line by line, the report header gives its lines: the heading,
      the confound names in order, the frequencies and the files. */
  lemma ReportHeaderLines(confounds: seq<string>, files: Utils.SessionFiles)
    requires NoNewline(confounds) && NoNewline([files.confounds, files.brainmask, files.rs, files.anat])
    ensures Split(Join(ReportLines(confounds, files), "\n"), '\n') == ReportLines(confounds, files)
  {
    ReportTailNoNewline(files);
    NoNewlineConcat(["Confounds:"], confounds);
    NoNewlineConcat(["Confounds:"] + confounds, ReportTail(files));
    SplitJoin(ReportLines(confounds, files), '\n');
  }

  lemma NoNewlineConcat(a: seq<string>, b: seq<string>)
    requires NoNewline(a) && NoNewline(b)
    ensures NoNewline(a + b)
  {
    forall i | |a| <= i < |a + b| ensures '\n' !in (a + b)[i] {
      assert (a + b)[i] == b[i - |a|];
    }
  }

  lemma ReportTailNoNewline(files: Utils.SessionFiles)
    requires NoNewline([files.confounds, files.brainmask, files.rs, files.anat])
    ensures NoNewline(ReportTail(files))
  {
    var fs := [files.confounds, files.brainmask, files.rs, files.anat];
    assert fs[0] == files.confounds && fs[1] == files.brainmask && fs[2] == files.rs && fs[3] == files.anat;
    ConcatNoNewline("confounds_file: ", files.confounds);
    ConcatNoNewline("brainmask_file: ", files.brainmask);
    ConcatNoNewline("rs_file: ", files.rs);
    ConcatNoNewline("anat_file: ", files.anat);
  }

  lemma ConcatNoNewline(a: string, b: string)
    requires '\n' !in a && '\n' !in b
    ensures '\n' !in a + b
  {
  }

}
