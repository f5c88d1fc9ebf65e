/** conmats.py: the parcellation dispatch, the validated and labelled
    connectivity table, the provenance report of `extract_mat` and the
    per-session driver that recomputes only when an output is missing.

    The correlation matrix itself comes from a library (masker and
    ConnectivityMeasure) and is an input here, as are the fetched atlases,
    the rendering of the confound table as text (`to_string`) and the
    file system. */
module Conmats {
  import opened Common
  import opened Strings
  import opened Tables
  import Utils

  // ---------------------------------------------------------------------
  // _get_roi_info
  // ---------------------------------------------------------------------

  /** How the regions are given: probabilistic maps or an integer label
      volume. */
  datatype RoiType = Maps | Labels

  /** A region name: an integer label (BASC, Gordon) or a text label (MSDL). */
  datatype RoiName = Number(n: int) | Label(s: string)

  datatype RoiInfo = RoiInfo(roiFile: string, roiNames: seq<RoiName>, roiType: RoiType)

  /** What the dispatch reads from outside: the fetched MSDL and BASC atlases
      and the parcel identifiers of the Gordon spreadsheet. */
  datatype AtlasSources = AtlasSources(msdlMaps: string, msdlLabels: seq<string>,
                                       basc197: string, basc444: string, gordonParcelIds: seq<int>)

  const GordonDir: string := "/parcs/Gordon/Parcels"

  /** `np.arange(lo, hi)` as region names. */
  function NumberRange(lo: int, hi: int): (r: seq<RoiName>)
    requires lo <= hi
    ensures |r| == hi - lo && forall i :: 0 <= i < |r| ==> r[i] == Number(lo + i)
  {
    seq(hi - lo, i requires 0 <= i < hi - lo => Number(lo + i))
  }

  /** The atlas file, region names and region type of a parcellation
      scheme; an unknown scheme is an error. */
  function GetRoiInfo(parc: string, src: AtlasSources): (r: Result<RoiInfo>)
    ensures r.Err? <==> parc != "msdl" && parc != "gordon" && parc != "basc197" && parc != "basc444"
    ensures r.Err? ==> r.error == ParcellationUnknown(parc)
    ensures parc == "basc197" ==>
      (r.Ok? && r.value.roiType == Labels && r.value.roiFile == src.basc197 &&
       |r.value.roiNames| == 197 && forall i :: 0 <= i < 197 ==> r.value.roiNames[i] == Number(i + 1))
    ensures parc == "basc444" ==>
      (r.Ok? && r.value.roiType == Labels && r.value.roiFile == src.basc444 &&
       |r.value.roiNames| == 444 && forall i :: 0 <= i < 444 ==> r.value.roiNames[i] == Number(i + 1))
    ensures parc == "msdl" ==>
      (r.Ok? && r.value.roiType == Maps && r.value.roiFile == src.msdlMaps &&
       |r.value.roiNames| == |src.msdlLabels| &&
       forall i :: 0 <= i < |src.msdlLabels| ==> r.value.roiNames[i] == Label(src.msdlLabels[i]))
    ensures parc == "gordon" ==>
      (r.Ok? && r.value.roiType == Labels &&
       r.value.roiFile == PathJoin(GordonDir, "Parcels_MNI_111.nii") &&
       |r.value.roiNames| == |src.gordonParcelIds| &&
       forall i :: 0 <= i < |src.gordonParcelIds| ==> r.value.roiNames[i] == Number(src.gordonParcelIds[i]))
  {
    if parc == "msdl" then
      Ok(RoiInfo(src.msdlMaps,
        seq(|src.msdlLabels|, i requires 0 <= i < |src.msdlLabels| => Label(src.msdlLabels[i])), Maps))
    else if parc == "gordon" then
      Ok(RoiInfo(PathJoin(GordonDir, "Parcels_MNI_111.nii"),
        seq(|src.gordonParcelIds|, i requires 0 <= i < |src.gordonParcelIds| => Number(src.gordonParcelIds[i])),
        Labels))
    else if parc == "basc197" then Ok(RoiInfo(src.basc197, NumberRange(1, 198), Labels))
    else if parc == "basc444" then Ok(RoiInfo(src.basc444, NumberRange(1, 445), Labels))
    else Err(ParcellationUnknown(parc))
  }

  // ---------------------------------------------------------------------
  // _get_con_df
  // ---------------------------------------------------------------------

  function Abs(x: real): real
  {
    if x < 0.0 then -x else x
  }

  /** `numpy.isclose(a, b)` with its default tolerances (relative 1e-5,
      absolute 1e-8). */
  predicate Close(a: real, b: real)
  {
    Abs(a - b) <= 0.00000001 + 0.00001 * Abs(b)
  }

  predicate IsSquare(m: seq<seq<real>>)
  {
    forall i :: 0 <= i < |m| ==> |m[i]| == |m|
  }

  /** `numpy.allclose(m, m.T)` for a square matrix. */
  predicate CloseToTranspose(m: seq<seq<real>>)
    requires IsSquare(m)
  {
    forall i, j :: 0 <= i < |m| && 0 <= j < |m| ==> Close(m[i][j], m[j][i])
  }

  predicate Symmetric(m: seq<seq<real>>)
    requires IsSquare(m)
  {
    forall i, j :: 0 <= i < |m| && 0 <= j < |m| ==> m[i][j] == m[j][i]
  }

  /** `np.fill_diagonal(m, 0)` on a value. */
  function ZeroDiagonal(m: seq<seq<real>>): (z: seq<seq<real>>)
    requires IsSquare(m)
    ensures |z| == |m| && IsSquare(z)
  {
    seq(|m|, i requires 0 <= i < |m| => seq(|m|, j requires 0 <= j < |m| => if i == j then 0.0 else m[i][j]))
  }

  /** The caller's matrix after `_get_con_df`: its diagonal is zeroed once
      the symmetry check has passed, and it is left alone otherwise. */
  function AfterConDf(m: seq<seq<real>>): seq<seq<real>>
  {
    if IsSquare(m) && CloseToTranspose(m) then ZeroDiagonal(m) else m
  }

  /** A connectivity matrix as a table labelled on both axes. */
  datatype ConTable = ConTable(index: seq<RoiName>, columns: seq<RoiName>, values: seq<seq<real>>)

  /** What `_get_con_df` returns for a matrix with `rows` rows of cells:
      an error for a matrix that is not square or not close to its
      transpose, an error when the names do not match the side length,
      and otherwise the matrix with a zero diagonal labelled by the names. */
  function ConDf(m: seq<seq<real>>, roiNames: seq<RoiName>): (r: Result<ConTable>)
    ensures r == Err(NotSquare) <==> !IsSquare(m)
    ensures r == Err(NotSymmetric) <==> IsSquare(m) && !CloseToTranspose(m)
    ensures r == Err(ShapeMismatch) <==> IsSquare(m) && CloseToTranspose(m) && |roiNames| != |m|
    ensures r.Ok? <==> IsSquare(m) && CloseToTranspose(m) && |roiNames| == |m|
    ensures r.Ok? ==>
      (r.value.index == roiNames && r.value.columns == roiNames &&
       |r.value.values| == |m| && IsSquare(r.value.values))
  {
    if !IsSquare(m) then Err(NotSquare)
    else if !CloseToTranspose(m) then Err(NotSymmetric)
    else if |roiNames| != |m| then Err(ShapeMismatch)
    else Ok(ConTable(roiNames, roiNames, ZeroDiagonal(m)))
  }

  /** The labelled table has a zero diagonal and every other entry of the
      input, so a symmetric input gives a symmetric table and an input close
      to its transpose gives a table close to its transpose. */
  lemma ConDfValues(m: seq<seq<real>>, roiNames: seq<RoiName>)
    requires ConDf(m, roiNames).Ok?
    ensures var v := ConDf(m, roiNames).value.values;
      IsSquare(v) && |v| == |m| &&
      (forall i :: 0 <= i < |v| ==> v[i][i] == 0.0) &&
      (forall i, j :: 0 <= i < |v| && 0 <= j < |v| && i != j ==> v[i][j] == m[i][j]) &&
      CloseToTranspose(v) &&
      (Symmetric(m) ==> Symmetric(v))
  {
    var v := ConDf(m, roiNames).value.values;
    assert v == ZeroDiagonal(m);
    forall i, j | 0 <= i < |v| && 0 <= j < |v| ensures Close(v[i][j], v[j][i]) {
      if i == j {
        assert Abs(v[i][j] - v[j][i]) == 0.0;
      }
    }
  }

  /** The four-region matrix of the module's own test: a 4 by 4 table whose
      columns are the names and whose diagonal is zero. */
  lemma ConDfExample()
    ensures var m := [[1.0, 0.3, 0.7, 0.2], [0.3, 1.0, 0.6, 0.5], [0.7, 0.6, 1.0, 0.9], [0.2, 0.5, 0.9, 1.0]];
      var names := [Label("r1"), Label("r2"), Label("r3"), Label("r4")];
      ConDf(m, names) == Ok(ConTable(names, names,
        [[0.0, 0.3, 0.7, 0.2], [0.3, 0.0, 0.6, 0.5], [0.7, 0.6, 0.0, 0.9], [0.2, 0.5, 0.9, 0.0]]))
  {
    var m := [[1.0, 0.3, 0.7, 0.2], [0.3, 1.0, 0.6, 0.5], [0.7, 0.6, 1.0, 0.9], [0.2, 0.5, 0.9, 1.0]];
    assert IsSquare(m);
    assert Symmetric(m);
    assert CloseToTranspose(m) by {
      forall i, j | 0 <= i < 4 && 0 <= j < 4 ensures Close(m[i][j], m[j][i]) {
        assert m[i][j] - m[j][i] == 0.0;
      }
    }
    var z := ZeroDiagonal(m);
    var expected := [[0.0, 0.3, 0.7, 0.2], [0.3, 0.0, 0.6, 0.5], [0.7, 0.6, 0.0, 0.9], [0.2, 0.5, 0.9, 0.0]];
    forall i | 0 <= i < 4 ensures z[i] == expected[i] {
      assert |z[i]| == 4;
      forall j | 0 <= j < 4 ensures z[i][j] == expected[i][j] { }
    }
    assert z == expected;
  }

  /** The symmetry check `numpy.allclose(a, a.T)` on a square array. */
  method IsCloseToTranspose(a: array2<real>) returns (ok: bool)
    requires a.Length0 == a.Length1
    ensures ok == CloseToTranspose(Rows(a))
  {
    var n := a.Length0;
    ok := true;
    for i := 0 to n
      invariant ok == forall p, q :: 0 <= p < i && 0 <= q < n ==> Close(a[p, q], a[q, p])
    {
      for j := 0 to n
        invariant ok == forall p, q :: (0 <= p < i && 0 <= q < n) || (p == i && 0 <= q < j) ==>
          Close(a[p, q], a[q, p])
      {
        if !Close(a[i, j], a[j, i]) {
          ok := false;
        }
      }
    }
  }

  /** `_get_con_df`: rejects an array that is not square (numpy cannot
      compare it with its transpose) or a matrix that is not close to its transpose,
      then zeroes the diagonal of the caller's array in place, then labels
      rows and columns with the region names. The diagonal is zeroed before
      the names are checked, so a name list of the wrong length still
      leaves the array changed. */
  method GetConDf(rawMat: array2<real>, roiNames: seq<RoiName>) returns (r: Result<ConTable>)
    modifies rawMat
    ensures rawMat.Length0 != rawMat.Length1 ==> r == Err(NotSquare) && Rows(rawMat) == old(Rows(rawMat))
    ensures rawMat.Length0 == rawMat.Length1 ==> r == ConDf(old(Rows(rawMat)), roiNames)
    ensures Rows(rawMat) == AfterConDf(old(Rows(rawMat)))
  {
    ghost var m := Rows(rawMat);
    var n := rawMat.Length0;
    if rawMat.Length1 != n {
      assert n > 0 ==> |m[0]| != |m|;
      return Err(NotSquare);
    }
    assert IsSquare(m);
    var ok := IsCloseToTranspose(rawMat);
    if !ok {
      return Err(NotSymmetric);
    }
    for i := 0 to n
      invariant forall p, q :: 0 <= p < n && 0 <= q < n ==>
        rawMat[p, q] == if p == q && p < i then 0.0 else m[p][q]
    {
      rawMat[i, i] := 0.0;
    }
    forall i | 0 <= i < n ensures Rows(rawMat)[i] == ZeroDiagonal(m)[i] { }
    assert Rows(rawMat) == ZeroDiagonal(m);
    if |roiNames| != n {
      return Err(ShapeMismatch);
    }
    return Ok(ConTable(roiNames, roiNames, Rows(rawMat)));
  }

  // ---------------------------------------------------------------------
  // extract_mat: the report
  // ---------------------------------------------------------------------

  /** The masker parameters in the order the dictionary is written, with
      each value as `str.format` renders it. */
  const MaskerKeys: seq<string> := ["mask_img", "detrend", "standardize", "low_pass", "high_pass", "t_r"]

  function MaskerPars(brainmaskFile: string, tr: string): map<string, string>
  {
    map["mask_img" := brainmaskFile, "detrend" := "True", "standardize" := "True",
        "low_pass" := "0.1", "high_pass" := "0.01", "t_r" := tr]
  }

  /** Every parameter name has a value. */
  lemma MaskerParsDefined(brainmaskFile: string, tr: string)
    ensures forall k :: k in SortedMaskerKeys ==> k in MaskerPars(brainmaskFile, tr)
  {
    var pars := MaskerPars(brainmaskFile, tr);
    assert pars.Keys == {"mask_img", "detrend", "standardize", "low_pass", "high_pass", "t_r"};
  }

  /** The masker parameter names in ascending order. */
  const SortedMaskerKeys: seq<string> := ["detrend", "high_pass", "low_pass", "mask_img", "standardize", "t_r"]

  lemma SortedMaskerKeysSorted()
    ensures Sorted(SortedMaskerKeys)
  {
    var s := SortedMaskerKeys;
    assert LexLe(s[0], s[1]);
    assert LexLe(s[1], s[2]);
    assert LexLe(s[2], s[3]);
    assert LexLe(s[3], s[4]);
    assert LexLe(s[4], s[5]);
    AdjacentSorted(s);
  }

  lemma SortedMaskerKeysPermutation()
    ensures multiset(MaskerKeys) == multiset(SortedMaskerKeys)
  {
  }

  /** Sorting the dictionary's keys gives them in ascending order. */
  lemma SortMaskerKeys()
    ensures Sort(MaskerKeys) == SortedMaskerKeys
  {
    SortedMaskerKeysSorted();
    SortedMaskerKeysPermutation();
    SortedUnique(Sort(MaskerKeys), SortedMaskerKeys);
  }

  /** `keys = list(masker_pars.keys()); keys.sort()`. */
  method SortedKeys(pars: map<string, string>) returns (keys: seq<string>)
    requires pars.Keys == set k | k in MaskerKeys
    ensures keys == SortedMaskerKeys
  {
    keys := MaskerKeys;
    keys := Sort(keys);
    SortMaskerKeys();
  }

  /** `"{}\t{}\n".format(k, v)`. */
  function ParLine(k: string, v: string): string
  {
    k + "\t" + v + "\n"
  }

  /** One `key\tvalue` line per key, in the given order. */
  function ParLines(keys: seq<string>, pars: map<string, string>): string
    requires forall k :: k in keys ==> k in pars
    decreases |keys|
  {
    if keys == [] then ""
    else ParLines(keys[..|keys| - 1], pars) + ParLine(Last(keys), pars[Last(keys)])
  }

  /** The masker parameter lines in ascending name order. */
  function SortedParBlock(brainmaskFile: string, tr: string): string
  {
    ParLine("detrend", "True") + ParLine("high_pass", "0.01") + ParLine("low_pass", "0.1") +
    ParLine("mask_img", brainmaskFile) + ParLine("standardize", "True") + ParLine("t_r", tr)
  }

  /** The lines of two key lists one after the other are the lines of the
      first followed by those of the second. */
  lemma {:induction false} ParLinesConcat(a: seq<string>, b: seq<string>, pars: map<string, string>)
    requires forall k :: k in a ==> k in pars
    requires forall k :: k in b ==> k in pars
    ensures ParLines(a + b, pars) == ParLines(a, pars) + ParLines(b, pars)
    decreases |b|
  {
    if b == [] {
      assert a + b == a;
    } else {
      var front := b[..|b| - 1];
      var k := Last(b);
      assert (a + b)[..|a + b| - 1] == a + front;
      assert Last(a + b) == k;
      assert ParLines(a + b, pars) == ParLines(a + front, pars) + ParLine(k, pars[k]);
      assert ParLines(b, pars) == ParLines(front, pars) + ParLine(k, pars[k]);
      ParLinesConcat(a, front, pars);
    }
  }

  /** The sorted parameter names and their values, one by one. */
  lemma SortedMaskerValues(brainmaskFile: string, tr: string)
    ensures var p := MaskerPars(brainmaskFile, tr); var ks := SortedMaskerKeys;
      ks[0] in p && ks[1] in p && ks[2] in p && ks[3] in p && ks[4] in p && ks[5] in p &&
      ParLine(ks[0], p[ks[0]]) == ParLine("detrend", "True") &&
      ParLine(ks[1], p[ks[1]]) == ParLine("high_pass", "0.01") &&
      ParLine(ks[2], p[ks[2]]) == ParLine("low_pass", "0.1") &&
      ParLine(ks[3], p[ks[3]]) == ParLine("mask_img", brainmaskFile) &&
      ParLine(ks[4], p[ks[4]]) == ParLine("standardize", "True") &&
      ParLine(ks[5], p[ks[5]]) == ParLine("t_r", tr)
  {
  }

  /** The lines of a key list's first `i + 1` keys are those of its first
      `i` keys followed by the line of key `i`. */
  lemma ParLinesSnoc(keys: seq<string>, i: nat, pars: map<string, string>)
    requires i < |keys| && forall k :: k in keys ==> k in pars
    ensures ParLines(keys[..i + 1], pars) == ParLines(keys[..i], pars) + ParLine(keys[i], pars[keys[i]])
  {
    assert keys[..i + 1] == keys[..i] + [keys[i]];
    assert [keys[i]][..0] == [];
    ParLinesConcat(keys[..i], [keys[i]], pars);
  }

  /** The lines of six keys, one after the other. */
  lemma ParLinesOfSix(ks: seq<string>, pars: map<string, string>)
    requires |ks| == 6 && forall k :: k in ks ==> k in pars
    ensures ParLines(ks, pars) ==
      ParLine(ks[0], pars[ks[0]]) + ParLine(ks[1], pars[ks[1]]) + ParLine(ks[2], pars[ks[2]]) +
      ParLine(ks[3], pars[ks[3]]) + ParLine(ks[4], pars[ks[4]]) + ParLine(ks[5], pars[ks[5]])
  {
    var l0, l1, l2 := ParLine(ks[0], pars[ks[0]]), ParLine(ks[1], pars[ks[1]]), ParLine(ks[2], pars[ks[2]]);
    var l3, l4, l5 := ParLine(ks[3], pars[ks[3]]), ParLine(ks[4], pars[ks[4]]), ParLine(ks[5], pars[ks[5]]);
    assert ks[..0] == [];
    ParLinesSnoc(ks, 0, pars);
    assert ParLines(ks[..1], pars) == l0;
    ParLinesSnoc(ks, 1, pars);
    assert ParLines(ks[..2], pars) == l0 + l1;
    ParLinesSnoc(ks, 2, pars);
    assert ParLines(ks[..3], pars) == l0 + l1 + l2;
    ParLinesSnoc(ks, 3, pars);
    assert ParLines(ks[..4], pars) == l0 + l1 + l2 + l3;
    ParLinesSnoc(ks, 4, pars);
    assert ParLines(ks[..5], pars) == l0 + l1 + l2 + l3 + l4;
    ParLinesSnoc(ks, 5, pars);
    assert ks[..6] == ks;
  }

  /** The parameter block of the report, written out: one line per
      parameter, in ascending name order. */
  lemma SortedParLines(brainmaskFile: string, tr: string)
    ensures ParLines(SortedMaskerKeys, MaskerPars(brainmaskFile, tr)) == SortedParBlock(brainmaskFile, tr)
  {
    MaskerParsDefined(brainmaskFile, tr);
    SortedMaskerValues(brainmaskFile, tr);
    ParLinesOfSix(SortedMaskerKeys, MaskerPars(brainmaskFile, tr));
  }

  /** The loop of `extract_mat` that appends one line per key. */
  method AppendParLines(prefix: string, keys: seq<string>, pars: map<string, string>) returns (report: string)
    requires forall k :: k in keys ==> k in pars
    ensures report == prefix + ParLines(keys, pars)
  {
    report := prefix;
    for i := 0 to |keys|
      invariant report == prefix + ParLines(keys[..i], pars)
    {
      ParLinesSnoc(keys, i, pars);
      report := report + ParLine(keys[i], pars[keys[i]]);
    }
    assert keys[..|keys|] == keys;
  }

  /** The report of `extract_mat`: the input files, the masker parameters one
      per line in ascending name order, the confound column names joined by
      a comma and a space, and the confound table as text. */
  function MatReport(rsFile: string, roiFile: string, brainmaskFile: string, tr: string,
                     confoundColumns: seq<string>, confoundsText: string): string
  {
    "rs_file\t" + rsFile + "\n" + "roi_file\t" + roiFile + "\n" +
    ParLines(SortedMaskerKeys, MaskerPars(brainmaskFile, tr)) +
    "\n\n" + "confounds\t" + Join(confoundColumns, ", ") + "\n\n" + confoundsText
  }

  /** `extract_mat`'s report, built as the source builds it: the two file
      lines, then the dictionary's keys sorted and one line each, then the
      confound names and the table. */
  method ExtractMatReport(rsFile: string, roiFile: string, brainmaskFile: string, tr: string,
                          confoundColumns: seq<string>, confoundsText: string) returns (report: string)
    ensures report == MatReport(rsFile, roiFile, brainmaskFile, tr, confoundColumns, confoundsText)
  {
    var pars := MaskerPars(brainmaskFile, tr);
    var keys := SortedKeys(pars);
    MaskerParsDefined(brainmaskFile, tr);
    report := "rs_file\t" + rsFile + "\n";
    report := report + "roi_file\t" + roiFile + "\n";
    report := AppendParLines(report, keys, pars);
    report := report + "\n\n";
    report := report + "confounds\t" + Join(confoundColumns, ", ");
    report := report + "\n\n";
    report := report + confoundsText;
  }

  // ---------------------------------------------------------------------
  // conmat_one_session
  // ---------------------------------------------------------------------

  /** The three outputs of one session and parcellation: the table, its plot
      and the report. */
  function ConmatFiles(outputDir: string, subject: string, session: string, parc: string): (files: seq<string>)
    ensures |files| == 3
  {
    var dir := PathJoinAll(outputDir, ["sub-" + subject, "ses-" + session]);
    var stub := "sub-" + subject + "_ses-" + session;
    [PathJoin(dir, stub + "_parc-" + parc + "_conf-36P_conmat.tsv"),
     PathJoin(dir, stub + "_parc-" + parc + "_conf-36P_conmat.png"),
     PathJoin(dir, stub + "_parc-" + parc + "_conf-36P_report.txt")]
  }

  /** What `conmat_one_session` gathers before it computes anything: the
      session's input files, the parcellation and the 36P confound table. */
  datatype SessionInputs = SessionInputs(files: Utils.SessionFiles, roi: RoiInfo, confounds: Table)

  /** The first three steps of the recomputation, each of which can raise:
      `get_files`, `_get_roi_info` and `get_36P_confounds`, in that order. */
  function GatherInputs(subject: string, session: string, fmriprepDir: string, parc: string,
                        glob: string -> seq<string>, src: AtlasSources, readTable: string -> Table)
    : (r: Result<SessionInputs>)
    requires forall path :: WellFormed(readTable(path))
    ensures r.Ok? <==>
      (Utils.GetFiles(fmriprepDir, subject, session, glob).Ok? && GetRoiInfo(parc, src).Ok? &&
       Utils.Confounds36P(readTable(Utils.GetFiles(fmriprepDir, subject, session, glob).value.confounds)).Ok?)
    ensures r.Ok? ==>
      r.value.files == Utils.GetFiles(fmriprepDir, subject, session, glob).value &&
      r.value.roi == GetRoiInfo(parc, src).value &&
      r.value.confounds == Utils.Confounds36P(readTable(r.value.files.confounds)).value &&
      r.value.confounds.columns == Utils.Columns36
    ensures (r.Err? && r.error == ParcellationUnknown(parc)) <==>
      Utils.GetFiles(fmriprepDir, subject, session, glob).Ok? && GetRoiInfo(parc, src).Err?
  {
    var files :- Utils.GetFiles(fmriprepDir, subject, session, glob);
    var roi :- GetRoiInfo(parc, src);
    var confounds :- Utils.Confounds36P(readTable(files.confounds));
    Ok(SessionInputs(files, roi, confounds))
  }

  /** What the recomputation branch of `conmat_one_session` ends in, for a
      library correlation matrix `m` held in an array of `height` rows and
      `width` columns: the first failure among the gathering steps and
      `_get_con_df`; otherwise the table, the report and the plot are
      written, in that order, and the report is `extract_mat`'s. */
  function RecomputeOutcome(subject: string, session: string, fmriprepDir: string, outputDir: string,
                            tr: string, parc: string, glob: string -> seq<string>,
                            src: AtlasSources, readTable: string -> Table, render: Table -> string,
                            height: nat, width: nat, m: seq<seq<real>>): (r: Result<Plan>)
    requires forall path :: WellFormed(readTable(path))
    ensures var g := GatherInputs(subject, session, fmriprepDir, parc, glob, src, readTable);
      r.Ok? <==> g.Ok? && height == width && ConDf(m, g.value.roi.roiNames).Ok?
    ensures var g := GatherInputs(subject, session, fmriprepDir, parc, glob, src, readTable);
      g.Err? ==> r == Err(g.error)
    ensures var g := GatherInputs(subject, session, fmriprepDir, parc, glob, src, readTable);
      g.Ok? && height != width ==> r == Err(NotSquare)
    ensures var g := GatherInputs(subject, session, fmriprepDir, parc, glob, src, readTable);
      g.Ok? && height == width && r.Err? ==> r.error == ConDf(m, g.value.roi.roiNames).error
    ensures r.Ok? ==>
      var g := GatherInputs(subject, session, fmriprepDir, parc, glob, src, readTable).value;
      var files := ConmatFiles(outputDir, subject, session, parc);
      r.value == Computed([files[0], files[2], files[1]],
                          MatReport(g.files.rs, g.roi.roiFile, g.files.brainmask, tr,
                                    Utils.Columns36, render(g.confounds)))
  {
    var g := GatherInputs(subject, session, fmriprepDir, parc, glob, src, readTable);
    if g.Err? then Err(g.error)
    else if height != width then Err(NotSquare)
    else
      var table := ConDf(m, g.value.roi.roiNames);
      if table.Err? then Err(table.error)
      else
        var files := ConmatFiles(outputDir, subject, session, parc);
        Ok(Computed([files[0], files[2], files[1]],
                    MatReport(g.value.files.rs, g.value.roi.roiFile, g.value.files.brainmask, tr,
                              Utils.Columns36, render(g.value.confounds))))
  }

  /** The recomputation fails for an unknown parcellation exactly when the
      input files are found and the parcellation is not one of the known
      ones. */
  lemma RecomputeParcellationUnknown(subject: string, session: string, fmriprepDir: string, outputDir: string,
                                     tr: string, parc: string, glob: string -> seq<string>,
                                     src: AtlasSources, readTable: string -> Table, render: Table -> string,
                                     height: nat, width: nat, m: seq<seq<real>>)
    requires forall path :: WellFormed(readTable(path))
    ensures var r := RecomputeOutcome(subject, session, fmriprepDir, outputDir, tr, parc, glob, src, readTable,
                                      render, height, width, m);
      (r.Err? && r.error == ParcellationUnknown(parc)) <==>
      Utils.GetFiles(fmriprepDir, subject, session, glob).Ok? && GetRoiInfo(parc, src).Err?
  {
    var g := GatherInputs(subject, session, fmriprepDir, parc, glob, src, readTable);
    if g.Ok? && height == width {
      var t := ConDf(m, g.value.roi.roiNames);
      assert t.Err? ==> t.error == NotSquare || t.error == NotSymmetric || t.error == ShapeMismatch;
    }
  }

  /** The caller's matrix after the recomputation branch: `_get_con_df` has
      run on it exactly when the gathering steps succeeded. */
  function MatrixAfterRecompute(subject: string, session: string, fmriprepDir: string, parc: string,
                                glob: string -> seq<string>, src: AtlasSources, readTable: string -> Table,
                                m: seq<seq<real>>): seq<seq<real>>
    requires forall path :: WellFormed(readTable(path))
  {
    if GatherInputs(subject, session, fmriprepDir, parc, glob, src, readTable).Ok? then AfterConDf(m) else m
  }

  /** The recomputation branch of `conmat_one_session`: the inputs are
      gathered, the report assembled and the library's correlation matrix
      `conmat` validated, its diagonal zeroed in place and the result
      labelled; then the table, the report and the plot are written, in
      that order. Any failure on the way is returned and nothing is
      written. */
  method RecomputeSession(subject: string, session: string, fmriprepDir: string, outputDir: string,
                          tr: string, parc: string, glob: string -> seq<string>,
                          src: AtlasSources, readTable: string -> Table, render: Table -> string,
                          conmat: array2<real>)
    returns (r: Result<Plan>)
    requires forall path :: WellFormed(readTable(path))
    modifies conmat
    ensures r == RecomputeOutcome(subject, session, fmriprepDir, outputDir, tr, parc, glob, src, readTable,
                                  render, conmat.Length0, conmat.Length1, old(Rows(conmat)))
    ensures Rows(conmat) ==
      MatrixAfterRecompute(subject, session, fmriprepDir, parc, glob, src, readTable, old(Rows(conmat)))
  {
    var files := ConmatFiles(outputDir, subject, session, parc);
    var gathered := GatherInputs(subject, session, fmriprepDir, parc, glob, src, readTable);
    if gathered.Err? {
      return Err(gathered.error);
    }
    var report := ExtractMatReport(gathered.value.files.rs, gathered.value.roi.roiFile,
                                   gathered.value.files.brainmask, tr,
                                   gathered.value.confounds.columns, render(gathered.value.confounds));
    var table := GetConDf(conmat, gathered.value.roi.roiNames);
    if table.Err? {
      return Err(table.error);
    }
    return Ok(Computed([files[0], files[2], files[1]], report));
  }

  /** One session: nothing happens when all three outputs exist; otherwise
      the session is recomputed, with RecomputeOutcome's result and effect
      on the caller's matrix. */
  method ConmatOneSession(subject: string, session: string, fmriprepDir: string, outputDir: string,
                          tr: string, parc: string, existing: set<string>, glob: string -> seq<string>,
                          src: AtlasSources, readTable: string -> Table, render: Table -> string,
                          conmat: array2<real>)
    returns (r: Result<Plan>)
    requires forall path :: WellFormed(readTable(path))
    modifies conmat
    ensures AllPresent(existing, ConmatFiles(outputDir, subject, session, parc)) ==>
      r == Ok(AlreadyComputed) && Rows(conmat) == old(Rows(conmat))
    ensures !AllPresent(existing, ConmatFiles(outputDir, subject, session, parc)) ==>
      r == RecomputeOutcome(subject, session, fmriprepDir, outputDir, tr, parc, glob, src, readTable,
                            render, conmat.Length0, conmat.Length1, old(Rows(conmat))) &&
      Rows(conmat) ==
        MatrixAfterRecompute(subject, session, fmriprepDir, parc, glob, src, readTable, old(Rows(conmat)))
    ensures (r.Err? && r.error == ParcellationUnknown(parc)) <==>
      !AllPresent(existing, ConmatFiles(outputDir, subject, session, parc)) &&
      Utils.GetFiles(fmriprepDir, subject, session, glob).Ok? && GetRoiInfo(parc, src).Err?
  {
    var files := ConmatFiles(outputDir, subject, session, parc);
    if AllPresent(existing, files) {
      return Ok(AlreadyComputed);
    }
    r := RecomputeSession(subject, session, fmriprepDir, outputDir, tr, parc, glob, src, readTable, render, conmat);
    RecomputeParcellationUnknown(subject, session, fmriprepDir, outputDir, tr, parc, glob, src, readTable,
                                 render, conmat.Length0, conmat.Length1, old(Rows(conmat)));
  }
}
