/** utils.py: the 36-parameter confound table, the "exactly one file
    matches" rule, the per-session input files and the discovery of
    subjects and sessions in a BIDS-like directory tree.

    The file system is a parameter: `glob(pattern)` is the list that
    Python's `glob` returns for a pattern (in the directory the code has
    changed into) and `isDir(path)` is `os.path.isdir`. */
module Utils {
  import opened Common
  import opened Strings
  import opened Tables

  // ---------------------------------------------------------------------
  // get_36P_confounds
  // ---------------------------------------------------------------------

  /** The nine base regressors, in the order the 36P table uses them:
      tissue signals, then translations, then rotations. */
  const BaseColumns: seq<string> :=
    ["CSF", "WhiteMatter", "GlobalSignal", "X", "Y", "Z", "RotX", "RotY", "RotZ"]

  /** `[c + suffix for c in names]`. */
  function Suffixed(names: seq<string>, suffix: string): (r: seq<string>)
    ensures |r| == |names|
    ensures forall i :: 0 <= i < |names| ==> r[i] == names[i] + suffix
  {
    seq(|names|, i requires 0 <= i < |names| => names[i] + suffix)
  }

  /** `rows.diff().fillna(0)`: the change from the previous timepoint, with
      the undefined first row set to zero. */
  function Differences(rows: seq<seq<real>>, width: nat): (d: seq<seq<real>>)
    requires Shaped(rows, width)
    ensures |d| == |rows| && Shaped(d, width)
  {
    seq(|rows|, t requires 0 <= t < |rows| =>
      seq(width, j requires 0 <= j < width => if t == 0 then 0.0 else rows[t][j] - rows[t - 1][j]))
  }

  /** `pd.concat((a, b), axis=1)` on the cells: each row of `a` followed by
      the same row of `b`. */
  function Beside(a: seq<seq<real>>, b: seq<seq<real>>): (r: seq<seq<real>>)
    requires |a| == |b|
    ensures |r| == |a|
    ensures forall m: nat, n: nat :: Shaped(a, m) && Shaped(b, n) ==> Shaped(r, m + n)
  {
    seq(|a|, t requires 0 <= t < |a| => a[t] + b[t])
  }

  function Sq(x: real): real
  {
    x * x
  }

  lemma SqNonNegative(x: real)
    ensures Sq(x) >= 0.0
  {
    if x < 0.0 { assert Sq(x) == (-x) * (-x); }
  }

  /** `rows ** 2`. */
  function Squared(rows: seq<seq<real>>): (r: seq<seq<real>>)
    ensures |r| == |rows|
    ensures forall n: nat :: Shaped(rows, n) ==> Shaped(r, n)
  {
    seq(|rows|, t requires 0 <= t < |rows| =>
      seq(|rows[t]|, j requires 0 <= j < |rows[t]| => Sq(rows[t][j])))
  }

  /** The names of the 36P columns: the base names, the same with `_der`,
      and those eighteen with `_2`. */
  const Columns18: seq<string> := BaseColumns + Suffixed(BaseColumns, "_der")
  const Columns36: seq<string> := Columns18 + Suffixed(Columns18, "_2")

  /** Column `j` of the 36P table is named after a base column, or after an
      earlier column with a fixed suffix. */
  lemma Columns36Names(j: nat)
    requires j < 36
    ensures |Columns36| == 36
    ensures j < 9 ==> Columns36[j] == BaseColumns[j]
    ensures 9 <= j < 18 ==> Columns36[j] == BaseColumns[j - 9] + "_der"
    ensures 18 <= j ==> Columns36[j] == Columns36[j - 18] + "_2"
  {
    assert |Columns18| == 18;
    if j < 18 {
      assert Columns36[j] == Columns18[j];
    } else {
      assert Columns36[j] == Suffixed(Columns18, "_2")[j - 18];
      assert Columns36[j - 18] == Columns18[j - 18];
    }
  }

  /** Satterthwaite's 36-parameter confound table built from a raw fMRIPrep
      confound table: the nine base columns, their first differences (zero
      at the first timepoint), and the squares of those eighteen, in that
      order and with the suffixes `_der` and `_2`. A raw table without one
      of the base columns raises pandas' KeyError. The cells are described
      by `Confounds36PBase`, `Confounds36PDerivative`, `Confounds36PSquare` and the names by `Columns36Names`. */
  function Confounds36P(raw: Table): (r: Result<Table>)
    requires WellFormed(raw)
    ensures r.Err? <==> exists j :: 0 <= j < |BaseColumns| && BaseColumns[j] !in raw.columns
    ensures r.Err? ==> r.error == MissingColumns(Missing(raw.columns, BaseColumns))
    ensures r.Ok? ==> |r.value.columns| == 36 && |r.value.rows| == |raw.rows| && Shaped(r.value.rows, 36)
    ensures r.Ok? ==> r.value.columns == Columns36
  {
    var p9 :- Select(raw, BaseColumns);
    assert p9.columns + Suffixed(p9.columns, "_der") == Columns18;
    Ok(Table(Columns36, Build36(p9.rows)))
  }

  /** The cells of the 36P table from those of the nine base columns: the
      base values, `diff().fillna(0)` of them beside, and the squares of
      those eighteen beside again. */
  function Build36(p9: seq<seq<real>>): (r: seq<seq<real>>)
    requires Shaped(p9, 9)
    ensures |r| == |p9| && Shaped(r, 36)
  {
    var p18 := Beside(p9, Differences(p9, 9));
    Beside(p18, Squared(p18))
  }

  lemma Build36Cell(p9: seq<seq<real>>, t: nat, j: nat)
    requires Shaped(p9, 9) && t < |p9| && j < 36
    ensures var out := Build36(p9);
      (j < 9 ==> out[t][j] == p9[t][j]) &&
      (9 <= j < 18 && t == 0 ==> out[t][j] == 0.0) &&
      (9 <= j < 18 && t > 0 ==> out[t][j] == out[t][j - 9] - out[t - 1][j - 9]) &&
      (18 <= j ==> out[t][j] == Sq(out[t][j - 18]))
  {
    var p18 := Beside(p9, Differences(p9, 9));
    assert Shaped(p18, 18);
    var out := Build36(p9);
    assert out[t] == p18[t] + Squared(p18)[t];
    if j < 18 {
      assert out[t][j] == p18[t][j];
      if j >= 9 && t > 0 {
        assert out[t - 1] == p18[t - 1] + Squared(p18)[t - 1];
        assert out[t - 1][j - 9] == p18[t - 1][j - 9] == p9[t - 1][j - 9];
      }
    } else {
      assert out[t][j] == Squared(p18)[t][j - 18];
      assert out[t][j - 18] == p18[t][j - 18];
    }
  }

  /** The 36P cells are `Build36` of the selected base columns. */
  lemma Confounds36PRows(raw: Table) returns (p9: seq<seq<real>>)
    requires WellFormed(raw) && Confounds36P(raw).Ok?
    ensures Shaped(p9, 9) && |p9| == |raw.rows|
    ensures Confounds36P(raw).value.rows == Build36(p9)
    ensures forall t, j :: 0 <= t < |raw.rows| && 0 <= j < 9 ==>
      p9[t][j] == raw.rows[t][IndexOf(raw.columns, BaseColumns[j])]
  {
    var sel := Select(raw, BaseColumns);
    p9 := sel.value.rows;
  }

  /** Columns 1 to 9 of the 36P table are the base columns of the raw table,
      values unchanged. */
  lemma Confounds36PBase(raw: Table, t: nat, j: nat)
    requires WellFormed(raw) && Confounds36P(raw).Ok?
    requires t < |raw.rows| && j < 9
    ensures Confounds36P(raw).value.rows[t][j] == raw.rows[t][IndexOf(raw.columns, BaseColumns[j])]
  {
    var p9 := Confounds36PRows(raw);
    Build36Cell(p9, t, j);
  }

  /** Columns 10 to 18 of the 36P table are the change of columns 1 to 9
      since the previous timepoint, and zero at the first timepoint. */
  lemma Confounds36PDerivative(raw: Table, t: nat, j: nat)
    requires WellFormed(raw) && Confounds36P(raw).Ok?
    requires t < |raw.rows| && 9 <= j < 18
    ensures var out := Confounds36P(raw).value.rows;
      if t == 0 then out[t][j] == 0.0 else out[t][j] == out[t][j - 9] - out[t - 1][j - 9]
  {
    var p9 := Confounds36PRows(raw);
    Build36Cell(p9, t, j);
  }

  /** Columns 19 to 36 of the 36P table are the squares of columns 1 to 18,
      in the same order. */
  lemma Confounds36PSquare(raw: Table, t: nat, j: nat)
    requires WellFormed(raw) && Confounds36P(raw).Ok?
    requires t < |raw.rows| && 18 <= j < 36
    ensures var out := Confounds36P(raw).value.rows; out[t][j] == Sq(out[t][j - 18])
  {
    var p9 := Confounds36PRows(raw);
    Build36Cell(p9, t, j);
  }

  /** Columns 19 to 36 of the 36P table are squares, so never negative. */
  lemma SquareColumnsNonNegative(raw: Table, t: nat, k: nat)
    requires WellFormed(raw) && Confounds36P(raw).Ok?
    requires t < |raw.rows| && 18 <= k < 36
    ensures Confounds36P(raw).value.rows[t][k] >= 0.0
  {
    Confounds36PSquare(raw, t, k);
    SqNonNegative(Confounds36P(raw).value.rows[t][k - 18]);
  }

  // ---------------------------------------------------------------------
  // check_and_return_path and get_files
  // ---------------------------------------------------------------------

  /** The single file that matches `searchStr`; no match or several matches
      is an error that reports the pattern and what was found. */
  function CheckAndReturnPath(searchStr: string, glob: string -> seq<string>): (r: Result<string>)
    ensures r.Ok? <==> |glob(searchStr)| == 1
    ensures r.Ok? ==> glob(searchStr) == [r.value]
    ensures r.Err? ==> r.error == GlobNotUnique(searchStr, glob(searchStr))
  {
    var l := glob(searchStr);
    if |l| != 1 then Err(GlobNotUnique(searchStr, l)) else Ok(l[0])
  }

  datatype SessionFiles = SessionFiles(confounds: string, brainmask: string, rs: string, anat: string)

  const ConfoundsPattern := "sub-*_task-rest_run-1_bold_confounds.tsv"
  const BrainmaskPattern := "sub-*_task-rest_run-1_bold_space-MNI152NLin2009cAsym_brainmask.nii.gz"
  const PreprocPattern := "sub-*_task-rest_run-1_bold_space-MNI152NLin2009cAsym_preproc.nii.gz"
  const AnatPattern := "sub-*_T1w_space-MNI152NLin2009cAsym_preproc.nii.gz"

  function SubjectDir(fmriprepDir: string, subject: string): string
  {
    PathJoin(fmriprepDir, "sub-" + subject)
  }

  function SessionDir(fmriprepDir: string, subject: string, session: string): string
  {
    PathJoin(SubjectDir(fmriprepDir, subject), "ses-" + session)
  }

  /** The glob pattern for one input file of a session. */
  function FuncPattern(fmriprepDir: string, subject: string, session: string, name: string): string
  {
    PathJoinAll(SessionDir(fmriprepDir, subject, session), ["func", name])
  }

  /** The four inputs of a session, each required to match exactly once.
      The structural image is looked for under the subject first and, when
      that lookup fails, under the session. */
  function GetFiles(fmriprepDir: string, subject: string, session: string,
                    glob: string -> seq<string>): (r: Result<SessionFiles>)
    ensures var subjAnat := PathJoinAll(SubjectDir(fmriprepDir, subject), ["anat", AnatPattern]);
      var sesAnat := PathJoinAll(SessionDir(fmriprepDir, subject, session), ["anat", AnatPattern]);
      (r.Ok? <==>
        |glob(FuncPattern(fmriprepDir, subject, session, ConfoundsPattern))| == 1 &&
        |glob(FuncPattern(fmriprepDir, subject, session, BrainmaskPattern))| == 1 &&
        |glob(FuncPattern(fmriprepDir, subject, session, PreprocPattern))| == 1 &&
        (|glob(subjAnat)| == 1 || |glob(sesAnat)| == 1)) &&
      (r.Ok? ==>
        glob(FuncPattern(fmriprepDir, subject, session, ConfoundsPattern)) == [r.value.confounds] &&
        glob(FuncPattern(fmriprepDir, subject, session, BrainmaskPattern)) == [r.value.brainmask] &&
        glob(FuncPattern(fmriprepDir, subject, session, PreprocPattern)) == [r.value.rs] &&
        (if |glob(subjAnat)| == 1 then glob(subjAnat) == [r.value.anat] else glob(sesAnat) == [r.value.anat]))
    ensures r.Err? ==> r.error.GlobNotUnique?
  {
    var confounds :- CheckAndReturnPath(FuncPattern(fmriprepDir, subject, session, ConfoundsPattern), glob);
    var brainmask :- CheckAndReturnPath(FuncPattern(fmriprepDir, subject, session, BrainmaskPattern), glob);
    var rs :- CheckAndReturnPath(FuncPattern(fmriprepDir, subject, session, PreprocPattern), glob);
    var subjAnat := CheckAndReturnPath(PathJoinAll(SubjectDir(fmriprepDir, subject), ["anat", AnatPattern]), glob);
    var anat :- if subjAnat.Ok? then subjAnat
                else CheckAndReturnPath(PathJoinAll(SessionDir(fmriprepDir, subject, session), ["anat", AnatPattern]), glob);
    Ok(SessionFiles(confounds, brainmask, rs, anat))
  }

  // ---------------------------------------------------------------------
  // get_subject_sessions
  // ---------------------------------------------------------------------

  function Flatten<T>(xss: seq<seq<T>>): seq<T>
    decreases |xss|
  {
    if xss == [] then [] else xss[0] + Flatten(xss[1..])
  }

  /** The subject directories found: one glob per requested label, chained,
      or every `sub-*` entry when no label is given. */
  function SubjectMatches(participantLabel: seq<string>, glob: string -> seq<string>): seq<string>
  {
    if |participantLabel| > 0 then
      Flatten(seq(|participantLabel|, i requires 0 <= i < |participantLabel| => glob("sub-" + participantLabel[i])))
    else glob("sub-*")
  }

  /** Not an `.html` report. */
  predicate NotHtml(name: string)
  {
    !EndsWith(name, ".html")
  }

  /** The found names without the `.html` reports, in order. */
  function WithoutHtml(names: seq<string>): (r: seq<string>)
    ensures forall x :: x in r <==> x in names && !EndsWith(x, ".html")
  {
    var r := Keep(names, NotHtml);
    assert forall x :: x in r <==> x in names && !EndsWith(x, ".html") by {
      forall x ensures x in r <==> x in names && !EndsWith(x, ".html") {
        KeepMember(names, NotHtml, x);
      }
    }
    r
  }

  /** `s.split("-")[-1]`: what follows the last `-`, or the whole of `s`
      when it has none. */
  function IdOf(s: string): (id: string)
    ensures EndsWith(s, id) && '-' !in id
    ensures |id| < |s| ==> s[|s| - |id| - 1] == '-'
    ensures |id| == |s| ==> '-' !in s
  {
    SplitLastIsSuffix(s, '-');
    Last(Split(s, '-'))
  }

  function IdsOf(names: seq<string>): (r: seq<string>)
    ensures |r| == |names| && forall i :: 0 <= i < |names| ==> r[i] == IdOf(names[i])
  {
    seq(|names|, i requires 0 <= i < |names| => IdOf(names[i]))
  }

  /** The subject identifiers before sorting. */
  function SubjectIds(participantLabel: seq<string>, glob: string -> seq<string>): seq<string>
  {
    IdsOf(WithoutHtml(SubjectMatches(participantLabel, glob)))
  }

  function SessionGlob(subject: string): string
  {
    "sub-" + subject + "/ses-*"
  }

  /** The (subject, session) pairs of one subject: its session directories in
      sorted order, each reduced to the text after its last `-`. */
  function SessionsOf(subject: string, glob: string -> seq<string>): (r: seq<(string, string)>)
    ensures forall p :: p in r <==> p.0 == subject && p.1 in IdsOf(glob(SessionGlob(subject)))
  {
    var paths := Sort(glob(SessionGlob(subject)));
    var r := seq(|paths|, k requires 0 <= k < |paths| => (subject, IdOf(paths[k])));
    assert forall p :: p in r <==> p.0 == subject && p.1 in IdsOf(glob(SessionGlob(subject))) by {
      forall p ensures p in r <==> p.0 == subject && p.1 in IdsOf(glob(SessionGlob(subject))) {
        var g := glob(SessionGlob(subject));
        if p in r {
          var k :| 0 <= k < |r| && r[k] == p;
          assert paths[k] in multiset(paths);
          assert paths[k] in multiset(g);
          var m :| 0 <= m < |g| && g[m] == paths[k];
          assert IdsOf(g)[m] == p.1;
        }
        if p.0 == subject && p.1 in IdsOf(g) {
          var m :| 0 <= m < |g| && IdsOf(g)[m] == p.1;
          assert g[m] in multiset(g);
          assert g[m] in multiset(paths);
          var k :| 0 <= k < |paths| && paths[k] == g[m];
          assert r[k] == p;
        }
      }
    }
    r
  }

  /** The `ses-*` entries of a subject, each `ses-` followed by an id
      without a further `-`. */
  predicate PlainSessionNames(subject: string, found: seq<string>)
  {
    forall k :: 0 <= k < |found| ==>
      StartsWith(found[k], SessionGlob(subject)[..|SessionGlob(subject)| - 1]) &&
      '-' !in found[k][|SessionGlob(subject)| - 1..]
  }

  /** With plain session names, a subject's sessions come out in ascending
      order of their ids. */
  lemma SessionsOfSorted(subject: string, glob: string -> seq<string>)
    requires PlainSessionNames(subject, glob(SessionGlob(subject)))
    ensures var r := SessionsOf(subject, glob);
      forall i, j :: 0 <= i < j < |r| ==> LexLe(r[i].1, r[j].1)
  {
    var g := glob(SessionGlob(subject));
    var pre := SessionGlob(subject)[..|SessionGlob(subject)| - 1];
    assert pre == "sub-" + subject + "/ses-";
    var head := pre[..|pre| - 1];
    assert pre == head + ['-'];
    var paths := Sort(g);
    IdsAscending(pre, head, paths, g);
    SessionsOfAt(subject, glob);
  }

  /** The pair at position `k` comes from the `k`-th sorted session path. */
  lemma SessionsOfAt(subject: string, glob: string -> seq<string>)
    ensures var r := SessionsOf(subject, glob); var paths := Sort(glob(SessionGlob(subject)));
      |r| == |paths| && forall k :: 0 <= k < |r| ==> r[k].1 == IdOf(paths[k])
  {
  }

  /** The ids of sorted paths that share a prefix ending in `-` are sorted. */
  lemma IdsAscending(pre: string, head: string, paths: seq<string>, g: seq<string>)
    requires pre == head + ['-'] && Sorted(paths) && multiset(paths) == multiset(g)
    requires forall k :: 0 <= k < |g| ==> StartsWith(g[k], pre) && '-' !in g[k][|pre|..]
    ensures forall i, j :: 0 <= i < j < |paths| ==> LexLe(IdOf(paths[i]), IdOf(paths[j]))
  {
    forall i, j | 0 <= i < j < |paths| ensures LexLe(IdOf(paths[i]), IdOf(paths[j])) {
      IdOfPlain(pre, head, paths, g, i);
      IdOfPlain(pre, head, paths, g, j);
      assert paths[i] == pre + paths[i][|pre|..] && paths[j] == pre + paths[j][|pre|..];
      LexLeDropPrefix(pre, paths[i][|pre|..], paths[j][|pre|..]);
    }
  }

  /** Such a path's id is what follows the prefix. */
  lemma IdOfPlain(pre: string, head: string, paths: seq<string>, g: seq<string>, i: nat)
    requires pre == head + ['-'] && i < |paths| && multiset(paths) == multiset(g)
    requires forall k :: 0 <= k < |g| ==> StartsWith(g[k], pre) && '-' !in g[k][|pre|..]
    ensures StartsWith(paths[i], pre) && IdOf(paths[i]) == paths[i][|pre|..]
  {
    assert paths[i] in multiset(g);
    var m :| 0 <= m < |g| && g[m] == paths[i];
    var x := paths[i];
    assert x == head + ['-'] + x[|pre|..];
    LastPieceAfter(head, x[|pre|..], '-');
  }

  /** The pairs of all the given subjects, subject after subject. */
  function AllSessions(subjects: seq<string>, glob: string -> seq<string>): seq<(string, string)>
    decreases |subjects|
  {
    if subjects == [] then []
    else AllSessions(subjects[..|subjects| - 1], glob) + SessionsOf(Last(subjects), glob)
  }

  lemma {:induction false} AllSessionsMember(subjects: seq<string>, glob: string -> seq<string>, p: (string, string))
    ensures p in AllSessions(subjects, glob) <==> p.0 in subjects && p.1 in IdsOf(glob(SessionGlob(p.0)))
    decreases |subjects|
  {
    if subjects != [] {
      var init := subjects[..|subjects| - 1];
      AllSessionsMember(init, glob, p);
      assert subjects == init + [Last(subjects)];
    }
  }

  /** Every pair of the chained list belongs to one of the subjects. */
  lemma AllSessionsSubject(subjects: seq<string>, glob: string -> seq<string>, p: (string, string))
    requires p in AllSessions(subjects, glob)
    ensures exists k :: 0 <= k < |subjects| && subjects[k] == p.0
  {
    AllSessionsMember(subjects, glob, p);
  }

  /** Every pair of one subject's list carries that subject. */
  lemma SessionsOfSubject(subject: string, glob: string -> seq<string>, p: (string, string))
    requires p in SessionsOf(subject, glob)
    ensures p.0 == subject
  {
  }

  /** Pairs ordered by subject: every pair's subject is at most the subject
      of the pairs after it. */
  predicate GroupedBySubject(pairs: seq<(string, string)>)
  {
    forall i, j :: 0 <= i < j < |pairs| ==> LexLe(pairs[i].0, pairs[j].0)
  }

  lemma {:induction false} AllSessionsGrouped(subjects: seq<string>, glob: string -> seq<string>)
    requires Sorted(subjects)
    ensures GroupedBySubject(AllSessions(subjects, glob))
    decreases |subjects|
  {
    if subjects != [] {
      var init := subjects[..|subjects| - 1];
      var last := Last(subjects);
      assert Sorted(init);
      AllSessionsGrouped(init, glob);
      var a := AllSessions(init, glob);
      var b := SessionsOf(last, glob);
      var all := a + b;
      forall i, j | 0 <= i < j < |all| ensures LexLe(all[i].0, all[j].0) {
        if j < |a| {
          assert all[i] == a[i] && all[j] == a[j];
        } else if i < |a| {
          assert all[i] in a;
          AllSessionsSubject(init, glob, all[i]);
          var k :| 0 <= k < |init| && init[k] == all[i].0;
          assert all[j] in b;
          SessionsOfSubject(last, glob, all[j]);
          assert subjects[k] == init[k] && subjects[|subjects| - 1] == last;
        } else {
          assert all[i] in b && all[j] in b;
          LexLeReflexive(last);
        }
      }
    }
  }

  /** For distinct subjects whose session entries are plain, each subject's
      sessions ascend in the chained list. */
  lemma {:induction false} AllSessionsAscending(subjects: seq<string>, glob: string -> seq<string>)
    requires NoDuplicates(subjects)
    requires forall s :: s in subjects ==> PlainSessionNames(s, glob(SessionGlob(s)))
    ensures SessionsAscending(AllSessions(subjects, glob))
    decreases |subjects|
  {
    if subjects != [] {
      var init := subjects[..|subjects| - 1];
      var last := Last(subjects);
      assert subjects == init + [last];
      AllSessionsAscending(init, glob);
      SessionsOfSorted(last, glob);
      var a := AllSessions(init, glob);
      var b := SessionsOf(last, glob);
      forall i | 0 <= i < |a| ensures a[i].0 != last {
        assert a[i] in a;
        AllSessionsSubject(init, glob, a[i]);
        var k :| 0 <= k < |init| && init[k] == a[i].0;
        assert subjects[k] == init[k] && subjects[|subjects| - 1] == last;
      }
      forall i | 0 <= i < |b| ensures b[i].0 == last {
        assert b[i] in b;
        SessionsOfSubject(last, glob, b[i]);
      }
      AscendingAppend(a, b, last);
    }
  }

  /** Appending one further subject's ascending sessions keeps every
      subject's sessions ascending. */
  lemma AscendingAppend(a: seq<(string, string)>, b: seq<(string, string)>, subject: string)
    requires SessionsAscending(a)
    requires forall i :: 0 <= i < |a| ==> a[i].0 != subject
    requires forall i :: 0 <= i < |b| ==> b[i].0 == subject
    requires forall i, j :: 0 <= i < j < |b| ==> LexLe(b[i].1, b[j].1)
    ensures SessionsAscending(a + b)
  {
    var all := a + b;
    forall i, j | 0 <= i < j < |all| ensures all[i].0 == all[j].0 ==> LexLe(all[i].1, all[j].1) {
      if j < |a| {
        assert all[i] == a[i] && all[j] == a[j];
      } else if i < |a| {
        assert all[i] == a[i] && all[j] == b[j - |a|];
      } else {
        assert all[i] == b[i - |a|] && all[j] == b[j - |a|];
      }
    }
  }

  /** `os.path.join(input_dir, "sub-" + s, "ses-" + e, "func")`. */
  function FuncDir(inputDir: string, p: (string, string)): string
  {
    PathJoinAll(inputDir, ["sub-" + p.0, "ses-" + p.1, "func"])
  }

  /** Filtering keeps the order, so pairs grouped by subject stay grouped. */
  lemma FilterGrouped(pairs: seq<(string, string)>, keep: ((string, string)) -> bool)
    requires GroupedBySubject(pairs)
    ensures GroupedBySubject(Keep(pairs, keep))
  {
    KeepPairwise(pairs, keep, (a: (string, string), b: (string, string)) => LexLe(a.0, b.0));
  }

  /** Within each subject, sessions in ascending id order. */
  predicate SessionsAscending(pairs: seq<(string, string)>)
  {
    forall i, j :: 0 <= i < j < |pairs| && pairs[i].0 == pairs[j].0 ==> LexLe(pairs[i].1, pairs[j].1)
  }

  /** Filtering keeps the order, so each subject's sessions stay ascending. */
  lemma FilterAscending(pairs: seq<(string, string)>, keep: ((string, string)) -> bool)
    requires SessionsAscending(pairs)
    ensures SessionsAscending(Keep(pairs, keep))
  {
    KeepPairwise(pairs, keep, (a: (string, string), b: (string, string)) => a.0 == b.0 ==> LexLe(a.1, b.1));
  }

  /** The pairs whose session has a `func` directory, in order. */
  function WithFunc(pairs: seq<(string, string)>, inputDir: string, isDir: string -> bool): (r: seq<(string, string)>)
    ensures |r| <= |pairs|
  {
    Keep(pairs, p => isDir(FuncDir(inputDir, p)))
  }

  /** Some found subject has a session that survives the `func` filter. */
  predicate HasSession(ids: seq<string>, glob: string -> seq<string>, fmriprepDir: bool,
                       inputDir: string, isDir: string -> bool)
  {
    exists s, e :: s in ids && e in IdsOf(glob(SessionGlob(s))) &&
      (fmriprepDir ==> isDir(FuncDir(inputDir, (s, e))))
  }

  /** The pairs of the given subjects, filtered when `fmriprepDir` is set. */
  function Pairs(subjects: seq<string>, glob: string -> seq<string>, fmriprepDir: bool,
                 inputDir: string, isDir: string -> bool): seq<(string, string)>
  {
    var all := AllSessions(subjects, glob);
    if fmriprepDir then WithFunc(all, inputDir, isDir) else all
  }

  /** The pairs hold exactly the sessions found for the subjects that pass
      the `func` filter. */
  lemma PairsMember(subjects: seq<string>, glob: string -> seq<string>, fmriprepDir: bool,
                    inputDir: string, isDir: string -> bool, p: (string, string))
    ensures p in Pairs(subjects, glob, fmriprepDir, inputDir, isDir) <==>
      (p.0 in subjects && p.1 in IdsOf(glob(SessionGlob(p.0))) &&
       (fmriprepDir ==> isDir(FuncDir(inputDir, p))))
  {
    AllSessionsMember(subjects, glob, p);
    if fmriprepDir {
      KeepMember(AllSessions(subjects, glob), p => isDir(FuncDir(inputDir, p)), p);
    }
  }

  /** The pairs of a sorted subject list are grouped by subject. */
  lemma PairsGrouped(subjects: seq<string>, glob: string -> seq<string>, fmriprepDir: bool,
                     inputDir: string, isDir: string -> bool)
    requires Sorted(subjects)
    ensures GroupedBySubject(Pairs(subjects, glob, fmriprepDir, inputDir, isDir))
  {
    AllSessionsGrouped(subjects, glob);
    if fmriprepDir {
      FilterGrouped(AllSessions(subjects, glob), p => isDir(FuncDir(inputDir, p)));
    }
  }

  /** For distinct subjects whose session entries are plain, the final pairs
      list each subject's sessions in ascending id order. */
  lemma PairsAscending(subjects: seq<string>, glob: string -> seq<string>, fmriprepDir: bool,
                       inputDir: string, isDir: string -> bool)
    requires NoDuplicates(subjects)
    requires forall s :: s in subjects ==> PlainSessionNames(s, glob(SessionGlob(s)))
    ensures SessionsAscending(Pairs(subjects, glob, fmriprepDir, inputDir, isDir))
  {
    AllSessionsAscending(subjects, glob);
    if fmriprepDir {
      FilterAscending(AllSessions(subjects, glob), p => isDir(FuncDir(inputDir, p)));
    }
  }

  /** No pair is left exactly when no found subject has a session that
      passes the `func` filter. */
  lemma PairsEmpty(subjects: seq<string>, found: seq<string>, glob: string -> seq<string>,
                   fmriprepDir: bool, inputDir: string, isDir: string -> bool)
    requires multiset(subjects) == multiset(found)
    ensures |Pairs(subjects, glob, fmriprepDir, inputDir, isDir)| == 0 <==>
      !HasSession(found, glob, fmriprepDir, inputDir, isDir)
  {
    var pairs := Pairs(subjects, glob, fmriprepDir, inputDir, isDir);
    if |pairs| > 0 {
      var p := pairs[0];
      PairsMember(subjects, glob, fmriprepDir, inputDir, isDir, p);
      assert p.0 in multiset(subjects);
      assert p.0 in found;
    }
    if HasSession(found, glob, fmriprepDir, inputDir, isDir) {
      var s, e :| s in found && e in IdsOf(glob(SessionGlob(s))) &&
        (fmriprepDir ==> isDir(FuncDir(inputDir, (s, e))));
      assert s in multiset(found);
      assert s in subjects;
      PairsMember(subjects, glob, fmriprepDir, inputDir, isDir, (s, e));
    }
  }

  /** `map(get_subject_sessions_one_sub, subjects)` flattened: the sessions
      of each subject in turn. */
  method SubjectsSessions(subjects: seq<string>, glob: string -> seq<string>) returns (pairs: seq<(string, string)>)
    ensures pairs == AllSessions(subjects, glob)
  {
    pairs := [];
    for i := 0 to |subjects|
      invariant pairs == AllSessions(subjects[..i], glob)
    {
      assert subjects[..i + 1][..i] == subjects[..i];
      pairs := pairs + SessionsOf(subjects[i], glob);
    }
    assert subjects[..|subjects|] == subjects;
  }

  /** The sorted subject identifiers and the (subject, session) pairs of a
      directory tree. Subjects come from the requested labels or from every
      `sub-*` entry, `.html` reports excluded; sessions from the `ses-*`
      directories of each subject, kept only if they have a `func`
      directory when `fmriprepDir` is set. With `raiseIfEmpty`, finding no
      subject or no session is an error. */
  method GetSubjectSessions(inputDir: string, participantLabel: seq<string>, raiseIfEmpty: bool,
                            fmriprepDir: bool, glob: string -> seq<string>, isDir: string -> bool)
    returns (r: Result<(seq<string>, seq<(string, string)>)>)
    ensures r.Ok? ==>
      Sorted(r.value.0) && multiset(r.value.0) == multiset(SubjectIds(participantLabel, glob))
    ensures r.Ok? ==> r.value.1 == Pairs(r.value.0, glob, fmriprepDir, inputDir, isDir)
    ensures r.Ok? ==> GroupedBySubject(r.value.1)
    ensures (r.Ok? && NoDuplicates(r.value.0) &&
             forall s :: s in r.value.0 ==> PlainSessionNames(s, glob(SessionGlob(s)))) ==>
      SessionsAscending(r.value.1)
    ensures r.Ok? ==> forall p :: p in r.value.1 <==>
      (p.0 in r.value.0 && p.1 in IdsOf(glob(SessionGlob(p.0))) &&
       (fmriprepDir ==> isDir(FuncDir(inputDir, p))))
    ensures r == Err(NoSubjects) <==> raiseIfEmpty && SubjectIds(participantLabel, glob) == []
    ensures r == Err(NoSessions) <==>
      (raiseIfEmpty && SubjectIds(participantLabel, glob) != [] &&
       !HasSession(SubjectIds(participantLabel, glob), glob, fmriprepDir, inputDir, isDir))
    ensures r.Err? ==> r == Err(NoSubjects) || r == Err(NoSessions)
    ensures !raiseIfEmpty ==> r.Ok?
  {
    var subjects := SubjectIds(participantLabel, glob);
    ghost var found := subjects;
    subjects := Sort(subjects);

    var pairs := SubjectsSessions(subjects, glob);
    if fmriprepDir {
      pairs := WithFunc(pairs, inputDir, isDir);
    }
    assert pairs == Pairs(subjects, glob, fmriprepDir, inputDir, isDir);
    PairsGrouped(subjects, glob, fmriprepDir, inputDir, isDir);
    PairsEmpty(subjects, found, glob, fmriprepDir, inputDir, isDir);
    assert NoDuplicates(subjects) && (forall s :: s in subjects ==> PlainSessionNames(s, glob(SessionGlob(s)))) ==>
      SessionsAscending(pairs) by {
      if NoDuplicates(subjects) && (forall s :: s in subjects ==> PlainSessionNames(s, glob(SessionGlob(s)))) {
        PairsAscending(subjects, glob, fmriprepDir, inputDir, isDir);
      }
    }
    forall p ensures p in pairs <==> (p.0 in subjects && p.1 in IdsOf(glob(SessionGlob(p.0))) &&
      (fmriprepDir ==> isDir(FuncDir(inputDir, p)))) {
      PairsMember(subjects, glob, fmriprepDir, inputDir, isDir, p);
    }

    if raiseIfEmpty {
      if |subjects| == 0 {
        return Err(NoSubjects);
      }
      if |pairs| == 0 {
        return Err(NoSessions);
      }
    }
    return Ok((subjects, pairs));
  }
}
