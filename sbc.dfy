/** sbc.py: seed-based correlation with the 36P confounds, one session at a
    time, and the group step that collects the per-session maps by session.

    The maskers, the Fisher z transform, the images, the plots and the mean
    and standard deviation maps of the group step are not modelled; their
    inputs and the values and texts written are. */
module Sbc {
  import opened Common
  import opened Strings
  import opened Tables
  import Utils
  import opened SeedCorrelation

  // ---------------------------------------------------------------------
  // sbc_one_session
  // ---------------------------------------------------------------------

  /** The three outputs of one session, all in the output directory and all
      named after `subject_session`: the Fisher z map, its thresholded plot
      and the report. */
  function SbcFiles(outputDir: string, subject: string, session: string): (files: seq<string>)
    ensures |files| == 3
  {
    var stub := subject + "_" + session;
    [PathJoin(outputDir, MapName(subject, session)),
     PathJoin(outputDir, "sbc_pcc_2_fisherz_thrsh0.5_" + stub + ".png"),
     PathJoin(outputDir, "sbc_pcc_9_info_" + stub + ".txt")]
  }

  /** The file name of the Fisher z map. */
  function MapName(subject: string, session: string): string
  {
    "sbc_pcc_1_" + subject + "_" + session + ".nii.gz"
  }

  /** Each output name ends with the stub and its extension. */
  lemma SbcFilesStub(outputDir: string, subject: string, session: string)
    ensures var files := SbcFiles(outputDir, subject, session);
      var stub := subject + "_" + session;
      EndsWith(files[0], stub + ".nii.gz") && EndsWith(files[1], stub + ".png") &&
      EndsWith(files[2], stub + ".txt")
  {
    var stub := subject + "_" + session;
    assert MapName(subject, session) == "sbc_pcc_1_" + (stub + ".nii.gz");
    PathJoinEndsWith(outputDir, "sbc_pcc_1_", stub + ".nii.gz");
    assert "sbc_pcc_2_fisherz_thrsh0.5_" + stub + ".png" == "sbc_pcc_2_fisherz_thrsh0.5_" + (stub + ".png");
    PathJoinEndsWith(outputDir, "sbc_pcc_2_fisherz_thrsh0.5_", stub + ".png");
    assert "sbc_pcc_9_info_" + stub + ".txt" == "sbc_pcc_9_info_" + (stub + ".txt");
    PathJoinEndsWith(outputDir, "sbc_pcc_9_info_", stub + ".txt");
  }

  /** The report: the seed-analysis header, an empty line and the 36P
      confound table as text. */
  method SbcReport(confounds: seq<string>, files: Utils.SessionFiles, confoundsText: string)
    returns (report: string)
    ensures report == Join(ReportLines(Listed(confounds), files), "\n") + "\n" + "\n" + confoundsText
  {
    report := ReportHeader(confounds, files);
    report := report + "\n";
    report := report + confoundsText;
  }

  /** One session. The input files are located first, so a missing input is
      an error even when every output exists. Then nothing happens when the
      three outputs exist; otherwise the 36P confounds are built, the
      maskers turn them into the time series of the brain and of the seed,
      the seed correlation of every voxel is computed, and the map, the plot
      and the report are written, in that order. */
  method SbcOneSession(subject: string, session: string, fmriprepDir: string, outputDir: string,
                       existing: set<string>, glob: string -> seq<string>, readTable: string -> Table,
                       render: Table -> string, brainMasker: seq<seq<real>> -> seq<seq<real>>,
                       seedMasker: seq<seq<real>> -> seq<real>, width: nat)
    returns (r: Result<SeedPlan>)
    requires forall path :: WellFormed(readTable(path))
    requires forall c :: TimeSeries(brainMasker(c), seedMasker(c), width)
    ensures Utils.GetFiles(fmriprepDir, subject, session, glob).Err? ==>
      r == Err(Utils.GetFiles(fmriprepDir, subject, session, glob).error)
    ensures (Utils.GetFiles(fmriprepDir, subject, session, glob).Ok? &&
             AllPresent(existing, SbcFiles(outputDir, subject, session))) ==> r == Ok(SeedSkipped)
    ensures (Utils.GetFiles(fmriprepDir, subject, session, glob).Ok? &&
             !AllPresent(existing, SbcFiles(outputDir, subject, session))) ==>
      var inputs := Utils.GetFiles(fmriprepDir, subject, session, glob).value;
      var confounds := Utils.Confounds36P(readTable(inputs.confounds));
      (confounds.Err? ==> r == Err(confounds.error)) &&
      (confounds.Ok? ==>
        var files := SbcFiles(outputDir, subject, session);
        var c := confounds.value.rows;
        r == Ok(SeedComputed([files[0], files[1], files[2]],
                             Join(ReportLines(Utils.Columns36, inputs), "\n") + "\n" + "\n" +
                             render(confounds.value),
                             Correlations(brainMasker(c), seedMasker(c), width))))
  {
    var inputs := Utils.GetFiles(fmriprepDir, subject, session, glob);
    if inputs.Err? {
      return Err(inputs.error);
    }
    var files := SbcFiles(outputDir, subject, session);
    if AllPresent(existing, files) {
      return Ok(SeedSkipped);
    }
    var confounds := Utils.Confounds36P(readTable(inputs.value.confounds));
    if confounds.Err? {
      return Err(confounds.error);
    }
    var seed := seedMasker(confounds.value.rows);
    var brain := brainMasker(confounds.value.rows);
    var correlations := Correlations(brain, seed, width);
    var report := SbcReport(confounds.value.columns, inputs.value, render(confounds.value));
    return Ok(SeedComputed([files[0], files[1], files[2]], report, correlations));
  }

  // ---------------------------------------------------------------------
  // sbc_group
  // ---------------------------------------------------------------------

  /** `os.path.basename`: the part after the last `/`, or the whole path
      when it has none. */
  function Basename(path: string): (b: string)
    ensures '/' !in b && EndsWith(path, b)
    ensures |b| < |path| ==> path[|path| - |b| - 1] == '/'
    ensures |b| == |path| ==> '/' !in path
  {
    SplitLastIsSuffix(path, '/');
    Last(Split(path, '/'))
  }

  /** `name.split("_")[-1]`: the part of a file name after its last `_`. */
  function LastField(name: string): (piece: string)
    ensures EndsWith(name, piece) && '_' !in piece
    ensures |piece| < |name| ==> name[|name| - |piece| - 1] == '_'
  {
    SplitLastIsSuffix(name, '_');
    Last(Split(name, '_'))
  }

  /** `piece.split(".")[0]`: the part of a piece before its first `.`. */
  function Stem(piece: string): (k: string)
    ensures StartsWith(piece, k) && '.' !in k
    ensures |k| < |piece| ==> piece[|k|] == '.'
  {
    SplitFirstIsPrefix(piece, '.');
    Split(piece, '.')[0]
  }

  /** The session key of a map: the last `_`-separated piece of the file
      name, up to its first `.`. */
  function SessionKey(path: string): (k: string)
    ensures '.' !in k && '/' !in k
    ensures var name := Basename(path); var piece := LastField(name);
      EndsWith(name, piece) && '_' !in piece && (|piece| < |name| ==> name[|name| - |piece| - 1] == '_') &&
      StartsWith(piece, k) && (|k| < |piece| ==> piece[|k|] == '.')
  {
    var name := Basename(path);
    var piece := LastField(name);
    var k := Stem(piece);
    SuffixLacks(name, piece, '/');
    PrefixLacks(piece, k, '/');
    k
  }

  /** The basename of a relative name joined to a directory is the name. */
  lemma BasenameOfJoin(dir: string, name: string)
    requires |name| > 0 && name[0] != '/' && '/' !in name
    ensures Basename(PathJoin(dir, name)) == name
  {
    if dir == [] {
      SplitNoSeparator(name, '/');
    } else if dir[|dir| - 1] == '/' {
      var d := dir[..|dir| - 1];
      assert PathJoin(dir, name) == d + ['/'] + name;
      LastPieceAfter(d, name, '/');
    } else {
      assert PathJoin(dir, name) == dir + ['/'] + name;
      LastPieceAfter(dir, name, '/');
    }
  }

  /** The session key of a map's file name is the session. */
  lemma SessionKeyOfName(subject: string, session: string)
    requires '_' !in session && '.' !in session
    ensures var name := MapName(subject, session);
      Last(Split(name, '_')) == session + ".nii.gz" &&
      Split(Last(Split(name, '_')), '.')[0] == session
  {
    var ext := session + ".nii.gz";
    assert '_' !in ext;
    assert "sbc_pcc_1_" + subject + "_" + session + ".nii.gz" == ("sbc_pcc_1_" + subject) + ['_'] + ext;
    LastPieceAfter("sbc_pcc_1_" + subject, ext, '_');
    assert ext == session + ['.'] + "nii.gz";
    FirstPieceBefore(session, "nii.gz", '.');
  }

  lemma MapNameHasNoSlash(subject: string, session: string)
    requires '/' !in subject && '/' !in session
    ensures var name := MapName(subject, session);
      |name| > 0 && name[0] != '/' && '/' !in name
  {
    var name := MapName(subject, session);
    assert name == "sbc_pcc_1_" + (subject + ("_" + (session + ".nii.gz")));
  }

  /** The session key recovers the session from the name of a map written
      by `sbc_one_session`, when the identifiers contain no separator. */
  lemma SessionKeyOfOutput(outputDir: string, subject: string, session: string)
    requires '/' !in subject && '/' !in session && '_' !in session && '.' !in session
    ensures SessionKey(SbcFiles(outputDir, subject, session)[0]) == session
  {
    var name := MapName(subject, session);
    MapNameHasNoSlash(subject, session);
    BasenameOfJoin(outputDir, name);
    SessionKeyOfName(subject, session);
  }

  /** `set(map(key, niis))`: the keys of the given files. */
  function SessionKeys(niis: seq<string>): set<string>
  {
    set i | 0 <= i < |niis| :: SessionKey(niis[i])
  }

  /** `sessions = list(set(...)); sessions.sort()`: the distinct session
      keys, each once, in ascending order. */
  method CollectSessions(niis: seq<string>) returns (sessions: seq<string>)
    ensures Sorted(sessions) && NoDuplicates(sessions)
    ensures forall i, j :: 0 <= i < j < |sessions| ==> !LexLe(sessions[j], sessions[i])
    ensures forall k :: k in sessions <==> k in SessionKeys(niis)
  {
    var keys := SessionKeys(niis);
    sessions := ListOfSet(keys);
    ghost var listed := sessions;
    sessions := Sort(sessions);
    assert forall x :: multiset(sessions)[x] == multiset(listed)[x];
    SingleOccurrences(sessions);
    forall i, j | 0 <= i < j < |sessions| ensures !LexLe(sessions[j], sessions[i]) {
      SortedDistinctIsStrict(sessions, i, j);
    }
    forall k ensures k in sessions <==> k in keys {
      assert k in sessions <==> multiset(sessions)[k] > 0;
    }
  }

  /** `list(s)` of a set: each member once, in some order. */
  method ListOfSet(keys: set<string>) returns (list: seq<string>)
    ensures forall x :: multiset(list)[x] == if x in keys then 1 else 0
  {
    list := [];
    var rest := keys;
    while rest != {}
      invariant rest <= keys
      invariant forall x :: multiset(list)[x] == if x in keys - rest then 1 else 0
      decreases |rest|
    {
      var k :| k in rest;
      assert multiset(list + [k]) == multiset(list) + multiset{k};
      list := list + [k];
      rest := rest - {k};
    }
  }


  /** The maps that `glob(os.path.join(in_dir, "*{}.nii.gz".format(ses)))`
      finds among the maps of the input directory: every one whose file
      name ends with the session followed by `.nii.gz`, sorted. */
  function ScansAsWritten(niis: seq<string>, ses: string): (scans: seq<string>)
    ensures Sorted(scans)
  {
    Sort(Keep(niis, f => EndsWith(Basename(f), ses + ".nii.gz")))
  }

  lemma ScansAsWrittenMember(niis: seq<string>, ses: string, f: string)
    ensures f in ScansAsWritten(niis, ses) <==> f in niis && EndsWith(Basename(f), ses + ".nii.gz")
  {
    var kept := Keep(niis, f => EndsWith(Basename(f), ses + ".nii.gz"));
    KeepMember(niis, f => EndsWith(Basename(f), ses + ".nii.gz"), f);
    assert f in kept <==> f in multiset(kept);
  }

  /** The suffix match also picks up the maps of every session whose id
      ends with `ses`: the map of session `t + ses` is averaged into
      session `ses`, although its session key is `t + ses`. */
  lemma ScansAsWrittenTakeLongerSession(outputDir: string, subject: string, t: string, ses: string)
    requires |t| > 0 && '/' !in subject && '/' !in t + ses && '_' !in t + ses && '.' !in t + ses
    ensures var f := SbcFiles(outputDir, subject, t + ses)[0];
      f in ScansAsWritten([f], ses) && SessionKey(f) == t + ses && SessionKey(f) != ses
  {
    var f := SbcFiles(outputDir, subject, t + ses)[0];
    MapOfLongerSession(outputDir, subject, t, ses);
    SessionKeyOfOutput(outputDir, subject, t + ses);
    ScansAsWrittenMember([f], ses, f);
    assert |t + ses| > |ses|;
  }

  /** The map of session `t + ses` has a file name ending with `ses.nii.gz`. */
  lemma MapOfLongerSession(outputDir: string, subject: string, t: string, ses: string)
    requires '/' !in subject && '/' !in t + ses
    ensures EndsWith(Basename(SbcFiles(outputDir, subject, t + ses)[0]), ses + ".nii.gz")
  {
    var name := MapName(subject, t + ses);
    MapNameHasNoSlash(subject, t + ses);
    BasenameOfJoin(outputDir, name);
    MapNameSuffix(subject, t, ses);
  }

  lemma MapNameSuffix(subject: string, t: string, ses: string)
    ensures EndsWith(MapName(subject, t + ses), ses + ".nii.gz")
  {
    var head := "sbc_pcc_1_" + subject + "_" + t;
    var tail := ses + ".nii.gz";
    assert MapName(subject, t + ses) == head + tail;
    EndsWithConcat(head, tail);
  }

  /** The maps of one session: those whose session key is the session,
      sorted. */
  function SessionScans(niis: seq<string>, ses: string): (scans: seq<string>)
    ensures Sorted(scans)
  {
    Sort(Keep(niis, f => SessionKey(f) == ses))
  }

  /** A session's scan list holds exactly the maps whose key is that
      session. */
  lemma SessionScansMember(niis: seq<string>, ses: string, f: string)
    ensures f in SessionScans(niis, ses) <==> f in niis && SessionKey(f) == ses
  {
    var kept := Keep(niis, f => SessionKey(f) == ses);
    KeepMember(niis, f => SessionKey(f) == ses, f);
    assert f in kept <==> f in multiset(kept);
  }

  /** The text of the scans file: the sorted file names, one per line. */
  function ScansText(scans: seq<string>): string
  {
    Join(scans, "\n")
  }

  /** Reading the scans file line by line gives back the sorted file list. */
  lemma ScansTextLines(scans: seq<string>)
    requires |scans| >= 1 && forall i :: 0 <= i < |scans| ==> '\n' !in scans[i]
    ensures Split(ScansText(scans), '\n') == scans
  {
    SplitJoin(scans, '\n');
  }

  /** What the group step produces for one session: the files it averages,
      the five outputs in the order they are written (the mean and standard
      deviation maps, the scans list, then the two plots) and the text of
      the scans list. */
  datatype GroupJob = GroupJob(session: string, scans: seq<string>, outputs: seq<string>, scansText: string)

  function GroupJobFor(niis: seq<string>, outDir: string, session: string): (job: GroupJob)
    ensures job.session == session
  {
    var scans := SessionScans(niis, session);
    GroupJob(session, scans,
             [PathJoin(outDir, "sbc_1_mean_ses-" + session + ".nii.gz"),
              PathJoin(outDir, "sbc_1_sd_ses-" + session + ".nii.gz"),
              PathJoin(outDir, "sbc_ses-" + session + "_scans.txt"),
              PathJoin(outDir, "sbc_2_mean_ses-" + session + ".png"),
              PathJoin(outDir, "sbc_2_sd_ses-" + session + ".png")],
             ScansText(scans))
  }

  function JobSessions(jobs: seq<GroupJob>): (r: seq<string>)
    ensures |r| == |jobs| && forall k :: 0 <= k < |jobs| ==> r[k] == jobs[k].session
  {
    seq(|jobs|, k requires 0 <= k < |jobs| => jobs[k].session)
  }

  /** The body of the group loop for one session: pick its maps, sort
      them in place and name the outputs. */
  method SessionJob(niis: seq<string>, outDir: string, ses: string) returns (job: GroupJob)
    ensures job == GroupJobFor(niis, outDir, ses)
  {
    var scans := Keep(niis, f => SessionKey(f) == ses);
    scans := Sort(scans);
    var text := Join(scans, "\n");
    job := GroupJob(ses, scans,
                    [PathJoin(outDir, "sbc_1_mean_ses-" + ses + ".nii.gz"),
                     PathJoin(outDir, "sbc_1_sd_ses-" + ses + ".nii.gz"),
                     PathJoin(outDir, "sbc_ses-" + ses + "_scans.txt"),
                     PathJoin(outDir, "sbc_2_mean_ses-" + ses + ".png"),
                     PathJoin(outDir, "sbc_2_sd_ses-" + ses + ".png")],
                    text);
  }

  /** The group loop: one job per session, in the given order. */
  method SessionJobs(niis: seq<string>, outDir: string, sessions: seq<string>) returns (jobs: seq<GroupJob>)
    ensures jobs == MapSeq(s => GroupJobFor(niis, outDir, s), sessions)
  {
    ghost var f := s => GroupJobFor(niis, outDir, s);
    jobs := [];
    for i := 0 to |sessions|
      invariant jobs == MapSeq(f, sessions[..i])
    {
      var job := SessionJob(niis, outDir, sessions[i]);
      MapSeqSnoc(f, sessions, i);
      jobs := jobs + [job];
    }
    assert sessions[..|sessions|] == sessions;
  }

  /** `sbc_group` with each session's maps picked by their session key:
      one job per distinct session key among the maps of the input
      directory, in ascending session order. */
  method SbcGroup(inDir: string, outDir: string, glob: string -> seq<string>) returns (jobs: seq<GroupJob>)
    ensures var niis := glob(PathJoin(inDir, "*.nii.gz"));
      Sorted(JobSessions(jobs)) && NoDuplicates(JobSessions(jobs)) &&
      (forall k :: k in JobSessions(jobs) <==> k in SessionKeys(niis)) &&
      forall k :: 0 <= k < |jobs| ==> jobs[k] == GroupJobFor(niis, outDir, jobs[k].session)
  {
    var niis := glob(PathJoin(inDir, "*.nii.gz"));
    var sessions := CollectSessions(niis);
    jobs := SessionJobs(niis, outDir, sessions);
    forall k | 0 <= k < |jobs| ensures jobs[k] == GroupJobFor(niis, outDir, sessions[k]) {
      MapSeqAt(s => GroupJobFor(niis, outDir, s), sessions, k);
    }
    assert JobSessions(jobs) == sessions;
  }
}
