# sea_zrh_rs confound and connectivity bookkeeping, in Dafny

This project models the table, array and file-name bookkeeping of the
sea_zrh_rs resting-state pipeline, and proves properties of it. The
signal processing itself is done by nilearn and is not modelled.

- **Confounds** (`utils.py`): Satterthwaite's 36-parameter confound table.
  It holds nine base regressors, their first differences (zero at the
  first timepoint) and the squares of those eighteen columns.
- **Input discovery** (`utils.py`):
  - the "exactly one file matches" rule;
  - the four input files of a session;
  - the discovery of subjects and `(subject, session)` pairs.
- **Connectivity tables** (`conmats.py`):
  - the parcellation dispatch;
  - the symmetry-checked connectivity table with a zeroed diagonal;
  - the provenance report, with masker parameters sorted by name;
  - the per-session driver, which recomputes only when an output is
    missing.
- **Seed-based correlation** (`sbc.py` and `connectivity.py`): per voxel,
  the dot product of its time series with the seed series, divided by the
  number of timepoints. Also modelled:
  - the confound selection, including the reset of the first
    `FramewiseDisplacement` value;
  - the report;
  - the recompute decision;
  - the group step that collects the per-session maps by session.
- **Yeo-17 split** (`yeo_sephem.py`): right-hemisphere voxels get label
  +100, and the label table is duplicated into a left and a right half.

The outside world is a parameter of the model:
- `glob` is a function from a pattern to the list Python's `glob` returns;
- `isDir` is `os.path.isdir`;
- the existing files are a set;
- `read_csv` is a function from a path to a table;
- the maskers are functions from the confound cells to time series;
- `DataFrame.to_string` is a function from a table to text.

Cells are `real`, so there is no rounding.

One Dafny module per concern:
- `Common`: the errors, `Result`, `os.path.join`, the all-outputs-present
  predicate and the list map and filter.
- `Strings`: `str.split`, `str.join`, string order, `list.sort`.
- `Tables`: a DataFrame as column names plus rows, and `df[names]`.
- `Utils`, `Conmats`, `SeedCorrelation`, `Sbc`, `Connectivity` and
  `YeoSephem`.

## Notes on the code's behaviour

- `conmat_one_session` looks up the input files before the parcellation.
  So a discovery error takes precedence over an unknown parcellation.
  When all outputs exist, an unknown parcellation raises nothing.
- `sbc_one_session` and `sbc_one_subject` look up the input files before
  checking for outputs. So a missing input is an error even when the
  session is complete.
- `_get_roi_info` also knows a `gordon` scheme. Its names come from a
  spreadsheet and are an input here.

## Model

| member | source | states |
|---|---|---|
| Utils.Confounds36P | utils.py:95-113 | the 36P table has exactly the 36 names of `Columns36`, one row per input row and 36 cells per row; a raw table missing a base column is the KeyError listing the missing names, and only then |
| Utils.Columns36Names | utils.py:106-112 | names 1-9 are CSF, WhiteMatter, GlobalSignal, X, Y, Z, RotX, RotY, RotZ; names 10-18 are those with `_der`; names 19-36 are names 1-18 with `_2` |
| Utils.Confounds36PBase | utils.py:106 | columns 1-9 hold the raw table's base columns, values unchanged |
| Utils.Confounds36PDerivative | utils.py:107 | column 10-18 is 0 at the first timepoint and otherwise the base column's change since the previous timepoint |
| Utils.Confounds36PSquare | utils.py:110-112 | columns 19-36 are the squares of columns 1-18, in the same order |
| Utils.SquareColumnsNonNegative | utils.py:110 | no cell of columns 19-36 is negative |
| Utils.Build36Cell | utils.py:106-112 | the cell-level description of base, difference and square blocks that the three lemmas above lift to the table |
| Utils.Confounds36PRows | utils.py:106 | the 36P cells are built from the nine selected base columns of the raw table |
| Utils.CheckAndReturnPath | utils.py:55-60 | succeeds exactly when the glob finds one file and returns it; no match or several matches is an error naming the pattern and what was found |
| Utils.GetFiles | utils.py:63-79 | succeeds exactly when each of the three functional patterns and one of the two structural patterns match once; the structural image is taken from the subject directory when it matches there and from the session directory otherwise; any failure is a glob error |
| Utils.WithoutHtml | utils.py:26 | keeps exactly the found names that do not end with `.html`, in their order (it is `Keep`, so `KeepPairwise` applies) |
| Utils.IdOf | utils.py:27 | the id is the end of the name without `-`, preceded by `-` unless it is the whole name, which then has no `-` |
| Utils.IdsOf | utils.py:27 | each id is the text after the last `-` of its name, position by position |
| Utils.SessionsOf | utils.py:31-34 | the pairs of one subject are exactly that subject with the ids of its `ses-*` entries |
| Utils.SessionsOfSorted | utils.py:32-34 | when each session entry is `ses-` followed by an id without `-`, the subject's sessions come out in ascending id order |
| Utils.IdsAscending | utils.py:33-34 | sorted paths sharing a prefix that ends in `-` have ascending ids |
| Utils.AllSessionsMember | utils.py:37-38 | the chained list holds a pair exactly when its subject is listed and its session was found for that subject |
| Utils.AllSessionsGrouped | utils.py:37-38 | for a sorted subject list, the chained pairs are in non-decreasing subject order |
| Utils.FilterGrouped | utils.py:42-43 | the filter keeps the order, so grouped pairs stay grouped |
| Utils.FilterAscending | utils.py:42-43 | the filter keeps the order, so each subject's sessions stay in ascending id order |
| Utils.AscendingAppend | utils.py:37-38 | appending the ascending sessions of a subject not yet listed keeps every subject's sessions ascending |
| Utils.AllSessionsAscending | utils.py:31-38 | for distinct subjects with plain `ses-<id>` entries, each subject's sessions in the chained list ascend by id |
| Utils.PairsMember | utils.py:37-43 | the final pairs are exactly the found sessions of the subjects that pass the `func` test when `fmriprep_dir` is set |
| Utils.PairsGrouped | utils.py:28-43 | the final pairs of the sorted subjects are grouped by subject |
| Utils.PairsAscending | utils.py:31-43 | for distinct subjects with plain `ses-<id>` entries, each subject's sessions in the final pairs ascend by id |
| Utils.PairsEmpty | utils.py:40-49 | no pair is left exactly when no found subject has a session passing the filter |
| Utils.SubjectsSessions | utils.py:37-38 | the loop over subjects produces the chained per-subject pairs |
| Utils.GetSubjectSessions | utils.py:11-52 | subjects are the sorted ids of the non-`.html` matches; the pairs are `Pairs` of those subjects, so each subject's sessions come in the order and number of its sorted `ses-*` entries; they are grouped by subject, hold exactly the found sessions that pass the `func` test, and ascend by id within a subject when the subjects are distinct and the entries plain; with `raise_if_empty`, no subject raises "No subjects found" and subjects without surviving sessions raise "No Sessions found", and nothing else fails |
| Strings.Sort | utils.py:28 | `list.sort()` on strings: sorted by code point and a permutation of its input |
| Strings.SortedUnique | conmats.py:139-140 | a sorted permutation is unique, so any sorted arrangement of the same strings is the result of `sort` |
| Strings.JoinSplit | sbc.py:84 | splitting on a character and joining with it gives back the string |
| Strings.SplitJoin | sbc.py:105-106 | joining pieces without the separator and splitting again gives back the pieces |
| Strings.SplitLastIsSuffix | utils.py:27 | `s.split(c)[-1]` is the suffix of `s` after its last `c` |
| Strings.SplitFirstIsPrefix | sbc.py:84 | `s.split(c)[0]` is the prefix of `s` before its first `c` |
| Tables.Select | utils.py:106 | `df[names]` has the requested columns in the requested order with the cells of the named columns, or is the KeyError that lists exactly the missing names |
| Conmats.GetRoiInfo | conmats.py:12-44 | `basc197` and `basc444` give labels 1-197 and 1-444 of type labels; `msdl` gives the atlas labels in order, of type maps; `gordon` gives the spreadsheet parcel ids, of type labels; any other name is the "Parcellation not known" error, and only then |
| Conmats.ConDf | conmats.py:62-78 | a non-square matrix, one not close to its transpose, and a name list of the wrong length are each an error; the result is a success exactly when none of the three holds; otherwise the table is square and labelled by the names on both axes |
| Conmats.ConDfValues | conmats.py:74-77 | the table's diagonal is 0, every other entry is the input's, and symmetry and closeness to the transpose carry over |
| Conmats.ConDfExample | conmats.py:47-59 | the module's four-region test matrix gives the 4 by 4 table labelled r1-r4 with a zero diagonal and the other values unchanged |
| Conmats.IsCloseToTranspose | conmats.py:74 | the loop computes `allclose(m, m.T)` with numpy's default tolerances |
| Conmats.GetConDf | conmats.py:62-78 | returns what `ConDf` gives for the array's old contents; the array is zeroed on the diagonal in place once the symmetry check passes, even when the names then do not fit, and is unchanged otherwise |
| Conmats.MaskerParsDefined | conmats.py:117-118 | each sorted parameter name has a value in the masker parameter dictionary |
| Conmats.SortedMaskerKeysSorted | conmats.py:139-140 | the six parameter names listed in the report are in ascending order |
| Conmats.SortMaskerKeys | conmats.py:139-140 | sorting the dictionary's keys gives detrend, high_pass, low_pass, mask_img, standardize, t_r |
| Conmats.SortedKeys | conmats.py:139-140 | `keys = list(masker_pars.keys()); keys.sort()` gives the names in ascending order |
| Conmats.AppendParLines | conmats.py:141-142 | the loop appends one `key\tvalue` line per key, in key order |
| Conmats.ParLinesConcat | conmats.py:141-142 | the lines of two key lists, one after the other, are the lines of the first list followed by those of the second |
| Conmats.ParLinesSnoc | conmats.py:141-142 | one more key adds its `key\tvalue` line at the end |
| Conmats.ParLinesOfSix | conmats.py:141-142 | any six keys give their six lines one after the other |
| Conmats.SortedParLines | conmats.py:139-142 | the parameter block is the detrend, high_pass, low_pass, mask_img, standardize and t_r lines, in that order and with their values |
| Conmats.ExtractMatReport | conmats.py:136-147 | the report is the `rs_file` and `roi_file` lines, the sorted parameter lines, each ended by a newline, then two blank lines, the `confounds` line with the names joined by `, `, one blank line and the confound table as text |
| Conmats.GatherInputs | conmats.py:94-95 | the input files, the parcellation and the 36P table are gathered in that order; it succeeds exactly when all three do; an unknown parcellation is reported exactly when the files were found |
| Conmats.RecomputeOutcome | conmats.py:94-106 | the branch succeeds exactly when the inputs are gathered, the library matrix is square and `_get_con_df` accepts it with the region names; a gathering failure is returned as it is, and otherwise the failure is `_get_con_df`'s error; a success writes the table, the report and the plot, in that order, with the `extract_mat` report of the session's files and the 36 confound names |
| Conmats.RecomputeParcellationUnknown | conmats.py:94-98 | the branch fails for an unknown parcellation exactly when the input files were found and the parcellation is unknown |
| Conmats.RecomputeSession | conmats.py:92-106 | the result is `RecomputeOutcome` of the matrix's old contents and shape; the matrix has its diagonal zeroed in place when the inputs were gathered and the symmetry check passed, and is unchanged otherwise |
| Conmats.ConmatOneSession | conmats.py:81-108 | when all three outputs exist, nothing happens and the matrix is untouched; otherwise the result and the matrix's new contents are those of `RecomputeSession`; an unknown parcellation is raised exactly when an output is missing and the input files were found |
| SeedCorrelation.Correlations | sbc.py:46-47 | one value per voxel: the sum over timepoints of the voxel's value times the seed's value, divided by the number of timepoints |
| SeedCorrelation.CorrelationsScale | sbc.py:46-47 | scaling the seed series scales every voxel's value by the same factor |
| SeedCorrelation.CorrelationsLocal | connectivity.py:51-52 | a voxel's value depends on that voxel's own time series only |
| SeedCorrelation.CorrelationsWithSeed | connectivity.py:51-52 | a voxel whose series is the seed's gets the seed's mean square: never negative, and 1 for a standardized seed |
| SeedCorrelation.DotScale | sbc.py:46 | the dot product is linear in the seed |
| SeedCorrelation.ReportHeader | connectivity.py:69-78 | the `+=` steps build `Confounds:`, the names one per line, an empty line, the `lp_freq` and `hp_freq` lines and the four file lines, each ended by a newline |
| SeedCorrelation.Heading | connectivity.py:70-71 | `Confounds:`, the names one per line and an empty line, all newline-terminated |
| SeedCorrelation.Continue | connectivity.py:72-78 | one `report += "...\n"` step appends the next line of the report |
| SeedCorrelation.ReportHeaderLines | connectivity.py:69-78 | read back line by line, the report gives its lines: the heading, the confound names in order, the frequencies and the files |
| Sbc.SbcFilesStub | sbc.py:12-17 | each of the three outputs ends with `subject_session` and its extension |
| Sbc.SbcReport | sbc.py:61-71 | the report is the seed-analysis header, an empty line and the confound table as text |
| Sbc.SbcOneSession | sbc.py:9-76 | a discovery error comes first; with the inputs found, nothing happens when all three outputs exist; otherwise the 36P error is returned or the map, plot and report are written with the report of the 36 names and one correlation per voxel of the masker outputs |
| Sbc.Basename | sbc.py:84 | the basename has no `/`, ends the path, and is either the whole path (which then has no `/`) or preceded by a `/` |
| Sbc.LastField | sbc.py:84 | `split("_")[-1]` is the end of the name without `_`, preceded by `_` unless it is the whole name |
| Sbc.Stem | sbc.py:84 | `split(".")[0]` is the start of the piece without `.`, followed by `.` unless it is the whole piece |
| Sbc.SessionKey | sbc.py:84 | the key starts the part of the basename after its last `_` (or the whole basename when it has none) and runs up to the first `.` of that part or its end; it has no `.` and no `/` |
| Sbc.BasenameOfJoin | sbc.py:84 | the basename of a plain name joined to a directory is the name |
| Sbc.SessionKeyOfName | sbc.py:84 | in a map name, the last `_` piece is the session with its extension and the key is the session |
| Sbc.SessionKeyOfOutput | sbc.py:84 | the key of the map `sbc_one_session` writes is its session, for ids without separators |
| Sbc.CollectSessions | sbc.py:84-85 | the session list is strictly ascending, has no repetitions and holds exactly the keys of the found maps |
| Sbc.ListOfSet | sbc.py:84 | `list(set(...))` holds each member once |
| Sbc.ScansAsWritten | sbc.py:88-89 | the glob `*ses.nii.gz` keeps the maps whose name ends with the session and `.nii.gz`, sorted |
| Sbc.ScansAsWrittenMember | sbc.py:88 | a map is kept exactly when it is among the maps and its name ends with `ses.nii.gz` |
| Sbc.ScansAsWrittenTakeLongerSession | sbc.py:88 | the map of session `t + ses` is kept for session `ses`, although its key is `t + ses` |
| Sbc.SessionScans | sbc.py:88-89 | a session's scan list is sorted |
| Sbc.SessionScansMember | sbc.py:88 | the corrected scan list holds exactly the maps whose key is the session |
| Sbc.ScansTextLines | sbc.py:105-106 | reading the scans file line by line gives back the sorted file list |
| Sbc.SessionJob | sbc.py:88-106 | the loop body picks and sorts the session's maps and names its five outputs in the order they are written |
| Sbc.SessionJobs | sbc.py:87-106 | the loop gives one job per session, in order |
| Sbc.SbcGroup | sbc.py:78-106 | one job per distinct session key of the input maps, in ascending order and without repetitions, each with that session's maps and outputs |
| Connectivity.Regressors | connectivity.py:28-32 | the table has exactly the requested regressors in the requested order and the file's row count; the first `FramewiseDisplacement` value is 0 and every other cell, including later displacement values, is the file's; without that regressor it is the plain selection; missing regressors are the KeyError |
| Connectivity.ResetFirstRowNoDisplacement | connectivity.py:31-32 | without a displacement column, or without rows, the reset changes nothing |
| Connectivity.ResetFramewiseDisplacement | connectivity.py:31-32 | the in-place assignment zeroes the first displacement value and leaves every other cell |
| Connectivity.SelectRegressors | connectivity.py:29-32 | the copy into an array and the in-place reset produce `Regressors` |
| Connectivity.ConnectivityFilesStub | connectivity.py:13-18 | each of the three outputs ends with `subject_session` and its extension |
| Connectivity.SbcOneSubject | connectivity.py:10-83 | a discovery error comes first; with the inputs found, nothing happens when all three outputs exist; otherwise the selection error is returned or the two plots and the report are written with the regressors listed in order and one correlation per voxel |
| Common.PathJoin | utils.py:64-65 | an absolute second part replaces the first; otherwise the result starts with the first part and ends with the second |
| Common.MapSeqAt | sbc.py:87 | each element of a mapped list is the image of the element at its position |
| Common.KeepMember | utils.py:42-43 | the filter keeps exactly the elements it accepts |
| Common.KeepPairwise | utils.py:42-43 | the filter keeps the order of what it keeps: a relation holding between each element and every later one holds between the kept ones |
| YeoSephem.SplitLabel | yeo_sephem.py:15-20 | the left hemisphere and the background keep their label; nonzero right-hemisphere labels gain 100 |
| YeoSephem.SplitLabelRecoverable | yeo_sephem.py:15-20 | for atlas labels below 100, the network is recoverable from the split label, which exceeds 100 exactly on right-hemisphere network voxels |
| YeoSephem.OffsetVolume | yeo_sephem.py:16-18 | the offset is 100 where x is at least 128 and the atlas is nonzero, and 0 elsewhere |
| YeoSephem.AddVolumes | yeo_sephem.py:20 | the voxel-wise sum of two volumes of the same shape |
| YeoSephem.SplitVolume | yeo_sephem.py:15-20 | every voxel of the result is the split label of the atlas voxel |
| YeoSephem.Yeo17Numbering | yeo_sephem.py:23-40 | the embedded table numbers its 17 networks 1 to 17 in order |
| YeoSephem.WithHemi | yeo_sephem.py:45-46 | the copied table has the same rows, each with the given hemisphere |
| YeoSephem.ShiftRoi | yeo_sephem.py:47 | every roi id gains the shift and nothing else changes |
| YeoSephem.SplitLabels | yeo_sephem.py:43-49 | twice the rows; the left half keeps the ids with `lh`, the right half has the ids plus 100 with `rh`, left before right |
| YeoSephem.SplitLabelsMatchVolume | yeo_sephem.py:43-49 | for ids 1-99 the two halves use disjoint ids, and each half's ids are what the volume split gives on its side |
| YeoSephem.Yeo17Split | yeo_sephem.py:23-49 | 34 rows: ids 1-17 with `lh`, then ids 101-117 with `rh`, the two sets disjoint |

## Left out

- The nilearn maskers are parameters: functions from the confound cells to
  the brain and seed time series. Band-pass filtering, detrending,
  standardization and confound regression are library work.
- `ConnectivityMeasure`'s correlation matrix is an input array
  (conmats.py:133-134). The `roi type not known` branch (conmats.py:126-127)
  cannot be reached, because the dispatch only produces maps and labels.
- `np.arctanh` (sbc.py:48) and the mean and standard-deviation images of
  the group step (sbc.py:99-103) are left out as transcendental numerics.
  What each session's job averages and writes is modelled.
- File I/O is left out: `read_csv`, `to_csv`, `to_filename`, report
  writing, `os.makedirs` and the plots. The model returns what would be
  written (`Plan`, `SeedPlan`, `GroupJob`).
- `os.chdir` (utils.py:17) and the `print` calls are left out.
- Atlas fetching, the byte-string decoding of the MSDL labels
  (conmats.py:17-18) and the Gordon spreadsheet are left out. The labels
  and parcel ids are inputs.
- `DataFrame.to_string` is a rendering function. The `str.format` of `tr`
  is a string input.
- Glob wildcard matching is left out. `glob` gives the matches of each
  pattern, except in the group step, where the per-session matches are
  derived from the one directory listing.
- `get_motion_ts_one_subject` (utils.py:82-92) is not part of the modelled
  core.
- run.py is not part of this model.
- NaN is not modelled. The undefined first difference and the first
  displacement value are set to 0 explicitly.
- `numpy.allclose` broadcasting of a non-square array is modelled only as
  an error.
- Utils.GetSubjectSessions: ascending session ids within a subject are
  proved only for distinct subjects whose session entries are each `ses-`
  followed by an id without a further `-`. For other names, the order is
  that of the sorted directory names, through `Pairs`. A subject listed
  twice has its sessions listed twice, as in the code.
- SeedCorrelation.TimeSeries: at least one timepoint is required. With
  none, the code divides 0 by 0 (sbc.py:46-47) and gets NaN, which is not
  modelled.
- Conmats.GetConDf: the DataFrame is built from the zeroed array. Any
  aliasing of the returned table with that array is not modelled.
- Connectivity.ResetFramewiseDisplacement: `.loc[0, ...]` on an empty
  table adds a row in pandas. The model leaves an empty table unchanged.
- Sbc.SbcGroup: uses the corrected per-session selection described under
  Findings.

## Findings

| source | as written | input that shows it | evidently intended | confidence | as-written member | corrected member |
|---|---|---|---|---|---|---|
| sbc.py:88 | each session's maps are globbed with `*{ses}.nii.gz`, which matches every file name ending with the session id | maps of sessions `1` and `11`: the glob for session `1` also returns `sbc_pcc_1_s01_11.nii.gz`, so session 11's maps enter session 1's mean and standard-deviation images | only the maps whose session key (the one used to list the sessions at sbc.py:84) is the session | medium, not executed | Sbc.ScansAsWrittenTakeLongerSession | Sbc.SessionScansMember |
