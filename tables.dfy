/** The part of a pandas DataFrame that the pipeline uses: named columns, a
    row per timepoint and numeric cells, and selection of columns by name
    (`df[[name, ...]]`). */
module Tables {
  import opened Common
  import opened Strings

  datatype Table = Table(columns: seq<string>, rows: seq<seq<real>>)

  /** Every row has one cell per column. */
  predicate Shaped(rows: seq<seq<real>>, width: nat)
  {
    forall t :: 0 <= t < |rows| ==> |rows[t]| == width
  }

  /** A table as `read_csv` produces it: column names are distinct (the
      reader renames repeated headers) and every row is complete. */
  predicate WellFormed(t: Table)
  {
    NoDuplicates(t.columns) && Shaped(t.rows, |t.columns|)
  }

  /** Position of a column name. */
  function IndexOf(cols: seq<string>, name: string): (i: nat)
    requires name in cols
    ensures i < |cols| && cols[i] == name
    ensures forall k :: 0 <= k < i ==> cols[k] != name
  {
    if cols[0] == name then 0 else 1 + IndexOf(cols[1..], name)
  }

  /** The requested names that are not columns of the table, in request
      order: what pandas lists in its KeyError. */
  function Missing(cols: seq<string>, names: seq<string>): (m: seq<string>)
    ensures m == [] <==> forall i :: 0 <= i < |names| ==> names[i] in cols
    ensures forall i :: 0 <= i < |m| ==> m[i] in names && m[i] !in cols
    decreases |names|
  {
    if names == [] then []
    else (if names[0] in cols then [] else [names[0]]) + Missing(cols, names[1..])
  }

  /** `df[names]`: the named columns in the requested order (a name asked
      for twice appears twice), or a KeyError naming the missing ones. */
  function Select(t: Table, names: seq<string>): (r: Result<Table>)
    requires WellFormed(t)
    ensures r.Err? <==> exists i :: 0 <= i < |names| && names[i] !in t.columns
    ensures r.Err? ==> r.error == MissingColumns(Missing(t.columns, names))
    ensures r.Ok? ==> r.value.columns == names && |r.value.rows| == |t.rows| && Shaped(r.value.rows, |names|)
    ensures r.Ok? ==> forall row, i :: 0 <= row < |t.rows| && 0 <= i < |names| ==>
      r.value.rows[row][i] == t.rows[row][IndexOf(t.columns, names[i])]
  {
    if Missing(t.columns, names) != [] then Err(MissingColumns(Missing(t.columns, names)))
    else
      Ok(Table(names, seq(|t.rows|, row requires 0 <= row < |t.rows| =>
        seq(|names|, i requires 0 <= i < |names| => t.rows[row][IndexOf(t.columns, names[i])]))))
  }

  /** The cells of a two-dimensional array, row by row: the
      `values` of a DataFrame. */
  function Rows(a: array2<real>): (m: seq<seq<real>>)
    reads a
    ensures |m| == a.Length0
    ensures forall i :: 0 <= i < a.Length0 ==> |m[i]| == a.Length1
    ensures forall i, j :: 0 <= i < a.Length0 && 0 <= j < a.Length1 ==> m[i][j] == a[i, j]
  {
    seq(a.Length0, i requires 0 <= i < a.Length0 reads a =>
      seq(a.Length1, j requires 0 <= j < a.Length1 reads a => a[i, j]))
  }
}
