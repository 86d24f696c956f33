/** The null check on the merged current-period table (expense_app.py:175-181). */
module Validation {
  import opened Wrappers
  import opened Frames

  /** `allowed_null_cols` (line 175). */
  predicate NullAllowed(c: string) {
    c == "description" || c == "satisfaction"
  }

  predicate HasNull(f: Frame, c: string) {
    exists i :: 0 <= i < |f.rows| && Get(f.rows[i], c).Null?
  }

  /** The columns of `cols`, in order, that hold a null and are not allowed to. */
  function InvalidAmong(f: Frame, cols: seq<string>): (r: seq<string>)
    ensures forall c :: c in r <==> c in cols && !NullAllowed(c) && HasNull(f, c)
    ensures |r| <= |cols|
  {
    if cols == [] then []
    else
      var rest := InvalidAmong(f, cols[1..]);
      assert cols == [cols[0]] + cols[1..];
      if !NullAllowed(cols[0]) && HasNull(f, cols[0]) then [cols[0]] + rest else rest
  }

  /** `invalid_null_cols` (lines 176-177), in column order. */
  function InvalidNullColumns(f: Frame): (r: seq<string>)
    ensures forall c :: c in r <==> c in f.columns && !NullAllowed(c) && HasNull(f, c)
  {
    InvalidAmong(f, f.columns)
  }

  /** Stops with the list of offending columns, or lets the table through unchanged. */
  function Validate(f: Frame): (r: Result<Frame, Failure>)
    ensures r.Ok? ==> r.value == f
    ensures r.Err? ==> r.error.NullColumns? && r.error.columns != []
  {
    var bad := InvalidNullColumns(f);
    if bad != [] then Err(NullColumns(bad)) else Ok(f)
  }

  /** The table is rejected exactly when some column other than `description` and
      `satisfaction` holds a null, and the message names exactly those columns. */
  lemma ValidateExactly(f: Frame)
    ensures Validate(f).Err? <==> exists c :: c in f.columns && !NullAllowed(c) && HasNull(f, c)
    ensures Validate(f).Err? ==> forall c :: c in Validate(f).error.columns <==> c in f.columns && !NullAllowed(c) && HasNull(f, c)
  {
    var bad := InvalidNullColumns(f);
    if bad != [] {
      assert bad[0] in bad;
    }
  }

  /** A table that passes has a value in every row of every column except the two optional ones. */
  lemma {:induction false} ValidatedHasValues(f: Frame, c: string, i: nat)
    requires Validate(f).Ok?
    requires c in f.columns && !NullAllowed(c) && i < |f.rows|
    ensures !Get(f.rows[i], c).Null?
  {
    if Get(f.rows[i], c).Null? {
      assert HasNull(f, c);
    }
  }

  /** A column that one uploaded file has and another non-empty file lacks is NaN in that
      file's rows after concatenation, so the merged table is rejected naming that column. */
  lemma PartialColumnRejected(sheets: seq<Sheet>, c: string, k: nat, m: nat)
    requires k < |sheets| && m < |sheets|
    requires c in sheets[k].header && c !in sheets[m].header && |sheets[m].rows| > 0
    requires !NullAllowed(c)
    ensures Validate(Concat(sheets)).Err?
    ensures c in Validate(Concat(sheets)).error.columns
  {
    var f := Concat(sheets);
    assert InSomeHeader(sheets, c);
    ConcatContainsRow(sheets, m, 0);
    var i := RowCount(sheets[..m]);
    assert c !in f.rows[i];
    assert HasNull(f, c);
    assert c in InvalidNullColumns(f);
  }
}
