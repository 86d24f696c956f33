/** Uploaded tables before cleaning: the files read from the two uploaders
    (expense_app.py:125-170), their lower-cased headers and their concatenation. */
module Frames {
  import opened Wrappers
  import opened Sorting
  import Strings

  type Month = m: int | 1 <= m <= 12 witness 1
  type Day = d: int | 1 <= d <= 31 witness 1

  /** A calendar date as pandas' date parser produces it. */
  datatype Date = Date(year: int, month: Month, day: Day)

  /** The `year_month` bucket ('%Y-%m') of a date. */
  datatype YearMonth = YearMonth(year: int, month: Month)

  /** One cell as the spreadsheet/CSV reader delivers it. `Stamp` is a cell the
      mixed-format date parser recognises; `Null` is pandas' NaN/None/NaT. */
  datatype Cell = Null | Num(n: int) | Text(s: string) | Flag(b: bool) | Stamp(d: Date)

  /** One uploaded file as read: its header row and its data rows. */
  datatype Sheet = Sheet(header: seq<string>, rows: seq<seq<Cell>>)

  /** An uploaded file; `sheet` is None when reading it raised (the error is shown and the file skipped). */
  datatype Upload = Upload(name: string, sheet: Option<Sheet>)

  /** A row of the merged table; a column missing from the map holds NaN. */
  type Row = map<string, Cell>

  /** The merged DataFrame: its columns in order and its rows. */
  datatype Frame = Frame(columns: seq<string>, rows: seq<Row>)

  /** The ways the script stops before showing any metric. */
  datatype Failure =
    | NoCurrentUpload                  // st.info + st.stop (line 169-170)
    | NoReadableFile                   // st.stop (line 167)
    | NullColumns(columns: seq<string>) // st.error + st.stop (line 179-181)
    | MissingColumn(name: string)      // KeyError on df['...']
    | UnparsedDate                     // pd.to_datetime raises (line 186)
    | UnparsedAmount                   // astype(int) raises (line 192)
    | CategoryNotText                  // .str.strip() / sorted() raise (lines 148, 194, 228)
    | DescriptionNotText               // .str.strip() raises (line 195)
    | NoMonthSelected                  // st.warning + st.stop (line 244-246)
    | NoCategorySelected               // st.warning + st.stop (line 247-249)

  function Get(row: Row, c: string): Cell {
    if c in row then row[c] else Null
  }

  /** `[col.lower() for col in temp.columns]` (lines 135, 159). */
  function LowerHeader(s: Sheet): (r: Sheet)
    ensures |r.header| == |s.header| && r.rows == s.rows
    ensures forall i :: 0 <= i < |s.header| ==> r.header[i] == Strings.Lower(s.header[i])
  {
    Sheet(seq(|s.header|, i requires 0 <= i < |s.header| => Strings.Lower(s.header[i])), s.rows)
  }

  /** A data row keyed by column name; when a name repeats, its first cell is used. */
  function RowOf(header: seq<string>, cells: seq<Cell>): (r: Row)
    ensures forall c :: c in r ==> c in header
    ensures forall i :: 0 <= i < |header| && i < |cells| ==> header[i] in r
    ensures |header| > 0 && |cells| > 0 ==> r[header[0]] == cells[0]
    ensures forall i :: 0 <= i < |header| && i < |cells| && header[i] !in header[..i] ==> r[header[i]] == cells[i]
  {
    if header == [] || cells == [] then map[]
    else RowOf(header[1..], cells[1..])[header[0] := cells[0]]
  }

  /** The union of two column lists, new names appended in order of appearance. */
  function AddColumns(cols: seq<string>, header: seq<string>): (r: seq<string>)
    requires Distinct(cols)
    ensures Distinct(r)
    ensures forall c :: c in r <==> c in cols || c in header
    ensures |r| >= |cols| && r[..|cols|] == cols
    decreases |header|
  {
    if header == [] then cols
    else
      var next := if header[0] in cols then cols else cols + [header[0]];
      assert next[..|cols|] == cols;
      var r := AddColumns(next, header[1..]);
      assert header == [header[0]] + header[1..];
      r
  }

  function RowsOf(s: Sheet): (rows: seq<Row>)
    ensures |rows| == |s.rows|
  {
    seq(|s.rows|, i requires 0 <= i < |s.rows| => RowOf(s.header, s.rows[i]))
  }

  function RowCount(sheets: seq<Sheet>): nat {
    if sheets == [] then 0 else RowCount(sheets[..|sheets| - 1]) + |sheets[|sheets| - 1].rows|
  }

  ghost predicate InSomeHeader(sheets: seq<Sheet>, c: string) {
    exists k :: 0 <= k < |sheets| && c in sheets[k].header
  }

  /** `pd.concat(frames, ignore_index=True)`: the rows of every file in upload
      order, under the union of their columns; cells of absent columns are NaN. */
  function Concat(sheets: seq<Sheet>): (f: Frame)
    ensures Distinct(f.columns)
    ensures |f.rows| == RowCount(sheets)
    ensures f.rows == AllRows(sheets)
    ensures forall c :: c in f.columns <==> InSomeHeader(sheets, c)
  {
    if sheets == [] then Frame([], [])
    else
      var init := sheets[..|sheets| - 1];
      var last := sheets[|sheets| - 1];
      var f := Concat(init);
      var cols := AddColumns(f.columns, last.header);
      assert forall c :: c in cols <==> InSomeHeader(sheets, c) by {
        forall c ensures c in cols <==> InSomeHeader(sheets, c) {
          if InSomeHeader(init, c) {
            var k :| 0 <= k < |init| && c in init[k].header;
            assert c in sheets[k].header;
          }
          if InSomeHeader(sheets, c) && c !in last.header {
            var k :| 0 <= k < |sheets| && c in sheets[k].header;
            assert k < |init| && c in init[k].header;
          }
        }
      }
      Frame(cols, f.rows + RowsOf(last))
  }

  /** The merged rows: each file's rows keyed by its own header, in upload order. */
  function AllRows(sheets: seq<Sheet>): seq<Row> {
    if sheets == [] then [] else AllRows(sheets[..|sheets| - 1]) + RowsOf(sheets[|sheets| - 1])
  }

  /** Row `j` of file `k` is row `RowCount(sheets[..k]) + j` of the merged table, keyed by
      its own file's header: the files follow one another in upload order, each row once. */
  lemma {:induction false} ConcatContainsRow(sheets: seq<Sheet>, k: nat, j: nat)
    requires k < |sheets| && j < |sheets[k].rows|
    ensures RowCount(sheets[..k]) + j < |Concat(sheets).rows|
    ensures Concat(sheets).rows[RowCount(sheets[..k]) + j] == RowOf(sheets[k].header, sheets[k].rows[j])
  {
    AllRowsAt(sheets, k, j);
  }

  lemma {:induction false} AllRowsAt(sheets: seq<Sheet>, k: nat, j: nat)
    requires k < |sheets| && j < |sheets[k].rows|
    ensures |AllRows(sheets)| == RowCount(sheets)
    ensures RowCount(sheets[..k]) + j < |AllRows(sheets)|
    ensures AllRows(sheets)[RowCount(sheets[..k]) + j] == RowOf(sheets[k].header, sheets[k].rows[j])
  {
    var init := sheets[..|sheets| - 1];
    var last := sheets[|sheets| - 1];
    var prior := AllRows(init);
    assert AllRows(sheets) == prior + RowsOf(last);
    if k == |sheets| - 1 {
      assert sheets[..k] == init;
      AllRowsLength(init);
      assert AllRows(sheets)[|prior| + j] == RowsOf(last)[j];
    } else {
      assert init[k] == sheets[k];
      assert init[..k] == sheets[..k];
      AllRowsAt(init, k, j);
      AllRowsLength(sheets);
      assert AllRows(sheets)[RowCount(sheets[..k]) + j] == prior[RowCount(sheets[..k]) + j];
    }
  }

  lemma {:induction false} AllRowsLength(sheets: seq<Sheet>)
    ensures |AllRows(sheets)| == RowCount(sheets)
  {
    if sheets != [] {
      AllRowsLength(sheets[..|sheets| - 1]);
    }
  }

  /** The files that could be read, with lower-cased headers, in upload order. */
  function Readable(uploads: seq<Upload>): seq<Sheet> {
    if uploads == [] then []
    else
      var last := uploads[|uploads| - 1];
      Readable(uploads[..|uploads| - 1]) + (if last.sheet.Some? then [LowerHeader(last.sheet.value)] else [])
  }

  function Unreadable(uploads: seq<Upload>): seq<string> {
    if uploads == [] then []
    else
      var last := uploads[|uploads| - 1];
      Unreadable(uploads[..|uploads| - 1]) + (if last.sheet.None? then [last.name] else [])
  }

  /** The `for file in uploaders` loops (lines 128-136 and 152-162): read each file,
      lower-case its column names and append it, or report its name and skip it. */
  method ReadUploads(uploads: seq<Upload>) returns (frames: seq<Sheet>, failed: seq<string>)
    ensures frames == Readable(uploads) && failed == Unreadable(uploads)
    ensures |frames| + |failed| == |uploads|
    ensures forall k :: 0 <= k < |frames| ==> forall c :: c in frames[k].header ==> Strings.Lower(c) == c
  {
    frames, failed := [], [];
    var i := 0;
    while i < |uploads|
      invariant 0 <= i <= |uploads|
      invariant frames == Readable(uploads[..i]) && failed == Unreadable(uploads[..i])
      invariant |frames| + |failed| == i
      invariant forall k :: 0 <= k < |frames| ==> forall c :: c in frames[k].header ==> Strings.Lower(c) == c
    {
      assert uploads[..i + 1][..i] == uploads[..i];
      var file := uploads[i];
      if file.sheet.Some? {
        var read := LowerHeader(file.sheet.value);
        forall c | c in read.header ensures Strings.Lower(c) == c {
          var j :| 0 <= j < |read.header| && read.header[j] == c;
          LowerTwice(file.sheet.value.header[j]);
        }
        frames := frames + [read];
      } else {
        failed := failed + [file.name];
      }
      i := i + 1;
    }
    assert uploads[..i] == uploads;
  }

  lemma LowerTwice(s: string)
    ensures Strings.Lower(Strings.Lower(s)) == Strings.Lower(s)
  {
  }

  /** The current-period table (lines 151-170): stop when nothing was uploaded or
      no uploaded file could be read, otherwise the concatenation of those read. */
  function LoadCurrent(uploads: seq<Upload>): (r: Result<Frame, Failure>)
    ensures uploads == [] ==> r == Err(NoCurrentUpload)
    ensures uploads != [] && Readable(uploads) == [] ==> r == Err(NoReadableFile)
    ensures r.Ok? ==> r.value == Concat(Readable(uploads)) && Readable(uploads) != []
  {
    if uploads == [] then Err(NoCurrentUpload)
    else if Readable(uploads) == [] then Err(NoReadableFile)
    else Ok(Concat(Readable(uploads)))
  }

  /** The optional past table (lines 126-141): None (an empty DataFrame) when no file was read. */
  function LoadPast(uploads: seq<Upload>): (r: Option<Frame>)
    ensures r.Some? <==> Readable(uploads) != []
    ensures r.Some? ==> r.value == Concat(Readable(uploads))
  {
    if Readable(uploads) == [] then None else Some(Concat(Readable(uploads)))
  }

  /** A current upload is rejected only when none of its files can be read. */
  lemma {:induction false} ReadableWhenSomeFileReads(uploads: seq<Upload>, k: nat)
    requires k < |uploads| && uploads[k].sheet.Some?
    ensures Readable(uploads) != []
    ensures LoadCurrent(uploads).Ok?
  {
    var init := uploads[..|uploads| - 1];
    if k < |uploads| - 1 {
      assert init[k] == uploads[k];
      ReadableWhenSomeFileReads(init, k);
    }
  }
}
